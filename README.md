# TrimDataSource, modelled in Dafny

A model of `TrimDataSource` from the Transcoder library. It is a `DataSource`
decorator that trims an extractor-backed media source at both ends. It seeks
reading to the start trim and re-bases chunk timestamps so that the trimmed start
is zero. The end trim is only advertised: it shortens the duration reported by
`getDurationUs` and written into track formats. Reads, progress and draining pass
straight through, so nothing stops delivery at `duration - trimEnd`.

The decorator has three parts:

- **Construction.** Negative trims are rejected, and so are trims longer than the
  media. The trimmed duration is `duration - trimStart - trimEnd`. A track starts
  ready when it is absent or when `trimStart == 0`.
- **Seek correction in `canReadTrack`.** The first readiness check of a pending
  track seeks the extractor to the window's start. It then moves the shared start
  to the timestamp the extractor landed on, while the window's end stays where it
  was (`updateTrimValues`). A track is reported readable only once the other track
  has been corrected as well. When video is corrected after audio, a second seek
  is issued. `releaseTrack` and `rewind` make the corrections pending again.
- **Re-basing in `readTrack`.** The current start is subtracted from the
  timestamp of each chunk read.

Files:

- `media.dfy` (module `Media`): the collaborators, reduced to what the decorator
  observes. These are the track type, a format with an optional duration entry, a
  chunk with a mutable timestamp, and the extractor-backed source. The source has
  a fixed duration, fixed track formats, and a log of the positions its extractor
  was asked to seek to.
- `trim_window.dfy` (module `TrimWindow`): the decorator's state as a value
  (`TrimState`) and the pure transitions on it. It also holds lemmas about single
  calls, about arbitrary sequences of calls (`Run`), and the worked scenarios.
- `trim_data_source.dfy` (module `TrimSource`): the class `TrimDataSource`. It has
  the Java fields and methods that update them in place. Each state-changing
  method's `ensures` ties the new fields (`State()`), the answer and the seek log
  to the pure transition of `TrimWindow`. The object invariant `Valid()` says that the window
  end stays at `duration - trimEnd` for the object's lifetime.

Inputs that come from code outside this model are method parameters:

- the underlying source's `canReadTrack` answer (`sourceCanRead`);
- the timestamp `extractor.getSampleTime()` reports after the seek (`sampleTimeUs`
  of `CanReadTrack`);
- the native timestamp the underlying `readTrack` writes into the chunk
  (`sampleTimeUs` of `ReadTrack`).

In these details the model follows the code:

- Absent tracks start ready (`TrimDataSource.java:35-36`).
- `releaseTrack` and `rewind` clear the flags even when the start is zero
  (`TrimDataSource.java:138, 141, 149-150`).
- `rewind` also clears the flag of a track the media does not have, which
  construction had set to ready (`TrimDataSource.java:35-36, 149-150`). So a
  rewind does not restore the state construction produced. On an audio-only source
  with a leading trim, the first audio check answers true. After a rewind, no audio
  check answers true again unless video is checked (`AudioOnlyStallsAfterRewind`).
  This is derived from the code and was not executed.
- The second seek after a video correction (`TrimDataSource.java:104`) targets
  `trimStartUs` after it was updated. That value is the landing time of the first
  seek, not the originally requested start. `CanRead` records it that way in its
  `seeks`.

## Model

| member | source | states |
|---|---|---|
| TrimWindow.ComputeTrimDuration | lib/src/main/java/com/otaliastudios/transcoder/source/TrimDataSource.java:39-45 | fails exactly when `trimStart + trimEnd > duration`; otherwise start, result and end add up to the duration, and with non-negative trims the result lies in `[0, duration]` |
| TrimWindow.InitialState | lib/src/main/java/com/otaliastudios/transcoder/source/TrimDataSource.java:28-45 | construction fails iff a trim is negative or the trims exceed the duration; the error is the negative-trim one iff a trim is negative; on success the start is `trimStart`, the window ends at `duration - trimEnd`, `0 <= durationUs <= duration`, and each flag is true iff its track is absent or `trimStart == 0` |
| TrimSource.TrimDataSource.constructor | lib/src/main/java/com/otaliastudios/transcoder/source/TrimDataSource.java:32-37 | once the argument checks have passed, the fields equal `InitialState`'s successful value and the window end is fixed at `duration - trimEnd` |
| TrimSource.TrimDataSource.Create | lib/src/main/java/com/otaliastudios/transcoder/source/TrimDataSource.java:28-45 | `new TrimDataSource(...)`: it fails exactly when `InitialState` does and with the same error; otherwise it returns a fresh decorator over the given source whose fields are `InitialState`'s value |
| TrimSource.TrimDataSource.GetDurationUs | lib/src/main/java/com/otaliastudios/transcoder/source/TrimDataSource.java:58-61 | returns the current trimmed duration, which reaches from the current start to the fixed window end |
| TrimSource.TrimDataSource.GetTrackFormat | lib/src/main/java/com/otaliastudios/transcoder/source/TrimDataSource.java:63-71 | returns the source's format for the track; when one exists its duration entry becomes the trimmed duration; no other format is touched |
| TrimWindow.UpdateTrimValues | lib/src/main/java/com/otaliastudios/transcoder/source/TrimDataSource.java:113-116 | the start becomes the landing timestamp, the window end is conserved, and both flags are unchanged |
| TrimSource.TrimDataSource.UpdateTrimValues | lib/src/main/java/com/otaliastudios/transcoder/source/TrimDataSource.java:113-116 | updates the fields in place as `TrimWindow.UpdateTrimValues` and keeps the object invariant |
| TrimWindow.CanRead | lib/src/main/java/com/otaliastudios/transcoder/source/TrimDataSource.java:82-111 | answers true iff the source can read and both tracks are ready afterwards; the window end is conserved; when the source cannot read, or both tracks were already ready, nothing changes and nothing is sought; when the source can read, the checked track ends up ready and the other flag is untouched |
| TrimSource.TrimDataSource.CanReadTrack | lib/src/main/java/com/otaliastudios/transcoder/source/TrimDataSource.java:82-111 | the answer, the new fields and the seeks appended to the extractor's log are exactly those of `TrimWindow.CanRead`; the object invariant (fixed window end) is kept |
| TrimWindow.FirstPassCorrection | lib/src/main/java/com/otaliastudios/transcoder/source/TrimDataSource.java:89-107 | a check of a pending track on a readable source applies exactly one `updateTrimValues`, marks that track ready, and answers the other track's flag; the first seek targets the old start; a second seek, to the corrected start, is issued iff video is corrected while audio is ready |
| TrimWindow.ReadyTrackUntouched | lib/src/main/java/com/otaliastudios/transcoder/source/TrimDataSource.java:89-107 | checking a track that is already ready changes nothing and seeks nowhere; it answers true iff the source can read and the other track is ready |
| TrimWindow.Rebase | lib/src/main/java/com/otaliastudios/transcoder/source/TrimDataSource.java:121 | the re-based timestamp plus the current start gives back the native timestamp |
| TrimSource.TrimDataSource.ReadTrack | lib/src/main/java/com/otaliastudios/transcoder/source/TrimDataSource.java:118-122 | the chunk's timestamp becomes the native timestamp minus the current start; no field of the decorator changes |
| TrimWindow.RebaseAfterCorrection | lib/src/main/java/com/otaliastudios/transcoder/source/TrimDataSource.java:113-122 | after a track's correction, the landing sample is re-based to 0, every later sample to a non-negative time, and distances between samples are preserved |
| TrimWindow.ReleaseTrack | lib/src/main/java/com/otaliastudios/transcoder/source/TrimDataSource.java:134-145 | clears exactly the released track's flag and leaves start and duration unchanged |
| TrimSource.TrimDataSource.ReleaseTrack | lib/src/main/java/com/otaliastudios/transcoder/source/TrimDataSource.java:134-145 | updates the fields in place as `TrimWindow.ReleaseTrack` and keeps the object invariant |
| TrimWindow.Rewind | lib/src/main/java/com/otaliastudios/transcoder/source/TrimDataSource.java:147-152 | clears both flags and leaves start and duration unchanged |
| TrimSource.TrimDataSource.Rewind | lib/src/main/java/com/otaliastudios/transcoder/source/TrimDataSource.java:147-152 | updates the fields in place as `TrimWindow.Rewind` and keeps the object invariant |
| TrimWindow.RunKeepsWindowEnd | lib/src/main/java/com/otaliastudios/transcoder/source/TrimDataSource.java:113-116 | no sequence of readiness checks, releases and rewinds moves the end of the trim window |
| TrimWindow.CorrectionsPaidByResets | lib/src/main/java/com/otaliastudios/transcoder/source/TrimDataSource.java:82-152 | over any sequence of calls, a track's corrections plus its final pending flag never exceed its initial pending flag plus the number of resets (its releases and all rewinds) |
| TrimWindow.AtMostOneCorrectionWithoutReset | lib/src/main/java/com/otaliastudios/transcoder/source/TrimDataSource.java:89-107 | without a release of the track or a rewind, the track is corrected at most once, never if it starts ready, and a ready track stays ready |
| TrimWindow.TwoPhaseStart | lib/src/main/java/com/otaliastudios/transcoder/source/TrimDataSource.java:28-111 | with a leading trim and both tracks present: the first audio check answers false after one seek to the requested start; the video check then answers true, seeks twice, and leaves the window `[videoLanding, duration - trimEnd)`; a further audio check answers true and changes nothing |
| TrimWindow.NoLeadingTrimReadsAtOnce | lib/src/main/java/com/otaliastudios/transcoder/source/TrimDataSource.java:35-87 | without a leading trim, the first check of a readable track answers true, issues no seek and changes nothing |
| TrimWindow.TenSecondScenario | lib/src/main/java/com/otaliastudios/transcoder/source/TrimDataSource.java:28-121 | a 10 s source trimmed by 1 s whose extractor lands on 0.95 s ends with start 950000 us and duration 9050000 us, and the landing sample is re-based to 0 |
| TrimWindow.OverlongTrimRejected | lib/src/main/java/com/otaliastudios/transcoder/source/TrimDataSource.java:40-43 | a 5 s source cannot be trimmed by 6 s |
| TrimWindow.RewindRealigns | lib/src/main/java/com/otaliastudios/transcoder/source/TrimDataSource.java:82-152 | after a rewind, an audio-then-video pass answers false then true and ends with the window `[videoLanding, end)`; the result depends only on the conserved window end and the two landing times |
| TrimWindow.PendingWithoutCheck | lib/src/main/java/com/otaliastudios/transcoder/source/TrimDataSource.java:89-107 | a track's flag is set only by a check of that track: from a state where the track is pending, any sequence of calls without a check of it leaves it pending |
| TrimWindow.AudioOnlyStallsAfterRewind | lib/src/main/java/com/otaliastudios/transcoder/source/TrimDataSource.java:35-36 | on an audio-only source with a leading trim, the first audio check answers true; after a rewind and any calls that never check video, an audio check answers false, because the rewind also cleared the absent video track's flag (:149-150) |
| TrimWindow.ReleaseAudioBlocksVideo | lib/src/main/java/com/otaliastudios/transcoder/source/TrimDataSource.java:134-145 | after audio is released, followed by any sequence of calls without an audio check (other releases and rewinds included), a video check answers false whatever the source says |
| Media.ExtractorSource.HasTrack | lib/src/main/java/com/otaliastudios/transcoder/source/TrimDataSource.java:73-75 | true iff the source has a format for the track, which is exactly when `getTrackFormat`'s duration overwrite has an object to change |

## Left out

- Stopping delivery at the window end: the decorator does not do it, and nor does the model. `ReadTrack` has no end bound, and stopping at `duration - trimEnd` is left to the caller.
- Java `long` overflow: every integer is unbounded. Trims whose sum overflows `long` are out of scope.
- The values `getSampleTime()` returns are not constrained. On Android it may report -1 when no sample is available, and the model then lets the start become -1, as the code does.
- The Android `MediaExtractor`: seeking is only recorded in `ExtractorSource.seekLog`. Where the extractor lands and whether the source can read are inputs.
- `MediaFormat` and the `MediaExtractorDataSource` internals: a format is reduced to its optional duration entry, and track presence to whether a format exists.
- The delegation of `releaseTrack` and `rewind` to the underlying source: that source's own state is not part of this model.
- `getOrientation` and `getLocation`: plain pass-through; the location is a floating-point pair.
- `selectTrack`, `getReadUs` and `isDrained`: plain forwarding that never touches the decorator's state.
- Logging (`TAG`, `LOG`).
