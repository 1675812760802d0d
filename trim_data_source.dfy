/**
 * The trimming decorator itself: a wrapper over an extractor-backed source
 * that starts reading at trimStart, re-bases timestamps to zero, and reports
 * the trimmed duration; the end trim shows only in that reported duration.
 * Each state-changing method is proved against the pure transition of module
 * TrimWindow that it performs on State().
 */
module TrimSource {
  import opened Media
  import opened TrimWindow

  class TrimDataSource {
    const source: ExtractorSource
    var trimStartUs: int
    var trimDurationUs: int
    var isAudioTrackReady: bool
    var isVideoTrackReady: bool

    /** The end of the trim window, duration - trimEnd, fixed at construction. */
    ghost const windowEndUs: int

    /** Every seek correction keeps the end of the window where construction put it. */
    ghost predicate Valid()
      reads this
    {
      State().EndUs() == windowEndUs
    }

    /** The decorator's fields as a value. */
    function State(): TrimState
      reads this
    {
      TrimState(trimStartUs, trimDurationUs, isAudioTrackReady, isVideoTrackReady)
    }

    /** The assignments of the Java constructor, once its argument checks have passed. */
    constructor (source: ExtractorSource, trimStartUs: int, trimEndUs: int)
      requires trimStartUs >= 0 && trimEndUs >= 0
      requires trimStartUs + trimEndUs <= source.durationUs
      ensures this.source == source && Valid()
      ensures windowEndUs == source.durationUs - trimEndUs
      ensures Ok(State()) == InitialState(source.durationUs, trimStartUs, trimEndUs,
                                          source.HasTrack(Audio), source.HasTrack(Video))
    {
      this.source := source;
      this.trimStartUs := trimStartUs;
      this.trimDurationUs := ComputeTrimDuration(source.durationUs, trimStartUs, trimEndUs).value;
      windowEndUs := source.durationUs - trimEndUs;
      isAudioTrackReady := !source.HasTrack(Audio) || trimStartUs == 0;
      isVideoTrackReady := !source.HasTrack(Video) || trimStartUs == 0;
    }

    /**
     * `new TrimDataSource(source, trimStartUs, trimEndUs)`: the decorator, or
     * the IllegalArgumentException the constructor throws.
     */
    static method Create(source: ExtractorSource, trimStartUs: int, trimEndUs: int) returns (r: Result<TrimDataSource>)
      ensures var expected := InitialState(source.durationUs, trimStartUs, trimEndUs,
                                           source.HasTrack(Audio), source.HasTrack(Video));
        && (r.Err? <==> expected.Err?)
        && (r.Err? ==> r.error == expected.error)
        && (r.Ok? ==> fresh(r.value) && r.value.source == source && r.value.Valid()
                      && r.value.windowEndUs == source.durationUs - trimEndUs
                      && r.value.State() == expected.value)
    {
      if trimStartUs < 0 || trimEndUs < 0 {
        return Err(NegativeTrim);
      }
      if trimStartUs + trimEndUs > source.durationUs {
        return Err(TrimBeyondDuration);
      }
      var d := new TrimDataSource(source, trimStartUs, trimEndUs);
      return Ok(d);
    }

    method GetDurationUs() returns (d: int)
      requires Valid()
      ensures d == State().durationUs && trimStartUs + d == windowEndUs
    {
      return trimDurationUs;
    }

    /** The source's format for `t`, with its duration overwritten by the trimmed one when present. */
    method GetTrackFormat(t: TrackType) returns (f: MediaFormat?)
      modifies source.FormatFrame(t)
      ensures f == source.TrackFormat(t)
      ensures f != null ==> f.durationUs == Some(trimDurationUs)
    {
      f := source.TrackFormat(t);
      if f != null {
        f.durationUs := Some(trimDurationUs);
      }
    }

    /** Fold the extractor's landing time into the window, keeping its end. */
    method UpdateTrimValues(timestampUs: int)
      requires Valid()
      modifies this
      ensures Valid()
      ensures State() == TrimWindow.UpdateTrimValues(old(State()), timestampUs)
    {
      trimDurationUs := trimDurationUs + trimStartUs - timestampUs;
      trimStartUs := timestampUs;
    }

    /**
     * Whether track `t` may be read now. `sourceCanRead` is the underlying
     * source's answer for `t`; `sampleTimeUs` is the timestamp its extractor
     * reports after seeking to the window's start.
     */
    method CanReadTrack(t: TrackType, sourceCanRead: bool, sampleTimeUs: int) returns (readable: bool)
      requires Valid()
      modifies this, source`seekLog
      ensures Valid()
      ensures var o := CanRead(old(State()), t, sourceCanRead, sampleTimeUs);
        readable == o.readable && State() == o.next && source.seekLog == old(source.seekLog) + o.seeks
    {
      if sourceCanRead {
        if isAudioTrackReady && isVideoTrackReady {
          return true;
        }
        match t
        case Audio =>
          if !isAudioTrackReady {
            source.SeekTo(trimStartUs);
            UpdateTrimValues(sampleTimeUs);
            isAudioTrackReady := true;
          }
          return isVideoTrackReady;
        case Video =>
          if !isVideoTrackReady {
            source.SeekTo(trimStartUs);
            UpdateTrimValues(sampleTimeUs);
            isVideoTrackReady := true;
            if isAudioTrackReady {
              source.SeekTo(trimStartUs);
            }
          }
          return isAudioTrackReady;
      }
      return false;
    }

    /** Read the next chunk, whose native timestamp is `sampleTimeUs`, onto the trimmed timeline. */
    method ReadTrack(chunk: Chunk, sampleTimeUs: int)
      modifies chunk
      ensures chunk.timestampUs == Rebase(State(), sampleTimeUs)
      ensures unchanged(this)
    {
      source.ReadTrack(chunk, sampleTimeUs);
      chunk.timestampUs := chunk.timestampUs - trimStartUs;
    }

    method ReleaseTrack(t: TrackType)
      requires Valid()
      modifies this
      ensures Valid()
      ensures State() == TrimWindow.ReleaseTrack(old(State()), t)
    {
      match t
      case Audio =>
        isAudioTrackReady := false;
      case Video =>
        isVideoTrackReady := false;
    }

    method Rewind()
      requires Valid()
      modifies this
      ensures Valid()
      ensures State() == TrimWindow.Rewind(old(State()))
    {
      isAudioTrackReady := false;
      isVideoTrackReady := false;
    }
  }
}
