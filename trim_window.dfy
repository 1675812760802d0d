/**
 * The trimming decorator's state as a value: the shared trim window
 * (start and duration, in microseconds) and one readiness flag per track,
 * with the pure transitions that the decorator's methods perform on it.
 */
module TrimWindow {
  import opened Media

  /** The two reasons construction throws an IllegalArgumentException. */
  datatype TrimError = NegativeTrim | TrimBeyondDuration

  datatype Result<T> = Ok(value: T) | Err(error: TrimError)

  datatype TrimState = TrimState(startUs: int, durationUs: int, audioReady: bool, videoReady: bool) {
    /** Where the trim window ends on the source's timeline. */
    function EndUs(): int {
      startUs + durationUs
    }

    predicate Ready(t: TrackType) {
      match t
      case Audio => audioReady
      case Video => videoReady
    }
  }

  // ---------------------------------------------------------------------------
  // Construction

  /** The trimmed duration, or the error thrown when the trims exceed the media. */
  function ComputeTrimDuration(durationUs: int, trimStartUs: int, trimEndUs: int): (r: Result<int>)
    ensures r.Err? <==> trimStartUs + trimEndUs > durationUs
    ensures r.Err? ==> r.error == TrimBeyondDuration
    ensures r.Ok? ==> trimStartUs + r.value + trimEndUs == durationUs
    ensures r.Ok? && trimStartUs >= 0 && trimEndUs >= 0 ==> 0 <= r.value <= durationUs
  {
    if trimStartUs + trimEndUs > durationUs then Err(TrimBeyondDuration)
    else Ok(durationUs - trimStartUs - trimEndUs)
  }

  /**
   * The state a freshly constructed decorator holds, or the error its
   * constructor throws. A track starts ready when it is absent or when no
   * leading trim is requested.
   */
  function InitialState(durationUs: int, trimStartUs: int, trimEndUs: int, hasAudio: bool, hasVideo: bool): (r: Result<TrimState>)
    ensures r.Err? <==> trimStartUs < 0 || trimEndUs < 0 || trimStartUs + trimEndUs > durationUs
    ensures r.Err? ==> (r.error == NegativeTrim <==> trimStartUs < 0 || trimEndUs < 0)
    ensures r.Ok? ==> r.value.startUs == trimStartUs && r.value.EndUs() == durationUs - trimEndUs
    ensures r.Ok? ==> 0 <= r.value.durationUs <= durationUs
    ensures r.Ok? ==> (r.value.audioReady <==> !hasAudio || trimStartUs == 0)
    ensures r.Ok? ==> (r.value.videoReady <==> !hasVideo || trimStartUs == 0)
  {
    if trimStartUs < 0 || trimEndUs < 0 then Err(NegativeTrim)
    else
      match ComputeTrimDuration(durationUs, trimStartUs, trimEndUs)
      case Err(e) => Err(e)
      case Ok(d) => Ok(TrimState(trimStartUs, d, !hasAudio || trimStartUs == 0, !hasVideo || trimStartUs == 0))
  }

  // ---------------------------------------------------------------------------
  // Seek correction

  /** Move the window's start to where the extractor landed, keeping its end. */
  function UpdateTrimValues(s: TrimState, timestampUs: int): (r: TrimState)
    ensures r.startUs == timestampUs && r.EndUs() == s.EndUs()
    ensures r.audioReady == s.audioReady && r.videoReady == s.videoReady
  {
    s.(durationUs := s.durationUs + s.startUs - timestampUs, startUs := timestampUs)
  }

  /** What one readiness check answers, the state it leaves, and the seeks it issues. */
  datatype CanReadOutcome = CanReadOutcome(readable: bool, next: TrimState, seeks: seq<int>)

  /**
   * One readiness check of track `t`. `sourceCanRead` is the underlying
   * source's answer for `t`, and `sampleTimeUs` is the timestamp the extractor
   * reports after seeking to the window's start.
   */
  function CanRead(s: TrimState, t: TrackType, sourceCanRead: bool, sampleTimeUs: int): (o: CanReadOutcome)
    ensures o.readable <==> sourceCanRead && o.next.audioReady && o.next.videoReady
    ensures o.next.EndUs() == s.EndUs()
    ensures !sourceCanRead ==> o.next == s && o.seeks == []
    ensures s.audioReady && s.videoReady ==> o.next == s && o.seeks == []
    ensures sourceCanRead ==> o.next.Ready(t) && o.next.Ready(t.Other()) == s.Ready(t.Other())
  {
    if !sourceCanRead then CanReadOutcome(false, s, [])
    else if s.audioReady && s.videoReady then CanReadOutcome(true, s, [])
    else
      match t
      case Audio =>
        if !s.audioReady then
          var n := UpdateTrimValues(s, sampleTimeUs).(audioReady := true);
          CanReadOutcome(n.videoReady, n, [s.startUs])
        else CanReadOutcome(s.videoReady, s, [])
      case Video =>
        if !s.videoReady then
          var n := UpdateTrimValues(s, sampleTimeUs).(videoReady := true);
          // the second seek targets the already corrected start
          CanReadOutcome(n.audioReady, n, if n.audioReady then [s.startUs, n.startUs] else [s.startUs])
        else CanReadOutcome(s.audioReady, s, [])
  }

  /** A first check of a pending track seeks once, corrects once, and answers the other track's flag. */
  lemma FirstPassCorrection(s: TrimState, t: TrackType, sampleTimeUs: int)
    requires !s.Ready(t)
    ensures var o := CanRead(s, t, true, sampleTimeUs);
      && o.next == UpdateTrimValues(s, sampleTimeUs).(audioReady := s.audioReady || t == Audio,
                                                      videoReady := s.videoReady || t == Video)
      && o.readable == s.Ready(t.Other())
      && o.seeks[0] == s.startUs
      && (|o.seeks| == 2 <==> t == Video && s.audioReady)
      && |o.seeks| <= 2
      && (|o.seeks| == 2 ==> o.seeks[1] == o.next.startUs)
  {
  }

  /** A ready track is never corrected again: checking it changes nothing and seeks nowhere. */
  lemma ReadyTrackUntouched(s: TrimState, t: TrackType, sourceCanRead: bool, sampleTimeUs: int)
    requires s.Ready(t)
    ensures var o := CanRead(s, t, sourceCanRead, sampleTimeUs);
      o.next == s && o.seeks == [] && o.readable == (sourceCanRead && s.Ready(t.Other()))
  {
  }

  // ---------------------------------------------------------------------------
  // Resets and reads

  /** Releasing a track makes its correction pending again. */
  function ReleaseTrack(s: TrimState, t: TrackType): (r: TrimState)
    ensures !r.Ready(t) && r.Ready(t.Other()) == s.Ready(t.Other())
    ensures r.startUs == s.startUs && r.durationUs == s.durationUs
  {
    match t
    case Audio => s.(audioReady := false)
    case Video => s.(videoReady := false)
  }

  /** Rewinding makes both corrections pending again. */
  function Rewind(s: TrimState): (r: TrimState)
    ensures !r.audioReady && !r.videoReady
    ensures r.startUs == s.startUs && r.durationUs == s.durationUs
  {
    s.(audioReady := false, videoReady := false)
  }

  /** The timestamp a chunk carries once re-based onto the trimmed timeline. */
  function Rebase(s: TrimState, sampleTimeUs: int): (r: int)
    ensures r + s.startUs == sampleTimeUs
  {
    sampleTimeUs - s.startUs
  }

  /**
   * After a track's correction the sample the extractor landed on is re-based
   * to zero, every later sample to a non-negative time, and distances between
   * samples are kept.
   */
  lemma RebaseAfterCorrection(s: TrimState, t: TrackType, landingUs: int, laterUs: int, otherUs: int)
    requires !s.Ready(t) && landingUs <= laterUs
    ensures var n := CanRead(s, t, true, landingUs).next;
      && Rebase(n, landingUs) == 0
      && Rebase(n, laterUs) >= 0
      && Rebase(n, laterUs) - Rebase(n, otherUs) == laterUs - otherUs
  {
  }

  // ---------------------------------------------------------------------------
  // Sequences of calls

  /** A call on the decorator that may change its state. */
  datatype Event =
    | CanReadEvent(track: TrackType, sourceCanRead: bool, sampleTimeUs: int)
    | ReleaseEvent(track: TrackType)
    | RewindEvent

  function Apply(s: TrimState, e: Event): TrimState {
    match e
    case CanReadEvent(t, c, l) => CanRead(s, t, c, l).next
    case ReleaseEvent(t) => ReleaseTrack(s, t)
    case RewindEvent => Rewind(s)
  }

  function Run(s: TrimState, es: seq<Event>): TrimState
    decreases |es|
  {
    if es == [] then s else Run(Apply(s, es[0]), es[1..])
  }

  /** Whether `e`, applied to `s`, corrects the window on behalf of track `t`. */
  predicate Corrects(s: TrimState, e: Event, t: TrackType) {
    e.CanReadEvent? && e.track == t && e.sourceCanRead && !s.Ready(t)
  }

  /** How many corrections a run performs on behalf of track `t`. */
  function CorrectionsOf(s: TrimState, es: seq<Event>, t: TrackType): nat
    decreases |es|
  {
    if es == [] then 0
    else (if Corrects(s, es[0], t) then 1 else 0) + CorrectionsOf(Apply(s, es[0]), es[1..], t)
  }

  /** How many events of a run reset track `t`. */
  function ResetsOf(es: seq<Event>, t: TrackType): nat
    decreases |es|
  {
    if es == [] then 0
    else (if es[0] == RewindEvent || es[0] == ReleaseEvent(t) then 1 else 0) + ResetsOf(es[1..], t)
  }

  /** No sequence of calls moves the end of the trim window. */
  lemma {:induction false} RunKeepsWindowEnd(s: TrimState, es: seq<Event>)
    ensures Run(s, es).EndUs() == s.EndUs()
    decreases |es|
  {
    if es != [] {
      RunKeepsWindowEnd(Apply(s, es[0]), es[1..]);
    }
  }

  /**
   * Corrections of track `t` and its final pending flag together never exceed
   * its initial pending flag plus the resets of `t`.
   */
  lemma {:induction false} CorrectionsPaidByResets(s: TrimState, es: seq<Event>, t: TrackType)
    ensures CorrectionsOf(s, es, t) + (if Run(s, es).Ready(t) then 0 else 1)
            <= (if s.Ready(t) then 0 else 1) + ResetsOf(es, t)
    decreases |es|
  {
    if es != [] {
      CorrectionsPaidByResets(Apply(s, es[0]), es[1..], t);
    }
  }

  /** Without a reset of `t`, track `t` is corrected at most once, and never when already ready. */
  lemma AtMostOneCorrectionWithoutReset(s: TrimState, es: seq<Event>, t: TrackType)
    requires ResetsOf(es, t) == 0
    ensures CorrectionsOf(s, es, t) <= (if s.Ready(t) then 0 else 1)
    ensures s.Ready(t) ==> Run(s, es).Ready(t)
  {
    CorrectionsPaidByResets(s, es, t);
  }

  // ---------------------------------------------------------------------------
  // Scenarios

  /**
   * With a leading trim and both tracks present, the audio check answers false
   * until video has been corrected; then both answer true and nothing moves.
   */
  lemma TwoPhaseStart(durationUs: int, trimStartUs: int, trimEndUs: int, audioUs: int, videoUs: int)
    requires InitialState(durationUs, trimStartUs, trimEndUs, true, true).Ok?
    requires trimStartUs > 0
    ensures var s0 := InitialState(durationUs, trimStartUs, trimEndUs, true, true).value;
      var a := CanRead(s0, Audio, true, audioUs);
      var v := CanRead(a.next, Video, true, videoUs);
      var a2 := CanRead(v.next, Audio, true, audioUs);
      && !a.readable && a.seeks == [trimStartUs]
      && v.readable && v.seeks == [audioUs, videoUs]
      && v.next == TrimState(videoUs, durationUs - trimEndUs - videoUs, true, true)
      && a2.readable && a2.next == v.next && a2.seeks == []
  {
  }

  /** Without a leading trim, the first check of a readable track answers true and seeks nowhere. */
  lemma NoLeadingTrimReadsAtOnce(durationUs: int, trimEndUs: int, hasAudio: bool, hasVideo: bool,
                                 t: TrackType, sampleTimeUs: int)
    requires InitialState(durationUs, 0, trimEndUs, hasAudio, hasVideo).Ok?
    ensures var s0 := InitialState(durationUs, 0, trimEndUs, hasAudio, hasVideo).value;
      var o := CanRead(s0, t, true, sampleTimeUs);
      o.readable && o.next == s0 && o.seeks == []
  {
  }

  /**
   * A ten second source trimmed by one second at the start, whose extractor
   * lands on 0.95 s: the window becomes [0.95 s, 10 s) and the landing sample
   * is re-based to zero.
   */
  lemma TenSecondScenario()
    ensures var s0 := InitialState(10_000_000, 1_000_000, 0, true, true).value;
      var n := CanRead(CanRead(s0, Video, true, 950_000).next, Audio, true, 950_000).next;
      && n == TrimState(950_000, 9_050_000, true, true)
      && Rebase(n, 950_000) == 0
  {
  }

  /** A five second source cannot be trimmed by six seconds. */
  lemma OverlongTrimRejected()
    ensures InitialState(5_000_000, 6_000_000, 0, true, true) == Err(TrimBeyondDuration)
  {
  }

  /**
   * After a rewind, an audio-then-video pass re-derives the window from its
   * end and the two landing times alone, whatever the state before.
   */
  lemma RewindRealigns(s: TrimState, audioUs: int, videoUs: int)
    ensures var a := CanRead(Rewind(s), Audio, true, audioUs);
      var v := CanRead(a.next, Video, true, videoUs);
      && !a.readable && a.seeks == [s.startUs]
      && v.readable && v.seeks == [audioUs, videoUs]
      && v.next == TrimState(videoUs, s.EndUs() - videoUs, true, true)
  {
  }

  // ---------------------------------------------------------------------------
  // Resets of absent tracks

  /** A track's correction stays pending through any run of calls that never checks that track. */
  lemma {:induction false} PendingWithoutCheck(s: TrimState, es: seq<Event>, t: TrackType)
    requires !s.Ready(t)
    requires forall i :: 0 <= i < |es| ==> !(es[i].CanReadEvent? && es[i].track == t)
    ensures !Run(s, es).Ready(t)
    decreases |es|
  {
    if es != [] {
      assert !(es[0].CanReadEvent? && es[0].track == t);
      PendingWithoutCheck(Apply(s, es[0]), es[1..], t);
    }
  }

  /**
   * A rewind also clears the flag of a track the media does not have. On an
   * audio-only source with a leading trim, the first audio check answers true;
   * after a rewind and any calls that never check video, no audio check does.
   */
  lemma AudioOnlyStallsAfterRewind(durationUs: int, trimStartUs: int, trimEndUs: int,
                                   es: seq<Event>, sampleTimeUs: int)
    requires InitialState(durationUs, trimStartUs, trimEndUs, true, false).Ok?
    requires trimStartUs > 0
    requires forall i :: 0 <= i < |es| ==> !(es[i].CanReadEvent? && es[i].track == Video)
    ensures var s0 := InitialState(durationUs, trimStartUs, trimEndUs, true, false).value;
      && CanRead(s0, Audio, true, sampleTimeUs).readable
      && !CanRead(Run(Rewind(s0), es), Audio, true, sampleTimeUs).readable
  {
    var s0 := InitialState(durationUs, trimStartUs, trimEndUs, true, false).value;
    PendingWithoutCheck(Rewind(s0), es, Video);
  }

  /**
   * After audio is released, no video check answers true until audio has been
   * checked again, whatever other calls come in between.
   */
  lemma ReleaseAudioBlocksVideo(s: TrimState, es: seq<Event>, sourceCanRead: bool, sampleTimeUs: int)
    requires forall i :: 0 <= i < |es| ==> !(es[i].CanReadEvent? && es[i].track == Audio)
    ensures !CanRead(Run(ReleaseTrack(s, Audio), es), Video, sourceCanRead, sampleTimeUs).readable
  {
    PendingWithoutCheck(ReleaseTrack(s, Audio), es, Audio);
  }
}
