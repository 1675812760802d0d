/**
 * The collaborators of the trimming decorator, reduced to what it observes:
 * the two track types, a track format (only its duration entry), a chunk
 * (only its timestamp) and the extractor-backed source (its duration, its
 * track formats and the seeks issued on its extractor).
 */
module Media {

  datatype TrackType = Audio | Video {
    /** The track whose readiness gates this one. */
    function Other(): (o: TrackType)
      ensures o != this
    {
      if Audio? then Video else Audio
    }
  }

  datatype Option<T> = None | Some(value: T)

  /** A track format; the only entry modelled is its duration in microseconds. */
  class MediaFormat {
    var durationUs: Option<int>

    constructor (durationUs: Option<int>)
      ensures this.durationUs == durationUs
    {
      this.durationUs := durationUs;
    }
  }

  /** A chunk handed to the source to be filled; only its timestamp is modelled. */
  class Chunk {
    var timestampUs: int

    constructor ()
      ensures timestampUs == 0
    {
      timestampUs := 0;
    }
  }

  /**
   * The underlying extractor-backed source. Its duration and its track formats
   * are fixed; `seekLog` records, oldest first, every position passed to its
   * extractor's seek.
   */
  class ExtractorSource {
    const durationUs: int
    const audioFormat: MediaFormat?
    const videoFormat: MediaFormat?
    var seekLog: seq<int>

    constructor (durationUs: int, audioFormat: MediaFormat?, videoFormat: MediaFormat?)
      ensures this.durationUs == durationUs
      ensures this.audioFormat == audioFormat && this.videoFormat == videoFormat
      ensures seekLog == []
    {
      this.durationUs := durationUs;
      this.audioFormat := audioFormat;
      this.videoFormat := videoFormat;
      seekLog := [];
    }

    /** The format of a track, or null when the media has no such track. */
    function TrackFormat(t: TrackType): MediaFormat? {
      match t
      case Audio => audioFormat
      case Video => videoFormat
    }

    /**
     * Whether the media has a track of type `t`: exactly when a duration
     * overwrite of that track's format has an object to change.
     */
    predicate HasTrack(t: TrackType): (b: bool)
      ensures b <==> FormatFrame(t) != {}
    {
      TrackFormat(t) != null
    }

    /** The objects a duration overwrite of track `t`'s format may touch. */
    function FormatFrame(t: TrackType): set<MediaFormat> {
      if TrackFormat(t) == null then {} else {TrackFormat(t)}
    }

    /** Seek the extractor to the sync sample closest to `positionUs`. */
    method SeekTo(positionUs: int)
      modifies this`seekLog
      ensures seekLog == old(seekLog) + [positionUs]
    {
      seekLog := seekLog + [positionUs];
    }

    /** Fill `chunk` with the next sample, whose native timestamp is `sampleTimeUs`. */
    method ReadTrack(chunk: Chunk, sampleTimeUs: int)
      modifies chunk
      ensures chunk.timestampUs == sampleTimeUs
    {
      chunk.timestampUs := sampleTimeUs;
    }
  }
}
