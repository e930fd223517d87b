/** Danmaku entries, tracks (a danmaku file bound to a media item) and scored track candidates. */
module Tracks {
  import opened Wrappers
  import opened Configs
  import opened MediaKeys

  datatype ItemType = Scroll | Top | Bottom | Positioned

  datatype Position = Position(x: real, y: real)

  /** One comment: when it appears, how it moves, what it says and how it looks. */
  datatype Item = Item(
    timeMs: int,
    itemType: ItemType,
    text: string,
    color: int,
    textSizeSp: real,
    alpha: real,
    position: Option<Position>)

  /** Local files are the only source of tracks. */
  datatype SourceType = Local

  datatype Track = Track(
    id: string,
    name: string,
    sourceType: SourceType,
    filePath: string,
    config: Config,
    mediaKey: MediaKey)
  {
    /** Track identity as `equals` defines it: the same id for the same media item. */
    predicate SameAs(other: Track) {
      id == other.id && mediaKey == other.mediaKey
    }

    /** The same track carrying other options (the defaults when none are given). */
    function WithConfig(newConfig: Option<Config>): (t: Track)
      ensures t.SameAs(this)
      ensures t.config == (if newConfig.Some? then newConfig.value else Defaults())
      ensures t.(config := config) == this
    {
      NewTrack(id, name, sourceType, filePath, newConfig, mediaKey)
    }
  }

  /** The public constructor: a missing configuration becomes the defaults. */
  function NewTrack(id: string, name: string, sourceType: SourceType, filePath: string,
                    config: Option<Config>, mediaKey: MediaKey): (t: Track)
    ensures t.id == id && t.name == name && t.sourceType == sourceType
    ensures t.filePath == filePath && t.mediaKey == mediaKey
    ensures t.config == (if config.Some? then config.value else Defaults())
  {
    Track(id, name, sourceType, filePath, config.GetOr(Defaults()), mediaKey)
  }

  /** A track offered for a media item, with a score (higher is better) and an optional reason. */
  datatype TrackCandidate = TrackCandidate(track: Track, score: int, reason: Option<string>)
}
