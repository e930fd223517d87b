/**
 * The per-media preference store: the last selected track id and the last used config of each
 * media item, kept as strings in a key/value store under keys derived from the media key's
 * text form. Configs are stored through a JSON codec.
 */
module Prefs {
  import opened Wrappers
  import opened Text
  import opened Configs
  import opened MediaKeys
  import opened Tracks

  const LastTrackPrefix: string := "last_track_"
  const ConfigPrefix: string := "config_"

  function LastTrackKey(k: MediaKey): (key: string)
    ensures StartsWith(key, LastTrackPrefix)
  {
    LastTrackPrefix + Serialize(k)
  }

  function ConfigKey(k: MediaKey): (key: string)
    ensures StartsWith(key, ConfigPrefix)
  {
    ConfigPrefix + Serialize(k)
  }

  /** What decoding a stored JSON text gives: a config, a JSON `null`, or a syntax error. */
  datatype Decoded = Parsed(config: Config) | JsonNull | SyntaxError

  datatype Codec = Codec(toJson: Config -> string, fromJson: string -> Decoded)

  /** A codec that reads back what it writes, and never writes the empty text. */
  ghost predicate Sound(codec: Codec) {
    forall c :: codec.fromJson(codec.toJson(c)) == Parsed(c) && codec.toJson(c) != ""
  }

  /**
   * The stored entries, and the application-wide default config (absent from the shown
   * preferences class; it is read through `getDefaultConfig`).
   */
  datatype PrefStore = PrefStore(entries: map<string, string>, defaultConfig: Option<Config>)

  function StoreLastTrack(p: PrefStore, k: MediaKey, t: Track): PrefStore {
    p.(entries := p.entries[LastTrackKey(k) := t.id])
  }

  function LastTrackId(p: PrefStore, k: MediaKey): Option<string> {
    if LastTrackKey(k) in p.entries then Some(p.entries[LastTrackKey(k)]) else None
  }

  function StoreConfig(p: PrefStore, codec: Codec, k: MediaKey, c: Config): PrefStore {
    p.(entries := p.entries[ConfigKey(k) := codec.toJson(c)])
  }

  /**
   * Reading a config: nothing for an absent or empty entry or a JSON `null`; an entry that does
   * not decode is removed from the store.
   */
  function ReadConfig(p: PrefStore, codec: Codec, k: MediaKey): (Option<Config>, PrefStore) {
    var key := ConfigKey(k);
    if key !in p.entries || p.entries[key] == "" then (None, p)
    else
      match codec.fromJson(p.entries[key])
      case Parsed(c) => (Some(c), p)
      case JsonNull => (None, p)
      case SyntaxError => (None, p.(entries := p.entries - {key}))
  }

  function Cleared(p: PrefStore, k: MediaKey): PrefStore {
    p.(entries := p.entries - {LastTrackKey(k), ConfigKey(k)})
  }

  class DanmakuPreferences {
    var entries: map<string, string>
    var defaultConfig: Option<Config>
    const codec: Codec

    function Store(): PrefStore
      reads this
    {
      PrefStore(entries, defaultConfig)
    }

    constructor (entries: map<string, string>, defaultConfig: Option<Config>, codec: Codec)
      ensures Store() == PrefStore(entries, defaultConfig) && this.codec == codec
    {
      this.entries := entries;
      this.defaultConfig := defaultConfig;
      this.codec := codec;
    }

    method SaveLastTrack(k: MediaKey, t: Track)
      modifies this
      ensures Store() == StoreLastTrack(old(Store()), k, t)
    {
      entries := entries[LastTrackKey(k) := t.id];
    }

    method GetLastTrackId(k: MediaKey) returns (id: Option<string>)
      ensures id == LastTrackId(Store(), k)
    {
      var key := LastTrackKey(k);
      if key in entries {
        id := Some(entries[key]);
      } else {
        id := None;
      }
    }

    method SaveConfig(k: MediaKey, c: Config)
      modifies this
      ensures Store() == StoreConfig(old(Store()), codec, k, c)
    {
      entries := entries[ConfigKey(k) := codec.toJson(c)];
    }

    method GetConfig(k: MediaKey) returns (c: Option<Config>)
      modifies this
      ensures (c, Store()) == ReadConfig(old(Store()), codec, k)
    {
      var key := ConfigKey(k);
      if key !in entries || entries[key] == "" {
        return None;
      }
      var decoded := codec.fromJson(entries[key]);
      match decoded {
        case Parsed(config) =>
          c := Some(config);
        case JsonNull =>
          c := None;
        case SyntaxError =>
          entries := entries - {key};
          c := None;
      }
    }

    method GetDefaultConfig() returns (c: Option<Config>)
      ensures c == Store().defaultConfig
    {
      c := defaultConfig;
    }

    method Clear(k: MediaKey)
      modifies this
      ensures Store() == Cleared(old(Store()), k)
    {
      entries := entries - {LastTrackKey(k), ConfigKey(k)};
    }
  }

  /** Reading back the last track of a media item gives the id just saved for it. */
  lemma LastTrackRoundTrip(p: PrefStore, k: MediaKey, t: Track)
    ensures LastTrackId(StoreLastTrack(p, k, t), k) == Some(t.id)
  {
  }

  /** With a sound codec, reading back a config gives the config just saved, and keeps the store. */
  lemma ConfigRoundTrip(p: PrefStore, codec: Codec, k: MediaKey, c: Config)
    requires Sound(codec)
    ensures ReadConfig(StoreConfig(p, codec, k, c), codec, k) == (Some(c), StoreConfig(p, codec, k, c))
  {
    assert codec.fromJson(codec.toJson(c)) == Parsed(c) && codec.toJson(c) != "";
  }

  /** The two kinds of key never coincide, and each kind determines its media key. */
  lemma KeysSeparate(a: MediaKey, b: MediaKey)
    requires a.Valid() && b.Valid()
    ensures LastTrackKey(a) != ConfigKey(b)
    ensures LastTrackKey(a) == LastTrackKey(b) ==> a == b
    ensures ConfigKey(a) == ConfigKey(b) ==> a == b
  {
    assert LastTrackKey(a)[0] == 'l' && ConfigKey(b)[0] == 'c';
    if LastTrackKey(a) == LastTrackKey(b) {
      assert Serialize(a) == LastTrackKey(a)[|LastTrackPrefix|..];
      assert Serialize(b) == LastTrackKey(b)[|LastTrackPrefix|..];
      SerializeInjective(a, b);
    }
    if ConfigKey(a) == ConfigKey(b) {
      assert Serialize(a) == ConfigKey(a)[|ConfigPrefix|..];
      assert Serialize(b) == ConfigKey(b)[|ConfigPrefix|..];
      SerializeInjective(a, b);
    }
  }

  /** Saving the track or the config of one media item leaves what another reads unchanged. */
  lemma SavesAreIndependent(p: PrefStore, codec: Codec, a: MediaKey, b: MediaKey, t: Track, c: Config)
    requires a.Valid() && b.Valid() && a != b
    ensures LastTrackId(StoreLastTrack(p, a, t), b) == LastTrackId(p, b)
    ensures LastTrackId(StoreConfig(p, codec, a, c), b) == LastTrackId(p, b)
    ensures ReadConfig(StoreLastTrack(p, a, t), codec, b).0 == ReadConfig(p, codec, b).0
    ensures ReadConfig(StoreConfig(p, codec, a, c), codec, b).0 == ReadConfig(p, codec, b).0
  {
    KeysSeparate(a, b);
    KeysSeparate(b, a);
  }

  /** For the same media item, saving the track leaves the config it reads, and saving the config leaves its track. */
  lemma SavesOfOneKindKeepTheOther(p: PrefStore, codec: Codec, a: MediaKey, t: Track, c: Config)
    requires a.Valid()
    ensures LastTrackId(StoreConfig(p, codec, a, c), a) == LastTrackId(p, a)
    ensures ReadConfig(StoreLastTrack(p, a, t), codec, a).0 == ReadConfig(p, codec, a).0
  {
    KeysSeparate(a, a);
  }

  /** `clear` removes both entries of the media item and no other entry. */
  lemma ClearRemovesOnlyItsKeys(p: PrefStore, codec: Codec, k: MediaKey, key: string)
    ensures LastTrackId(Cleared(p, k), k) == None && ReadConfig(Cleared(p, k), codec, k).0 == None
    ensures key != LastTrackKey(k) && key != ConfigKey(k) ==>
              (key in Cleared(p, k).entries <==> key in p.entries)
              && (key in p.entries ==> Cleared(p, k).entries[key] == p.entries[key])
    ensures Cleared(p, k).defaultConfig == p.defaultConfig
  {
  }
}
