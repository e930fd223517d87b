/**
 * What a selection does: it either activates the track stored under the requested key, or it
 * leaves the selection, the renderer and the preferences as they were (only the cache and the
 * last error may differ); and which track the candidate registration picks on its own.
 */
module EngineSelection {
  import opened Wrappers
  import opened MediaKeys
  import opened Tracks
  import opened Files
  import opened Discovery
  import opened Prefs
  import opened EngineSpec
  import opened EngineProps
  import opened Configs

  /** A selection that failed: only the cache and the last error may have changed. */
  predicate Kept(before: EngineState, after: EngineState) {
    after == before.(cache := after.cache, lastError := after.lastError)
  }

  /**
   * A selection that succeeded: the active track is the one cached under the requested key
   * (with its items), and it is remembered as the media item's last track.
   */
  predicate SelectedFor(r: EngineState, k: MediaKey, id: string) {
    && r.activeTrack.Some?
    && CacheKey(r.activeTrack.value.mediaKey, r.activeTrack.value.id) == CacheKey(k, id)
    && CacheKey(k, id) in r.cache
    && r.cache[CacheKey(k, id)].track == r.activeTrack.value
    && r.activeItems == r.cache[CacheKey(k, id)].items
    && LastTrackId(r.prefs, k) == Some(r.activeTrack.value.id)
  }

  /**
   * Using a found track: one with items, or whose file parses, is activated and remembered; one
   * whose file does not parse records "parse_failed" for the file and changes nothing else.
   */
  lemma UseFoundOutcome(e: Env, st: EngineState, k: MediaKey, id: string, found: CachedTrack, now: int)
    requires CacheInvariant(st.cache)
    requires CacheKey(found.track.mediaKey, found.track.id) == CacheKey(k, id)
    requires CacheKey(k, id) in st.cache && st.cache[CacheKey(k, id)] == found
    ensures var parsed := ParseTrackFromDisk(e.fs, st, found.track, found.score, found.reason);
            var r := UseFound(e, st, k, id, found, now);
            && (found.items != [] || parsed.0.Some? ==>
                  SelectedFor(r, k, id) && r.activeTrack == Some(found.track)
                  && (st.lastError.None? ==> r.lastError.None?))
            && (found.items == [] && parsed.0.None? ==>
                  r == st.(lastError := Some(LoadError(found.track.filePath, "parse_failed"))))
  {
    var key := CacheKey(k, id);
    if found.items != [] {
      ActivateRemembers(e, st, k, found, now);
    } else {
      var res := ParseTrackFromDisk(e.fs, st, found.track, found.score, found.reason);
      if res.0.Some? {
        var s1 := res.1.(cache := res.1.cache[key := res.0.value]);
        ActivateRemembers(e, s1, k, res.0.value, now);
      }
    }
  }

  /**
   * The part of a selection after the candidates are ensured: resolve the id, then use what was
   * found. The outcome is a success for the requested key or a failure that keeps the selection.
   */
  lemma FoundOutcome(e: Env, s: EngineState, k: MediaKey, id: string, now: int)
    requires CacheInvariant(s.cache)
    ensures var res := Resolve(e.fs, s, k, id);
            var r := if res.0.None? then res.1 else UseFound(e, res.1, k, id, res.0.value, now);
            && (Kept(s, r) || (SelectedFor(r, k, id) && (s.lastError.None? ==> r.lastError.None?)))
            && (res.0.Some? && res.0.value.items != [] ==> SelectedFor(r, k, id))
  {
    var res := Resolve(e.fs, s, k, id);
    if res.0.Some? {
      UseFoundOutcome(e, res.1, k, id, res.0.value, now);
    }
  }

  /**
   * `selectTrackInternal` without ensuring candidates: with a media key and a non-empty id, it
   * either activates the track cached (or loaded) under that key, clears the error and
   * remembers the track, or fails and keeps the selection, the renderer and the preferences.
   */
  lemma SelectOutcome(e: Env, st: EngineState, k: MediaKey, id: string, now: int)
    requires CacheInvariant(st.cache) && id != []
    ensures var r := SelectInternal(e, st, Some(k), Some(id), false, now);
            || Kept(st, r)
            || (SelectedFor(r, k, id) && r.lastError.None?)
  {
    FoundOutcome(e, st.(lastError := None), k, id, now);
  }

  /**
   * `selectTrack`: after the candidates are ensured, it either activates the track under the
   * requested key or keeps the selection the candidate step left.
   */
  lemma SelectTrackOutcome(e: Env, st: EngineState, k: MediaKey, id: string, now: int)
    requires CacheInvariant(st.cache) && id != []
    ensures var ensured := EnsureCandidates(e, st.(lastError := None), k, now);
            var r := SelectTrack(e, st, Some(k), Some(id), now);
            Kept(ensured, r) || SelectedFor(r, k, id)
  {
    FoundOutcome(e, EnsureCandidates(e, st.(lastError := None), k, now), k, id, now);
  }

  /**
   * When the media item already has cached tracks and there is no other remembered track to
   * return to, a `selectTrack` that fails keeps the previous selection, the renderer and the
   * preferences.
   */
  lemma SelectTrackFailureKeeps(e: Env, st: EngineState, k: MediaKey, id: string, now: int)
    requires CacheInvariant(st.cache) && id != [] && HasTracksFor(st.cache, k)
    requires var last := LastTrackId(st.prefs, k);
             last.None? || CacheKey(k, last.value) !in st.cache || Some(last.value) == ActiveId(st)
    ensures var r := SelectTrack(e, st, Some(k), Some(id), now);
            Kept(st, r) || SelectedFor(r, k, id)
  {
    var s0 := st.(lastError := None);
    assert HasTracksFor(s0.cache, k);
    assert EnsureCandidates(e, s0, k, now) == s0;
    FoundOutcome(e, s0, k, id, now);
  }

  /** The first discovered candidate scores at least as high as every other one. */
  lemma BestScoresHighest(fs: FileSystem, k: MediaKey)
    ensures var discovered := Discovered(fs, Some(k));
            discovered != [] ==> forall c :: c in discovered ==> c.score <= discovered[0].score
  {
    var discovered := Discovered(fs, Some(k));
    if discovered != [] {
      DiscoveredProperties(fs, k, discovered[0]);
      forall c | c in discovered ensures c.score <= discovered[0].score {
        var j :| 0 <= j < |discovered| && discovered[j] == c;
        if j > 0 {
          assert !Before(discovered[j], discovered[0]);
        }
      }
    }
  }

  /** The candidate step for a media item with no cached track: the state once discovery is registered. */
  function RegisteredState(e: Env, st: EngineState, k: MediaKey): (s1: EngineState)
    requires CacheInvariant(st.cache)
    ensures CacheInvariant(s1.cache) && s1 == st.(cache := s1.cache)
  {
    DiscoveredForKey(e.fs, k);
    st.(cache := Registered(st.cache, k, Discovered(e.fs, Some(k))))
  }

  /**
   * `ensureCandidates` for a media item with no cached track, once discovery is registered,
   * selects the remembered track when it is now cached; that selection succeeds or keeps the state.
   */
  lemma EnsureCandidatesPicksRemembered(e: Env, st: EngineState, k: MediaKey, now: int)
    requires CacheInvariant(st.cache) && !HasTracksFor(st.cache, k)
    requires var last := LastTrackId(st.prefs, k);
             last.Some? && last.value != [] && CacheKey(k, last.value) in RegisteredState(e, st, k).cache
    ensures var r := EnsureCandidates(e, st, k, now);
            Kept(RegisteredState(e, st, k), r) || SelectedFor(r, k, LastTrackId(st.prefs, k).value)
  {
    SelectOutcome(e, RegisteredState(e, st, k), k, LastTrackId(st.prefs, k).value, now);
  }

  /**
   * Without a remembered track among the registered ones, `ensureCandidates` selects the first
   * discovered track, which scores highest, unless it is already active; that selection
   * succeeds or keeps the state.
   */
  lemma EnsureCandidatesPicksBest(e: Env, st: EngineState, k: MediaKey, now: int)
    requires CacheInvariant(st.cache) && !HasTracksFor(st.cache, k)
    requires var last := LastTrackId(st.prefs, k);
             !(last.Some? && CacheKey(k, last.value) in RegisteredState(e, st, k).cache)
    requires var discovered := Discovered(e.fs, Some(k));
             discovered != [] && Some(discovered[0].track.id) != ActiveId(st) && discovered[0].track.id != []
    ensures var discovered := Discovered(e.fs, Some(k));
            var r := EnsureCandidates(e, st, k, now);
            && (Kept(RegisteredState(e, st, k), r) || SelectedFor(r, k, discovered[0].track.id))
            && forall c :: c in discovered ==> c.score <= discovered[0].score
  {
    BestScoresHighest(e.fs, k);
    SelectOutcome(e, RegisteredState(e, st, k), k, Discovered(e.fs, Some(k))[0].track.id, now);
  }

  /**
   * Without a remembered track among the registered ones and with nothing discovered, or with
   * the best track already active, `ensureCandidates` only registers what discovery found.
   */
  lemma EnsureCandidatesOnlyRegisters(e: Env, st: EngineState, k: MediaKey, now: int)
    requires CacheInvariant(st.cache) && !HasTracksFor(st.cache, k)
    requires var last := LastTrackId(st.prefs, k);
             !(last.Some? && CacheKey(k, last.value) in RegisteredState(e, st, k).cache)
    requires var discovered := Discovered(e.fs, Some(k));
             discovered == [] || Some(discovered[0].track.id) == ActiveId(st)
    ensures EnsureCandidates(e, st, k, now) == RegisteredState(e, st, k)
  {
  }

  /**
   * `ensureCandidates` for a media item that already has cached tracks returns to the
   * remembered track when it is cached and not active, and otherwise does nothing.
   */
  lemma EnsureCandidatesReturnsToRemembered(e: Env, st: EngineState, k: MediaKey, now: int)
    requires CacheInvariant(st.cache) && HasTracksFor(st.cache, k)
    ensures var last := LastTrackId(st.prefs, k);
            var r := EnsureCandidates(e, st, k, now);
            && (last.Some? && last.value != [] && CacheKey(k, last.value) in st.cache && Some(last.value) != ActiveId(st) ==>
                  Kept(st, r) || SelectedFor(r, k, last.value))
            && (!(last.Some? && CacheKey(k, last.value) in st.cache && Some(last.value) != ActiveId(st)) ==> r == st)
  {
    var last := LastTrackId(st.prefs, k);
    if last.Some? && last.value != [] && CacheKey(k, last.value) in st.cache && Some(last.value) != ActiveId(st) {
      SelectOutcome(e, st, k, last.value, now);
    }
  }

  /**
   * The engine's own missing-file sequence through the public `selectTrack`: for a media item
   * with nothing cached, nothing discovered and no remembered track, selecting an id that is not
   * an existing file records "missing" for it and changes nothing else.
   */
  lemma SelectTrackMissingFile(e: Env, st: EngineState, k: MediaKey, id: string, now: int)
    requires CacheInvariant(st.cache) && id != [] && !HasTracksFor(st.cache, k)
    requires Discovered(e.fs, Some(k)) == [] && LastTrackId(st.prefs, k).None?
    requires CacheKey(k, id) !in st.cache && !e.fs.isPresent(id)
    ensures SelectTrack(e, st, Some(k), Some(id), now) == st.(lastError := Some(LoadError(id, "missing")))
  {
    var s0 := st.(lastError := None);
    assert Registered(s0.cache, k, []) == s0.cache;
    assert EnsureCandidates(e, s0, k, now) == s0;
  }

  /**
   * The candidate step for a media item that already has a track cached under a key keeps that
   * key's track; an entry that has items is kept as it is.
   */
  lemma EnsureKeepsEntry(e: Env, s: EngineState, k: MediaKey, id: string, now: int)
    requires CacheInvariant(s.cache)
    requires CacheKey(k, id) in s.cache && s.cache[CacheKey(k, id)].track.mediaKey == k
    ensures var s1 := EnsureCandidates(e, s, k, now);
            && CacheKey(k, id) in s1.cache
            && s1.cache[CacheKey(k, id)].track == s.cache[CacheKey(k, id)].track
            && (s.cache[CacheKey(k, id)].items != [] ==> s1.cache[CacheKey(k, id)] == s.cache[CacheKey(k, id)])
  {
    assert HasTracksFor(s.cache, k);
    EnsureWhenCached(e, s, k, now);
    var last := LastTrackId(s.prefs, k);
    if last.Some? && CacheKey(k, last.value) in s.cache && Some(last.value) != ActiveId(s) && last.value != [] {
      UseFoundKeepsEntry(e, s.(lastError := None), k, last.value, CacheKey(k, id), now);
    }
  }

  /** The candidate step once the media item has cached tracks: use the remembered track, or do nothing. */
  lemma EnsureWhenCached(e: Env, s: EngineState, k: MediaKey, now: int)
    requires CacheInvariant(s.cache) && HasTracksFor(s.cache, k)
    ensures var last := LastTrackId(s.prefs, k);
            && (last.Some? && CacheKey(k, last.value) in s.cache && Some(last.value) != ActiveId(s) && last.value != [] ==>
                  EnsureCandidates(e, s, k, now)
                  == UseFound(e, s.(lastError := None), k, last.value, s.cache[CacheKey(k, last.value)], now))
            && (!(last.Some? && CacheKey(k, last.value) in s.cache && Some(last.value) != ActiveId(s) && last.value != []) ==>
                  EnsureCandidates(e, s, k, now) == s)
  {
    var last := LastTrackId(s.prefs, k);
    if last.Some? && CacheKey(k, last.value) in s.cache && Some(last.value) != ActiveId(s) && last.value != [] {
      var s0 := s.(lastError := None);
      assert Resolve(e.fs, s0, k, last.value) == (Some(s.cache[CacheKey(k, last.value)]), s0);
    }
  }

  /** Using a cached entry keeps every key's track, and an entry with items as it is. */
  lemma UseFoundKeepsEntry(e: Env, s: EngineState, k: MediaKey, j: string, key: string, now: int)
    requires CacheInvariant(s.cache) && CacheKey(k, j) in s.cache && key in s.cache
    ensures var r := UseFound(e, s, k, j, s.cache[CacheKey(k, j)], now);
            && key in r.cache && r.cache[key].track == s.cache[key].track
            && (s.cache[key].items != [] ==> r.cache[key] == s.cache[key])
  {
    var found := s.cache[CacheKey(k, j)];
    if found.items == [] {
      var res := ParseTrackFromDisk(e.fs, s, found.track, found.score, found.reason);
      if res.0.Some? {
        assert CacheKey(k, j) == key ==> found == s.cache[key];
      }
    }
  }

  /**
   * `bindTrack` selects the track it binds: with items it becomes the active track with those
   * items, remembered for its media item; without items its file is parsed, and the track is
   * selected or "parse_failed" is recorded. An empty id only caches the track.
   */
  lemma BindTrackSelects(e: Env, st: EngineState, t: Track, items: Option<seq<Item>>, config: Option<Config>, now: int)
    requires CacheInvariant(st.cache)
    ensures var cached := CachedTrack(t, items.GetOr([]), config.GetOr(Defaults()), 100, Some("prebound"));
            var r := BindTrack(e, st, Some(t), items, config, now);
            && (t.id == [] ==> r == st.(cache := st.cache[CacheKey(t.mediaKey, t.id) := cached]))
            && (t.id != [] && items.Some? && items.value != [] ==>
                  SelectedFor(r, t.mediaKey, t.id) && r.activeTrack == Some(t) && r.activeItems == items.value)
            && (t.id != [] ==>
                  (SelectedFor(r, t.mediaKey, t.id) && r.activeTrack == Some(t))
                  || r.lastError == Some(LoadError(t.filePath, "parse_failed")))
  {
    var k := t.mediaKey;
    var key := CacheKey(k, t.id);
    var cached := CachedTrack(t, items.GetOr([]), config.GetOr(Defaults()), 100, Some("prebound"));
    CacheInsert(st.cache, cached);
    var s := st.(cache := st.cache[key := cached]);
    assert BindTrack(e, st, Some(t), items, config, now) == SelectTrack(e, s, Some(k), Some(t.id), now);
    if t.id != [] {
      SelectBoundTrack(e, s, t, now);
    }
  }

  /** Selecting a track cached under its own key, through `selectTrack`, lands on that track or records "parse_failed". */
  lemma SelectBoundTrack(e: Env, s: EngineState, t: Track, now: int)
    requires CacheInvariant(s.cache) && t.id != []
    requires CacheKey(t.mediaKey, t.id) in s.cache && s.cache[CacheKey(t.mediaKey, t.id)].track == t
    ensures var r := SelectTrack(e, s, Some(t.mediaKey), Some(t.id), now);
            && (s.cache[CacheKey(t.mediaKey, t.id)].items != [] ==>
                  SelectedFor(r, t.mediaKey, t.id) && r.activeTrack == Some(t)
                  && r.activeItems == s.cache[CacheKey(t.mediaKey, t.id)].items)
            && ((SelectedFor(r, t.mediaKey, t.id) && r.activeTrack == Some(t))
                || r.lastError == Some(LoadError(t.filePath, "parse_failed")))
  {
    var k := t.mediaKey;
    var key := CacheKey(k, t.id);
    var s0 := s.(lastError := None);
    EnsureKeepsEntry(e, s0, k, t.id, now);
    var s1 := EnsureCandidates(e, s0, k, now);
    var found := s1.cache[key];
    assert Resolve(e.fs, s1, k, t.id) == (Some(found), s1);
    assert SelectTrack(e, s, Some(k), Some(t.id), now) == UseFound(e, s1, k, t.id, found, now);
    UseFoundOutcome(e, s1, k, t.id, found, now);
  }
}
