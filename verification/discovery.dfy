/**
 * Local discovery of danmaku files: every readable `.xml` file next to the media file becomes
 * a candidate, scored by how its base name relates to the media file's base name, and the
 * candidates are ordered by descending score, then by ascending name.
 */
module Discovery {
  import opened Wrappers
  import opened Text
  import opened Configs
  import opened MediaKeys
  import opened Tracks
  import opened Files

  /** The name without its last extension; a leading dot does not start an extension. */
  function BaseName(name: string): (b: string)
    ensures StartsWith(name, b)
    ensures b == name || (|b| > 0 && name[|b|] == '.' && '.' !in name[|b| + 1..])
    ensures LastIndexOf(name, '.') > 0 ==> |b| == LastIndexOf(name, '.')
    ensures LastIndexOf(name, '.') <= 0 ==> b == name
  {
    var dot := LastIndexOf(name, '.');
    if dot > 0 then name[..dot] else name
  }

  /**
   * How well a candidate base name matches the video's: 100 for the same name ignoring case, 90
   * when it extends the video name, 85 when it is a prefix of it, 80 when it contains it, and 50
   * otherwise (the first test that holds decides).
   */
  function Score(videoBase: string, candidateBase: string): (score: int)
    ensures score == 100 || score == 90 || score == 85 || score == 80 || score == 50
    ensures score >= 85 <==> EqualsIgnoreCase(candidateBase, videoBase)
                             || StartsWith(candidateBase, videoBase) || StartsWith(videoBase, candidateBase)
    ensures score == 100 <==> EqualsIgnoreCase(candidateBase, videoBase)
    ensures score == 90 <==> !EqualsIgnoreCase(candidateBase, videoBase) && StartsWith(candidateBase, videoBase)
    ensures score == 85 <==> !EqualsIgnoreCase(candidateBase, videoBase) && !StartsWith(candidateBase, videoBase)
                             && StartsWith(videoBase, candidateBase)
    ensures score == 80 <==> !EqualsIgnoreCase(candidateBase, videoBase) && !StartsWith(candidateBase, videoBase)
                             && !StartsWith(videoBase, candidateBase) && Contains(candidateBase, videoBase)
  {
    if EqualsIgnoreCase(candidateBase, videoBase) then 100
    else if StartsWith(candidateBase, videoBase) then 90
    else if StartsWith(videoBase, candidateBase) then 85
    else if Contains(candidateBase, videoBase) then 80
    else 50
  }

  const SameName: string := "同名匹配"
  const PrefixMatch: string := "前缀匹配"
  const ContainsMatch: string := "包含匹配"
  const ExtensionMatch: string := "扩展名匹配"

  /** The label that describes each score. */
  function ReasonFor(score: int): string {
    if score == 100 then SameName
    else if score == 90 || score == 85 then PrefixMatch
    else if score == 80 then ContainsMatch
    else ExtensionMatch
  }

  /** The source's own label test, written independently of the score. */
  function Reason(videoBase: string, candidateBase: string): string {
    if EqualsIgnoreCase(candidateBase, videoBase) then SameName
    else if StartsWith(candidateBase, videoBase) || StartsWith(videoBase, candidateBase) then PrefixMatch
    else if Contains(candidateBase, videoBase) then ContainsMatch
    else ExtensionMatch
  }

  /** The label always describes the score given to the same pair of names. */
  lemma ReasonAgreesWithScore(videoBase: string, candidateBase: string)
    ensures Reason(videoBase, candidateBase) == ReasonFor(Score(videoBase, candidateBase))
  {
  }

  /** A readable regular file whose name ends in `.xml` in any case. */
  predicate Accepts(entry: FileEntry) {
    entry.isFile && entry.canRead && EndsWith(Lower(entry.name), ".xml")
  }

  function CandidateOf(entry: FileEntry, videoBase: string, mediaKey: MediaKey): (c: TrackCandidate)
    ensures c.track.id == entry.absolutePath && c.track.filePath == entry.absolutePath
    ensures c.track.name == entry.name && c.track.mediaKey == mediaKey
    ensures c.track.config == Defaults() && c.track.sourceType == Local
    ensures c.score == Score(videoBase, BaseName(entry.name))
    ensures c.reason == Some(ReasonFor(c.score))
  {
    var base := BaseName(entry.name);
    ReasonAgreesWithScore(videoBase, base);
    TrackCandidate(NewTrack(entry.absolutePath, entry.name, Local, entry.absolutePath, Some(Defaults()), mediaKey),
                   Score(videoBase, base), Some(Reason(videoBase, base)))
  }

  /** The candidates of the accepted entries, in listing order. */
  function Collected(files: seq<FileEntry>, videoBase: string, mediaKey: MediaKey): (cs: seq<TrackCandidate>)
    ensures |cs| <= |files|
  {
    if files == [] then []
    else
      var last := files[|files| - 1];
      Collected(files[..|files| - 1], videoBase, mediaKey)
      + (if Accepts(last) then [CandidateOf(last, videoBase, mediaKey)] else [])
  }

  /** `a` strictly precedes `b`: a higher score, or the same score and a smaller name. */
  predicate Before(a: TrackCandidate, b: TrackCandidate) {
    a.score > b.score || (a.score == b.score && LexLess(a.track.name, b.track.name))
  }

  predicate Sorted(cs: seq<TrackCandidate>) {
    forall i, j :: 0 <= i < j < |cs| ==> !Before(cs[j], cs[i])
  }

  /** Places `c` after every element it does not strictly precede. */
  function Insert(c: TrackCandidate, sorted: seq<TrackCandidate>): (r: seq<TrackCandidate>)
    ensures |r| == |sorted| + 1
    ensures multiset(r) == multiset(sorted) + multiset{c}
  {
    if sorted == [] then [c]
    else if Before(c, sorted[0]) then [c] + sorted
    else
      assert sorted == [sorted[0]] + sorted[1..];
      [sorted[0]] + Insert(c, sorted[1..])
  }

  /** A stable sort by (descending score, ascending name). */
  function SortCandidates(cs: seq<TrackCandidate>): (r: seq<TrackCandidate>)
    ensures multiset(r) == multiset(cs)
  {
    if cs == [] then []
    else
      assert cs == cs[..|cs| - 1] + [cs[|cs| - 1]];
      Insert(cs[|cs| - 1], SortCandidates(cs[..|cs| - 1]))
  }

  lemma BeforeTransitive(a: TrackCandidate, b: TrackCandidate, c: TrackCandidate)
    requires Before(a, b) && Before(b, c)
    ensures Before(a, c)
  {
    if a.score == b.score && b.score == c.score {
      LexLessTransitive(a.track.name, b.track.name, c.track.name);
    }
  }

  lemma {:induction false} InsertSorted(c: TrackCandidate, sorted: seq<TrackCandidate>)
    requires Sorted(sorted)
    ensures Sorted(Insert(c, sorted))
  {
    if sorted == [] {
    } else if Before(c, sorted[0]) {
      var r := [c] + sorted;
      forall i, j | 0 <= i < j < |r| ensures !Before(r[j], r[i]) {
        assert r[j] == sorted[j - 1];
        if i == 0 {
          if Before(r[j], c) {
            BeforeTransitive(r[j], c, sorted[0]);
            if j == 1 {
              LexLessIrreflexive(c.track.name);
              LexLessIrreflexive(sorted[0].track.name);
            }
          }
        } else {
          assert r[i] == sorted[i - 1];
        }
      }
    } else {
      var tail := sorted[1..];
      assert Sorted(tail);
      InsertSorted(c, tail);
      var ins := Insert(c, tail);
      var r := [sorted[0]] + ins;
      forall i, j | 0 <= i < j < |r| ensures !Before(r[j], r[i]) {
        if i == 0 {
          assert r[j] in multiset(ins);
          assert r[j] in multiset(tail) || r[j] == c;
          if r[j] != c {
            var k :| 0 <= k < |tail| && tail[k] == r[j];
            assert sorted[k + 1] == r[j];
          }
        } else {
          assert r[i] == ins[i - 1] && r[j] == ins[j - 1];
        }
      }
    }
  }

  /** The sort really orders its input. */
  lemma {:induction false} SortCandidatesSorted(cs: seq<TrackCandidate>)
    ensures Sorted(SortCandidates(cs))
  {
    if cs != [] {
      SortCandidatesSorted(cs[..|cs| - 1]);
      InsertSorted(cs[|cs| - 1], SortCandidates(cs[..|cs| - 1]));
    }
  }

  /** What `discover` returns for a media key. */
  function Discovered(fs: FileSystem, mediaKey: Option<MediaKey>): (cs: seq<TrackCandidate>)
  {
    if mediaKey.None? || mediaKey.value.path == [] then []
    else
      var parent := ParentOf(mediaKey.value.path);
      if parent.None? || !fs.isDirectory(parent.value) then []
      else
        var videoBase := BaseName(FileName(mediaKey.value.path));
        var files := fs.listFiles(parent.value);
        if files.None? || files.value == [] then []
        else SortCandidates(Collected(files.value, videoBase, mediaKey.value))
  }

  /**
   * `discover`: no media path, or no parent directory, gives nothing; otherwise one pass over the
   * listing collects the accepted files, which are then sorted.
   */
  method Discover(fs: FileSystem, mediaKey: Option<MediaKey>) returns (candidates: seq<TrackCandidate>)
    ensures candidates == Discovered(fs, mediaKey)
  {
    if mediaKey.None? || mediaKey.value.path == [] {
      return [];
    }
    var parent := ParentOf(mediaKey.value.path);
    if parent.None? || !fs.isDirectory(parent.value) {
      return [];
    }
    var videoBase := BaseName(FileName(mediaKey.value.path));
    var files := fs.listFiles(parent.value);
    if files.None? || files.value == [] {
      return [];
    }
    var list := files.value;
    var collected: seq<TrackCandidate> := [];
    var i := 0;
    while i < |list|
      invariant 0 <= i <= |list|
      invariant collected == Collected(list[..i], videoBase, mediaKey.value)
    {
      assert list[..i + 1][..i] == list[..i];
      var file := list[i];
      if Accepts(file) {
        collected := collected + [CandidateOf(file, videoBase, mediaKey.value)];
      }
      i := i + 1;
    }
    assert list[..|list|] == list;
    candidates := SortCandidates(collected);
  }

  /** Every candidate belongs to an accepted listed file. */
  lemma {:induction false} CollectedFromAccepted(files: seq<FileEntry>, videoBase: string, mediaKey: MediaKey, c: TrackCandidate)
    requires c in Collected(files, videoBase, mediaKey)
    ensures exists f :: f in files && Accepts(f) && c == CandidateOf(f, videoBase, mediaKey)
  {
    var init := files[..|files| - 1];
    if c in Collected(init, videoBase, mediaKey) {
      CollectedFromAccepted(init, videoBase, mediaKey, c);
      var f :| f in init && Accepts(f) && c == CandidateOf(f, videoBase, mediaKey);
      assert f in files;
    } else {
      assert files[|files| - 1] in files;
    }
  }

  /** Every accepted file of the listing has its candidate among the collected ones. */
  lemma {:induction false} AcceptedAreCollected(files: seq<FileEntry>, videoBase: string, mediaKey: MediaKey, f: FileEntry)
    requires f in files && Accepts(f)
    ensures CandidateOf(f, videoBase, mediaKey) in Collected(files, videoBase, mediaKey)
  {
    var init := files[..|files| - 1];
    if f != files[|files| - 1] {
      assert f in init by {
        var i :| 0 <= i < |files| && files[i] == f;
        assert i < |files| - 1 && init[i] == f;
      }
      AcceptedAreCollected(init, videoBase, mediaKey, f);
    }
  }

  /**
   * Nothing is found without a media path, without a parent directory, or in an empty or
   * unreadable listing; otherwise every readable `.xml` file of the listing is a candidate.
   */
  lemma DiscoveredComplete(fs: FileSystem, mediaKey: Option<MediaKey>, f: FileEntry)
    ensures mediaKey.None? || mediaKey.value.path == [] ==> Discovered(fs, mediaKey) == []
    ensures mediaKey.Some? && (ParentOf(mediaKey.value.path).None? || !fs.isDirectory(ParentOf(mediaKey.value.path).value))
            ==> Discovered(fs, mediaKey) == []
    ensures mediaKey.Some? && ParentOf(mediaKey.value.path).Some? && fs.listFiles(ParentOf(mediaKey.value.path).value).None?
            ==> Discovered(fs, mediaKey) == []
    ensures mediaKey.Some? && mediaKey.value.path != [] && ParentOf(mediaKey.value.path).Some?
            && fs.isDirectory(ParentOf(mediaKey.value.path).value)
            && fs.listFiles(ParentOf(mediaKey.value.path).value).Some?
            && f in fs.listFiles(ParentOf(mediaKey.value.path).value).value && Accepts(f)
            ==> CandidateOf(f, BaseName(FileName(mediaKey.value.path)), mediaKey.value) in Discovered(fs, mediaKey)
  {
    if mediaKey.Some? && mediaKey.value.path != [] && ParentOf(mediaKey.value.path).Some?
       && fs.isDirectory(ParentOf(mediaKey.value.path).value)
       && fs.listFiles(ParentOf(mediaKey.value.path).value).Some?
       && f in fs.listFiles(ParentOf(mediaKey.value.path).value).value && Accepts(f)
    {
      var files := fs.listFiles(ParentOf(mediaKey.value.path).value).value;
      var videoBase := BaseName(FileName(mediaKey.value.path));
      var collected := Collected(files, videoBase, mediaKey.value);
      AcceptedAreCollected(files, videoBase, mediaKey.value, f);
      assert CandidateOf(f, videoBase, mediaKey.value) in multiset(SortCandidates(collected));
    }
  }

  /**
   * The result is ordered by descending score, then ascending name, and each candidate is an
   * accepted file of the listing, for the given media key, identified by its absolute path.
   */
  lemma DiscoveredProperties(fs: FileSystem, mediaKey: MediaKey, c: TrackCandidate)
    ensures Sorted(Discovered(fs, Some(mediaKey)))
    ensures c in Discovered(fs, Some(mediaKey)) ==>
              c.track.mediaKey == mediaKey && c.track.id == c.track.filePath
              && exists f :: f in fs.listFiles(ParentOf(mediaKey.path).value).value && Accepts(f) && f.absolutePath == c.track.id
  {
    var r := Discovered(fs, Some(mediaKey));
    if r != [] {
      var files := fs.listFiles(ParentOf(mediaKey.path).value).value;
      var videoBase := BaseName(FileName(mediaKey.path));
      SortCandidatesSorted(Collected(files, videoBase, mediaKey));
      if c in r {
        assert c in multiset(Collected(files, videoBase, mediaKey));
        CollectedFromAccepted(files, videoBase, mediaKey, c);
      }
    }
  }
}
