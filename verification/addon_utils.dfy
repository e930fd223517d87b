/**
 * Helpers of the Kodi add-on (Python): turning a playback URL into a local path, the media-key
 * text shared with the Java side, and the search keyword derived from a file name.
 */
module AddonUtils {
  import opened Wrappers
  import opened Text
  import opened MediaKeys
  import opened Files

  // ---------------------------------------------------------------------------------------
  // Local paths
  // ---------------------------------------------------------------------------------------

  const FileScheme: string := "file://"
  const SpecialScheme: string := "special://"

  /**
   * The path component of a `file://` URL as `urlparse` finds it: after the host, which runs
   * to the first `/`, `?` or `#`, and before any query or fragment.
   */
  function UrlPath(rest: string): (path: string)
    ensures '?' !in path && '#' !in path
  {
    var afterHost := rest[FirstOf(rest, 0, EndsHost)..];
    afterHost[..FirstOf(afterHost, 0, EndsPath)]
  }

  predicate EndsHost(c: char) {
    c == '/' || c == '?' || c == '#'
  }

  predicate EndsPath(c: char) {
    c == '?' || c == '#'
  }

  /** The index of the first character at or after `from` that satisfies `stop`, or `|s|`. */
  function FirstOf(s: string, from: nat, stop: char -> bool): (i: nat)
    requires from <= |s|
    ensures from <= i <= |s| && (i < |s| ==> stop(s[i]))
    ensures forall j :: from <= j < i ==> !stop(s[j])
    decreases |s| - from
  {
    if from == |s| || stop(s[from]) then from else FirstOf(s, from + 1, stop)
  }

  /**
   * `to_local_path`: nothing for a missing or empty URL; the decoded path of a `file://` URL;
   * an absolute path unchanged; a `special://` URL as Kodi translates it; nothing otherwise.
   * Percent-decoding (`unquote`) and Kodi's translation are parameters.
   */
  function ToLocalPath(url: Option<string>, unquote: string -> string, translate: string -> string): (r: Option<string>)
    ensures url.None? || url == Some("") ==> r.None?
    ensures url.Some? && StartsWith(url.value, "/") ==> r == url
    ensures (url.Some? && !StartsWith(url.value, FileScheme) && !StartsWith(url.value, "/")
             && !StartsWith(url.value, SpecialScheme)) ==> r.None?
    ensures url.Some? && StartsWith(url.value, FileScheme) ==>
              r == Some(unquote(UrlPath(url.value[|FileScheme|..])))
    ensures url.Some? && StartsWith(url.value, SpecialScheme) ==> r == Some(translate(url.value))
  {
    if url.None? || url.value == "" then None
    else if StartsWith(url.value, FileScheme) then
      assert url.value[0] == FileScheme[0];
      Some(unquote(UrlPath(url.value[|FileScheme|..])))
    else if StartsWith(url.value, "/") then url
    else if StartsWith(url.value, SpecialScheme) then Some(translate(url.value))
    else None
  }

  /** A `file://` URL with an empty host gives its decoded absolute path. */
  lemma FileUrlGivesPath(path: string, unquote: string -> string, translate: string -> string)
    requires StartsWith(path, "/") && '?' !in path && '#' !in path
    ensures ToLocalPath(Some(FileScheme + path), unquote, translate) == Some(unquote(path))
  {
    var url := FileScheme + path;
    assert StartsWith(url, FileScheme);
    assert url[|FileScheme|..] == path;
    assert path[0] == '/';
    assert FirstOf(path, 0, EndsHost) == 0;
    assert path[0..] == path;
    var end := FirstOf(path, 0, EndsPath);
    assert UrlPath(path) == path;
  }

  // ---------------------------------------------------------------------------------------
  // Media keys
  // ---------------------------------------------------------------------------------------

  /** `media_key`: `path|size|mtime` with the modification time truncated to whole seconds. */
  function MediaKeyText(path: string, size: int, mtime: real): string {
    path + "|" + IntToString(size) + "|" + IntToString(Trunc(mtime))
  }

  /**
   * The add-on's key text has the layout of the Java key's text: when the path has no `|` and
   * the numbers fit a long, the Java side reads it back as the key of that path, size and
   * truncated modification time. The two sides pass the time in different units, so for the same
   * file the keys agree only when they are given the same numbers.
   */
  lemma MediaKeyAgreesWithJava(path: string, size: int, mtime: real)
    requires '|' !in path && IsLong(size) && IsLong(Trunc(mtime))
    ensures MediaKeyText(path, size, mtime) == Serialize(MediaKey(path, size, Trunc(mtime)))
    ensures Deserialize(MediaKeyText(path, size, mtime)) == Success(MediaKey(path, size, Trunc(mtime)))
  {
    DeserializeSerialize(MediaKey(path, size, Trunc(mtime)));
  }

  // ---------------------------------------------------------------------------------------
  // Search keywords
  // ---------------------------------------------------------------------------------------

  /** Python's `str.isspace`, which is also what `\s` and `strip()` use. */
  predicate IsPySpace(c: char) {
    c == ' ' || ('\t' <= c <= '\r') || ('\U{1c}' <= c <= '\U{1f}') || c == '\U{85}' || c == '\U{a0}'
    || c == '\U{1680}' || ('\U{2000}' <= c <= '\U{200a}') || c == '\U{2028}' || c == '\U{2029}'
    || c == '\U{202f}' || c == '\U{205f}' || c == '\U{3000}'
  }

  predicate IsBracket(c: char) {
    c == '[' || c == ']' || c == '(' || c == ')' || c == '{' || c == '}'
  }

  predicate IsDotOrUnderscore(c: char) {
    c == '.' || c == '_'
  }

  /** `os.path.splitext(name)[0]` for a name without `/`: the extension starts at the last dot, unless only dots precede it. */
  function SplitextRoot(name: string): (root: string)
    ensures StartsWith(name, root)
  {
    var dot := LastIndexOf(name, '.');
    if dot >= 0 && exists i :: 0 <= i < dot && name[i] != '.' then name[..dot] else name
  }

  /** The text after a leading run of characters that satisfy `p`. */
  function DropRun(s: string, p: char -> bool): (r: string)
    ensures |r| <= |s| && r == s[|s| - |r|..]
    ensures r == [] || !p(r[0])
  {
    if s != [] && p(s[0]) then DropRun(s[1..], p) else s
  }

  /** `re.sub(r"[...]+", " ", s)`: every maximal run of characters that satisfy `p` becomes one space. */
  function ReplaceRuns(s: string, p: char -> bool): (r: string)
    decreases |s|
  {
    if s == [] then []
    else if p(s[0]) then " " + ReplaceRuns(DropRun(s, p), p)
    else [s[0]] + ReplaceRuns(s[1..], p)
  }

  /** `str.strip()`. */
  function PyStrip(s: string): (r: string)
    decreases |s|
  {
    if s != [] && IsPySpace(s[0]) then PyStrip(s[1..])
    else if s != [] && IsPySpace(s[|s| - 1]) then PyStrip(s[..|s| - 1])
    else s
  }

  /** `sanitize_keyword`: the file's base name without extension, brackets and `._` runs turned into single spaces. */
  function SanitizeKeyword(path: string): string {
    var base := SplitextRoot(FileName(path));
    var noBrackets := ReplaceRuns(base, IsBracket);
    var noDots := ReplaceRuns(noBrackets, IsDotOrUnderscore);
    PyStrip(ReplaceRuns(noDots, IsPySpace))
  }

  /** Replacing runs leaves only spaces and characters of the input that do not satisfy `p`. */
  lemma {:induction false} ReplaceRunsChars(s: string, p: char -> bool)
    ensures forall c :: c in ReplaceRuns(s, p) ==> c == ' ' || (c in s && !p(c))
    decreases |s|
  {
    if s != [] {
      if p(s[0]) {
        ReplaceRunsChars(DropRun(s, p), p);
      } else {
        ReplaceRunsChars(s[1..], p);
      }
    }
  }

  /** Collapsing whitespace leaves no whitespace but single spaces. */
  lemma {:induction false} CollapsedSpaces(s: string)
    ensures NoDoubleSpace(ReplaceRuns(s, IsPySpace))
    ensures ReplaceRuns(s, IsPySpace) != [] && IsPySpace(ReplaceRuns(s, IsPySpace)[0]) ==> s != [] && IsPySpace(s[0])
    decreases |s|
  {
    if s != [] {
      var spaceHead := IsPySpace(s[0]);
      var head := if spaceHead then ' ' else s[0];
      var rest := if spaceHead then DropRun(s, IsPySpace) else s[1..];
      CollapsedSpaces(rest);
      var tail := ReplaceRuns(rest, IsPySpace);
      var r := [head] + tail;
      assert ReplaceRuns(s, IsPySpace) == r;
      assert spaceHead ==> tail == [] || !IsPySpace(tail[0]);
      forall i | 0 <= i < |r| && IsPySpace(r[i])
        ensures r[i] == ' ' && (i + 1 < |r| ==> !IsPySpace(r[i + 1]))
      {
        if i == 0 {
          assert spaceHead && r[0] == ' ';
          if 1 < |r| {
            assert r[1] == tail[0];
          }
        } else {
          assert r[i] == tail[i - 1];
          NoDoubleSpaceAt(tail, i - 1);
          if i + 1 < |r| {
            assert r[i + 1] == tail[i];
          }
        }
      }
    }
  }

  /** Every whitespace character is a plain space and never follows another whitespace character. */
  predicate NoDoubleSpace(s: string) {
    forall i :: 0 <= i < |s| ==> (IsPySpace(s[i]) ==> s[i] == ' ' && (i + 1 < |s| ==> !IsPySpace(s[i + 1])))
  }

  lemma NoDoubleSpaceAt(s: string, i: int)
    requires NoDoubleSpace(s) && 0 <= i < |s| && IsPySpace(s[i])
    ensures s[i] == ' ' && (i + 1 < |s| ==> !IsPySpace(s[i + 1]))
  {
  }

  /** Stripping removes whitespace from both ends and keeps the rest. */
  lemma {:induction false} StripKeeps(s: string)
    requires NoDoubleSpace(s)
    ensures forall c :: c in PyStrip(s) ==> c in s
    ensures NoDoubleSpace(PyStrip(s))
    ensures PyStrip(s) == [] || (!IsPySpace(PyStrip(s)[0]) && !IsPySpace(PyStrip(s)[|PyStrip(s)| - 1]))
    decreases |s|
  {
    if s != [] && IsPySpace(s[0]) {
      var t := s[1..];
      forall i | 0 <= i < |t| && IsPySpace(t[i])
        ensures t[i] == ' ' && (i + 1 < |t| ==> !IsPySpace(t[i + 1]))
      {
        assert t[i] == s[i + 1];
        NoDoubleSpaceAt(s, i + 1);
        if i + 1 < |t| {
          assert t[i + 1] == s[i + 2];
        }
      }
      StripKeeps(t);
    } else if s != [] && IsPySpace(s[|s| - 1]) {
      var t := s[..|s| - 1];
      forall i | 0 <= i < |t| && IsPySpace(t[i])
        ensures t[i] == ' ' && (i + 1 < |t| ==> !IsPySpace(t[i + 1]))
      {
        assert t[i] == s[i];
        if i + 1 < |t| {
          assert t[i + 1] == s[i + 1];
        }
      }
      StripKeeps(t);
    }
  }

  /** Stripping keeps only characters of its input. */
  lemma {:induction false} StripChars(s: string)
    ensures forall c :: c in PyStrip(s) ==> c in s
    decreases |s|
  {
    if s != [] && IsPySpace(s[0]) {
      StripChars(s[1..]);
    } else if s != [] && IsPySpace(s[|s| - 1]) {
      StripChars(s[..|s| - 1]);
    }
  }

  /** A keyword has no brackets, dots or underscores, and every other character but a space comes from the extension-less base name. */
  lemma KeywordChars(path: string)
    ensures forall c :: c in SanitizeKeyword(path) ==>
              !IsBracket(c) && !IsDotOrUnderscore(c) && (c == ' ' || c in SplitextRoot(FileName(path)))
  {
    var base := SplitextRoot(FileName(path));
    var c1 := ReplaceRuns(base, IsBracket);
    var c2 := ReplaceRuns(c1, IsDotOrUnderscore);
    var c3 := ReplaceRuns(c2, IsPySpace);
    ReplaceRunsChars(base, IsBracket);
    ReplaceRunsChars(c1, IsDotOrUnderscore);
    ReplaceRunsChars(c2, IsPySpace);
    StripChars(c3);
    forall c | c in SanitizeKeyword(path)
      ensures !IsBracket(c) && !IsDotOrUnderscore(c) && (c == ' ' || c in base)
    {
      assert c in c3;
      assert c == ' ' || c in c2;
      if c != ' ' {
        assert c in c1 && !IsDotOrUnderscore(c);
      }
    }
  }

  /** A keyword has no whitespace but single spaces, and none at either end. */
  lemma KeywordSpacing(path: string)
    ensures NoDoubleSpace(SanitizeKeyword(path))
    ensures var k := SanitizeKeyword(path); k == [] || (!IsPySpace(k[0]) && !IsPySpace(k[|k| - 1]))
  {
    var c2 := ReplaceRuns(ReplaceRuns(SplitextRoot(FileName(path)), IsBracket), IsDotOrUnderscore);
    CollapsedSpaces(c2);
    StripKeeps(ReplaceRuns(c2, IsPySpace));
  }

  /** The directory part of the path never matters. */
  lemma KeywordIgnoresDirectory(dir: string, name: string)
    requires '/' !in name
    ensures SanitizeKeyword(dir + "/" + name) == SanitizeKeyword(name)
  {
    var path := dir + "/" + name;
    LastIndexOfBefore(dir, '/', name);
    assert path == dir + ['/'] + name;
    assert path[|dir| + 1..] == name;
  }
}
