/**
 * The add-on's use of the dandanplay web API: the selection rules applied to decoded JSON
 * responses (the HTTP request itself is a parameter) and the Bilibili-style XML the add-on
 * writes for the Java overlay.
 */
module AddonApi {
  import opened Wrappers
  import opened Text

  // ---------------------------------------------------------------------------------------
  // JSON values as `json.loads` returns them
  // ---------------------------------------------------------------------------------------

  datatype Json =
    | Null
    | Bool(b: bool)
    | Num(n: int)
    | Str(s: string)
    | Arr(items: seq<Json>)
    | Obj(fields: map<string, Json>)

  /** Python truthiness: `None`, `False`, zero and empty strings, lists and dicts are false. */
  predicate Truthy(j: Json) {
    match j
    case Null => false
    case Bool(b) => b
    case Num(n) => n != 0
    case Str(s) => s != []
    case Arr(items) => items != []
    case Obj(fields) => fields != map[]
  }

  /** `obj.get(key, default)`. */
  function Get(o: Json, key: string, default: Json): (v: Json)
    requires o.Obj?
    ensures key in o.fields ==> v == o.fields[key]
    ensures key !in o.fields ==> v == default
  {
    if key in o.fields then o.fields[key] else default
  }

  /** `x or default`. */
  function Or(x: Json, default: Json): (v: Json)
    ensures Truthy(x) ==> v == x
    ensures !Truthy(x) ==> v == default
  {
    if Truthy(x) then x else default
  }

  const EmptyList: Json := Arr([])

  // ---------------------------------------------------------------------------------------
  // match_episode
  // ---------------------------------------------------------------------------------------

  /** The matches the code walks once the response says it matched. */
  function Matches(data: Json): Json
    requires data.Obj?
  {
    Or(Get(data, "matches", Null), EmptyList)
  }

  /** The walk touches objects only, up to the first one with an episode id. */
  predicate MatchItemsShape(items: seq<Json>) {
    items == [] || (items[0].Obj? && (Truthy(Get(items[0], "episodeId", Null)) || MatchItemsShape(items[1..])))
  }

  /** What `match_episode` needs of the response to run without raising. */
  predicate MatchShape(data: Json) {
    !Truthy(data) || (data.Obj? && (!Truthy(Get(data, "isMatched", Null))
                                    || (Matches(data).Arr? && MatchItemsShape(Matches(data).items))))
  }

  /** The first item with a truthy episode id. */
  function FirstWithEpisodeId(items: seq<Json>): (r: Option<Json>)
    requires MatchItemsShape(items)
    ensures r.Some? ==> r.value in items && r.value.Obj? && Truthy(Get(r.value, "episodeId", Null))
  {
    if items == [] then None
    else if Truthy(Get(items[0], "episodeId", Null)) then Some(items[0])
    else FirstWithEpisodeId(items[1..])
  }

  /** The result of `match_episode` for the decoded response `data` (`Null` when the request failed). */
  function MatchedEpisode(data: Json): Option<Json>
    requires MatchShape(data)
  {
    if !Truthy(data) || !Truthy(Get(data, "isMatched", Null)) then None
    else FirstWithEpisodeId(Matches(data).items)
  }

  /** `match_episode`'s loop over the matches. */
  method MatchEpisode(data: Json) returns (r: Option<Json>)
    requires MatchShape(data)
    ensures r == MatchedEpisode(data)
  {
    if !Truthy(data) {
      return None;
    }
    if !Truthy(Get(data, "isMatched", Null)) {
      return None;
    }
    var matches := Matches(data).items;
    var i := 0;
    while i < |matches|
      invariant 0 <= i <= |matches|
      invariant MatchItemsShape(matches[i..])
      invariant FirstWithEpisodeId(matches[i..]) == FirstWithEpisodeId(matches)
    {
      var item := matches[i];
      assert matches[i..][0] == item;
      if Truthy(Get(item, "episodeId", Null)) {
        return Some(item);
      }
      assert matches[i..][1..] == matches[i + 1..];
      i := i + 1;
    }
    return None;
  }

  /**
   * No response, or one that does not say it matched, gives nothing; otherwise the result is
   * the first match with a truthy episode id, and there is none exactly when no match has one.
   */
  lemma {:induction false} MatchedEpisodeIsFirst(data: Json)
    requires MatchShape(data)
    ensures !Truthy(data) || !Truthy(Get(data, "isMatched", Null)) ==> MatchedEpisode(data).None?
    ensures MatchedEpisode(data).Some? ==>
              exists k :: 0 <= k < |Matches(data).items| && Matches(data).items[k] == MatchedEpisode(data).value
                && Truthy(Get(Matches(data).items[k], "episodeId", Null))
                && forall j :: 0 <= j < k ==> Matches(data).items[j].Obj? && !Truthy(Get(Matches(data).items[j], "episodeId", Null))
    ensures Truthy(data) && Truthy(Get(data, "isMatched", Null)) && MatchedEpisode(data).None? ==>
              forall j :: 0 <= j < |Matches(data).items| ==> Matches(data).items[j].Obj? && !Truthy(Get(Matches(data).items[j], "episodeId", Null))
  {
    if Truthy(data) && Truthy(Get(data, "isMatched", Null)) {
      FirstIsFirst(Matches(data).items);
    }
  }

  lemma {:induction false} FirstIsFirst(items: seq<Json>)
    requires MatchItemsShape(items)
    ensures FirstWithEpisodeId(items).Some? ==>
              exists k :: 0 <= k < |items| && items[k] == FirstWithEpisodeId(items).value
                && Truthy(Get(items[k], "episodeId", Null))
                && forall j :: 0 <= j < k ==> items[j].Obj? && !Truthy(Get(items[j], "episodeId", Null))
    ensures FirstWithEpisodeId(items).None? ==>
              forall j :: 0 <= j < |items| ==> items[j].Obj? && !Truthy(Get(items[j], "episodeId", Null))
  {
    if items != [] && !Truthy(Get(items[0], "episodeId", Null)) {
      var tail := items[1..];
      FirstIsFirst(tail);
      if FirstWithEpisodeId(tail).Some? {
        var k :| 0 <= k < |tail| && tail[k] == FirstWithEpisodeId(tail).value
                 && Truthy(Get(tail[k], "episodeId", Null))
                 && forall j :: 0 <= j < k ==> tail[j].Obj? && !Truthy(Get(tail[j], "episodeId", Null));
        assert items[k + 1] == tail[k];
        forall j | 0 <= j < k + 1 ensures items[j].Obj? && !Truthy(Get(items[j], "episodeId", Null)) {
          if j > 0 {
            assert items[j] == tail[j - 1];
          }
        }
      } else {
        forall j | 0 <= j < |items| ensures items[j].Obj? && !Truthy(Get(items[j], "episodeId", Null)) {
          if j > 0 {
            assert items[j] == tail[j - 1];
          }
        }
      }
    } else if items != [] {
      assert items[0] == FirstWithEpisodeId(items).value;
    }
  }

  // ---------------------------------------------------------------------------------------
  // search_episode
  // ---------------------------------------------------------------------------------------

  /** The episodes of one anime entry, `[]` when missing or empty. */
  function EpisodesOf(anime: Json): Json
    requires anime.Obj?
  {
    Or(Get(anime, "episodes", Null), EmptyList)
  }

  /** An anime entry whose episodes list starts with an episode object. */
  predicate Usable(anime: Json) {
    anime.Obj? && Truthy(EpisodesOf(anime)) && EpisodesOf(anime).Arr? && EpisodesOf(anime).items[0].Obj?
  }

  /** An anime entry the walk passes over. */
  predicate Skipped(anime: Json) {
    anime.Obj? && !Truthy(EpisodesOf(anime))
  }

  /** The walk touches objects only, up to the first anime with episodes, whose first episode is an object. */
  predicate AnimesShape(animes: seq<Json>) {
    animes == [] || Usable(animes[0]) || (Skipped(animes[0]) && AnimesShape(animes[1..]))
  }

  /** The episode picked from a usable anime entry. */
  function Picked(anime: Json): Json
    requires Usable(anime)
  {
    WithTitle(EpisodesOf(anime).items[0], anime)
  }

  function Animes(data: Json): Json
    requires data.Obj?
  {
    Get(data, "animes", EmptyList)
  }

  /** What `search_episode` needs of the response to run without raising. */
  predicate SearchShape(data: Json) {
    !Truthy(data) || (data.Obj? && Animes(data).Arr? && AnimesShape(Animes(data).items))
  }

  /** A copy of the episode with `animeTitle` filled in from the anime when it has none. */
  function WithTitle(episode: Json, anime: Json): (e: Json)
    requires episode.Obj? && anime.Obj?
    ensures e.Obj? && "animeTitle" in e.fields
    ensures forall key :: key in episode.fields ==> key in e.fields && e.fields[key] == episode.fields[key]
    ensures forall key :: key in e.fields ==> key in episode.fields || key == "animeTitle"
    ensures "animeTitle" !in episode.fields ==> e.fields["animeTitle"] == Get(anime, "animeTitle", Str(""))
  {
    if "animeTitle" in episode.fields then episode
    else Obj(episode.fields["animeTitle" := Get(anime, "animeTitle", Str(""))])
  }

  function FirstEpisode(animes: seq<Json>): Option<Json>
    requires AnimesShape(animes)
  {
    if animes == [] then None
    else if Usable(animes[0]) then Some(Picked(animes[0]))
    else FirstEpisode(animes[1..])
  }

  /** The result of `search_episode`: an empty keyword makes no request and finds nothing. */
  function SearchedEpisode(keyword: Option<string>, data: Json): Option<Json>
    requires SearchShape(data)
  {
    if keyword.None? || keyword.value == [] || !Truthy(data) then None
    else FirstEpisode(Animes(data).items)
  }

  /** `search_episode`'s loop over the anime entries. */
  method SearchEpisode(keyword: Option<string>, data: Json) returns (r: Option<Json>)
    requires SearchShape(data)
    ensures r == SearchedEpisode(keyword, data)
  {
    if keyword.None? || keyword.value == [] {
      return None;
    }
    if !Truthy(data) {
      return None;
    }
    var animes := Animes(data).items;
    var i := 0;
    while i < |animes|
      invariant 0 <= i <= |animes|
      invariant AnimesShape(animes[i..])
      invariant FirstEpisode(animes[i..]) == FirstEpisode(animes)
    {
      var anime := animes[i];
      assert animes[i..][0] == anime;
      var episodes := EpisodesOf(anime);
      if Truthy(episodes) {
        return Some(WithTitle(episodes.items[0], anime));
      }
      assert Skipped(anime);
      assert animes[i..][1..] == animes[i + 1..];
      i := i + 1;
    }
    return None;
  }

  /**
   * A found episode is the first episode of the first anime that has episodes, copied, with
   * `animeTitle` added from the anime only when the episode lacks one.
   */
  lemma {:induction false} SearchedEpisodeIsFirst(keyword: Option<string>, data: Json)
    requires SearchShape(data)
    ensures keyword.None? || keyword == Some("") ==> SearchedEpisode(keyword, data).None?
    ensures SearchedEpisode(keyword, data).Some? ==>
              exists k :: 0 <= k < |Animes(data).items| && Usable(Animes(data).items[k])
                && (forall j :: 0 <= j < k ==> Skipped(Animes(data).items[j]))
                && SearchedEpisode(keyword, data).value == Picked(Animes(data).items[k])
    ensures keyword.Some? && keyword.value != [] && Truthy(data) ==>
              (SearchedEpisode(keyword, data).None? <==>
               forall k :: 0 <= k < |Animes(data).items| ==> Skipped(Animes(data).items[k]))
  {
    if keyword.Some? && keyword.value != [] && Truthy(data) {
      FirstEpisodeIsFirst(Animes(data).items);
    }
  }

  lemma {:induction false} FirstEpisodeIsFirst(animes: seq<Json>)
    requires AnimesShape(animes)
    ensures FirstEpisode(animes).Some? ==>
              exists k :: 0 <= k < |animes| && Usable(animes[k])
                && (forall j :: 0 <= j < k ==> Skipped(animes[j]))
                && FirstEpisode(animes).value == Picked(animes[k])
    ensures FirstEpisode(animes).None? <==> forall k :: 0 <= k < |animes| ==> Skipped(animes[k])
  {
    if animes != [] && !Usable(animes[0]) {
      var tail := animes[1..];
      FirstEpisodeIsFirst(tail);
      if FirstEpisode(tail).None? {
        forall k | 0 <= k < |animes| ensures Skipped(animes[k]) {
          if k > 0 {
            assert animes[k] == tail[k - 1];
          }
        }
      }
      if FirstEpisode(tail).Some? {
        var k :| 0 <= k < |tail| && Usable(tail[k])
                 && (forall j :: 0 <= j < k ==> Skipped(tail[j]))
                 && FirstEpisode(tail).value == Picked(tail[k]);
        assert animes[k + 1] == tail[k];
        forall j | 0 <= j < k + 1 ensures Skipped(animes[j]) {
          if j > 0 {
            assert animes[j] == tail[j - 1];
          }
        }
      }
    }
  }

  // ---------------------------------------------------------------------------------------
  // download_comments
  // ---------------------------------------------------------------------------------------

  /** What `download_comments` needs of the response to run without raising. */
  predicate CommentsShape(data: Json) {
    !Truthy(data) || data.Obj?
  }

  /** `download_comments`: the response's comments, or an empty list. */
  function DownloadComments(episodeId: Json, data: Json): (r: Json)
    requires CommentsShape(data)
    ensures !Truthy(episodeId) || !Truthy(data) ==> r == EmptyList
    ensures Truthy(episodeId) && Truthy(data) && Truthy(Get(data, "comments", Null)) ==> r == data.fields["comments"]
    ensures !Truthy(r) ==> r == EmptyList
  {
    if !Truthy(episodeId) || !Truthy(data) then EmptyList
    else Or(Get(data, "comments", Null), EmptyList)
  }

  // ---------------------------------------------------------------------------------------
  // build_bili_xml
  // ---------------------------------------------------------------------------------------

  /** `html.escape(s)`: `&`, `<`, `>`, `"` and `'` become character references. */
  function EscapeChar(c: char): string {
    if c == '&' then "&amp;"
    else if c == '<' then "&lt;"
    else if c == '>' then "&gt;"
    else if c == '"' then "&quot;"
    else if c == '\'' then "&#x27;"
    else [c]
  }

  function HtmlEscape(s: string): (r: string)
    ensures |r| >= |s|
  {
    if s == [] then [] else EscapeChar(s[0]) + HtmlEscape(s[1..])
  }

  /** The reverse mapping: each of the five references becomes its character again. */
  function HtmlUnescape(s: string): string
    decreases |s|
  {
    if s == [] then []
    else if StartsWith(s, "&amp;") then "&" + HtmlUnescape(s[5..])
    else if StartsWith(s, "&lt;") then "<" + HtmlUnescape(s[4..])
    else if StartsWith(s, "&gt;") then ">" + HtmlUnescape(s[4..])
    else if StartsWith(s, "&quot;") then "\"" + HtmlUnescape(s[6..])
    else if StartsWith(s, "&#x27;") then "'" + HtmlUnescape(s[6..])
    else [s[0]] + HtmlUnescape(s[1..])
  }

  lemma UnescapeChar(c: char, rest: string)
    ensures HtmlUnescape(EscapeChar(c) + rest) == [c] + HtmlUnescape(rest)
  {
    if c == '&' {
      UnescapeAmp(rest);
    } else if c == '<' {
      UnescapeLt(rest);
    } else if c == '>' {
      UnescapeGt(rest);
    } else if c == '"' {
      UnescapeQuot(rest);
    } else if c == '\'' {
      UnescapeApos(rest);
    } else {
      UnescapePlain(c, rest);
    }
  }

  lemma UnescapeAmp(rest: string)
    ensures HtmlUnescape("&amp;" + rest) == "&" + HtmlUnescape(rest)
  {
    var e := "&amp;" + rest;
    assert StartsWith(e, "&amp;") && e[5..] == rest;
  }

  lemma UnescapeLt(rest: string)
    ensures HtmlUnescape("&lt;" + rest) == "<" + HtmlUnescape(rest)
  {
    var e := "&lt;" + rest;
    DiffersAt(e, "&amp;", 1);
    assert StartsWith(e, "&lt;") && e[4..] == rest;
  }

  lemma UnescapeGt(rest: string)
    ensures HtmlUnescape("&gt;" + rest) == ">" + HtmlUnescape(rest)
  {
    var e := "&gt;" + rest;
    DiffersAt(e, "&amp;", 1);
    DiffersAt(e, "&lt;", 1);
    assert StartsWith(e, "&gt;") && e[4..] == rest;
  }

  lemma UnescapeQuot(rest: string)
    ensures HtmlUnescape("&quot;" + rest) == "\"" + HtmlUnescape(rest)
  {
    var e := "&quot;" + rest;
    DiffersAt(e, "&amp;", 1);
    DiffersAt(e, "&lt;", 1);
    DiffersAt(e, "&gt;", 1);
    assert StartsWith(e, "&quot;") && e[6..] == rest;
  }

  lemma UnescapeApos(rest: string)
    ensures HtmlUnescape("&#x27;" + rest) == "'" + HtmlUnescape(rest)
  {
    var e := "&#x27;" + rest;
    DiffersAt(e, "&amp;", 1);
    DiffersAt(e, "&lt;", 1);
    DiffersAt(e, "&gt;", 1);
    DiffersAt(e, "&quot;", 1);
    assert StartsWith(e, "&#x27;") && e[6..] == rest;
  }

  lemma UnescapePlain(c: char, rest: string)
    requires c != '&'
    ensures HtmlUnescape([c] + rest) == [c] + HtmlUnescape(rest)
  {
    var e := [c] + rest;
    DiffersAt(e, "&amp;", 0);
    DiffersAt(e, "&lt;", 0);
    DiffersAt(e, "&gt;", 0);
    DiffersAt(e, "&quot;", 0);
    DiffersAt(e, "&#x27;", 0);
    assert e[1..] == rest;
  }

  /** A string that differs from a reference at some position does not start with it. */
  lemma DiffersAt(e: string, reference: string, k: nat)
    requires k < |e| && k < |reference| && e[k] != reference[k]
    ensures !StartsWith(e, reference)
  {
    assert |reference| > |e| || e[..|reference|][k] != reference[k];
  }

  /** Escaping loses nothing: the text reads back exactly. */
  lemma {:induction false} EscapeRoundTrip(s: string)
    ensures HtmlUnescape(HtmlEscape(s)) == s
  {
    if s != [] {
      EscapeRoundTrip(s[1..]);
      UnescapeChar(s[0], HtmlEscape(s[1..]));
    }
  }

  /** Escaped text holds no markup characters. */
  lemma {:induction false} EscapedHasNoMarkup(s: string)
    ensures forall c :: c in HtmlEscape(s) ==> c != '<' && c != '>' && c != '"' && c != '\''
  {
    if s != [] {
      EscapedHasNoMarkup(s[1..]);
    }
  }

  /** Python's `str()` of the scalar values a `p` attribute holds. */
  function PyStr(j: Json): string
    requires j.Str? || j.Num? || j.Bool?
  {
    match j
    case Str(s) => s
    case Num(n) => IntToString(n)
    case Bool(b) => if b then "True" else "False"
  }

  /** What one comment must look like for the code not to raise on it. */
  predicate CommentShape(c: Json) {
    c.Obj?
    && var p := Get(c, "p", Null);
       Truthy(p) ==> (p.Str? || p.Num? || p.Bool?) && Get(c, "m", Str("")).Str?
  }

  /** The `<d>` line of a comment whose `p` is truthy: `p` verbatim, the text escaped. */
  function CommentLine(c: Json): string
    requires CommentShape(c) && Truthy(Get(c, "p", Null))
  {
    "<d p=\"" + PyStr(Get(c, "p", Null)) + "\">" + HtmlEscape(Get(c, "m", Str("")).s) + "</d>"
  }

  /** The `<d>` lines of the comments with a truthy `p`, in order. */
  function CommentLines(comments: seq<Json>): (lines: seq<string>)
    requires forall c :: c in comments ==> CommentShape(c)
    ensures |lines| <= |comments|
  {
    if comments == [] then []
    else
      var last := comments[|comments| - 1];
      assert last in comments && CommentShape(last);
      CommentLines(comments[..|comments| - 1]) + (if Truthy(Get(last, "p", Null)) then [CommentLine(last)] else [])
  }

  /** The document `build_bili_xml` writes (before UTF-8 encoding). */
  function BiliXml(comments: seq<Json>): string
    requires forall c :: c in comments ==> CommentShape(c)
  {
    Join(["<i>"] + CommentLines(comments) + ["</i>"], "\n")
  }

  /** `build_bili_xml`: one pass appending a line per usable comment. */
  method BuildBiliXml(comments: seq<Json>) returns (xml: string)
    requires forall c :: c in comments ==> CommentShape(c)
    ensures xml == BiliXml(comments)
  {
    var lines := ["<i>"];
    var i := 0;
    while i < |comments|
      invariant 0 <= i <= |comments|
      invariant lines == ["<i>"] + CommentLines(comments[..i])
    {
      assert comments[..i + 1][..i] == comments[..i];
      var item := comments[i];
      assert item in comments;
      var attr := Get(item, "p", Null);
      var text := Get(item, "m", Str(""));
      if Truthy(attr) {
        lines := lines + ["<d p=\"" + PyStr(attr) + "\">" + HtmlEscape(text.s) + "</d>"];
      }
      i := i + 1;
    }
    assert comments[..|comments|] == comments;
    lines := lines + ["</i>"];
    xml := Join(lines, "\n");
  }

  /** The lines of a concatenation are the lines of each part, in order. */
  lemma {:induction false} CommentLinesAppend(a: seq<Json>, b: seq<Json>)
    requires forall c :: c in a + b ==> CommentShape(c)
    ensures CommentLines(a + b) == CommentLines(a) + CommentLines(b)
    decreases |b|
  {
    if b == [] {
      assert a + b == a;
    } else {
      var init := b[..|b| - 1];
      assert (a + b)[..|a + b| - 1] == a + init;
      CommentLinesAppend(a, init);
    }
  }

  /** Exactly one line per comment with a truthy `p`: a single comment gives one line or none. */
  lemma OneLinePerUsableComment(c: Json)
    requires CommentShape(c)
    ensures Truthy(Get(c, "p", Null)) ==> CommentLines([c]) == [CommentLine(c)]
    ensures !Truthy(Get(c, "p", Null)) ==> CommentLines([c]) == []
  {
    assert [c][..0] == [];
  }

  lemma {:induction false} JoinBounds(xs: seq<string>, sep: string)
    requires |xs| >= 1
    ensures StartsWith(Join(xs, sep), xs[0])
    ensures EndsWith(Join(xs, sep), xs[|xs| - 1])
  {
    if |xs| > 1 {
      JoinBounds(xs[1..], sep);
      var rest := Join(xs[1..], sep);
      assert Join(xs, sep) == xs[0] + (sep + rest);
      assert (xs[0] + (sep + rest))[..|xs[0]|] == xs[0];
      var j := Join(xs, sep);
      var last := xs[|xs| - 1];
      assert j[|j| - |last|..] == rest[|rest| - |last|..];
    }
  }

  /** The document opens with `<i>` and closes with `</i>`. */
  lemma BiliXmlFrame(comments: seq<Json>)
    requires forall c :: c in comments ==> CommentShape(c)
    ensures StartsWith(BiliXml(comments), "<i>")
    ensures EndsWith(BiliXml(comments), "</i>")
  {
    var lines := ["<i>"] + CommentLines(comments) + ["</i>"];
    JoinBounds(lines, "\n");
  }

  /** Comment text cannot close the element or open another: it carries no markup characters. */
  lemma CommentTextIsEscaped(c: Json)
    requires CommentShape(c) && Truthy(Get(c, "p", Null))
    ensures exists t :: CommentLine(c) == "<d p=\"" + PyStr(Get(c, "p", Null)) + "\">" + t + "</d>"
              && HtmlUnescape(t) == Get(c, "m", Str("")).s
              && forall ch :: ch in t ==> ch != '<' && ch != '>'
  {
    var t := HtmlEscape(Get(c, "m", Str("")).s);
    EscapeRoundTrip(Get(c, "m", Str("")).s);
    EscapedHasNoMarkup(Get(c, "m", Str("")).s);
    assert CommentLine(c) == "<d p=\"" + PyStr(Get(c, "p", Null)) + "\">" + t + "</d>";
  }
}
