/**
 * Decoding of Bilibili danmaku XML: each `<d p="time,mode,size,color,...">text</d>` element
 * becomes an item. The pull parser is abstracted as the sequence of `d` elements it reports,
 * followed by how the document ended.
 */
module BiliXml {
  import opened Wrappers
  import opened Text
  import opened Tracks

  datatype ErrorReason = Malformed | Io

  /** The reason's enum constant name, as recorded in load errors. */
  function ReasonName(r: ErrorReason): string {
    match r
    case Malformed => "MALFORMED"
    case Io => "IO"
  }

  /** A `d` start tag: its `p` attribute (absent or present) and the text directly inside it. */
  datatype RawEntry = RawEntry(p: Option<string>, text: string)

  /** How the pull parser stopped: at the end of the document, on a structural error, or on a read error. */
  datatype DocEnd = EndDocument | XmlError | ReadError

  datatype XmlDoc = XmlDoc(entries: seq<RawEntry>, end: DocEnd)

  /** `mapMode`: 4 is bottom, 5 top, 7 positioned, every other mode scrolls. */
  function MapMode(mode: int): (t: ItemType)
    ensures t == Bottom <==> mode == 4
    ensures t == Top <==> mode == 5
    ensures t == Positioned <==> mode == 7
  {
    if mode == 4 then Bottom
    else if mode == 5 then Top
    else if mode == 7 then Positioned
    else Scroll
  }

  function Pow10(n: nat): (r: nat)
    ensures r >= 1
  {
    if n == 0 then 1 else 10 * Pow10(n - 1)
  }

  /**
   * `Float.parseFloat` on plain decimals: surrounding whitespace is ignored, then an optional
   * sign, digits, and an optional fractional part; at least one digit must be present.
   */
  function ParseFloat(s: string): (r: Option<real>)
    ensures r.Some? ==> Trim(s) != []
  {
    var t := Trim(s);
    if t == [] then None
    else
      var body := if t[0] == '-' || t[0] == '+' then t[1..] else t;
      var intPart := if '.' in body then body[..IndexOf(body, '.')] else body;
      var fracPart := if '.' in body then body[IndexOf(body, '.') + 1..] else "";
      if |intPart| + |fracPart| == 0 || !AllDigits(intPart) || !AllDigits(fracPart) then None
      else
        var v := DigitsValue(intPart) as real + DigitsValue(fracPart) as real / Pow10(|fracPart|) as real;
        Some(if t[0] == '-' then -v else v)
  }

  /**
   * `parseItem`: a missing or empty `p`, fewer than four fields, or any field that is not a
   * number gives no item; otherwise the first four fields decide the item.
   */
  function ParseItem(p: Option<string>, text: string): (r: Option<Item>)
    ensures p.None? || p == Some("") ==> r.None?
    ensures r.Some? ==> |JavaSplit(p.value, ',')| >= 4 && r == ItemOfFields(JavaSplit(p.value, ','), text)
    ensures (p.Some? && p.value != [] && |JavaSplit(p.value, ',')| >= 4
             && ItemOfFields(JavaSplit(p.value, ','), text).Some?) ==> r.Some?
  {
    if p.None? || p.value == [] then None
    else
      var parts := JavaSplit(p.value, ',');
      if |parts| < 4 then None else ItemOfFields(parts, text)
  }

  /**
   * The item of the fields time, mode, size and colour: seconds become truncated milliseconds,
   * the colour keeps the low 32 bits of the parsed long, the opacity is 1 and there is no position.
   */
  function ItemOfFields(parts: seq<string>, text: string): (r: Option<Item>)
    requires |parts| >= 4
    ensures r.Some? <==> ParseFloat(parts[0]).Some? && ParseInt(parts[1]).Some?
                         && ParseFloat(parts[2]).Some? && ParseLong(parts[3]).Some?
    ensures r.Some? ==> r.value.text == text && r.value.alpha == 1.0 && r.value.position.None?
    ensures r.Some? ==> IntMin <= r.value.color <= IntMax
    ensures r.Some? ==> r.value.itemType == MapMode(ParseInt(parts[1]).value)
    ensures r.Some? ==> r.value.timeMs == Trunc(ParseFloat(parts[0]).value * 1000.0)
    ensures r.Some? ==> r.value.color == ToInt32(ParseLong(parts[3]).value)
    ensures r.Some? ==> r.value.textSizeSp == ParseFloat(parts[2]).value
  {
    var seconds := ParseFloat(parts[0]);
    var mode := ParseInt(parts[1]);
    var sizeSp := ParseFloat(parts[2]);
    var color := ParseLong(parts[3]);
    if seconds.Some? && mode.Some? && sizeSp.Some? && color.Some? then
      Some(Item(Trunc(seconds.value * 1000.0), MapMode(mode.value), text, ToInt32(color.value), sizeSp.value, 1.0, None))
    else None
  }

  /** The items of the entries that decode, in document order. */
  function ItemsOf(entries: seq<RawEntry>): (items: seq<Item>)
    ensures |items| <= |entries|
  {
    if entries == [] then []
    else
      var last := entries[|entries| - 1];
      ItemsOf(entries[..|entries| - 1])
      + (match ParseItem(last.p, last.text) case Some(item) => [item] case None => [])
  }

  /** What `parse` returns or throws for a document. */
  function ParseResult(doc: XmlDoc): (r: Result<seq<Item>, ErrorReason>)
    ensures doc.end == XmlError <==> r == Failure(Malformed)
    ensures doc.end == ReadError <==> r == Failure(Io)
    ensures doc.end == EndDocument ==> r == Success(ItemsOf(doc.entries))
  {
    match doc.end
    case XmlError => Failure(Malformed)
    case ReadError => Failure(Io)
    case EndDocument => Success(ItemsOf(doc.entries))
  }

  /** `parse`: walks the `d` elements, keeping each one that decodes, then reports how the document ended. */
  method Parse(doc: XmlDoc) returns (r: Result<seq<Item>, ErrorReason>)
    ensures r == ParseResult(doc)
  {
    var result: seq<Item> := [];
    var i := 0;
    while i < |doc.entries|
      invariant 0 <= i <= |doc.entries|
      invariant result == ItemsOf(doc.entries[..i])
    {
      assert doc.entries[..i + 1][..i] == doc.entries[..i];
      var entry := doc.entries[i];
      var item := ParseItem(entry.p, entry.text);
      if item.Some? {
        result := result + [item.value];
      }
      i := i + 1;
    }
    assert doc.entries[..|doc.entries|] == doc.entries;
    match doc.end
    case XmlError => r := Failure(Malformed);
    case ReadError => r := Failure(Io);
    case EndDocument => r := Success(result);
  }

  /** Decoding entries separately and concatenating gives the items of the whole: a bad entry only loses itself. */
  lemma {:induction false} ItemsOfAppend(a: seq<RawEntry>, b: seq<RawEntry>)
    ensures ItemsOf(a + b) == ItemsOf(a) + ItemsOf(b)
    decreases |b|
  {
    if b == [] {
      assert a + b == a;
    } else {
      var b' := b[..|b| - 1];
      assert (a + b)[..|a + b| - 1] == a + b';
      ItemsOfAppend(a, b');
    }
  }

  lemma TrimmedWord(s: string)
    requires s != [] && !IsTrimChar(s[0]) && !IsTrimChar(s[|s| - 1])
    ensures Trim(s) == s
  {
    TrimOfTrimmed(s);
  }

  /** "0.5" seconds is one half. */
  lemma ParseFloatHalf()
    ensures ParseFloat("0.5") == Some(0.5)
  {
    var t := "0.5";
    TrimmedWord(t);
    assert t[1] == '.' && t[..1] == "0";
    IndexOfUnique(t, '.', 1);
    assert t[..1] == "0" && t[2..] == "5";
    assert DigitsValue("0") == 0 by { assert "0"[..0] == []; }
    assert DigitsValue("5") == 5 by { assert "5"[..0] == []; }
  }

  lemma ParseFloatWhole()
    ensures ParseFloat("25") == Some(25.0)
  {
    TrimmedWord("25");
    assert DigitsValue("25") == 25 by {
      assert "25"[..1] == "2";
      assert "2"[..0] == [];
    }
  }

  lemma ParseSmallInts()
    ensures ParseInt("1") == Some(1)
    ensures ParseLong("255") == Some(255)
  {
    assert DigitsValue("1") == 1 by { assert "1"[..0] == []; }
    assert DigitsValue("255") == 255 by {
      assert "255"[..2] == "25";
      assert "25"[..1] == "2";
      assert "2"[..0] == [];
    }
  }

  lemma SplitExample(a: string, b: string, c: string, d: string)
    requires a != [] && b != [] && c != [] && d != []
    requires ',' !in a && ',' !in b && ',' !in c && ',' !in d
    ensures JavaSplit(a + "," + b + "," + c + "," + d, ',') == [a, b, c, d]
  {
    var xs := [a, b, c, d];
    assert xs[1..] == [b, c, d] && xs[1..][1..] == [c, d] && xs[1..][1..][1..] == [d];
    assert Join([c, d], [',']) == c + "," + d;
    assert Join([b, c, d], [',']) == b + "," + (c + "," + d);
    assert Join(xs, [',']) == a + "," + (b + "," + (c + "," + d));
    assert a + "," + (b + "," + (c + "," + d)) == a + "," + b + "," + c + "," + d;
    SplitOfJoin(xs, ',');
  }

  /** The item of four fields that all parse. */
  lemma ItemOfParsedFields(parts: seq<string>, text: string, seconds: real, mode: int, sizeSp: real, color: int)
    requires |parts| == 4
    requires ParseFloat(parts[0]) == Some(seconds) && ParseInt(parts[1]) == Some(mode)
    requires ParseFloat(parts[2]) == Some(sizeSp) && ParseLong(parts[3]) == Some(color)
    ensures ItemOfFields(parts, text) == Some(Item(Trunc(seconds * 1000.0), MapMode(mode), text, ToInt32(color), sizeSp, 1.0, None))
  {
  }

  /** Half a second with mode 1 is a scrolling item at 500 ms, fully opaque, without a position. */
  lemma ParseItemHalfSecond(p: string, text: string, a: string, b: string, c: string, d: string)
    requires a == "0.5" && b == "1" && c == "25" && d == "255"
    requires p == a + "," + b + "," + c + "," + d
    ensures ParseItem(Some(p), text) == Some(Item(500, Scroll, text, 255, 25.0, 1.0, None))
  {
    var parts := [a, b, c, d];
    assert ParseItem(Some(p), text) == ItemOfFields(parts, text) by {
      SplitExample(a, b, c, d);
    }
    assert ParseFloat(a) == Some(0.5) by { ParseFloatHalf(); }
    assert ParseFloat(c) == Some(25.0) by { ParseFloatWhole(); }
    assert ParseInt(b) == Some(1) && ParseLong(d) == Some(255) by { ParseSmallInts(); }
    ItemOfParsedFields(parts, text, 0.5, 1, 25.0, 255);
    assert Trunc(0.5 * 1000.0) == 500;
  }

  /** An entry whose time is not a number is dropped on its own. */
  lemma ParseItemBadTime(p: string, text: string, a: string, b: string, c: string, d: string)
    requires a == "not-a-number" && b == "1" && c == "25" && d == "0"
    requires p == a + "," + b + "," + c + "," + d
    ensures ParseItem(Some(p), text) == None
  {
    assert ParseItem(Some(p), text) == ItemOfFields([a, b, c, d], text) by {
      SplitExample(a, b, c, d);
    }
    assert ParseFloat(a) == None by {
      TrimmedWord(a);
      assert !IsDigit(a[0]);
    }
  }
}
