/**
 * String and number primitives with the semantics of the Java and Python library calls the
 * danmaku code relies on: `String.split` with a one-character delimiter, `String.trim`,
 * `toLowerCase` on ASCII letters, `Long.parseLong`/`Integer.parseInt`, `Long.toString`,
 * and the truncating casts and divisions of Java arithmetic.
 */
module Text {
  import opened Wrappers

  // ---------------------------------------------------------------------------------------
  // Case, prefixes and substrings
  // ---------------------------------------------------------------------------------------

  /** Lower-cases an ASCII letter; every other character is left as it is. */
  function LowerChar(c: char): char {
    if 'A' <= c <= 'Z' then (c as int + 32) as char else c
  }

  function Lower(s: string): (r: string)
    ensures |r| == |s|
    ensures forall i :: 0 <= i < |s| ==> r[i] == LowerChar(s[i])
  {
    seq(|s|, i requires 0 <= i < |s| => LowerChar(s[i]))
  }

  /** `a.equalsIgnoreCase(b)` restricted to ASCII case folding. */
  predicate EqualsIgnoreCase(a: string, b: string) {
    Lower(a) == Lower(b)
  }

  predicate StartsWith(s: string, prefix: string) {
    |prefix| <= |s| && s[..|prefix|] == prefix
  }

  predicate EndsWith(s: string, suffix: string) {
    |suffix| <= |s| && s[|s| - |suffix|..] == suffix
  }

  /** `s.contains(sub)`: `sub` occurs at some index of `s` (the empty string occurs everywhere). */
  predicate Contains(s: string, sub: string) {
    exists i :: 0 <= i <= |s| && OccursAt(s, sub, i)
  }

  predicate OccursAt(s: string, sub: string, i: int) {
    0 <= i && i + |sub| <= |s| && s[i..i + |sub|] == sub
  }

  /** `s.lastIndexOf(c)`, with -1 when `c` does not occur. */
  function LastIndexOf(s: string, c: char): (r: int)
    ensures -1 <= r < |s|
    ensures r == -1 <==> c !in s
    ensures 0 <= r ==> s[r] == c && c !in s[r + 1..]
  {
    if |s| == 0 then -1
    else if s[|s| - 1] == c then |s| - 1
    else
      var r := LastIndexOf(s[..|s| - 1], c);
      LastIndexOfStep(s[..|s| - 1], s[|s| - 1], c, r);
      assert s == s[..|s| - 1] + [s[|s| - 1]];
      r
  }

  lemma LastIndexOfStep(init: string, last: char, c: char, r: int)
    requires last != c && -1 <= r < |init|
    requires r == -1 <==> c !in init
    requires 0 <= r ==> init[r] == c && c !in init[r + 1..]
    ensures r == -1 <==> c !in init + [last]
    ensures 0 <= r ==> (init + [last])[r] == c && c !in (init + [last])[r + 1..]
  {
    if 0 <= r {
      assert (init + [last])[r + 1..] == init[r + 1..] + [last];
    }
  }

  /** `a.compareTo(b) < 0`: the first differing character is smaller, or `a` is a proper prefix of `b`. */
  predicate LexLess(a: string, b: string) {
    b != [] && (a == [] || a[0] < b[0] || (a[0] == b[0] && LexLess(a[1..], b[1..])))
  }

  lemma {:induction false} LexLessIrreflexive(a: string)
    ensures !LexLess(a, a)
  {
    if a != [] {
      LexLessIrreflexive(a[1..]);
    }
  }

  lemma {:induction false} LexLessTransitive(a: string, b: string, c: string)
    requires LexLess(a, b) && LexLess(b, c)
    ensures LexLess(a, c)
  {
    if a != [] && a[0] == b[0] && b[0] == c[0] {
      LexLessTransitive(a[1..], b[1..], c[1..]);
    }
  }

  // ---------------------------------------------------------------------------------------
  // Splitting and joining on a single-character delimiter
  // ---------------------------------------------------------------------------------------

  /** Index of the first occurrence of `d` in `s`. */
  function IndexOf(s: string, d: char): (i: nat)
    requires d in s
    ensures i < |s| && s[i] == d && d !in s[..i]
  {
    if s[0] == d then 0
    else
      var j := IndexOf(s[1..], d);
      assert s[..j + 1] == [s[0]] + s[1..][..j];
      j + 1
  }

  /** Every field between occurrences of `d`, including empty ones: n delimiters give n + 1 fields. */
  function Fields(s: string, d: char): (r: seq<string>)
    ensures |r| >= 1
    decreases |s|
  {
    if d in s then
      var i := IndexOf(s, d);
      [s[..i]] + Fields(s[i + 1..], d)
    else [s]
  }

  /** No field contains the delimiter. */
  lemma {:induction false} FieldsExcludeDelimiter(s: string, d: char)
    ensures forall i :: 0 <= i < |Fields(s, d)| ==> d !in Fields(s, d)[i]
    decreases |s|
  {
    if d in s {
      var i := IndexOf(s, d);
      FieldsExcludeDelimiter(s[i + 1..], d);
    }
  }

  lemma SplitExcludesDelimiter(s: string, d: char)
    ensures forall i :: 0 <= i < |JavaSplit(s, d)| ==> d !in JavaSplit(s, d)[i]
  {
    FieldsExcludeDelimiter(s, d);
  }

  /** The first field is everything before the first delimiter. */
  lemma FirstField(s: string, d: char)
    ensures d in s ==> Fields(s, d)[0] == s[..IndexOf(s, d)]
    ensures d !in s ==> Fields(s, d)[0] == s
  {
  }

  /** A split that keeps at least one field starts with the text before the first delimiter. */
  lemma FirstFieldOfSplit(s: string, d: char)
    requires d in s && |JavaSplit(s, d)| >= 1
    ensures JavaSplit(s, d)[0] == s[..IndexOf(s, d)]
  {
    var fs := Fields(s, d);
    FirstField(s, d);
    var r := DropTrailingEmpty(fs);
    assert r[0] == fs[..|r|][0];
  }

  /** Splitting a non-empty list joined with a delimiter they do not contain gives it back. */
  lemma SplitOfJoin(xs: seq<string>, d: char)
    requires |xs| >= 2 && xs[|xs| - 1] != ""
    requires forall i :: 0 <= i < |xs| ==> d !in xs[i]
    ensures JavaSplit(Join(xs, [d]), d) == xs
  {
    JoinContains(xs, d);
    FieldsOfPlainJoin(xs, d);
    KeepsNonEmptyLast(xs);
  }

  lemma FieldsOfPlainJoin(xs: seq<string>, d: char)
    requires |xs| >= 1
    requires forall i :: 0 <= i < |xs| ==> d !in xs[i]
    ensures Fields(Join(xs, [d]), d) == xs
  {
    assert [d] + "" == [d];
    FieldsOfJoin(xs, d, "");
    PaddedNothing(xs[1..]);
    assert [xs[0]] + xs[1..] == xs;
  }

  lemma JoinContains(xs: seq<string>, d: char)
    requires |xs| >= 2
    ensures d in Join(xs, [d])
  {
    assert Join(xs, [d])[|xs[0]|] == d;
  }

  lemma {:induction false} PaddedNothing(xs: seq<string>)
    ensures Padded("", xs) == xs
  {
    if xs != [] {
      PaddedNothing(xs[1..]);
      assert "" + xs[0] == xs[0];
    }
  }

  lemma KeepsNonEmptyLast(xs: seq<string>)
    requires xs != [] && xs[|xs| - 1] != ""
    ensures DropTrailingEmpty(xs) == xs
  {
  }

  function DropTrailingEmpty(xs: seq<string>): (r: seq<string>)
    ensures |r| <= |xs| && r == xs[..|r|]
    ensures r == [] || r[|r| - 1] != ""
    ensures forall i :: |r| <= i < |xs| ==> xs[i] == ""
  {
    if xs != [] && xs[|xs| - 1] == "" then DropTrailingEmpty(xs[..|xs| - 1]) else xs
  }

  /**
   * Java's `s.split(d)` for a one-character, non-special delimiter: when `d` does not occur
   * the result is `[s]` (even for the empty string); otherwise the fields with trailing empty
   * fields removed.
   */
  function JavaSplit(s: string, d: char): seq<string> {
    if d !in s then [s] else DropTrailingEmpty(Fields(s, d))
  }

  /** `sep.join(xs)` / a StringBuilder that appends `sep` between consecutive elements. */
  function Join(xs: seq<string>, sep: string): string {
    if |xs| == 0 then ""
    else if |xs| == 1 then xs[0]
    else xs[0] + sep + Join(xs[1..], sep)
  }

  /** Each element of `xs` with `pad` in front of it. */
  function Padded(pad: string, xs: seq<string>): (r: seq<string>)
    ensures |r| == |xs|
  {
    if xs == [] then [] else [pad + xs[0]] + Padded(pad, xs[1..])
  }

  /** The first occurrence is the one no earlier occurrence precedes. */
  lemma IndexOfUnique(s: string, d: char, k: nat)
    requires k < |s| && s[k] == d && d !in s[..k]
    ensures IndexOf(s, d) == k
  {
  }

  lemma IndexOfAfter(x: string, d: char, rest: string)
    requires d !in x
    ensures d in x + [d] + rest
    ensures IndexOf(x + [d] + rest, d) == |x|
  {
    var s := x + [d] + rest;
    assert s[|x|] == d;
    assert s[..|x|] == x;
    IndexOfUnique(s, d, |x|);
  }

  /**
   * Splitting a joined list on the delimiter gives back the elements, each (but the first)
   * with the padding that followed the delimiter, provided neither the elements nor the
   * padding contain the delimiter.
   */
  lemma {:induction false} FieldsOfJoin(xs: seq<string>, d: char, pad: string)
    requires |xs| >= 1
    requires d !in pad
    requires forall i :: 0 <= i < |xs| ==> d !in xs[i]
    ensures Fields(Join(xs, [d] + pad), d) == [xs[0]] + Padded(pad, xs[1..])
  {
    if |xs| > 1 {
      var rest := Join(xs[1..], [d] + pad);
      var s := Join(xs, [d] + pad);
      assert s == xs[0] + [d] + (pad + rest);
      IndexOfAfter(xs[0], d, pad + rest);
      assert s[..|xs[0]|] == xs[0];
      assert s[|xs[0]| + 1..] == pad + rest;
      FieldsOfJoin(xs[1..], d, pad);
      PaddedFields(pad, rest, d);
      assert xs[1..][1..] == xs[2..];
    }
  }

  /** Putting padding free of the delimiter in front of a string only pads its first field. */
  lemma PaddedFields(pad: string, s: string, d: char)
    requires d !in pad
    ensures Fields(pad + s, d) == [pad + Fields(s, d)[0]] + Fields(s, d)[1..]
  {
    if d in s {
      PaddedFieldsSplit(pad, s, d, IndexOf(s, d));
    } else {
      PaddedFieldsWhole(pad, s, d);
    }
  }

  lemma PaddedFieldsSplit(pad: string, s: string, d: char, i: nat)
    requires d !in pad && d in s && i == IndexOf(s, d)
    ensures Fields(pad + s, d) == [pad + s[..i]] + Fields(s[i + 1..], d)
  {
    var t := pad + s;
    assert t[..|pad| + i] == pad + s[..i];
    IndexOfUnique(t, d, |pad| + i);
    assert t[|pad| + i + 1..] == s[i + 1..];
  }

  lemma PaddedFieldsWhole(pad: string, s: string, d: char)
    requires d !in pad && d !in s
    ensures Fields(pad + s, d) == [pad + s]
  {
    assert d !in pad + s;
  }

  /** The last delimiter of `a + [d] + b` is the one in the middle when `b` has none. */
  lemma LastIndexOfBefore(a: string, d: char, b: string)
    requires d !in b
    ensures LastIndexOf(a + [d] + b, d) == |a|
  {
    var s := a + [d] + b;
    assert s[|a|] == d;
    assert s[|a| + 1..] == b;
  }

  /** A string ending in a delimiter-free field splits uniquely at its last delimiter. */
  lemma SplitAtLast(a: string, b: string, a': string, b': string, d: char)
    requires d !in b && d !in b'
    requires a + [d] + b == a' + [d] + b'
    ensures a == a' && b == b'
  {
    LastIndexOfBefore(a, d, b);
    LastIndexOfBefore(a', d, b');
    var s := a + [d] + b;
    assert a == s[..|a|] && a' == s[..|a'|];
    assert b == s[|a| + 1..] && b' == s[|a'| + 1..];
  }

  // ---------------------------------------------------------------------------------------
  // Trimming
  // ---------------------------------------------------------------------------------------

  /** Java's `trim` removes every character whose code is at most that of the space. */
  predicate IsTrimChar(c: char) {
    c <= ' '
  }

  function TrimLeft(s: string): (r: string)
    decreases |s|
  {
    if |s| > 0 && IsTrimChar(s[0]) then TrimLeft(s[1..]) else s
  }

  function TrimRight(s: string): (r: string)
    decreases |s|
  {
    if |s| > 0 && IsTrimChar(s[|s| - 1]) then TrimRight(s[..|s| - 1]) else s
  }

  /** `s.trim()` */
  function Trim(s: string): string {
    TrimRight(TrimLeft(s))
  }

  /** Neither end of `s` is a character `trim` would remove. */
  predicate IsTrimmed(s: string) {
    s == [] || (!IsTrimChar(s[0]) && !IsTrimChar(s[|s| - 1]))
  }

  /** What `trim` returns is trimmed, and is a piece of its input. */
  lemma TrimIsTrimmed(s: string)
    ensures IsTrimmed(Trim(s))
    ensures forall c :: c in Trim(s) ==> c in s
  {
    TrimLeftPiece(s);
    TrimRightPiece(TrimLeft(s));
  }

  lemma {:induction false} TrimLeftPiece(s: string)
    ensures TrimLeft(s) == [] || !IsTrimChar(TrimLeft(s)[0])
    ensures forall c :: c in TrimLeft(s) ==> c in s
    decreases |s|
  {
    if |s| > 0 && IsTrimChar(s[0]) {
      TrimLeftPiece(s[1..]);
    }
  }

  lemma {:induction false} TrimRightPiece(s: string)
    ensures TrimRight(s) == [] || !IsTrimChar(TrimRight(s)[|TrimRight(s)| - 1])
    ensures |TrimRight(s)| <= |s| && TrimRight(s) == s[..|TrimRight(s)|]
    ensures forall c :: c in TrimRight(s) ==> c in s
    ensures |s| > 0 && !IsTrimChar(s[0]) ==> TrimRight(s) != []
    decreases |s|
  {
    if |s| > 0 && IsTrimChar(s[|s| - 1]) {
      TrimRightPiece(s[..|s| - 1]);
      if |s| > 1 {
        assert s[..|s| - 1][0] == s[0];
      }
    }
  }

  /** Trimming keeps a string whose first character is not blank non-empty. */
  lemma TrimKeepsFirst(s: string)
    requires |s| > 0 && !IsTrimChar(s[0])
    ensures Trim(s) != []
  {
    TrimRightPiece(s);
  }

  lemma TrimOfTrimmed(k: string)
    requires IsTrimmed(k)
    ensures Trim(k) == k
  {
  }

  /** A space in front of a non-empty trimmed string is removed by `trim`. */
  lemma TrimOfSpaced(k: string)
    requires IsTrimmed(k) && k != []
    ensures Trim(" " + k) == k
  {
    assert (" " + k)[1..] == k;
    assert TrimLeft(" " + k) == TrimLeft(k);
  }

  // ---------------------------------------------------------------------------------------
  // Decimal numbers
  // ---------------------------------------------------------------------------------------

  const LongMin: int := -0x8000_0000_0000_0000
  const LongMax: int := 0x7fff_ffff_ffff_ffff
  const IntMin: int := -0x8000_0000
  const IntMax: int := 0x7fff_ffff

  predicate IsDigit(c: char) {
    '0' <= c <= '9'
  }

  predicate AllDigits(s: string) {
    forall i :: 0 <= i < |s| ==> IsDigit(s[i])
  }

  function DigitChar(d: nat): (c: char)
    requires d < 10
    ensures IsDigit(c)
  {
    ('0' as int + d) as char
  }

  /** The value of a string of decimal digits, most significant first. */
  function DigitsValue(s: string): nat
    requires AllDigits(s)
    decreases |s|
  {
    if s == [] then 0 else 10 * DigitsValue(s[..|s| - 1]) + (s[|s| - 1] as int - '0' as int)
  }

  /** Decimal representation of a natural number, without leading zeros. */
  function NatToString(n: nat): string
    decreases n
  {
    if n < 10 then [DigitChar(n)] else NatToString(n / 10) + [DigitChar(n % 10)]
  }

  /** `Long.toString(n)` / Python's `str(n)`: a minus sign for negative numbers, then the digits. */
  function IntToString(n: int): string {
    if n < 0 then "-" + NatToString(-n) else NatToString(n)
  }

  lemma {:induction false} NatToStringDigits(n: nat)
    ensures |NatToString(n)| >= 1 && AllDigits(NatToString(n))
    ensures DigitsValue(NatToString(n)) == n
    decreases n
  {
    if n >= 10 {
      NatToStringDigits(n / 10);
      var s := NatToString(n);
      assert s[..|s| - 1] == NatToString(n / 10);
    }
  }

  /** Distinct numbers print differently. */
  lemma IntToStringInjective(m: int, n: int)
    requires LongMin <= m <= LongMax && LongMin <= n <= LongMax
    requires IntToString(m) == IntToString(n)
    ensures m == n
  {
    ParseLongOfIntToString(m);
    ParseLongOfIntToString(n);
  }

  lemma IntToStringShape(n: int)
    ensures |IntToString(n)| >= 1
    ensures '|' !in IntToString(n) && '#' !in IntToString(n)
    ensures IntToString(n)[|IntToString(n)| - 1] != '|'
  {
    NatToStringDigits(if n < 0 then -n else n);
    var s := IntToString(n);
    assert forall i :: 0 <= i < |s| ==> s[i] == '-' || IsDigit(s[i]);
  }

  /**
   * `Long.parseLong`/`Integer.parseInt` in radix 10 for the range [lo, hi]: an optional `+` or
   * `-`, then at least one ASCII digit, and nothing else; `None` is the NumberFormatException.
   * Java also accepts the decimal digits of other scripts (`Character.digit`); those are not modelled.
   */
  function ParseInteger(s: string, lo: int, hi: int): (r: Option<int>)
    ensures r.Some? ==> lo <= r.value <= hi
  {
    if s == [] then None
    else
      var signed := s[0] == '-' || s[0] == '+';
      var body := if signed then s[1..] else s;
      if body == [] || !AllDigits(body) then None
      else
        var n: int := DigitsValue(body);
        var v := if s[0] == '-' then -n else n;
        if lo <= v <= hi then Some(v) else None
  }

  function ParseLong(s: string): Option<int> {
    ParseInteger(s, LongMin, LongMax)
  }

  function ParseInt(s: string): Option<int> {
    ParseInteger(s, IntMin, IntMax)
  }

  /** Printing a long and parsing it back gives the same number. */
  lemma ParseLongOfIntToString(n: int)
    requires LongMin <= n <= LongMax
    ensures ParseLong(IntToString(n)) == Some(n)
  {
    var m := if n < 0 then -n else n;
    NatToStringDigits(m);
    if n < 0 {
      assert IntToString(n)[1..] == NatToString(m);
    }
  }

  // ---------------------------------------------------------------------------------------
  // Java arithmetic
  // ---------------------------------------------------------------------------------------

  function Abs(x: int): (r: nat)
    ensures r == x || r == -x
  {
    if x < 0 then -x else x
  }

  function Max(a: int, b: int): (r: int)
    ensures r >= a && r >= b && (r == a || r == b)
  {
    if a < b then b else a
  }

  /** The `(long)` cast of a floating-point value: rounds toward zero. */
  function Trunc(x: real): (r: int)
    ensures x >= 0.0 ==> r as real <= x < r as real + 1.0
    ensures x < 0.0 ==> r as real - 1.0 < x <= r as real
  {
    if x >= 0.0 then x.Floor else -((-x).Floor)
  }

  /** The `(int)` cast of a long: keeps the low 32 bits, read as a two's-complement number. */
  function ToInt32(x: int): (r: int)
    ensures IntMin <= r <= IntMax
    ensures (r - x) % 0x1_0000_0000 == 0
    ensures IntMin <= x <= IntMax ==> r == x
  {
    var low := x % 0x1_0000_0000;
    assert 0 <= x <= IntMax ==> low == x by {
      if 0 <= x <= IntMax {
        assert x == 0 * 0x1_0000_0000 + x;
      }
    }
    assert IntMin <= x < 0 ==> low == x + 0x1_0000_0000 by {
      if IntMin <= x < 0 {
        assert x == -1 * 0x1_0000_0000 + (x + 0x1_0000_0000);
      }
    }
    if low > IntMax then low - 0x1_0000_0000 else low
  }

  /** Java's `/` on integers, which rounds toward zero (Dafny's `/` is Euclidean: its remainder is never negative). */
  function JavaDiv(a: int, b: int): (q: int)
    requires b != 0
    ensures a >= 0 && b > 0 ==> q * b <= a < (q + 1) * b
  {
    if (a >= 0) == (b > 0) then Abs(a) / Abs(b) else -(Abs(a) / Abs(b))
  }
}
