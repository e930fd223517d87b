/**
 * The identity of a media file: its path, size and modification time, and the
 * `path|size|mtime` text form used as a key in the preference store and the track cache.
 */
module MediaKeys {
  import opened Wrappers
  import opened Text

  /** Sizes and times are Java longs. */
  predicate IsLong(n: int) {
    LongMin <= n <= LongMax
  }

  datatype MediaKey = MediaKey(path: string, size: int, mtime: int) {

    predicate Valid() {
      IsLong(size) && IsLong(mtime)
    }
  }

  /** Why `deserialize` rejects its input (each is an IllegalArgumentException in the source). */
  datatype KeyError = EmptyKey | WrongFieldCount | BadNumber

  /** `path|size|mtime`, the numbers in decimal. */
  function Serialize(k: MediaKey): string {
    k.path + "|" + IntToString(k.size) + "|" + IntToString(k.mtime)
  }

  /**
   * Parses the text form: an empty string, a split on `|` that does not give exactly three
   * fields, or a field that is not a long are rejected.
   */
  function Deserialize(raw: string): (r: Result<MediaKey, KeyError>)
    ensures raw == [] ==> r == Failure(EmptyKey)
    ensures r.Success? ==> r.value.Valid() && '|' !in r.value.path
    ensures r.Success? ==> StartsWith(raw, r.value.path + "|")
  {
    if raw == [] then Failure(EmptyKey)
    else
      var parts := JavaSplit(raw, '|');
      if |parts| != 3 then Failure(WrongFieldCount)
      else
        match (ParseLong(parts[1]), ParseLong(parts[2]))
        case (Some(size), Some(mtime)) =>
          SplitHead(raw, '|');
          Success(MediaKey(parts[0], size, mtime))
        case _ => Failure(BadNumber)
  }

  /** When a split gives more than one field, the first is a delimiter-free prefix. */
  lemma SplitHead(s: string, d: char)
    requires |JavaSplit(s, d)| >= 2
    ensures d !in JavaSplit(s, d)[0] && StartsWith(s, JavaSplit(s, d)[0] + [d])
  {
    assert d in s;
    var i := IndexOf(s, d);
    var head := JavaSplit(s, d)[0];
    assert head == s[..i] by { FirstFieldOfSplit(s, d); }
    assert s[..i + 1] == head + [d];
  }

  /** A key whose path has no `|` survives the trip through its text form. */
  lemma DeserializeSerialize(k: MediaKey)
    requires k.Valid() && '|' !in k.path
    ensures Deserialize(Serialize(k)) == Success(k)
  {
    var s := IntToString(k.size);
    var m := IntToString(k.mtime);
    IntToStringShape(k.size);
    IntToStringShape(k.mtime);
    var xs := [k.path, s, m];
    assert Join(xs, "|") == Serialize(k) by {
      assert xs[1..][1..] == [m];
      assert Join(xs[1..], "|") == s + "|" + m;
    }
    SplitOfJoin(xs, '|');
    ParseLongOfIntToString(k.size);
    ParseLongOfIntToString(k.mtime);
  }

  /**
   * Distinct keys have distinct text forms, whatever their paths contain: the last two fields
   * never contain `|`, so the text splits uniquely from the right.
   */
  lemma SerializeInjective(a: MediaKey, b: MediaKey)
    requires a.Valid() && b.Valid()
    requires Serialize(a) == Serialize(b)
    ensures a == b
  {
    IntToStringShape(a.size);
    IntToStringShape(a.mtime);
    IntToStringShape(b.size);
    IntToStringShape(b.mtime);
    SplitAtLast(a.path + "|" + IntToString(a.size), IntToString(a.mtime),
                b.path + "|" + IntToString(b.size), IntToString(b.mtime), '|');
    SplitAtLast(a.path, IntToString(a.size), b.path, IntToString(b.size), '|');
    IntToStringInjective(a.size, b.size);
    IntToStringInjective(a.mtime, b.mtime);
  }
}
