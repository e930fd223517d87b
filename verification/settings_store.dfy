/**
 * The global danmaku settings: a typed key/value store, the defaults written into it, the
 * config built from it, and the comma-separated keyword list kept in one of its entries.
 */
module Settings {
  import opened Wrappers
  import opened Text
  import opened Configs

  // ---------------------------------------------------------------------------------------
  // Keyword lists
  // ---------------------------------------------------------------------------------------

  /** The trimmed parts that are not empty, in order. */
  function KeptParts(parts: seq<string>): (ks: seq<string>)
    ensures |ks| <= |parts|
  {
    if parts == [] then []
    else
      var v := Trim(parts[0]);
      (if v == "" then [] else [v]) + KeptParts(parts[1..])
  }

  /** The keywords of a stored list: none for blank text, else the non-blank comma-separated parts. */
  function KeywordsOf(raw: string): seq<string> {
    if Trim(raw) == "" then [] else KeptParts(JavaSplit(raw, ','))
  }

  lemma {:induction false} KeptPartsAppend(a: seq<string>, b: seq<string>)
    ensures KeptParts(a + b) == KeptParts(a) + KeptParts(b)
  {
    if a != [] {
      assert (a + b)[1..] == a[1..] + b;
      KeptPartsAppend(a[1..], b);
    } else {
      assert a + b == b;
    }
  }

  lemma KeptPartsSnoc(parts: seq<string>, i: nat)
    requires i < |parts|
    ensures KeptParts(parts[..i + 1]) == KeptParts(parts[..i]) + (if Trim(parts[i]) == "" then [] else [Trim(parts[i])])
  {
    KeptPartsAppend(parts[..i], [parts[i]]);
    assert parts[..i + 1] == parts[..i] + [parts[i]];
  }

  /** `parseKeywords`: a missing or blank value gives no keywords. */
  method ParseKeywords(raw: Option<string>) returns (list: seq<string>)
    ensures list == if raw.None? then [] else KeywordsOf(raw.value)
  {
    if raw.None? || Trim(raw.value) == "" {
      return [];
    }
    var parts := JavaSplit(raw.value, ',');
    list := [];
    var i := 0;
    while i < |parts|
      invariant 0 <= i <= |parts|
      invariant list == KeptParts(parts[..i])
    {
      KeptPartsSnoc(parts, i);
      var value := Trim(parts[i]);
      if value != "" {
        list := list + [value];
      }
      i := i + 1;
    }
    assert parts[..|parts|] == parts;
  }

  /** A keyword as `parseKeywords` produces them: non-empty, trimmed, without a comma. */
  predicate IsKeyword(k: string) {
    k != "" && IsTrimmed(k) && ',' !in k
  }

  lemma {:induction false} KeptPartsAreKeywords(parts: seq<string>)
    requires forall i :: 0 <= i < |parts| ==> ',' !in parts[i]
    ensures forall i :: 0 <= i < |KeptParts(parts)| ==> IsKeyword(KeptParts(parts)[i])
  {
    if parts != [] {
      TrimIsTrimmed(parts[0]);
      KeptPartsAreKeywords(parts[1..]);
    }
  }

  /** Every parsed keyword is non-empty, trimmed and free of commas. */
  lemma KeywordsAreKeywords(raw: string)
    ensures forall i :: 0 <= i < |KeywordsOf(raw)| ==> IsKeyword(KeywordsOf(raw)[i])
  {
    SplitExcludesDelimiter(raw, ',');
    KeptPartsAreKeywords(JavaSplit(raw, ','));
  }

  lemma {:induction false} JoinAppend(xs: seq<string>, x: string, sep: string)
    requires xs != []
    ensures Join(xs + [x], sep) == Join(xs, sep) + sep + x
  {
    if |xs| == 1 {
      assert (xs + [x])[1..] == [x];
    } else {
      assert (xs + [x])[1..] == xs[1..] + [x];
      JoinAppend(xs[1..], x, sep);
    }
  }

  /** `formatKeywords`: the keywords separated by a comma and a space. */
  method FormatKeywords(keywords: seq<string>) returns (s: string)
    ensures s == Join(keywords, ", ")
  {
    if keywords == [] {
      return "";
    }
    s := "";
    var i := 0;
    while i < |keywords|
      invariant 0 <= i <= |keywords|
      invariant i == 0 ==> s == ""
      invariant i > 0 ==> s == Join(keywords[..i], ", ")
    {
      if i > 0 {
        s := s + ", ";
        JoinAppend(keywords[..i], keywords[i], ", ");
        assert keywords[..i + 1] == keywords[..i] + [keywords[i]];
      } else {
        assert keywords[..1] == [keywords[0]];
      }
      s := s + keywords[i];
      i := i + 1;
    }
    assert keywords[..|keywords|] == keywords;
  }

  lemma {:induction false} KeptPadded(ks: seq<string>)
    requires forall i :: 0 <= i < |ks| ==> IsKeyword(ks[i])
    ensures KeptParts(Padded(" ", ks)) == ks
  {
    if ks != [] {
      TrimOfSpaced(ks[0]);
      KeptPadded(ks[1..]);
    }
  }

  /** Splitting a formatted list of two or more keywords gives each but the first behind a space. */
  lemma SplitOfFormatted(ks: seq<string>)
    requires |ks| > 1
    requires forall i :: 0 <= i < |ks| ==> IsKeyword(ks[i])
    ensures Trim(Join(ks, ", ")) != ""
    ensures JavaSplit(Join(ks, ", "), ',') == [ks[0]] + Padded(" ", ks[1..])
  {
    var raw := Join(ks, ", ");
    assert raw == ks[0] + ", " + Join(ks[1..], ", ");
    assert raw[0] == ks[0][0];
    TrimKeepsFirst(raw);
    assert raw[|ks[0]|] == ',';
    assert ", " == [','] + " ";
    FieldsOfJoin(ks, ',', " ");
    var fields := [ks[0]] + Padded(" ", ks[1..]);
    PaddedLast(" ", ks[1..]);
    assert fields[|fields| - 1] == " " + ks[|ks| - 1];
    KeepsNonEmptyLast(fields);
  }

  /** Parsing a formatted list of keywords gives the list back. */
  lemma FormatThenParse(ks: seq<string>)
    requires forall i :: 0 <= i < |ks| ==> IsKeyword(ks[i])
    ensures KeywordsOf(Join(ks, ", ")) == ks
  {
    if |ks| == 1 {
      assert Join(ks, ", ") == ks[0];
      TrimOfTrimmed(ks[0]);
      assert JavaSplit(ks[0], ',') == [ks[0]];
      assert KeptParts([ks[0]]) == [ks[0]] + KeptParts([]);
    } else if |ks| > 1 {
      SplitOfFormatted(ks);
      var fields := [ks[0]] + Padded(" ", ks[1..]);
      assert KeywordsOf(Join(ks, ", ")) == KeptParts(fields);
      KeptOfFormattedFields(ks);
    }
  }

  lemma KeptOfFormattedFields(ks: seq<string>)
    requires |ks| > 1
    requires forall i :: 0 <= i < |ks| ==> IsKeyword(ks[i])
    ensures KeptParts([ks[0]] + Padded(" ", ks[1..])) == ks
  {
    TrimOfTrimmed(ks[0]);
    KeptPadded(ks[1..]);
    var fields := [ks[0]] + Padded(" ", ks[1..]);
    assert fields[0] == ks[0];
    assert fields[1..] == Padded(" ", ks[1..]);
    assert KeptParts(fields) == [ks[0]] + ks[1..];
  }

  lemma {:induction false} PaddedLast(pad: string, xs: seq<string>)
    requires xs != []
    ensures Padded(pad, xs)[|xs| - 1] == pad + xs[|xs| - 1]
  {
    if |xs| > 1 {
      PaddedLast(pad, xs[1..]);
    }
  }

  /** Formatting a parsed list and parsing it again changes nothing. */
  lemma ParseIsStable(raw: string)
    ensures KeywordsOf(Join(KeywordsOf(raw), ", ")) == KeywordsOf(raw)
  {
    KeywordsAreKeywords(raw);
    FormatThenParse(KeywordsOf(raw));
  }

  // ---------------------------------------------------------------------------------------
  // The typed store
  // ---------------------------------------------------------------------------------------

  datatype PrefValue = IntValue(i: int) | BoolValue(b: bool) | StringValue(s: string)

  /** The eleven settings; `Name` gives the preference key each is stored under. */
  datatype SettingKey =
    | KeyEnabled | KeyTextScale | KeySpeed | KeyAlpha | KeyMaxOnScreen | KeyKeywords
    | KeyTypeScroll | KeyTypeTop | KeyTypeBottom | KeyTypePositioned | KeyOffset
  {
    function Name(): string {
      match this
      case KeyEnabled => "danmaku_enabled"
      case KeyTextScale => "danmaku_text_scale"
      case KeySpeed => "danmaku_speed"
      case KeyAlpha => "danmaku_alpha"
      case KeyMaxOnScreen => "danmaku_max_on_screen"
      case KeyKeywords => "danmaku_keyword_filter"
      case KeyTypeScroll => "danmaku_type_scroll"
      case KeyTypeTop => "danmaku_type_top"
      case KeyTypeBottom => "danmaku_type_bottom"
      case KeyTypePositioned => "danmaku_type_positioned"
      case KeyOffset => "danmaku_offset"
    }
  }

  const DefaultTextScale: int := 100
  const DefaultSpeed: int := 100
  const DefaultAlpha: int := 100
  const DefaultMaxOnScreen: int := 0
  const DefaultOffset: int := 0

  /** The value `ensureDefaults` writes for each of its keys. */
  function DefaultSettings(): map<SettingKey, PrefValue> {
    map[KeyEnabled := BoolValue(true),
        KeyTextScale := IntValue(DefaultTextScale),
        KeySpeed := IntValue(DefaultSpeed),
        KeyAlpha := IntValue(DefaultAlpha),
        KeyMaxOnScreen := IntValue(DefaultMaxOnScreen),
        KeyKeywords := StringValue(""),
        KeyTypeScroll := BoolValue(true),
        KeyTypeTop := BoolValue(true),
        KeyTypeBottom := BoolValue(true),
        KeyTypePositioned := BoolValue(true),
        KeyOffset := IntValue(DefaultOffset)]
  }

  /** The store with every missing default key added. */
  function WithDefaults(m: map<SettingKey, PrefValue>): map<SettingKey, PrefValue> {
    DefaultSettings() + m
  }

  function WithKey(m: map<SettingKey, PrefValue>, key: SettingKey, value: PrefValue): map<SettingKey, PrefValue> {
    m[key := if key in m then m[key] else value]
  }

  /** The eleven conditional writes of `ensureDefaults`, in source order. */
  function DefaultWrites(m: map<SettingKey, PrefValue>): map<SettingKey, PrefValue> {
    var m1 := WithKey(m, KeyEnabled, BoolValue(true));
    var m2 := WithKey(m1, KeyTextScale, IntValue(DefaultTextScale));
    var m3 := WithKey(m2, KeySpeed, IntValue(DefaultSpeed));
    var m4 := WithKey(m3, KeyAlpha, IntValue(DefaultAlpha));
    var m5 := WithKey(m4, KeyMaxOnScreen, IntValue(DefaultMaxOnScreen));
    var m6 := WithKey(m5, KeyKeywords, StringValue(""));
    var m7 := WithKey(m6, KeyTypeScroll, BoolValue(true));
    var m8 := WithKey(m7, KeyTypeTop, BoolValue(true));
    var m9 := WithKey(m8, KeyTypeBottom, BoolValue(true));
    var m10 := WithKey(m9, KeyTypePositioned, BoolValue(true));
    WithKey(m10, KeyOffset, IntValue(DefaultOffset))
  }

  /** The writes in sequence amount to adding every missing default at once. */
  lemma DefaultWritesAddMissing(m: map<SettingKey, PrefValue>)
    ensures DefaultWrites(m) == WithDefaults(m)
  {
    var c := DefaultWrites(m);
    var w := WithDefaults(m);
    forall k ensures k in c && k in w && c[k] == w[k] {
      DefaultWriteMatches(m, k);
    }
    assert c.Keys == w.Keys;
  }

  /** The default of each key, one key at a time. */
  function DefaultOf(k: SettingKey): PrefValue {
    match k
    case KeyEnabled => BoolValue(true)
    case KeyTextScale => IntValue(DefaultTextScale)
    case KeySpeed => IntValue(DefaultSpeed)
    case KeyAlpha => IntValue(DefaultAlpha)
    case KeyMaxOnScreen => IntValue(DefaultMaxOnScreen)
    case KeyKeywords => StringValue("")
    case KeyTypeScroll => BoolValue(true)
    case KeyTypeTop => BoolValue(true)
    case KeyTypeBottom => BoolValue(true)
    case KeyTypePositioned => BoolValue(true)
    case KeyOffset => IntValue(DefaultOffset)
  }

  lemma DefaultSettingOf(k: SettingKey)
    ensures k in DefaultSettings() && DefaultSettings()[k] == DefaultOf(k)
  {
    match k
    case KeyEnabled =>
    case KeyTextScale =>
    case KeySpeed =>
    case KeyAlpha =>
    case KeyMaxOnScreen =>
    case KeyKeywords =>
    case KeyTypeScroll =>
    case KeyTypeTop =>
    case KeyTypeBottom =>
    case KeyTypePositioned =>
    case KeyOffset =>
  }

  lemma DefaultWriteMatches(m: map<SettingKey, PrefValue>, k: SettingKey)
    ensures k in DefaultWrites(m) && k in WithDefaults(m) && DefaultWrites(m)[k] == WithDefaults(m)[k]
  {
    DefaultWriteOf(m, k);
    DefaultSettingOf(k);
  }

  lemma DefaultWriteOf(m: map<SettingKey, PrefValue>, k: SettingKey)
    ensures k in DefaultWrites(m)
    ensures DefaultWrites(m)[k] == if k in m then m[k] else DefaultOf(k)
  {
    if k.KeyEnabled? || k.KeyTextScale? || k.KeySpeed? || k.KeyAlpha? || k.KeyMaxOnScreen? {
      DisplayWriteOf(m, k);
    } else if k.KeyKeywords? || k.KeyTypeScroll? {
      FilterWriteOf(m, k);
    } else if k.KeyTypeTop? || k.KeyTypeBottom? {
      TypeWriteOf(m, k);
    } else {
      LastWriteOf(m, k);
    }
  }

  lemma DisplayWriteOf(m: map<SettingKey, PrefValue>, k: SettingKey)
    requires k.KeyEnabled? || k.KeyTextScale? || k.KeySpeed? || k.KeyAlpha? || k.KeyMaxOnScreen?
    ensures k in DefaultWrites(m)
    ensures DefaultWrites(m)[k] == if k in m then m[k] else DefaultOf(k)
  {
    match k
    case KeyEnabled =>
    case KeyTextScale =>
    case KeySpeed =>
    case KeyAlpha =>
    case KeyMaxOnScreen =>
  }

  lemma FilterWriteOf(m: map<SettingKey, PrefValue>, k: SettingKey)
    requires k.KeyKeywords? || k.KeyTypeScroll?
    ensures k in DefaultWrites(m)
    ensures DefaultWrites(m)[k] == if k in m then m[k] else DefaultOf(k)
  {
    match k
    case KeyKeywords =>
    case KeyTypeScroll =>
  }

  lemma TypeWriteOf(m: map<SettingKey, PrefValue>, k: SettingKey)
    requires k.KeyTypeTop? || k.KeyTypeBottom?
    ensures k in DefaultWrites(m)
    ensures DefaultWrites(m)[k] == if k in m then m[k] else DefaultOf(k)
  {
    match k
    case KeyTypeTop =>
    case KeyTypeBottom =>
  }

  lemma LastWriteOf(m: map<SettingKey, PrefValue>, k: SettingKey)
    requires k.KeyTypePositioned? || k.KeyOffset?
    ensures k in DefaultWrites(m)
    ensures DefaultWrites(m)[k] == if k in m then m[k] else DefaultOf(k)
  {
    match k
    case KeyTypePositioned =>
    case KeyOffset =>
  }

  /** The settings store as a mutable key/value map. */
  class SettingsPrefs {
    var values: map<SettingKey, PrefValue>

    constructor (values: map<SettingKey, PrefValue>)
      ensures this.values == values
    {
      this.values := values;
    }

    method PutIfMissing(key: SettingKey, value: PrefValue)
      modifies this
      ensures values == WithKey(old(values), key, value)
    {
      if key !in values {
        values := values[key := value];
      }
    }
  }

  /** `ensureDefaults`: writes the default of every key that is not already present. */
  method EnsureDefaults(prefs: SettingsPrefs)
    modifies prefs
    ensures prefs.values == WithDefaults(old(prefs.values))
  {
    ghost var m := prefs.values;
    prefs.PutIfMissing(KeyEnabled, BoolValue(true));
    prefs.PutIfMissing(KeyTextScale, IntValue(DefaultTextScale));
    prefs.PutIfMissing(KeySpeed, IntValue(DefaultSpeed));
    prefs.PutIfMissing(KeyAlpha, IntValue(DefaultAlpha));
    prefs.PutIfMissing(KeyMaxOnScreen, IntValue(DefaultMaxOnScreen));
    prefs.PutIfMissing(KeyKeywords, StringValue(""));
    prefs.PutIfMissing(KeyTypeScroll, BoolValue(true));
    prefs.PutIfMissing(KeyTypeTop, BoolValue(true));
    prefs.PutIfMissing(KeyTypeBottom, BoolValue(true));
    prefs.PutIfMissing(KeyTypePositioned, BoolValue(true));
    prefs.PutIfMissing(KeyOffset, IntValue(DefaultOffset));
    DefaultWritesAddMissing(m);
  }

  /**
   * Adding defaults never changes a present value, adds exactly the missing default keys, and
   * a second pass changes nothing.
   */
  lemma WithDefaultsKeepsValues(m: map<SettingKey, PrefValue>, k: SettingKey)
    ensures k in m ==> k in WithDefaults(m) && WithDefaults(m)[k] == m[k]
    ensures k in WithDefaults(m) <==> k in m || k in DefaultSettings()
    ensures k !in m && k in DefaultSettings() ==> WithDefaults(m)[k] == DefaultSettings()[k]
    ensures WithDefaults(WithDefaults(m)) == WithDefaults(m)
  {
  }

  // ---------------------------------------------------------------------------------------
  // Building a config
  // ---------------------------------------------------------------------------------------

  /** A typed read: the default when absent, nothing (a ClassCastException) for a value of another type. */
  function GetInt(m: map<SettingKey, PrefValue>, key: SettingKey, default: int): Option<int> {
    if key !in m then Some(default) else if m[key].IntValue? then Some(m[key].i) else None
  }

  function GetBool(m: map<SettingKey, PrefValue>, key: SettingKey, default: bool): Option<bool> {
    if key !in m then Some(default) else if m[key].BoolValue? then Some(m[key].b) else None
  }

  function GetString(m: map<SettingKey, PrefValue>, key: SettingKey, default: string): Option<string> {
    if key !in m then Some(default) else if m[key].StringValue? then Some(m[key].s) else None
  }

  /**
   * `buildConfig`: percentages become factors, the line limit is always 0, the type switches
   * default to on; a value stored with the wrong type makes the read throw (`None` here),
   * since `SharedPreferences` raises `ClassCastException` and nothing catches it.
   */
  function BuildConfig(m: map<SettingKey, PrefValue>): (r: Option<Config>)
    ensures r.None? <==> GetInt(m, KeyTextScale, DefaultTextScale).None? || GetInt(m, KeySpeed, DefaultSpeed).None?
                         || GetInt(m, KeyAlpha, DefaultAlpha).None? || GetInt(m, KeyMaxOnScreen, DefaultMaxOnScreen).None?
                         || GetInt(m, KeyOffset, DefaultOffset).None? || GetString(m, KeyKeywords, "").None?
                         || GetBool(m, KeyTypeScroll, true).None? || GetBool(m, KeyTypeTop, true).None?
                         || GetBool(m, KeyTypeBottom, true).None? || GetBool(m, KeyTypePositioned, true).None?
    ensures r.Some? ==> r.value.maxLines == 0
    ensures r.Some? ==> r.value.textScaleSp == GetInt(m, KeyTextScale, DefaultTextScale).value as real / 100.0
                        && r.value.scrollSpeedFactor == GetInt(m, KeySpeed, DefaultSpeed).value as real / 100.0
                        && r.value.alpha == GetInt(m, KeyAlpha, DefaultAlpha).value as real / 100.0
    ensures r.Some? ==> r.value.maxOnScreen == GetInt(m, KeyMaxOnScreen, DefaultMaxOnScreen).value
                        && r.value.offsetMs == GetInt(m, KeyOffset, DefaultOffset).value
    ensures r.Some? ==> r.value.keywordFilter == KeywordsOf(GetString(m, KeyKeywords, "").value)
    ensures r.Some? ==> r.value.typeEnabled == TypeEnabled(GetBool(m, KeyTypeScroll, true).value, GetBool(m, KeyTypeTop, true).value,
                                                           GetBool(m, KeyTypeBottom, true).value, GetBool(m, KeyTypePositioned, true).value)
    ensures r.Some? ==> forall i :: 0 <= i < |r.value.keywordFilter| ==> IsKeyword(r.value.keywordFilter[i])
  {
    var textScale := GetInt(m, KeyTextScale, DefaultTextScale);
    var speed := GetInt(m, KeySpeed, DefaultSpeed);
    var alpha := GetInt(m, KeyAlpha, DefaultAlpha);
    var maxOnScreen := GetInt(m, KeyMaxOnScreen, DefaultMaxOnScreen);
    var offset := GetInt(m, KeyOffset, DefaultOffset);
    var keywords := GetString(m, KeyKeywords, "");
    var scroll := GetBool(m, KeyTypeScroll, true);
    var top := GetBool(m, KeyTypeTop, true);
    var bottom := GetBool(m, KeyTypeBottom, true);
    var positioned := GetBool(m, KeyTypePositioned, true);
    if textScale.None? || speed.None? || alpha.None? || maxOnScreen.None? || offset.None? || keywords.None?
       || scroll.None? || top.None? || bottom.None? || positioned.None?
    then None
    else
      KeywordsAreKeywords(keywords.value);
      Some(NewConfig(textScale.value as real / 100.0, speed.value as real / 100.0, alpha.value as real / 100.0,
                     maxOnScreen.value, 0, Some(KeywordsOf(keywords.value)),
                     Some(TypeEnabled(scroll.value, top.value, bottom.value, positioned.value)), offset.value))
  }

  /**
   * A setting stored with the wrong type makes its read throw, so no config is built; an absent
   * setting reads as its default instead.
   */
  lemma WrongTypeGivesNoConfig(m: map<SettingKey, PrefValue>, text: string)
    requires KeyTypeTop in m && m[KeyTypeTop] == StringValue(text)
    ensures BuildConfig(m).None?
    ensures BuildConfig(m - {KeyTypeTop}).Some? ==> BuildConfig(m - {KeyTypeTop}).value.typeEnabled.top
  {
  }

  /** An empty store builds the library's default config. */
  lemma EmptyStoreBuildsDefaults()
    ensures BuildConfig(map[]) == Some(Defaults())
  {
  }

  /** Writing the defaults never changes the config a store builds. */
  lemma EnsureDefaultsKeepsConfig(m: map<SettingKey, PrefValue>)
    ensures BuildConfig(WithDefaults(m)) == BuildConfig(m)
  {
    assert DefaultOf(KeyTextScale) == IntValue(DefaultTextScale) && DefaultOf(KeySpeed) == IntValue(DefaultSpeed)
        && DefaultOf(KeyAlpha) == IntValue(DefaultAlpha) && DefaultOf(KeyMaxOnScreen) == IntValue(DefaultMaxOnScreen)
        && DefaultOf(KeyOffset) == IntValue(DefaultOffset) && DefaultOf(KeyKeywords) == StringValue("")
        && DefaultOf(KeyTypeScroll) == BoolValue(true) && DefaultOf(KeyTypeTop) == BoolValue(true)
        && DefaultOf(KeyTypeBottom) == BoolValue(true) && DefaultOf(KeyTypePositioned) == BoolValue(true);
    GetIntWithDefaults(m, KeyTextScale, DefaultTextScale);
    GetIntWithDefaults(m, KeySpeed, DefaultSpeed);
    GetIntWithDefaults(m, KeyAlpha, DefaultAlpha);
    GetIntWithDefaults(m, KeyMaxOnScreen, DefaultMaxOnScreen);
    GetIntWithDefaults(m, KeyOffset, DefaultOffset);
    GetStringWithDefaults(m, KeyKeywords, "");
    GetBoolWithDefaults(m, KeyTypeScroll, true);
    GetBoolWithDefaults(m, KeyTypeTop, true);
    GetBoolWithDefaults(m, KeyTypeBottom, true);
    GetBoolWithDefaults(m, KeyTypePositioned, true);
    SameReadsSameConfig(WithDefaults(m), m);
  }

  /** Two stores that read the same for every setting build the same config. */
  lemma SameReadsSameConfig(a: map<SettingKey, PrefValue>, b: map<SettingKey, PrefValue>)
    requires GetInt(a, KeyTextScale, DefaultTextScale) == GetInt(b, KeyTextScale, DefaultTextScale)
    requires GetInt(a, KeySpeed, DefaultSpeed) == GetInt(b, KeySpeed, DefaultSpeed)
    requires GetInt(a, KeyAlpha, DefaultAlpha) == GetInt(b, KeyAlpha, DefaultAlpha)
    requires GetInt(a, KeyMaxOnScreen, DefaultMaxOnScreen) == GetInt(b, KeyMaxOnScreen, DefaultMaxOnScreen)
    requires GetInt(a, KeyOffset, DefaultOffset) == GetInt(b, KeyOffset, DefaultOffset)
    requires GetString(a, KeyKeywords, "") == GetString(b, KeyKeywords, "")
    requires GetBool(a, KeyTypeScroll, true) == GetBool(b, KeyTypeScroll, true)
    requires GetBool(a, KeyTypeTop, true) == GetBool(b, KeyTypeTop, true)
    requires GetBool(a, KeyTypeBottom, true) == GetBool(b, KeyTypeBottom, true)
    requires GetBool(a, KeyTypePositioned, true) == GetBool(b, KeyTypePositioned, true)
    ensures BuildConfig(a) == BuildConfig(b)
  {
  }

  /** A key of the store with defaults holds the stored value, or else the key's default. */
  lemma WithDefaultsLookup(m: map<SettingKey, PrefValue>, k: SettingKey)
    ensures k in WithDefaults(m)
    ensures WithDefaults(m)[k] == if k in m then m[k] else DefaultOf(k)
  {
    DefaultSettingOf(k);
  }

  lemma GetIntWithDefaults(m: map<SettingKey, PrefValue>, k: SettingKey, default: int)
    requires DefaultOf(k) == IntValue(default)
    ensures GetInt(WithDefaults(m), k, default) == GetInt(m, k, default)
  {
    WithDefaultsLookup(m, k);
  }

  lemma GetBoolWithDefaults(m: map<SettingKey, PrefValue>, k: SettingKey, default: bool)
    requires DefaultOf(k) == BoolValue(default)
    ensures GetBool(WithDefaults(m), k, default) == GetBool(m, k, default)
  {
    WithDefaultsLookup(m, k);
  }

  lemma GetStringWithDefaults(m: map<SettingKey, PrefValue>, k: SettingKey, default: string)
    requires DefaultOf(k) == StringValue(default)
    ensures GetString(WithDefaults(m), k, default) == GetString(m, k, default)
  {
    WithDefaultsLookup(m, k);
  }
}
