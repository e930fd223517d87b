/**
 * The engine's content filter: an item is shown when its type is switched on and its text,
 * lower-cased, contains none of the non-empty lower-cased keywords.
 */
module Filtering {
  import opened Text
  import opened Configs
  import opened Tracks

  predicate IsTypeAllowed(item: Item, enabled: TypeEnabled) {
    match item.itemType
    case Top => enabled.top
    case Bottom => enabled.bottom
    case Positioned => enabled.positioned
    case Scroll => enabled.scroll
  }

  /** Whether any non-empty keyword occurs in `text`, ignoring ASCII case. */
  function MatchesKeyword(text: string, keywords: seq<string>): (r: bool)
    ensures r <==> exists i :: 0 <= i < |keywords| && keywords[i] != "" && Contains(Lower(text), Lower(keywords[i]))
  {
    if keywords == [] then false
    else if keywords[0] != "" && Contains(Lower(text), Lower(keywords[0])) then true
    else
      var r := MatchesKeyword(text, keywords[1..]);
      assert forall i :: 1 <= i < |keywords| ==> keywords[i] == keywords[1..][i - 1];
      r
  }

  predicate Kept(item: Item, config: Config) {
    IsTypeAllowed(item, config.typeEnabled) && !MatchesKeyword(item.text, config.keywordFilter)
  }

  /** The items the filter keeps, in their original order. */
  function Filtered(items: seq<Item>, config: Config): (r: seq<Item>)
    ensures |r| <= |items|
  {
    if items == [] then []
    else Filtered(items[..|items| - 1], config) + (if Kept(items[|items| - 1], config) then [items[|items| - 1]] else [])
  }

  /** `applyFilters`: one pass over the items, appending those the filter keeps. */
  method ApplyFilters(items: seq<Item>, config: Config) returns (filtered: seq<Item>)
    ensures filtered == Filtered(items, config)
  {
    filtered := [];
    var i := 0;
    while i < |items|
      invariant 0 <= i <= |items|
      invariant filtered == Filtered(items[..i], config)
    {
      assert items[..i + 1][..i] == items[..i];
      if Kept(items[i], config) {
        filtered := filtered + [items[i]];
      }
      i := i + 1;
    }
    assert items[..|items|] == items;
  }

  /** Filtering distributes over concatenation, so the relative order of kept items is preserved. */
  lemma {:induction false} FilteredAppend(a: seq<Item>, b: seq<Item>, config: Config)
    ensures Filtered(a + b, config) == Filtered(a, config) + Filtered(b, config)
    decreases |b|
  {
    if b == [] {
      assert a + b == a;
    } else {
      var b' := b[..|b| - 1];
      assert (a + b)[..|a + b| - 1] == a + b';
      FilteredAppend(a, b', config);
    }
  }

  /** An item survives the filter exactly when it is in the input and the filter keeps it. */
  lemma {:induction false} FilteredMembership(items: seq<Item>, config: Config, x: Item)
    ensures x in Filtered(items, config) <==> x in items && Kept(x, config)
  {
    if items != [] {
      var init := items[..|items| - 1];
      FilteredMembership(init, config, x);
      assert items == init + [items[|items| - 1]];
    }
  }

  /** With every type enabled and no keyword, nothing is suppressed. */
  lemma {:induction false} FilterAllowsAll(items: seq<Item>, config: Config)
    requires config.keywordFilter == [] && config.typeEnabled == AllEnabled()
    ensures Filtered(items, config) == items
  {
    if items != [] {
      var last := items[|items| - 1];
      FilterAllowsAll(items[..|items| - 1], config);
      assert Kept(last, config) by {
        assert !MatchesKeyword(last.text, []);
        assert IsTypeAllowed(last, AllEnabled());
      }
      assert items == items[..|items| - 1] + [last];
    }
  }
}
