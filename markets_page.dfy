/** The markets page (app/src/pages/MarketsPage.tsx): only active markets are
    listed, a category tab narrows them by case-insensitive category, the
    tabs are `all` followed by every distinct lower-cased category of the
    whole list, and the bet dialog gets the user's balance or 0. */
module MarketsPage {
  import opened Types
  import opened Seqs
  import opened JsText

  predicate IsActiveMarket(m: Market) { m.status == Active }

  /** `activeMarketsOnly`. */
  function ActiveMarketsOnly(markets: seq<Market>): seq<Market> {
    Filter(markets, IsActiveMarket)
  }

  /** The active list holds exactly the active markets, and filtering it
      again changes nothing. */
  lemma ActiveMarketsOnlyMeaning(markets: seq<Market>)
    ensures forall m :: m in ActiveMarketsOnly(markets) <==> m in markets && m.status == Active
    ensures ActiveMarketsOnly(ActiveMarketsOnly(markets)) == ActiveMarketsOnly(markets)
  {
    FilterFilter(markets, IsActiveMarket, IsActiveMarket, IsActiveMarket);
  }

  /** `m.category.toLowerCase() === activeTab.toLowerCase()`. */
  predicate InTab(tab: string, m: Market) {
    ToLower(m.category) == ToLower(tab)
  }

  /** The tab's test as a value, for `filter`. */
  function TabTest(tab: string): Market -> bool {
    (m: Market) => InTab(tab, m)
  }

  /** `filteredMarkets`. */
  function FilteredMarkets(markets: seq<Market>, tab: string): seq<Market> {
    if tab == "all" then ActiveMarketsOnly(markets)
    else Filter(ActiveMarketsOnly(markets), TabTest(tab))
  }

  /** The active markets of the tab's category, in one pass. */
  function ActiveInTab(tab: string): Market -> bool {
    (m: Market) => IsActiveMarket(m) && InTab(tab, m)
  }

  /** Tab `all` shows every active market; any other tab shows, in list
      order, the active markets whose category matches it ignoring case,
      which is never more than the active list. */
  lemma FilteredMarketsMeaning(markets: seq<Market>, tab: string)
    ensures tab == "all" ==> FilteredMarkets(markets, tab) == ActiveMarketsOnly(markets)
    ensures tab != "all" ==> FilteredMarkets(markets, tab) == Filter(markets, ActiveInTab(tab))
    ensures forall m :: m in FilteredMarkets(markets, tab) <==>
      m in markets && m.status == Active && (tab == "all" || ToLower(m.category) == ToLower(tab))
    ensures |FilteredMarkets(markets, tab)| <= |ActiveMarketsOnly(markets)|
  {
    if tab != "all" {
      FilterFilter(markets, IsActiveMarket, TabTest(tab), ActiveInTab(tab));
    }
  }

  /** `markets.map(m => m.category.toLowerCase())`. */
  function CategoryNames(markets: seq<Market>): (names: seq<string>)
    ensures |names| == |markets| && forall i :: 0 <= i < |markets| ==> names[i] == ToLower(markets[i].category)
  {
    seq(|markets|, i requires 0 <= i < |markets| => ToLower(markets[i].category))
  }

  /** The index of the first occurrence of `x` in `s`. */
  function FirstIndex(s: seq<string>, x: string): (i: nat)
    requires x in s
    ensures i < |s| && s[i] == x && x !in s[..i]
  {
    if s[0] == x then 0 else 1 + FirstIndex(s[1..], x)
  }

  /** `Array.from(new Set(s))`: each element once, where it first occurs. */
  function Distinct(s: seq<string>): (d: seq<string>)
    ensures forall x :: x in d <==> x in s
    ensures forall i, j :: 0 <= i < j < |d| ==> d[i] != d[j]
  {
    if |s| == 0 then []
    else
      var d := Distinct(s[..|s| - 1]);
      assert forall x :: x in s <==> x in s[..|s| - 1] || x == s[|s| - 1] by {
        assert s == s[..|s| - 1] + [s[|s| - 1]];
      }
      if s[|s| - 1] in d then d else d + [s[|s| - 1]]
  }

  /** No occurrence of `x` comes before its first index. */
  lemma {:induction false} FirstIndexLeast(s: seq<string>, x: string, t: nat)
    requires t < |s| && s[t] == x
    ensures FirstIndex(s, x) <= t
  {
    if s[0] != x {
      FirstIndexLeast(s[1..], x, t - 1);
    }
  }

  /** The first index of `x` in a prefix that holds it is its first index in
      the whole sequence. */
  lemma FirstIndexPrefix(s: seq<string>, k: nat, x: string)
    requires k <= |s| && x in s[..k]
    ensures FirstIndex(s[..k], x) == FirstIndex(s, x)
  {
    var i := FirstIndex(s[..k], x);
    FirstIndexLeast(s, x, i);
    var j := FirstIndex(s, x);
    FirstIndexLeast(s[..k], x, j);
  }

  /** A last element that occurs nowhere before first occurs at the end. */
  lemma {:induction false} FirstIndexOfNewLast(s: seq<string>)
    requires |s| > 0 && s[|s| - 1] !in s[..|s| - 1]
    ensures FirstIndex(s, s[|s| - 1]) == |s| - 1
  {
    if |s| > 1 {
      assert s[0] == s[..|s| - 1][0];
      assert s[1..][..|s| - 2] == s[..|s| - 1][1..];
      FirstIndexOfNewLast(s[1..]);
    }
  }

  /** The distinct values keep the order of their first occurrences. */
  lemma {:induction false} DistinctKeepsFirstOrder(s: seq<string>)
    ensures forall i, j :: 0 <= i < j < |Distinct(s)| ==> FirstIndex(s, Distinct(s)[i]) < FirstIndex(s, Distinct(s)[j])
  {
    if |s| > 0 {
      var init := s[..|s| - 1];
      var last := s[|s| - 1];
      DistinctKeepsFirstOrder(init);
      var d := Distinct(s);
      var d0 := Distinct(init);
      assert d == d0 || d == d0 + [last];
      forall i, j | 0 <= i < j < |d|
        ensures FirstIndex(s, d[i]) < FirstIndex(s, d[j])
      {
        assert d[i] == d0[i];
        FirstIndexPrefix(s, |s| - 1, d[i]);
        if j < |d0| {
          assert d[j] == d0[j];
          FirstIndexPrefix(s, |s| - 1, d[j]);
        } else {
          assert d[j] == last && last !in init;
          FirstIndexOfNewLast(s);
        }
      }
    }
  }

  /** `categories`. */
  function Categories(markets: seq<Market>): seq<string> {
    ["all"] + Distinct(CategoryNames(markets))
  }

  /** The tabs are `all` and then every lower-cased category of the list
      (resolved markets included) exactly once, in order of first
      appearance. */
  lemma CategoriesMeaning(markets: seq<Market>)
    ensures var cs := Categories(markets);
      && cs[0] == "all"
      && (forall c :: c in cs[1..] <==> exists i :: 0 <= i < |markets| && ToLower(markets[i].category) == c)
      && (forall i, j :: 1 <= i < j < |cs| ==> cs[i] != cs[j])
      && (forall i, j :: 1 <= i < j < |cs| ==>
            FirstIndex(CategoryNames(markets), cs[i]) < FirstIndex(CategoryNames(markets), cs[j]))
  {
    var names := CategoryNames(markets);
    var cs := Categories(markets);
    assert cs[1..] == Distinct(names);
    DistinctKeepsFirstOrder(names);
    forall c
      ensures c in cs[1..] <==> exists i :: 0 <= i < |markets| && ToLower(markets[i].category) == c
    {
      if c in names {
        var i :| 0 <= i < |names| && names[i] == c;
        assert ToLower(markets[i].category) == c;
      }
    }
    forall i, j | 1 <= i < j < |cs|
      ensures cs[i] != cs[j]
      ensures FirstIndex(names, cs[i]) < FirstIndex(names, cs[j])
    {
      assert cs[i] == cs[1..][i - 1] && cs[j] == cs[1..][j - 1];
    }
  }

  /** A category found only on resolved markets still gets a tab, and that
      tab lists nothing, so the empty state shows. */
  lemma ResolvedOnlyCategoryIsEmpty(markets: seq<Market>, k: nat)
    requires k < |markets| && ToLower(markets[k].category) != "all"
    requires forall i :: 0 <= i < |markets| && markets[i].status == Active ==>
      ToLower(markets[i].category) != ToLower(markets[k].category)
    ensures ToLower(markets[k].category) in Categories(markets)
    ensures FilteredMarkets(markets, ToLower(markets[k].category)) == []
  {
    var tab := ToLower(markets[k].category);
    CategoriesMeaning(markets);
    assert tab in Categories(markets)[1..];
    ToLowerIdempotent(markets[k].category);
    FilteredMarketsMeaning(markets, tab);
    FilterNone(markets, ActiveInTab(tab));
  }

  /** `user?.balance || 0`: the balance handed to the bet dialog. */
  function ModalBalance(user: Option<User>): (b: real)
    ensures user.None? ==> b == 0.0
    ensures user.Some? ==> b == user.value.balance
  {
    if user.Some? && user.value.balance != 0.0 then user.value.balance else 0.0
  }
}
