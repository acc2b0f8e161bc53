/** The bottom tab bar of the mini-app: which tab is active for the
    current path, and where the sliding highlight sits. */
module TabBar {
  import opened Wrappers
  import opened Strings

  datatype TabItem = TabItem(path: string, caption: string)

  /** The root tab's path. */
  const Root := "/"

  /** `findIndex` of the root tab: its first index, or -1. */
  function RootIndex(items: seq<TabItem>): (i: int)
    ensures -1 <= i < |items|
    ensures i >= 0 ==> items[i].path == Root && forall j | 0 <= j < i :: items[j].path != Root
    ensures i == -1 ==> forall j | 0 <= j < |items| :: items[j].path != Root
  {
    if |items| == 0 then -1
    else if items[0].path == Root then 0
    else
      var k := RootIndex(items[1..]);
      if k == -1 then -1 else k + 1
  }

  /** A tab other than the root whose path starts the current path, as a
      raw string prefix. */
  predicate Matches(it: TabItem, p: string) {
    it.path != Root && StartsWith(p, it.path)
  }

  /** Tab `i` matches, no matching tab has a longer path, and the earlier
      matching tabs have shorter ones. */
  predicate LongestMatch(items: seq<TabItem>, p: string, i: int) {
    && 0 <= i < |items| && Matches(items[i], p)
    && (forall j | 0 <= j < |items| && Matches(items[j], p) :: |items[j].path| <= |items[i].path|)
    && (forall j | 0 <= j < i && Matches(items[j], p) :: |items[j].path| < |items[i].path|)
  }

  predicate AnyMatch(items: seq<TabItem>, p: string) {
    exists j | 0 <= j < |items| :: Matches(items[j], p)
  }

  /** At most one tab is the longest match. */
  lemma LongestMatchUnique(items: seq<TabItem>, p: string, i: int, k: int)
    requires LongestMatch(items, p, i) && LongestMatch(items, p, k)
    ensures i == k
  {
    if i < k {
      assert false;
    } else if k < i {
      assert false;
    }
  }

  /** The `activeIndex` memo: the root tab on the exact root path, else
      the longest matching tab, else the root tab, else the first. */
  method ActiveIndex(items: seq<TabItem>, p: string) returns (active: int)
    ensures p == Root && RootIndex(items) != -1 ==> active == RootIndex(items)
    ensures !(p == Root && RootIndex(items) != -1) && AnyMatch(items, p) ==> LongestMatch(items, p, active)
    ensures !(p == Root && RootIndex(items) != -1) && !AnyMatch(items, p) ==>
      active == (if RootIndex(items) != -1 then RootIndex(items) else 0)
    ensures |items| > 0 ==> 0 <= active < |items|
  {
    var rootIdx := RootIndex(items);
    if p == Root && rootIdx != -1 {
      return rootIdx;
    }
    var bestIdx := if rootIdx != -1 then rootIdx else 0;
    var bestLen := -1;
    var idx := 0;
    while idx < |items|
      invariant 0 <= idx <= |items| && bestLen >= -1
      invariant bestLen == -1 ==> bestIdx == (if rootIdx != -1 then rootIdx else 0)
      invariant forall j | 0 <= j < idx && Matches(items[j], p) :: |items[j].path| <= bestLen
      invariant bestLen >= 0 ==>
        && 0 <= bestIdx < idx && Matches(items[bestIdx], p) && bestLen == |items[bestIdx].path|
        && (forall j | 0 <= j < bestIdx && Matches(items[j], p) :: |items[j].path| < bestLen)
    {
      var it := items[idx];
      if it.path != Root && StartsWith(p, it.path) {
        if |it.path| > bestLen {
          bestLen := |it.path|;
          bestIdx := idx;
        }
      }
      idx := idx + 1;
    }
    if AnyMatch(items, p) {
      var j :| 0 <= j < |items| && Matches(items[j], p);
      assert |items[j].path| <= bestLen;
      assert LongestMatch(items, p, bestIdx);
    }
    active := bestIdx;
  }

  /** The highlight's padding when none is given, in pixels. */
  const DefaultPillPadding := 8

  /** The highlight's left edge and width for a tab at `offsetLeft` of
      width `clientWidth`, widened by `padding` on each side. */
  function PillFor(offsetLeft: int, clientWidth: int, padding: int): (r: (int, int))
    ensures r.0 >= 0
  {
    (if offsetLeft - padding > 0 then offsetLeft - padding else 0, clientWidth + 2 * padding)
  }

  /** With a non-negative padding the highlight covers the tab, and it is
      centred on the tab unless its left edge was cut at 0. */
  lemma PillCoversTab(offsetLeft: int, clientWidth: int, padding: int)
    requires padding >= 0 && offsetLeft >= 0
    ensures var r := PillFor(offsetLeft, clientWidth, padding);
      && r.0 <= offsetLeft && offsetLeft + clientWidth <= r.0 + r.1
      && (offsetLeft >= padding ==> 2 * r.0 + r.1 == 2 * offsetLeft + clientWidth)
  {
  }

  /** The highlight's state, updated by each measurement. */
  class Pill {
    var x: int
    var w: int

    constructor()
      ensures x == 0 && w == 0
    {
      x := 0;
      w := 0;
    }

    /** `measure`: without the active tab's element or the container the
        highlight stays where it is. */
    method Measure(tab: Option<(int, int)>, containerPresent: bool, padding: int)
      modifies this
      ensures tab.None? || !containerPresent ==> x == old(x) && w == old(w)
      ensures tab.Some? && containerPresent ==> (x, w) == PillFor(tab.value.0, tab.value.1, padding)
    {
      if tab.None? || !containerPresent {
        return;
      }
      var r := PillFor(tab.value.0, tab.value.1, padding);
      x, w := r.0, r.1;
    }
  }
}
