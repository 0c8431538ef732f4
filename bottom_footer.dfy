/**
 * The bottom navigation bar (src/components/BottomFooter.jsx): four items, of which the one
 * whose path is exactly the current path is drawn active, with its label.
 */
module BottomFooter {
  import opened Wrappers

  datatype NavItem = NavItem(title: string, path: string)

  const NavItems: seq<NavItem> := [
    NavItem("Home", "/"),
    NavItem("Plans", "/user/plans"),
    NavItem("Offers", "/user/offers"),
    NavItem("Wallet", "/user/wallet")
  ]

  /** `items.findIndex((item) => item.path === pathname)`: the first item with that exact path, or -1. */
  function FindIndex(items: seq<NavItem>, pathname: string): (r: int)
    ensures -1 <= r < |items|
    ensures r >= 0 ==> items[r].path == pathname && forall j :: 0 <= j < r ==> items[j].path != pathname
    ensures r == -1 ==> forall j :: 0 <= j < |items| ==> items[j].path != pathname
  {
    if items == [] then -1
    else if items[0].path == pathname then 0
    else
      var k := FindIndex(items[1..], pathname);
      assert forall j :: 1 <= j < |items| ==> items[j] == items[1..][j - 1];
      if k == -1 then -1 else k + 1
  }

  /** `currentIndex`. */
  function CurrentIndex(pathname: string): int {
    FindIndex(NavItems, pathname)
  }

  /** `isActive` for the item at `idx`. */
  predicate IsActive(pathname: string, idx: int) {
    CurrentIndex(pathname) == idx
  }

  /** The label drawn for the item at `idx`: only the active item shows one. */
  function ShownLabel(pathname: string, idx: nat): Option<string>
    requires idx < |NavItems|
  {
    if IsActive(pathname, idx) then Some(NavItems[idx].title) else None
  }

  /**
   * An item is active exactly when its path is the current path, character for character;
   * so at most one item is active and shows its label, and a deeper path such as
   * "/user/plans/3" activates none.
   */
  lemma ActiveIffExactPath(pathname: string, idx: nat, other: nat)
    requires idx < |NavItems| && other < |NavItems|
    ensures IsActive(pathname, idx) <==> NavItems[idx].path == pathname
    ensures ShownLabel(pathname, idx).Some? && ShownLabel(pathname, other).Some? ==> idx == other
    ensures CurrentIndex("/user/plans/3") == -1
  {
    var p := "/user/plans/3";
    assert forall j :: 0 <= j < |NavItems| ==> |NavItems[j].path| < |p| ==> NavItems[j].path != p;
  }

  /** Navigating to an item's path makes that item the active one. */
  lemma NavigateActivates(idx: nat)
    requires idx < |NavItems|
    ensures IsActive(NavItems[idx].path, idx)
  {
    ActiveIffExactPath(NavItems[idx].path, idx, idx);
  }
}
