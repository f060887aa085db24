/**
 * The navigation sidebar's highlighting rules: a menu item is active on its
 * own path, on any path below it, and on the path of any of its sub-items;
 * an active item with sub-items is expanded unless the sidebar is
 * collapsed; a sub-item is highlighted only on its exact path.
 */
module Sidebar {
  import opened Text

  datatype SubItem = SubItem(name: string, path: string)

  /** A menu entry; `subItems` is absent for the entries without a sub-menu. */
  datatype MenuItem = MenuItem(name: string, path: string, subItems: Option<seq<SubItem>>)

  /** The menu as the sidebar declares it (icons left out). */
  const Menu: seq<MenuItem> := [
    MenuItem("Dashboard", "/", None),
    MenuItem("Production", "/production", Some([
      SubItem("Products", "/production/products"),
      SubItem("Materials", "/production/materials"),
      SubItem("Manufacturers", "/production/manufacturers")])),
    MenuItem("Capital Control", "/capital-control", Some([
      SubItem("Overview", "/capital-control/overview"),
      SubItem("Orders", "/capital-control/orders"),
      SubItem("Invoices", "/capital-control/invoices"),
      SubItem("Expenses", "/capital-control/expenses"),
      SubItem("Analytics", "/capital-control/analytics")])),
    MenuItem("Projects", "/projects", None),
    MenuItem("Customers", "/customers", None),
    MenuItem("Vision Lock", "/vision-lock", Some([
      SubItem("Principles", "/vision-lock/principles"),
      SubItem("Drops", "/vision-lock/drops"),
      SubItem("No List", "/vision-lock/no-list")])),
    MenuItem("Settings", "/settings", Some([
      SubItem("API Keys", "/settings/api-keys"),
      SubItem("Roles", "/settings/roles"),
      SubItem("Logs", "/settings/logs")]))
  ]

  /** Some sub-item of `item` sits exactly at `pathname`. */
  predicate SubItemAt(pathname: string, item: MenuItem) {
    item.subItems.Some? && exists k :: 0 <= k < |item.subItems.value| && item.subItems.value[k].path == pathname
  }

  predicate IsActive(pathname: string, item: MenuItem) {
    || pathname == item.path
    || (StartsWith(pathname, item.path + "/") && item.path != "/")
    || SubItemAt(pathname, item)
  }

  /** `!collapsed && isActive && item.subItems`: an empty sub-item list still counts as present. */
  predicate IsExpanded(collapsed: bool, pathname: string, item: MenuItem) {
    !collapsed && IsActive(pathname, item) && item.subItems.Some?
  }

  predicate IsSubActive(pathname: string, sub: SubItem) {
    pathname == sub.path
  }

  /** The root entry is active on "/" and nowhere else. */
  lemma RootActiveOnlyAtRoot(pathname: string)
    ensures IsActive(pathname, Menu[0]) <==> pathname == "/"
  {
  }

  /**
   * Activation never stops inside a path segment: when `pathname` extends the
   * item's path with anything but "/", and no sub-item sits there, the item
   * is not active.
   */
  lemma NoPartialSegmentMatch(pathname: string, item: MenuItem)
    requires StartsWith(pathname, item.path) && |pathname| > |item.path|
    requires pathname[|item.path|] != '/'
    requires !SubItemAt(pathname, item)
    ensures !IsActive(pathname, item)
  {
  }

  /** "/production-x" does not activate "/production"; "/production/x" does. */
  lemma ProductionPrefixExample()
    ensures !IsActive("/production-x", Menu[1])
    ensures IsActive("/production/x", Menu[1])
  {
    var item := Menu[1];
    assert StartsWith("/production-x", item.path);
    assert !SubItemAt("/production-x", item);
    NoPartialSegmentMatch("/production-x", item);
    assert StartsWith("/production/x", item.path + "/");
  }

  /** Every sub-item of the declared menu lies below its item's path. */
  lemma SubItemsBelowItem(i: nat, k: nat)
    requires i < |Menu| && Menu[i].subItems.Some? && k < |Menu[i].subItems.value|
    ensures StartsWith(Menu[i].subItems.value[k].path, Menu[i].path + "/")
  {
  }

  /** Two prefixes of one string are prefixes of each other. */
  lemma PrefixesAgree(s: string, x: string, y: string)
    requires StartsWith(s, x) && StartsWith(s, y) && |x| <= |y|
    ensures StartsWith(y, x)
  {
    assert y[..|x|] == s[..|y|][..|x|] == s[..|x|];
  }

  /** With the declared menu, at most one top-level entry is active for any path. */
  lemma AtMostOneActive(pathname: string, i: nat, j: nat)
    requires i < j < |Menu|
    ensures !(IsActive(pathname, Menu[i]) && IsActive(pathname, Menu[j]))
  {
    if IsActive(pathname, Menu[i]) && IsActive(pathname, Menu[j]) {
      var a, b := Menu[i].path + "/", Menu[j].path + "/";
      BelowWhenActive(pathname, i);
      BelowWhenActive(pathname, j);
      if i != 0 {
        SectionsDiffer(i, j);
        if |a| <= |b| {
          PrefixesAgree(pathname + "/", a, b);
        } else {
          PrefixesAgree(pathname + "/", b, a);
        }
      }
    }
  }

  /** The sections of the declared menu differ within their first five characters. */
  lemma SectionsDiffer(i: nat, j: nat)
    requires 1 <= i < j < |Menu|
    ensures !StartsWith(Menu[j].path + "/", Menu[i].path + "/")
    ensures !StartsWith(Menu[i].path + "/", Menu[j].path + "/")
  {
    var x, y := Menu[i].path + "/", Menu[j].path + "/";
    var k := if i == 1 && j == 3 then 4 else if i == 2 && j == 4 then 2 else 1;
    assert k < |x| && k < |y| && x[k] != y[k];
  }

  /** An active non-root entry of the menu is an ancestor of the path. */
  lemma BelowWhenActive(pathname: string, i: nat)
    requires i < |Menu| && IsActive(pathname, Menu[i])
    ensures i == 0 ==> pathname == "/"
    ensures i != 0 ==> StartsWith(pathname + "/", Menu[i].path + "/")
  {
    var a := Menu[i].path + "/";
    if StartsWith(pathname, a) {
      assert (pathname + "/")[..|a|] == pathname[..|a|];
    }
    if i != 0 && SubItemAt(pathname, Menu[i]) {
      var k :| 0 <= k < |Menu[i].subItems.value| && Menu[i].subItems.value[k].path == pathname;
      SubItemsBelowItem(i, k);
    }
  }

  /** On "/production/products" the Production entry is expanded and only its Products sub-item is highlighted. */
  lemma ProductsPageExample()
    ensures IsExpanded(false, "/production/products", Menu[1])
    ensures !IsExpanded(true, "/production/products", Menu[1])
    ensures IsSubActive("/production/products", Menu[1].subItems.value[0])
    ensures !IsSubActive("/production/products", Menu[1].subItems.value[1])
    ensures !IsSubActive("/production/products", Menu[1].subItems.value[2])
  {
    assert StartsWith("/production/products", "/production" + "/");
  }
}
