/** The side menu of the main layout: seven keyed items, navigation to
    `/online-shop/<key>` on select, and the highlighted key derived from the
    current pathname by removing the first `/online-shop/`. */
module MainLayout {
  import opened Common
  import Server

  datatype MenuItem = MenuItem(key: string, caption: string)

  const SideMenuItems: seq<MenuItem> := [
    MenuItem("login", "Trang chủ"),
    MenuItem("categories", "Categories"),
    MenuItem("suppliers", "Suppliers"),
    MenuItem("products", "Products"),
    MenuItem("employees", "Employees"),
    MenuItem("customers", "Customers"),
    MenuItem("orders", "Orders")
  ]

  function MenuKeys(): (keys: seq<string>)
    ensures |keys| == |SideMenuItems|
    ensures forall i :: 0 <= i < |keys| ==> keys[i] == SideMenuItems[i].key
  {
    seq(|SideMenuItems|, i requires 0 <= i < |SideMenuItems| => SideMenuItems[i].key)
  }

  /** The router's child paths under the layout. */
  const RoutePaths: set<string> := {
    "", "/online-shop/login", "/online-shop/categories", "/online-shop/suppliers", "/online-shop/products",
    "/online-shop/employees", "/online-shop/customers", "/online-shop/orders", "/about"
  }

  /** Where selecting a menu item navigates. */
  function NavTarget(key: string): (p: string)
    ensures OccursAt(p, Server.Base, 0) && p[|Server.Base|..] == key
  {
    Server.Base + key
  }

  /** Does `pattern` occur in `s` at position `i`? */
  predicate OccursAt(s: string, pattern: string, i: nat) {
    i + |pattern| <= |s| && s[i..i + |pattern|] == pattern
  }

  /** `s.indexOf(pattern)`: the first position where `pattern` occurs, if any. */
  function IndexOf(s: string, pattern: string, from: nat := 0): (r: Option<nat>)
    requires from <= |s|
    ensures r.Some? ==> from <= r.value && OccursAt(s, pattern, r.value)
    ensures r.Some? ==> forall j :: from <= j < r.value ==> !OccursAt(s, pattern, j)
    ensures r.None? ==> forall j :: from <= j <= |s| ==> !OccursAt(s, pattern, j)
    decreases |s| - from
  {
    if OccursAt(s, pattern, from) then Some(from)
    else if from == |s| then None
    else IndexOf(s, pattern, from + 1)
  }

  /** `s.replace(pattern, replacement)` with a string pattern: only the first occurrence is replaced. */
  function ReplaceFirst(s: string, pattern: string, replacement: string): (r: string)
    ensures IndexOf(s, pattern).None? ==> r == s
    ensures IndexOf(s, pattern).Some? ==>
              var i := IndexOf(s, pattern).value;
              r == s[..i] + replacement + s[i + |pattern|..]
  {
    match IndexOf(s, pattern)
    case None => s
    case Some(i) => s[..i] + replacement + s[i + |pattern|..]
  }

  /** The key the menu highlights for a pathname: the pathname itself when the
      prefix does not occur in it, otherwise the pathname less one prefix. */
  function SelectedKey(pathname: string): (k: string)
    ensures IndexOf(pathname, Server.Base).None? ==> k == pathname
    ensures IndexOf(pathname, Server.Base).Some? ==> |k| == |pathname| - |Server.Base|
  {
    ReplaceFirst(pathname, Server.Base, "")
  }

  /** A pathname that starts with the prefix highlights what follows it. */
  lemma SelectedKeyOfPrefixed(pathname: string)
    requires OccursAt(pathname, Server.Base, 0)
    ensures SelectedKey(pathname) == pathname[|Server.Base|..]
  {
    assert IndexOf(pathname, Server.Base) == Some(0);
  }

  /** Round trip: the page a menu item navigates to highlights that item again. */
  lemma SelectedKeyOfNavTarget(key: string)
    ensures SelectedKey(NavTarget(key)) == key
  {
    SelectedKeyOfPrefixed(NavTarget(key));
  }

  /** A pathname without the prefix is left as it is. */
  lemma SelectedKeyUnprefixed(pathname: string)
    requires forall j :: 0 <= j <= |pathname| ==> !OccursAt(pathname, Server.Base, j)
    ensures SelectedKey(pathname) == pathname
  {
  }

  /** The root and the about page keep their pathname, which is no menu key. */
  lemma UnprefixedRoutesSelectNothing()
    ensures SelectedKey("/") == "/" && "/" !in MenuKeys()
    ensures SelectedKey("/about") == "/about" && "/about" !in MenuKeys()
  {
    SelectedKeyUnprefixed("/");
    SelectedKeyUnprefixed("/about");
  }

  /** The seven keys, in menu order; no two items share one. */
  lemma MenuKeysDistinct()
    ensures |MenuKeys()| == 7
    ensures MenuKeys() == ["login", "categories", "suppliers", "products", "employees", "customers", "orders"]
    ensures forall i, j :: 0 <= i < j < |MenuKeys()| ==> MenuKeys()[i] != MenuKeys()[j]
  {
  }

  /** The target of one menu key, written out, is a declared route. */
  lemma KeyRouted(key: string, path: string)
    requires path == Server.Base + key && path in RoutePaths
    ensures NavTarget(key) in RoutePaths
  {
  }

  /** Every menu item navigates to a path the router declares. */
  lemma MenuTargetsRouted()
    ensures forall k :: k in MenuKeys() ==> NavTarget(k) in RoutePaths
  {
    var keys := MenuKeys();
    forall i | 0 <= i < |keys| ensures NavTarget(keys[i]) in RoutePaths {
      if i == 0 {
        KeyRouted("login", "/online-shop/login");
      } else if i == 1 {
        KeyRouted("categories", "/online-shop/categories");
      } else if i == 2 {
        KeyRouted("suppliers", "/online-shop/suppliers");
      } else if i == 3 {
        KeyRouted("products", "/online-shop/products");
      } else if i == 4 {
        KeyRouted("employees", "/online-shop/employees");
      } else if i == 5 {
        KeyRouted("customers", "/online-shop/customers");
      } else {
        KeyRouted("orders", "/online-shop/orders");
      }
    }
  }

  /** Every path the router declares under the prefix highlights a menu item. */
  lemma RoutedPathsSelectMenuKeys()
    ensures forall p :: p in RoutePaths && OccursAt(p, Server.Base, 0) ==> SelectedKey(p) in MenuKeys()
  {
    var keys := MenuKeys();
    assert keys == ["login", "categories", "suppliers", "products", "employees", "customers", "orders"];
    forall p | p in RoutePaths && OccursAt(p, Server.Base, 0) ensures SelectedKey(p) in keys {
      SelectedKeyOfPrefixed(p);
      assert p != "" && p != "/about";
    }
  }
}
