/**
 * The navigation sidebar (src/components/app-sidebar.tsx): which entries are
 * highlighted for the current location, and which submenus are expanded.
 */
module AppSidebar {
  import opened Wrappers
  import opened Seqs

  datatype NavItem = NavItem(title: string, url: string, submenu: Option<seq<NavItem>>)

  /** The navigation entries, in display order. */
  const NavContent: seq<NavItem> := [
    NavItem("Overview", "/", None),
    NavItem("Products", "/products", None),
    NavItem("Orders", "/orders", None),
    NavItem("Admin Settings", "/adminsettings", Some([
      NavItem("Category Management", "/adminsettings/categories", None),
      NavItem("Shipping Management", "/adminsettings/shipping", None)]))
  ]

  /** `isActive`: the root entry matches the root only; any other url matches every pathname that starts with it. */
  predicate IsActive(pathname: string, url: string) {
    if url == "/" then pathname == url else StartsWith(pathname, url)
  }

  /** Matching is exact for "/" and a plain character-by-character prefix test otherwise. */
  lemma IsActiveMeaning(pathname: string, url: string)
    ensures url == "/" ==> (IsActive(pathname, url) <==> pathname == "/")
    ensures url != "/" ==> (IsActive(pathname, url) <==> |url| <= |pathname| && forall i :: 0 <= i < |url| ==> pathname[i] == url[i])
  {
    if url != "/" && |url| <= |pathname| && (forall i :: 0 <= i < |url| ==> pathname[i] == url[i]) {
      assert pathname[..|url|] == url;
    }
  }

  /** The prefix test does not stop at segment boundaries: "/products" is active on "/productsx". */
  lemma PrefixIgnoresSegments()
    ensures IsActive("/productsx", "/products")
    ensures !IsActive("/products", "/")
  {
    assert "/productsx"[..|"/products"|] == "/products";
  }

  /** `toggleSubmenu`: negate one flag, a missing flag counting as false; every other entry stays. */
  function ToggleSubmenu(expanded: map<string, bool>, title: string): (r: map<string, bool>)
    ensures title in r && r[title] == !(title in expanded && expanded[title])
    ensures forall k :: k != title ==> (k in r <==> k in expanded)
    ensures forall k :: k in r && k != title ==> r[k] == expanded[k]
  {
    expanded[title := !(title in expanded && expanded[title])]
  }

  /** Toggling a present title twice restores the map. */
  lemma ToggleSubmenuTwice(expanded: map<string, bool>, title: string)
    requires title in expanded
    ensures ToggleSubmenu(ToggleSubmenu(expanded, title), title) == expanded
  {
  }

  /** `isSubmenuActive`: some sub-item's url is active. */
  function IsSubmenuActive(pathname: string, items: seq<NavItem>): (r: bool)
    ensures r <==> exists i :: 0 <= i < |items| && IsActive(pathname, items[i].url)
  {
    if items == [] then false
    else
      assert forall i :: 1 <= i < |items| ==> items[i] == items[1..][i - 1];
      IsActive(pathname, items[0].url) || IsSubmenuActive(pathname, items[1..])
  }

  /** "Admin Settings" starts expanded; nothing else is recorded. */
  const InitialExpanded: map<string, bool> := map["Admin Settings" := true]

  /** On the category page the settings submenu is highlighted, and the overview entry is not. */
  lemma CategoryPageHighlightsSettings()
    ensures NavContent[3].submenu.Some? && IsSubmenuActive("/adminsettings/categories", NavContent[3].submenu.value)
    ensures !IsActive("/adminsettings/categories", NavContent[0].url)
  {
    var items := NavContent[3].submenu.value;
    assert "/adminsettings/categories"[..|items[0].url|] == items[0].url;
  }

  /** The `expandedMenus` state. */
  class Sidebar {
    var expandedMenus: map<string, bool>

    constructor ()
      ensures expandedMenus == InitialExpanded
    {
      expandedMenus := InitialExpanded;
    }

    method Toggle(title: string)
      modifies this
      ensures expandedMenus == ToggleSubmenu(old(expandedMenus), title)
    {
      expandedMenus := ToggleSubmenu(expandedMenus, title);
    }
  }
}
