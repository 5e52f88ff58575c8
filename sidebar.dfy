/**
 * The navigation menu (src/components/Sidebar.jsx): five fixed items, the
 * one whose path equals the current pathname exactly being highlighted.
 */
module Sidebar {

  datatype MenuItem = MenuItem(text: string, path: string)

  const MenuItems: seq<MenuItem> := [
    MenuItem("Dashboard", "/"),
    MenuItem("Loans", "/loans"),
    MenuItem("Customers", "/customers"),
    MenuItem("Payments", "/payments"),
    MenuItem("Admin", "/admin")
  ]

  /** `location.pathname === item.path`: exact equality, no prefix match. */
  predicate IsActive(pathname: string, item: MenuItem) {
    pathname == item.path
  }

  /** One rendered menu entry: the item, whether it is highlighted, and its font weight. */
  datatype Entry = Entry(item: MenuItem, active: bool, fontWeight: int)

  function RenderItem(pathname: string, item: MenuItem): Entry {
    var active := IsActive(pathname, item);
    Entry(item, active, if active then 600 else 400)
  }

  /** `menuItems.map(...)`: one entry per item, in menu order. */
  function Render(pathname: string): (r: seq<Entry>)
    ensures |r| == |MenuItems|
    ensures forall i :: 0 <= i < |r| ==> r[i] == RenderItem(pathname, MenuItems[i])
    ensures forall i :: 0 <= i < |r| ==> r[i].item == MenuItems[i] && (r[i].active <==> pathname == MenuItems[i].path)
  {
    seq(|MenuItems|, i requires 0 <= i < |MenuItems| => RenderItem(pathname, MenuItems[i]))
  }

  /** The menu paths are pairwise distinct. */
  lemma PathsDistinct()
    ensures forall i, j :: 0 <= i < j < |MenuItems| ==> MenuItems[i].path != MenuItems[j].path
  {
  }

  /**
   * At most one entry is active, an entry is active exactly when the
   * pathname is one of the five paths, and the active entry alone is drawn
   * at weight 600, all others at 400.
   */
  lemma RenderSpec(pathname: string)
    ensures var r := Render(pathname);
      && (forall i, j :: 0 <= i < |r| && 0 <= j < |r| && r[i].active && r[j].active ==> i == j)
      && ((exists i :: 0 <= i < |r| && r[i].active) <==> exists item :: item in MenuItems && item.path == pathname)
      && (forall i :: 0 <= i < |r| ==> (r[i].fontWeight == 600 <==> r[i].active) && (r[i].fontWeight == 400 <==> !r[i].active))
  {
    PathsDistinct();
    var r := Render(pathname);
    if exists item :: item in MenuItems && item.path == pathname {
      var item :| item in MenuItems && item.path == pathname;
      var i :| 0 <= i < |MenuItems| && MenuItems[i] == item;
      assert r[i].active;
    }
  }

  /** A path below a menu path, such as `/loans/5`, highlights nothing. */
  lemma NoPrefixMatch()
    ensures forall i :: 0 <= i < |MenuItems| ==> !Render("/loans/5")[i].active
  {
  }
}
