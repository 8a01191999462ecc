/** The navigation bar: which menu items are offered, whether the admin entry is shown and which item is marked active. */
module Navbar {
  import opened Options
  import opened Js

  datatype MenuItem = MenuItem(id: string, caption: string)

  /** The signed-in user as far as the bar looks at it: the `role` property. */
  datatype User = User(role: JsValue)

  const BaseItems: seq<MenuItem> := [
    MenuItem("home", "Pagrindinis"),
    MenuItem("diseases", "Ligos"),
    MenuItem("products", "Produktai")
  ]

  /** `getMenuItems()`. */
  function MenuItems(isAuthenticated: bool): (items: seq<MenuItem>)
    ensures |items| >= 3 && items[..3] == BaseItems
    ensures isAuthenticated ==> |items| == 5 && items[3].id == "account" && items[4].id == "visits"
    ensures !isAuthenticated ==> |items| == 4 && items[3].id == "auth"
  {
    if isAuthenticated then BaseItems + [MenuItem("account", "Paskyra"), MenuItem("visits", "Vizitai")]
    else BaseItems + [MenuItem("auth", "Prisijungti")]
  }

  predicate HasItem(items: seq<MenuItem>, id: string)
  {
    exists i :: 0 <= i < |items| && items[i].id == id
  }

  predicate DistinctIds(items: seq<MenuItem>)
  {
    forall i, j :: 0 <= i < j < |items| ==> items[i].id != items[j].id
  }

  /** Signed-out visitors are never offered the account or visits pages, and the ids never repeat. */
  lemma MenuItemsShape(isAuthenticated: bool)
    ensures DistinctIds(MenuItems(isAuthenticated))
    ensures !isAuthenticated ==> !HasItem(MenuItems(false), "account") && !HasItem(MenuItems(false), "visits")
    ensures isAuthenticated ==> !HasItem(MenuItems(true), "auth")
    ensures !HasItem(MenuItems(isAuthenticated), "admin")
  {
  }

  /** `isAuthenticated && user?.role === 0`. */
  predicate ShowsAdmin(isAuthenticated: bool, user: Option<User>)
  {
    isAuthenticated && user.Some? && user.value.role == Num(0)
  }

  /** A rendered button: the item and whether it carries the `active` class. */
  datatype Button = Button(id: string, caption: string, active: bool)

  /** The buttons the bar renders: the menu, then the admin entry when it is shown. */
  function Buttons(currentPage: string, isAuthenticated: bool, user: Option<User>): (bs: seq<Button>)
    ensures |bs| == |MenuItems(isAuthenticated)| + (if ShowsAdmin(isAuthenticated, user) then 1 else 0)
    ensures forall i :: 0 <= i < |bs| ==> (bs[i].active <==> bs[i].id == currentPage)
    ensures forall i :: 0 <= i < |MenuItems(isAuthenticated)| ==>
      bs[i].id == MenuItems(isAuthenticated)[i].id && bs[i].caption == MenuItems(isAuthenticated)[i].caption
    ensures (exists i :: 0 <= i < |bs| && bs[i].id == "admin") <==> ShowsAdmin(isAuthenticated, user)
  {
    var items := MenuItems(isAuthenticated);
    MenuItemsShape(isAuthenticated);
    var menu := seq(|items|, i requires 0 <= i < |items| => Button(items[i].id, items[i].caption, currentPage == items[i].id));
    assert forall i :: 0 <= i < |menu| ==> menu[i].id == items[i].id;
    assert !exists i :: 0 <= i < |menu| && menu[i].id == "admin";
    if ShowsAdmin(isAuthenticated, user) then
      var bs := menu + [Button("admin", "Admin", currentPage == "admin")];
      assert bs[|menu|].id == "admin";
      bs
    else menu
  }

  /** At most one button carries the `active` class. */
  lemma OneActiveButton(currentPage: string, isAuthenticated: bool, user: Option<User>, i: int, j: int)
    requires 0 <= i < |Buttons(currentPage, isAuthenticated, user)| && 0 <= j < |Buttons(currentPage, isAuthenticated, user)|
    requires Buttons(currentPage, isAuthenticated, user)[i].active && Buttons(currentPage, isAuthenticated, user)[j].active
    ensures i == j
  {
    MenuItemsShape(isAuthenticated);
  }
}
