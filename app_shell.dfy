/**
 * The application shell: which navigation link is highlighted, the cart
 * badge, the links shown to signed-in users and admins, the avatar's
 * initial, and logout.
 */
module App {
  import opened Wrappers
  import opened Context
  import opened Text
  import CartPage
  import AppContext

  /** `pathname === path || (path !== "/" && pathname.startsWith(path))`. */
  predicate IsActive(pathname: string, path: string): (active: bool)
    ensures active ==> StartsWith(pathname, path)
  {
    pathname == path || (path != "/" && StartsWith(pathname, path))
  }

  /** Every path is active on itself; "/" only on "/"; any other path on every pathname it prefixes. */
  lemma IsActiveCases(pathname: string, path: string)
    ensures IsActive(path, path)
    ensures IsActive(pathname, "/") <==> pathname == "/"
    ensures path != "/" ==> (IsActive(pathname, path) <==> StartsWith(pathname, path))
  {
    assert path[..|path|] == path;
  }

  lemma PrefixAgrees(r: string, p: string, k: nat)
    requires k < |p|
    ensures StartsWith(r, p) ==> k < |r| && r[k] == p[k]
  {
    if StartsWith(r, p) {
      assert r[..|p|][k] == r[k];
    }
  }

  /** The routes of the router, and the paths the header links to. */
  const Routes: seq<string> := ["/", "/cart", "/checkout", "/login", "/register", "/orders", "/admin/products", "/admin/orders"]
  const NavPaths: seq<string> := ["/", "/cart", "/orders", "/admin/products", "/admin/orders"]

  /**
   * On any routed page, at most one header link is highlighted, and it is
   * the link to that page: no header path is a prefix of another route.
   */
  lemma ActiveLinkIsOwnRoute()
    ensures forall r, p | r in Routes && p in NavPaths :: IsActive(r, p) <==> r == p
  {
    forall r, p | r in Routes && p in NavPaths ensures IsActive(r, p) <==> r == p {
      if p != "/" && r != p {
        PrefixAgrees(r, p, 1);
        PrefixAgrees(r, p, 2);
        if |p| > 7 {
          PrefixAgrees(r, p, 7);
        }
      }
    }
  }

  /** The badge: shown only for a non-empty cart, with the sum of the quantities. */
  function CartBadge(cart: seq<CartItem>): (badge: Option<int>)
    ensures badge.Some? <==> |cart| > 0
    ensures badge.Some? ==> badge.value == CartPage.ItemCount(cart)
  {
    if |cart| > 0 then Some(CartPage.ItemCount(cart)) else None
  }

  /** `user.role === "admin"` under a signed-in user: the admin links are never offered without a session. */
  predicate ShowAdminLinks(user: Option<User>): (show: bool)
    ensures show ==> user.Some?
    ensures user.Some? && user.value.role != Admin ==> !show
  {
    user.Some? && user.value.role == Admin
  }

  /** The nav links, in order, for the current user (the signed-out Login and Register links are not among them). */
  function NavTargets(user: Option<User>): (links: seq<string>)
    ensures |links| >= 2 && links[..2] == ["/", "/cart"]
    ensures "/orders" in links <==> user.Some?
    ensures "/admin/products" in links <==> ShowAdminLinks(user)
    ensures "/admin/orders" in links <==> ShowAdminLinks(user)
    ensures forall l | l in links :: l in NavPaths
  {
    ["/", "/cart"] +
    (if user.Some? then ["/orders"] + (if ShowAdminLinks(user) then ["/admin/products", "/admin/orders"] else []) else [])
  }

  /** `name.slice(0, 1).toUpperCase()`: the first character upper-cased, or nothing for an empty name. */
  function AvatarInitial(name: string): (initial: string)
    ensures name == "" ==> initial == ""
    ensures name != "" ==> initial == [UpperChar(name[0])]
  {
    if name == "" then "" else [UpperChar(name[0])]
  }

  /** `logout`: remove the stored token and user, then clear the session. The cart is kept. */
  method Logout(app: AppContext.AppProvider)
    modifies app`user, app.storage`token, app.storage`user
    ensures app.user == None && app.storage.token == None && app.storage.user == None
  {
    app.storage.token := None;
    app.storage.user := None;
    app.SetUser(None);
  }

  /** After logout, a reload restores no user but the same cart. */
  method LogoutThenReload(app: AppContext.AppProvider) returns (next: AppContext.AppProvider)
    requires app.Persisted()
    modifies app`user, app.storage`token, app.storage`user, app.storage`cart
    ensures next.user == None && next.cart == app.cart
  {
    Logout(app);
    next := AppContext.Reload(app);
  }
}
