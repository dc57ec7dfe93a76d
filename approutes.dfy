/** The client route table and the `PublicRoute` gate (src/App.js). Paths
    are split at '/', so "/" is the empty path and "/product/42" is
    ["product", "42"]. The `ProtectedRoute` component and the pages are not
    part of this model: a route records which gate wraps which page. */
module AppRoutes {
  import opened Wrappers
  import opened Paths
  import opened Session

  datatype Page =
    | LoginPage | RegisterPage | HomePage | AboutPage | ProductsPage | ProductDetailPage
    | CartPage | CheckoutPage | OrderSuccessPage | ProfilePage | AdminPage

  /** What wraps a page: nothing, `PublicRoute`, `ProtectedRoute`, or
      `ProtectedRoute adminOnly`. */
  datatype Gate = Open | Public | Protected | AdminOnly

  datatype ClientRoute = ClientRoute(pattern: seq<Segment>, gate: Gate, page: Page)

  const Routes: seq<ClientRoute> := [
    ClientRoute([Lit("login")], Open, LoginPage),
    ClientRoute([Lit("register")], Open, RegisterPage),
    ClientRoute([], Public, HomePage),
    ClientRoute([Lit("about")], Public, AboutPage),
    ClientRoute([Lit("products")], Public, ProductsPage),
    ClientRoute([Lit("product"), Param("id")], Public, ProductDetailPage),
    ClientRoute([Lit("cart")], Public, CartPage),
    ClientRoute([Lit("checkout")], Protected, CheckoutPage),
    ClientRoute([Lit("order-success")], Protected, OrderSuccessPage),
    ClientRoute([Lit("profile")], Protected, ProfilePage),
    ClientRoute([Lit("admin")], AdminOnly, AdminPage)
  ]

  /** The route a path selects, if any. The router ranks matches, but no two
      patterns of the table match the same path (`MatchedIndex`), so the
      first match is the only one (`ResolveUnique`). */
  function Resolve(routes: seq<ClientRoute>, path: seq<string>): (r: Option<ClientRoute>)
    ensures r.Some? ==> r.value in routes && Matches(r.value.pattern, path)
    ensures r.None? ==> forall k | 0 <= k < |routes| :: !Matches(routes[k].pattern, path)
  {
    if routes == [] then None
    else if Matches(routes[0].pattern, path) then Some(routes[0])
    else Resolve(routes[1..], path)
  }

  /** The position of the only route a path can match, read off the path. */
  function RouteIndex(path: seq<string>): Option<nat> {
    if path == [] then Some(2)
    else if |path| == 2 then (if path[0] == "product" && path[1] != "" then Some(5) else None)
    else if |path| != 1 then None
    else if path[0] == "login" then Some(0)
    else if path[0] == "register" then Some(1)
    else if path[0] == "about" then Some(3)
    else if path[0] == "products" then Some(4)
    else if path[0] == "cart" then Some(6)
    else if path[0] == "checkout" then Some(7)
    else if path[0] == "order-success" then Some(8)
    else if path[0] == "profile" then Some(9)
    else if path[0] == "admin" then Some(10)
    else None
  }

  /** Whichever route a path matches is the one `RouteIndex` names, so no
      two routes of the table match the same path. */
  lemma MatchedIndex(path: seq<string>, k: int)
    requires 0 <= k < |Routes| && Matches(Routes[k].pattern, path)
    ensures RouteIndex(path) == Some(k)
  {
  }

  /** A path that matches a route of the table resolves to that route. */
  lemma ResolveUnique(path: seq<string>, k: int)
    requires 0 <= k < |Routes| && Matches(Routes[k].pattern, path)
    ensures Resolve(Routes, path) == Some(Routes[k])
  {
    var r := Resolve(Routes, path);
    var j :| 0 <= j < |Routes| && Routes[j] == r.value;
    MatchedIndex(path, j);
    MatchedIndex(path, k);
  }

  /** The decision `PublicRoute` renders. */
  datatype Screen = LoadingScreen | Redirect(to: string) | RenderChild

  const LoginPath := "/login"

  /** `PublicRoute`: a placeholder while the session loads, the login page
      when nobody is signed in, the role's landing page on /login and
      /register, and otherwise the wrapped page. */
  function PublicRoute(loading: bool, user: Option<User>, path: seq<string>): (s: Screen)
    ensures loading ==> s == LoadingScreen
    ensures !loading && user.None? ==> s == Redirect(LoginPath)
    ensures s == RenderChild <==> !loading && user.Some? && path != ["login"] && path != ["register"]
    ensures !loading && user.Some? && (path == ["login"] || path == ["register"]) ==>
      s == Redirect(LandingPath(user.value.role))
  {
    if loading then LoadingScreen
    else if user.None? then Redirect(LoginPath)
    else if path == ["login"] || path == ["register"] then Redirect(LandingPath(user.value.role))
    else RenderChild
  }

  /** The gate of the page a path resolves to. */
  function GateOf(path: seq<string>): Option<Gate> {
    match Resolve(Routes, path)
    case Some(r) => Some(r.gate)
    case None => None
  }

  /** The pages `PublicRoute` wraps are never at /login or /register, so its
      redirect of signed-in users to their landing page is never taken: a
      signed-in user always sees the page. */
  lemma PublicRouteNeverRedirectsSignedIn(path: seq<string>, user: User)
    requires GateOf(path) == Some(Public)
    ensures PublicRoute(false, Some(user), path) == RenderChild
  {
    if path == ["login"] {
      ResolveUnique(path, 0);
    } else if path == ["register"] {
      ResolveUnique(path, 1);
    }
  }

  /** Every page behind `PublicRoute`, the home page included, needs a
      signed-in user: anyone else is sent to /login. */
  lemma PublicPagesNeedSignIn(path: seq<string>)
    requires GateOf(path) == Some(Public)
    ensures PublicRoute(false, None, path) == Redirect(LoginPath)
  {
  }

  /** /admin is the only admin-only route; checkout, order success and
      profile are the routes behind `ProtectedRoute`; only login and
      register are open. */
  lemma GatesOfTheTable()
    ensures forall k | 0 <= k < |Routes| :: Routes[k].gate == AdminOnly <==> Routes[k].page == AdminPage
    ensures forall k | 0 <= k < |Routes| :: Routes[k].gate == Protected <==>
      Routes[k].page in {CheckoutPage, OrderSuccessPage, ProfilePage}
    ensures forall k | 0 <= k < |Routes| :: Routes[k].gate == Open <==>
      Routes[k].page in {LoginPage, RegisterPage}
  {
  }

  /** The admin page is reached at /admin, behind the admin-only gate. */
  lemma AdminPathIsAdminOnly()
    ensures GateOf(["admin"]) == Some(AdminOnly)
  {
    assert Matches(Routes[10].pattern, ["admin"]);
    ResolveUnique(["admin"], 10);
  }

  // ---------------------------------------------------------------------------
  // Links to a product page

  /** The link the cart rows and the product cards build for a product,
      as written: `/products/${id}`. */
  function ProductLinkAsWritten(id: string): seq<string> {
    ["products", id]
  }

  /** The link as written selects no route: /products takes no id and the
      product page lives under /product. */
  lemma ProductLinkAsWrittenResolvesNowhere(id: string)
    ensures Resolve(Routes, ProductLinkAsWritten(id)).None?
  {
    var path := ProductLinkAsWritten(id);
    var r := Resolve(Routes, path);
    if r.Some? {
      var j :| 0 <= j < |Routes| && Routes[j] == r.value;
      MatchedIndex(path, j);
      assert false;
    }
  }

  /** The link to a product's page, `/product/${id}`. */
  function ProductLink(id: string): seq<string> {
    ["product", id]
  }

  /** The product link selects the product page, behind `PublicRoute`, with
      the id as its parameter. */
  lemma ProductLinkResolves(id: string)
    requires id != ""
    ensures Resolve(Routes, ProductLink(id)) == Some(Routes[5])
    ensures Routes[5].page == ProductDetailPage && Routes[5].gate == Public
    ensures Bound(Routes[5].pattern, ProductLink(id), "id") == Some(id)
  {
    assert Matches(Routes[5].pattern, ProductLink(id));
    ResolveUnique(ProductLink(id), 5);
  }
}
