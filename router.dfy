/** The route table and the global `beforeEach` guard. The guard is a pure decision over the
    target route's `meta`, its path and full path, and the shopper store's token and
    `userInfo.role`; the only other thing it does is set the document title. */
module Router {
  import opened Wrappers
  import opened Json
  import opened Session
  import opened UserStore

  /** A route's `meta` object; `requiresAuth` absent is `false`. */
  datatype Meta = Meta(title: Option<string>, requiresAuth: bool, role: Option<string>)

  /** The `meta` of a navigation that matches no route: `{}`. */
  const NoMeta: Meta := Meta(None, false, None)

  datatype Route = Route(path: string, name: Option<string>, meta: Meta)

  /** The route table, in declaration order. */
  const Routes: seq<Route> := [
    Route("/", None, Meta(Some("首页"), false, None)),
    Route("/login", Some("Login"), Meta(Some("用户登录"), false, None)),
    Route("/register", Some("Register"), Meta(Some("用户注册"), false, None)),
    Route("/cart", Some("Cart"), Meta(Some("我的购物车"), true, None)),
    Route("/address", Some("Address"), Meta(Some("收货地址"), true, None)),
    Route("/order/create", Some("OrderCreate"), Meta(Some("确认订单"), true, None)),
    Route("/orders", Some("OrderList"), Meta(Some("我的订单"), true, None)),
    Route("/orders/:orderId", Some("OrderDetail"), Meta(Some("订单详情"), true, None)),
    Route("/products", Some("ProductList"), Meta(Some("商品列表"), false, None)),
    Route("/products/:id", Some("ProductDetail"), Meta(Some("商品详情"), false, None)),
    Route("/admin/login", Some("AdminLogin"), Meta(Some("管理员登录"), false, None)),
    Route("/admin/dashboard", Some("AdminDashboard"), Meta(Some("管理后台"), true, Some("ADMIN")))
  ]

  /** Length of the leading run of characters up to the next `/`. */
  function SegmentLength(s: string): (n: nat)
    ensures n <= |s|
    ensures forall i :: 0 <= i < n ==> s[i] != '/'
    ensures n < |s| ==> s[n] == '/'
  {
    if s == [] || s[0] == '/' then 0 else 1 + SegmentLength(s[1..])
  }

  /** Character-wise matching of a pattern against a path, where `:name` in the pattern
      matches any non-empty run of characters up to the next `/`. */
  function ParamMatch(pattern: string, path: string): bool
    decreases |pattern|
  {
    if pattern == [] then path == []
    else if pattern[0] == ':' then
      var n := SegmentLength(pattern[1..]);
      var m := SegmentLength(path);
      m > 0 && ParamMatch(pattern[1 + n..], path[m..])
    else path != [] && path[0] == pattern[0] && ParamMatch(pattern[1..], path[1..])
  }

  /** Whether `path` matches the route pattern `pattern`: a pattern without parameters is
      compared as text (`MatchesIsParamMatch` shows that this is what the character-wise
      matcher decides too). */
  function Matches(pattern: string, path: string): (b: bool)
    ensures ':' !in pattern ==> (b <==> pattern == path)
  {
    if ':' in pattern then ParamMatch(pattern, path) else pattern == path
  }

  /** The `meta` of the first route of `table`, from index `i` on, that matches `path`. */
  function MetaFrom(table: seq<Route>, path: string, i: nat): Meta
    requires i <= |table|
    decreases |table| - i
  {
    if i == |table| then NoMeta
    else if Matches(table[i].path, path) then table[i].meta
    else MetaFrom(table, path, i + 1)
  }

  /** The `meta` the router gives a navigation to `path`: that of the first matching route. */
  function MetaFor(table: seq<Route>, path: string): Meta {
    MetaFrom(table, path, 0)
  }

  /** A place to navigate to: a path and its query parameters. */
  datatype Location = Location(path: string, query: map<string, string>)

  /** `{ path: '/login', query: { redirect: fullPath } }`: the shopper login page, carrying
      the page to return to after login. */
  function LoginRedirect(fullPath: string): Location {
    Location("/login", map["redirect" := fullPath])
  }

  /** Index of the first `c` in `s`, or `|s|` when there is none (`indexOf`, with `-1`
      replaced by the length). */
  function IndexOf(s: string, c: char): (i: nat)
    ensures i <= |s|
    ensures forall j :: 0 <= j < i ==> s[j] != c
    ensures i < |s| ==> s[i] == c
  {
    if s == [] || s[0] == c then 0 else 1 + IndexOf(s[1..], c)
  }

  /** The router's reading of a query string: parameters separated by `&`, each split at its
      first `=`; the first occurrence of a key wins and a key without `=` gets `""`. */
  function ParseQuery(search: string): map<string, string>
    decreases |search|
  {
    var amp := IndexOf(search, '&');
    var param := search[..amp];
    var eq := IndexOf(param, '=');
    var value := if eq < |param| then param[eq + 1..] else "";
    var rest := if amp < |search| then ParseQuery(search[amp + 1..]) else map[];
    rest[param[..eq] := value]
  }

  /** The router's reading of a location given as a string: the path up to the first `?`,
      the query from there up to the first `#`. */
  function ParseLocation(url: string): Location {
    var beforeHash := url[..IndexOf(url, '#')];
    var q := IndexOf(beforeHash, '?');
    Location(beforeHash[..q], if q < |beforeHash| then ParseQuery(beforeHash[q + 1..]) else map[])
  }

  /** What the guard passes to `next`: proceed, or go elsewhere instead. */
  datatype Decision = Proceed | RedirectTo(to: Location)

  /** The target of a navigation as the guard sees it. */
  datatype Target = Target(meta: Meta, path: string, fullPath: string)

  /** `userStore.userInfo.role`. */
  function RoleOf(userInfo: Json): Option<Json> {
    Property(userInfo, "role")
  }

  /** `String.prototype.startsWith`. */
  predicate StartsWith(s: string, prefix: string) {
    |prefix| <= |s| && s[..|prefix|] == prefix
  }

  /** Whom the guard admits, stated without the guard's branch structure: an unguarded route
      admits everyone; a guarded one needs a shopper token and, when it is an `ADMIN` route,
      the shopper profile's `role` equal to `'ADMIN'`. */
  predicate Admits(meta: Meta, token: string, role: Option<Json>) {
    !meta.requiresAuth
    || (token != "" && (meta.role == Some("ADMIN") ==> role == Some(JStr("ADMIN"))))
  }

  /** The redirect targets the guard can produce. */
  predicate IsGuardRedirect(to: Location) {
    to.path in {"/", "/login", "/admin/login"}
  }

  /** The `beforeEach` decision. It reads the shopper store only: its token and the `role`
      of its profile. */
  function Guard(to: Target, token: string, role: Option<Json>): (d: Decision)
    ensures d.Proceed? <==> Admits(to.meta, token, role)
    ensures d.RedirectTo? ==> IsGuardRedirect(d.to)
    ensures d.RedirectTo? && d.to.path == "/login" ==> d.to == LoginRedirect(to.fullPath)
    ensures d.RedirectTo? && d.to.path != "/login" ==> d.to.query == map[]
  {
    if to.meta.requiresAuth then
      if token == "" then
        if StartsWith(to.path, "/admin") then RedirectTo(Location("/admin/login", map[]))
        else RedirectTo(LoginRedirect(to.fullPath))
      else if to.meta.role == Some("ADMIN") && role != Some(JStr("ADMIN")) then
        RedirectTo(Location("/", map[]))
      else Proceed
    else Proceed
  }

  /** The `beforeEach` hook on the live shopper store: the decision `Guard` takes with the
      store's token and the `role` of its profile. A guarded route is only entered by a
      logged-in shopper, and an `ADMIN` route only with that profile's role `'ADMIN'`. */
  function BeforeEach(to: Target, shopper: SessionStore): (d: Decision)
    requires shopper.keys == ShopperKeys
    reads shopper
    ensures d.Proceed? <==> Admits(to.meta, shopper.token, RoleOf(shopper.userInfo))
    ensures d.Proceed? && to.meta.requiresAuth ==> shopper.IsLogin()
    ensures d.Proceed? && to.meta.role == Some("ADMIN") && to.meta.requiresAuth ==>
              "role" in shopper.userInfo.fields && shopper.userInfo.fields["role"] == JStr("ADMIN")
  {
    Guard(to, shopper.token, RoleOf(shopper.userInfo))
  }

  /** The suffix of every page title. */
  const TitleSuffix: string := " - 京东商城模拟"

  /** The new `document.title`, or `None` when the guard leaves it alone. */
  function DocumentTitle(meta: Meta): (t: Option<string>)
    ensures t.Some? <==> meta.title.Some? && meta.title.value != ""
    ensures t.Some? ==> |t.value| == |meta.title.value| + |TitleSuffix|
                        && t.value[..|meta.title.value|] == meta.title.value
                        && t.value[|meta.title.value|..] == TitleSuffix
  {
    if meta.title.Some? && meta.title.value != "" then Some(meta.title.value + TitleSuffix) else None
  }

  // ---------------------------------------------------------------------------------------
  // Properties of the guard

  /** A route without `requiresAuth` always proceeds, whatever the session. */
  lemma UnguardedProceeds(to: Target, token: string, role: Option<Json>)
    requires !to.meta.requiresAuth
    ensures Guard(to, token, role) == Proceed
  {
  }

  /** A guarded route without a token: `/admin...` paths go to the admin login page, every
      other path to the shopper login page with `redirect` set to the full path. */
  lemma AnonymousRedirects(to: Target, role: Option<Json>)
    requires to.meta.requiresAuth
    ensures StartsWith(to.path, "/admin") ==> Guard(to, "", role) == RedirectTo(Location("/admin/login", map[]))
    ensures !StartsWith(to.path, "/admin") ==> Guard(to, "", role) == RedirectTo(LoginRedirect(to.fullPath))
  {
  }

  /** With a token, an `ADMIN` route sends a profile whose role is not `'ADMIN'` to `/`, and
      admits every other combination. */
  lemma RoleCheck(to: Target, token: string, role: Option<Json>)
    requires to.meta.requiresAuth && token != ""
    ensures (to.meta.role == Some("ADMIN") && role != Some(JStr("ADMIN"))) ==>
              Guard(to, token, role) == RedirectTo(Location("/", map[]))
    ensures !(to.meta.role == Some("ADMIN") && role != Some(JStr("ADMIN"))) ==>
              Guard(to, token, role) == Proceed
  {
  }

  /** The decision depends on the token only through whether it is empty. */
  lemma OnlyTokenPresenceMatters(to: Target, t1: string, t2: string, role: Option<Json>)
    requires (t1 == "") == (t2 == "")
    ensures Guard(to, t1, role) == Guard(to, t2, role)
  {
  }

  /** Looking up past a parameterless route whose text differs from the path. */
  lemma SkipLiteral(j: nat, path: string)
    requires j < |Routes| && ':' !in Routes[j].path && Routes[j].path != path
    ensures MetaFrom(Routes, path, j) == MetaFrom(Routes, path, j + 1)
  {
  }

  /** `/` resolves to the home page, which is unguarded. */
  lemma HomeUnguarded()
    ensures MetaFor(Routes, "/") == Routes[0].meta && !Routes[0].meta.requiresAuth
  {
  }

  /** `/login` resolves to the shopper login page, which is unguarded. */
  lemma LoginUnguarded()
    ensures MetaFor(Routes, "/login") == Routes[1].meta && !Routes[1].meta.requiresAuth
  {
    SkipLiteral(0, "/login");
  }

  /** Looking up a path that is none of the seven parameterless shopper routes. */
  lemma SkipShopperPages(path: string)
    requires path !in {"/", "/login", "/register", "/cart", "/address", "/order/create", "/orders"}
    ensures MetaFor(Routes, path) == MetaFrom(Routes, path, 7)
  {
    SkipFirstFour(path);
    SkipNextThree(path);
  }

  lemma SkipFirstFour(path: string)
    requires path != "/" && path != "/login" && path != "/register" && path != "/cart"
    ensures MetaFrom(Routes, path, 0) == MetaFrom(Routes, path, 4)
  {
    SkipFirstTwo(path);
    SkipLiteral(2, path);
    SkipLiteral(3, path);
  }

  lemma SkipFirstTwo(path: string)
    requires path != "/" && path != "/login"
    ensures MetaFrom(Routes, path, 0) == MetaFrom(Routes, path, 2)
  {
    SkipLiteral(0, path);
    SkipLiteral(1, path);
  }

  lemma SkipNextThree(path: string)
    requires path != "/address" && path != "/order/create" && path != "/orders"
    ensures MetaFrom(Routes, path, 4) == MetaFrom(Routes, path, 7)
  {
    SkipLiteral(4, path);
    SkipLiteral(5, path);
    SkipLiteral(6, path);
  }

  // The lookup of `/admin/login` walks past routes 0 to 9 before it finds route 10. The walk
  // is split into the lemmas below only to keep each proof small for the solver; each takes
  // the path as a parameter equal to `/admin/login` rather than the literal, for the same
  // reason.

  /** `/admin/login` resolves to the admin login page, which is unguarded. */
  lemma AdminLoginUnguarded(path: string)
    requires path == "/admin/login"
    ensures MetaFor(Routes, path) == Routes[10].meta && !Routes[10].meta.requiresAuth
  {
    SkipShopperPages(path);
    AdminLoginPastParams(path);
  }

  lemma AdminLoginPastParams(path: string)
    requires path == "/admin/login"
    ensures MetaFrom(Routes, path, 7) == Routes[10].meta
  {
    AdminLoginPastProducts(path);
    AdminLoginFound(path);
  }

  lemma AdminLoginPastProducts(path: string)
    requires path == "/admin/login"
    ensures MetaFrom(Routes, path, 7) == MetaFrom(Routes, path, 9)
  {
    SkipParamRoute(7, path);
    AdminLoginPastProductList(path);
  }

  lemma AdminLoginPastProductList(path: string)
    requires path == "/admin/login"
    ensures MetaFrom(Routes, path, 8) == MetaFrom(Routes, path, 9)
  {
    SkipLiteral(8, path);
  }

  lemma AdminLoginFound(path: string)
    requires path == "/admin/login"
    ensures MetaFrom(Routes, path, 9) == Routes[10].meta
  {
    SkipParamRoute(9, path);
    AdminLoginAt(path);
  }

  lemma AdminLoginAt(path: string)
    requires path == "/admin/login"
    ensures MetaFrom(Routes, path, 10) == Routes[10].meta
  {
    assert Routes[10].path == path;
    assert Matches(path, path) by { LiteralPatternAgrees(path, path); }
    FoundAt(10, path);
  }

  /** Looking up past a parameter route whose first segment differs from the path's. */
  lemma SkipParamRoute(j: nat, path: string)
    requires j < |Routes| && Routes[j].path in {"/orders/:orderId", "/products/:id"}
    requires path == "/admin/login"
    ensures MetaFrom(Routes, path, j) == MetaFrom(Routes, path, j + 1)
  {
    var p := Routes[j].path;
    assert p[0] == path[0] == '/' && p[1] != path[1];
  }

  /** Looking up at a route that matches. */
  lemma FoundAt(j: nat, path: string)
    requires j < |Routes| && Matches(Routes[j].path, path)
    ensures MetaFrom(Routes, path, j) == Routes[j].meta
  {
  }

  /** The three redirect targets, looked up in the route table, are unguarded. */
  lemma RedirectTargetsUnguarded(to: Location)
    requires IsGuardRedirect(to)
    ensures !MetaFor(Routes, to.path).requiresAuth
  {
    if to.path == "/" {
      HomeUnguarded();
    } else if to.path == "/login" {
      LoginUnguarded();
    } else {
      AdminLoginUnguarded(to.path);
    }
  }

  /** A redirected navigation is admitted on the next guard pass, whatever the session then
      is, so the guard never redirects twice in a row. */
  lemma RedirectSettles(to: Target, token: string, role: Option<Json>,
                        fullPath: string, token': string, role': Option<Json>)
    ensures var d := Guard(to, token, role);
            d.RedirectTo? ==> Guard(Target(MetaFor(Routes, d.to.path), d.to.path, fullPath), token', role') == Proceed
  {
    var d := Guard(to, token, role);
    if d.RedirectTo? {
      RedirectTargetsUnguarded(d.to);
    }
  }

  const GuardedPaths: set<string> :=
    {"/cart", "/address", "/order/create", "/orders", "/orders/:orderId", "/admin/dashboard"}

  /** The table gives the role requirement only to the admin dashboard, and marks exactly the
      cart, address, order and dashboard pages as requiring login. */
  lemma GuardedRoutes()
    ensures forall i :: 0 <= i < |Routes| ==>
              (Routes[i].meta.requiresAuth <==> Routes[i].path in GuardedPaths)
    ensures forall i :: 0 <= i < |Routes| ==>
              (Routes[i].meta.role.Some? <==> Routes[i].path == "/admin/dashboard")
  {
  }

  /** A pattern made of a literal prefix and one trailing parameter matches exactly the paths
      that start with the prefix and continue with one non-empty segment (no `/`). */
  lemma {:induction false} TrailingParamMatch(prefix: string, name: string, path: string)
    requires ':' !in prefix && '/' !in name
    ensures ParamMatch(prefix + [':'] + name, path) <==>
              (|prefix| < |path| && path[..|prefix|] == prefix && '/' !in path[|prefix|..])
    decreases |prefix|
  {
    var pattern := prefix + [':'] + name;
    if prefix == [] {
      assert pattern[1..] == name;
      SegmentLengthAll(name);
      assert pattern[1 + |name|..] == [];
      WholeSegment(path);
      assert path[..0] == prefix && path[0..] == path;
    } else {
      assert pattern[0] == prefix[0] && prefix[0] != ':';
      assert pattern[1..] == prefix[1..] + [':'] + name;
      assert ':' !in prefix[1..] by {
        forall j | 0 <= j < |prefix| - 1 ensures prefix[1..][j] != ':' {
          assert prefix[1..][j] == prefix[j + 1];
        }
      }
      if path != [] {
        TrailingParamMatch(prefix[1..], name, path[1..]);
        if |prefix| < |path| {
          assert path[..|prefix|] == [path[0]] + path[1..][..|prefix| - 1];
          assert prefix == [prefix[0]] + prefix[1..];
          assert path[|prefix|..] == path[1..][|prefix| - 1..];
        }
      }
    }
  }

  /** A run is one whole segment exactly when it has no `/`. */
  lemma WholeSegment(s: string)
    ensures SegmentLength(s) == |s| <==> '/' !in s
  {
    if '/' in s {
      var k :| 0 <= k < |s| && s[k] == '/';
      assert SegmentLength(s) <= k;
    }
  }

  /** The order-detail pattern `/orders/:orderId` matches exactly `/orders/` followed by one
      non-empty segment: an empty id or an extra `/` does not match. */
  lemma OrderDetailMatches(path: string)
    ensures Matches(Routes[7].path, path) <==>
              (|path| > 8 && path[..8] == "/orders/" && '/' !in path[8..])
  {
    var prefix, name := "/orders/", "orderId";
    assert Routes[7].path == prefix + [':'] + name;
    assert ':' in Routes[7].path by { assert Routes[7].path[8] == ':'; }
    TrailingParamMatch(prefix, name, path);
  }

  /** The product-detail pattern `/products/:id` matches exactly `/products/` followed by one
      non-empty segment. */
  lemma ProductDetailMatches(path: string)
    ensures Matches(Routes[9].path, path) <==>
              (|path| > 10 && path[..10] == "/products/" && '/' !in path[10..])
  {
    var prefix, name := "/products/", "id";
    assert Routes[9].path == prefix + [':'] + name;
    assert ':' in Routes[9].path by { assert Routes[9].path[10] == ':'; }
    TrailingParamMatch(prefix, name, path);
  }

  /** Every order-detail path `/orders/<id>` resolves to the guarded detail route. */
  lemma OrderDetailGuarded(id: string)
    requires id != "" && '/' !in id
    ensures MetaFor(Routes, "/orders/" + id) == Routes[7].meta
    ensures Routes[7].meta.requiresAuth && Routes[7].meta.title == Some("订单详情")
  {
    var path := "/orders/" + id;
    assert path[..8] == "/orders/" && path[8..] == id;
    assert MetaFor(Routes, path) == MetaFrom(Routes, path, 7) by {
      assert path[1] == 'o' && path[6] == 's' && |path| > 8;
      assert path != "/register" by { assert "/register"[1] == 'r'; }
      assert path != "/order/create" by { assert "/order/create"[6] == '/'; }
      SkipShopperPages(path);
    }
    assert Matches(Routes[7].path, path) by { OrderDetailMatches(path); }
    FoundAt(7, path);
  }

  /** Every product-detail path `/products/<id>` resolves to the unguarded detail route. */
  lemma ProductDetailOpen(id: string)
    requires id != "" && '/' !in id
    ensures MetaFor(Routes, "/products/" + id) == Routes[9].meta
    ensures !Routes[9].meta.requiresAuth && Routes[9].meta.title == Some("商品详情")
  {
    var path := "/products/" + id;
    assert path[..10] == "/products/" && path[10..] == id;
    assert MetaFor(Routes, path) == MetaFrom(Routes, path, 7) by {
      assert path[1] == 'p' && |path| > 10;
      SkipShopperPages(path);
    }
    assert !Matches(Routes[7].path, path) by {
      assert path[1] == 'p';
      OrderDetailRejects(path);
    }
    assert path != Routes[8].path by { assert |Routes[8].path| == 9; }
    ProductDetailPastOrders(path);
    assert Matches(Routes[9].path, path) by { ProductDetailMatches(path); }
    FoundAt(9, path);
  }

  /** A path that is neither an order detail nor the product list passes both routes. */
  lemma ProductDetailPastOrders(path: string)
    requires !Matches(Routes[7].path, path) && path != Routes[8].path
    ensures MetaFrom(Routes, path, 7) == MetaFrom(Routes, path, 9)
  {
    SkipUnmatched(7, path);
    SkipLiteral(8, path);
  }

  /** Paths whose first segment does not start with `o` do not match the order-detail route. */
  lemma OrderDetailRejects(path: string)
    requires |path| > 1 && path[1] != 'o'
    ensures !Matches(Routes[7].path, path)
  {
    OrderDetailMatches(path);
    if |path| > 8 {
      assert path[..8][1] == path[1];
    }
  }

  /** Looking up past a route that does not match. */
  lemma SkipUnmatched(j: nat, path: string)
    requires j < |Routes| && !Matches(Routes[j].path, path)
    ensures MetaFrom(Routes, path, j) == MetaFrom(Routes, path, j + 1)
  {
  }

  /** For a pattern without parameters, the exact comparison `Matches` uses agrees with the
      character-wise matcher: such a pattern matches exactly its own text. */
  lemma {:induction false} LiteralPatternAgrees(pattern: string, path: string)
    requires ':' !in pattern
    ensures ParamMatch(pattern, path) <==> pattern == path
    decreases |pattern|
  {
    if pattern != [] {
      assert pattern[0] != ':' by { assert pattern[0] in pattern; }
      assert ':' !in pattern[1..] by {
        forall j | 0 <= j < |pattern| - 1 ensures pattern[1..][j] != ':' {
          assert pattern[1..][j] == pattern[j + 1];
        }
      }
      if path != [] {
        LiteralPatternAgrees(pattern[1..], path[1..]);
        assert pattern == [pattern[0]] + pattern[1..];
        assert path == [path[0]] + path[1..];
      }
    }
  }

  /** The text comparison `Matches` uses for parameterless patterns is only a shortcut: on
      every pattern and path it decides what the character-wise matcher decides. */
  lemma MatchesIsParamMatch(pattern: string, path: string)
    ensures Matches(pattern, path) <==> ParamMatch(pattern, path)
  {
    if ':' !in pattern {
      LiteralPatternAgrees(pattern, path);
    }
  }

  /** A run without `/` is one whole segment. */
  lemma SegmentLengthAll(s: string)
    requires '/' !in s
    ensures SegmentLength(s) == |s|
  {
  }
}
