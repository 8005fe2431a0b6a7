# Storefront session, guard, HTTP client and cart store — a Dafny model

This project models the client-side core of a single-page e-commerce storefront with a
parallel admin console:

- **Session stores** (`useUserStore`, `useAdminStore`). Each holds a token and a user profile
  and mirrors both into `localStorage` under its own pair of keys. Both stores run the same
  code, so the model has one `Session.SessionStore` class, opened with the shopper's keys
  (`token`, `userInfo`) or the administrator's keys (`admin_token`, `admin_userInfo`).
  `localStorage` is a shared `WebStorage.LocalStorage` object that both stores update in
  place. Hydration at page load (`loadUserInfo`) is modelled with its four outcomes: a missing
  or blank value gives `{}`, an unparsable one gives `{}` and the key is removed, a parsed
  non-object gives `{}`, and a parsed object is returned as it is.
- **Route table and guard** (`router/index.js`). The twelve routes are a constant table. The
  `beforeEach` guard is a pure decision (`Router.Guard`) over the target's `meta`, path and
  full path, the shopper token and the shopper profile's `role`. It also computes the
  document title.
- **HTTP client interceptors** (`request.js`):
  - Outbound, a non-empty shopper token becomes an `Authorization: Bearer …` header.
  - Inbound, the `{code, message, data}` envelope is classified:
    - code `0` resolves with `data`;
    - code `40002` clears the shopper session, warns, navigates to the login page and rejects;
    - every other code shows an error and rejects.
  - A transport failure is mapped to a message by HTTP status and rejected with the
    original error.
  - Toasts and navigation are recorded as events of the outcome. The session clearing is
    performed on the store object.
- **Cart store** (`cartStore.js`). It keeps a snapshot (`cartList`, `totalQuantity`,
  `totalAmount`) and a `loading` flag. Every action replaces the snapshot wholesale from a
  server reply, with the defaults `[]`, `0`, `0`. A failed call leaves it unchanged. Server
  replies are parameters: each is the value the request layer settled with.

`JSON.stringify`/`JSON.parse` are an abstract `Json.Codec`. The lemmas that need their round
trip take `Json.RoundTrips(codec, v)` as a hypothesis, only for the one profile `v` that is
written and read back.

Some behaviours of the code may surprise a reader. The model keeps each of them as written:

- The request interceptor always sends the shopper token, even for `/admin…` calls
  (`src/api/request.js:15-19`).
- Code `40002` always clears the shopper store and goes to the shopper login page, whatever
  the request path (`src/api/request.js:38-46`).
- Codes `40003` and `40004` get no special treatment. `40004` rejects with a plain error that
  carries no code (`src/api/request.js:49-50`), so callers cannot tell it apart.
- The guard reads only the shopper store, even on admin routes (`src/router/index.js:91-114`).
- An authenticated profile whose role is not `ADMIN` is sent to `/`, not to the admin login
  page (`src/router/index.js:108-110`).

## Model

| member | source | states |
|---|---|---|
| Session.NormalizeToken | src/stores/userStore.js:41 | `newToken \|\| ''` is empty exactly when the token is missing or empty, and is otherwise the token itself |
| Session.NormalizeInfo | src/stores/userStore.js:42 | `newUserInfo \|\| {}` is always truthy: the profile itself when it is truthy, `{}` otherwise |
| Session.Step | src/stores/userStore.js:40-73 | after any action the profile is truthy; `setLoginState` installs the normalised pair, `setUserInfo` keeps the token and installs `info \|\| {}`, `clearToken` logs out |
| Session.Hydrate | src/stores/userStore.js:34-35 | a store built at page load holds the stored token (or `''`) and an object profile, and storage is unchanged or loses only the profile key |
| Session.SessionStore.IsLogin | src/stores/userStore.js:37 | `isLogin` holds exactly when the token is non-empty |
| Session.IsLoginAfter | src/stores/userStore.js:37-73 | after `clearToken` the store is logged out; after `setLoginState(t, …)` it is logged in exactly when `t` is a non-empty token; `setUserInfo` leaves it as it was |
| Session.LoadInfo | src/stores/userStore.js:8-30 | hydration never fails and always yields an object; the key is discarded exactly when the stored text is non-blank and unparsable; a parsed object is returned exactly and any other parse result gives `{}` |
| Session.LoadUserInfo | src/stores/userStore.js:8-30 | reads the profile key, returns `LoadInfo`'s profile, and removes the key from storage exactly when `LoadInfo` discards it |
| Session.SessionStore.Open | src/stores/userStore.js:34-35 | a new store holds the stored token (or `''`) and the hydrated profile, and storage loses only a corrupt profile key |
| Session.SessionStore.SetLoginState | src/stores/userStore.js:40-55 | replaces token and profile with their normalised values, writes or removes both keys, and leaves storage in agreement with memory |
| Session.SessionStore.SetUserInfo | src/stores/userStore.js:58-65 | replaces the profile and its key only; the token and the token key are unchanged; the profile key agrees with memory |
| Session.SessionStore.ClearToken | src/stores/userStore.js:68-73 | empties token and profile and removes both keys |
| Session.StepSyncs | src/stores/userStore.js:40-73 | `setLoginState` and `clearToken` leave memory and storage in agreement from any prior state; `setUserInfo` does so for the profile and keeps an existing token agreement |
| Session.RunKeepsSynced | src/stores/userStore.js:40-73 | agreement between memory and storage is preserved by every sequence of store actions |
| Session.RunAfterResetSynced | src/stores/userStore.js:40-73 | any action sequence that starts with a login or a logout ends in agreement, even from stale or corrupt storage |
| Session.SyncedReload | src/stores/userStore.js:8-35 | reloading from agreeing storage restores the token and the profile (as `{}` when it had no keys) and removes nothing, when the in-memory profile survives `JSON.stringify` then `JSON.parse` |
| Session.LoginSurvivesReload | src/stores/userStore.js:40-55 | after `setLoginState(t, u)` a page reload shows the normalised token and the profile; an object profile comes back exactly, when that profile survives `JSON.stringify` then `JSON.parse` |
| Session.ReloadAfterRun | src/stores/userStore.js:34-73 | after any action sequence that starts with a login or a logout, a reload shows the final token and the restored final profile, when the final profile survives `JSON.stringify` then `JSON.parse` |
| Json.RoundTripsSatisfiable | src/stores/userStore.js:50-54 | for every profile written with `JSON.stringify`, some codec reads it back, so the round-trip hypothesis of the reload lemmas is never vacuous |
| Session.ClearTokenIdempotent | src/stores/userStore.js:68-73 | after `clearToken` the store is logged out with both keys gone, and a second call changes nothing |
| Session.ReloadAfterClear | src/stores/userStore.js:68-73 | a reload after `clearToken` is logged out and removes nothing |
| Session.SetUserInfoKeepsToken | src/stores/userStore.js:58-65 | `setUserInfo` leaves the token and the token key untouched |
| Session.InfoKeyIffNonEmpty | src/stores/userStore.js:50-54 | the profile key is present after a write exactly when the normalised profile has a key, and then holds its serialisation |
| Session.TokenKeyIffNonEmpty | src/stores/userStore.js:44-48 | the token key is present after `setLoginState` exactly when the normalised token is non-empty, and then holds it |
| Session.HydrationCases | src/stores/userStore.js:8-35 | missing or blank profile gives `{}` and keeps storage; unparsable gives `{}` and drops the key; a parsed non-object gives `{}`; a parsed object is kept |
| Session.MissingTokenIsLoggedOut | src/stores/userStore.js:34-37 | without a token key the hydrated store is not logged in |
| Session.OnlyOwnKeys | src/stores/userStore.js:5-6 | no action and no hydration of a store changes any key other than its own two |
| UserStore.Open | src/stores/userStore.js:32-35 | the shopper store is the session store over the keys `token`/`userInfo`, hydrated from storage |
| AdminStore.Open | src/stores/adminStore.js:25-27 | the administrator store is the session store over `admin_token`/`admin_userInfo`, hydrated from storage |
| AdminStore.KeysDisjoint | src/stores/adminStore.js:4-6 | the administrator's keys and the shopper's keys share no key |
| AdminStore.OtherStoreUntouched | src/stores/adminStore.js:31-62 | an action of one store leaves the entries of a store with disjoint keys unchanged |
| AdminStore.StepSeesOnlyOwned | src/stores/adminStore.js:31-62 | what an action does to a store depends only on that store's own two entries |
| AdminStore.IsolatedFrom | src/stores/adminStore.js:4-6 | in any interleaving of shopper and administrator actions, each session ends as if the other store had done nothing |
| AdminStore.SessionsIsolated | src/stores/adminStore.js:4-6 | administrator activity never changes the shopper session, in memory or storage, and vice versa |
| AdminStore.AdminLeavesShopperAlone | src/stores/adminStore.js:4-6 | a run of administrator actions leaves the shopper's memory, entries and reload result exactly as they were |
| Router.LiteralPatternAgrees | src/router/index.js:4-79 | for a pattern without a parameter, the character-wise matcher accepts exactly the pattern's own text |
| Router.MatchesIsParamMatch | src/router/index.js:4-79 | the route matcher, text comparison for parameterless patterns included, decides exactly what the character-wise matcher decides, on every pattern and path |
| Router.TrailingParamMatch | src/router/index.js:47-64 | a literal prefix followed by one `:name` matches exactly the paths that start with the prefix and continue with one non-empty segment without `/` |
| Router.OrderDetailMatches | src/router/index.js:48 | `/orders/:orderId` matches exactly `/orders/` followed by a non-empty id without `/` |
| Router.ProductDetailMatches | src/router/index.js:60 | `/products/:id` matches exactly `/products/` followed by a non-empty id without `/` |
| Router.Guard | src/router/index.js:97-117 | proceeds exactly when `Admits` holds; every redirect goes to `/`, `/login` or `/admin/login`; a `/login` redirect carries the target's full path as `redirect`; other redirects carry no query |
| Router.DocumentTitle | src/router/index.js:93-95 | the title is set exactly when the route has a non-empty title, and is that title followed by ` - 京东商城模拟` |
| Router.UnguardedProceeds | src/router/index.js:115-117 | a route without `requiresAuth` proceeds whatever the session |
| Router.AnonymousRedirects | src/router/index.js:99-105 | a guarded route without a token goes to `/admin/login` for `/admin…` paths and to the shopper login page with the return target otherwise |
| Router.RoleCheck | src/router/index.js:106-114 | with a token, an `ADMIN` route sends a profile whose role is not `'ADMIN'` to `/`, and proceeds otherwise |
| Router.OnlyTokenPresenceMatters | src/router/index.js:99 | the decision depends on the token only through whether it is empty |
| Router.HomeUnguarded | src/router/index.js:6-10 | `/` resolves to the home route, which is unguarded |
| Router.LoginUnguarded | src/router/index.js:11-16 | `/login` resolves to the shopper login route, which is unguarded |
| Router.AdminLoginUnguarded | src/router/index.js:67-72 | `/admin/login` resolves to the admin login route, which is unguarded |
| Router.RedirectTargetsUnguarded | src/router/index.js:101-110 | each of the guard's three redirect targets resolves to an unguarded route |
| Router.RedirectSettles | src/router/index.js:97-117 | a redirected navigation is admitted on the next guard pass, whatever the session then is, so the guard cannot loop |
| Router.GuardedRoutes | src/router/index.js:4-79 | exactly the cart, address, order-create, order list, order detail and dashboard routes require login, and only the dashboard requires the `ADMIN` role |
| Router.OrderDetailGuarded | src/router/index.js:47-52 | every path `/orders/<id>` with a non-empty id without `/` resolves to the order-detail route, which requires login |
| Router.ProductDetailOpen | src/router/index.js:59-64 | every path `/products/<id>` with a non-empty id without `/` resolves to the product-detail route, which does not require login |
| Router.BeforeEach | src/router/index.js:90-118 | on the live shopper store, the guard proceeds exactly when `Admits` holds; a guarded route is entered only when `isLogin` holds, an `ADMIN` route only with the profile's role `'ADMIN'` |
| Request.WithBearer | src/api/request.js:15-19 | with a non-empty token the `Authorization` header is `Bearer <token>`; without one the headers are unchanged; no other header is added, dropped or altered |
| Request.AttachToken | src/api/request.js:13-21 | updates the configuration's headers in place to `WithBearer` of the shopper token and hands on the same configuration |
| Request.Decide | src/api/request.js:29-51 | resolves exactly on code `0`, with `data` and no side effect; clears the session and navigates exactly on `40002`, to the given login target, after a warning toast with the message or `登录已过期，请重新登录`, and rejects with `new Error(res.message)`'s text; each rejection shows exactly one toast; other codes reject with the message or `'Error'` |
| Request.Classify | src/api/request.js:29-51 | the interceptor as written: settles as the corrected one always, and matches it entirely except for the `40002` navigation, which goes to the unencoded string `/login?redirect=<fullPath>` as the router reads it |
| Request.ClassifyCorrected | src/api/request.js:44 | on `40002` the navigation goes to `/login` with the whole current full path as its only `redirect` parameter |
| Request.ClassifyAgreesOnPlainPaths | src/api/request.js:44 | for a current full path without `&`, `#`, `+` and `%`, the as-written and corrected interceptors give the same outcome |
| Request.OnResponse | src/api/request.js:29-51 | performs `Classify`'s decision, and clears the shopper store exactly when the decision does; otherwise the store is unchanged |
| Request.StockConflictIndistinguishable | src/api/request.js:48-50 | code `40004` gives exactly the outcome of any other unrecognised code with the same message |
| Request.RejectionIgnoresData | src/api/request.js:38-50 | a rejected envelope's outcome does not depend on its `data` |
| Request.OnTransportError | src/api/request.js:52-75 | a transport failure shows exactly one error toast with the status message and rejects with the original error |
| Request.TransportMessage | src/api/request.js:54-72 | no response gives `网络请求失败`; 401, 403, 404 and 500 give `未授权，请登录`, `拒绝访问`, `请求资源不存在` and `服务器内部错误`; a status other than 401, 403, 404 and 500 gives `连接错误 ` followed by the status in decimal, without leading zeros, which reads back as the status |
| Request.TransportMessageRoundTrip | src/api/request.js:54-72 | the status can be read back from every transport message, and a missing response reads back as such |
| Request.TransportMessageInjective | src/api/request.js:54-72 | two different statuses, or a status and no response, never get the same message |
| Request.ExpiredRedirectAsWritten | src/api/request.js:44 | without `#` in the current full path, the string pushed on `40002` is read as the login page whose query string is everything after `?` |
| Request.AsWrittenLosesQuery | src/api/request.js:44 | a current full path containing `&` comes back cut at the first `&`, so the pushed location differs from the intended one |
| Request.AsWrittenAgreesOnPlainPaths | src/api/request.js:44 | a current full path without `&`, `#`, `+` and `%` comes back intact |
| Decimal.Digits | src/api/request.js:70 | the decimal text of a status is non-empty, all digits, and has no leading zero |
| Decimal.ValueOfDigits | src/api/request.js:70 | reading the printed status back gives the status |
| Decimal.DigitsInjective | src/api/request.js:70 | different statuses print differently |
| CartStore.ReadReply | src/stores/cartStore.js:16-20 | a rejection keeps its reason; an `undefined`/`null` reply is a `TypeError`; otherwise each field is the reply's when present and truthy, else `[]`, `0`, `0` |
| CartStore.Refreshed | src/stores/cartStore.js:16-22 | a rejected, `undefined` or `null` reply keeps the previous snapshot; any other reply gives the reply's fields where truthy, the defaults otherwise, and never a falsy item list |
| CartStore.ReplyRoundTrip | src/stores/cartStore.js:16-20 | reading the server's reply for a snapshot whose fields are each truthy or already the default (the empty cart included) gives that snapshot, whatever the store held before |
| CartStore.EmptyReplyReadsAsInitial | src/stores/cartStore.js:18-20 | a reply without the three fields reads as the empty cart |
| CartStore.SnapshotFromServerOnly | src/stores/cartStore.js:31-35 | a readable reply alone determines the new snapshot; an unreadable one keeps the old snapshot |
| CartStore.RefreshIdempotent | src/stores/cartStore.js:16-20 | applying the same reply twice is the same as applying it once |
| CartStore.LastReadableWins | src/stores/cartStore.js:13-26 | after two fetches the snapshot is the one read from the last reply, if that reply is readable |
| CartStore.Cart.constructor | src/stores/cartStore.js:7-10 | the store starts with `[]`, `0`, `0` and not loading |
| CartStore.Cart.BeginFetch | src/stores/cartStore.js:14 | the loading flag is up while a fetch is outstanding, and the snapshot is unchanged |
| CartStore.Cart.EndFetch | src/stores/cartStore.js:16-25 | a readable reply replaces the snapshot, an error is swallowed, and the flag comes down in every case |
| CartStore.Cart.FetchCart | src/stores/cartStore.js:13-26 | `fetchCart` ends not loading, with the snapshot refreshed from the reply |
| CartStore.Cart.ModifyQuantity | src/stores/cartStore.js:29-40 | the snapshot is replaced from the reply, or the call rejects with the error it met and nothing changes |
| CartStore.Cart.RemoveThenRefetch | src/stores/cartStore.js:43-62 | a successful delete shows the success message and then refetches; a failed delete changes nothing and shows nothing |
| CartStore.Cart.RemoveOne | src/stores/cartStore.js:43-51 | `removeOne` shows `删除成功` and refetches after a successful delete; a failed delete changes nothing |
| CartStore.Cart.RemoveBatch | src/stores/cartStore.js:54-62 | `removeBatch` shows `批量删除成功` and refetches after a successful delete; a failed delete changes nothing |

## Left out

- Network I/O, axios itself and the instance settings (`baseURL`, `timeout`,
  `src/api/request.js:7-10`) are left out. Every server reply is a parameter.
- The request interceptor's error handler (`src/api/request.js:22-24`) is left out. It only
  passes the error on.
- Toasts, `console.error` and `router.push` are recorded as events or left out. Nothing is
  displayed, logged or navigated.
- `JSON.stringify`/`JSON.parse` are abstract. Their round trip on the stored profile is the
  hypothesis `Json.RoundTrips`, stated per value, not a proof.
- Numbers are mathematical reals. Floating point is not modelled.
- Request.Envelope: its `message` is missing, `null` or a string. A message of any other JSON
  type (a number, an object) is left out; the source would convert it with `String(...)`
  in `new Error(res.message)` (`src/api/request.js:45`) and show it as is in the toast.
- Session.SessionStore.SetLoginState and Session.SessionStore.SetUserInfo: the source keeps
  the caller's profile object itself (`userInfo.value = newUserInfo || {}`,
  `src/stores/userStore.js:42` and `:59`, `src/stores/adminStore.js:33` and `:49`), wrapped
  in a reactive proxy. A caller that later mutates that object changes the store's profile,
  the `role` the guard reads included, without rewriting the profile key. Profiles are
  values here and cannot be aliased, so `Session.RunKeepsSynced` does not cover such a
  caller: memory and storage agree only as long as no caller mutates a profile it passed in.
- Router.Matches: it covers only what this table needs: literal segments and `:name`
  parameters, case-sensitive, with no trailing-slash tolerance and no ranking of routes.
  vue-router is case-insensitive and tolerates a trailing `/` by default. No two routes of
  this table match the same path, so ranking does not change any lookup.
- Router.ParseQuery: it does not percent-decode. For a repeated key it keeps the first value,
  where vue-router builds an array. It keeps `+` as it is, where vue-router reads it as a
  space. A key without `=` gets `""`, where vue-router gives `null`. An empty query string
  gives `{"": ""}`, where vue-router gives `{}`. The one query string it reads here starts
  with `redirect=`, so only `+`, `%` and `&` in the current full path are affected, and
  `Request.ClassifyAgreesOnPlainPaths` excludes all three.
- A response whose body is JSON `null` is left out. There `res.code` throws a `TypeError`
  inside the response interceptor (`src/api/request.js:30-33`), so the call rejects with that
  error and no toast. `Request.Envelope` always has a code field and cannot represent it.
- Async interleaving is left out. This includes concurrent cart requests finishing out of
  order and the `loading` flag being shared between overlapping fetches. Each action is
  sequential.
- The endpoint declarations in `src/api/*.js` other than `request.js` are left out. They
  carry no logic.
- `handleQuantityChange` in `src/api/cart.js` is left out. It refers to an undeclared store,
  and its `40004` branch cannot fire, because rejections carry no code.
- The `from` argument of the guard and the scroll behaviour (`src/router/index.js:84-86`) are
  left out.

## Findings

| source | as written | input that shows it | evidently intended | confidence | as-written member | corrected member |
|---|---|---|---|---|---|---|
| src/api/request.js:44 | on `40002` the return target is pushed as the string `/login?redirect=` followed by the current full path, without encoding | current full path `/products?categoryId=1&page=2`: the login page receives `redirect` = `/products?categoryId=1`, and `page=2` becomes a parameter of the login page itself | the whole current full path as the `redirect` parameter, as the guard's object location does at `src/router/index.js:104` | not executed | Request.AsWrittenLosesQuery | Request.ClassifyCorrected |
