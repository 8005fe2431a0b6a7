/** A persisted login session: an in-memory `{token, userInfo}` pair mirrored into two keys of
    `localStorage`. The shopper store and the administrator store are the same code over two
    different key pairs (modules UserStore and AdminStore); this module holds that code once.

    The value-level functions (`Step`, `Hydrate`) say what each operation does to the pair and
    to the table; the class `SessionStore` performs the same operations in place and is proved
    against them. */
module Session {
  import opened Wrappers
  import opened Json
  import opened WebStorage

  /** The two `localStorage` keys a store owns. */
  datatype Keys = Keys(token: string, user: string) {
    predicate Valid() { token != user }
  }

  /** The in-memory half of a store: the `token` and `userInfo` refs. */
  datatype State = State(token: string, userInfo: Json) {
    /** `isLogin`, computed as `!!token`. */
    predicate IsLogin() { token != "" }
  }

  /** A store's in-memory state together with the whole `localStorage` table. */
  datatype Mirror = Mirror(mem: State, disk: map<string, string>)

  /** The state after `clearToken`: no token and the profile `{}`. */
  const LoggedOut: State := State("", EmptyObject)

  /** `localStorage.getItem(key)`, `None` standing for `null`. */
  function Lookup(disk: map<string, string>, key: string): Option<string> {
    if key in disk then Some(disk[key]) else None
  }

  /** `newToken || ''`: a missing or empty token becomes the empty string, any other token is
      kept as it is. */
  function NormalizeToken(t: Option<string>): (r: string)
    ensures r == "" <==> t.None? || t.value == ""
    ensures r != "" ==> t == Some(r)
  {
    t.GetOr("")
  }

  /** `newUserInfo || {}`: a missing or falsy profile becomes `{}`. */
  function NormalizeInfo(u: Option<Json>): (r: Json)
    ensures Truthy(r)
    ensures u.Some? && Truthy(u.value) ==> r == u.value
    ensures !(u.Some? && Truthy(u.value)) ==> r == EmptyObject
  {
    Or(u, EmptyObject)
  }

  /** The token write-through: stored when non-empty, removed otherwise. */
  function PersistToken(keys: Keys, disk: map<string, string>, token: string): map<string, string> {
    if token != "" then disk[keys.token := token] else disk - {keys.token}
  }

  /** The profile write-through: stored as JSON when it has at least one key, removed otherwise
      (so neither `'{}'` nor `'undefined'` is ever written). */
  function PersistInfo(keys: Keys, codec: Codec, disk: map<string, string>, info: Json): map<string, string> {
    if KeyCount(info) > 0 then disk[keys.user := codec.stringify(info)] else disk - {keys.user}
  }

  /** The three mutating actions a store exposes. */
  datatype Op =
    | SetLoginState(token: Option<string>, info: Option<Json>)
    | SetUserInfo(info: Option<Json>)
    | ClearToken

  /** What one action does to the pair and to the table. The profile is never left falsy (so
      reading `userInfo.role` never throws), `setUserInfo` keeps the token, and `clearToken`
      logs out. */
  function Step(keys: Keys, codec: Codec, m: Mirror, op: Op): (r: Mirror)
    ensures Truthy(r.mem.userInfo)
    ensures op.SetUserInfo? ==> r.mem == State(m.mem.token, NormalizeInfo(op.info))
    ensures op.ClearToken? ==> r.mem == LoggedOut
    ensures op.SetLoginState? ==> r.mem == State(NormalizeToken(op.token), NormalizeInfo(op.info))
  {
    match op
    case SetLoginState(t, u) =>
      var s := State(NormalizeToken(t), NormalizeInfo(u));
      Mirror(s, PersistInfo(keys, codec, PersistToken(keys, m.disk, s.token), s.userInfo))
    case SetUserInfo(u) =>
      var info := NormalizeInfo(u);
      Mirror(State(m.mem.token, info), PersistInfo(keys, codec, m.disk, info))
    case ClearToken =>
      Mirror(LoggedOut, m.disk - {keys.token} - {keys.user})
  }

  /** Actions applied one after another. */
  function Run(keys: Keys, codec: Codec, m: Mirror, ops: seq<Op>): Mirror
    decreases |ops|
  {
    if ops == [] then m else Run(keys, codec, Step(keys, codec, m, ops[0]), ops[1..])
  }

  /** The token key is present exactly when the token is non-empty, and then holds it. */
  predicate TokenSynced(keys: Keys, m: Mirror) {
    && (keys.token in m.disk <==> m.mem.token != "")
    && (keys.token in m.disk ==> m.disk[keys.token] == m.mem.token)
  }

  /** The profile key is present exactly when the profile has a key, and then holds its JSON. */
  predicate InfoSynced(keys: Keys, codec: Codec, m: Mirror) {
    && (keys.user in m.disk <==> KeyCount(m.mem.userInfo) > 0)
    && (keys.user in m.disk ==> m.disk[keys.user] == codec.stringify(m.mem.userInfo))
  }

  /** Durable storage and in-memory state agree. */
  predicate Synced(keys: Keys, codec: Codec, m: Mirror) {
    TokenSynced(keys, m) && InfoSynced(keys, codec, m)
  }

  // ---------------------------------------------------------------------------------------
  // Hydration

  /** The result of `loadUserInfo`: the profile it returns and whether it removed the key. */
  datatype Loaded = Loaded(info: Json, discard: bool)

  /** `loadUserInfo` on the raw stored string. It never fails: a missing or blank value, a
      value that parses to something other than an object, and an unparsable value all give
      `{}`, and only the unparsable one is removed from storage. */
  function LoadInfo(codec: Codec, raw: Option<string>): (l: Loaded)
    ensures IsObject(l.info)
    ensures l.discard <==> raw.Some? && !IsBlank(raw.value) && codec.parse(raw.value).None?
    ensures l.discard ==> l.info == EmptyObject
    ensures l.info == EmptyObject
            || (raw.Some? && !IsBlank(raw.value) && codec.parse(raw.value) == Some(l.info))
    ensures raw.Some? && !IsBlank(raw.value) && codec.parse(raw.value).Some? ==>
              (IsObject(codec.parse(raw.value).value) ==> l.info == codec.parse(raw.value).value)
              && (!IsObject(codec.parse(raw.value).value) ==> l.info == EmptyObject)
  {
    if raw.None? || IsBlank(raw.value) then Loaded(EmptyObject, false)
    else
      match codec.parse(raw.value)
      case None => Loaded(EmptyObject, true)
      case Some(obj) =>
        if Truthy(obj) && IsObject(obj) then Loaded(obj, false) else Loaded(EmptyObject, false)
  }

  /** A store built at page load: the token initialiser `getItem(tokenKey) || ''` and
      `loadUserInfo`, which may remove a corrupt profile key. */
  function Hydrate(keys: Keys, codec: Codec, disk: map<string, string>): (r: Mirror)
    ensures r.mem.token == Lookup(disk, keys.token).GetOr("")
    ensures IsObject(r.mem.userInfo)
    ensures r.disk == disk || r.disk == disk - {keys.user}
  {
    var l := LoadInfo(codec, Lookup(disk, keys.user));
    Mirror(State(Lookup(disk, keys.token).GetOr(""), l.info),
           if l.discard then disk - {keys.user} else disk)
  }

  /** What a reload shows of an in-memory profile: it survives exactly when it was written
      (it has a key) and reads back as an object; anything else comes back as `{}`. */
  function Restored(info: Json): Json {
    if KeyCount(info) > 0 && IsObject(info) then info else EmptyObject
  }

  // ---------------------------------------------------------------------------------------
  // The store object

  /** `localStorage.getItem(keys.user)` followed by `loadUserInfo`'s checks. */
  method LoadUserInfo(keys: Keys, codec: Codec, storage: LocalStorage) returns (info: Json)
    modifies storage
    ensures var l := LoadInfo(codec, Lookup(old(storage.items), keys.user));
            && info == l.info
            && storage.items == if l.discard then old(storage.items) - {keys.user} else old(storage.items)
  {
    if keys.user !in storage.items {
      return EmptyObject;
    }
    var raw := storage.items[keys.user];
    if IsBlank(raw) {
      return EmptyObject;
    }
    var parsed := codec.parse(raw);
    match parsed {
      case None =>
        storage.RemoveItem(keys.user);
        info := EmptyObject;
      case Some(obj) =>
        info := if Truthy(obj) && IsObject(obj) then obj else EmptyObject;
    }
  }

  class SessionStore {
    const keys: Keys
    const codec: Codec
    const storage: LocalStorage
    var token: string
    var userInfo: Json

    predicate Valid() {
      keys.Valid()
    }

    /** The store's pair together with the storage table it mirrors into. */
    ghost function View(): Mirror
      reads this, storage
    {
      Mirror(State(token, userInfo), storage.items)
    }

    /** The store as the page builds it: both refs initialised from storage. */
    constructor Open(keys: Keys, codec: Codec, storage: LocalStorage)
      requires keys.Valid()
      modifies storage
      ensures Valid()
      ensures this.keys == keys && this.codec == codec && this.storage == storage
      ensures View() == Hydrate(keys, codec, old(storage.items))
    {
      var initialToken := if keys.token in storage.items then storage.items[keys.token] else "";
      var initialInfo := LoadUserInfo(keys, codec, storage);
      this.keys := keys;
      this.codec := codec;
      this.storage := storage;
      token := initialToken;
      userInfo := initialInfo;
    }

    /** `isLogin`: the store's current pair is logged in. */
    function IsLogin(): (b: bool)
      reads this
      ensures b <==> token != ""
    {
      State(token, userInfo).IsLogin()
    }

    /** `setLoginState(newToken, newUserInfo)`: replaces both refs and writes both keys
      through, after which storage and memory agree. */
    method SetLoginState(newToken: Option<string>, newUserInfo: Option<Json>)
      requires Valid()
      modifies this, storage
      ensures View() == Step(keys, codec, old(View()), Op.SetLoginState(newToken, newUserInfo))
      ensures Synced(keys, codec, View())
    {
      token := NormalizeToken(newToken);
      userInfo := NormalizeInfo(newUserInfo);
      if token != "" {
        storage.SetItem(keys.token, token);
      } else {
        storage.RemoveItem(keys.token);
      }
      if KeyCount(userInfo) > 0 {
        storage.SetItem(keys.user, codec.stringify(userInfo));
      } else {
        storage.RemoveItem(keys.user);
      }
      StepSyncs(keys, codec, old(View()), Op.SetLoginState(newToken, newUserInfo));
    }

    /** `setUserInfo(info)`: replaces the profile and its key only. */
    method SetUserInfo(info: Option<Json>)
      requires Valid()
      modifies this, storage
      ensures View() == Step(keys, codec, old(View()), Op.SetUserInfo(info))
      ensures token == old(token)
      ensures Lookup(storage.items, keys.token) == Lookup(old(storage.items), keys.token)
      ensures InfoSynced(keys, codec, View())
    {
      userInfo := NormalizeInfo(info);
      if KeyCount(userInfo) > 0 {
        storage.SetItem(keys.user, codec.stringify(userInfo));
      } else {
        storage.RemoveItem(keys.user);
      }
    }

    /** `clearToken()`: logs out in memory and in storage. */
    method ClearToken()
      requires Valid()
      modifies this, storage
      ensures View() == Step(keys, codec, old(View()), Op.ClearToken)
      ensures token == "" && userInfo == EmptyObject
      ensures keys.token !in storage.items && keys.user !in storage.items
    {
      token := "";
      userInfo := EmptyObject;
      storage.RemoveItem(keys.token);
      storage.RemoveItem(keys.user);
    }
  }

  // ---------------------------------------------------------------------------------------
  // Properties of the operations

  /** `setLoginState` and `clearToken` leave storage in agreement with memory whatever was
      there before; `setUserInfo` does so for the profile and keeps the token agreement. */
  lemma StepSyncs(keys: Keys, codec: Codec, m: Mirror, op: Op)
    requires keys.Valid()
    ensures op.SetLoginState? || op.ClearToken? ==> Synced(keys, codec, Step(keys, codec, m, op))
    ensures op.SetUserInfo? ==> InfoSynced(keys, codec, Step(keys, codec, m, op))
    ensures op.SetUserInfo? && TokenSynced(keys, m) ==> TokenSynced(keys, Step(keys, codec, m, op))
  {
  }

  /** Agreement is an invariant of every sequence of actions. */
  lemma {:induction false} RunKeepsSynced(keys: Keys, codec: Codec, m: Mirror, ops: seq<Op>)
    requires keys.Valid()
    requires Synced(keys, codec, m)
    ensures Synced(keys, codec, Run(keys, codec, m, ops))
    decreases |ops|
  {
    if ops != [] {
      StepSyncs(keys, codec, m, ops[0]);
      RunKeepsSynced(keys, codec, Step(keys, codec, m, ops[0]), ops[1..]);
    }
  }

  /** After a login or a logout, whatever follows, storage and memory agree, even when the
      table held stale or corrupt values before. */
  lemma {:induction false} RunAfterResetSynced(keys: Keys, codec: Codec, m: Mirror, ops: seq<Op>)
    requires keys.Valid()
    requires ops != [] && !ops[0].SetUserInfo?
    ensures Synced(keys, codec, Run(keys, codec, m, ops))
  {
    StepSyncs(keys, codec, m, ops[0]);
    RunKeepsSynced(keys, codec, Step(keys, codec, m, ops[0]), ops[1..]);
  }

  /** Reloading from a table that agrees with memory gives the same token and the restored
      profile, and removes nothing. */
  lemma SyncedReload(keys: Keys, codec: Codec, m: Mirror)
    requires keys.Valid() && RoundTrips(codec, m.mem.userInfo)
    requires Synced(keys, codec, m)
    ensures Hydrate(keys, codec, m.disk) == Mirror(State(m.mem.token, Restored(m.mem.userInfo)), m.disk)
  {
  }

  /** `setLoginState(t, u)` followed by a page reload gives back the token and the profile;
      an object profile comes back exactly, an empty or falsy one as `{}`. */
  lemma LoginSurvivesReload(keys: Keys, codec: Codec, m: Mirror, t: Option<string>, u: Option<Json>)
    requires keys.Valid() && RoundTrips(codec, NormalizeInfo(u))
    ensures var r := Hydrate(keys, codec, Step(keys, codec, m, Op.SetLoginState(t, u)).disk);
            && r.mem.token == NormalizeToken(t)
            && r.mem.userInfo == Restored(NormalizeInfo(u))
            && (NormalizeInfo(u).JObj? ==> r.mem.userInfo == NormalizeInfo(u))
  {
    var after := Step(keys, codec, m, Op.SetLoginState(t, u));
    StepSyncs(keys, codec, m, Op.SetLoginState(t, u));
    SyncedReload(keys, codec, after);
  }

  /** Whatever sequence of actions ran, if it began with a login or a logout, a reload shows
      the final token and the restored final profile. */
  lemma ReloadAfterRun(keys: Keys, codec: Codec, m: Mirror, ops: seq<Op>)
    requires keys.Valid() && RoundTrips(codec, Run(keys, codec, m, ops).mem.userInfo)
    requires ops != [] && !ops[0].SetUserInfo?
    ensures var fin := Run(keys, codec, m, ops);
            Hydrate(keys, codec, fin.disk).mem == State(fin.mem.token, Restored(fin.mem.userInfo))
  {
    RunAfterResetSynced(keys, codec, m, ops);
    SyncedReload(keys, codec, Run(keys, codec, m, ops));
  }

  /** `clearToken` empties both refs and removes both keys; a second call changes nothing. */
  lemma ClearTokenIdempotent(keys: Keys, codec: Codec, m: Mirror)
    ensures var once := Step(keys, codec, m, Op.ClearToken);
            && once.mem == LoggedOut
            && keys.token !in once.disk && keys.user !in once.disk
            && Step(keys, codec, once, Op.ClearToken) == once
  {
  }

  /** A reload after `clearToken` is logged out, and finds nothing to remove. */
  lemma ReloadAfterClear(keys: Keys, codec: Codec, m: Mirror)
    ensures var once := Step(keys, codec, m, Op.ClearToken);
            Hydrate(keys, codec, once.disk) == Mirror(LoggedOut, once.disk)
  {
  }

  /** `setUserInfo` leaves the token and its key untouched. */
  lemma SetUserInfoKeepsToken(keys: Keys, codec: Codec, m: Mirror, u: Option<Json>)
    requires keys.Valid()
    ensures var after := Step(keys, codec, m, Op.SetUserInfo(u));
            && after.mem.token == m.mem.token
            && Lookup(after.disk, keys.token) == Lookup(m.disk, keys.token)
  {
  }

  /** The profile key is written exactly when the normalised profile has a key, so an empty
      profile never leaves `'{}'` or `'undefined'` behind. */
  lemma InfoKeyIffNonEmpty(keys: Keys, codec: Codec, m: Mirror, op: Op)
    requires keys.Valid() && !op.ClearToken?
    ensures var after := Step(keys, codec, m, op);
            && (keys.user in after.disk <==> KeyCount(NormalizeInfo(op.info)) > 0)
            && (keys.user in after.disk ==> after.disk[keys.user] == codec.stringify(NormalizeInfo(op.info)))
  {
  }

  /** The token key is written exactly when the normalised token is non-empty. */
  lemma TokenKeyIffNonEmpty(keys: Keys, codec: Codec, m: Mirror, t: Option<string>, u: Option<Json>)
    requires keys.Valid()
    ensures var after := Step(keys, codec, m, Op.SetLoginState(t, u));
            && after.mem.token == NormalizeToken(t)
            && (keys.token in after.disk <==> NormalizeToken(t) != "")
            && (keys.token in after.disk ==> after.disk[keys.token] == NormalizeToken(t))
  {
  }

  /** Hydration classifies the stored profile: missing or blank gives `{}` and keeps the key,
      unparsable gives `{}` and drops the key, a non-object gives `{}`, an object is kept. */
  lemma HydrationCases(keys: Keys, codec: Codec, disk: map<string, string>)
    requires keys.Valid()
    ensures var r := Hydrate(keys, codec, disk);
            && r.mem.token == (if keys.token in disk then disk[keys.token] else "")
            && (keys.user !in disk || IsBlank(disk[keys.user]) ==> r == Mirror(State(r.mem.token, EmptyObject), disk))
            && (keys.user in disk && !IsBlank(disk[keys.user]) && codec.parse(disk[keys.user]).None? ==>
                  r.mem.userInfo == EmptyObject && r.disk == disk - {keys.user})
            && (keys.user in disk && !IsBlank(disk[keys.user]) && codec.parse(disk[keys.user]).Some? ==>
                  r.disk == disk
                  && r.mem.userInfo == (var v := codec.parse(disk[keys.user]).value;
                                        if IsObject(v) then v else EmptyObject))
  {
  }

  /** `isLogin` after each action: `clearToken` logs out, `setLoginState` logs in exactly with
      a non-empty token, and `setUserInfo` leaves it as it was. */
  lemma IsLoginAfter(keys: Keys, codec: Codec, m: Mirror, op: Op)
    ensures op.ClearToken? ==> !Step(keys, codec, m, op).mem.IsLogin()
    ensures op.SetLoginState? ==>
              (Step(keys, codec, m, op).mem.IsLogin() <==> op.token.Some? && op.token.value != "")
    ensures op.SetUserInfo? ==> (Step(keys, codec, m, op).mem.IsLogin() <==> m.mem.IsLogin())
  {
  }

  /** A missing token key hydrates to a logged-out store. */
  lemma MissingTokenIsLoggedOut(keys: Keys, codec: Codec, disk: map<string, string>)
    requires keys.token !in disk
    ensures !Hydrate(keys, codec, disk).mem.IsLogin()
  {
  }

  /** Every action and the hydration touch only the store's own two keys. */
  lemma OnlyOwnKeys(keys: Keys, codec: Codec, m: Mirror, op: Op, k: string)
    requires k != keys.token && k != keys.user
    ensures Lookup(Step(keys, codec, m, op).disk, k) == Lookup(m.disk, k)
    ensures Lookup(Hydrate(keys, codec, m.disk).disk, k) == Lookup(m.disk, k)
  {
  }
}
