/** The administrator's session store (`useAdminStore`): the same session code over the keys
    `admin_token` and `admin_userInfo`, so that both sessions can live in one browser. */
module AdminStore {
  import opened Json
  import opened Session
  import opened WebStorage
  import opened UserStore

  /** The administrator's two `localStorage` keys. */
  const AdminKeys: Keys := Keys("admin_token", "admin_userInfo")

  /** The store as the page creates it on first use. */
  method Open(codec: Codec, storage: LocalStorage) returns (s: SessionStore)
    modifies storage
    ensures fresh(s) && s.Valid()
    ensures s.keys == AdminKeys && s.codec == codec && s.storage == storage
    ensures s.View() == Hydrate(AdminKeys, codec, old(storage.items))
  {
    s := new SessionStore.Open(AdminKeys, codec, storage);
  }

  /** Two tables hold the same entries (or the same absence) under the store's two keys. */
  predicate SameEntries(keys: Keys, d1: map<string, string>, d2: map<string, string>) {
    && Lookup(d1, keys.token) == Lookup(d2, keys.token)
    && Lookup(d1, keys.user) == Lookup(d2, keys.user)
  }

  /** The two key pairs have no key in common. */
  predicate Disjoint(a: Keys, b: Keys) {
    a.token != b.token && a.token != b.user && a.user != b.token && a.user != b.user
  }

  lemma KeysDisjoint()
    ensures AdminKeys.Valid() && ShopperKeys.Valid()
    ensures Disjoint(AdminKeys, ShopperKeys) && Disjoint(ShopperKeys, AdminKeys)
  {
  }

  /** An action of one store leaves the entries of a store with disjoint keys as they were. */
  lemma OtherStoreUntouched(mine: Keys, other: Keys, codec: Codec, m: Mirror, op: Op)
    requires Disjoint(mine, other)
    ensures SameEntries(mine, Step(other, codec, m, op).disk, m.disk)
  {
    OnlyOwnKeys(other, codec, m, op, mine.token);
    OnlyOwnKeys(other, codec, m, op, mine.user);
  }

  /** What an action does to a store depends only on that store's own entries. */
  lemma StepSeesOnlyOwned(keys: Keys, codec: Codec, s: State, d1: map<string, string>,
                          d2: map<string, string>, op: Op)
    requires keys.Valid()
    requires SameEntries(keys, d1, d2)
    ensures Step(keys, codec, Mirror(s, d1), op).mem == Step(keys, codec, Mirror(s, d2), op).mem
    ensures SameEntries(keys, Step(keys, codec, Mirror(s, d1), op).disk,
                        Step(keys, codec, Mirror(s, d2), op).disk)
  {
  }

  /** One store's action on a page that holds both sessions. */
  datatype Action = Shopper(op: Op) | Admin(op: Op)

  /** Both sessions in memory and the one table they share. */
  datatype Page = Page(shopper: State, admin: State, disk: map<string, string>)

  function Perform(codec: Codec, p: Page, a: Action): Page {
    match a
    case Shopper(op) =>
      var r := Step(ShopperKeys, codec, Mirror(p.shopper, p.disk), op);
      Page(r.mem, p.admin, r.disk)
    case Admin(op) =>
      var r := Step(AdminKeys, codec, Mirror(p.admin, p.disk), op);
      Page(p.shopper, r.mem, r.disk)
  }

  function PerformAll(codec: Codec, p: Page, acts: seq<Action>): Page
    decreases |acts|
  {
    if acts == [] then p else PerformAll(codec, Perform(codec, p, acts[0]), acts[1..])
  }

  /** The actions of one store, in order. */
  function OpsOf(admin: bool, acts: seq<Action>): seq<Op>
    decreases |acts|
  {
    if acts == [] then []
    else if acts[0].Admin? == admin then [acts[0].op] + OpsOf(admin, acts[1..])
    else OpsOf(admin, acts[1..])
  }

  function KeysOf(admin: bool): Keys {
    if admin then AdminKeys else ShopperKeys
  }

  function SessionOf(admin: bool, p: Page): State {
    if admin then p.admin else p.shopper
  }

  /** Interleaving the two stores' actions in one browser changes neither session: each
      ends with the state and the entries it would have had if the other store had done
      nothing. Started from any table `d` that agrees with the page's on the store's keys. */
  lemma {:induction false} IsolatedFrom(codec: Codec, admin: bool, p: Page, acts: seq<Action>,
                                       d: map<string, string>)
    requires SameEntries(KeysOf(admin), d, p.disk)
    ensures var fin := PerformAll(codec, p, acts);
            var alone := Run(KeysOf(admin), codec, Mirror(SessionOf(admin, p), d), OpsOf(admin, acts));
            && SessionOf(admin, fin) == alone.mem
            && SameEntries(KeysOf(admin), fin.disk, alone.disk)
    decreases |acts|
  {
    KeysDisjoint();
    if acts != [] {
      var mine := KeysOf(admin);
      var a := acts[0];
      var next := Perform(codec, p, a);
      if a.Admin? == admin {
        var stepped := Step(mine, codec, Mirror(SessionOf(admin, p), d), a.op);
        StepSeesOnlyOwned(mine, codec, SessionOf(admin, p), p.disk, d, a.op);
        assert OpsOf(admin, acts) == [a.op] + OpsOf(admin, acts[1..]);
        assert ([a.op] + OpsOf(admin, acts[1..]))[1..] == OpsOf(admin, acts[1..]);
        IsolatedFrom(codec, admin, next, acts[1..], stepped.disk);
      } else {
        OtherStoreUntouched(mine, KeysOf(!admin), codec, Mirror(SessionOf(!admin, p), p.disk), a.op);
        IsolatedFrom(codec, admin, next, acts[1..], d);
      }
    }
  }

  /** Administrator activity never changes the shopper's session, in memory or in storage,
      and vice versa. */
  lemma SessionsIsolated(codec: Codec, p: Page, acts: seq<Action>, admin: bool)
    ensures var fin := PerformAll(codec, p, acts);
            var alone := Run(KeysOf(admin), codec, Mirror(SessionOf(admin, p), p.disk), OpsOf(admin, acts));
            && SessionOf(admin, fin) == alone.mem
            && SameEntries(KeysOf(admin), fin.disk, alone.disk)
  {
    IsolatedFrom(codec, admin, p, acts, p.disk);
  }

  /** In particular a run of administrator actions only leaves the shopper entries and what
      a reload of the shopper store shows exactly as they were. */
  lemma AdminLeavesShopperAlone(codec: Codec, p: Page, ops: seq<Op>)
    ensures var fin := PerformAll(codec, p, AdminActions(ops));
            && fin.shopper == p.shopper
            && SameEntries(ShopperKeys, fin.disk, p.disk)
            && Hydrate(ShopperKeys, codec, fin.disk).mem == Hydrate(ShopperKeys, codec, p.disk).mem
  {
    var acts := AdminActions(ops);
    NoShopperOps(ops);
    SessionsIsolated(codec, p, acts, false);
  }

  function AdminActions(ops: seq<Op>): (acts: seq<Action>)
    ensures |acts| == |ops|
    ensures forall i :: 0 <= i < |ops| ==> acts[i] == Admin(ops[i])
  {
    seq(|ops|, i requires 0 <= i < |ops| => Admin(ops[i]))
  }

  lemma {:induction false} NoShopperOps(ops: seq<Op>)
    ensures OpsOf(false, AdminActions(ops)) == []
    decreases |ops|
  {
    if ops != [] {
      assert AdminActions(ops)[1..] == AdminActions(ops[1..]);
      NoShopperOps(ops[1..]);
    }
  }
}
