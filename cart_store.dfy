/** The cart store: a snapshot of the server's cart (items, total quantity, total amount) plus
    a loading flag. Every action replaces the snapshot wholesale from a server reply, with
    defaults for missing or falsy fields, and never recomputes it locally; a failed call
    leaves it as it was. Server replies are parameters: each is the value the request layer
    settled with. */
module CartStore {
  import opened Wrappers
  import opened Json
  import opened Request

  /** The three cart fields the store exposes. */
  datatype Snapshot = Snapshot(items: Json, totalQuantity: Json, totalAmount: Json)

  /** The empty cart the store starts with: `[]`, `0`, `0`. */
  const Initial: Snapshot := Snapshot(JArr([]), JNum(0.0), JNum(0.0))

  /** Why an action failed: the request layer rejected, or the reply was `undefined`/`null`
      so that reading a field of it threw a `TypeError`. */
  datatype CartError = RequestFailed(reason: Failure) | TypeError

  /** The reading of a reply into a snapshot, or the error that stops it. */
  datatype Reading = Read(snapshot: Snapshot) | Unreadable(error: CartError)

  const DeletedText: string := "删除成功"
  const BatchDeletedText: string := "批量删除成功"

  /** `res.items || []`, `res.totalQuantity || 0`, `res.totalAmount || 0` for the value a
      call settled with. A rejected call yields its own reason; a reply that is `undefined`
      or `null` throws before any field is read; any other reply gives a full snapshot whose
      fields are the reply's where present and truthy, and the defaults otherwise. */
  function ReadReply(reply: Settled): (r: Reading)
    ensures reply.Rejected? ==> r == Unreadable(RequestFailed(reply.reason))
    ensures reply.Resolved? ==> (r.Read? <==> reply.data.Some? && reply.data.value != JNull)
    ensures reply.Resolved? && r.Unreadable? ==> r.error == TypeError
    ensures r.Read? ==>
              && r.snapshot.items == Or(Property(reply.data.value, "items"), JArr([]))
              && r.snapshot.totalQuantity == Or(Property(reply.data.value, "totalQuantity"), JNum(0.0))
              && r.snapshot.totalAmount == Or(Property(reply.data.value, "totalAmount"), JNum(0.0))
  {
    match reply
    case Rejected(reason) => Unreadable(RequestFailed(reason))
    case Resolved(data) =>
      if data.None? || data.value == JNull then Unreadable(TypeError)
      else
        var res := data.value;
        Read(Snapshot(Or(Property(res, "items"), JArr([])),
                      Or(Property(res, "totalQuantity"), JNum(0.0)),
                      Or(Property(res, "totalAmount"), JNum(0.0))))
  }

  /** The snapshot after a reply: the one read from it, or the previous one when it cannot be
      read (a rejection, or an `undefined`/`null` reply). The list of items is never left
      falsy once a reply was read. */
  function Refreshed(previous: Snapshot, reply: Settled): (r: Snapshot)
    ensures reply.Rejected? || reply.data.None? || reply.data.value == JNull ==> r == previous
    ensures !(reply.Rejected? || reply.data.None? || reply.data.value == JNull) ==>
              && Truthy(r.items)
              && r.items == Or(Property(reply.data.value, "items"), JArr([]))
              && r.totalQuantity == Or(Property(reply.data.value, "totalQuantity"), JNum(0.0))
              && r.totalAmount == Or(Property(reply.data.value, "totalAmount"), JNum(0.0))
  {
    match ReadReply(reply)
    case Read(s) => s
    case Unreadable(_) => previous
  }

  /** A snapshot a server can report: each field is truthy or is already its default
      (`[]`, `0`, `0`), as the empty cart is. */
  predicate Reportable(s: Snapshot) {
    && (Truthy(s.items) || s.items == JArr([]))
    && (Truthy(s.totalQuantity) || s.totalQuantity == JNum(0.0))
    && (Truthy(s.totalAmount) || s.totalAmount == JNum(0.0))
  }

  /** The reply a server sends for a snapshot: `{ items, totalQuantity, totalAmount }`. */
  function Reply(s: Snapshot): Settled {
    Resolved(Some(JObj(map["items" := s.items, "totalQuantity" := s.totalQuantity,
                           "totalAmount" := s.totalAmount])))
  }

  /** Reading the server's reply for a snapshot gives that snapshot back, whatever the store
      held before: nothing of the old state survives a successful read. */
  lemma ReplyRoundTrip(s: Snapshot, previous: Snapshot)
    requires Reportable(s)
    ensures ReadReply(Reply(s)) == Read(s)
    ensures Refreshed(previous, Reply(s)) == s
  {
    var res := Reply(s).data.value;
    assert Property(res, "items") == Some(s.items);
    assert Property(res, "totalQuantity") == Some(s.totalQuantity);
    assert Property(res, "totalAmount") == Some(s.totalAmount);
  }

  /** Missing or falsy fields of a reply read as the initial empty cart's. */
  lemma EmptyReplyReadsAsInitial(res: Json)
    requires res != JNull
    requires Property(res, "items").None? && Property(res, "totalQuantity").None?
    requires Property(res, "totalAmount").None?
    ensures ReadReply(Resolved(Some(res))) == Read(Initial)
  {
  }

  /** A readable reply determines the snapshot alone (it is never merged with or computed from
      the old one); an unreadable reply keeps the old one. */
  lemma SnapshotFromServerOnly(s1: Snapshot, s2: Snapshot, reply: Settled)
    ensures ReadReply(reply).Read? ==> Refreshed(s1, reply) == Refreshed(s2, reply)
    ensures ReadReply(reply).Unreadable? ==> Refreshed(s1, reply) == s1
  {
  }

  /** Applying the same reply twice is applying it once. */
  lemma RefreshIdempotent(s: Snapshot, reply: Settled)
    ensures Refreshed(Refreshed(s, reply), reply) == Refreshed(s, reply)
  {
  }

  /** Only the last readable reply of a sequence of fetches matters. */
  lemma LastReadableWins(s: Snapshot, first: Settled, second: Settled)
    requires ReadReply(second).Read?
    ensures Refreshed(Refreshed(s, first), second) == ReadReply(second).snapshot
  {
  }

  /** The cart store. */
  class Cart {
    var cartList: Json
    var totalQuantity: Json
    var totalAmount: Json
    var loading: bool

    /** The three cart fields as one value. */
    function View(): Snapshot
      reads this
    {
      Snapshot(cartList, totalQuantity, totalAmount)
    }

    constructor ()
      ensures View() == Initial && !loading
    {
      cartList := JArr([]);
      totalQuantity := JNum(0.0);
      totalAmount := JNum(0.0);
      loading := false;
    }

    /** The start of `fetchCart`: the flag goes up before the call, the snapshot stays. */
    method BeginFetch()
      modifies this
      ensures loading && View() == old(View())
    {
      loading := true;
    }

    /** The end of `fetchCart`: the reply replaces the snapshot when it can be read, any
      error is swallowed, and the flag comes down in every case. */
    method EndFetch(reply: Settled)
      modifies this
      ensures !loading && View() == Refreshed(old(View()), reply)
    {
      var r := ReadReply(reply);
      if r.Read? {
        cartList := r.snapshot.items;
        totalQuantity := r.snapshot.totalQuantity;
        totalAmount := r.snapshot.totalAmount;
      }
      loading := false;
    }

    /** `fetchCart` with the reply of `getCartList`. */
    method FetchCart(reply: Settled)
      modifies this
      ensures !loading && View() == Refreshed(old(View()), reply)
    {
      BeginFetch();
      EndFetch(reply);
    }

    /** `modifyQuantity` with the reply of `updateCartItem`: the snapshot is replaced from the
      reply, or the call rejects with the error it met and nothing changes. */
    method ModifyQuantity(reply: Settled) returns (error: Option<CartError>)
      modifies this
      ensures error.None? <==> ReadReply(reply).Read?
      ensures error.Some? ==> error.value == ReadReply(reply).error
      ensures View() == Refreshed(old(View()), reply)
      ensures loading == old(loading)
    {
      var r := ReadReply(reply);
      if r.Read? {
        cartList := r.snapshot.items;
        totalQuantity := r.snapshot.totalQuantity;
        totalAmount := r.snapshot.totalAmount;
        error := None;
      } else {
        error := Some(r.error);
      }
    }

    /** The shared body of `removeOne` and `removeBatch`: on a successful delete, a success
      message and then a refetch with the reply of `getCartList`; on a failed delete, nothing
      at all (the error is swallowed). */
    method RemoveThenRefetch(deleteReply: Settled, fetchReply: Settled, successText: string)
      returns (shown: seq<string>)
      modifies this
      ensures deleteReply.Resolved? ==>
                shown == [successText] && !loading && View() == Refreshed(old(View()), fetchReply)
      ensures deleteReply.Rejected? ==>
                shown == [] && View() == old(View()) && loading == old(loading)
    {
      if deleteReply.Rejected? {
        return [];
      }
      shown := [successText];
      FetchCart(fetchReply);
    }

    /** `removeOne` with the replies of `deleteCartItem` and `getCartList`. */
    method RemoveOne(deleteReply: Settled, fetchReply: Settled) returns (shown: seq<string>)
      modifies this
      ensures deleteReply.Resolved? ==>
                shown == [DeletedText] && !loading && View() == Refreshed(old(View()), fetchReply)
      ensures deleteReply.Rejected? ==>
                shown == [] && View() == old(View()) && loading == old(loading)
    {
      shown := RemoveThenRefetch(deleteReply, fetchReply, DeletedText);
    }

    /** `removeBatch` with the replies of `deleteCartItemsBatch` and `getCartList`. */
    method RemoveBatch(deleteReply: Settled, fetchReply: Settled) returns (shown: seq<string>)
      modifies this
      ensures deleteReply.Resolved? ==>
                shown == [BatchDeletedText] && !loading && View() == Refreshed(old(View()), fetchReply)
      ensures deleteReply.Rejected? ==>
                shown == [] && View() == old(View()) && loading == old(loading)
    {
      shown := RemoveThenRefetch(deleteReply, fetchReply, BatchDeletedText);
    }
  }
}
