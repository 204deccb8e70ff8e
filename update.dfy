/** The client-streaming update (UpdateOrders): every received order is
    upserted under its own identifier and its identifier is added to the
    reply summary. */
module Update {
  import opened Types
  import opened Text

  /** The orders the handler accepts: every message received before end of
      input. A failed receive yields a nil order, which is skipped. */
  function Accepted(inbox: seq<Received<Order>>): (os: seq<Order>)
    decreases |inbox|
  {
    if inbox == [] then []
    else
      match inbox[0]
      case Eof => []
      case Fail(_) => Accepted(inbox[1..])
      case Msg(o) => [o] + Accepted(inbox[1..])
  }

  /** Reading the input one event at a time: `accepted` are the orders
      taken from the first `i` events, none of which ended the input. */
  ghost predicate ReadUpTo(inbox: seq<Received<Order>>, i: nat, accepted: seq<Order>)
  {
    i <= |inbox| && (forall j :: 0 <= j < i ==> !inbox[j].Eof?) && Accepted(inbox) == accepted + Accepted(inbox[i..])
  }

  lemma ReadStart(inbox: seq<Received<Order>>)
    ensures ReadUpTo(inbox, 0, [])
  {
    assert inbox[0..] == inbox;
  }

  /** The next event: end of input fixes the accepted orders, a failed
      receive is skipped, a message is accepted. */
  lemma ReadNext(inbox: seq<Received<Order>>, i: nat, accepted: seq<Order>)
    requires ReadUpTo(inbox, i, accepted) && i < |inbox|
    ensures inbox[i].Eof? ==> Eof in inbox && Accepted(inbox) == accepted
    ensures inbox[i].Fail? ==> ReadUpTo(inbox, i + 1, accepted)
    ensures inbox[i].Msg? ==>
              ReadUpTo(inbox, i + 1, accepted + [inbox[i].value]) && Accepted(inbox) != []
  {
    assert inbox[i..][0] == inbox[i] && inbox[i..][1..] == inbox[i + 1..];
    assert inbox[..i + 1] == inbox[..i] + [inbox[i]];
  }

  /** Input exhausted without end of input. */
  lemma ReadAll(inbox: seq<Received<Order>>, accepted: seq<Order>)
    requires ReadUpTo(inbox, |inbox|, accepted)
    ensures Eof !in inbox && Accepted(inbox) == accepted
  {
    assert inbox[..|inbox|] == inbox;
    assert inbox[|inbox|..] == [];
  }

  /** The store after writing each order under its identifier, in order. */
  function Upsert(store: map<string, Order>, os: seq<Order>): (m: map<string, Order>)
    decreases |os|
  {
    if os == [] then store
    else
      var last := os[|os| - 1];
      Upsert(store, os[..|os| - 1])[last.id := last]
  }

  /** The last order in `os` with identifier `k`, if any. */
  function LastWith(os: seq<Order>, k: string): (r: Option<Order>)
    decreases |os|
  {
    if os == [] then None
    else if os[|os| - 1].id == k then Some(os[|os| - 1])
    else LastWith(os[..|os| - 1], k)
  }

  /** Last write wins: after the upserts a key is stored when it was stored
      before or some order carried it, and it holds the last such order,
      otherwise its old entry. */
  lemma {:induction false} LastWriteWins(store: map<string, Order>, os: seq<Order>, k: string)
    ensures k in Upsert(store, os) <==> k in store || LastWith(os, k).Some?
    ensures k in Upsert(store, os) ==>
              Upsert(store, os)[k] == if LastWith(os, k).Some? then LastWith(os, k).value else store[k]
    decreases |os|
  {
    if os != [] {
      LastWriteWins(store, os[..|os| - 1], k);
    }
  }

  /** Upserting keeps every entry keyed by its own identifier. */
  lemma {:induction false} UpsertKeyed(store: map<string, Order>, os: seq<Order>)
    requires OrdersKeyedById(store)
    ensures OrdersKeyedById(Upsert(store, os))
    decreases |os|
  {
    if os != [] {
      UpsertKeyed(store, os[..|os| - 1]);
    }
  }

  function Ids(os: seq<Order>): (ids: seq<string>)
  {
    seq(|os|, i requires 0 <= i < |os| => os[i].id)
  }

  /** Each identifier followed by ", ", in order. */
  function IdList(ids: seq<string>): (r: string)
    decreases |ids|
  {
    if ids == [] then ""
    else IdList(ids[..|ids| - 1]) + ids[|ids| - 1] + ", "
  }

  const SummaryHead := "Orders processed " + "Update Order IDs: "

  /** The reply of UpdateOrders for the accepted identifiers `ids`. */
  function Summary(ids: seq<string>): (reply: string)
  {
    SummaryHead + IdList(ids)
  }

  /** Accepting one more order writes it into the store and appends its
      identifier to the list. */
  lemma AcceptOne(store: map<string, Order>, accepted: seq<Order>, o: Order)
    ensures Upsert(store, accepted + [o]) == Upsert(store, accepted)[o.id := o]
    ensures IdList(Ids(accepted + [o])) == IdList(Ids(accepted)) + o.id + ", "
  {
    assert (accepted + [o])[..|accepted|] == accepted;
    assert Ids(accepted + [o]) == Ids(accepted) + [o.id];
    assert (Ids(accepted) + [o.id])[..|accepted|] == Ids(accepted);
  }

  /** The list of identifiers splits at any position. */
  lemma {:induction false} IdListSplit(ids: seq<string>, i: nat)
    requires i < |ids|
    ensures IdList(ids) == IdList(ids[..i]) + ids[i] + ", " + IdList(ids[i + 1..])
    decreases |ids|
  {
    var n := |ids| - 1;
    if i == n {
      assert ids[i + 1..] == [];
    } else {
      IdListSplit(ids[..n], i);
      assert ids[..n][..i] == ids[..i];
      assert ids[..n][i + 1..] == ids[i + 1..n];
      assert ids[i + 1..][..|ids[i + 1..]| - 1] == ids[i + 1..n];
    }
  }

  /** The summary names every accepted identifier, each followed by ", ". */
  lemma SummaryMentions(ids: seq<string>, i: nat)
    requires i < |ids|
    ensures Contains(Summary(ids), ids[i] + ", ")
  {
    IdListSplit(ids, i);
    var s, before, w := Summary(ids), SummaryHead + IdList(ids[..i]), ids[i] + ", ";
    assert s == before + w + IdList(ids[i + 1..]);
    assert s[|before|..|before| + |w|] == w;
    assert OccursAt(s, w, |before|);
  }
}
