/** The order-processing stream (ProcessOrders): routing received orders into
    combined shipments keyed by destination, the batch counter that decides
    when every shipment is flushed, and the end-of-input behaviour.

    `Run` is the reference semantics of the handler's receive loop as a pure
    function of the received events. It produces the list of emissions the
    handler makes; which shipments a flush puts on the wire first depends on
    Go's map iteration order, so `Expand` turns emissions into messages along
    any chosen key order (`ValidPicks`). */
module Aggregator {
  import opened Types
  import opened Streams

  /** orderBatchSize. */
  const BatchSize := 3
  const ProcessedStatus := "Processed!"

  /** Identifier of the combined shipment for one destination. */
  function ShipmentId(destination: string): (id: string)
  {
    "cmb - " + destination
  }

  lemma ShipmentIdInjective(d1: string, d2: string)
    requires ShipmentId(d1) == ShipmentId(d2)
    ensures d1 == d2
  {
    var n := |"cmb - "|;
    assert d1 == ShipmentId(d1)[n..];
    assert d2 == ShipmentId(d2)[n..];
  }

  /** combinedShipments: destination -> shipment under construction. */
  type Groups = map<string, CombinedShipment>

  /** Every shipment is named after its key, carries the processed status, is
      non-empty and holds only orders going to its key. */
  ghost predicate WellFormed(groups: Groups)
  {
    forall d :: d in groups ==>
      groups[d].id == ShipmentId(d) && groups[d].status == ProcessedStatus &&
      groups[d].orders != [] &&
      forall o :: o in groups[d].orders ==> o.destination == d
  }

  /** One received order joins the shipment for its destination: appended to
      an existing shipment, or starting a new one; no other shipment changes. */
  function Route(groups: Groups, o: Order): (r: Groups)
    ensures r.Keys == groups.Keys + {o.destination}
    ensures forall d :: d in groups && d != o.destination ==> r[d] == groups[d]
    ensures r[o.destination].orders ==
              (if o.destination in groups then groups[o.destination].orders else []) + [o]
    ensures o.destination !in groups ==>
              r[o.destination].id == ShipmentId(o.destination) &&
              r[o.destination].status == ProcessedStatus
    ensures o.destination in groups ==>
              r[o.destination].id == groups[o.destination].id &&
              r[o.destination].status == groups[o.destination].status
  {
    var d := o.destination;
    if d in groups then
      groups[d := groups[d].(orders := groups[d].orders + [o])]
    else
      groups[d := CombinedShipment(ShipmentId(d), ProcessedStatus, [o])]
  }

  /** Number of orders held over all shipments. */
  ghost function TotalOrders(groups: Groups): (n: nat)
    decreases |groups|
  {
    if groups == map[] then 0
    else
      var d :| d in groups;
      |groups[d].orders| + TotalOrders(groups - {d})
  }

  lemma {:induction false} TotalOrdersRemove(groups: Groups, d: string)
    requires d in groups
    ensures TotalOrders(groups) == |groups[d].orders| + TotalOrders(groups - {d})
    decreases |groups|
  {
    var e :| e in groups && TotalOrders(groups) == |groups[e].orders| + TotalOrders(groups - {e});
    if e != d {
      TotalOrdersRemove(groups - {e}, d);
      TotalOrdersRemove(groups - {d}, e);
      assert groups - {e} - {d} == groups - {d} - {e};
    }
  }

  /** Routing keeps the shipments well formed and adds exactly one order. */
  lemma RouteInvariant(groups: Groups, o: Order)
    requires WellFormed(groups)
    ensures WellFormed(Route(groups, o))
    ensures TotalOrders(Route(groups, o)) == TotalOrders(groups) + 1
  {
    var d := o.destination;
    var r := Route(groups, o);
    TotalOrdersRemove(r, d);
    assert r - {d} == groups - {d};
    if d in groups {
      TotalOrdersRemove(groups, d);
    } else {
      assert groups - {d} == groups;
    }
  }

  /** Shipments built from nothing by routing `routed` in arrival order. */
  function Window(routed: seq<Order>): (g: Groups)
    decreases |routed|
  {
    if routed == [] then map[]
    else Route(Window(routed[..|routed| - 1]), routed[|routed| - 1])
  }

  /** The orders of `routed` going to `d`, in arrival order. */
  function ForDestination(routed: seq<Order>, d: string): (os: seq<Order>)
    decreases |routed|
  {
    if routed == [] then []
    else
      var last := routed[|routed| - 1];
      ForDestination(routed[..|routed| - 1], d) + (if last.destination == d then [last] else [])
  }

  /** Between two flushes the shipments are exactly the received orders
      grouped by destination, each group in arrival order, and together they
      hold every received order once. */
  lemma {:induction false} WindowGroups(routed: seq<Order>)
    ensures forall d :: d in Window(routed) <==> ForDestination(routed, d) != []
    ensures forall d :: d in Window(routed) ==>
              Window(routed)[d] ==
              CombinedShipment(ShipmentId(d), ProcessedStatus, ForDestination(routed, d))
    ensures WellFormed(Window(routed)) && TotalOrders(Window(routed)) == |routed|
    decreases |routed|
  {
    if routed != [] {
      var init, last := routed[..|routed| - 1], routed[|routed| - 1];
      WindowGroups(init);
      RouteInvariant(Window(init), last);
      forall d ensures d in Window(routed) <==> ForDestination(routed, d) != [] {
        if d != last.destination {
          assert ForDestination(routed, d) == ForDestination(init, d);
        }
      }
    }
  }

  /** The handler's loop state: combinedShipments and batchMarker. */
  datatype Session = Session(groups: Groups, marker: int)

  /** batchMarker starts at 1 with no shipments. */
  const Start := Session(map[], 1)

  /** A flush sends every shipment; at end of input the handler sends one
      shipment of the map (the first one the iteration yields) and returns. */
  datatype Emission = Flush(groups: Groups) | SendOne(groups: Groups)

  datatype StepResult =
    | Continue(emitted: seq<Emission>, next: Session)
    | Stop(emitted: seq<Emission>, outcome: Outcome)

  /** An order identifier has been received: look it up (a missing key
      dereferences nil), route the order, then flush when the marker equals
      the batch size (resetting it to 0) or else increment the marker. */
  function Arrive(orders: map<string, Order>, id: string, s: Session): (r: StepResult)
  {
    if id !in orders then Stop([], Panicked)
    else
      var groups := Route(s.groups, orders[id]);
      if s.marker == BatchSize then Continue([Flush(groups)], Session(map[], 0))
      else Continue([], Session(groups, s.marker + 1))
  }

  /** One iteration of the receive loop. At end of input the received message
      is nil, so with no shipment pending the loop falls through and looks up
      the empty identifier. */
  function Step(orders: map<string, Order>, event: Received<string>, s: Session): (r: StepResult)
  {
    match event
    case Fail(cause) => Stop([], Failed(RecvError(cause)))
    case Eof =>
      if s.groups != map[] then Stop([SendOne(s.groups)], Completed)
      else Arrive(orders, "", s)
    case Msg(id) => Arrive(orders, id, s)
  }

  /** Everything the handler emits, how it ends, and its last loop state. */
  datatype Trace = Trace(emissions: seq<Emission>, outcome: Outcome, last: Session)

  /** How many more times end of input can fall through the loop: with a
      shipment pending it is sent; with none, the empty identifier is routed,
      which leaves a shipment pending unless it completed a batch. */
  function Fallthroughs(s: Session): (n: nat)
  {
    if s.groups != map[] then 0 else if s.marker == BatchSize then 2 else 1
  }

  /** The receive loop over the finite input `inbox`. Once the client has
      closed its side every later receive reports end of input again, so an
      end of input that falls through the loop is received once more and
      the events after it are never read. The only single-shipment send is
      the last emission, of a non-empty map, and the handler then returns
      successfully. */
  function Run(orders: map<string, Order>, inbox: seq<Received<string>>, s: Session): (t: Trace)
    ensures forall i :: 0 <= i < |t.emissions| && t.emissions[i].SendOne? ==>
              i == |t.emissions| - 1 && t.outcome == Completed && t.emissions[i].groups != map[]
    decreases |inbox|, Fallthroughs(s)
  {
    if inbox == [] then Trace([], Blocked, s)
    else
      match Step(orders, inbox[0], s)
      case Stop(es, outcome) => Trace(es, outcome, s)
      case Continue(es, next) =>
        var t := if inbox[0].Eof? then Run(orders, inbox, next) else Run(orders, inbox[1..], next);
        Trace(es + t.emissions, t.outcome, t.last)
  }

  /** `p` is an order in which the handler may send the shipments of `e`:
      every key once for a flush, one key at end of input. */
  ghost predicate PicksFor(e: Emission, p: seq<string>)
  {
    match e
    case Flush(groups) => IsEnumeration(p, groups.Keys)
    case SendOne(groups) => |p| == 1 && p[0] in groups
  }

  ghost predicate ValidPicks(es: seq<Emission>, picks: seq<seq<string>>)
  {
    |picks| == |es| && forall i :: 0 <= i < |es| ==> PicksFor(es[i], picks[i])
  }

  /** Number of messages the emissions put on the wire. */
  function Volume(es: seq<Emission>): (n: nat)
    decreases |es|
  {
    if es == [] then 0
    else
      Volume(es[..|es| - 1]) +
      match es[|es| - 1]
      case Flush(groups) => |groups|
      case SendOne(_) => 1
  }

  /** The messages sent for `es` along the key orders `picks`; how many there
      are does not depend on the order chosen. */
  function Expand(es: seq<Emission>, picks: seq<seq<string>>): (r: seq<CombinedShipment>)
    requires ValidPicks(es, picks)
    ensures |r| == Volume(es)
    decreases |es|
  {
    if es == [] then []
    else
      var n := |es| - 1;
      assert ValidPicks(es[..n], picks[..n]);
      assert PicksFor(es[n], picks[n]);
      Expand(es[..n], picks[..n]) + Pick(es[n].groups, picks[n])
  }

  lemma ExpandSnoc(es: seq<Emission>, p: seq<seq<string>>, e: Emission, q: seq<string>)
    requires ValidPicks(es, p) && PicksFor(e, q)
    ensures ValidPicks(es + [e], p + [q])
    ensures Expand(es + [e], p + [q]) == Expand(es, p) + Pick(e.groups, q)
  {
    assert (es + [e])[..|es|] == es;
    assert (p + [q])[..|p|] == p;
    forall i | 0 <= i < |es| + 1 ensures PicksFor((es + [e])[i], (p + [q])[i]) {
      if i < |es| {
        assert (es + [e])[i] == es[i] && (p + [q])[i] == p[i];
      }
    }
  }

  lemma ValidAppend(es1: seq<Emission>, p1: seq<seq<string>>,
                    es2: seq<Emission>, p2: seq<seq<string>>)
    requires ValidPicks(es1, p1) && ValidPicks(es2, p2)
    ensures ValidPicks(es1 + es2, p1 + p2)
  {
    forall i | 0 <= i < |es1| + |es2| ensures PicksFor((es1 + es2)[i], (p1 + p2)[i]) {
      if i < |es1| {
        assert (es1 + es2)[i] == es1[i] && (p1 + p2)[i] == p1[i];
      } else {
        assert (es1 + es2)[i] == es2[i - |es1|] && (p1 + p2)[i] == p2[i - |es1|];
      }
    }
  }

  lemma {:induction false} ExpandAppend(es1: seq<Emission>, p1: seq<seq<string>>,
                                        es2: seq<Emission>, p2: seq<seq<string>>)
    requires ValidPicks(es1, p1) && ValidPicks(es2, p2)
    ensures ValidPicks(es1 + es2, p1 + p2)
    ensures Expand(es1 + es2, p1 + p2) == Expand(es1, p1) + Expand(es2, p2)
    decreases |es2|
  {
    ValidAppend(es1, p1, es2, p2);
    if es2 == [] {
      assert es1 + es2 == es1 && p1 + p2 == p1;
    } else {
      var n := |es2| - 1;
      var init, pinit := es2[..n], p2[..n];
      var e, q := es2[n], p2[n];
      assert es2 == init + [e] && p2 == pinit + [q];
      assert PicksFor(e, q);
      assert ValidPicks(init, pinit);
      ExpandAppend(es1, p1, init, pinit);
      ExpandSnoc(es1 + init, p1 + pinit, e, q);
      ExpandSnoc(init, pinit, e, q);
      Associative(es1, init, [e]);
      Associative(p1, pinit, [q]);
    }
  }

  /** Whatever the emissions, the handler has some order to send them in. */
  lemma {:induction false} SomePicks(es: seq<Emission>) returns (picks: seq<seq<string>>)
    requires forall i :: 0 <= i < |es| && es[i].SendOne? ==> es[i].groups != map[]
    ensures ValidPicks(es, picks)
    decreases |es|
  {
    if es == [] {
      picks := [];
    } else {
      var n := |es| - 1;
      var init := SomePicks(es[..n]);
      var p: seq<string>;
      match es[n] {
        case Flush(groups) =>
          p := Enumerate(groups.Keys);
        case SendOne(groups) =>
          var d :| d in groups;
          p := [d];
      }
      picks := init + [p];
      assert picks[..n] == init;
    }
  }

  /** The handler has consumed the first `i` events, emitting `done`, and is
      in state `s`: the whole run is `done` followed by the run from there. */
  ghost predicate RanUpTo(orders: map<string, Order>, inbox: seq<Received<string>>, i: nat,
                          s: Session, done: seq<Emission>)
  {
    i <= |inbox| &&
    var t, r := Run(orders, inbox, Start), Run(orders, inbox[i..], s);
    t.emissions == done + r.emissions && t.outcome == r.outcome
  }

  lemma RunBegins(orders: map<string, Order>, inbox: seq<Received<string>>)
    ensures RanUpTo(orders, inbox, 0, Start, [])
  {
    assert inbox[0..] == inbox;
  }

  /** The position the loop receives from after event `i`: end of input
      is received again, any other event is consumed. */
  function After(inbox: seq<Received<string>>, i: nat): (j: nat)
    requires i < |inbox|
  {
    if inbox[i].Eof? then i else i + 1
  }

  /** An event after which the loop goes on. */
  lemma RunContinues(orders: map<string, Order>, inbox: seq<Received<string>>, i: nat,
                     s: Session, done: seq<Emission>, es: seq<Emission>, next: Session)
    requires RanUpTo(orders, inbox, i, s, done) && i < |inbox|
    requires Step(orders, inbox[i], s) == Continue(es, next)
    ensures RanUpTo(orders, inbox, After(inbox, i), next, done + es)
  {
    assert inbox[i..][0] == inbox[i] && inbox[i..][1..] == inbox[i + 1..];
  }

  /** An event on which the handler returns. */
  lemma RunStops(orders: map<string, Order>, inbox: seq<Received<string>>, i: nat,
                 s: Session, done: seq<Emission>, es: seq<Emission>, outcome: Outcome)
    requires RanUpTo(orders, inbox, i, s, done) && i < |inbox|
    requires Step(orders, inbox[i], s) == Stop(es, outcome)
    ensures Run(orders, inbox, Start).emissions == done + es
    ensures Run(orders, inbox, Start).outcome == outcome
  {
    assert inbox[i..][0] == inbox[i];
  }

  /** The input ran out with the handler still receiving. */
  lemma RunExhausted(orders: map<string, Order>, inbox: seq<Received<string>>,
                     s: Session, done: seq<Emission>)
    requires RanUpTo(orders, inbox, |inbox|, s, done)
    ensures Run(orders, inbox, Start).emissions == done
    ensures Run(orders, inbox, Start).outcome == Blocked
  {
    assert inbox[|inbox|..] == [];
  }

  /** A flush whose sending stops part way: what went out is a prefix of the
      messages of the whole run, for some order of the remaining sends. */
  lemma FlushInterrupted(es: seq<Emission>, picks: seq<seq<string>>, g: Groups, ks: seq<string>,
                         rest: seq<Emission>) returns (allPicks: seq<seq<string>>)
    requires ValidPicks(es, picks) && IsEnumeration(ks, g.Keys)
    requires forall i :: 0 <= i < |rest| && rest[i].SendOne? ==> rest[i].groups != map[]
    ensures ValidPicks(es + [Flush(g)] + rest, allPicks)
    ensures var all, part := Expand(es + [Flush(g)] + rest, allPicks), Expand(es, picks) + Pick(g, ks);
      |part| <= |all| && all[..|part|] == part
  {
    var restPicks := SomePicks(rest);
    ExpandSnoc(es, picks, Flush(g), ks);
    ExpandAppend(es + [Flush(g)], picks + [ks], rest, restPicks);
    allPicks := picks + [ks] + restPicks;
  }

  /** The handler returns having sent every message of the run. */
  lemma SentAll(orders: map<string, Order>, inbox: seq<Received<string>>, es: seq<Emission>,
                picks: seq<seq<string>>, failAt: Option<nat>, sent: seq<CombinedShipment>,
                outcome: Outcome)
    requires Run(orders, inbox, Start).emissions == es && Run(orders, inbox, Start).outcome == outcome
    requires ValidPicks(es, picks) && sent == Expand(es, picks)
    requires failAt.Some? ==> |sent| <= failAt.value
    ensures var t := Run(orders, inbox, Start);
      ValidPicks(t.emissions, picks) && Delivered(Expand(t.emissions, picks), t.outcome, failAt, sent, outcome)
  {
  }

  /** The handler returns when send number `failAt` fails. */
  lemma SentPart(orders: map<string, Order>, inbox: seq<Received<string>>, es: seq<Emission>,
                 picks: seq<seq<string>>, failAt: Option<nat>, sent: seq<CombinedShipment>)
    requires Run(orders, inbox, Start).emissions == es
    requires ValidPicks(es, picks) && failAt.Some? && failAt.value < |Expand(es, picks)|
    requires sent == Expand(es, picks)[..failAt.value]
    ensures var t := Run(orders, inbox, Start);
      ValidPicks(t.emissions, picks) &&
      Delivered(Expand(t.emissions, picks), t.outcome, failAt, sent, Failed(SendError))
  {
  }

  /** The identifier the handler looks up for an event that is not a receive
      error: at end of input the nil message yields the empty identifier. */
  function EventId(event: Received<string>): (id: string)
  {
    if event.Msg? then event.value else ""
  }

  /** End of input with shipments pending: one is sent and the run ends. */
  lemma EndStep(orders: map<string, Order>, inbox: seq<Received<string>>, i: nat,
                s: Session, done: seq<Emission>)
    requires RanUpTo(orders, inbox, i, s, done) && i < |inbox|
    requires inbox[i].Eof? && s.groups != map[]
    ensures Run(orders, inbox, Start).emissions == done + [SendOne(s.groups)]
    ensures Run(orders, inbox, Start).outcome == Completed
  {
    RunStops(orders, inbox, i, s, done, [SendOne(s.groups)], Completed);
  }

  /** A receive error ends the run with that error. */
  lemma FailStep(orders: map<string, Order>, inbox: seq<Received<string>>, i: nat,
                 s: Session, done: seq<Emission>)
    requires RanUpTo(orders, inbox, i, s, done) && i < |inbox| && inbox[i].Fail?
    ensures Run(orders, inbox, Start).emissions == done
    ensures Run(orders, inbox, Start).outcome == Failed(RecvError(inbox[i].cause))
  {
    RunStops(orders, inbox, i, s, done, [], Failed(RecvError(inbox[i].cause)));
    assert done + [] == done;
  }

  /** Looking up an identifier that is not stored ends the run in a panic. */
  lemma PanicStep(orders: map<string, Order>, inbox: seq<Received<string>>, i: nat,
                  s: Session, done: seq<Emission>)
    requires RanUpTo(orders, inbox, i, s, done) && i < |inbox|
    requires !inbox[i].Fail? && !(inbox[i].Eof? && s.groups != map[])
    requires EventId(inbox[i]) !in orders
    ensures Run(orders, inbox, Start).emissions == done
    ensures Run(orders, inbox, Start).outcome == Panicked
  {
    assert Step(orders, inbox[i], s) == Stop([], Panicked);
    RunStops(orders, inbox, i, s, done, [], Panicked);
    assert done + [] == done;
  }

  /** The loop state of the handler after `i` events: the run so far emitted
      `done`, the session is `s`, and the caller has received `sent`, the
      expansion of `done` along `picks`, with the failing send still ahead.
      Where it is required or established it is written `Handling(...) == true`, so
      that the verifier treats it as one fact instead of conjunct by conjunct. */
  ghost predicate Handling(orders: map<string, Order>, inbox: seq<Received<string>>, i: nat,
                           s: Session, done: seq<Emission>, flushed: bool,
                           picks: seq<seq<string>>, sent: seq<CombinedShipment>, failAt: Option<nat>)
  {
    RanUpTo(orders, inbox, i, s, done) && Counted(s, flushed) &&
    ValidPicks(done, picks) && sent == Expand(done, picks) &&
    (failAt.Some? ==> |sent| <= failAt.value)
  }

  lemma HandlingBegins(orders: map<string, Order>, inbox: seq<Received<string>>, failAt: Option<nat>)
    ensures Handling(orders, inbox, 0, Start, [], false, [], [], failAt)
  {
    RunBegins(orders, inbox);
    assert TotalOrders(map[]) == 0;
  }

  /** A stored order is routed into the pending shipments `g` and the marker
      advances: the loop goes on at event `i2` in session `s2`. */
  lemma RouteStep(orders: map<string, Order>, inbox: seq<Received<string>>, i: nat,
                  s: Session, done: seq<Emission>, flushed: bool,
                  picks: seq<seq<string>>, sent: seq<CombinedShipment>, failAt: Option<nat>,
                  g: Groups, i2: nat, s2: Session)
    requires Handling(orders, inbox, i, s, done, flushed, picks, sent, failAt) == true && i < |inbox|
    requires !inbox[i].Fail? && !(inbox[i].Eof? && s.groups != map[])
    requires EventId(inbox[i]) in orders && g == Route(s.groups, orders[EventId(inbox[i])])
    requires s.marker != BatchSize
    requires i2 == After(inbox, i) && s2 == Session(g, s.marker + 1)
    ensures Handling(orders, inbox, i2, s2, done, flushed, picks, sent, failAt)
  {
    RouteInvariant(s.groups, orders[EventId(inbox[i])]);
    assert Step(orders, inbox[i], s) == Continue([], s2);
    RunContinues(orders, inbox, i, s, done, [], s2);
    assert done + [] == done;
  }

  /** A stored order is routed into `g` with the marker at the batch size and
      every shipment of `g` is sent, in the key order `ks`: a new window
      starts, and the loop goes on at event `i2` with the state ending in 2. */
  lemma FlushStep(orders: map<string, Order>, inbox: seq<Received<string>>, i: nat,
                  s: Session, done: seq<Emission>, flushed: bool,
                  picks: seq<seq<string>>, sent: seq<CombinedShipment>, failAt: Option<nat>,
                  g: Groups, ks: seq<string>,
                  i2: nat, s2: Session, done2: seq<Emission>, flushed2: bool,
                  picks2: seq<seq<string>>, sent2: seq<CombinedShipment>)
    requires Handling(orders, inbox, i, s, done, flushed, picks, sent, failAt) == true && i < |inbox|
    requires !inbox[i].Fail? && !(inbox[i].Eof? && s.groups != map[])
    requires EventId(inbox[i]) in orders && g == Route(s.groups, orders[EventId(inbox[i])])
    requires s.marker == BatchSize
    requires IsEnumeration(ks, g.Keys)
    requires !(failAt.Some? && |sent| <= failAt.value < |sent + Pick(g, ks)|)
    requires i2 == After(inbox, i) && s2 == Session(map[], 0) && done2 == done + [Flush(g)] && flushed2
    requires picks2 == picks + [ks] && sent2 == sent + Pick(g, ks)
    ensures Handling(orders, inbox, i2, s2, done2, flushed2, picks2, sent2, failAt)
  {
    RouteInvariant(s.groups, orders[EventId(inbox[i])]);
    assert TotalOrders(map[]) == 0;
    assert Step(orders, inbox[i], s) == Continue([Flush(g)], s2);
    RunContinues(orders, inbox, i, s, done, [Flush(g)], s2);
    ExpandSnoc(done, picks, Flush(g), ks);
  }

  /** As FlushStep, but send number `failAt` fails part way through the
      flush: what the caller sees agrees with the run. */
  lemma FlushDelivered(orders: map<string, Order>, inbox: seq<Received<string>>, i: nat,
                       s: Session, done: seq<Emission>, flushed: bool,
                       picks: seq<seq<string>>, sent: seq<CombinedShipment>, failAt: Option<nat>,
                       g: Groups, ks: seq<string>, out: seq<CombinedShipment>)
    returns (allPicks: seq<seq<string>>)
    requires Handling(orders, inbox, i, s, done, flushed, picks, sent, failAt) == true && i < |inbox|
    requires !inbox[i].Fail? && !(inbox[i].Eof? && s.groups != map[])
    requires EventId(inbox[i]) in orders && g == Route(s.groups, orders[EventId(inbox[i])])
    requires s.marker == BatchSize
    requires IsEnumeration(ks, g.Keys)
    requires var all := sent + Pick(g, ks);
      failAt.Some? && |sent| <= failAt.value < |all| && out == all[..failAt.value]
    ensures var t := Run(orders, inbox, Start);
      ValidPicks(t.emissions, allPicks) &&
      Delivered(Expand(t.emissions, allPicks), t.outcome, failAt, out, Failed(SendError))
  {
    assert Step(orders, inbox[i], s) == Continue([Flush(g)], Session(map[], 0));
    RunContinues(orders, inbox, i, s, done, [Flush(g)], Session(map[], 0));
    var rest := Run(orders, inbox[After(inbox, i)..], Session(map[], 0)).emissions;
    var es := done + [Flush(g)] + rest;
    allPicks := FlushInterrupted(done, picks, g, ks, rest);
    PrefixOfPrefix(Expand(es, allPicks), sent + Pick(g, ks), failAt.value);
    SentPart(orders, inbox, es, allPicks, failAt, out);
  }

  /** End of input with shipments pending: the handler sends the shipment for
      destination `d` and returns; what the caller sees agrees with the run. */
  lemma EndDelivered(orders: map<string, Order>, inbox: seq<Received<string>>, i: nat,
                     s: Session, done: seq<Emission>, flushed: bool,
                     picks: seq<seq<string>>, sent: seq<CombinedShipment>, failAt: Option<nat>,
                     d: string, out: seq<CombinedShipment>, failed: bool)
    returns (allPicks: seq<seq<string>>)
    requires Handling(orders, inbox, i, s, done, flushed, picks, sent, failAt) == true && i < |inbox|
    requires inbox[i].Eof? && d in s.groups
    requires failed <==> failAt.Some? && failAt.value == |sent|
    requires out == if failed then sent else sent + [s.groups[d]]
    ensures var t := Run(orders, inbox, Start);
      ValidPicks(t.emissions, allPicks) &&
      Delivered(Expand(t.emissions, allPicks), t.outcome, failAt, out,
                if failed then Failed(SendError) else Completed)
  {
    var es := done + [SendOne(s.groups)];
    EndStep(orders, inbox, i, s, done);
    ExpandSnoc(done, picks, SendOne(s.groups), [d]);
    assert Pick(s.groups, [d]) == [s.groups[d]];
    allPicks := picks + [[d]];
    if failed {
      assert (sent + [s.groups[d]])[..|sent|] == sent;
      SentPart(orders, inbox, es, allPicks, failAt, out);
    } else {
      assert failAt.Some? ==> |out| <= failAt.value;
      SentAll(orders, inbox, es, allPicks, failAt, out, Completed);
    }
  }

  /** A receive error: the handler returns it, having sent nothing more. */
  lemma FailDelivered(orders: map<string, Order>, inbox: seq<Received<string>>, i: nat,
                      s: Session, done: seq<Emission>, flushed: bool,
                      picks: seq<seq<string>>, sent: seq<CombinedShipment>, failAt: Option<nat>)
    requires Handling(orders, inbox, i, s, done, flushed, picks, sent, failAt) == true && i < |inbox|
    requires inbox[i].Fail?
    ensures var t := Run(orders, inbox, Start);
      ValidPicks(t.emissions, picks) &&
      Delivered(Expand(t.emissions, picks), t.outcome, failAt, sent, Failed(RecvError(inbox[i].cause)))
  {
    FailStep(orders, inbox, i, s, done);
    SentAll(orders, inbox, done, picks, failAt, sent, Failed(RecvError(inbox[i].cause)));
  }

  /** An identifier that is not stored: the handler panics. */
  lemma PanicDelivered(orders: map<string, Order>, inbox: seq<Received<string>>, i: nat,
                       s: Session, done: seq<Emission>, flushed: bool,
                       picks: seq<seq<string>>, sent: seq<CombinedShipment>, failAt: Option<nat>)
    requires Handling(orders, inbox, i, s, done, flushed, picks, sent, failAt) == true && i < |inbox|
    requires !inbox[i].Fail? && !(inbox[i].Eof? && s.groups != map[])
    requires EventId(inbox[i]) !in orders
    ensures var t := Run(orders, inbox, Start);
      ValidPicks(t.emissions, picks) &&
      Delivered(Expand(t.emissions, picks), t.outcome, failAt, sent, Panicked)
  {
    PanicStep(orders, inbox, i, s, done);
    SentAll(orders, inbox, done, picks, failAt, sent, Panicked);
  }

  /** The input ran out: the handler is still receiving. */
  lemma ExhaustedDelivered(orders: map<string, Order>, inbox: seq<Received<string>>,
                           s: Session, done: seq<Emission>, flushed: bool,
                           picks: seq<seq<string>>, sent: seq<CombinedShipment>, failAt: Option<nat>)
    requires Handling(orders, inbox, |inbox|, s, done, flushed, picks, sent, failAt) == true
    ensures var t := Run(orders, inbox, Start);
      ValidPicks(t.emissions, picks) &&
      Delivered(Expand(t.emissions, picks), t.outcome, failAt, sent, Blocked)
  {
    RunExhausted(orders, inbox, s, done);
    SentAll(orders, inbox, done, picks, failAt, sent, Blocked);
  }

  /** The received events are all identifiers of stored orders. */
  ghost predicate AllKnown(orders: map<string, Order>, inbox: seq<Received<string>>)
  {
    forall i :: 0 <= i < |inbox| ==> inbox[i].Msg? && inbox[i].value in orders
  }

  /** The batch counter bookkeeping: before the first flush the shipments hold
      one order less than the marker, afterwards exactly as many. */
  ghost predicate Counted(s: Session, flushed: bool)
  {
    WellFormed(s.groups) && 0 <= s.marker <= BatchSize &&
    TotalOrders(s.groups) == if flushed then s.marker else s.marker - 1
  }

  /** Flush cadence. Over identifiers of stored orders the handler flushes
      exactly every time the marker reaches the batch size after routing: the
      flushes number (received + marker) div (BatchSize + 1), which from the
      start is after the 3rd, 7th, 11th, ... identifier. The first flush
      carries BatchSize orders and every later one BatchSize + 1, and the
      counter bookkeeping holds throughout. */
  lemma {:induction false} Cadence(orders: map<string, Order>, inbox: seq<Received<string>>,
                                   s: Session, flushed: bool)
    requires AllKnown(orders, inbox) && Counted(s, flushed)
    ensures var t := Run(orders, inbox, s);
      t.outcome == Blocked &&
      |t.emissions| == (|inbox| + s.marker) / (BatchSize + 1) &&
      t.last.marker == (|inbox| + s.marker) % (BatchSize + 1) &&
      Counted(t.last, flushed || t.emissions != []) &&
      forall i :: 0 <= i < |t.emissions| ==>
        t.emissions[i].Flush? && WellFormed(t.emissions[i].groups) &&
        TotalOrders(t.emissions[i].groups) ==
          if i == 0 && !flushed then BatchSize else BatchSize + 1
    decreases |inbox|
  {
    if inbox != [] {
      var o := orders[inbox[0].value];
      RouteInvariant(s.groups, o);
      var rest := inbox[1..];
      assert AllKnown(orders, rest) by {
        forall i | 0 <= i < |rest| ensures rest[i].Msg? && rest[i].value in orders {
          assert rest[i] == inbox[i + 1];
        }
      }
      match Step(orders, inbox[0], s)
      case Continue(es, next) =>
        if s.marker == BatchSize {
          assert TotalOrders(map[]) == 0;
          Cadence(orders, rest, next, true);
        } else {
          Cadence(orders, rest, next, flushed);
        }
    }
  }

  /** From the start of a session. */
  lemma CadenceFromStart(orders: map<string, Order>, inbox: seq<Received<string>>)
    requires AllKnown(orders, inbox)
    ensures var t := Run(orders, inbox, Start);
      |t.emissions| == (|inbox| + 1) / (BatchSize + 1) &&
      TotalOrders(t.last.groups) ==
        if |inbox| < BatchSize then t.last.marker - 1 else t.last.marker
  {
    assert TotalOrders(map[]) == 0;
    Cadence(orders, inbox, Start, false);
  }

  /** An unknown identifier ends the session in a nil dereference, and so
      does end of input with no shipment pending unless the empty identifier
      is stored; a receive error returns that error. None of them sends
      anything or changes the loop state. */
  lemma StopsWithoutSending(orders: map<string, Order>, inbox: seq<Received<string>>, s: Session)
    requires inbox != []
    requires inbox[0].Fail? || (inbox[0].Msg? && inbox[0].value !in orders) ||
             (inbox[0].Eof? && s.groups == map[] && "" !in orders)
    ensures var t := Run(orders, inbox, s);
      t.emissions == [] && t.last == s &&
      t.outcome == if inbox[0].Fail? then Failed(RecvError(inbox[0].cause)) else Panicked
  {
  }

  /** End of input with nothing pending while an order is stored under the
      empty identifier (as UpdateOrders stores an order without one): the
      loop routes that order, receives end of input again, and sends the
      shipment it just made. */
  lemma EndOfInputFallsThrough(orders: map<string, Order>, s: Session)
    requires "" in orders && s.groups == map[] && s.marker != BatchSize
    ensures var g := Route(map[], orders[""]);
      Run(orders, [Eof], s) == Trace([SendOne(g)], Completed, Session(g, s.marker + 1))
  {
  }

  /** Identifiers of stored orders followed by `tail`: the run goes through
      the identifiers and then continues with `tail` from where they left
      the loop. */
  lemma {:induction false} RunThrough(orders: map<string, Order>, ids: seq<Received<string>>,
                                      tail: seq<Received<string>>, s: Session)
    requires AllKnown(orders, ids)
    ensures var t, r := Run(orders, ids, s), Run(orders, tail, Run(orders, ids, s).last);
      Run(orders, ids + tail, s) == Trace(t.emissions + r.emissions, r.outcome, r.last)
    decreases |ids|
  {
    if ids == [] {
      assert ids + tail == tail;
    } else {
      var rest := ids[1..];
      assert AllKnown(orders, rest) by {
        forall i | 0 <= i < |rest| ensures rest[i].Msg? && rest[i].value in orders {
          assert rest[i] == ids[i + 1];
        }
      }
      assert (ids + tail)[0] == ids[0] && (ids + tail)[1..] == rest + tail;
      match Step(orders, ids[0], s)
      case Continue(es, next) =>
        RunThrough(orders, rest, tail, next);
        var t, r := Run(orders, rest, next), Run(orders, tail, Run(orders, rest, next).last);
        Associative(es, t.emissions, r.emissions);
    }
  }

  /** A flush empties the pending shipments, so an end of input right after
      it finds nothing to send: the loop falls through and looks up the empty
      identifier, which panics when that identifier is not stored. From the
      start this is the case after 3, 7, 11, ... identifiers: the flushes
      that happened are all the caller receives. */
  lemma EndAfterFlushPanics(orders: map<string, Order>, ids: seq<Received<string>>)
    requires AllKnown(orders, ids) && |ids| % (BatchSize + 1) == BatchSize && "" !in orders
    ensures var t := Run(orders, ids + [Eof], Start);
      t.outcome == Panicked && |t.emissions| == (|ids| + 1) / (BatchSize + 1) &&
      forall i :: 0 <= i < |t.emissions| ==> t.emissions[i].Flush?
  {
    var n := |ids|;
    assert (n + 1) % (BatchSize + 1) == 0 && (n + 1) / (BatchSize + 1) >= 1;
    assert TotalOrders(map[]) == 0;
    Cadence(orders, ids, Start, false);
    var t := Run(orders, ids, Start);
    assert t.last.marker == 0 && t.emissions != [];
    assert t.last.groups == map[];  // well formed and holding no orders
    var r := Run(orders, [Eof], t.last);
    assert r == Trace([], Panicked, t.last);
    RunThrough(orders, ids, [Eof], Start);
    assert t.emissions + [] == t.emissions;
  }

  /** The orders the identifiers `ids` name, in arrival order. */
  function Resolve(orders: map<string, Order>, ids: seq<Received<string>>): (r: seq<Order>)
    requires AllKnown(orders, ids)
    ensures |r| == |ids| && forall i :: 0 <= i < |ids| ==> r[i] == orders[ids[i].value]
    decreases |ids|
  {
    if ids == [] then []
    else
      KnownSlice(orders, ids, 1, |ids|);
      [orders[ids[0].value]] + Resolve(orders, ids[1..])
  }

  /** Resolving distributes over concatenation. */
  lemma ResolveAppend(orders: map<string, Order>, a: seq<Received<string>>, b: seq<Received<string>>)
    requires AllKnown(orders, a) && AllKnown(orders, b) && AllKnown(orders, a + b)
    ensures Resolve(orders, a + b) == Resolve(orders, a) + Resolve(orders, b)
  {
    var l, r := Resolve(orders, a + b), Resolve(orders, a) + Resolve(orders, b);
    forall i | 0 <= i < |l| ensures l[i] == r[i] {
      if i < |a| {
        assert (a + b)[i] == a[i];
      } else {
        assert (a + b)[i] == b[i - |a|];
      }
    }
  }

  /** Resolving splits with the identifiers. */
  lemma ResolveSplit(orders: map<string, Order>, ids: seq<Received<string>>, k: nat)
    requires AllKnown(orders, ids) && k <= |ids|
    ensures AllKnown(orders, ids[..k]) && AllKnown(orders, ids[k..]) &&
      Resolve(orders, ids) == Resolve(orders, ids[..k]) + Resolve(orders, ids[k..])
  {
    KnownSlice(orders, ids, 0, k);
    KnownSlice(orders, ids, k, |ids|);
    assert ids == ids[..k] + ids[k..];
    ResolveAppend(orders, ids[..k], ids[k..]);
  }

  lemma KnownSlice(orders: map<string, Order>, ids: seq<Received<string>>, a: nat, b: nat)
    requires AllKnown(orders, ids) && a <= b <= |ids|
    ensures AllKnown(orders, ids[a..b])
  {
    forall i | 0 <= i < b - a ensures ids[a..b][i].Msg? && ids[a..b][i].value in orders {
      assert ids[a..b][i] == ids[a + i];
    }
  }

  /** Batching stated on windows. A window has received the orders `routed`
      and has marker `m`. While the marker stays below the batch size the
      identifiers only add their orders to the window; the identifier that
      finds the marker at the batch size closes the window with one flush of
      every order received in it, and the next window starts empty with
      marker 0. */
  function Batched(orders: map<string, Order>, ids: seq<Received<string>>,
                   routed: seq<Order>, m: nat): (t: Trace)
    requires AllKnown(orders, ids) && m <= BatchSize
    ensures t.outcome == Blocked
    ensures forall i :: 0 <= i < |t.emissions| ==> t.emissions[i].Flush?
    decreases |ids|
  {
    if m + |ids| <= BatchSize then
      Trace([], Blocked, Session(Window(routed + Resolve(orders, ids)), m + |ids|))
    else
      var n := BatchSize + 1 - m;
      KnownSlice(orders, ids, 0, n);
      KnownSlice(orders, ids, n, |ids|);
      var t := Batched(orders, ids[n..], [], 0);
      Trace([Flush(Window(routed + Resolve(orders, ids[..n])))] + t.emissions, Blocked, t.last)
  }

  /** Routing an order into a window is the window of one more order. */
  lemma WindowSnoc(routed: seq<Order>, o: Order)
    ensures Window(routed + [o]) == Route(Window(routed), o)
  {
    assert (routed + [o])[..|routed|] == routed;
  }

  /** A stored order's identifier with the marker below the batch size: the
      order is routed and the marker advances, nothing is emitted. */
  lemma RouteOne(orders: map<string, Order>, ids: seq<Received<string>>, s: Session)
    requires ids != [] && ids[0].Msg? && ids[0].value in orders && s.marker != BatchSize
    ensures Run(orders, ids, s) ==
            Run(orders, ids[1..], Session(Route(s.groups, orders[ids[0].value]), s.marker + 1))
  {
    var t := Run(orders, ids[1..], Session(Route(s.groups, orders[ids[0].value]), s.marker + 1));
    assert [] + t.emissions == t.emissions;
  }

  /** A stored order's identifier with the marker at the batch size, as the
      last event: the order is routed and everything pending is flushed. */
  lemma FlushOne(orders: map<string, Order>, id: string, s: Session)
    requires id in orders && s.marker == BatchSize
    ensures Run(orders, [Msg(id)], s) ==
            Trace([Flush(Route(s.groups, orders[id]))], Blocked, Session(map[], 0))
  {
    assert [Msg(id)][1..] == [];
  }

  /** Identifiers that leave the marker below the batch size only add their
      orders to the window. */
  lemma {:induction false} FillWindow(orders: map<string, Order>, ids: seq<Received<string>>,
                                      routed: seq<Order>, m: nat)
    requires AllKnown(orders, ids) && m + |ids| <= BatchSize
    ensures Run(orders, ids, Session(Window(routed), m)) ==
            Trace([], Blocked, Session(Window(routed + Resolve(orders, ids)), m + |ids|))
    decreases |ids|
  {
    if ids == [] {
      assert routed + Resolve(orders, ids) == routed;
    } else {
      var o := orders[ids[0].value];
      var s, r := Session(Window(routed), m), routed + [o];
      KnownSlice(orders, ids, 1, |ids|);
      WindowSnoc(routed, o);
      RouteOne(orders, ids, s);
      assert Session(Route(s.groups, o), s.marker + 1) == Session(Window(r), m + 1);
      FillWindow(orders, ids[1..], r, m + 1);
      ResolveSplit(orders, ids, 1);
      assert Resolve(orders, ids[..1]) == [o];
      Associative(routed, [o], Resolve(orders, ids[1..]));
    }
  }

  /** The identifier that finds the marker at the batch size flushes the
      whole window, itself included, and starts an empty one. */
  lemma CloseWindow(orders: map<string, Order>, ids: seq<Received<string>>,
                    routed: seq<Order>, m: nat)
    requires AllKnown(orders, ids) && m <= BatchSize && m + |ids| == BatchSize + 1
    ensures Run(orders, ids, Session(Window(routed), m)) ==
            Trace([Flush(Window(routed + Resolve(orders, ids)))], Blocked, Session(map[], 0))
  {
    var k := |ids| - 1;
    var init, last := ids[..k], ids[k..];
    assert ids == init + last;
    KnownSlice(orders, ids, 0, k);
    KnownSlice(orders, ids, k, |ids|);
    FillWindow(orders, init, routed, m);
    RunThrough(orders, init, last, Session(Window(routed), m));
    var routed2 := routed + Resolve(orders, init);
    var o := orders[ids[k].value];
    WindowSnoc(routed2, o);
    ResolveSplit(orders, ids, k);
    assert Resolve(orders, last) == [o];
    Associative(routed, Resolve(orders, init), [o]);
    assert last == [Msg(ids[k].value)];
    FlushOne(orders, ids[k].value, Session(Window(routed2), BatchSize));
  }

  /** The receive loop over identifiers of stored orders batches exactly as
      `Batched` does: every flush holds the orders received since the
      previous flush, grouped by destination in arrival order (WindowGroups),
      and the pending shipments hold those received since the last one. */
  lemma {:induction false} RunBatches(orders: map<string, Order>, ids: seq<Received<string>>,
                                      routed: seq<Order>, m: nat)
    requires AllKnown(orders, ids) && m <= BatchSize
    ensures Run(orders, ids, Session(Window(routed), m)) == Batched(orders, ids, routed, m)
    decreases |ids|
  {
    if m + |ids| <= BatchSize {
      FillWindow(orders, ids, routed, m);
    } else {
      var n := BatchSize + 1 - m;
      var head, tail := ids[..n], ids[n..];
      assert ids == head + tail;
      KnownSlice(orders, ids, 0, n);
      KnownSlice(orders, ids, n, |ids|);
      CloseWindow(orders, head, routed, m);
      RunThrough(orders, head, tail, Session(Window(routed), m));
      assert Window([]) == map[];
      RunBatches(orders, tail, [], 0);
    }
  }

  /** From the start the first flush, after three identifiers, holds exactly
      the orders of those three. */
  lemma FirstFlush(orders: map<string, Order>, ids: seq<Received<string>>)
    requires AllKnown(orders, ids) && |ids| >= BatchSize
    ensures var t := Run(orders, ids, Start);
      t.emissions != [] &&
      t.emissions[0] == Flush(Window([orders[ids[0].value], orders[ids[1].value], orders[ids[2].value]]))
  {
    KnownSlice(orders, ids, 0, BatchSize);
    assert Start == Session(Window([]), 1);
    RunBatches(orders, ids, [], 1);
    assert [] + Resolve(orders, ids[..BatchSize]) ==
           [orders[ids[0].value], orders[ids[1].value], orders[ids[2].value]];
  }

  /** End of input with shipments pending sends exactly one of them and
      returns; when two or more destinations are pending, some pending
      shipment is never sent. */
  lemma EndOfInputSendsOne(orders: map<string, Order>, inbox: seq<Received<string>>, s: Session,
                           picks: seq<seq<string>>)
    requires inbox != [] && inbox[0].Eof? && s.groups != map[] && WellFormed(s.groups)
    requires ValidPicks(Run(orders, inbox, s).emissions, picks)
    ensures var t := Run(orders, inbox, s);
      var sent := Expand(t.emissions, picks);
      t.outcome == Completed && |sent| == 1 && sent[0] in s.groups.Values &&
      (|s.groups| >= 2 ==> exists d :: d in s.groups && s.groups[d] !in sent)
  {
    var t := Run(orders, inbox, s);
    assert t.emissions == [SendOne(s.groups)];
    var p := picks[0][0];
    assert Expand(t.emissions, picks) == [s.groups[p]] by {
      assert t.emissions[..0] == [];
    }
    if |s.groups| >= 2 {
      var others := s.groups.Keys - {p};
      assert s.groups.Keys == others + {p};
      assert |others| >= 1;
      var d :| d in others;
      if s.groups[d] == s.groups[p] {
        ShipmentIdInjective(d, p);
      }
      assert s.groups[d] !in [s.groups[p]];
    }
  }
}
