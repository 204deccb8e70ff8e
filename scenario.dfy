/** A concrete session: four identifiers whose orders go to destinations
    A, A, B, A, then end of input. */
module Scenario {
  import opened Types
  import opened Aggregator

  /** The first flush comes after the third identifier and holds two orders
      for A and one for B; at end of input the shipment holding the fourth
      order is sent and the handler completes. With the fixture store, 102,
      104, 103, 101 is such a sequence (Mountain View, Mountain View, San
      Jose, Mountain View). */
  lemma FourOrders(o: map<string, Order>, w: string, x: string, y: string, z: string)
    requires w in o && x in o && y in o && z in o
    requires o[x].destination == o[w].destination && o[z].destination == o[w].destination
    requires o[y].destination != o[w].destination
    ensures var a, b := o[w].destination, o[y].destination;
      Run(o, [Msg(w), Msg(x), Msg(y), Msg(z), Eof], Start) ==
      Trace([Flush(map[a := CombinedShipment(ShipmentId(a), ProcessedStatus, [o[w], o[x]]),
                       b := CombinedShipment(ShipmentId(b), ProcessedStatus, [o[y]])]),
             SendOne(map[a := CombinedShipment(ShipmentId(a), ProcessedStatus, [o[z]])])],
            Completed, Session(map[a := CombinedShipment(ShipmentId(a), ProcessedStatus, [o[z]])], 1))
  {
    var a, b := o[w].destination, o[y].destination;
    var inbox: seq<Received<string>> := [Msg(w), Msg(x), Msg(y), Msg(z), Eof];
    var g1 := map[a := CombinedShipment(ShipmentId(a), ProcessedStatus, [o[w]])];
    var g2 := map[a := CombinedShipment(ShipmentId(a), ProcessedStatus, [o[w], o[x]])];
    var g3 := g2[b := CombinedShipment(ShipmentId(b), ProcessedStatus, [o[y]])];
    var g4 := map[a := CombinedShipment(ShipmentId(a), ProcessedStatus, [o[z]])];
    assert [o[w]] + [o[x]] == [o[w], o[x]];
    assert Route(g1, o[x]) == g2;
    assert Step(o, inbox[0], Start) == Continue([], Session(g1, 2));
    assert Step(o, inbox[1], Session(g1, 2)) == Continue([], Session(g2, 3));
    assert Step(o, inbox[2], Session(g2, 3)) == Continue([Flush(g3)], Session(map[], 0));
    assert Step(o, inbox[3], Session(map[], 0)) == Continue([], Session(g4, 1));
    assert Step(o, inbox[4], Session(g4, 1)) == Stop([SendOne(g4)], Completed);
    var last := Session(g4, 1);
    assert inbox[4..][1..] == [];
    assert Run(o, inbox[4..], Session(g4, 1)) == Trace([SendOne(g4)], Completed, last);
    assert inbox[3..][1..] == inbox[4..];
    assert Run(o, inbox[3..], Session(map[], 0)) == Trace([SendOne(g4)], Completed, last);
    assert inbox[2..][1..] == inbox[3..];
    assert Run(o, inbox[2..], Session(g2, 3)) == Trace([Flush(g3), SendOne(g4)], Completed, last);
    assert inbox[1..][1..] == inbox[2..];
    assert Run(o, inbox[1..], Session(g1, 2)) == Trace([Flush(g3), SendOne(g4)], Completed, last);
  }
}
