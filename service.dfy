/** The order-management service: a product registry and an order store,
    with the unary lookups and the three streaming handlers. Streams are
    finite input sequences and the list of messages sent. */
module OrderManagement {
  import opened Types
  import opened Streams
  import opened Text
  import opened Aggregator
  import opened Search
  import opened Update
  import opened Fixture

  /** initItems: a fresh list holding the arguments in order. */
  method InitItems(args: seq<string>) returns (items: seq<string>)
    ensures items == args
  {
    items := [];
    var i := 0;
    while i < |args|
      invariant 0 <= i <= |args|
      invariant items == args[..i]
    {
      items := items + [args[i]];
      i := i + 1;
    }
  }

  /** Sends every shipment of `groups`, in some order of their keys, after
      the messages `sent`; stops at the failing send. */
  method SendAll(groups: Groups, sent: seq<CombinedShipment>, failAt: Option<nat>)
    returns (out: seq<CombinedShipment>, failed: bool, ghost ks: seq<string>)
    ensures IsEnumeration(ks, groups.Keys)
    ensures var all := sent + Pick(groups, ks);
      (failed <==> failAt.Some? && |sent| <= failAt.value < |all|) &&
      out == if failed then all[..failAt.value] else all
  {
    out, failed, ks := sent, false, [];
    var left := groups.Keys;
    while left != {}
      invariant Visiting(ks, left, groups.Keys)
      invariant out == sent + Pick(groups, ks)
      invariant failAt.Some? && |sent| <= failAt.value ==> |out| <= failAt.value
      decreases |left|
    {
      var d :| d in left;
      if failAt.Some? && failAt.value == |out| {
        ghost var visited := ks;
        ks := Interrupted(groups, visited, left, d);
        assert (sent + Pick(groups, ks))[..|out|] == sent + Pick(groups, ks)[..|visited|];
        failed := true;
        return;
      }
      PickSnoc(groups, ks, d);
      Associative(sent, Pick(groups, ks), [groups[d]]);
      VisitNext(ks, left, groups.Keys, d);
      out := out + [groups[d]];
      ks := ks + [d];
      left := left - {d};
    }
    VisitDone(ks, groups.Keys);
  }

  /** Sends `order` once per item containing `term`, in item order, after
      the messages `sent`; stops at the failing send. */
  method SendMatches(order: Order, term: string, sent: seq<Order>, failAt: Option<nat>)
    returns (out: seq<Order>, failed: bool)
    ensures var all := sent + seq(MatchCount(order.items, term), _ => order);
      (failed <==> failAt.Some? && |sent| <= failAt.value < |all|) &&
      out == if failed then all[..failAt.value] else all
  {
    out, failed := sent, false;
    var j := 0;
    while j < |order.items|
      invariant 0 <= j <= |order.items|
      invariant out == sent + seq(MatchCount(order.items[..j], term), _ => order)
      invariant failAt.Some? && |sent| <= failAt.value ==> |out| <= failAt.value
    {
      assert order.items[..j + 1][..j] == order.items[..j];
      if Contains(order.items[j], term) {
        if failAt.Some? && failAt.value == |out| {
          MatchCountPrefix(order.items, j + 1, term);
          ghost var all := sent + seq(MatchCount(order.items, term), _ => order);
          assert all[..|out|] == out;
          failed := true;
          return;
        }
        out := out + [order];
      }
      j := j + 1;
    }
    assert order.items[..j] == order.items;
  }

  /** The search loop of SearchOrders over the order store `orders`. */
  method SearchStore(orders: map<string, Order>, term: string, failAt: Option<nat>)
    returns (sent: seq<Order>, outcome: Outcome, ghost keys: seq<string>)
    ensures IsEnumeration(keys, orders.Keys)
    ensures Delivered(SearchResults(orders, keys, term), Completed, failAt, sent, outcome)
  {
    sent, keys := [], [];
    var left := orders.Keys;
    while left != {}
      invariant Visiting(keys, left, orders.Keys)
      invariant sent == SearchResults(orders, keys, term)
      invariant failAt.Some? ==> |sent| <= failAt.value
      decreases |left|
    {
      var k :| k in left;
      var failed;
      sent, failed := SendMatches(orders[k], term, sent, failAt);
      SearchSnoc(orders, keys, k, term);
      VisitNext(keys, left, orders.Keys, k);
      if failed {
        ghost var visited := keys + [k];
        keys := Complete(visited, left - {k}, orders.Keys);
        SearchInterrupted(orders, visited, keys, term, failAt.value);
        outcome := Failed(SendError);
        return;
      }
      keys := keys + [k];
      left := left - {k};
    }
    VisitDone(keys, orders.Keys);
    outcome := Completed;
  }

  /** Sends the single reply of a client-streaming call and closes the
      stream; the send fails when it is send number `failAt`. */
  method SendAndClose(reply: string, failAt: Option<nat>) returns (sent: seq<string>, outcome: Outcome)
    ensures Delivered([reply], Completed, failAt, sent, outcome)
  {
    if failAt == Some(0) {
      sent, outcome := [], Failed(SendError);
    } else {
      sent, outcome := [reply], Completed;
    }
  }

  /** Iterates `groups`, sending the first shipment met and returning at once;
      over an empty map the loop does nothing and the handler goes on. */
  method SendFirst(groups: Groups, sent: seq<CombinedShipment>, failAt: Option<nat>)
    returns (out: seq<CombinedShipment>, returned: bool, failed: bool, ghost d: string)
    ensures returned <==> groups != map[]
    ensures returned ==> d in groups
    ensures failed <==> returned && failAt.Some? && failAt.value == |sent|
    ensures out == if returned && !failed then sent + [groups[d]] else sent
  {
    out, returned, failed, d := sent, false, false, "";
    if groups != map[] {
      var k :| k in groups;
      d, returned := k, true;
      if failAt.Some? && failAt.value == |sent| {
        failed := true;
      } else {
        out := sent + [groups[k]];
      }
    }
  }

  /** Adds `order` to the shipment for its destination, creating the shipment
      when the destination has none yet. */
  method AddToShipment(combined: Groups, order: Order) returns (r: Groups)
    ensures r == Route(combined, order)
  {
    var destination := order.destination;
    if destination in combined {
      var shipment := combined[destination];
      shipment := shipment.(orders := shipment.orders + [order]);
      r := combined[destination := shipment];
    } else {
      var shipment := CombinedShipment(ShipmentId(destination), ProcessedStatus, [order]);
      r := combined[destination := shipment];
    }
  }

  /** The receive loop of ProcessOrders over the order store `orders`. `i`
      is the receive position: it does not move past an end of input, which
      every later receive reports again. */
  method Aggregate(orders: map<string, Order>, inbox: seq<Received<string>>, failAt: Option<nat>)
    returns (sent: seq<CombinedShipment>, outcome: Outcome, ghost picks: seq<seq<string>>)
    ensures var t := Run(orders, inbox, Start);
      ValidPicks(t.emissions, picks) &&
      Delivered(Expand(t.emissions, picks), t.outcome, failAt, sent, outcome)
  {
    var batchMarker := 1;
    var combined: Groups := map[];
    sent, picks := [], [];
    ghost var done: seq<Emission> := [];
    ghost var flushed := false;
    HandlingBegins(orders, inbox, failAt);
    var i := 0;
    while i < |inbox|
      invariant Handling(orders, inbox, i, Session(combined, batchMarker), done, flushed, picks, sent, failAt) == true
      decreases |inbox| - i, Fallthroughs(Session(combined, batchMarker))
    {
      ghost var s := Session(combined, batchMarker);
      var event := inbox[i];
      if event.Eof? {
        var out, returned, failed, d := SendFirst(combined, sent, failAt);
        if returned {
          picks := EndDelivered(orders, inbox, i, s, done, flushed, picks, sent, failAt, d, out, failed);
          sent, outcome := out, if failed then Failed(SendError) else Completed;
          return;
        }
      } else if event.Fail? {
        FailDelivered(orders, inbox, i, s, done, flushed, picks, sent, failAt);
        outcome := Failed(RecvError(event.cause));
        return;
      }
      var id := if event.Msg? then event.value else "";
      assert id == EventId(event);
      if id !in orders {
        PanicDelivered(orders, inbox, i, s, done, flushed, picks, sent, failAt);
        outcome := Panicked;
        return;
      }
      combined := AddToShipment(combined, orders[id]);
      ghost var i0, done0, flushed0, picks0, sent0 := i, done, flushed, picks, sent;
      if batchMarker == BatchSize {
        var out, failed, ks := SendAll(combined, sent, failAt);
        if failed {
          picks := FlushDelivered(orders, inbox, i, s, done, flushed, picks, sent, failAt, combined, ks, out);
          sent, outcome := out, Failed(SendError);
          return;
        }
        ghost var g := combined;
        sent, done, picks := out, done + [Flush(combined)], picks + [ks];
        batchMarker, combined, flushed := 0, map[], true;
        if !event.Eof? {
          i := i + 1;
        }
        FlushStep(orders, inbox, i0, s, done0, flushed0, picks0, sent0, failAt, g, ks,
                  i, Session(combined, batchMarker), done, flushed, picks, sent);
      } else {
        batchMarker := batchMarker + 1;
        if !event.Eof? {
          i := i + 1;
        }
        RouteStep(orders, inbox, i0, s, done, flushed, picks, sent, failAt, combined,
                  i, Session(combined, batchMarker));
      }
    }
    ExhaustedDelivered(orders, inbox, Session(combined, batchMarker), done, flushed, picks, sent, failAt);
    outcome := Blocked;
  }

  /** The order-management service: its product and order stores. */
  class Service {
    var products: map<string, Product>
    var orders: map<string, Order>
    /** False while the service's orders map is nil. */
    var seeded: bool

    ghost predicate Valid()
      reads this
    {
      (!seeded ==> orders == map[]) &&
      OrdersKeyedById(orders) && ProductsKeyedById(products)
    }

    constructor ()
      ensures Valid() && products == map[] && orders == map[] && !seeded
    {
      products, orders, seeded := map[], map[], false;
    }

    /** Registers a product under the identifier the generator produced, or
        fails when the generator failed. */
    method AddProduct(name: string, description: string, price: int, generated: Option<string>)
      returns (r: Result<string>)
      requires Valid()
      modifies this
      ensures Valid() && orders == old(orders) && seeded == old(seeded)
      ensures generated.None? ==> r == Err(Internal) && products == old(products)
      ensures generated.Some? ==>
                r == Ok(generated.value) &&
                products == old(products)[generated.value := Product(generated.value, name, description, price)]
      ensures r.Ok? ==> GetProduct(r.value) == Ok(Product(r.value, name, description, price))
    {
      if generated.None? {
        return Err(Internal);
      }
      var id := generated.value;
      products := products[id := Product(id, name, description, price)];
      r := Ok(id);
    }

    /** The stored product, or NotFound. */
    function GetProduct(id: string): (r: Result<Product>)
      requires Valid()
      reads this
      ensures r.Ok? <==> id in products
      ensures r.Ok? ==> r.value == products[id] && r.value.id == id
      ensures r.Err? ==> r.error == NotFound
    {
      if id in products then Ok(products[id]) else Err(NotFound)
    }

    /** The stored order, or NotFound (also before the store is seeded). */
    function GetOrder(id: string): (r: Result<Order>)
      requires Valid()
      reads this
      ensures r.Ok? <==> id in orders
      ensures r.Ok? ==> r.value == orders[id] && r.value.id == id
      ensures r.Err? ==> r.error == NotFound
    {
      if id in orders then Ok(orders[id]) else Err(NotFound)
    }

    /** Replaces the order store with the fixture orders. */
    method InitOrders()
      modifies this
      requires Valid()
      ensures Valid() && seeded && orders == FixtureOrders() && products == old(products)
    {
      var items1 := InitItems(["Google", "Apple", "Baidu"]);
      var items2 := InitItems(["Micro", "Apple", "Baidu"]);
      var items3 := InitItems(["Google", "Apple", "Yahoo"]);
      orders := map[];
      orders := orders["1" := Order("1", "order1", 100, "client1", items1)];
      orders := orders["2" := Order("2", "order2", 200, "client2", items2)];
      orders := orders["3" := Order("3", "order3", 200, "client3", items3)];
      orders := orders["102" := Order("102", "", 1800, "Mountain View, CA", ["Google Pixel 3A", "Mac Book Pro"])];
      orders := orders["103" := Order("103", "", 400, "San Jose, CA", ["Apple Watch S4"])];
      orders := orders["104" := Order("104", "", 400, "Mountain View, CA", ["Google Home Mini", "Google Nest Hub"])];
      orders := orders["105" := Order("105", "", 30, "San Jose, CA", ["Amazon Echo"])];
      orders := orders["101" := Order("101", "", 300, "Mountain View, CA", ["Amazon Echo", "Apple iPhone XS"])];
      seeded := true;
    }

    /** Seeds the store if it is nil, then sends each stored order once per
        item containing `term`, visiting the store in some key order `keys`. */
    method SearchOrders(term: string, failAt: Option<nat>)
      returns (sent: seq<Order>, outcome: Outcome, ghost keys: seq<string>)
      requires Valid()
      modifies this
      ensures Valid() && seeded && products == old(products)
      ensures orders == if old(seeded) then old(orders) else FixtureOrders()
      ensures IsEnumeration(keys, orders.Keys)
      ensures Delivered(SearchResults(orders, keys, term), Completed, failAt, sent, outcome)
    {
      if !seeded {
        InitOrders();
      }
      sent, outcome, keys := SearchStore(orders, term, failAt);
    }

    /** Upserts every received order under its identifier and replies with
        the summary of the accepted identifiers at end of input. Writing into
        the nil store panics. */
    method UpdateOrders(inbox: seq<Received<Order>>, failAt: Option<nat>)
      returns (sent: seq<string>, outcome: Outcome)
      requires Valid()
      modifies this
      ensures Valid() && products == old(products) && seeded == old(seeded)
      ensures var os := Accepted(inbox);
        if !old(seeded) && os != [] then
          orders == old(orders) && sent == [] && outcome == Panicked
        else
          orders == Upsert(old(orders), os) &&
          if Eof in inbox then Delivered([Summary(Ids(os))], Completed, failAt, sent, outcome)
          else Delivered([], Blocked, failAt, sent, outcome)
    {
      var orderStr := "Update Order IDs: ";
      ghost var accepted: seq<Order> := [];
      ReadStart(inbox);
      var i := 0;
      while i < |inbox|
        invariant ReadUpTo(inbox, i, accepted)
        invariant products == old(products) && seeded == old(seeded)
        invariant !seeded ==> accepted == []
        invariant orders == Upsert(old(orders), accepted)
        invariant orderStr == "Update Order IDs: " + IdList(Ids(accepted))
      {
        ReadNext(inbox, i, accepted);
        match inbox[i] {
          case Eof =>
            Associative("Orders processed ", "Update Order IDs: ", IdList(Ids(accepted)));
            UpsertKeyed(old(orders), accepted);
            sent, outcome := SendAndClose("Orders processed " + orderStr, failAt);
            return;
          case Fail(_) =>
          case Msg(order) =>
            if !seeded {
              sent, outcome := [], Panicked;
              return;
            }
            AcceptOne(old(orders), accepted, order);
            orders := orders[order.id := order];
            orderStr := orderStr + order.id + ", ";
            accepted := accepted + [order];
        }
        i := i + 1;
      }
      ReadAll(inbox, accepted);
      UpsertKeyed(old(orders), accepted);
      sent, outcome := [], Blocked;
    }

    /** Seeds the store if it is nil, then routes each received order
        identifier into the shipment for its destination, flushing all
        shipments whenever the batch marker reaches the batch size; at end of
        input sends one pending shipment and returns. What is sent is the
        reference run `Run` expanded along the key orders `picks` the handler
        iterated its map in. */
    method ProcessOrders(inbox: seq<Received<string>>, failAt: Option<nat>)
      returns (sent: seq<CombinedShipment>, outcome: Outcome, ghost picks: seq<seq<string>>)
      requires Valid()
      modifies this
      ensures Valid() && seeded && products == old(products)
      ensures orders == if old(seeded) then old(orders) else FixtureOrders()
      ensures var t := Run(orders, inbox, Start);
        ValidPicks(t.emissions, picks) &&
        Delivered(Expand(t.emissions, picks), t.outcome, failAt, sent, outcome)
    {
      if !seeded {
        InitOrders();
      }
      sent, outcome, picks := Aggregate(orders, inbox, failAt);
    }
  }
}
