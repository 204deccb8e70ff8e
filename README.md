# Order-management service: a verified model

This project models the request handlers of the gRPC order-management
service in `server/service.go`. The service keeps two in-memory stores:
products, keyed by a generated identifier, and orders, keyed by order id.
The orders store starts as a nil Go map. The first `SearchOrders` or
`ProcessOrders` call seeds it with eight fixture orders. `GetOrder` and
`UpdateOrders` do not seed it: before seeding, `GetOrder` finds nothing,
and `UpdateOrders` panics on its first order. The handlers are:

- `AddProduct`, `GetProduct`, `GetOrder`: unary insert and lookups;
- `SearchOrders`: a server stream that sends an order once for every one
  of its items that contains the search term;
- `UpdateOrders`: a client stream that upserts each received order and
  answers with a summary of the ids;
- `ProcessOrders`: a bidirectional stream that groups the received order
  ids into combined shipments by destination, and flushes the groups in
  batches.

Module layout:

- `Types` (types.dfy): orders, products, combined shipments, errors,
  stream events (`Received`: a message, end of input, or a receive error)
  and handler outcomes (`Completed`, `Failed`, `Panicked` for a nil
  dereference or a write into a nil map, and `Blocked` when the finite
  input runs out while the handler is still waiting to receive).
- `Streams` (streams.dfy): Go map iteration and stream delivery.
  - Map iteration order is unspecified, so every loop over a map records
    the order it visited the keys in as a ghost enumeration of the key set.
    Every result is stated for all enumerations.
  - `failAt` is the index of the first send that fails, if any.
  - `Delivered` says what a caller then sees: the messages before the
    failing send and a send error, or everything and the handler's own
    outcome.
- `Aggregator` (aggregator.dfy): the reference semantics of
  `ProcessOrders`.
  - `Route` adds one order to the destination map.
  - `Step` and `Run` are the receive loop. They produce a list of emissions:
    a full flush, or the single shipment sent at end of input.
  - `Expand` turns the emissions into the shipments put on the wire, along
    a chosen key order.
- `Search`, `Update`, `Text` (search.dfy, update.dfy, text.dfy): the
  specification functions of `SearchOrders` (`strings.Contains` included)
  and of `UpdateOrders`.
- `Fixture` (fixture.dfy): the data that `initOrders` installs.
- `Scenario` (scenario.dfy): the four-order example worked out on `Run`.
- `OrderManagement` (service.dfy): the imperative model.
  - The `Service` class holds `products`, `orders` and `seeded`. `seeded`
    is false while the Go map is still nil.
  - The handlers are methods with the source's loops.
  - Each streaming loop is proved against the matching specification
    function.

The service is meant to ship combined shipments in batches of
`orderBatchSize` (3) orders, to flush every pending shipment when the
client ends its input, and to answer an unknown order id with `NotFound`.
The code does otherwise in several places, and the model follows the code:

- The batch marker starts at 1 and is reset to 0 after a flush
  (`server/service.go:163`, `:207`). The first flush therefore comes
  after the 3rd routed id, and later ones after every 4th (7th, 11th, …),
  rather than one flush every 3 ids.
  - `Aggregator.CadenceFromStart` proves that N known ids give
    `(N + 1) / 4` flushes.
  - `Aggregator.Cadence` gives the general count, `(N + marker) / 4`
    from any marker.
  - `Aggregator.RunBatches` shows which orders each flush holds: exactly
    those of its batch, grouped by destination in arrival order.
- At end of input the handler sends the first shipment the map iteration
  yields and returns (`:169-173`); the other pending shipments are never
  flushed. `Aggregator.EndOfInputSendsOne` proves that exactly one
  shipment is sent, and that with two or more groups some group is never
  sent.
- An unknown order id dereferences a nil pointer (`:181`). The model ends
  that run as `Panicked`, with nothing further sent, where `NotFound` is
  meant.
- End of input with no pending shipment falls through the loop and looks
  up the empty id, because `GetOrderId()` on a nil message returns "".
  - Every later receive reports end of input again, so the model's receive
    position never moves past an end of input.
  - If an order is stored under the empty id, it is routed, and the
    repeated end of input then sends its shipment
    (`Aggregator.EndOfInputFallsThrough`).
  - Otherwise the run panics (`Aggregator.StopsWithoutSending`).
  - A flush empties the pending shipments. So a client that ends its input
    right after a flush, that is after 3, 7, 11, … ids, gets the flushes
    and then a crash instead of a clean close
    (`Aggregator.EndAfterFlushPanics`).
- `UpdateOrders` does not seed the store. Receiving an order while the
  store is still nil writes into a nil map, which is `Panicked` in the
  model.
- The shipment id is `"cmb - " + destination` and the status is
  `"Processed!"`.

Four ids whose destinations are A, A, B, A, followed by end of input,
behave as intended: a flush of {A: two orders, B: one order}, then A's
fourth order at end of input. `Scenario.FourOrders` proves this for any
store. With the fixture data it is, for example, ids 102, 104, 103, 101.

## Model

| member | source | states |
|---|---|---|
| OrderManagement.Service.constructor | server/service.go:21-24 | a new service has empty product and order maps and an unseeded (nil) order store |
| OrderManagement.Service.AddProduct | server/service.go:30-45 | with no generated id the result is `Internal` and the products are unchanged; otherwise the product is stored under the generated id, that id is returned, and `GetProduct` of it returns the stored product; orders untouched |
| OrderManagement.Service.GetProduct | server/service.go:47-61 | succeeds exactly when the id is stored, returning the stored product, whose id is the requested one; otherwise `NotFound` |
| OrderManagement.Service.GetOrder | server/service.go:63-69 | succeeds exactly when the id is stored, returning the stored order; otherwise `NotFound` |
| OrderManagement.InitItems | server/service.go:71-78 | the appending loop returns exactly its arguments, in order |
| OrderManagement.Service.InitOrders | server/service.go:80-112 | the order store becomes exactly the fixture map and is marked seeded; products unchanged |
| Fixture.FixtureOrders | server/service.go:83-111 | the fixture holds exactly the eight ids 1, 2, 3, 101–105, each keyed by its own id |
| Text.Contains | server/service.go:123 | true exactly when the term occurs at some position of the item (case-sensitive substring, the empty term always occurs) |
| Search.MatchCount | server/service.go:121-129 | the number of matching items is at most the number of items, and with an empty term every item matches |
| Search.SearchPrefix | server/service.go:119-130 | what an iteration over part of the keys sends is a prefix of what the full iteration sends |
| Search.SearchInterrupted | server/service.go:124-127 | a send that fails during an interrupted iteration leaves the same sent prefix as in a complete iteration |
| Search.SearchCount | server/service.go:119-130 | along distinct keys of a keyed store, each order is sent exactly as many times as it has matching items, and orders not visited are never sent |
| Search.SearchSendsEachMatch | server/service.go:119-130 | along any iteration order of the whole store, each stored order is sent once per matching item and nothing else is sent |
| OrderManagement.SendMatches | server/service.go:121-129 | the item loop sends the order once per matching item, and stops at the first failing send, having sent exactly the messages before it |
| OrderManagement.SearchStore | server/service.go:119-131 | the nested loops send the search results along some enumeration of the store's keys; the first failing send ends the stream with a send error after exactly the results before it |
| OrderManagement.Service.SearchOrders | server/service.go:114-132 | a nil store is seeded with the fixture, a seeded one is left unchanged; then the search results are delivered as above |
| Update.ReadNext | server/service.go:136-150 | one receive: end of input fixes the accepted orders, a receive error skips, a message is accepted |
| Update.ReadAll | server/service.go:136-152 | input exhausted without end of input: every message was accepted and the handler never replied |
| Update.AcceptOne | server/service.go:145-147 | accepting one more order updates the store at its id and appends `id, ` to the id list |
| Update.LastWriteWins | server/service.go:145 | after the upserts a key is stored exactly when it was stored before or received; its value is the last received order with that id, or else the old value |
| Update.UpsertKeyed | server/service.go:145 | upserting orders keeps every entry keyed by its own id |
| Update.IdListSplit | server/service.go:147 | the id list is the ids in arrival order, each followed by ", " |
| Update.SummaryMentions | server/service.go:141-147 | every received id, followed by ", ", occurs in the reply |
| OrderManagement.SendAndClose | server/service.go:139-142 | the single reply is delivered and the stream closes successfully, unless that send fails |
| OrderManagement.Service.UpdateOrders | server/service.go:134-154 | on an unseeded store a received order panics with nothing sent; otherwise the store becomes the old store upserted with the received orders, and at end of input the reply "Orders processed Update Order IDs: " plus the id list is delivered; without end of input nothing is sent |
| Aggregator.ShipmentIdInjective | server/service.go:189-190 | distinct destinations get distinct shipment ids |
| Aggregator.Route | server/service.go:181-197 | routing adds the order's destination to the keys and leaves every other group unchanged; the order goes on the end of its group, and a new group gets id `"cmb - "+destination` and status `"Processed!"` while an existing one keeps its id and status |
| Aggregator.RouteInvariant | server/service.go:182-197 | routing keeps every group holding only orders for its own key, and adds exactly one order in total |
| Aggregator.WindowGroups | server/service.go:182-197 | the groups after routing a window of orders are exactly the destinations seen, each holding that destination's orders in arrival order; the total equals the window's length |
| Aggregator.FillWindow | server/service.go:181-211 | ids that leave the marker below the batch size emit nothing; the pending shipments become the window of every order received so far, and the marker advances by their number |
| Aggregator.CloseWindow | server/service.go:181-208 | the id that finds the marker at the batch size flushes exactly the window of the orders received since the last flush, itself included, and leaves an empty map with marker 0 |
| Aggregator.RunBatches | server/service.go:163-211 | over known ids the handler's run equals `Batched`: the ids are cut into batches (3 for the first, then 4), each flush holds exactly its batch's orders grouped by destination in arrival order, and the pending shipments hold the orders received since the last flush |
| Aggregator.FirstFlush | server/service.go:163-208 | from the start, the first flush holds exactly the window of the first three orders received |
| Aggregator.Run | server/service.go:165-212 | the receive loop, with end of input received again after it falls through; a single-shipment send happens only as the last emission, of a non-empty map, and the handler then returns successfully |
| Aggregator.Expand | server/service.go:169-205 | along valid key orders a flush sends one message per group and an end-of-input send one message: the number of messages is that total |
| Aggregator.ExpandAppend | server/service.go:169-205 | the messages of consecutive emissions are the concatenation of each one's messages |
| Aggregator.SomePicks | server/service.go:169-205 | every emission sequence the loop can produce has an order of sending |
| Aggregator.Cadence | server/service.go:163-211 | over known ids the loop flushes (N + marker) / 4 times, every emission is a flush, the first flush holds 3 orders unless one has already happened and every later flush 4; the marker ends at (N + marker) mod 4 and the groups stay well-formed |
| Aggregator.CadenceFromStart | server/service.go:163-211 | from the start, N known ids give (N + 1) / 4 flushes; the orders pending equal batchMarker - 1 before the first flush and batchMarker after it |
| Aggregator.StopsWithoutSending | server/service.go:166-181 | a receive error returns that error; an unknown id panics, and so does end of input with nothing pending when the empty id is not stored; in each case nothing more is sent and the state is unchanged |
| Aggregator.EndOfInputFallsThrough | server/service.go:166-197 | end of input with nothing pending and an order stored under the empty id: that order is routed, end of input is received again, and its new shipment is sent with a successful return |
| Aggregator.RunThrough | server/service.go:165-212 | over ids of stored orders the loop never stops, and what follows them runs from the state they left |
| Aggregator.EndAfterFlushPanics | server/service.go:166-211 | after 3, 7, 11, … known ids, end of input finds no pending shipment and panics when the empty id is not stored; only the (N + 1) / 4 flushes were emitted |
| Aggregator.EndOfInputSendsOne | server/service.go:168-174 | end of input with pending groups sends exactly one of them and returns successfully; with two or more groups some group is never sent |
| Scenario.FourOrders | server/service.go:156-213 | ids to destinations A, A, B, A then end of input: a flush of {A: first two, B: one}, then A's fourth order alone at end of input |
| OrderManagement.SendAll | server/service.go:200-205 | the flush loop sends every group once along some enumeration of the keys, and stops at the first failing send with exactly the messages before it |
| OrderManagement.SendFirst | server/service.go:169-174 | the end-of-input loop sends one group if the map is non-empty and returns; it reports whether the map was empty and whether the send failed |
| OrderManagement.AddToShipment | server/service.go:181-197 | the in-place update of the shipment map equals `Route` |
| OrderManagement.Aggregate | server/service.go:163-212 | the receive loop's messages and outcome are those of `Run` expanded along the recorded key orders, cut at the first failing send |
| OrderManagement.Service.ProcessOrders | server/service.go:156-213 | a nil store is seeded with the fixture, a seeded one is left unchanged; then the shipments sent and the outcome are those of `Run` over the store, as delivered on the stream |
| Streams.Enumerate | server/service.go:119 | every finite key set has an iteration order that visits each key once |
| Streams.PickCovers | server/service.go:200 | iterating a map along an enumeration visits every value |

## Left out

- Logging (`log.Printf`, `log.Print`) has no effect on the state or the stream and is not modelled.
- The `float32` prices are kept as an integer field; nothing computes with them.
- UUID generation (`uuid.NewV4`) is foreign randomness. It is a parameter of `AddProduct`: `None` models the generator's error branch.
- `status.Errorf` and `fmt.Errorf` message formatting: errors are the `Error` datatype (`NotFound`, `Internal`, `RecvError`, `SendError`).
- The transport is not modelled. Received messages are a finite input sequence. Sends are an output sequence, and the one failing send is the `failAt` parameter.
- Concurrent calls on the shared maps are not modelled. The gRPC runtime may run handlers in parallel; the model runs one handler at a time.
- client/main.go and server/main.go (client wiring, argument parsing, listening and registration) are not part of this model.
- OrderManagement.Service.UpdateOrders: repeated receive errors make the Go loop spin forever. The model's input is finite: a receive error is skipped like a nil order, and input that runs out before end of input ends as `Blocked`.
- OrderManagement.Service.ProcessOrders: input that runs out before end of input ends as `Blocked` (the handler would still be waiting to receive); what the caller does afterwards is not modelled. Events listed after the first end of input are never read, since the transport reports end of input on every later receive.
- A handler that panics brings down the whole server process, since grpc-go does not recover handler panics. The model only records the `Panicked` outcome, and the `Service` state it leaves, such as the unchanged store after `UpdateOrders`, stands for nothing further.
- Text.Contains works on strings as sequences of characters, where `strings.Contains` works on bytes. The two agree on valid UTF-8, which is what protobuf string fields deliver.
- The nondeterministic choice of which group is sent at end of input, and the key order of each flush, are existential in the model (ghost key orders). The model does not predict which order Go's runtime picks.
