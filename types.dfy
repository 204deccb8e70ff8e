/** Values exchanged by the order-management service: orders, products,
    combined shipments, stream events and handler outcomes. */
module Types {

  datatype Option<+T> = None | Some(value: T)

  /** Errors a handler can return to its caller. */
  datatype Error =
    | NotFound          // unknown product or order identifier
    | Internal          // the product identifier could not be generated
    | RecvError(cause: string)  // a receive on the stream failed
    | SendError         // a send on the stream failed

  datatype Result<+T> = Ok(value: T) | Err(error: Error)

  /** How a streaming handler ends. `Blocked` means the finite input ran out
      before an end-of-input signal, so the handler is still waiting in Recv;
      `Panicked` is a nil dereference or a write into a nil map. */
  datatype Outcome = Completed | Failed(error: Error) | Panicked | Blocked

  /** One result of `stream.Recv()`: a message, clean end of input, or a
      transport error. */
  datatype Received<+T> = Msg(value: T) | Eof | Fail(cause: string)

  /** A purchase order. The price is a float32 in the service; nothing
      computes with it, so it is kept as an opaque number. */
  datatype Order = Order(
    id: string,
    description: string,
    price: int,
    destination: string,
    items: seq<string>)

  /** A registered product (the stored AddProduct request). */
  datatype Product = Product(id: string, name: string, description: string, price: int)

  /** Orders going to one destination, shipped together. */
  datatype CombinedShipment = CombinedShipment(id: string, status: string, orders: seq<Order>)

  /** Every entry of a store is keyed by its own identifier. */
  ghost predicate OrdersKeyedById(m: map<string, Order>)
  {
    forall k :: k in m ==> m[k].id == k
  }

  ghost predicate ProductsKeyedById(m: map<string, Product>)
  {
    forall k :: k in m ==> m[k].id == k
  }
}
