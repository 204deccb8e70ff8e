/** The fixture orders installed when the order store is first used. */
module Fixture {
  import opened Types

  /** The eight orders of initOrders, each under its own identifier. */
  function FixtureOrders(): (m: map<string, Order>)
    ensures OrdersKeyedById(m)
    ensures m.Keys == {"1", "2", "3", "101", "102", "103", "104", "105"}
  {
    map[
      "1" := Order("1", "order1", 100, "client1", ["Google", "Apple", "Baidu"]),
      "2" := Order("2", "order2", 200, "client2", ["Micro", "Apple", "Baidu"]),
      "3" := Order("3", "order3", 200, "client3", ["Google", "Apple", "Yahoo"]),
      "102" := Order("102", "", 1800, "Mountain View, CA", ["Google Pixel 3A", "Mac Book Pro"]),
      "103" := Order("103", "", 400, "San Jose, CA", ["Apple Watch S4"]),
      "104" := Order("104", "", 400, "Mountain View, CA", ["Google Home Mini", "Google Nest Hub"]),
      "105" := Order("105", "", 30, "San Jose, CA", ["Amazon Echo"]),
      "101" := Order("101", "", 300, "Mountain View, CA", ["Amazon Echo", "Apple iPhone XS"])
    ]
  }
}
