/** The server-streaming search (SearchOrders): every stored order is sent
    once per item whose name contains the search term. */
module Search {
  import opened Types
  import opened Streams
  import opened Text

  /** How many of `items` contain `term`. */
  function MatchCount(items: seq<string>, term: string): (n: nat)
    ensures n <= |items|
    ensures term == [] ==> n == |items|
    decreases |items|
  {
    if items == [] then 0
    else
      var last := items[|items| - 1];
      assert term == [] ==> last[..0] == term;
      MatchCount(items[..|items| - 1], term) + if Contains(last, term) then 1 else 0
  }

  /** Matches among the first `j` items never exceed the matches among all. */
  lemma {:induction false} MatchCountPrefix(items: seq<string>, j: nat, term: string)
    requires j <= |items|
    ensures MatchCount(items[..j], term) <= MatchCount(items, term)
    decreases |items|
  {
    if j < |items| {
      var init := items[..|items| - 1];
      assert items[..j] == init[..j];
      MatchCountPrefix(init, j, term);
    } else {
      assert items[..j] == items;
    }
  }

  /** What the handler sends when it visits the stored keys in the order
      `ks`: for each key, its order once per matching item. */
  function SearchResults(orders: map<string, Order>, ks: seq<string>, term: string): (r: seq<Order>)
    requires forall k :: k in ks ==> k in orders
    decreases |ks|
  {
    if ks == [] then []
    else
      var k := ks[|ks| - 1];
      SearchResults(orders, ks[..|ks| - 1], term) + seq(MatchCount(orders[k].items, term), _ => orders[k])
  }

  /** Visiting fewer keys sends a prefix of what visiting more keys sends. */
  lemma {:induction false} SearchPrefix(orders: map<string, Order>, ks: seq<string>, m: nat, term: string)
    requires forall k :: k in ks ==> k in orders
    requires m <= |ks|
    ensures var all, part := SearchResults(orders, ks, term), SearchResults(orders, ks[..m], term);
      |part| <= |all| && all[..|part|] == part
    decreases |ks|
  {
    if m < |ks| {
      var init := ks[..|ks| - 1];
      assert ks[..m] == init[..m];
      SearchPrefix(orders, init, m, term);
    } else {
      assert ks[..m] == ks;
    }
  }

  /** Visiting one more key sends that key's matches after the others. */
  lemma SearchSnoc(orders: map<string, Order>, ks: seq<string>, k: string, term: string)
    requires forall x :: x in ks ==> x in orders
    requires k in orders
    ensures SearchResults(orders, ks + [k], term) ==
              SearchResults(orders, ks, term) + seq(MatchCount(orders[k].items, term), _ => orders[k])
  {
    assert (ks + [k])[..|ks|] == ks;
  }

  /** A search interrupted within the keys `visited` has sent a prefix of
      what the complete visit `full` starting with them sends. */
  lemma SearchInterrupted(orders: map<string, Order>, visited: seq<string>, full: seq<string>,
                          term: string, n: nat)
    requires forall x :: x in full ==> x in orders
    requires |visited| <= |full| && full[..|visited|] == visited
    requires n < |SearchResults(orders, visited, term)|
    ensures var all := SearchResults(orders, full, term);
      n < |all| && all[..n] == SearchResults(orders, visited, term)[..n]
  {
    SearchPrefix(orders, full, |visited|, term);
  }

  lemma {:induction false} RepeatCount(o: Order, n: nat, x: Order)
    ensures multiset(seq(n, _ => o))[x] == if x == o then n else 0
  {
    if n > 0 {
      RepeatCount(o, n - 1, x);
      assert seq(n, _ => o) == seq(n - 1, _ => o) + [o];
    }
  }

  /** Over distinct keys of a store keyed by identifier, an order is sent as
      many times as it has items containing the term if its key was visited,
      and never otherwise. */
  lemma {:induction false} SearchCount(orders: map<string, Order>, ks: seq<string>, term: string, o: Order)
    requires OrdersKeyedById(orders) && Distinct(ks)
    requires forall k :: k in ks ==> k in orders
    ensures multiset(SearchResults(orders, ks, term))[o] ==
              if o.id in ks && orders[o.id] == o then MatchCount(o.items, term) else 0
    decreases |ks|
  {
    if ks != [] {
      var init, k := ks[..|ks| - 1], ks[|ks| - 1];
      assert Distinct(init);
      assert ks == init + [k];
      SearchCount(orders, init, term, o);
      var c := MatchCount(orders[k].items, term);
      RepeatCount(orders[k], c, o);
      assert multiset(SearchResults(orders, ks, term)) ==
             multiset(SearchResults(orders, init, term)) + multiset(seq(c, _ => orders[k]));
      if o.id == k {
        assert k !in init;
      }
    }
  }

  /** The whole store visited once: each stored order is sent exactly once per
      matching item, and nothing else is sent. */
  lemma SearchSendsEachMatch(orders: map<string, Order>, ks: seq<string>, term: string, o: Order)
    requires OrdersKeyedById(orders) && IsEnumeration(ks, orders.Keys)
    ensures multiset(SearchResults(orders, ks, term))[o] ==
              if o.id in orders && orders[o.id] == o then MatchCount(o.items, term) else 0
  {
    SearchCount(orders, ks, term, o);
  }
}
