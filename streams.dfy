/** Iteration over a Go map and delivery on a stream.

    Go leaves the iteration order of a map unspecified, so the model records
    the order a handler visited the keys in as an enumeration of the key set
    and states results for every enumeration. A stream delivers messages in
    send order until the first send that fails; `failAt` is the index of that
    send, if any. */
module Streams {
  import opened Types

  ghost predicate Distinct(ks: seq<string>)
  {
    forall i, j :: 0 <= i < j < |ks| ==> ks[i] != ks[j]
  }

  /** `ks` lists every element of `s` exactly once. */
  ghost predicate IsEnumeration(ks: seq<string>, s: set<string>)
  {
    |ks| == |s| && Distinct(ks) && (forall k :: k in ks <==> k in s)
  }

  /** An iteration over `s` that has visited `ks` and has `left` to go. */
  ghost predicate Visiting(ks: seq<string>, left: set<string>, s: set<string>)
  {
    left <= s && Distinct(ks) && |ks| + |left| == |s| &&
    forall k :: k in ks <==> k in s && k !in left
  }

  /** Visiting one more key. */
  lemma VisitNext(ks: seq<string>, left: set<string>, s: set<string>, d: string)
    requires Visiting(ks, left, s) && d in left
    ensures Visiting(ks + [d], left - {d}, s)
  {
  }

  /** An iteration with nothing left has visited every key once. */
  lemma VisitDone(ks: seq<string>, s: set<string>)
    requires Visiting(ks, {}, s)
    ensures IsEnumeration(ks, s)
  {
  }

  /** Every finite set has an enumeration: a map can always be iterated. */
  lemma {:induction false} Enumerate(s: set<string>) returns (ks: seq<string>)
    ensures IsEnumeration(ks, s)
    decreases |s|
  {
    if s == {} {
      ks := [];
    } else {
      var k :| k in s;
      var rest := Enumerate(s - {k});
      ks := [k] + rest;
      assert forall x :: x in ks <==> x == k || x in rest;
    }
  }

  /** An iteration interrupted with the keys `left` still unvisited can be
      completed to a full enumeration that starts with the keys visited. */
  lemma Complete(visited: seq<string>, left: set<string>, s: set<string>) returns (ks: seq<string>)
    requires Visiting(visited, left, s)
    ensures IsEnumeration(ks, s) && |visited| <= |ks| && ks[..|visited|] == visited
  {
    var rest := Enumerate(left);
    ks := visited + rest;
    assert ks[..|visited|] == visited;
    forall i, j | 0 <= i < j < |ks| ensures ks[i] != ks[j] {
      if j < |visited| {
      } else if i < |visited| {
        assert ks[j] in rest;
      } else {
        assert ks[i] == rest[i - |visited|] && ks[j] == rest[j - |visited|];
      }
    }
    assert forall x :: x in ks <==> x in visited || x in rest;
  }

  /** The values of `m` in the order given by the keys `ks`. */
  function Pick<V>(m: map<string, V>, ks: seq<string>): (r: seq<V>)
    requires forall k :: k in ks ==> k in m
    ensures |r| == |ks|
    ensures forall i :: 0 <= i < |ks| ==> r[i] == m[ks[i]]
  {
    if ks == [] then [] else [m[ks[0]]] + Pick(m, ks[1..])
  }

  lemma PickSnoc<V>(m: map<string, V>, ks: seq<string>, d: string)
    requires forall k :: k in ks ==> k in m
    requires d in m
    ensures Pick(m, ks + [d]) == Pick(m, ks) + [m[d]]
  {
    assert forall i :: 0 <= i < |ks| ==> (ks + [d])[i] == ks[i];
  }

  lemma PickPrefix<V>(m: map<string, V>, ks: seq<string>, n: nat)
    requires forall k :: k in ks ==> k in m
    requires n <= |ks|
    ensures Pick(m, ks)[..n] == Pick(m, ks[..n])
  {
  }

  /** An iteration interrupted before visiting `d` is the beginning of a
      complete one that picks more values. */
  lemma Interrupted<V>(m: map<string, V>, visited: seq<string>, left: set<string>, d: string)
    returns (ks: seq<string>)
    requires Visiting(visited, left, m.Keys) && d in left
    ensures IsEnumeration(ks, m.Keys) && |visited| < |ks| && ks[..|visited|] == visited
    ensures Pick(m, ks)[..|visited|] == Pick(m, visited)
  {
    ks := Complete(visited, left, m.Keys);
    PickPrefix(m, ks, |visited|);
  }

  lemma Associative<T>(a: seq<T>, b: seq<T>, c: seq<T>)
    ensures a + (b + c) == (a + b) + c
  {
  }

  /** A prefix of a prefix of `a` is a prefix of `a`. */
  lemma PrefixOfPrefix<T>(a: seq<T>, b: seq<T>, n: nat)
    requires |b| <= |a| && a[..|b|] == b && n <= |b|
    ensures a[..n] == b[..n]
  {
    assert forall i :: 0 <= i < n ==> a[..n][i] == a[..|b|][i];
  }

  /** Along an enumeration every value of the map is picked. */
  lemma PickCovers<V>(m: map<string, V>, ks: seq<string>, k: string)
    requires IsEnumeration(ks, m.Keys) && k in m
    ensures m[k] in Pick(m, ks)
  {
    var i :| 0 <= i < |ks| && ks[i] == k;
    assert Pick(m, ks)[i] == m[k];
  }

  /** What a caller sees when a handler means to send `all` and then end
      with `end`, on a stream whose send number `failAt` fails: the messages
      before the failing send, and a send error; otherwise everything and
      `end`. */
  ghost predicate Delivered<M>(all: seq<M>, end: Outcome, failAt: Option<nat>,
                               sent: seq<M>, outcome: Outcome)
  {
    if failAt.Some? && failAt.value < |all| then
      sent == all[..failAt.value] && outcome == Failed(SendError)
    else
      sent == all && outcome == end
  }
}
