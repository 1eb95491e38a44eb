/**
 * The two orders the engine derives from the priorities: the default
 * server (`min` over the mapping, which keeps the first of several equal
 * minima) and the candidate order (`sorted` by priority, which is stable,
 * so equal priorities keep their configuration order).
 */
module Priority {
  import opened Config

  /**
   * Server i precedes server j in the stable ascending-priority order:
   * a smaller priority, or the same priority and an earlier entry.
   */
  predicate Ahead(servers: seq<ServerSpec>, i: nat, j: nat)
    requires i < |servers| && j < |servers|
  {
    servers[i].priority < servers[j].priority || (servers[i].priority == servers[j].priority && i < j)
  }

  predicate InRange(servers: seq<ServerSpec>, t: seq<nat>) {
    forall k :: 0 <= k < |t| ==> t[k] < |servers|
  }

  /** Each position is Ahead of every later one. */
  predicate SortedBy(servers: seq<ServerSpec>, t: seq<nat>)
    requires InRange(servers, t)
  {
    forall a, b :: 0 <= a < b < |t| ==> Ahead(servers, t[a], t[b])
  }

  /** Insert index i before the first index it is Ahead of. */
  function Insert(servers: seq<ServerSpec>, i: nat, t: seq<nat>): (r: seq<nat>)
    requires i < |servers| && InRange(servers, t)
    ensures |r| == |t| + 1
    ensures multiset(r) == multiset(t) + multiset{i}
    ensures forall x :: x in r <==> x in t || x == i
    ensures InRange(servers, r)
  {
    if t == [] || Ahead(servers, i, t[0]) then [i] + t
    else
      var rest := Insert(servers, i, t[1..]);
      assert t == [t[0]] + t[1..];
      [t[0]] + rest
  }

  /** Insertion sort of the indices k, ..., |servers| - 1. */
  function SortFrom(servers: seq<ServerSpec>, k: nat): (r: seq<nat>)
    requires k <= |servers|
    ensures |r| == |servers| - k
    ensures InRange(servers, r)
    ensures forall x :: x in r <==> k <= x < |servers|
    decreases |servers| - k
  {
    if k == |servers| then []
    else
      var t := SortFrom(servers, k + 1);
      Insert(servers, k, t)
  }

  /** The configured servers, as indices, in the order `sorted` by priority visits them. */
  function PriorityOrder(servers: seq<ServerSpec>): (r: seq<nat>)
    ensures InRange(servers, r)
  {
    SortFrom(servers, 0)
  }

  lemma {:induction false} InsertSorted(servers: seq<ServerSpec>, i: nat, t: seq<nat>)
    requires i < |servers| && InRange(servers, t) && SortedBy(servers, t) && i !in t
    ensures SortedBy(servers, Insert(servers, i, t))
  {
    if t == [] || Ahead(servers, i, t[0]) {
    } else {
      var rest := Insert(servers, i, t[1..]);
      assert t == [t[0]] + t[1..];
      assert SortedBy(servers, t[1..]);
      InsertSorted(servers, i, t[1..]);
      var r := [t[0]] + rest;
      assert Insert(servers, i, t) == r;
      assert Ahead(servers, t[0], i);
      forall b | 0 < b < |r| ensures Ahead(servers, t[0], r[b]) {
        assert r[b] == rest[b - 1] && rest[b - 1] in rest;
      }
      forall a, b | 0 < a < b < |r| ensures Ahead(servers, r[a], r[b]) {
        assert r[a] == rest[a - 1] && r[b] == rest[b - 1];
      }
    }
  }

  lemma {:induction false} SortFromSorted(servers: seq<ServerSpec>, k: nat)
    requires k <= |servers|
    ensures SortedBy(servers, SortFrom(servers, k))
    decreases |servers| - k
  {
    if k < |servers| {
      SortFromSorted(servers, k + 1);
      InsertSorted(servers, k, SortFrom(servers, k + 1));
    }
  }

  /**
   * The candidate order lists every configured server exactly once, in
   * ascending priority, equal priorities in configuration order.
   */
  lemma PriorityOrderIsStableSort(servers: seq<ServerSpec>)
    ensures |PriorityOrder(servers)| == |servers|
    ensures forall x :: x in PriorityOrder(servers) <==> 0 <= x < |servers|
    ensures SortedBy(servers, PriorityOrder(servers))
    ensures forall a, b :: 0 <= a < b < |servers| ==> PriorityOrder(servers)[a] != PriorityOrder(servers)[b]
    ensures forall a, b :: 0 <= a < b < |servers| ==>
      servers[PriorityOrder(servers)[a]].priority <= servers[PriorityOrder(servers)[b]].priority
  {
    SortFromSorted(servers, 0);
  }

  /**
   * The default server: the first entry of least priority, as `min` with a
   * key function returns it.
   */
  function HighestPriority(servers: seq<ServerSpec>): (r: nat)
    requires |servers| > 0
    ensures r < |servers|
    ensures forall j :: 0 <= j < |servers| ==> servers[r].priority <= servers[j].priority
    ensures forall j :: 0 <= j < r ==> servers[j].priority > servers[r].priority
  {
    if |servers| == 1 then 0
    else
      var r := HighestPriority(servers[..|servers| - 1]);
      if servers[|servers| - 1].priority < servers[r].priority then |servers| - 1 else r
  }

  /** The default server is the one the candidate order puts first. */
  lemma HighestPriorityLeadsOrder(servers: seq<ServerSpec>)
    requires |servers| > 0
    ensures PriorityOrder(servers)[0] == HighestPriority(servers)
  {
    PriorityOrderIsStableSort(servers);
    var o := PriorityOrder(servers);
    var h := HighestPriority(servers);
    assert h in o;
    var m :| 0 <= m < |o| && o[m] == h;
  }
}
