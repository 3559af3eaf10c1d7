/**
 The greedy split is optimal: nodes sorted by free space, largest first, cover as much with
 k volumes as any k distinct nodes could, so the total is reached with the fewest volumes.
 */
module VolGroupGreedy {
  import opened VolGroupScheduler
  import opened VolGroupRuns

  // ---------------------------------------------------------------------------
  // The sort order

  /** SortByStorage.Less: empty nodes first, otherwise by free space. */
  predicate Less(a: Node, b: Node) {
    if a.volumes == 0 && b.volumes > 0 then true
    else if a.volumes > 0 && b.volumes == 0 then false
    else a.free < b.free
  }

  /** What sort.Sort(sort.Reverse(...)) guarantees about its result. */
  predicate Sorted(nodes: seq<Node>) {
    forall i, j :: 0 <= i < j < |nodes| ==> !Less(nodes[i], nodes[j])
  }

  /** Less is a strict weak order, which sort.Sort needs. */
  lemma LessIsStrictWeakOrder(a: Node, b: Node, c: Node)
    ensures !Less(a, a)
    ensures Less(a, b) && Less(b, c) ==> Less(a, c)
    ensures !Less(a, b) && !Less(b, c) ==> !Less(a, c)
  {
  }

  /** Sorted means: the nodes that hold volumes come first, and within each kind free space descends. */
  lemma SortedMeaning(nodes: seq<Node>)
    ensures Sorted(nodes) <==>
              forall i, j :: 0 <= i < j < |nodes| ==>
                && (nodes[j].volumes > 0 ==> nodes[i].volumes > 0)
                && ((nodes[i].volumes > 0 <==> nodes[j].volumes > 0) ==> nodes[i].free >= nodes[j].free)
  {
  }

  // ---------------------------------------------------------------------------
  // Capacity

  /** What a node can give to one volume. */
  function Cap(s: Spec, n: Node): nat {
    var c := if n.free < s.maxSize then n.free else s.maxSize;
    if c < 0 then 0 else c
  }

  function Prefix(s: Spec, nodes: seq<Node>, k: nat): nat
    requires k <= |nodes|
  {
    if k == 0 then 0 else Prefix(s, nodes, k - 1) + Cap(s, nodes[k - 1])
  }

  /** No minimum, no local share, everything a multiple of 4 MiB, and free space within the remote limit. */
  predicate Plain(s: Spec, nodes: seq<Node>) {
    && s.minSize == 0 && s.localPct == 0 && s.maxSize >= 0
    && s.total >= 0 && s.total % FOUR_MIB == 0 && s.maxSize % FOUR_MIB == 0
    && (forall i :: 0 <= i < |nodes| ==>
          && nodes[i].volumes > 0 && nodes[i].id != "" && nodes[i].free % FOUR_MIB == 0
          && nodes[i].free <= nodes[i].available - nodes[i].remote)
    && (forall i, j :: 0 <= i < j < |nodes| ==> nodes[i].id != nodes[j].id)
    && Sorted(nodes)
  }

  function Ids(nodes: seq<Node>, k: nat): set<string>
    requires k <= |nodes|
  {
    set i | 0 <= i < k :: nodes[i].id
  }

  /** The loop state after k picks of the greedy rule. */
  predicate Greedy(s: Spec, nodes: seq<Node>, st: State, k: nat) {
    && k <= |nodes| && st.used == Ids(nodes, k)
    && st.left == (if Prefix(s, nodes, k) < s.total then s.total - Prefix(s, nodes, k) else 0)
  }

  lemma AlignedSum(a: nat, b: nat)
    requires a % FOUR_MIB == 0 && b % FOUR_MIB == 0
    ensures (a + b) % FOUR_MIB == 0
  {
  }

  lemma CapAligned(s: Spec, n: Node)
    requires s.maxSize % FOUR_MIB == 0 && n.free % FOUR_MIB == 0
    ensures Cap(s, n) % FOUR_MIB == 0
  {
  }

  lemma {:induction false} PrefixAligned(s: Spec, nodes: seq<Node>, k: nat)
    requires Plain(s, nodes) && k <= |nodes|
    ensures Prefix(s, nodes, k) % FOUR_MIB == 0
  {
    hide Cap, Sorted;
    if k > 0 {
      PrefixAligned(s, nodes, k - 1);
      CapAligned(s, nodes[k - 1]);
      AlignedSum(Prefix(s, nodes, k - 1), Cap(s, nodes[k - 1]));
    }
  }

  lemma AlignedOffer(s: Spec, n: Node, left: int)
    requires s.minSize == 0 && s.localPct == 0 && s.maxSize >= 0 && s.maxSize % FOUR_MIB == 0
    requires n.free % FOUR_MIB == 0 && left > 0 && left % FOUR_MIB == 0 && n.free <= n.available - n.remote
    ensures Offer(s, n, left) == if Cap(s, n) < left then Cap(s, n) else left
  {
    var want := if Cap(s, n) < left then Cap(s, n) else left;
    assert n.available * s.localPct == 0;
    assert RemoteLimit(n, s.localPct) == n.available;
    assert PickSize(s, n.free, left) == want;
  }

  /** Capacities descend along the sorted list. */
  predicate Descending(s: Spec, nodes: seq<Node>) {
    forall i, j :: 0 <= i <= j < |nodes| ==> Cap(s, nodes[i]) >= Cap(s, nodes[j])
  }

  lemma SortedDescends(s: Spec, nodes: seq<Node>)
    requires Sorted(nodes) && forall i :: 0 <= i < |nodes| ==> nodes[i].volumes > 0
    ensures Descending(s, nodes)
  {
  }

  lemma UsedIsPrefix(nodes: seq<Node>, k: nat, i: nat)
    requires k <= |nodes| && i < |nodes|
    requires forall i, j :: 0 <= i < j < |nodes| ==> nodes[i].id != nodes[j].id
    ensures nodes[i].id in Ids(nodes, k) <==> i < k
  {
  }

  /** With offers that follow the capacities, the search stops at the first node after the used ones. */
  lemma FirstUnused(s: Spec, nodes: seq<Node>, used: set<string>, left: int, k: nat)
    requires left > 0 && k <= |nodes| && Descending(s, nodes) && s.minSize >= 0 && s.maxSize >= 0
    requires forall i :: 0 <= i < |nodes| ==> (nodes[i].id in used <==> i < k)
    requires forall i :: 0 <= i < |nodes| ==> (Offer(s, nodes[i], left) > 0 <==> Cap(s, nodes[i]) > 0)
    ensures var r := Search(s, nodes, used, left, 0, 0);
            && (r.Placed? <==> k < |nodes| && Cap(s, nodes[k]) > 0)
            && (r.Placed? ==> r.k == k) && (r.NotPlaced? ==> r.last == 0)
  {
    hide Offer;
    NothingFound(s, nodes, used, left, 0, 0);
    var r := Search(s, nodes, used, left, 0, 0);
    if r.Placed? {
      assert Cap(s, nodes[k]) >= Cap(s, nodes[r.k]);
    }
  }

  /** In a greedy state with bytes left the search takes the next node, or nothing is left to take. */
  lemma GreedyPick(s: Spec, nodes: seq<Node>, st: State, k: nat)
    requires Plain(s, nodes) && Greedy(s, nodes, st, k) && st.left > 0
    ensures var r := Search(s, nodes, st.used, st.left, 0, 0);
            && (r.Placed? <==> k < |nodes| && Cap(s, nodes[k]) > 0)
            && (r.Placed? ==> r.k == k && r.size == if Cap(s, nodes[k]) < st.left then Cap(s, nodes[k]) else st.left)
            && (r.NotPlaced? ==> r.last == 0)
  {
    hide Offer;
    PrefixAligned(s, nodes, k);
    SortedDescends(s, nodes);
    forall i | 0 <= i < |nodes|
      ensures nodes[i].id in st.used <==> i < k
    {
      UsedIsPrefix(nodes, k, i);
    }
    forall i | 0 <= i < |nodes|
      ensures Offer(s, nodes[i], st.left) == if Cap(s, nodes[i]) < st.left then Cap(s, nodes[i]) else st.left
    {
      AlignedOffer(s, nodes[i], st.left);
    }
    FirstUnused(s, nodes, st.used, st.left, k);
  }

  /** Every pick leads from a greedy state to the next greedy state. */
  lemma GreedyNext(s: Spec, nodes: seq<Node>, st: State, k: nat, id: string)
    requires Plain(s, nodes) && Greedy(s, nodes, st, k) && st.left > 0
    requires Search(s, nodes, st.used, st.left, 0, 0).Placed?
    ensures var r := Search(s, nodes, st.used, st.left, 0, 0);
            Greedy(s, nodes, PlaceNew(st, id, r.size, nodes[r.k].id), k + 1)
  {
    hide Offer, Search;
    GreedyPick(s, nodes, st, k);
    assert Ids(nodes, k + 1) == Ids(nodes, k) + {nodes[k].id};
  }

  /** The append loop, started greedy, stays greedy: the picks it adds are the next nodes in order. */
  lemma {:induction false} AppendGreedy(s: Spec, nodes: seq<Node>, st: State, i: nat, ids: nat -> string, k: nat)
    requires Plain(s, nodes) && Greedy(s, nodes, st, k)
    ensures var r := Append(s, nodes, st, i, ids).st;
            r.cnt >= st.cnt && Greedy(s, nodes, r, k + (r.cnt - st.cnt))
    decreases s.maxCount - st.cnt - i
  {
    hide Offer, Plain, Greedy;
    if i < s.maxCount - st.cnt {
      var f := Search(s, nodes, st.used, st.left, 0, 0);
      if Need(s, st) && f.Placed? {
        var next := PlaceNew(st, ids(|st.vols|), f.size, nodes[f.k].id);
        GreedyNext(s, nodes, st, k, ids(|st.vols|));
        AppendGreedy(s, nodes, next, i + 1, ids, k + 1);
        assert Append(s, nodes, st, i, ids) == Append(s, nodes, next, i + 1, ids);
      } else if Need(s, st) {
        GreedyPick(s, nodes, st, k);
      } else {
        AppendGreedy(s, nodes, st, i + 1, ids, k);
      }
    }
  }

  // ---------------------------------------------------------------------------
  // Nothing does better

  /** Any way of giving sizes to chosen nodes, each within the node's capacity. */
  predicate Feasible(s: Spec, nodes: seq<Node>, choice: map<nat, nat>) {
    forall i :: i in choice ==> i < |nodes| && choice[i] <= Cap(s, nodes[i])
  }

  ghost function Sum(choice: map<nat, nat>): nat
    decreases |choice|
  {
    if choice == map[] then 0
    else
      var i := MaxKey(choice.Keys);
      assert (choice - {i}).Keys == choice.Keys - {i};
      choice[i] + Sum(choice - {i})
  }

  ghost function MaxKey(keys: set<nat>): (m: nat)
    requires keys != {}
    ensures m in keys && forall x :: x in keys ==> x <= m
    decreases |keys|
  {
    var x :| x in keys;
    if keys == {x} then x
    else
      assert keys - {x} != {} && keys == keys - {x} + {x};
      var m := MaxKey(keys - {x});
      if x > m then x else m
  }

  lemma {:induction false} BelowMax(keys: set<nat>, m: nat)
    requires forall x :: x in keys ==> x <= m
    ensures |keys| <= m + 1
    decreases m
  {
    if m == 0 {
      if x :| x in keys {
        assert keys == {0};
      }
    } else {
      assert forall x :: x in keys - {m} ==> x <= m - 1;
      BelowMax(keys - {m}, m - 1);
    }
  }

  /** Exchange argument: k chosen nodes never give more than the first k. */
  lemma {:induction false} PrefixIsBest(s: Spec, nodes: seq<Node>, choice: map<nat, nat>)
    requires Descending(s, nodes) && Feasible(s, nodes, choice)
    ensures |choice| <= |nodes| && Sum(choice) <= Prefix(s, nodes, |choice|)
    decreases |choice|
  {
    hide Cap, MaxKey;
    if choice != map[] {
      var m := MaxKey(choice.Keys);
      var rest := choice - {m};
      assert rest.Keys == choice.Keys - {m};
      BelowMax(choice.Keys, m);
      PrefixIsBest(s, nodes, rest);
      assert |rest| == |choice| - 1;
      assert Cap(s, nodes[|choice| - 1]) >= Cap(s, nodes[m]);
    }
  }

  lemma {:induction false} PrefixGrows(s: Spec, nodes: seq<Node>, a: nat, b: nat)
    requires a <= b <= |nodes|
    ensures Prefix(s, nodes, a) <= Prefix(s, nodes, b)
    decreases b
  {
    if a < b {
      PrefixGrows(s, nodes, a, b - 1);
    }
  }

  function Capped(total: int, x: int): int { if x < total then x else total }

  /**
   Optimality of every greedy state: after k picks the bytes covered are the most that any
   choice of at most k distinct nodes could cover, capped at the total; and k picks reach it.
   */
  lemma GreedyIsOptimal(s: Spec, nodes: seq<Node>, st: State, k: nat, choice: map<nat, nat>)
    requires Plain(s, nodes) && Greedy(s, nodes, st, k) && Feasible(s, nodes, choice) && |choice| <= k
    ensures Capped(s.total, Sum(choice)) <= s.total - st.left
    ensures s.total - st.left == Capped(s.total, Prefix(s, nodes, k))
  {
    SortedDescends(s, nodes);
    PrefixIsBest(s, nodes, choice);
    PrefixGrows(s, nodes, |choice|, k);
  }

  ghost function FirstNodes(s: Spec, nodes: seq<Node>, k: nat): map<nat, nat>
    requires k <= |nodes|
  {
    map i: nat | 0 <= i < k :: Cap(s, nodes[i])
  }

  lemma LastKey(c: map<nat, nat>, d: map<nat, nat>, k: nat)
    requires (forall i :: i in d ==> i < k) && k in c && c == d[k := c[k]]
    ensures Sum(c) == c[k] + Sum(d) && |c| == |d| + 1
  {
    hide MaxKey;
    assert c.Keys == d.Keys + {k};
    assert MaxKey(c.Keys) == k;
    assert c - {k} == d;
  }

  /** The bound is attained by a feasible choice, so it is a maximum and not only a bound. */
  lemma {:induction false} PrefixIsFeasible(s: Spec, nodes: seq<Node>, k: nat)
    requires k <= |nodes|
    ensures var c := FirstNodes(s, nodes, k); Feasible(s, nodes, c) && |c| == k && Sum(c) == Prefix(s, nodes, k)
  {
    hide Cap, MaxKey;
    var c := FirstNodes(s, nodes, k);
    if k == 0 {
      assert c == map[];
    } else {
      PrefixIsFeasible(s, nodes, k - 1);
      var d := FirstNodes(s, nodes, k - 1);
      assert c == d[k - 1 := Cap(s, nodes[k - 1])];
      LastKey(c, d, k - 1);
    }
  }

  /** The append loop of a first call ends in a greedy state whose pick count is the number of volumes. */
  lemma FirstCallGreedy(s: Spec, nodes: seq<Node>, ids: nat -> string)
    requires Plain(s, nodes)
    ensures var r := Append(s, nodes, State([], 0, s.total, {}), 0, ids).st;
            && r.cnt == |r.vols| && Greedy(s, nodes, r, r.cnt)
            && AllScheduled(r.vols) && Bytes(r.vols) == s.total - r.left
  {
    var st := State([], 0, s.total, {});
    assert Greedy(s, nodes, st, 0) by {
      assert Ids(nodes, 0) == {};
    }
    assert Usable(s, nodes);
    hide Offer, Search, Plain, Greedy, Usable;
    AppendGreedy(s, nodes, st, 0, ids, 0);
    AppendTotals(s, nodes, st, 0, ids);
  }

  /** What one call on an empty group covers, for the number of volumes it places. */
  lemma FirstCallIsOptimal(s: Spec, nodes: seq<Node>, ids: nat -> string, choice: map<nat, nat>)
    requires Plain(s, nodes) && Sched(s, nodes, [], ids).Ok? && Feasible(s, nodes, choice)
    requires |choice| <= |Sched(s, nodes, [], ids).st.vols|
    ensures Capped(s.total, Sum(choice)) <= Bytes(Sched(s, nodes, [], ids).st.vols)
  {
    hide Offer, Search, Append, Plain, Feasible, Sum, Greedy, Bytes, Capped;
    var st := State([], 0, s.total, {});
    assert Recorded(s, [], 0) == st && Unscheduled([], 0) == [];
    FirstCallGreedy(s, nodes, ids);
    var r := Append(s, nodes, st, 0, ids).st;
    PruneAll(r.vols);
    GreedyIsOptimal(s, nodes, r, r.cnt, choice);
  }

  /** Best fit: as long as greedy picks leave bytes uncovered, no choice of that many nodes covers the total. */
  lemma FewestNodes(s: Spec, nodes: seq<Node>, st: State, k: nat, choice: map<nat, nat>)
    requires Plain(s, nodes) && Greedy(s, nodes, st, k) && st.left > 0
    requires Feasible(s, nodes, choice) && Sum(choice) >= s.total
    ensures |choice| > k
  {
    if |choice| <= k {
      GreedyIsOptimal(s, nodes, st, k, choice);
    }
  }
}
