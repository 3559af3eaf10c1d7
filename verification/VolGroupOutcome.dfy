/**
 What a scheduling call comes to, told by the placements alone: a call goes from node to node, always to
 the first one that is unused and has room, and it fails exactly when it gets stuck on the way.
 */
module VolGroupOutcome {
  import opened VolGroupScheduler
  import opened VolGroupRuns
  import opened VolGroupGreedy

  // ---------------------------------------------------------------------------
  // What a node can take

  /** The bytes a piece may start from. */
  function Smallest(a: int, b: int, c: int): int { if a <= b && a <= c then a else if b <= c then b else c }

  /** What the pieces of other hosts may occupy, with the local share written out. */
  function Ceiling(s: Spec, n: Node): int { n.available - n.available * s.localPct / 100 }

  predicate Fits(s: Spec, n: Node, left: int, x: int) {
    x % FOUR_MIB == 0 && x < Smallest(n.free, left, s.maxSize) + FOUR_MIB && n.remote + x <= Ceiling(s, n)
  }

  predicate Sane(s: Spec, n: Node) { s.minSize >= 0 && s.maxSize >= 0 && s.localPct >= 0 && n.available >= 0 }

  lemma Multiples(a: int, b: int)
    requires a % FOUR_MIB == 0 && b % FOUR_MIB == 0 && a < b + FOUR_MIB
    ensures a <= b
  {
  }

  /** The largest multiple of 4 MiB at or below the limit. */
  lemma LargestMultiple(most: int, size: int, x: int)
    requires most >= 0 && size >= 0 && x % FOUR_MIB == 0 && x <= most && x <= size
    ensures x <= Quo(if most < size then most else size, FOUR_MIB) * FOUR_MIB
  {
    QuoBounds(if most < size then most else size);
    Multiples(x, Quo(if most < size then most else size, FOUR_MIB) * FOUR_MIB);
  }

  /** A pick is the start rounded up. */
  lemma PickRoundsUp(s: Spec, free: int, left: int)
    requires left > 0 && s.minSize >= 0 && s.maxSize >= 0 && Smallest(free, left, s.maxSize) >= 0
    ensures var b, r := Smallest(free, left, s.maxSize), PickSize(s, free, left);
            if free >= s.minSize && left >= s.minSize then b <= r < b + FOUR_MIB && r % FOUR_MIB == 0 else r == 0
  {
    QuoBounds(Smallest(free, left, s.maxSize));
    PickBounds(s, free, left);
  }

  /**
   The size a node gets: nothing if what is free or wanted is below the minimum, and otherwise the largest
   multiple of 4 MiB that overshoots what is free, wanted and allowed by less than that and stays below the
   ceiling.
   */
  lemma OfferIsLargest(s: Spec, n: Node, left: int, x: int)
    requires left > 0 && Sane(s, n)
    ensures var r := Offer(s, n, left);
            if n.free < s.minSize || left < s.minSize || n.remote > Ceiling(s, n) then r == 0
            else r >= 0 && Fits(s, n, left, r) && (Fits(s, n, left, x) ==> x <= r)
  {
    var b := Smallest(n.free, left, s.maxSize);
    var size := PickSize(s, n.free, left);
    var most := RemoteLimit(n, s.localPct) - n.remote;
    LimitIsCeiling(s, n);
    if n.free >= 0 {
      PickRoundsUp(s, n.free, left);
    }
    hide PickSize, RemoteLimit, Quo, Ceiling;
    if n.free >= s.minSize && left >= s.minSize && most >= 0 {
      QuoBounds(if most < size then most else size);
      if Fits(s, n, left, x) {
        Multiples(x, size);
        if x >= 0 { LargestMultiple(most, size, x); }
      }
    }
  }

  lemma LimitIsCeiling(s: Spec, n: Node)
    requires s.localPct >= 0 && n.available >= 0
    ensures RemoteLimit(n, s.localPct) == Ceiling(s, n)
  {
    assert n.available * s.localPct >= 0;
  }

  /** A node has room exactly when the minimum is there, something may be placed, and 4 MiB stay below the ceiling. */
  lemma HasRoomExactlyWhen(s: Spec, n: Node, left: int)
    requires left > 0 && Sane(s, n)
    ensures Offer(s, n, left) > 0 <==>
              && n.free >= s.minSize && left >= s.minSize && n.free > 0 && s.maxSize > 0
              && n.remote + FOUR_MIB <= Ceiling(s, n)
  {
    OfferIsLargest(s, n, left, FOUR_MIB);
    hide Offer, Ceiling;
    var r := Offer(s, n, left);
    if r > 0 {
      Multiples(FOUR_MIB, r);
      if Smallest(n.free, left, s.maxSize) <= 0 {
        Multiples(r, 0);
      }
    }
  }

  /** The watermark of one call with the share written out. */
  lemma WatermarkWrittenOut(s: Spec, nodes: seq<Node>, vols: seq<Volume>, ids: nat -> string, n: Node)
    requires GroupOk(s, vols) && Sched(s, nodes, vols, ids).Ok? && n in nodes && Sane(s, n)
    requires forall i, j :: 0 <= i < |nodes| && 0 <= j < |nodes| && nodes[i].id == nodes[j].id ==> i == j
    ensures var r := Sched(s, nodes, vols, ids).st.vols;
            n.id !in Homes(vols) && PlacedOn(r, n.id) > 0 ==>
              n.remote + PlacedOn(r, n.id) <= n.available - n.available * s.localPct / 100
  {
    hide Sched;
    Watermark(s, nodes, vols, ids, n);
    LimitIsCeiling(s, n);
  }

  // ---------------------------------------------------------------------------
  // Walks

  /** No unused node has room for a piece of what is left. */
  predicate NoRoom(s: Spec, nodes: seq<Node>, used: set<string>, left: int) {
    forall i :: 0 <= i < |nodes| ==> nodes[i].id in used || Offer(s, nodes[i], left) <= 0
  }

  /** `k` is the first unused node with room. */
  predicate FirstWithRoom(s: Spec, nodes: seq<Node>, used: set<string>, left: int, k: nat) {
    && k < |nodes| && nodes[k].id !in used && Offer(s, nodes[k], left) > 0
    && forall i :: 0 <= i < k ==> nodes[i].id in used || Offer(s, nodes[i], left) <= 0
  }

  /** Placements one after the other on the nodes `ks`, each on the first one with room. */
  predicate Walk(s: Spec, nodes: seq<Node>, used: set<string>, left: int, ks: seq<nat>)
    decreases |ks|
  {
    ks == [] ||
    (left > 0 && FirstWithRoom(s, nodes, used, left, ks[0])
     && Walk(s, nodes, used + {nodes[ks[0]].id}, left - Offer(s, nodes[ks[0]], left), ks[1..]))
  }

  function LeftAfter(s: Spec, nodes: seq<Node>, used: set<string>, left: int, ks: seq<nat>): int
    requires Walk(s, nodes, used, left, ks)
    decreases |ks|
  {
    if ks == [] then left
    else
      LeftAfter(s, nodes, used + {nodes[ks[0]].id}, left - Offer(s, nodes[ks[0]], left), ks[1..])
  }

  function UsedAfter(s: Spec, nodes: seq<Node>, used: set<string>, left: int, ks: seq<nat>): set<string>
    requires Walk(s, nodes, used, left, ks)
    decreases |ks|
  {
    if ks == [] then used
    else UsedAfter(s, nodes, used + {nodes[ks[0]].id}, left - Offer(s, nodes[ks[0]], left), ks[1..])
  }

  /** The walk ends with something left and no node to put it on. */
  predicate Stuck(s: Spec, nodes: seq<Node>, used: set<string>, left: int, ks: seq<nat>) {
    && Walk(s, nodes, used, left, ks)
    && LeftAfter(s, nodes, used, left, ks) > 0
    && NoRoom(s, nodes, UsedAfter(s, nodes, used, left, ks), LeftAfter(s, nodes, used, left, ks))
  }

  /** No walk from the same state gets further than one that is stuck, or ends with nothing left. */
  lemma {:induction false} StuckEnds(s: Spec, nodes: seq<Node>, used: set<string>, left: int,
                                     ks: seq<nat>, js: seq<nat>)
    requires Stuck(s, nodes, used, left, ks) && Walk(s, nodes, used, left, js)
    ensures |js| <= |ks| && LeftAfter(s, nodes, used, left, js) > 0
    decreases |ks|
  {
    hide Offer;
    if ks != [] && js != [] {
      SameFirst(s, nodes, used, left, ks[0], js[0]);
      StuckEnds(s, nodes, used + {nodes[ks[0]].id}, left - Offer(s, nodes[ks[0]], left), ks[1..], js[1..]);
    }
  }

  lemma SameFirst(s: Spec, nodes: seq<Node>, used: set<string>, left: int, j: nat, k: nat)
    requires FirstWithRoom(s, nodes, used, left, j) && FirstWithRoom(s, nodes, used, left, k)
    ensures j == k
  {
    hide Offer;
  }

  lemma {:induction false} WalkConcat(s: Spec, nodes: seq<Node>, used: set<string>, left: int, a: seq<nat>, b: seq<nat>)
    requires Walk(s, nodes, used, left, a)
    requires Walk(s, nodes, UsedAfter(s, nodes, used, left, a), LeftAfter(s, nodes, used, left, a), b)
    ensures Walk(s, nodes, used, left, a + b)
    ensures LeftAfter(s, nodes, used, left, a + b) ==
              LeftAfter(s, nodes, UsedAfter(s, nodes, used, left, a), LeftAfter(s, nodes, used, left, a), b)
    ensures UsedAfter(s, nodes, used, left, a + b) ==
              UsedAfter(s, nodes, UsedAfter(s, nodes, used, left, a), LeftAfter(s, nodes, used, left, a), b)
    decreases |a|
  {
    hide Offer;
    if a == [] {
      assert a + b == b;
    } else {
      assert (a + b)[1..] == a[1..] + b;
      WalkConcat(s, nodes, used + {nodes[a[0]].id}, left - Offer(s, nodes[a[0]], left), a[1..], b);
    }
  }

  // ---------------------------------------------------------------------------
  // Both loops walk

  /** `r` is where the walk `ks` from `st` leads, and `most` the number of attempts it had. */
  ghost predicate Led(s: Spec, nodes: seq<Node>, st: State, ks: seq<nat>, most: nat, r: Result) {
    && Walk(s, nodes, st.used, st.left, ks) && |ks| <= most
    && r.st.cnt == st.cnt + |ks|
    && r.st.left == LeftAfter(s, nodes, st.used, st.left, ks)
    && r.st.used == UsedAfter(s, nodes, st.used, st.left, ks)
    && (r.Fail? ==> |ks| < most && Stuck(s, nodes, st.used, st.left, ks))
    && (r.Ok? ==> |ks| == most || r.st.left <= 0)
  }

  lemma LedOnce(s: Spec, nodes: seq<Node>, st: State, next: State, k: nat, ks: seq<nat>, most: nat, r: Result)
    requires st.left > 0 && FirstWithRoom(s, nodes, st.used, st.left, k)
    requires next.used == st.used + {nodes[k].id} && next.left == st.left - Offer(s, nodes[k], st.left)
    requires next.cnt == st.cnt + 1 && Led(s, nodes, next, ks, most, r)
    ensures Led(s, nodes, st, [k] + ks, most + 1, r)
  {
    hide Offer, FirstWithRoom, NoRoom;
    assert ([k] + ks)[1..] == ks;
  }

  lemma {:induction false} FillWalks(s: Spec, nodes: seq<Node>, st: State, todo: seq<nat>) returns (ks: seq<nat>)
    requires s.minSize >= 0 && s.maxSize >= 0 && Indexes(todo, |st.vols|) && st.cnt + |todo| <= s.maxCount
    ensures Led(s, nodes, st, ks, |todo|, Fill(s, nodes, st, todo))
    decreases |todo|
  {
    hide Offer;
    ks := [];
    if todo != [] {
      if !Need(s, st) {
        ks := FillWalks(s, nodes, st, todo[1..]);
      } else {
        var f := Search(s, nodes, st.used, st.left, 0, 0);
        if f.Placed? {
          var next := PlaceAt(st, todo[0], f.size, nodes[f.k].id);
          var rest := FillWalks(s, nodes, next, todo[1..]);
          LedOnce(s, nodes, st, next, f.k, rest, |todo| - 1, Fill(s, nodes, next, todo[1..]));
          ks := [f.k] + rest;
        } else {
          NothingFound(s, nodes, st.used, st.left, 0, 0);
        }
      }
    }
  }

  /** How often the append loop can still place: its bound shrinks as it counts. */
  function Rounds(missing: int): nat { if missing <= 0 then 0 else (missing + 1) / 2 }

  lemma {:induction false} AppendWalks(s: Spec, nodes: seq<Node>, st: State, i: nat, ids: nat -> string)
    returns (ks: seq<nat>)
    requires s.minSize >= 0 && s.maxSize >= 0
    ensures Led(s, nodes, st, ks, Rounds(s.maxCount - st.cnt - i), Append(s, nodes, st, i, ids))
    decreases s.maxCount - st.cnt - i
  {
    hide Offer;
    ks := [];
    if i < s.maxCount - st.cnt {
      if !Need(s, st) {
        ks := AppendWalks(s, nodes, st, i + 1, ids);
        EndedWalk(s, nodes, st.used, st.left, ks);
      } else {
        var f := Search(s, nodes, st.used, st.left, 0, 0);
        if f.Placed? {
          var next := PlaceNew(st, ids(|st.vols|), f.size, nodes[f.k].id);
          var rest := AppendWalks(s, nodes, next, i + 1, ids);
          var most := Rounds(s.maxCount - next.cnt - (i + 1));
          LedOnce(s, nodes, st, next, f.k, rest, most, Append(s, nodes, next, i + 1, ids));
          assert Rounds(s.maxCount - st.cnt - i) == most + 1;
          ks := [f.k] + rest;
        } else {
          NothingFound(s, nodes, st.used, st.left, 0, 0);
        }
      }
    }
  }

  lemma EndedWalk(s: Spec, nodes: seq<Node>, used: set<string>, left: int, ks: seq<nat>)
    requires Walk(s, nodes, used, left, ks) && left <= 0
    ensures ks == []
  {
  }

  // ---------------------------------------------------------------------------
  // Theorems

  /** The placements a call may make: one for each entry without a place, and half of what is still missing. */
  function Attempts(s: Spec, vols: seq<Volume>): nat {
    var unplaced: int := |vols| - Count(vols);
    (if unplaced < 0 then 0 else unplaced) + Rounds(s.maxCount - |vols|)
  }

  lemma {:induction false} TodoCount(vols: seq<Volume>, i: nat)
    requires i <= |vols|
    ensures |Unscheduled(vols, i)| == i - Count(vols[..i])
  {
    if i > 0 {
      TodoCount(vols, i - 1);
      assert vols[..i][..i - 1] == vols[..i - 1];
    }
  }

  /** A call is one walk from what is placed already; it fails when it is stuck before its attempts are up. */
  lemma SchedWalks(s: Spec, nodes: seq<Node>, vols: seq<Volume>, ids: nat -> string) returns (ks: seq<nat>)
    requires s.minSize >= 0 && s.maxSize >= 0 && |vols| <= s.maxCount
    ensures Led(s, nodes, State(vols, Count(vols), s.total - Bytes(vols), Homes(vols)), ks, Attempts(s, vols),
                Sched(s, nodes, vols, ids))
  {
    hide Fill, Append, Recorded, Unscheduled, Led;
    Starts(s, vols);
    var st, todo := Recorded(s, vols, |vols|), Unscheduled(vols, |vols|);
    var a := FillWalks(s, nodes, st, todo);
    var filled := Fill(s, nodes, st, todo);
    if filled.Fail? {
      LedToFailure(s, nodes, st, a, |todo|, Rounds(s.maxCount - |vols|), filled);
      ks := a;
    } else {
      var b := AppendWalks(s, nodes, filled.st, 0, ids);
      LedOn(s, nodes, st, a, |todo|, filled, b, s.maxCount - |vols|, Append(s, nodes, filled.st, 0, ids));
      var appended := Append(s, nodes, filled.st, 0, ids);
      LedOkOnly(s, nodes, st, a + b, Attempts(s, vols), appended, Sched(s, nodes, vols, ids));
      ks := a + b;
    }
  }

  lemma Starts(s: Spec, vols: seq<Volume>)
    ensures Recorded(s, vols, |vols|) == State(vols, Count(vols), s.total - Bytes(vols), Homes(vols))
    ensures |Unscheduled(vols, |vols|)| == |vols| - Count(vols)
  {
    RecordedTotals(s, vols, |vols|);
    assert vols[..|vols|] == vols;
    TodoCount(vols, |vols|);
  }

  lemma LedToFailure(s: Spec, nodes: seq<Node>, st: State, ks: seq<nat>, most: nat, more: nat, r: Result)
    requires Led(s, nodes, st, ks, most, r) && r.Fail?
    ensures Led(s, nodes, st, ks, most + more, r)
  {
    hide Stuck, Walk;
  }

  /** Pruning the entries does not matter to the walk. */
  lemma LedOkOnly(s: Spec, nodes: seq<Node>, st: State, ks: seq<nat>, most: nat, a: Result, b: Result)
    requires Led(s, nodes, st, ks, most, a) && a.Ok? == b.Ok?
    requires b.st.cnt == a.st.cnt && b.st.left == a.st.left && b.st.used == a.st.used
    ensures Led(s, nodes, st, ks, most, b)
  {
    hide Stuck, Walk;
  }

  /** The append loop goes on where the fill loop ended. */
  lemma LedOn(s: Spec, nodes: seq<Node>, st: State, a: seq<nat>, todo: nat, filled: Result, b: seq<nat>, missing: int,
              r: Result)
    requires Led(s, nodes, st, a, todo, filled) && filled.Ok?
    requires Led(s, nodes, filled.st, b, Rounds(s.maxCount - filled.st.cnt), r)
    requires s.maxCount - st.cnt - todo == missing
    ensures Led(s, nodes, st, a + b, todo + Rounds(missing), r)
  {
    hide NoRoom, FirstWithRoom, Offer;
    WalkConcat(s, nodes, st.used, st.left, a, b);
    if filled.st.left <= 0 {
      EndedWalk(s, nodes, filled.st.used, filled.st.left, b);
    }
  }

  /**
   Exactly when a call fails: some walk of fewer placements than the call may make ends with something left
   and no unused node with room.
   */
  lemma FailsExactlyWhen(s: Spec, nodes: seq<Node>, vols: seq<Volume>, ids: nat -> string)
    requires s.minSize >= 0 && s.maxSize >= 0 && |vols| <= s.maxCount
    ensures Sched(s, nodes, vols, ids).Fail? <==>
              exists ks: seq<nat> ::
                |ks| < Attempts(s, vols) && Stuck(s, nodes, Homes(vols), s.total - Bytes(vols), ks)
  {
    hide Sched, Attempts, Stuck;
    var js := SchedWalks(s, nodes, vols, ids);
    if Sched(s, nodes, vols, ids).Ok? {
      forall ks: seq<nat> | |ks| < Attempts(s, vols)
        ensures !Stuck(s, nodes, Homes(vols), s.total - Bytes(vols), ks)
      {
        if Stuck(s, nodes, Homes(vols), s.total - Bytes(vols), ks) {
          StuckEnds(s, nodes, Homes(vols), s.total - Bytes(vols), ks, js);
        }
      }
    }
  }

  /** What a failed call leaves behind: a volume is still wanted, and no unused node has room for it. */
  lemma FailedIsStuck(s: Spec, nodes: seq<Node>, vols: seq<Volume>, ids: nat -> string)
    requires s.minSize >= 0 && s.maxSize >= 0 && |vols| <= s.maxCount && Sched(s, nodes, vols, ids).Fail?
    ensures var st := Sched(s, nodes, vols, ids).st;
            st.cnt < s.maxCount && st.left > 0 && NoRoom(s, nodes, st.used, st.left)
  {
    hide Sched;
    var ks := SchedWalks(s, nodes, vols, ids);
    CountAtMost(vols);
  }

  lemma {:induction false} FillKeepsIds(s: Spec, nodes: seq<Node>, st: State, todo: seq<nat>)
    requires Indexes(todo, |st.vols|)
    ensures var r := Fill(s, nodes, st, todo).st.vols;
            |r| == |st.vols| && forall i :: 0 <= i < |r| ==> r[i].id == st.vols[i].id
    decreases |todo|
  {
    hide Offer;
    if todo != [] {
      var f := Search(s, nodes, st.used, st.left, 0, 0);
      if Need(s, st) && f.Placed? {
        FillKeepsIds(s, nodes, PlaceAt(st, todo[0], f.size, nodes[f.k].id), todo[1..]);
      } else {
        FillKeepsIds(s, nodes, st, todo[1..]);
      }
    }
  }

  lemma {:induction false} AppendNamesNew(s: Spec, nodes: seq<Node>, st: State, i: nat, ids: nat -> string)
    ensures var r := Append(s, nodes, st, i, ids).st.vols;
            st.vols <= r && forall j :: |st.vols| <= j < |r| ==> r[j].id == ids(j)
    decreases s.maxCount - st.cnt - i
  {
    hide Offer;
    if i < s.maxCount - st.cnt {
      var f := Search(s, nodes, st.used, st.left, 0, 0);
      if Need(s, st) && f.Placed? {
        var next := PlaceNew(st, ids(|st.vols|), f.size, nodes[f.k].id);
        AppendNamesNew(s, nodes, next, i + 1, ids);
        assert next.vols[|st.vols|] == Append(s, nodes, st, i, ids).st.vols[|st.vols|];
      } else {
        AppendNamesNew(s, nodes, st, i + 1, ids);
      }
    }
  }

  /** A rolled-back entry gets its new place under its old name, and every other new entry a fresh one. */
  lemma EntriesKeepNames(s: Spec, nodes: seq<Node>, vols: seq<Volume>, ids: nat -> string)
    requires Sched(s, nodes, vols, ids).Ok?
    ensures forall v :: v in Sched(s, nodes, vols, ids).st.vols ==>
              || (exists i :: 0 <= i < |vols| && vols[i].id == v.id)
              || (exists n: nat :: n >= |vols| && v.id == ids(n))
  {
    hide Offer, Search, Fill, Append;
    var st, todo := Recorded(s, vols, |vols|), Unscheduled(vols, |vols|);
    FillKeepsIds(s, nodes, st, todo);
    var filled := Fill(s, nodes, st, todo).st;
    AppendNamesNew(s, nodes, filled, 0, ids);
    var last := Append(s, nodes, filled, 0, ids).st.vols;
    PruneMembers(last);
    forall v | v in Prune(last)
      ensures || (exists i :: 0 <= i < |vols| && vols[i].id == v.id) || (exists n: nat :: n >= |vols| && v.id == ids(n))
    {
      var j :| 0 <= j < |last| && last[j] == v;
      if j < |vols| {
        assert last[j] == filled.vols[j] && vols[j].id == v.id;
      } else {
        assert v.id == ids(j);
      }
    }
  }

  /**
   A rollback takes the failed entries out of the group's accounts and nothing else: their nodes may be used again,
   and the entries that did not fail keep node and size.
   */
  lemma RolledBackIsFree(vols: seq<Volume>, failed: seq<bool>, i: nat)
    requires |failed| == |vols| && Spread(vols) && i < |vols| && Scheduled(vols[i])
    ensures var r := RolledBack(vols, failed);
            && |r| == |vols| && r[i].id == vols[i].id
            && (failed[i] ==> !Scheduled(r[i]) && vols[i].node !in Homes(r))
            && (!failed[i] ==> r[i] == vols[i] && vols[i].node in Homes(r))
  {
    var r := RolledBack(vols, failed);
    if vols[i].node in Homes(r) {
      var j :| 0 <= j < |r| && Scheduled(r[j]) && r[j].node == vols[i].node;
      assert !failed[j] && r[j] == vols[j];
    }
  }

  // ---------------------------------------------------------------------------
  // The first call

  lemma {:induction false} GreedyWalk(s: Spec, nodes: seq<Node>, st: State, k: nat, ks: seq<nat>)
    requires Plain(s, nodes) && Greedy(s, nodes, st, k) && Walk(s, nodes, st.used, st.left, ks)
    ensures k + |ks| <= |nodes|
    ensures Greedy(s, nodes, State(st.vols, st.cnt, LeftAfter(s, nodes, st.used, st.left, ks),
                                   UsedAfter(s, nodes, st.used, st.left, ks)), k + |ks|)
    ensures forall i :: k <= i < k + |ks| ==> Cap(s, nodes[i]) > 0
    decreases |ks|
  {
    hide Offer, Plain, Cap;
    if ks != [] {
      GreedyPick(s, nodes, st, k);
      var r := Search(s, nodes, st.used, st.left, 0, 0);
      FirstFound(s, nodes, st.used, st.left, ks[0]);
      GreedyNext(s, nodes, st, k, "");
      var next := PlaceNew(st, "", r.size, nodes[r.k].id);
      GreedyWalk(s, nodes, next, k + 1, ks[1..]);
    }
  }

  lemma FirstFound(s: Spec, nodes: seq<Node>, used: set<string>, left: int, k: nat)
    requires FirstWithRoom(s, nodes, used, left, k)
    ensures Search(s, nodes, used, left, 0, 0) == Placed(k, Offer(s, nodes[k], left))
  {
    hide Offer;
    var r := Search(s, nodes, used, left, 0, 0);
    if r.Placed? {
      SameFirst(s, nodes, used, left, r.k, k);
    }
  }

  /** The list runs out of room at `k` before the total is covered. */
  predicate RunsOut(s: Spec, nodes: seq<Node>, k: nat) {
    k <= |nodes| && Prefix(s, nodes, k) < s.total && (k == |nodes| || Cap(s, nodes[k]) == 0)
  }

  /** A first call succeeds if and only if the sorted list does not run out within half the maximum count. */
  lemma FirstCallSucceedsExactlyWhen(s: Spec, nodes: seq<Node>, ids: nat -> string)
    requires Plain(s, nodes) && s.maxCount >= 0
    ensures Sched(s, nodes, [], ids).Ok? <==> forall k: nat :: k < (s.maxCount + 1) / 2 ==> !RunsOut(s, nodes, k)
  {
    var ks := FirstWalk(s, nodes, ids);
    hide Sched, Plain, Greedy, Cap;
    var r := Sched(s, nodes, [], ids);
    var t := State([], 0, r.st.left, r.st.used);
    if r.Fail? {
      StuckRunsOut(s, nodes, t, |ks|);
    } else {
      forall k: nat | k < (s.maxCount + 1) / 2 ensures !RunsOut(s, nodes, k) {
        NotBefore(s, nodes, t, |ks|, k);
      }
    }
  }

  /** The walk of a first call goes along the sorted list. */
  lemma FirstWalk(s: Spec, nodes: seq<Node>, ids: nat -> string) returns (ks: seq<nat>)
    requires Plain(s, nodes) && s.maxCount >= 0
    ensures |ks| <= |nodes| && forall i :: 0 <= i < |ks| ==> Cap(s, nodes[i]) > 0
    ensures var r, most := Sched(s, nodes, [], ids), (s.maxCount + 1) / 2;
            && Greedy(s, nodes, State([], 0, r.st.left, r.st.used), |ks|) && |ks| <= most
            && (r.Fail? ==> |ks| < most && r.st.left > 0 && NoRoom(s, nodes, r.st.used, r.st.left))
            && (r.Ok? ==> |ks| == most || r.st.left <= 0)
  {
    assert Homes([]) == {} && Bytes([]) == 0 && Count([]) == 0;
    var st := State([], 0, s.total, {});
    assert Greedy(s, nodes, st, 0) by {
      assert Ids(nodes, 0) == {};
    }
    assert Attempts(s, []) == (s.maxCount + 1) / 2;
    assert s.minSize >= 0 && s.maxSize >= 0;
    hide Sched, Plain, Greedy, Cap, Offer, Attempts, Homes, NoRoom;
    ks := SchedWalks(s, nodes, [], ids);
    GreedyWalk(s, nodes, st, 0, ks);
  }

  lemma NotBefore(s: Spec, nodes: seq<Node>, t: State, n: nat, k: nat)
    requires n <= |nodes| && Greedy(s, nodes, t, n) && (forall i :: 0 <= i < n ==> Cap(s, nodes[i]) > 0)
    requires k < n || t.left <= 0
    ensures !RunsOut(s, nodes, k)
  {
    hide Cap;
    if k >= n && k <= |nodes| {
      PrefixGrows(s, nodes, n, k);
    }
  }

  lemma StuckRunsOut(s: Spec, nodes: seq<Node>, t: State, k: nat)
    requires Plain(s, nodes) && Greedy(s, nodes, t, k) && t.left > 0 && NoRoom(s, nodes, t.used, t.left)
    ensures RunsOut(s, nodes, k)
  {
    hide Offer;
    GreedyPick(s, nodes, t, k);
  }
}
