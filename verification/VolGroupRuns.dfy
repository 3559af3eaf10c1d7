/**
 What the volume-group scheduler keeps over every run of scheduling, rolling back and
 scheduling again, and that repeated scheduling converges.
 */
module VolGroupRuns {
  import opened VolGroupScheduler

  // ---------------------------------------------------------------------------
  // Totals of a volume list

  function Count(vols: seq<Volume>): nat {
    if vols == [] then 0 else Count(vols[..|vols| - 1]) + if Scheduled(vols[|vols| - 1]) then 1 else 0
  }

  function Bytes(vols: seq<Volume>): nat {
    if vols == [] then 0
    else Bytes(vols[..|vols| - 1]) + if Scheduled(vols[|vols| - 1]) then vols[|vols| - 1].size else 0
  }

  function Homes(vols: seq<Volume>): set<string> {
    set i | 0 <= i < |vols| && Scheduled(vols[i]) :: vols[i].node
  }

  /** Bytes of the scheduled entries on one node. */
  function PlacedOn(vols: seq<Volume>, id: string): nat {
    if vols == [] then 0
    else
      var last := vols[|vols| - 1];
      PlacedOn(vols[..|vols| - 1], id) + if Scheduled(last) && last.node == id then last.size else 0
  }

  /** Scheduled entries sit on pairwise distinct nodes. */
  predicate Spread(vols: seq<Volume>) {
    forall i, j :: 0 <= i < j < |vols| && Scheduled(vols[i]) && Scheduled(vols[j]) ==> vols[i].node != vols[j].node
  }

  predicate Aligned(vols: seq<Volume>) {
    forall i :: 0 <= i < |vols| && Scheduled(vols[i]) ==> vols[i].size % FOUR_MIB == 0
  }

  lemma {:induction false} RecordedTotals(s: Spec, vols: seq<Volume>, i: nat)
    requires i <= |vols|
    ensures Recorded(s, vols, i) == State(vols, Count(vols[..i]), s.total - Bytes(vols[..i]), Homes(vols[..i]))
  {
    if i > 0 {
      RecordedTotals(s, vols, i - 1);
      var a, b := vols[..i], vols[..i - 1];
      assert a[..i - 1] == b;
      assert forall k :: 0 <= k < |b| ==> a[k] == b[k];
      assert Homes(a) == Homes(b) + if Scheduled(a[i - 1]) then {a[i - 1].node} else {};
    }
  }

  /** Scheduling one more entry in place. */
  lemma {:induction false} TotalsAt(vols: seq<Volume>, k: nat, v: Volume)
    requires k < |vols| && !Scheduled(vols[k]) && Scheduled(v)
    ensures Count(vols[k := v]) == Count(vols) + 1
    ensures Bytes(vols[k := v]) == Bytes(vols) + v.size
    decreases |vols|
  {
    var n := |vols| - 1;
    if k < n {
      assert vols[k := v][..n] == vols[..n][k := v];
      TotalsAt(vols[..n], k, v);
    } else {
      assert vols[k := v][..n] == vols[..n];
    }
  }

  lemma TotalsNew(vols: seq<Volume>, v: Volume)
    ensures Count(vols + [v]) == Count(vols) + if Scheduled(v) then 1 else 0
    ensures Bytes(vols + [v]) == Bytes(vols) + if Scheduled(v) then v.size else 0
  {
    assert (vols + [v])[..|vols|] == vols;
  }

  lemma {:induction false} PruneTotals(vols: seq<Volume>)
    ensures var p := Prune(vols); |p| == Count(p) == Count(vols) && Bytes(p) == Bytes(vols)
  {
    if vols != [] {
      var n := |vols| - 1;
      PruneTotals(vols[..n]);
      TotalsNew(Prune(vols[..n]), vols[n]);
      assert !Scheduled(vols[n]) ==> Prune(vols) == Prune(vols[..n]);
    }
  }

  /** Pruning drops the unscheduled entries and nothing else. */
  lemma {:induction false} PruneMembers(vols: seq<Volume>)
    ensures forall v :: v in Prune(vols) <==> v in vols && Scheduled(v)
  {
    if vols != [] {
      var n := |vols| - 1;
      PruneMembers(vols[..n]);
      assert vols == vols[..n] + [vols[n]];
    }
  }

  lemma {:induction false} PruneSpread(vols: seq<Volume>)
    requires Spread(vols)
    ensures Spread(Prune(vols))
  {
    if vols != [] {
      var n := |vols| - 1;
      var p := Prune(vols[..n]);
      PruneSpread(vols[..n]);
      PruneMembers(vols[..n]);
      forall i | 0 <= i < |p| && Scheduled(vols[n])
        ensures p[i].node != vols[n].node
      {
        assert p[i] in vols[..n];
        var k :| 0 <= k < n && vols[..n][k] == p[i];
        assert vols[k] == p[i];
      }
    }
  }

  // ---------------------------------------------------------------------------
  // One offer

  lemma QuoBounds(a: int)
    ensures var q := Quo(a, FOUR_MIB) * FOUR_MIB;
            && q % FOUR_MIB == 0
            && (a >= 0 ==> 0 <= q <= a < q + FOUR_MIB) && (a < 0 ==> a <= q <= 0)
  {
  }

  lemma PickBounds(s: Spec, free: int, want: int)
    requires want > 0
    ensures var r := PickSize(s, free, want);
            && r % FOUR_MIB == 0 && r < want + FOUR_MIB && (s.minSize >= 0 && s.maxSize >= 0 ==> r >= 0)
            && (r > 0 ==> r < free + FOUR_MIB && r < s.maxSize + FOUR_MIB)
  {
    var picked := if free > want then want else free;
    QuoBounds(if picked > s.maxSize then s.maxSize else picked);
  }

  lemma OfferBounds(s: Spec, n: Node, left: int)
    requires left > 0
    ensures var r := Offer(s, n, left);
            && r % FOUR_MIB == 0 && r < left + FOUR_MIB
            && (r > 0 ==> n.remote + r <= RemoteLimit(n, s.localPct))
            && (r > 0 ==> r < n.free + FOUR_MIB && r < s.maxSize + FOUR_MIB)
            && (s.minSize >= 0 && s.maxSize >= 0 ==> r >= 0)
  {
    var size := PickSize(s, n.free, left);
    PickBounds(s, n.free, left);
    var most := RemoteLimit(n, s.localPct) - n.remote;
    hide PickSize, RemoteLimit, Quo;
    QuoBounds(if most < size then most else size);
  }

  /** The bytes a pick starts from: what is free, wanted and allowed at most. */
  function Picked(s: Spec, free: int, want: int): int {
    var picked := if free > want then want else free;
    if picked > s.maxSize then s.maxSize else picked
  }

  /** The largest multiple of 4 MiB up to `x`. */
  function Floor(x: int): int { x - x % FOUR_MIB }

  lemma FloorStep(a: int, b: int)
    requires a % FOUR_MIB == 0 && b % FOUR_MIB == 0 && a < b
    ensures a + FOUR_MIB <= b
  {
  }

  /** The rounding up goes past the free space exactly when it starts above the last aligned free byte. */
  lemma PickExceedsFree(s: Spec, free: int, want: int)
    requires want > 0 && free >= 0
    ensures var r := PickSize(s, free, want);
            && (r > free <==> (free >= s.minSize && want >= s.minSize) && Picked(s, free, want) > Floor(free))
            && (r > free ==> r == Floor(free) + FOUR_MIB)
  {
    var b, r := Picked(s, free, want), PickSize(s, free, want);
    QuoBounds(b);
    PickBounds(s, free, want);
    if b > Floor(free) && free >= s.minSize && want >= s.minSize {
      assert r >= b;
      FloorStep(Floor(free), r);
    }
    if r > free {
      FloorStep(Floor(free), r);
      if r > Floor(free) + FOUR_MIB { FloorStep(Floor(free) + FOUR_MIB, r); }
      assert r < b + FOUR_MIB;
    }
  }

  /**
   When a piece is larger than the free space of its node: exactly when the free space is not aligned, the piece
   starts above its aligned part, and the watermark leaves room for the rounding up.
   */
  lemma ExceedsFreeExactlyWhen(s: Spec, n: Node, left: int)
    requires left > 0
    ensures var r := Offer(s, n, left);
            r > 0 && r > n.free <==>
              && n.free >= 0 && n.free >= s.minSize && left >= s.minSize
              && Picked(s, n.free, left) > Floor(n.free)
              && n.remote + Floor(n.free) + FOUR_MIB <= RemoteLimit(n, s.localPct)
  {
    var size := PickSize(s, n.free, left);
    var most := RemoteLimit(n, s.localPct) - n.remote;
    PickBounds(s, n.free, left);
    QuoBounds(if most < size then most else size);
    if n.free >= 0 {
      PickExceedsFree(s, n.free, left);
    }
    hide PickSize, RemoteLimit, Quo, Picked;
    if size > n.free >= 0 && most < size {
      var q := Offer(s, n, left);
      if q > n.free { FloorStep(q, size); }
    }
  }

  /** Five MiB free, and a piece of eight. */
  lemma OfferCanExceedFree()
    ensures var n := Node("n", 0x50_0000, 0x1000_0000, 0, 0);
            Offer(Spec(0x1000_0000, 4, 0x40_0000, 0x1000_0000, 0), n, 0x1000_0000) == 0x80_0000 > n.free
  {
    assert Quo(0x50_0000, FOUR_MIB) == 1 && Quo(0x80_0000, FOUR_MIB) == 2 && Quo(0, 100) == 0;
  }

  // ---------------------------------------------------------------------------
  // What the loop state keeps

  /** A new entry stays below the remote watermark of the node it sits on. */
  predicate BelowMark(s: Spec, nodes: seq<Node>, v: Volume) {
    exists k :: 0 <= k < |nodes| && nodes[k].id == v.node
                && nodes[k].remote + v.size <= RemoteLimit(nodes[k], s.localPct)
  }

  /** Entries outside `base`, the nodes in use before the call, are new and below the watermark. */
  predicate NewBelowMark(s: Spec, nodes: seq<Node>, base: set<string>, vols: seq<Volume>) {
    forall i :: 0 <= i < |vols| && Scheduled(vols[i]) && vols[i].node !in base ==> BelowMark(s, nodes, vols[i])
  }

  predicate StateOk(s: Spec, nodes: seq<Node>, base: set<string>, st: State) {
    && Count(st.vols) <= st.cnt && Bytes(st.vols) <= s.total - st.left
    && base <= st.used && Homes(st.vols) <= st.used
    && Spread(st.vols) && Aligned(st.vols)
    && (Bytes(st.vols) > 0 ==> st.left > -FOUR_MIB)
    && NewBelowMark(s, nodes, base, st.vols)
  }

  lemma PlaceAtOk(s: Spec, nodes: seq<Node>, base: set<string>, st: State, idx: nat, k: nat)
    requires StateOk(s, nodes, base, st) && st.left > 0 && idx < |st.vols| && !Scheduled(st.vols[idx])
    requires k < |nodes| && nodes[k].id !in st.used && Offer(s, nodes[k], st.left) > 0
    ensures StateOk(s, nodes, base, PlaceAt(st, idx, Offer(s, nodes[k], st.left), nodes[k].id))
  {
    hide Offer, RemoteLimit;
    OfferBounds(s, nodes[k], st.left);
    var v := st.vols[idx].(size := Offer(s, nodes[k], st.left), node := nodes[k].id);
    var vols := st.vols[idx := v];
    assert Homes(vols) <= Homes(st.vols) + {v.node};
    if Scheduled(v) {
      TotalsAt(st.vols, idx, v);
      assert BelowMark(s, nodes, v);
    } else {
      TotalsSame(st.vols, idx, v);
    }
  }

  lemma {:induction false} TotalsSame(vols: seq<Volume>, k: nat, v: Volume)
    requires k < |vols| && !Scheduled(vols[k]) && !Scheduled(v)
    ensures Count(vols[k := v]) == Count(vols) && Bytes(vols[k := v]) == Bytes(vols)
    decreases |vols|
  {
    var n := |vols| - 1;
    if k < n {
      assert vols[k := v][..n] == vols[..n][k := v];
      TotalsSame(vols[..n], k, v);
    } else {
      assert vols[k := v][..n] == vols[..n];
    }
  }

  lemma PlaceNewOk(s: Spec, nodes: seq<Node>, base: set<string>, st: State, id: string, k: nat)
    requires StateOk(s, nodes, base, st) && st.left > 0
    requires k < |nodes| && nodes[k].id !in st.used && Offer(s, nodes[k], st.left) > 0
    ensures StateOk(s, nodes, base, PlaceNew(st, id, Offer(s, nodes[k], st.left), nodes[k].id))
  {
    hide Offer, RemoteLimit;
    OfferBounds(s, nodes[k], st.left);
    var v := Volume(id, Offer(s, nodes[k], st.left), nodes[k].id);
    var vols := st.vols + [v];
    TotalsNew(st.vols, v);
    assert Homes(vols) <= Homes(st.vols) + {v.node};
    if Scheduled(v) {
      assert BelowMark(s, nodes, v);
    }
  }

  predicate Todo(vols: seq<Volume>, todo: seq<nat>) {
    && (forall a :: 0 <= a < |todo| ==> todo[a] < |vols| && !Scheduled(vols[todo[a]]))
    && (forall a, b :: 0 <= a < b < |todo| ==> todo[a] < todo[b])
  }

  /** Scheduled entries of `a` are still there in `b`. */
  predicate KeepsOld(a: seq<Volume>, b: seq<Volume>) {
    |a| <= |b| && forall i :: 0 <= i < |a| && Scheduled(a[i]) ==> b[i] == a[i]
  }

  lemma {:induction false} FillOk(s: Spec, nodes: seq<Node>, base: set<string>, st: State, todo: seq<nat>)
    requires StateOk(s, nodes, base, st) && Todo(st.vols, todo) && Indexes(todo, |st.vols|)
    ensures var r := Fill(s, nodes, st, todo);
            && StateOk(s, nodes, base, r.st) && KeepsOld(st.vols, r.st.vols)
            && st.cnt <= r.st.cnt && (st.cnt <= s.maxCount ==> r.st.cnt <= s.maxCount)
            && (st.cnt >= s.maxCount ==> r == Ok(st))
            && (r.Ok? && todo != [] && Need(s, st) && s.minSize >= 0 && s.maxSize >= 0 ==> st.cnt < r.st.cnt)
    decreases |todo|
  {
    hide Offer, StateOk;
    if todo != [] {
      var f := Search(s, nodes, st.used, st.left, 0, 0);
      if Need(s, st) && f.Placed? {
        PlaceAtOk(s, nodes, base, st, todo[0], f.k);
        FillOk(s, nodes, base, PlaceAt(st, todo[0], f.size, nodes[f.k].id), todo[1..]);
      } else {
        if Need(s, st) && s.minSize >= 0 && s.maxSize >= 0 {
          NothingFound(s, nodes, st.used, st.left, 0, 0);
        }
        FillOk(s, nodes, base, st, todo[1..]);
      }
    }
  }

  /** With non-negative size limits a failed search always ends on 0, so it is reported as an error. */
  lemma {:induction false} NothingFound(s: Spec, nodes: seq<Node>, used: set<string>, left: int, i: nat, last: int)
    requires left > 0 && s.minSize >= 0 && s.maxSize >= 0 && i <= |nodes| && last == 0
    ensures Search(s, nodes, used, left, i, last).NotPlaced? ==> Search(s, nodes, used, left, i, last).last == 0
    decreases |nodes| - i
  {
    hide Offer;
    if i < |nodes| {
      OfferBounds(s, nodes[i], left);
      NothingFound(s, nodes, used, left, i + 1, last);
    }
  }

  lemma {:induction false} AppendOk(s: Spec, nodes: seq<Node>, base: set<string>, st: State, i: nat, ids: nat -> string)
    requires StateOk(s, nodes, base, st)
    ensures var r := Append(s, nodes, st, i, ids);
            && StateOk(s, nodes, base, r.st) && KeepsOld(st.vols, r.st.vols)
            && st.cnt <= r.st.cnt && (st.cnt <= s.maxCount ==> r.st.cnt <= s.maxCount)
            && (st.cnt >= s.maxCount ==> r == Ok(st))
    decreases s.maxCount - st.cnt - i
  {
    hide Offer, StateOk;
    if i < s.maxCount - st.cnt {
      var f := Search(s, nodes, st.used, st.left, 0, 0);
      if Need(s, st) && f.Placed? {
        PlaceNewOk(s, nodes, base, st, ids(|st.vols|), f.k);
        var next := PlaceNew(st, ids(|st.vols|), f.size, nodes[f.k].id);
        AppendOk(s, nodes, base, next, i + 1, ids);
        assert Append(s, nodes, st, i, ids) == Append(s, nodes, next, i + 1, ids);
      } else {
        AppendOk(s, nodes, base, st, i + 1, ids);
      }
    }
  }

  // ---------------------------------------------------------------------------
  // One call

  predicate GroupOk(s: Spec, vols: seq<Volume>) {
    && Spread(vols) && Aligned(vols)
    && (|vols| == 0 || |vols| <= s.maxCount)
    && (Bytes(vols) > 0 ==> Bytes(vols) < s.total + FOUR_MIB)
  }

  lemma StartOk(s: Spec, nodes: seq<Node>, vols: seq<Volume>)
    requires GroupOk(s, vols)
    ensures var st := Recorded(s, vols, |vols|);
            && st == State(vols, Count(vols), s.total - Bytes(vols), Homes(vols))
            && StateOk(s, nodes, Homes(vols), st) && Todo(vols, Unscheduled(vols, |vols|))
  {
    RecordedTotals(s, vols, |vols|);
    assert vols[..|vols|] == vols;
  }

  lemma {:induction false} CountAtMost(vols: seq<Volume>)
    ensures Count(vols) <= |vols|
  {
    if vols != [] {
      CountAtMost(vols[..|vols| - 1]);
    }
  }

  /** A successful call: everything the group promises, and every old entry still in place. */
  lemma SchedOk(s: Spec, nodes: seq<Node>, vols: seq<Volume>, ids: nat -> string)
    requires GroupOk(s, vols) && Sched(s, nodes, vols, ids).Ok?
    ensures var r := Sched(s, nodes, vols, ids).st.vols;
            && GroupOk(s, r)
            && (forall v :: v in vols && Scheduled(v) ==> v in r)
            && NewBelowMark(s, nodes, Homes(vols), r)
  {
    hide Offer, Search, Fill, Append, BelowMark;
    StartOk(s, nodes, vols);
    CountAtMost(vols);
    var base := Homes(vols);
    var st := Recorded(s, vols, |vols|);
    var todo := Unscheduled(vols, |vols|);
    FillOk(s, nodes, base, st, todo);
    var filled := Fill(s, nodes, st, todo).st;
    AppendOk(s, nodes, base, filled, 0, ids);
    var last := Append(s, nodes, filled, 0, ids).st;
    PruneTotals(last.vols);
    PruneMembers(last.vols);
    PruneSpread(last.vols);
    var r := Prune(last.vols);
    forall i | 0 <= i < |r|
      ensures Scheduled(r[i]) && exists k :: 0 <= k < |last.vols| && last.vols[k] == r[i]
    {
      assert r[i] in r;
    }
    forall v | v in vols && Scheduled(v) ensures v in last.vols {
      var i :| 0 <= i < |vols| && vols[i] == v;
      assert filled.vols[i] == v;
      assert last.vols[i] == v;
    }
  }

  lemma {:induction false} OnlyEntryOn(vols: seq<Volume>, i: nat)
    requires Spread(vols) && i < |vols| && Scheduled(vols[i])
    ensures PlacedOn(vols, vols[i].node) == vols[i].size
    decreases |vols|
  {
    var n := |vols| - 1;
    if i < n {
      OnlyEntryOn(vols[..n], i);
    } else {
      NoneOn(vols[..n], vols[i].node);
    }
  }

  lemma {:induction false} NoneOn(vols: seq<Volume>, id: string)
    requires forall i :: 0 <= i < |vols| && Scheduled(vols[i]) ==> vols[i].node != id
    ensures PlacedOn(vols, id) == 0
  {
    if vols != [] {
      NoneOn(vols[..|vols| - 1], id);
    }
  }

  /**
   The remote watermark after one call, node by node: a node that was in use before the call
   gets nothing more, and on every other node the bytes of other hosts, old and new together,
   stay within the node's remote limit whenever anything was placed there.
   */
  lemma Watermark(s: Spec, nodes: seq<Node>, vols: seq<Volume>, ids: nat -> string, n: Node)
    requires GroupOk(s, vols) && Sched(s, nodes, vols, ids).Ok? && n in nodes
    requires forall i, j :: 0 <= i < |nodes| && 0 <= j < |nodes| && nodes[i].id == nodes[j].id ==> i == j
    ensures var r := Sched(s, nodes, vols, ids).st.vols;
            && (n.id in Homes(vols) ==> PlacedOn(r, n.id) == PlacedOn(vols, n.id))
            && (n.id !in Homes(vols) && PlacedOn(r, n.id) > 0 ==>
                  n.remote + PlacedOn(r, n.id) <= RemoteLimit(n, s.localPct))
  {
    hide Sched;
    SchedOk(s, nodes, vols, ids);
    var r := Sched(s, nodes, vols, ids).st.vols;
    if n.id in Homes(vols) {
      var i :| 0 <= i < |vols| && Scheduled(vols[i]) && vols[i].node == n.id;
      assert vols[i] in r;
      var j :| 0 <= j < |r| && r[j] == vols[i];
      OnlyEntryOn(vols, i);
      OnlyEntryOn(r, j);
    } else if i :| 0 <= i < |r| && Scheduled(r[i]) && r[i].node == n.id {
      OnlyEntryOn(r, i);
      assert BelowMark(s, nodes, r[i]);
    } else {
      NoneOn(r, n.id);
    }
  }

  // ---------------------------------------------------------------------------
  // Runs

  /** ScheduleVolumeGroup decides by the bytes of entries that have a node. */
  function NodeBytes(vols: seq<Volume>): int {
    if vols == [] then 0
    else NodeBytes(vols[..|vols| - 1]) + if vols[|vols| - 1].node != "" then vols[|vols| - 1].size else 0
  }

  /** One scheduling pass: only a successful call is persisted. */
  function ScheduleGroup(s: Spec, nodes: seq<Node>, vols: seq<Volume>, ids: nat -> string): seq<Volume> {
    if NodeBytes(vols) >= s.total then vols
    else if Sched(s, nodes, vols, ids).Ok? then Sched(s, nodes, vols, ids).st.vols
    else vols
  }

  /** ScheduleVolumeGroup on the filtered and sorted nodes; after a failure the object keeps what was placed so far. */
  method ScheduleVolumeGroup(g: VolumeGroup, nodes: seq<Node>, ids: nat -> string) returns (ok: bool)
    modifies g`volumes
    ensures ok ==> g.volumes == ScheduleGroup(g.spec, nodes, old(g.volumes), ids)
    ensures !ok ==> ScheduleGroup(g.spec, nodes, old(g.volumes), ids) == old(g.volumes)
    ensures !ok ==> g.volumes == Sched(g.spec, nodes, old(g.volumes), ids).st.vols
  {
    var scheduled := 0;
    for i := 0 to |g.volumes|
      invariant scheduled == NodeBytes(g.volumes[..i])
    {
      assert g.volumes[..i + 1][..i] == g.volumes[..i];
      if g.volumes[i].node != "" {
        scheduled := scheduled + g.volumes[i].size;
      }
    }
    assert g.volumes[..|g.volumes|] == g.volumes;
    if scheduled >= g.spec.total {
      return true;
    }
    ok := g.SchedVolGroup(nodes, ids);
  }

  /** rollbackUnrecoverable: entries whose volume could not be created lose node and size. */
  function RolledBack(vols: seq<Volume>, failed: seq<bool>): (r: seq<Volume>)
    requires |failed| == |vols|
    ensures |r| == |vols|
    ensures forall i :: 0 <= i < |vols| ==> r[i] == if failed[i] then vols[i].(size := 0, node := "") else vols[i]
  {
    seq(|vols|, i requires 0 <= i < |vols| => if failed[i] then vols[i].(size := 0, node := "") else vols[i])
  }

  /** The rollback loop; `failed` holds one verdict per entry of status.volumeStatus. */
  method RollbackUnrecoverable(g: VolumeGroup, failed: seq<bool>) returns (rollback: bool)
    requires |failed| == |g.volumes|
    modifies g`volumes
    ensures g.volumes == RolledBack(old(g.volumes), failed)
    ensures rollback == (true in failed)
  {
    rollback := false;
    for idx := 0 to |failed|
      invariant |g.volumes| == |failed|
      invariant rollback == (true in failed[..idx])
      invariant forall i :: 0 <= i < |failed| ==>
                  g.volumes[i] == if i < idx && failed[i] then old(g.volumes)[i].(size := 0, node := "")
                                  else old(g.volumes)[i]
    {
      if failed[idx] {
        rollback := true;
        g.volumes := g.volumes[idx := g.volumes[idx].(node := "")];
        g.volumes := g.volumes[idx := g.volumes[idx].(size := 0)];
      }
    }
    assert failed[..|failed|] == failed;
  }

  datatype Op =
    | Schedule(nodes: seq<Node>, ids: nat -> string)
    | Rollback(failed: seq<bool>)
    | Conflict      // the API server refused the update, nothing is persisted

  function Apply(s: Spec, vols: seq<Volume>, op: Op): seq<Volume> {
    match op
    case Schedule(nodes, ids) => ScheduleGroup(s, nodes, vols, ids)
    case Rollback(failed) => if |failed| == |vols| then RolledBack(vols, failed) else vols
    case Conflict => vols
  }

  function Exec(s: Spec, vols: seq<Volume>, ops: seq<Op>): seq<Volume>
    decreases |ops|
  {
    if ops == [] then vols else Exec(s, Apply(s, vols, ops[0]), ops[1..])
  }

  lemma {:induction false} RollbackLowers(vols: seq<Volume>, failed: seq<bool>)
    requires |failed| == |vols|
    ensures Bytes(RolledBack(vols, failed)) <= Bytes(vols)
    decreases |vols|
  {
    if vols != [] {
      var n := |vols| - 1;
      assert RolledBack(vols, failed)[..n] == RolledBack(vols[..n], failed[..n]);
      RollbackLowers(vols[..n], failed[..n]);
    }
  }

  lemma ApplyOk(s: Spec, vols: seq<Volume>, op: Op)
    requires GroupOk(s, vols)
    ensures GroupOk(s, Apply(s, vols, op))
  {
    match op
    case Schedule(nodes, ids) =>
      if Sched(s, nodes, vols, ids).Ok? {
        SchedOk(s, nodes, vols, ids);
      }
    case Rollback(failed) =>
      if |failed| == |vols| {
        RollbackLowers(vols, failed);
      }
    case Conflict =>
  }

  lemma {:induction false} ExecOk(s: Spec, vols: seq<Volume>, ops: seq<Op>)
    requires GroupOk(s, vols)
    ensures GroupOk(s, Exec(s, vols, ops))
    decreases |ops|
  {
    if ops != [] {
      ApplyOk(s, vols, ops[0]);
      ExecOk(s, Apply(s, vols, ops[0]), ops[1..]);
    }
  }

  /**
   Over every run from an empty group: scheduled entries are on distinct nodes, their sizes are
   positive multiples of 4 MiB, there are never more entries than the maximum count, and the
   bytes stay below the total plus one alignment unit.
   */
  lemma EveryRun(s: Spec, ops: seq<Op>)
    ensures var vols := Exec(s, [], ops);
            && Spread(vols) && Aligned(vols)
            && (|vols| == 0 || |vols| <= s.maxCount)
            && (Bytes(vols) > 0 ==> Bytes(vols) < s.total + FOUR_MIB)
  {
    ExecOk(s, [], ops);
  }

  // ---------------------------------------------------------------------------
  // Convergence

  predicate Usable(s: Spec, nodes: seq<Node>) {
    s.minSize >= 0 && s.maxSize >= 0 && forall i :: 0 <= i < |nodes| ==> nodes[i].id != ""
  }

  /** The append loop places exactly half of what is missing, rounded up, or covers the total. */
  lemma {:induction false} AppendExact(s: Spec, nodes: seq<Node>, st: State, i: nat, ids: nat -> string)
    requires Usable(s, nodes) && Append(s, nodes, st, i, ids).Ok? && i <= s.maxCount - st.cnt
    ensures var r := Append(s, nodes, st, i, ids).st;
            var rounds := (s.maxCount - st.cnt - i + 1) / 2;
            && st.cnt <= r.cnt <= st.cnt + rounds && r.left <= st.left
            && (r.left > 0 ==> r.cnt == st.cnt + rounds) && (r.cnt == st.cnt ==> r.left == st.left)
    decreases s.maxCount - st.cnt - i
  {
    hide Offer;
    if i < s.maxCount - st.cnt {
      var f := Search(s, nodes, st.used, st.left, 0, 0);
      if Need(s, st) {
        if f.Placed? {
          var next := PlaceNew(st, ids(|st.vols|), f.size, nodes[f.k].id);
          if i + 1 <= s.maxCount - next.cnt {
            AppendExact(s, nodes, next, i + 1, ids);
          }
        } else {
          NothingFound(s, nodes, st.used, st.left, 0, 0);
        }
      } else {
        AppendExact(s, nodes, st, i + 1, ids);
      }
    }
  }

  /** What the loop counts is what it appends. */
  lemma {:induction false} AppendTotals(s: Spec, nodes: seq<Node>, st: State, i: nat, ids: nat -> string)
    requires Usable(s, nodes) && AllScheduled(st.vols)
    ensures var r := Append(s, nodes, st, i, ids).st;
            && AllScheduled(r.vols) && |r.vols| - |st.vols| == r.cnt - st.cnt
            && Bytes(r.vols) - Bytes(st.vols) == st.left - r.left
    decreases s.maxCount - st.cnt - i
  {
    hide Offer;
    if i < s.maxCount - st.cnt {
      var f := Search(s, nodes, st.used, st.left, 0, 0);
      if Need(s, st) && f.Placed? {
        TotalsNew(st.vols, Volume(ids(|st.vols|), f.size, nodes[f.k].id));
        AppendTotals(s, nodes, PlaceNew(st, ids(|st.vols|), f.size, nodes[f.k].id), i + 1, ids);
      } else {
        AppendTotals(s, nodes, st, i + 1, ids);
      }
    }
  }

  predicate AllScheduled(vols: seq<Volume>) { forall i :: 0 <= i < |vols| ==> Scheduled(vols[i]) }

  lemma {:induction false} NoneUnscheduled(vols: seq<Volume>, i: nat)
    requires AllScheduled(vols) && i <= |vols|
    ensures Unscheduled(vols, i) == []
  {
    if i > 0 {
      NoneUnscheduled(vols, i - 1);
    }
  }

  lemma {:induction false} PruneAll(vols: seq<Volume>)
    requires AllScheduled(vols)
    ensures Prune(vols) == vols && Count(vols) == |vols|
  {
    if vols != [] {
      PruneAll(vols[..|vols| - 1]);
      assert vols == vols[..|vols| - 1] + [vols[|vols| - 1]];
    }
  }

  /** A successful call on a group without rolled-back entries halves what is missing, or covers the total. */
  lemma SchedHalves(s: Spec, nodes: seq<Node>, vols: seq<Volume>, ids: nat -> string)
    requires Usable(s, nodes) && AllScheduled(vols) && |vols| <= s.maxCount && Bytes(vols) < s.total
    requires Sched(s, nodes, vols, ids).Ok?
    ensures var r := Sched(s, nodes, vols, ids).st.vols;
            && AllScheduled(r) && |vols| <= |r| <= |vols| + (s.maxCount - |vols| + 1) / 2
            && (Bytes(r) >= s.total || s.maxCount - |r| == (s.maxCount - |vols|) / 2)
            && (|vols| < s.maxCount ==> |r| > |vols|)
  {
    hide Offer, Search;
    NoneUnscheduled(vols, |vols|);
    RecordedTotals(s, vols, |vols|);
    assert vols[..|vols|] == vols;
    PruneAll(vols);
    var st := Recorded(s, vols, |vols|);
    AppendExact(s, nodes, st, 0, ids);
    AppendTotals(s, nodes, st, 0, ids);
    var last := Append(s, nodes, st, 0, ids).st;
    PruneAll(last.vols);
  }

  /** What the fill loop counts is what it schedules. */
  lemma {:induction false} FillCounts(s: Spec, nodes: seq<Node>, st: State, todo: seq<nat>)
    requires Usable(s, nodes) && Todo(st.vols, todo) && Indexes(todo, |st.vols|)
    ensures var r := Fill(s, nodes, st, todo).st;
            Count(r.vols) - Count(st.vols) == r.cnt - st.cnt && Bytes(r.vols) - Bytes(st.vols) == st.left - r.left
    decreases |todo|
  {
    hide Offer;
    if todo != [] {
      var f := Search(s, nodes, st.used, st.left, 0, 0);
      if Need(s, st) && f.Placed? {
        TotalsAt(st.vols, todo[0], st.vols[todo[0]].(size := f.size, node := nodes[f.k].id));
        FillCounts(s, nodes, PlaceAt(st, todo[0], f.size, nodes[f.k].id), todo[1..]);
      } else {
        FillCounts(s, nodes, st, todo[1..]);
      }
    }
  }

  /** What the append loop counts is what it schedules, whatever is in the list already. */
  lemma {:induction false} AppendCounts(s: Spec, nodes: seq<Node>, st: State, i: nat, ids: nat -> string)
    requires Usable(s, nodes)
    ensures var r := Append(s, nodes, st, i, ids).st;
            Count(r.vols) - Count(st.vols) == r.cnt - st.cnt && Bytes(r.vols) - Bytes(st.vols) == st.left - r.left
    decreases s.maxCount - st.cnt - i
  {
    hide Offer;
    if i < s.maxCount - st.cnt {
      var f := Search(s, nodes, st.used, st.left, 0, 0);
      if Need(s, st) && f.Placed? {
        TotalsNew(st.vols, Volume(ids(|st.vols|), f.size, nodes[f.k].id));
        AppendCounts(s, nodes, PlaceNew(st, ids(|st.vols|), f.size, nodes[f.k].id), i + 1, ids);
      } else {
        AppendCounts(s, nodes, st, i + 1, ids);
      }
    }
  }

  /** After any call the loop variables agree with the entries: count and bytes left. */
  lemma SchedCounts(s: Spec, nodes: seq<Node>, vols: seq<Volume>, ids: nat -> string)
    requires Usable(s, nodes) && GroupOk(s, vols)
    ensures var r := Sched(s, nodes, vols, ids).st; r.cnt == Count(r.vols) && r.left == s.total - Bytes(r.vols)
  {
    hide Fill, Append, StateOk, GroupOk, Usable;
    StartOk(s, nodes, vols);
    var st := Recorded(s, vols, |vols|);
    var todo := Unscheduled(vols, |vols|);
    FillCounts(s, nodes, st, todo);
    var filled := Fill(s, nodes, st, todo).st;
    AppendCounts(s, nodes, filled, 0, ids);
    PruneTotals(Append(s, nodes, filled, 0, ids).st.vols);
  }

  /** A successful call with bytes left and room for a volume places at least one, also after a rollback. */
  lemma SchedPlaces(s: Spec, nodes: seq<Node>, vols: seq<Volume>, ids: nat -> string)
    requires Usable(s, nodes) && GroupOk(s, vols) && Count(vols) < s.maxCount && Bytes(vols) < s.total
    requires Sched(s, nodes, vols, ids).Ok?
    ensures var r := Sched(s, nodes, vols, ids).st.vols; |r| == Count(r) > Count(vols)
  {
    hide Offer, Search, Fill, Append, StateOk;
    SchedCounts(s, nodes, vols, ids);
    StartOk(s, nodes, vols);
    CountAtMost(vols);
    var st := Recorded(s, vols, |vols|);
    var todo := Unscheduled(vols, |vols|);
    FillOk(s, nodes, Homes(vols), st, todo);
    var filled := Fill(s, nodes, st, todo).st;
    if todo == [] {
      assert Fill(s, nodes, st, todo) == Ok(st) by { FillNothing(s, nodes, st); }
      AppendExact(s, nodes, filled, 0, ids);
    } else {
      AppendOk(s, nodes, Homes(vols), filled, 0, ids);
    }
    PruneTotals(Append(s, nodes, filled, 0, ids).st.vols);
  }

  lemma FillNothing(s: Spec, nodes: seq<Node>, st: State)
    ensures Fill(s, nodes, st, []) == Ok(st)
  {
  }

  function Halved(r: nat, n: nat): nat { if n == 0 then r else Halved(r / 2, n - 1) }

  lemma {:induction false} HalvedVanishes(r: nat, n: nat)
    requires n >= r
    ensures Halved(r, n) == 0
  {
    if n > 0 {
      HalvedVanishes(r / 2, n - 1);
    }
  }

  /** Passes without rollback, every one of which schedules successfully or has nothing to do. */
  predicate AllSucceed(s: Spec, vols: seq<Volume>, rounds: seq<(seq<Node>, nat -> string)>)
    decreases |rounds|
  {
    rounds == [] ||
    (&& Usable(s, rounds[0].0)
     && (NodeBytes(vols) >= s.total || Sched(s, rounds[0].0, vols, rounds[0].1).Ok?)
     && AllSucceed(s, ScheduleGroup(s, rounds[0].0, vols, rounds[0].1), rounds[1..]))
  }

  function After(s: Spec, vols: seq<Volume>, rounds: seq<(seq<Node>, nat -> string)>): seq<Volume>
    decreases |rounds|
  {
    if rounds == [] then vols else After(s, ScheduleGroup(s, rounds[0].0, vols, rounds[0].1), rounds[1..])
  }

  lemma {:induction false} NodeBytesAll(vols: seq<Volume>)
    requires AllScheduled(vols)
    ensures NodeBytes(vols) == Bytes(vols)
  {
    if vols != [] {
      NodeBytesAll(vols[..|vols| - 1]);
    }
  }

  /** Each pass halves the number of missing volumes until the total is covered. */
  lemma {:induction false} RoundsHalve(s: Spec, vols: seq<Volume>, rounds: seq<(seq<Node>, nat -> string)>)
    requires AllScheduled(vols) && |vols| <= s.maxCount && AllSucceed(s, vols, rounds)
    ensures var r := After(s, vols, rounds);
            && AllScheduled(r) && |r| <= s.maxCount
            && (Bytes(r) >= s.total || s.maxCount - |r| == Halved(s.maxCount - |vols|, |rounds|))
    decreases |rounds|
  {
    hide Sched, Bytes, NodeBytes, Usable;
    NodeBytesAll(vols);
    if rounds != [] {
      if Bytes(vols) >= s.total {
        Settled(s, vols, rounds);
      } else {
        SchedHalves(s, rounds[0].0, vols, rounds[0].1);
        var next := ScheduleGroup(s, rounds[0].0, vols, rounds[0].1);
        RoundsHalve(s, next, rounds[1..]);
        NodeBytesAll(next);
        if Bytes(next) >= s.total {
          Settled(s, next, rounds[1..]);
        }
      }
    }
  }

  lemma {:induction false} Settled(s: Spec, vols: seq<Volume>, rounds: seq<(seq<Node>, nat -> string)>)
    requires NodeBytes(vols) >= s.total
    ensures After(s, vols, rounds) == vols
    decreases |rounds|
  {
    if rounds != [] {
      Settled(s, vols, rounds[1..]);
    }
  }

  /** From an empty group, as many successful passes as the maximum count cover the total or reach the count. */
  lemma Converges(s: Spec, rounds: seq<(seq<Node>, nat -> string)>)
    requires s.maxCount >= 0 && AllSucceed(s, [], rounds) && |rounds| >= s.maxCount
    ensures var r := After(s, [], rounds); Bytes(r) >= s.total || |r| == s.maxCount
  {
    hide Sched, AllSucceed, After, Bytes;
    RoundsHalve(s, [], rounds);
    HalvedVanishes(s.maxCount, |rounds|);
  }
}
