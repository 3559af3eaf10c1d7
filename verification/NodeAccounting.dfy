/**
 A storage node as the scheduler sees it: the volumes bound to it, the reservations made
 on it, and the cached free space that must agree with a recomputation.
 */
module NodeAccounting {
  import opened Prelude

  /** What accounting reads from an AntstorVolume. */
  datatype Volume = Volume(
    name: string,
    uuid: string,
    size: nat,                    // spec.sizeByte
    snapReserved: nat,            // annotation: bytes kept for a snapshot
    realSize: nat,                // annotation: bytes really allocated, 0 when absent
    resvAnnotation: Option<string>,
    pvcNamespace: string,
    pvcName: string,
    node: string)                 // spec.targetNodeId

  /** GetTotalSize */
  function TotalSize(v: Volume): nat {
    (if v.realSize > 0 then v.realSize else v.size) + v.snapReserved
  }

  /** getVolumeReservationID: the annotation, or the PVC the volume was made for. */
  function ReservationID(v: Volume): string {
    if v.resvAnnotation.Some? then v.resvAnnotation.value
    else if v.pvcNamespace != "" && v.pvcName != "" then v.pvcNamespace + "/" + v.pvcName
    else ""
  }

  datatype Pool = Pool(
    nodeId: string,
    capacity: Option<int>,        // status.capacity, when the pool reports one
    vgBytes: nat,                 // size of the LVM volume group
    lvsBytes: nat,                // size of the SPDK lvstore
    reserved: seq<nat>)           // sizes of reserved logical volumes

  /** GetVgTotalBytes */
  function VgTotal(p: Pool): int {
    if p.vgBytes > 0 then p.vgBytes
    else if p.lvsBytes > 0 then p.lvsBytes
    else if p.capacity.Some? then p.capacity.value
    else 0
  }

  /** SetStoragePool fills in a missing capacity from the pool's own size. */
  function WithCapacity(p: Pool): Pool {
    if VgTotal(p) > 0 && p.capacity.None? then p.(capacity := Some(VgTotal(p))) else p
  }

  // ---------------------------------------------------------------------------
  // Sums

  function SumSeq(s: seq<nat>): nat { if s == [] then 0 else SumSeq(s[..|s| - 1]) + s[|s| - 1] }

  function VolumeBytes(vols: seq<Volume>): nat {
    if vols == [] then 0 else VolumeBytes(vols[..|vols| - 1]) + TotalSize(vols[|vols| - 1])
  }

  ghost function SumMap(m: map<string, nat>): nat
    decreases |m|
  {
    if m == map[] then 0
    else
      var k :| k in m;
      assert (m - {k}).Keys == m.Keys - {k};
      m[k] + SumMap(m - {k})
  }

  /** The sum does not depend on the order in which the entries are visited. */
  lemma {:induction false} SumMapWithout(m: map<string, nat>, k: string)
    requires k in m
    ensures SumMap(m) == m[k] + SumMap(m - {k})
    decreases |m|
  {
    var j :| j in m && SumMap(m) == m[j] + SumMap(m - {j});
    assert (m - {j}).Keys == m.Keys - {j};
    assert (m - {k}).Keys == m.Keys - {k};
    if j != k {
      SumMapWithout(m - {j}, k);
      SumMapWithout(m - {k}, j);
      assert m - {j} - {k} == m - {k} - {j};
    }
  }

  function ReservationIDs(vols: seq<Volume>): set<string> {
    set i | 0 <= i < |vols| :: ReservationID(vols[i])
  }

  // ---------------------------------------------------------------------------
  // The node as a value

  datatype NodeState = NodeState(pool: Pool, volumes: seq<Volume>, resv: map<string, nat>, free: Option<int>)

  /** Reservations that still count: those whose volume is not bound yet. */
  function LiveReservations(st: NodeState): map<string, nat> { st.resv - ReservationIDs(st.volumes) }

  /** Capacity minus reserved logical volumes, bound volumes and live reservations. */
  ghost function Exact(st: NodeState): Option<int> {
    if st.pool.capacity.None? then None
    else Some(st.pool.capacity.value - SumSeq(st.pool.reserved) - VolumeBytes(st.volumes)
              - SumMap(LiveReservations(st)))
  }

  /** GetFreeResourceNonLock with its side effect: reservations of bound volumes are dropped on the way. */
  ghost function Recompute(st: NodeState): NodeState {
    st.(resv := if st.pool.capacity.Some? then LiveReservations(st) else st.resv, free := Exact(st))
  }

  ghost predicate Exactly(st: NodeState) { st.free == Exact(st) }

  predicate Clash(vols: seq<Volume>, v: Volume, i: nat)
    requires i < |vols|
  {
    vols[i].name == v.name && vols[i].size != v.size
  }

  /** The duplicate check: index of the first volume with that name and another size. */
  function FirstClash(vols: seq<Volume>, v: Volume, i: nat): (r: nat)
    requires i <= |vols|
    ensures i <= r <= |vols|
    ensures r < |vols| ==> Clash(vols, v, r)
    ensures forall j :: i <= j < r ==> !Clash(vols, v, j)
    decreases |vols| - i
  {
    if i == |vols| || Clash(vols, v, i) then i else FirstClash(vols, v, i + 1)
  }

  /** Volumes with the name of `v` among the first `k` are replaced by it. */
  function Replaced(vols: seq<Volume>, v: Volume, k: nat): (r: seq<Volume>)
    requires k <= |vols|
    ensures |r| == |vols|
    ensures forall i :: 0 <= i < |vols| ==> r[i] == if i < k && vols[i].name == v.name then v else vols[i]
  {
    seq(|vols|, i requires 0 <= i < |vols| => if i < k && vols[i].name == v.name then v else vols[i])
  }

  predicate HasName(vols: seq<Volume>, name: string) { exists i :: 0 <= i < |vols| && vols[i].name == name }

  function Unreserved(st: NodeState, v: Volume): NodeState {
    if ReservationID(v) != "" then st.(resv := st.resv - {ReservationID(v)}) else st
  }

  predicate Accepts(st: NodeState, v: Volume) { FirstClash(st.volumes, v, 0) == |st.volumes| }

  /** AddVolume: on a size clash the reservation is gone already and nothing is recomputed. */
  ghost function Add(st: NodeState, v: Volume): NodeState {
    var u := v.(node := st.pool.nodeId);
    var s := Unreserved(st, v);
    if !Accepts(st, v) then s.(volumes := Replaced(st.volumes, u, FirstClash(st.volumes, v, 0)))
    else if HasName(st.volumes, v.name) then Recompute(s.(volumes := Replaced(st.volumes, u, |st.volumes|)))
    else Recompute(s.(volumes := st.volumes + [u]))
  }

  function IndexOf(vols: seq<Volume>, uuid: string, i: nat): (r: nat)
    requires i <= |vols|
    ensures i <= r <= |vols|
    ensures r < |vols| ==> vols[r].uuid == uuid
    ensures forall j :: i <= j < r ==> vols[j].uuid != uuid
    decreases |vols| - i
  {
    if i == |vols| || vols[i].uuid == uuid then i else IndexOf(vols, uuid, i + 1)
  }

  /** RemoveVolumeByID */
  ghost function Remove(st: NodeState, uuid: string): NodeState {
    var k := IndexOf(st.volumes, uuid, 0);
    if k == |st.volumes| then st
    else Recompute(st.(volumes := st.volumes[..k] + st.volumes[k + 1..]))
  }

  predicate Grants(st: NodeState, id: string, size: nat) {
    id !in ReservationIDs(st.volumes) && (if st.free.Some? then st.free.value else 0) >= size
  }

  ghost function Reserve(st: NodeState, id: string, size: nat): NodeState {
    if !Grants(st, id, size) then st else Recompute(st.(resv := st.resv[id := size]))
  }

  ghost function Unreserve(st: NodeState, id: string): NodeState { Recompute(st.(resv := st.resv - {id})) }

  ghost function SetPool(st: NodeState, p: Pool): NodeState { Recompute(st.(pool := p)) }

  ghost function NewNode(p: Pool): NodeState { Recompute(NodeState(p, [], map[], None)) }

  function Lookup(st: NodeState, uuid: string): Option<Volume> {
    var k := IndexOf(st.volumes, uuid, 0);
    if k == |st.volumes| then None else Some(st.volumes[k])
  }

  // ---------------------------------------------------------------------------
  // Conservation over histories

  datatype Op =
    | OpAdd(v: Volume)
    | OpRemove(uuid: string)
    | OpReserve(id: string, size: nat)
    | OpUnreserve(id: string)
    | OpSetPool(p: Pool)

  ghost function Apply(st: NodeState, op: Op): NodeState {
    match op
    case OpAdd(v) => Add(st, v)
    case OpRemove(u) => Remove(st, u)
    case OpReserve(id, size) => Reserve(st, id, size)
    case OpUnreserve(id) => Unreserve(st, id)
    case OpSetPool(p) => SetPool(st, p)
  }

  ghost function Exec(st: NodeState, ops: seq<Op>): NodeState
    decreases |ops|
  {
    if ops == [] then st else Exec(Apply(st, ops[0]), ops[1..])
  }

  /** Operations that end in a recomputation. */
  predicate Succeeds(st: NodeState, op: Op) {
    match op
    case OpAdd(v) => Accepts(st, v)
    case OpRemove(u) => IndexOf(st.volumes, u, 0) < |st.volumes|
    case OpReserve(id, size) => Grants(st, id, size)
    case OpUnreserve(_) => true
    case OpSetPool(_) => true
  }

  predicate UniqueNames(vols: seq<Volume>) {
    forall i, j :: 0 <= i < j < |vols| ==> vols[i].name != vols[j].name
  }

  ghost predicate Conserved(st: NodeState) {
    && UniqueNames(st.volumes)
    // the cache never promises more than there is
    && (st.free.Some? <==> st.pool.capacity.Some?)
    && (st.free.Some? ==> st.free.value <= Exact(st).value)
    // a bound volume never has its reservation counted beside it
    && (forall id :: id in st.resv && id in ReservationIDs(st.volumes) ==> id == "")
  }

  lemma RecomputeIsExact(st: NodeState)
    ensures Exactly(Recompute(st))
    ensures forall id :: id in Recompute(st).resv ==> id in st.resv
  {
    var r := Recompute(st);
    assert LiveReservations(r) == LiveReservations(st);
  }

  lemma ReservationIDsOf(vols: seq<Volume>, v: Volume)
    ensures ReservationIDs(vols + [v]) == ReservationIDs(vols) + {ReservationID(v)}
  {
    var all := vols + [v];
    forall x | x in ReservationIDs(vols) + {ReservationID(v)}
      ensures x in ReservationIDs(all)
    {
      if x in ReservationIDs(vols) {
        var i :| 0 <= i < |vols| && ReservationID(vols[i]) == x;
        assert all[i] == vols[i];
      } else {
        assert all[|vols|] == v;
      }
    }
  }

  /** With unique names a rejected volume leaves the list alone: the clash is its only namesake. */
  lemma RejectedKeepsVolumes(st: NodeState, v: Volume)
    requires UniqueNames(st.volumes) && !Accepts(st, v)
    ensures Add(st, v) == Unreserved(st, v)
  {
    var k := FirstClash(st.volumes, v, 0);
    var u := v.(node := st.pool.nodeId);
    assert Replaced(st.volumes, u, k) == st.volumes;
  }

  lemma AddConserved(st: NodeState, v: Volume)
    requires Conserved(st)
    ensures Conserved(Add(st, v)) && (Accepts(st, v) ==> Exactly(Add(st, v)))
  {
    var u := v.(node := st.pool.nodeId);
    if !Accepts(st, v) {
      RejectedKeepsVolumes(st, v);
      DroppedReservation(st, ReservationID(v));
    } else {
      var vols := if HasName(st.volumes, v.name) then Replaced(st.volumes, u, |st.volumes|) else st.volumes + [u];
      var s := Unreserved(st, v).(volumes := vols);
      RecomputeIsExact(s);
      assert ReservationID(u) == ReservationID(v);
      forall id | id in s.resv && id in ReservationIDs(vols)
        ensures id == ""
      {
        var i :| 0 <= i < |vols| && ReservationID(vols[i]) == id;
        if vols[i] != u {
          assert vols[i] == st.volumes[i];
        }
      }
    }
  }

  /** Dropping a reservation without recomputing frees exactly its bytes, unless its volume is bound. */
  lemma DroppedReservation(st: NodeState, id: string)
    ensures var d := st.(resv := st.resv - {id});
            var bytes := if id in LiveReservations(st) then st.resv[id] else 0;
            st.pool.capacity.Some? ==> Exact(d).value == Exact(st).value + bytes
  {
    var d := st.(resv := st.resv - {id});
    if id in LiveReservations(st) {
      SumMapWithout(LiveReservations(st), id);
      assert LiveReservations(d) == LiveReservations(st) - {id};
    } else {
      assert LiveReservations(d) == LiveReservations(st);
    }
  }

  lemma RemoveConserved(st: NodeState, uuid: string)
    requires Conserved(st)
    ensures Conserved(Remove(st, uuid))
    ensures IndexOf(st.volumes, uuid, 0) < |st.volumes| ==> Exactly(Remove(st, uuid))
  {
    var k := IndexOf(st.volumes, uuid, 0);
    if k < |st.volumes| {
      var vols := st.volumes[..k] + st.volumes[k + 1..];
      RecomputeIsExact(st.(volumes := vols));
      assert ReservationIDs(vols) <= ReservationIDs(st.volumes) by {
        forall i | 0 <= i < |vols| ensures ReservationID(vols[i]) in ReservationIDs(st.volumes) {
          assert vols[i] == st.volumes[if i < k then i else i + 1];
        }
      }
    }
  }

  lemma ReserveConserved(st: NodeState, id: string, size: nat)
    requires Conserved(st)
    ensures Conserved(Reserve(st, id, size))
    ensures Grants(st, id, size) ==> Exactly(Reserve(st, id, size))
  {
    if Grants(st, id, size) {
      RecomputeIsExact(st.(resv := st.resv[id := size]));
    }
  }

  /** Every operation keeps the books; every successful one leaves them exact. */
  lemma ApplyConserved(st: NodeState, op: Op)
    requires Conserved(st)
    ensures Conserved(Apply(st, op)) && (Succeeds(st, op) ==> Exactly(Apply(st, op)))
  {
    match op
    case OpAdd(v) => AddConserved(st, v);
    case OpRemove(u) => RemoveConserved(st, u);
    case OpReserve(id, size) => ReserveConserved(st, id, size);
    case OpUnreserve(id) => RecomputeIsExact(st.(resv := st.resv - {id}));
    case OpSetPool(p) => RecomputeIsExact(st.(pool := p));
  }

  lemma {:induction false} HistoryConserved(st: NodeState, ops: seq<Op>)
    requires Conserved(st)
    ensures Conserved(Exec(st, ops))
    decreases |ops|
  {
    if ops != [] {
      ApplyConserved(st, ops[0]);
      HistoryConserved(Apply(st, ops[0]), ops[1..]);
    }
  }

  /**
   From a new node, after any history: the cached free space never exceeds capacity minus
   reserved volumes, bound volumes and live reservations, and no reservation coexists with
   the volume it was made for.
   */
  lemma NodeHistory(p: Pool, ops: seq<Op>)
    ensures Conserved(Exec(NewNode(p), ops))
  {
    RecomputeIsExact(NodeState(p, [], map[], None));
    HistoryConserved(NewNode(p), ops);
  }

  /** What a rejected volume costs: the cache stays behind by exactly the reservation that was dropped. */
  lemma RejectedAddGap(st: NodeState, v: Volume)
    requires Conserved(st) && Exactly(st) && !Accepts(st, v) && st.pool.capacity.Some?
    ensures var r := Add(st, v);
            var id := ReservationID(v);
            var lost := if id != "" && id in LiveReservations(st) then st.resv[id] else 0;
            && r.free.value + lost == Exact(r).value
            && (Exactly(r) <==> lost == 0)
  {
    RejectedKeepsVolumes(st, v);
    DroppedReservation(st, ReservationID(v));
  }

  /** A granted reservation never drives the free space below zero, whatever the cache said before. */
  lemma GrantedFitsIn(st: NodeState, id: string, size: nat)
    requires Conserved(st) && Grants(st, id, size) && st.pool.capacity.Some?
    ensures Reserve(st, id, size).free.value >= 0
    ensures id !in st.resv ==> Exact(Reserve(st, id, size)).value == Exact(st).value - size
  {
    var s := st.(resv := st.resv[id := size]);
    RecomputeIsExact(s);
    var live := LiveReservations(st);
    var live' := LiveReservations(s);
    assert live' == live[id := size];
    SumMapWithout(live', id);
    assert live' - {id} == live - {id};
    if id in live {
      SumMapWithout(live, id);
    } else {
      assert live - {id} == live;
    }
  }
}
