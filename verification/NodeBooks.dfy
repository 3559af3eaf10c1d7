/**
 The books of a node entry by entry: what each operation does to the cached free space, in bytes, and that
 after every history capacity is what is free, reserved, bound and promised.
 */
module NodeBooks {
  import opened Prelude
  import opened NodeAccounting

  /** The bytes a volume takes: what was really allocated if that is known, and its snapshot reserve. */
  function Takes(v: Volume): nat { (if v.realSize > 0 then v.realSize else v.size) + v.snapReserved }

  /** The bytes promised under that id to a volume that is not bound yet. */
  function Promised(st: NodeState, id: string): nat {
    if id in st.resv && forall i :: 0 <= i < |st.volumes| ==> ReservationID(st.volumes[i]) != id then st.resv[id] else 0
  }

  /** The cache is up to date, and no reservation is kept for a bound volume. */
  ghost predicate UpToDate(st: NodeState) {
    && st.pool.capacity.Some? && Exactly(st)
    && forall i :: 0 <= i < |st.volumes| ==> ReservationID(st.volumes[i]) !in st.resv
  }

  lemma LiveAll(st: NodeState)
    requires UpToDate(st)
    ensures LiveReservations(st) == st.resv
  {
  }

  lemma PromisedLive(st: NodeState, id: string)
    ensures Promised(st, id) == if id in LiveReservations(st) then st.resv[id] else 0
  {
    if id in ReservationIDs(st.volumes) {
      var i :| 0 <= i < |st.volumes| && ReservationID(st.volumes[i]) == id;
    }
  }

  /** Every recomputation of a node with a capacity leaves it up to date. */
  lemma RecomputedUpToDate(st: NodeState)
    requires st.pool.capacity.Some?
    ensures UpToDate(Recompute(st))
  {
    RecomputeIsExact(st);
    var r := Recompute(st);
    forall i | 0 <= i < |r.volumes| ensures ReservationID(r.volumes[i]) !in r.resv {
      assert ReservationID(st.volumes[i]) in ReservationIDs(st.volumes);
    }
  }

  // ---------------------------------------------------------------------------
  // Sums

  lemma SumSeqNext(s: seq<nat>, b: nat)
    ensures SumSeq(s + [b]) == SumSeq(s) + b
  {
    assert (s + [b])[..|s|] == s;
  }

  lemma BytesNext(vols: seq<Volume>, v: Volume)
    ensures VolumeBytes(vols + [v]) == VolumeBytes(vols) + Takes(v)
  {
    assert (vols + [v])[..|vols|] == vols;
  }

  lemma {:induction false} BytesWithout(vols: seq<Volume>, k: nat)
    requires k < |vols|
    ensures VolumeBytes(vols) == VolumeBytes(vols[..k] + vols[k + 1..]) + Takes(vols[k])
    decreases |vols|
  {
    var n := |vols| - 1;
    var rest := vols[..k] + vols[k + 1..];
    if k == n {
      assert rest == vols[..n];
    } else {
      BytesWithout(vols[..n], k);
      assert rest[..n - 1] == vols[..n][..k] + vols[..n][k + 1..];
      assert rest[n - 1] == vols[n];
    }
  }

  lemma {:induction false} BytesReplaced(vols: seq<Volume>, v: Volume, k: nat)
    requires k < |vols| && vols[k].name == v.name && UniqueNames(vols)
    ensures VolumeBytes(Replaced(vols, v, |vols|)) == VolumeBytes(vols) - Takes(vols[k]) + Takes(v)
    decreases |vols|
  {
    var n := |vols| - 1;
    var r := Replaced(vols, v, |vols|);
    if k == n {
      assert r[..n] == vols[..n];
    } else {
      BytesReplaced(vols[..n], v, k);
      assert r[..n] == Replaced(vols[..n], v, n);
    }
  }

  lemma SumMapNext(m: map<string, nat>, id: string, size: nat)
    ensures SumMap(m[id := size]) == SumMap(m) + size - if id in m then m[id] else 0
  {
    var n := m[id := size];
    SumMapWithout(n, id);
    assert n - {id} == m - {id};
    if id in m {
      SumMapWithout(m, id);
    } else {
      assert m - {id} == m;
    }
  }

  lemma SumMapDrop(m: map<string, nat>, id: string)
    ensures SumMap(m - {id}) == SumMap(m) - if id in m then m[id] else 0
  {
    if id in m {
      SumMapWithout(m, id);
    } else {
      assert m - {id} == m;
    }
  }

  // ---------------------------------------------------------------------------
  // Pools

  /** A new node offers its capacity without the reserved logical volumes. */
  lemma NewNodeFree(p: Pool)
    ensures var n := NewNode(p);
            && n.pool == p && n.volumes == [] && n.resv == map[]
            && n.free == if p.capacity.Some? then Some(p.capacity.value - SumSeq(p.reserved)) else None
  {
    assert LiveReservations(NodeState(p, [], map[], None)) == map[];
  }

  /** A further reserved logical volume lowers the free space by its bytes, and so does a smaller capacity. */
  lemma PoolFree(st: NodeState, p: Pool, b: nat, less: nat)
    requires p.capacity.Some?
    ensures var free := SetPool(st, p).free;
            && free.Some?
            && SetPool(st, p.(reserved := p.reserved + [b])).free == Some(free.value - b)
            && SetPool(st, p.(capacity := Some(p.capacity.value - less))).free == Some(free.value - less)
            && SetPool(st, p.(capacity := None)).free == None
    ensures SetPool(st, p).pool == p && SetPool(st, p).volumes == st.volumes
  {
    hide SetPool, SumMap, SumSeq, VolumeBytes, LiveReservations;
    SumSeqNext(p.reserved, b);
    PoolExact(st, p);
    PoolExact(st, p.(reserved := p.reserved + [b]));
    PoolExact(st, p.(capacity := Some(p.capacity.value - less)));
    PoolExact(st, p.(capacity := None));
  }

  lemma PoolExact(st: NodeState, p: Pool)
    ensures var r := SetPool(st, p);
            && r.pool == p && r.volumes == st.volumes
            && r.free == if p.capacity.None? then None
                         else Some(p.capacity.value - SumSeq(p.reserved) - VolumeBytes(st.volumes)
                                   - SumMap(LiveReservations(st)))
  {
    hide SumMap, SumSeq, VolumeBytes;
  }

  /** A pool that reports no capacity counts as large as its volume group, or else its lvstore. */
  lemma CapacityFilled(p: Pool)
    ensures WithCapacity(p) == p.(capacity := WithCapacity(p).capacity)
    ensures WithCapacity(p).capacity ==
              if p.capacity.Some? then p.capacity
              else if p.vgBytes > 0 then Some(p.vgBytes)
              else if p.lvsBytes > 0 then Some(p.lvsBytes)
              else None
  {
  }

  // ---------------------------------------------------------------------------
  // Volumes

  /** What a recomputation leaves, with the reservations that still count as `live`. */
  lemma Recomputed(s: NodeState, live: map<string, nat>)
    requires s.pool.capacity.Some? && LiveReservations(s) == live
    ensures var r := Recompute(s);
            && UpToDate(r) && r.pool == s.pool && r.volumes == s.volumes && r.resv == live
            && r.free == Some(s.pool.capacity.value - SumSeq(s.pool.reserved) - VolumeBytes(s.volumes) - SumMap(live))
  {
    RecomputedUpToDate(s);
    hide SumMap, SumSeq, VolumeBytes, LiveReservations, UpToDate;
  }

  lemma FreeOf(st: NodeState)
    requires UpToDate(st)
    ensures st.pool.capacity.Some?
    ensures st.free ==
              Some(st.pool.capacity.value - SumSeq(st.pool.reserved) - VolumeBytes(st.volumes) - SumMap(st.resv))
  {
    LiveAll(st);
    hide SumMap, SumSeq, VolumeBytes, LiveReservations;
  }

  /** A new volume takes its bytes, and what was promised to it is free again. */
  lemma NewVolumeFree(st: NodeState, v: Volume)
    requires UpToDate(st) && forall i :: 0 <= i < |st.volumes| ==> st.volumes[i].name != v.name
    ensures Accepts(st, v)
    ensures var r := Add(st, v);
            && UpToDate(r) && r.volumes == st.volumes + [v.(node := st.pool.nodeId)]
            && r.free == Some(st.free.value - Takes(v) + Promised(st, ReservationID(v)))
            && r.resv == st.resv - {ReservationID(v)}
  {
    var u, id := v.(node := st.pool.nodeId), ReservationID(v);
    var s := Unreserved(st, v).(volumes := st.volumes + [u]);
    assert !HasName(st.volumes, v.name);
    PromiseKept(st, v, u);
    BytesNext(st.volumes, u);
    FreeOf(st);
    LiveAll(st);
    PromisedLive(st, id);
    SumMapDrop(st.resv, id);
    hide Recompute, UpToDate, VolumeBytes, SumMap, SumSeq, LiveReservations, Promised;
    Recomputed(s, st.resv - {id});
  }

  /** With the volume bound its reservation no longer counts. */
  lemma PromiseKept(st: NodeState, v: Volume, u: Volume)
    requires UpToDate(st) && ReservationID(u) == ReservationID(v)
    ensures LiveReservations(Unreserved(st, v).(volumes := st.volumes + [u])) == st.resv - {ReservationID(v)}
  {
    hide Exactly;
    ReservationIDsOf(st.volumes, u);
  }

  /** Other namesakes there are none, so only the size of that one decides. */
  lemma KnownAccepted(st: NodeState, v: Volume, k: nat)
    requires UniqueNames(st.volumes) && k < |st.volumes| && st.volumes[k].name == v.name
    ensures Accepts(st, v) <==> st.volumes[k].size == v.size
    ensures HasName(st.volumes, v.name)
  {
    if st.volumes[k].size != v.size {
      assert Clash(st.volumes, v, k);
    }
  }

  lemma StillPromised(st: NodeState, u: Volume, k: nat)
    requires UpToDate(st) && k < |st.volumes| && ReservationID(u) == ReservationID(st.volumes[k])
    ensures LiveReservations(st.(volumes := st.volumes[k := u])) == st.resv
  {
    hide Exactly;
    var vols := st.volumes[k := u];
    forall i | 0 <= i < |vols| ensures ReservationID(vols[i]) !in st.resv {
      if i != k {
        assert vols[i] == st.volumes[i];
      }
    }
  }

  /** A volume of a known name is replaced if and only if its size is the same, and only its bytes change. */
  lemma KnownVolumeFree(st: NodeState, v: Volume, k: nat)
    requires UpToDate(st) && UniqueNames(st.volumes) && k < |st.volumes| && st.volumes[k].name == v.name
    requires ReservationID(v) == ReservationID(st.volumes[k])
    ensures var r := Add(st, v);
            if st.volumes[k].size == v.size then
              && UpToDate(r) && r.volumes == st.volumes[k := v.(node := st.pool.nodeId)]
              && r.free == Some(st.free.value + Takes(st.volumes[k]) - Takes(v))
            else r == st
  {
    KnownAccepted(st, v, k);
    NotReserved(st, v, k);
    if Accepts(st, v) {
      var u := v.(node := st.pool.nodeId);
      var s := st.(volumes := st.volumes[k := u]);
      ReplacedAt(st.volumes, u, k);
      StillPromised(st, u, k);
      FreeOf(st);
      hide Accepts, HasName, Recompute, UpToDate, Replaced, VolumeBytes, SumMap, SumSeq, LiveReservations, UniqueNames;
      Recomputed(s, st.resv);
    } else {
      RejectedKeepsVolumes(st, v);
    }
  }

  lemma NotReserved(st: NodeState, v: Volume, k: nat)
    requires UpToDate(st) && k < |st.volumes| && ReservationID(v) == ReservationID(st.volumes[k])
    ensures Unreserved(st, v) == st
  {
    hide Exactly;
    assert st.resv - {ReservationID(v)} == st.resv;
  }

  lemma ReplacedAt(vols: seq<Volume>, u: Volume, k: nat)
    requires k < |vols| && vols[k].name == u.name && UniqueNames(vols)
    ensures Replaced(vols, u, |vols|) == vols[k := u]
    ensures VolumeBytes(vols[k := u]) == VolumeBytes(vols) - Takes(vols[k]) + Takes(u)
  {
    BytesReplaced(vols, u, k);
    hide VolumeBytes;
    assert Replaced(vols, u, |vols|) == vols[k := u];
  }

  /** A volume that goes gives its bytes back. */
  lemma GoneVolumeFree(st: NodeState, k: nat)
    requires UpToDate(st) && k < |st.volumes|
    requires forall i :: 0 <= i < k ==> st.volumes[i].uuid != st.volumes[k].uuid
    ensures var r := Remove(st, st.volumes[k].uuid);
            && UpToDate(r) && r.volumes == st.volumes[..k] + st.volumes[k + 1..] && r.resv == st.resv
            && r.free == Some(st.free.value + Takes(st.volumes[k]))
  {
    var vols := st.volumes[..k] + st.volumes[k + 1..];
    var s := st.(volumes := vols);
    assert IndexOf(st.volumes, st.volumes[k].uuid, 0) == k;
    BytesWithout(st.volumes, k);
    PromisesStay(st, k);
    FreeOf(st);
    hide Recompute, UpToDate, VolumeBytes, SumMap, SumSeq, LiveReservations, IndexOf;
    Recomputed(s, st.resv);
  }

  lemma PromisesStay(st: NodeState, k: nat)
    requires UpToDate(st) && k < |st.volumes|
    ensures LiveReservations(st.(volumes := st.volumes[..k] + st.volumes[k + 1..])) == st.resv
  {
    hide Exactly;
    var vols := st.volumes[..k] + st.volumes[k + 1..];
    forall i | 0 <= i < |vols| ensures ReservationID(vols[i]) !in st.resv {
      assert vols[i] == st.volumes[if i < k then i else i + 1];
    }
  }

  // ---------------------------------------------------------------------------
  // Reservations

  /**
   A reservation is made if and only if no bound volume has its id and the free space covers it; it then takes
   its bytes from the free space, in place of an older one of that id.
   */
  lemma ReservesExactlyWhen(st: NodeState, id: string, size: nat)
    requires UpToDate(st)
    ensures var unbound := forall i :: 0 <= i < |st.volumes| ==> ReservationID(st.volumes[i]) != id;
            var r := Reserve(st, id, size);
            if st.free.value >= size && unbound then
              && UpToDate(r) && r.resv == st.resv[id := size] && r.volumes == st.volumes
              && r.free == Some(st.free.value - size + Promised(st, id))
            else r == st
  {
    if id in ReservationIDs(st.volumes) {
      var i :| 0 <= i < |st.volumes| && ReservationID(st.volumes[i]) == id;
    } else {
      forall i | 0 <= i < |st.volumes| ensures ReservationID(st.volumes[i]) != id {
        assert ReservationID(st.volumes[i]) in ReservationIDs(st.volumes);
      }
      if st.free.value >= size {
        var s := st.(resv := st.resv[id := size]);
        RecomputedUpToDate(s);
        LiveAll(st);
        PromisedLive(st, id);
        assert LiveReservations(s) == s.resv;
        SumMapNext(st.resv, id, size);
      }
    }
  }

  lemma UnreservedFree(st: NodeState, id: string)
    requires UpToDate(st)
    ensures var r := Unreserve(st, id);
            UpToDate(r) && r.resv == st.resv - {id} && r.volumes == st.volumes
            && r.free == Some(st.free.value + Promised(st, id))
  {
    var s := st.(resv := st.resv - {id});
    RecomputedUpToDate(s);
    LiveAll(st);
    PromisedLive(st, id);
    assert LiveReservations(s) == s.resv;
    SumMapDrop(st.resv, id);
  }

  /** The id a reservation is found by: the annotation, or else the claim the volume was made for. */
  lemma ReservationIdOf(v: Volume)
    ensures v.resvAnnotation.Some? ==> ReservationID(v) == v.resvAnnotation.value
    ensures v.resvAnnotation.None? && v.pvcNamespace != "" && v.pvcName != "" ==>
              ReservationID(v) == v.pvcNamespace + "/" + v.pvcName
    ensures v.resvAnnotation.None? && (v.pvcNamespace == "" || v.pvcName == "") ==> ReservationID(v) == ""
  {
  }

  // ---------------------------------------------------------------------------
  // Histories

  /** What is promised to volumes that are not bound. */
  ghost function Promises(st: NodeState): map<string, nat> {
    map id | id in st.resv && (forall i :: 0 <= i < |st.volumes| ==> ReservationID(st.volumes[i]) != id) :: st.resv[id]
  }

  lemma PromisesAreLive(st: NodeState)
    ensures Promises(st) == LiveReservations(st)
  {
    forall i | 0 <= i < |st.volumes| ensures ReservationID(st.volumes[i]) in ReservationIDs(st.volumes) {
    }
  }

  /**
   After every history from a new node free, reserved, bound and promised bytes never exceed the capacity,
   and they add up to it whenever the last operation succeeded.
   */
  lemma BooksBalance(p: Pool, ops: seq<Op>, op: Op)
    ensures var s := Exec(NewNode(p), ops);
            var r := Apply(s, op);
            r.pool.capacity.Some? ==>
              r.free.Some? &&
              var all := r.free.value + SumSeq(r.pool.reserved) + VolumeBytes(r.volumes) + SumMap(Promises(r));
              all <= r.pool.capacity.value && (Succeeds(s, op) ==> all == r.pool.capacity.value)
  {
    NodeHistory(p, ops);
    var s := Exec(NewNode(p), ops);
    ApplyConserved(s, op);
    PromisesAreLive(Apply(s, op));
  }
}
