/**
 The scheduler's state: all nodes, and the index from volume uuid to node. The index must
 agree with a search through the nodes; exactly which operations keep it so is proved here.
 */
module StateIndex {
  import opened Prelude
  import opened NodeAccounting

  datatype State = State(nodes: map<string, NodeState>, index: map<string, string>)

  datatype Error = NodeNotFound | EmptyUuid | DuplicateVolume | VolumeNotIndexed | VolumeNotFound

  datatype Result<+T> = Ok(value: T) | Err(error: Error)

  // ---------------------------------------------------------------------------
  // Operations

  ghost function SetStoragePool(s: State, pool: Pool): State {
    var p := WithCapacity(pool);
    s.(nodes := s.nodes[p.nodeId := if p.nodeId in s.nodes then SetPool(s.nodes[p.nodeId], p) else NewNode(p)])
  }

  /** RemoveStoragePool does not touch the index. */
  function RemoveStoragePool(s: State, id: string): State { s.(nodes := s.nodes - {id}) }

  function BindError(s: State, id: string, v: Volume): Option<Error> {
    if id !in s.nodes then Some(NodeNotFound)
    else if v.uuid == "" then Some(EmptyUuid)
    else if !Accepts(s.nodes[id], v) then Some(DuplicateVolume)
    else None
  }

  /** BindAntstorVolume: a rejected volume may still have cost its reservation on that node. */
  ghost function Bind(s: State, id: string, v: Volume): State {
    if id !in s.nodes || v.uuid == "" then s
    else
      var t := s.(nodes := s.nodes[id := Add(s.nodes[id], v)]);
      if !Accepts(s.nodes[id], v) then t else t.(index := t.index[v.uuid := id])
  }

  function UnbindError(s: State, uuid: string): Option<Error> {
    if uuid !in s.index then Some(VolumeNotIndexed)
    else if s.index[uuid] !in s.nodes then Some(NodeNotFound)
    else None
  }

  ghost function Unbind(s: State, uuid: string): State {
    if UnbindError(s, uuid).Some? then s
    else
      var id := s.index[uuid];
      State(s.nodes[id := Remove(s.nodes[id], uuid)], s.index - {uuid})
  }

  /** GetVolumeByID, through the index. */
  function GetVolumeByID(s: State, uuid: string): Result<Volume> {
    if uuid !in s.index then Err(VolumeNotIndexed)
    else if s.index[uuid] !in s.nodes then Err(NodeNotFound)
    else
      match Lookup(s.nodes[s.index[uuid]], uuid)
      case Some(v) => Ok(v)
      case None => Err(VolumeNotFound)
  }

  // ---------------------------------------------------------------------------
  // The index agrees with the nodes

  predicate Holds(st: NodeState, uuid: string) { exists i :: 0 <= i < |st.volumes| && st.volumes[i].uuid == uuid }

  predicate UniqueUuids(vols: seq<Volume>) {
    forall i, j :: 0 <= i < j < |vols| ==> vols[i].uuid != vols[j].uuid
  }

  /** A uuid is mapped to a node exactly when that node, and no other, holds one volume with it. */
  ghost predicate Indexed(s: State) {
    && (forall n :: n in s.nodes ==> UniqueUuids(s.nodes[n].volumes) && UniqueNames(s.nodes[n].volumes))
    && (forall n, u :: n in s.nodes && Holds(s.nodes[n], u) ==> u in s.index && s.index[u] == n)
    && (forall u :: u in s.index ==> s.index[u] in s.nodes && Holds(s.nodes[s.index[u]], u))
  }

  /** Brute-force search: some node has a volume with that uuid at some position. */
  ghost predicate FoundAt(s: State, uuid: string, n: string, i: nat) {
    n in s.nodes && i < |s.nodes[n].volumes| && s.nodes[n].volumes[i].uuid == uuid
  }

  /** Looking a volume up by the index is the same as searching all nodes for it. */
  lemma GetIsBruteForce(s: State, uuid: string)
    requires Indexed(s)
    ensures GetVolumeByID(s, uuid).Ok? <==> exists n, i: nat :: FoundAt(s, uuid, n, i)
    ensures forall n, i: nat :: FoundAt(s, uuid, n, i) ==>
              && GetVolumeByID(s, uuid) == Ok(s.nodes[n].volumes[i])
              && s.index[uuid] == n
              && forall m, j: nat :: FoundAt(s, uuid, m, j) ==> m == n && j == i
  {
    if uuid in s.index {
      var n := s.index[uuid];
      var k := IndexOf(s.nodes[n].volumes, uuid, 0);
      assert FoundAt(s, uuid, n, k);
    }
    forall n, i: nat | FoundAt(s, uuid, n, i)
      ensures uuid in s.index && s.index[uuid] == n && i == IndexOf(s.nodes[n].volumes, uuid, 0)
    {
      assert Holds(s.nodes[n], uuid);
    }
  }

  // ---------------------------------------------------------------------------
  // Exactly when the operations keep the index right

  /** The volume carries the same identity as any volume it meets: by name and by uuid alike, and only there. */
  ghost predicate SameIdentity(s: State, id: string, v: Volume)
    requires id in s.nodes
  {
    && (forall i :: 0 <= i < |s.nodes[id].volumes| ==>
          (s.nodes[id].volumes[i].name == v.name <==> s.nodes[id].volumes[i].uuid == v.uuid))
    && (v.uuid in s.index ==> s.index[v.uuid] == id)
  }

  /** Only node `id` and its index entries changed, and they still agree. */
  lemma NodeChanged(s: State, t: State, id: string)
    requires Indexed(s) && id in t.nodes && t.nodes == s.nodes[id := t.nodes[id]]
    requires UniqueUuids(t.nodes[id].volumes) && UniqueNames(t.nodes[id].volumes)
    requires forall u :: Holds(t.nodes[id], u) ==> u in t.index && t.index[u] == id
    requires forall u :: u in t.index && t.index[u] == id ==> Holds(t.nodes[id], u)
    requires forall u :: u in t.index && t.index[u] != id ==> u in s.index && s.index[u] == t.index[u]
    requires forall u :: u in s.index && s.index[u] != id ==> u in t.index && s.index[u] == t.index[u]
    ensures Indexed(t)
  {
    forall n, u | n in t.nodes && Holds(t.nodes[n], u) ensures u in t.index && t.index[u] == n {
      if n != id {
        assert Holds(s.nodes[n], u);
      }
    }
    forall u | u in t.index ensures t.index[u] in t.nodes && Holds(t.nodes[t.index[u]], u) {
      if t.index[u] != id {
        assert Holds(s.nodes[s.index[u]], u);
      }
    }
  }

  lemma SameVolumesIndexed(s: State, id: string, st: NodeState)
    requires Indexed(s) && id in s.nodes && st.volumes == s.nodes[id].volumes
    ensures Indexed(s.(nodes := s.nodes[id := st]))
  {
    var t := s.(nodes := s.nodes[id := st]);
    forall u ensures Holds(t.nodes[id], u) <==> Holds(s.nodes[id], u) {
    }
    NodeChanged(s, t, id);
  }

  lemma RejectedBindIndexed(s: State, id: string, v: Volume)
    requires Indexed(s) && BindError(s, id, v).Some?
    ensures Indexed(Bind(s, id, v))
  {
    hide Exact;
    if id in s.nodes && v.uuid != "" {
      RejectedKeepsVolumes(s.nodes[id], v);
      SameVolumesIndexed(s, id, Add(s.nodes[id], v));
    }
  }

  /** What a successful bind leaves on the node. */
  lemma BoundVolumes(s: State, id: string, v: Volume)
    requires BindError(s, id, v).None?
    ensures var u := v.(node := s.nodes[id].pool.nodeId);
            var old_ := s.nodes[id].volumes;
            var new_ := Bind(s, id, v).nodes[id].volumes;
            && new_ == (if HasName(old_, v.name) then Replaced(old_, u, |old_|) else old_ + [u])
            && Holds(Bind(s, id, v).nodes[id], v.uuid)
  {
    var u := v.(node := s.nodes[id].pool.nodeId);
    var old_ := s.nodes[id].volumes;
    var new_ := Bind(s, id, v).nodes[id].volumes;
    if HasName(old_, v.name) {
      var i :| 0 <= i < |old_| && old_[i].name == v.name;
      assert new_[i] == u;
    } else {
      assert new_[|old_|] == u;
    }
  }

  lemma BindIndexed(s: State, id: string, v: Volume)
    requires Indexed(s) && BindError(s, id, v).None? && SameIdentity(s, id, v)
    ensures Indexed(Bind(s, id, v))
  {
    BoundVolumes(s, id, v);
    var t := Bind(s, id, v);
    var a, b := s.nodes[id].volumes, t.nodes[id].volumes;
    assert t.nodes == s.nodes[id := t.nodes[id]] && t.index == s.index[v.uuid := id];
    hide Bind, Add, BindError, Exact;
    forall i | 0 <= i < |b|
      ensures i < |a| ==> b[i].uuid == a[i].uuid && b[i].name == a[i].name
      ensures i == |a| ==> b[i].uuid == v.uuid && b[i].name == v.name && !HasName(a, v.name)
    {
    }
    forall u | Holds(t.nodes[id], u) ensures u in t.index && t.index[u] == id {
      var i :| 0 <= i < |b| && b[i].uuid == u;
      if i < |a| {
        assert Holds(s.nodes[id], u);
      }
    }
    forall u | u in t.index && t.index[u] == id ensures Holds(t.nodes[id], u) {
      if u != v.uuid {
        assert Holds(s.nodes[id], u);
        var i :| 0 <= i < |a| && a[i].uuid == u;
        assert b[i].uuid == u;
      }
    }
    NodeChanged(s, t, id);
  }

  /** The name moves to another uuid: the old uuid stays in the index but is no longer on the node. */
  lemma RenamedBreaksIndex(s: State, id: string, v: Volume, i: nat)
    requires Indexed(s) && BindError(s, id, v).None? && i < |s.nodes[id].volumes|
    requires s.nodes[id].volumes[i].name == v.name && s.nodes[id].volumes[i].uuid != v.uuid
    ensures !Indexed(Bind(s, id, v))
  {
    BoundVolumes(s, id, v);
    hide Add, Accepts, Exact;
    var t := Bind(s, id, v);
    var a, b := s.nodes[id].volumes, t.nodes[id].volumes;
    var gone := a[i].uuid;
    assert HasName(a, v.name) && Holds(s.nodes[id], gone);
    assert gone in t.index && t.index[gone] == id;
    forall j | 0 <= j < |b| ensures b[j].uuid != gone {
      assert a[j].name == v.name || (b[j] == a[j] && j != i);
    }
  }

  /** The uuid comes back under another name: the node then holds two volumes with it. */
  lemma TwinBreaksIndex(s: State, id: string, v: Volume, i: nat)
    requires Indexed(s) && BindError(s, id, v).None? && i < |s.nodes[id].volumes|
    requires s.nodes[id].volumes[i].name != v.name && s.nodes[id].volumes[i].uuid == v.uuid
    ensures !Indexed(Bind(s, id, v))
  {
    BoundVolumes(s, id, v);
    var t := Bind(s, id, v);
    var a, b := s.nodes[id].volumes, t.nodes[id].volumes;
    assert b[i] == a[i];
    if HasName(a, v.name) {
      var j :| 0 <= j < |a| && a[j].name == v.name;
      assert b[j].uuid == v.uuid && j != i;
      assert !UniqueUuids(b);
    } else {
      assert b[|a|].uuid == v.uuid;
      assert !UniqueUuids(b);
    }
  }

  lemma BindBreaksIndex(s: State, id: string, v: Volume)
    requires Indexed(s) && BindError(s, id, v).None? && !SameIdentity(s, id, v)
    ensures !Indexed(Bind(s, id, v))
  {
    var a := s.nodes[id].volumes;
    if v.uuid in s.index && s.index[v.uuid] != id {
      var m := s.index[v.uuid];
      assert Holds(s.nodes[m], v.uuid);
      assert Holds(Bind(s, id, v).nodes[m], v.uuid) && Bind(s, id, v).index[v.uuid] == id;
    } else {
      var i :| 0 <= i < |a| && (a[i].name == v.name) != (a[i].uuid == v.uuid);
      if a[i].name == v.name {
        RenamedBreaksIndex(s, id, v, i);
      } else {
        TwinBreaksIndex(s, id, v, i);
      }
    }
  }

  /**
   The exact condition: a successful bind keeps the index right if and only if the volume
   shares name and uuid with the same volumes of that node and is not bound to another node.
   */
  lemma BindKeepsIndexExactlyWhen(s: State, id: string, v: Volume)
    requires Indexed(s) && BindError(s, id, v).None?
    ensures Indexed(Bind(s, id, v)) <==> SameIdentity(s, id, v)
  {
    if SameIdentity(s, id, v) {
      BindIndexed(s, id, v);
    } else {
      BindBreaksIndex(s, id, v);
    }
  }

  /** What removing an indexed volume leaves on its node. */
  lemma UnboundVolumes(s: State, uuid: string)
    requires Indexed(s) && uuid in s.index
    ensures var id := s.index[uuid];
            var a := s.nodes[id].volumes;
            var k := IndexOf(a, uuid, 0);
            var t := Unbind(s, uuid);
            && k < |a| && id in t.nodes && t.nodes[id].volumes == a[..k] + a[k + 1..]
            && t.nodes == s.nodes[id := t.nodes[id]] && t.index == s.index - {uuid}
            && (forall u :: Holds(t.nodes[id], u) <==> u != uuid && Holds(s.nodes[id], u))
  {
    hide Exact, UniqueNames;
    var id := s.index[uuid];
    var a := s.nodes[id].volumes;
    assert Holds(s.nodes[id], uuid);
    var k := IndexOf(a, uuid, 0);
    var t := Unbind(s, uuid);
    assert t.nodes[id].volumes == a[..k] + a[k + 1..];
    forall u ensures Holds(t.nodes[id], u) <==> u != uuid && Holds(s.nodes[id], u) {
      HoldsWithout(s.nodes[id], t.nodes[id], k, u);
    }
  }

  lemma HoldsWithout(s: NodeState, t: NodeState, k: nat, u: string)
    requires k < |s.volumes| && t.volumes == s.volumes[..k] + s.volumes[k + 1..] && UniqueUuids(s.volumes)
    ensures Holds(t, u) <==> u != s.volumes[k].uuid && Holds(s, u)
  {
    var a, b := s.volumes, t.volumes;
    if i :| 0 <= i < |a| && a[i].uuid == u && u != a[k].uuid {
      assert b[if i < k then i else i - 1].uuid == u;
    }
    if i :| 0 <= i < |b| && b[i].uuid == u {
      assert a[if i < k then i else i + 1].uuid == u;
    }
  }

  lemma UnbindIndexed(s: State, uuid: string)
    requires Indexed(s)
    ensures Indexed(Unbind(s, uuid))
    ensures uuid in s.index ==> UnbindError(s, uuid).None?
    ensures forall n :: n in Unbind(s, uuid).nodes ==> !Holds(Unbind(s, uuid).nodes[n], uuid)
  {
    var t := Unbind(s, uuid);
    if uuid in s.index {
      hide Unbind, Remove, IndexOf, Exact;
      UnboundVolumes(s, uuid);
      var id := s.index[uuid];
      UniqueWithout(s.nodes[id].volumes, IndexOf(s.nodes[id].volumes, uuid, 0));
      NodeChanged(s, t, id);
      NotIndexed(t, uuid);
    } else {
      NotIndexed(s, uuid);
    }
  }

  lemma UniqueWithout(a: seq<Volume>, k: nat)
    requires UniqueUuids(a) && UniqueNames(a) && k < |a|
    ensures UniqueUuids(a[..k] + a[k + 1..]) && UniqueNames(a[..k] + a[k + 1..])
  {
  }

  /** A volume the index does not have is on no node. */
  lemma NotIndexed(s: State, uuid: string)
    requires Indexed(s) && uuid !in s.index
    ensures forall n :: n in s.nodes ==> !Holds(s.nodes[n], uuid)
  {
  }

  /** Removing a pool keeps the index right exactly when the pool was not there or held no volume. */
  lemma RemovePoolExactlyWhen(s: State, id: string)
    requires Indexed(s)
    ensures Indexed(RemoveStoragePool(s, id)) <==> (id in s.nodes ==> s.nodes[id].volumes == [])
  {
    var t := RemoveStoragePool(s, id);
    if id in s.nodes && s.nodes[id].volumes != [] {
      var u := s.nodes[id].volumes[0].uuid;
      assert Holds(s.nodes[id], u);
      assert u in t.index && t.index[u] !in t.nodes;
    } else {
      forall u | u in t.index ensures t.index[u] in t.nodes && Holds(t.nodes[t.index[u]], u) {
        assert Holds(s.nodes[s.index[u]], u);
      }
      forall n, u | n in t.nodes && Holds(t.nodes[n], u) ensures u in t.index && t.index[u] == n {
        assert Holds(s.nodes[n], u);
      }
    }
  }

  lemma SetPoolIndexed(s: State, pool: Pool)
    requires Indexed(s)
    ensures Indexed(SetStoragePool(s, pool))
  {
    var t := SetStoragePool(s, pool);
    var id := WithCapacity(pool).nodeId;
    hide Exact;
    forall u ensures Holds(t.nodes[id], u) <==> id in s.nodes && Holds(s.nodes[id], u) {
    }
    forall u | u in s.index && s.index[u] == id ensures id in s.nodes {
    }
    NodeChanged(s, t, id);
  }

  // ---------------------------------------------------------------------------
  // Histories

  datatype Op =
    | OpBind(id: string, v: Volume)
    | OpUnbind(uuid: string)
    | OpReserve(id: string, resv: string, size: nat)
    | OpUnreserve(id: string, resv: string)
    | OpSetPool(pool: Pool)
    | OpRemovePool(id: string)

  ghost function Apply(s: State, op: Op): State {
    match op
    case OpBind(id, v) => Bind(s, id, v)
    case OpUnbind(u) => Unbind(s, u)
    case OpReserve(id, r, size) =>
      if id in s.nodes then s.(nodes := s.nodes[id := Reserve(s.nodes[id], r, size)]) else s
    case OpUnreserve(id, r) =>
      if id in s.nodes then s.(nodes := s.nodes[id := Unreserve(s.nodes[id], r)]) else s
    case OpSetPool(p) => SetStoragePool(s, p)
    case OpRemovePool(id) => RemoveStoragePool(s, id)
  }

  /** What the callers of the state keep to: one identity per volume, and only empty pools are removed. */
  ghost predicate Proper(s: State, op: Op) {
    match op
    case OpBind(id, v) => BindError(s, id, v).None? ==> SameIdentity(s, id, v)
    case OpRemovePool(id) => id in s.nodes ==> s.nodes[id].volumes == []
    case _ => true
  }

  ghost predicate ProperHistory(s: State, ops: seq<Op>)
    decreases |ops|
  {
    ops == [] || (Proper(s, ops[0]) && ProperHistory(Apply(s, ops[0]), ops[1..]))
  }

  ghost function Exec(s: State, ops: seq<Op>): State
    decreases |ops|
  {
    if ops == [] then s else Exec(Apply(s, ops[0]), ops[1..])
  }

  lemma ApplyIndexed(s: State, op: Op)
    requires Indexed(s) && Proper(s, op)
    ensures Indexed(Apply(s, op))
  {
    match op
    case OpBind(id, v) =>
      if BindError(s, id, v).None? {
        BindIndexed(s, id, v);
      } else {
        RejectedBindIndexed(s, id, v);
      }
    case OpUnbind(u) => UnbindIndexed(s, u);
    case OpReserve(id, r, size) =>
      if id in s.nodes {
        SameVolumesIndexed(s, id, Reserve(s.nodes[id], r, size));
      }
    case OpUnreserve(id, r) =>
      if id in s.nodes {
        SameVolumesIndexed(s, id, Unreserve(s.nodes[id], r));
      }
    case OpSetPool(p) => SetPoolIndexed(s, p);
    case OpRemovePool(id) => RemovePoolExactlyWhen(s, id);
  }

  lemma {:induction false} HistoryIndexed(s: State, ops: seq<Op>)
    requires Indexed(s) && ProperHistory(s, ops)
    ensures Indexed(Exec(s, ops))
    decreases |ops|
  {
    if ops != [] {
      ApplyIndexed(s, ops[0]);
      HistoryIndexed(Apply(s, ops[0]), ops[1..]);
    }
  }

  /** Over every proper history from the empty state, lookup by uuid is a brute-force search. */
  lemma HistoryLookup(ops: seq<Op>, uuid: string)
    requires ProperHistory(State(map[], map[]), ops)
    ensures var s := Exec(State(map[], map[]), ops);
            && Indexed(s)
            && (GetVolumeByID(s, uuid).Ok? <==> exists n, i: nat :: FoundAt(s, uuid, n, i))
  {
    HistoryIndexed(State(map[], map[]), ops);
    GetIsBruteForce(Exec(State(map[], map[]), ops), uuid);
  }

  // ---------------------------------------------------------------------------
  // Conservation on every node, and bind undone by unbind

  ghost predicate AllConserved(s: State) { forall n :: n in s.nodes ==> Conserved(s.nodes[n]) }

  /** The books of every node stay right under any operation, proper or not. */
  lemma ApplyKeepsBooks(s: State, op: Op)
    requires AllConserved(s)
    ensures AllConserved(Apply(s, op))
  {
    match op
    case OpBind(id, v) => if id in s.nodes { AddConserved(s.nodes[id], v); }
    case OpUnbind(u) => if UnbindError(s, u).None? { RemoveConserved(s.nodes[s.index[u]], u); }
    case OpReserve(id, r, size) => if id in s.nodes { ReserveConserved(s.nodes[id], r, size); }
    case OpUnreserve(id, r) => if id in s.nodes { ApplyConserved(s.nodes[id], NodeAccounting.OpUnreserve(r)); }
    case OpSetPool(pool) =>
      var p := WithCapacity(pool);
      if p.nodeId in s.nodes {
        ApplyConserved(s.nodes[p.nodeId], NodeAccounting.OpSetPool(p));
      } else {
        NodeHistory(p, []);
      }
    case OpRemovePool(_) =>
  }

  /** On the node itself: adding a fresh volume and removing it restores volumes, reservations and free space. */
  lemma AddThenRemove(st: NodeState, v: Volume)
    requires Exactly(st) && "" !in st.resv && ReservationID(v) == ""
    requires forall id :: id in st.resv ==> id !in ReservationIDs(st.volumes)
    requires !HasName(st.volumes, v.name) && !Holds(st, v.uuid)
    ensures Accepts(st, v) && Remove(Add(st, v), v.uuid) == st
  {
    hide SumMap, VolumeBytes, SumSeq;
    var u := v.(node := st.pool.nodeId);
    FirstClashNone(st.volumes, v, 0);
    ReservationIDsOf(st.volumes, u);
    var a := Add(st, v);
    assert a.volumes == st.volumes + [u];
    assert LiveReservations(st) == st.resv;
    assert st.resv - ReservationIDs(a.volumes) == st.resv;
    assert a.resv == st.resv;
    forall i | 0 <= i < |st.volumes| ensures a.volumes[i].uuid != v.uuid {
      assert a.volumes[i] == st.volumes[i];
    }
    assert a.volumes[|st.volumes|].uuid == v.uuid;
    assert IndexOf(a.volumes, v.uuid, 0) == |st.volumes|;
    assert a.volumes[..|st.volumes|] + a.volumes[|st.volumes| + 1..] == st.volumes;
  }

  /** Binding a fresh volume that has no reservation and unbinding it again restores the whole state. */
  lemma BindThenUnbind(s: State, id: string, v: Volume)
    requires Indexed(s) && AllConserved(s) && id in s.nodes && v.uuid != "" && v.uuid !in s.index
    requires !HasName(s.nodes[id].volumes, v.name) && ReservationID(v) == ""
    requires Exactly(s.nodes[id]) && "" !in s.nodes[id].resv
    ensures BindError(s, id, v).None? && Unbind(Bind(s, id, v), v.uuid) == s
  {
    var st := s.nodes[id];
    NotIndexed(s, v.uuid);
    AddThenRemove(st, v);
    hide Add, Remove, Exactly, Exact, Conserved, Indexed, AllConserved;
    assert s.index[v.uuid := id] - {v.uuid} == s.index;
    assert s.nodes[id := Add(st, v)][id := st] == s.nodes;
  }

  lemma {:induction false} FirstClashNone(vols: seq<Volume>, v: Volume, i: nat)
    requires !HasName(vols, v.name) && i <= |vols|
    ensures FirstClash(vols, v, i) == |vols|
    decreases |vols| - i
  {
    if i < |vols| {
      FirstClashNone(vols, v, i + 1);
    }
  }
}
