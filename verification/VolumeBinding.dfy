/**
 One volume seen from the scheduler's state: which node it is bound to, what the operations
 of its own reconciler and of all the others do to that, and that a bound volume's bytes are
 never part of the free space.
 */
module VolumeBinding {
  import opened Prelude
  import opened NodeAccounting
  import opened StateIndex

  /** The node the volume is bound to, by the index. */
  function Where(s: State, uuid: string): Option<string> {
    if uuid in s.index then Some(s.index[uuid]) else None
  }

  /** Every volume on the node carries the id under which the node is known. */
  predicate Keyed(st: NodeState, n: string) {
    st.pool.nodeId == n && forall i :: 0 <= i < |st.volumes| ==> st.volumes[i].node == n
  }

  /** Name and uuid of the volume belong together on this node. */
  predicate Apart(vols: seq<Volume>, name: string, uuid: string) {
    forall i :: 0 <= i < |vols| ==> (vols[i].name == name <==> vols[i].uuid == uuid)
  }

  ghost predicate Sound(s: State, name: string, uuid: string) {
    && Indexed(s) && AllConserved(s) && "" !in s.nodes
    && forall n :: n in s.nodes ==> Keyed(s.nodes[n], n) && Apart(s.nodes[n].volumes, name, uuid)
  }

  /** Operations made for other volumes and pools. */
  predicate Foreign(op: StateIndex.Op, name: string, uuid: string) {
    match op
    case OpBind(_, v) => v.name != name && v.uuid != uuid
    case OpUnbind(u) => u != uuid
    case OpSetPool(p) => p.nodeId != ""
    case _ => true
  }

  // ---------------------------------------------------------------------------
  // What an operation can put on a node

  lemma AddVolumes(st: NodeState, v: Volume)
    requires UniqueNames(st.volumes)
    ensures Add(st, v).pool == st.pool
    ensures forall x :: x in Add(st, v).volumes ==> x in st.volumes || x == v.(node := st.pool.nodeId)
  {
    hide Exact;
    if !Accepts(st, v) {
      RejectedKeepsVolumes(st, v);
    }
  }

  lemma RemoveVolumes(st: NodeState, uuid: string)
    ensures Remove(st, uuid).pool == st.pool
    ensures forall x :: x in Remove(st, uuid).volumes ==> x in st.volumes
  {
    hide Exact;
  }

  /** Volumes that were on the node, or one new volume made out to it, keep the node sound. */
  lemma NodeStaysSound(st: NodeState, t: NodeState, n: string, name: string, uuid: string, v: Volume)
    requires Keyed(st, n) && Apart(st.volumes, name, uuid) && t.pool.nodeId == n
    requires forall x :: x in t.volumes ==> x in st.volumes || x == v.(node := n)
    requires v.name == name <==> v.uuid == uuid
    ensures Keyed(t, n) && Apart(t.volumes, name, uuid)
  {
    forall i | 0 <= i < |t.volumes|
      ensures t.volumes[i].node == n && (t.volumes[i].name == name <==> t.volumes[i].uuid == uuid)
    {
      assert t.volumes[i] in t.volumes;
    }
  }

  lemma NodeFacts(s: State, n: string, name: string, uuid: string)
    requires Sound(s, name, uuid) && n in s.nodes
    ensures UniqueNames(s.nodes[n].volumes) && s.nodes[n].pool.nodeId == n && n != ""
  {
  }

  lemma BindSound(s: State, id: string, v: Volume, name: string, uuid: string)
    requires Sound(s, name, uuid) && (v.name == name <==> v.uuid == uuid)
    requires Proper(s, OpBind(id, v))
    ensures Sound(Bind(s, id, v), name, uuid)
  {
    ApplyIndexed(s, OpBind(id, v));
    ApplyKeepsBooks(s, OpBind(id, v));
    if id in s.nodes {
      NodeFacts(s, id, name, uuid);
      AddVolumes(s.nodes[id], v);
      NodeStaysSound(s.nodes[id], Add(s.nodes[id], v), id, name, uuid, v);
    }
    hide Indexed, AllConserved, Add, Keyed, Apart, Accepts, UniqueNames;
  }

  lemma UnbindSound(s: State, u: string, name: string, uuid: string)
    requires Sound(s, name, uuid)
    ensures Sound(Unbind(s, u), name, uuid)
  {
    ApplyIndexed(s, OpUnbind(u));
    ApplyKeepsBooks(s, OpUnbind(u));
    if UnbindError(s, u).None? {
      var id := s.index[u];
      var st := s.nodes[id];
      NodeFacts(s, id, name, uuid);
      RemoveVolumes(st, u);
      NodeStaysSound(st, Remove(st, u), id, name, uuid, Volume(name, uuid, 0, 0, 0, None, "", "", ""));
    }
    hide Indexed, AllConserved, Remove, Keyed, Apart, UniqueNames;
  }

  lemma PoolSound(s: State, p: Pool, name: string, uuid: string)
    requires Sound(s, name, uuid) && p.nodeId != ""
    ensures Sound(SetStoragePool(s, p), name, uuid)
  {
    ApplyIndexed(s, StateIndex.OpSetPool(p));
    ApplyKeepsBooks(s, StateIndex.OpSetPool(p));
    hide Indexed, AllConserved, Exact, UniqueNames;
  }

  /** The reconcilers of other volumes and of the pools never move or drop this volume. */
  lemma ForeignKeeps(s: State, op: StateIndex.Op, name: string, uuid: string)
    requires Sound(s, name, uuid) && Proper(s, op) && Foreign(op, name, uuid)
    ensures Sound(StateIndex.Apply(s, op), name, uuid) && Where(StateIndex.Apply(s, op), uuid) == Where(s, uuid)
  {
    hide Sound;
    match op
    case OpBind(id, v) => BindSound(s, id, v, name, uuid);
    case OpUnbind(u) => UnbindSound(s, u, name, uuid);
    case OpSetPool(p) => PoolSound(s, p, name, uuid);
    case _ => RestSound(s, op, name, uuid);
  }

  lemma RestSound(s: State, op: StateIndex.Op, name: string, uuid: string)
    requires Sound(s, name, uuid) && Proper(s, op) && (op.OpReserve? || op.OpUnreserve? || op.OpRemovePool?)
    ensures Sound(StateIndex.Apply(s, op), name, uuid) && Where(StateIndex.Apply(s, op), uuid) == Where(s, uuid)
  {
    ApplyIndexed(s, op);
    ApplyKeepsBooks(s, op);
    hide Indexed, AllConserved, Exact, UniqueNames;
  }

  /** Binding the volume where it is, or for the first time: it is then there if and only if no error came back. */
  lemma BindOurs(s: State, id: string, v: Volume)
    requires Sound(s, v.name, v.uuid) && Where(s, v.uuid) in {None, Some(id)}
    ensures Sound(Bind(s, id, v), v.name, v.uuid)
    ensures Where(Bind(s, id, v), v.uuid) == if BindError(s, id, v).None? then Some(id) else Where(s, v.uuid)
  {
    BindSound(s, id, v, v.name, v.uuid);
  }

  lemma UnbindOurs(s: State, name: string, uuid: string)
    requires Sound(s, name, uuid)
    ensures Sound(Unbind(s, uuid), name, uuid) && Where(Unbind(s, uuid), uuid) == None
  {
    UnbindSound(s, uuid, name, uuid);
  }

  // ---------------------------------------------------------------------------
  // A bound volume is accounted for

  /** A lookup finds the volume exactly when it is bound, and the copy found names the node it is on. */
  lemma LookupOurs(s: State, name: string, uuid: string)
    requires Sound(s, name, uuid)
    ensures GetVolumeByID(s, uuid).Ok? <==> Where(s, uuid).Some?
    ensures GetVolumeByID(s, uuid).Ok? ==> Some(GetVolumeByID(s, uuid).value.node) == Where(s, uuid)
  {
    if uuid in s.index {
      var n := s.index[uuid];
      assert Holds(s.nodes[n], uuid);
      var k := IndexOf(s.nodes[n].volumes, uuid, 0);
      assert s.nodes[n].volumes[k].node == n;
    }
  }

  lemma {:induction false} CountedInBytes(vols: seq<Volume>, i: nat)
    requires i < |vols|
    ensures TotalSize(vols[i]) <= VolumeBytes(vols)
  {
    if i < |vols| - 1 {
      CountedInBytes(vols[..|vols| - 1], i);
    }
  }

  /** The bytes of a bound volume are outside the free space of its node, and only there. */
  lemma BoundIsCounted(s: State, name: string, uuid: string)
    requires Sound(s, name, uuid) && Where(s, uuid).Some?
    ensures var n := Where(s, uuid).value;
            && n in s.nodes
            && (exists i: nat :: FoundAt(s, uuid, n, i))
            && (forall m, j: nat :: FoundAt(s, uuid, m, j) ==> m == n)
            && (s.nodes[n].free.Some? ==>
                  && s.nodes[n].pool.capacity.Some?
                  && forall i: nat :: FoundAt(s, uuid, n, i) ==>
                       s.nodes[n].free.value + TotalSize(s.nodes[n].volumes[i]) + SumSeq(s.nodes[n].pool.reserved)
                       <= s.nodes[n].pool.capacity.value)
  {
    GetIsBruteForce(s, uuid);
    LookupOurs(s, name, uuid);
    var n := s.index[uuid];
    var st := s.nodes[n];
    assert Conserved(st);
    forall i: nat | FoundAt(s, uuid, n, i) ensures TotalSize(st.volumes[i]) <= VolumeBytes(st.volumes) {
      CountedInBytes(st.volumes, i);
    }
  }
}
