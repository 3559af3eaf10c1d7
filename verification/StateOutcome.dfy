/**
 What a caller of the scheduler's state finds afterwards: which error a bind returns, what a lookup finds
 after a bind or an unbind, and what becomes of all the other volumes.
 */
module StateOutcome {
  import opened Prelude
  import opened NodeAccounting
  import opened NodeBooks
  import opened StateIndex

  /** The node has a volume of that name and another size. */
  predicate Clashes(st: NodeState, v: Volume) {
    exists i :: 0 <= i < |st.volumes| && st.volumes[i].name == v.name && st.volumes[i].size != v.size
  }

  lemma AcceptsExactlyWhen(st: NodeState, v: Volume)
    ensures Accepts(st, v) <==> !Clashes(st, v)
  {
    if Clashes(st, v) {
      var i :| 0 <= i < |st.volumes| && st.volumes[i].name == v.name && st.volumes[i].size != v.size;
      assert Clash(st.volumes, v, i);
    }
  }

  /** Which error comes back, and when. */
  lemma BindErrorExactlyWhen(s: State, id: string, v: Volume)
    ensures BindError(s, id, v) == Some(NodeNotFound) <==> id !in s.nodes
    ensures BindError(s, id, v) == Some(EmptyUuid) <==> id in s.nodes && v.uuid == ""
    ensures BindError(s, id, v) == Some(DuplicateVolume) <==> id in s.nodes && v.uuid != "" && Clashes(s.nodes[id], v)
    ensures BindError(s, id, v) == None <==> id in s.nodes && v.uuid != "" && !Clashes(s.nodes[id], v)
  {
    if id in s.nodes {
      AcceptsExactlyWhen(s.nodes[id], v);
    }
  }

  /** A bind that fails leaves every volume and the index as they were. */
  lemma FailedBindKeeps(s: State, id: string, v: Volume)
    requires Indexed(s) && BindError(s, id, v).Some?
    ensures var t := Bind(s, id, v);
            && t.index == s.index && t.nodes.Keys == s.nodes.Keys
            && forall n :: n in s.nodes ==>
                 t.nodes[n].volumes == s.nodes[n].volumes && t.nodes[n].pool == s.nodes[n].pool
  {
    if id in s.nodes && v.uuid != "" {
      RejectedKeepsVolumes(s.nodes[id], v);
    }
  }

  lemma GetFound(s: State, uuid: string, n: string, i: nat)
    requires Indexed(s) && FoundAt(s, uuid, n, i)
    ensures GetVolumeByID(s, uuid) == Ok(s.nodes[n].volumes[i])
  {
    GetIsBruteForce(s, uuid);
  }

  lemma GetOther(s: State, t: State, uuid: string, n: string, i: nat, j: nat)
    requires Indexed(s) && Indexed(t) && FoundAt(s, uuid, n, i) && FoundAt(t, uuid, n, j)
    requires s.nodes[n].volumes[i] == t.nodes[n].volumes[j]
    ensures GetVolumeByID(t, uuid) == GetVolumeByID(s, uuid)
  {
    GetFound(s, uuid, n, i);
    GetFound(t, uuid, n, j);
  }

  /** What was bound is found on its node, and every other volume is found as before. */
  lemma BindThenGet(s: State, id: string, v: Volume)
    requires Indexed(s) && BindError(s, id, v).None? && SameIdentity(s, id, v)
    ensures var t := Bind(s, id, v);
            && GetVolumeByID(t, v.uuid) == Ok(v.(node := s.nodes[id].pool.nodeId))
            && t.index == s.index[v.uuid := id]
            && forall n :: n in s.nodes && n != id ==> n in t.nodes && t.nodes[n] == s.nodes[n]
  {
    BindIndexed(s, id, v);
    BoundVolumes(s, id, v);
    var t := Bind(s, id, v);
    var a, b := s.nodes[id].volumes, t.nodes[id].volumes;
    hide Add, Accepts, Indexed;
    var i := if HasName(a, v.name) then NamedAt(a, v.name) else |a|;
    assert b[i] == v.(node := s.nodes[id].pool.nodeId);
    GetFound(t, v.uuid, id, i);
  }

  ghost function NamedAt(vols: seq<Volume>, name: string): (i: nat)
    requires HasName(vols, name)
    ensures i < |vols| && vols[i].name == name
  {
    var i :| 0 <= i < |vols| && vols[i].name == name;
    i
  }

  lemma BindKeepsOthers(s: State, id: string, v: Volume, uuid: string)
    requires Indexed(s) && BindError(s, id, v).None? && SameIdentity(s, id, v) && uuid != v.uuid
    ensures GetVolumeByID(Bind(s, id, v), uuid) == GetVolumeByID(s, uuid)
  {
    BindIndexed(s, id, v);
    BoundVolumes(s, id, v);
    var t := Bind(s, id, v);
    assert t.nodes == s.nodes[id := t.nodes[id]] && t.index == s.index[v.uuid := id];
    GetIsBruteForce(s, uuid);
    hide Bind, BindError, Indexed, UniqueNames;
    if GetVolumeByID(s, uuid).Ok? {
      var n, i: nat :| FoundAt(s, uuid, n, i);
      assert t.nodes[n].volumes[i] == s.nodes[n].volumes[i];
      GetOther(s, t, uuid, n, i, i);
    } else {
      assert uuid !in s.index;
    }
  }

  /** After an unbind the volume is found no more and its bytes are free again; every other is found as before. */
  lemma UnbindThenGet(s: State, uuid: string)
    requires Indexed(s)
    ensures GetVolumeByID(Unbind(s, uuid), uuid) == Err(VolumeNotIndexed)
    ensures UnbindError(s, uuid) == if uuid in s.index then None else Some(VolumeNotIndexed)
    ensures forall n :: n in s.nodes && (uuid in s.index ==> n != s.index[uuid]) ==>
              n in Unbind(s, uuid).nodes && Unbind(s, uuid).nodes[n] == s.nodes[n]
  {
    if uuid in s.index {
      UnboundVolumes(s, uuid);
    }
  }

  lemma UnbindFrees(s: State, uuid: string)
    requires Indexed(s) && uuid in s.index && UpToDate(s.nodes[s.index[uuid]])
    ensures var n := s.index[uuid];
            var v := GetVolumeByID(s, uuid);
            && v.Ok? && n in Unbind(s, uuid).nodes
            && Unbind(s, uuid).nodes[n].free == Some(s.nodes[n].free.value + Takes(v.value))
  {
    var n := s.index[uuid];
    assert Holds(s.nodes[n], uuid);
    GoneVolumeFree(s.nodes[n], IndexOf(s.nodes[n].volumes, uuid, 0));
  }

  lemma UnbindKeepsOthers(s: State, gone: string, uuid: string)
    requires Indexed(s) && uuid != gone
    ensures GetVolumeByID(Unbind(s, gone), uuid) == GetVolumeByID(s, uuid)
  {
    if gone in s.index {
      UnbindIndexed(s, gone);
      UnboundVolumes(s, gone);
      var t, at := Unbind(s, gone), s.index[gone];
      var k := IndexOf(s.nodes[at].volumes, gone, 0);
      GetIsBruteForce(s, uuid);
      hide Unbind, Remove, Indexed, IndexOf, UniqueNames, UniqueUuids;
      if GetVolumeByID(s, uuid).Ok? {
        var n, i: nat :| FoundAt(s, uuid, n, i);
        GetOther(s, t, uuid, n, i, if n == at && i > k then i - 1 else i);
      } else {
        assert uuid !in s.index;
      }
    }
  }

  /** A pool that is set is the pool of its node; the volumes, the index and all other nodes stay. */
  lemma SetPoolOutcome(s: State, p: Pool)
    ensures var t := SetStoragePool(s, p);
            && t.index == s.index && t.nodes.Keys == s.nodes.Keys + {p.nodeId}
            && t.nodes[p.nodeId].pool == WithCapacity(p)
            && t.nodes[p.nodeId].volumes == (if p.nodeId in s.nodes then s.nodes[p.nodeId].volumes else [])
            && (p.nodeId !in s.nodes && WithCapacity(p).capacity.Some? ==>
                  t.nodes[p.nodeId].free == Some(WithCapacity(p).capacity.value - SumSeq(p.reserved)))
            && forall n :: n in s.nodes && n != p.nodeId ==> t.nodes[n] == s.nodes[n]
  {
    CapacityFilled(p);
    NewNodeFree(WithCapacity(p));
  }
}
