/**
 The scheduler's state as the objects that are updated in place: a node whose free space is
 recomputed by three loops (dropping reservations on the way), and the map of nodes with the
 uuid index beside it. Every method is tied to the value-level operation it performs.
 */
module SchedulerState {
  import opened Prelude
  import opened NodeAccounting
  import StateIndex

  class Node {
    var pool: Pool
    var volumes: seq<Volume>
    var resv: map<string, nat>
    var free: Option<int>

    ghost function Value(): NodeState
      reads this
    {
      NodeState(pool, volumes, resv, free)
    }

    constructor (p: Pool)
      ensures Value() == NewNode(p)
    {
      pool, volumes, resv, free := p, [], map[], None;
      new;
      free := GetFreeResource();
    }

    /** GetFreeResourceNonLock: computing the free space also drops reservations of bound volumes. */
    method GetFreeResource() returns (r: Option<int>)
      modifies this`resv
      ensures r == Exact(old(Value()))
      ensures resv == Recompute(old(Value())).resv
    {
      var minus, ids := 0, {};
      for i := 0 to |pool.reserved|
        invariant resv == old(resv)
        invariant minus == if pool.capacity.Some? then SumSeq(pool.reserved[..i]) else 0
      {
        assert pool.reserved[..i + 1][..i] == pool.reserved[..i];
        if pool.capacity.Some? { minus := minus + pool.reserved[i]; }
      }
      assert pool.reserved[..|pool.reserved|] == pool.reserved;
      ghost var fixed := minus;
      for i := 0 to |volumes|
        invariant resv == old(resv)
        invariant pool.capacity.Some? ==>
                    minus == fixed + VolumeBytes(volumes[..i]) && ids == ReservationIDs(volumes[..i])
        invariant pool.capacity.None? ==> minus == 0 && ids == {}
      {
        assert volumes[..i + 1] == volumes[..i] + [volumes[i]];
        ReservationIDsOf(volumes[..i], volumes[i]);
        if pool.capacity.Some? {
          ids := ids + {ReservationID(volumes[i])};
          minus := minus + TotalSize(volumes[i]);
        }
      }
      assert volumes[..|volumes|] == volumes;
      var reserved := DropBound(ids);
      minus := minus + reserved;
      r := if pool.capacity.Some? then Some(pool.capacity.value - minus) else None;
    }

    /** The loop over the reservations: the live ones are summed, the others removed. */
    method DropBound(ids: set<string>) returns (sum: nat)
      modifies this`resv
      ensures resv == old(resv) - ids
      ensures sum == SumMap(resv)
    {
      hide Rest, Kept, SumMap;
      sum := 0;
      var items := resv;
      var todo := items.Keys;
      RestEnds(items, ids);
      while todo != {}
        invariant todo <= items.Keys
        invariant resv == Kept(items, todo, ids)
        invariant sum + SumMap(Rest(items, todo, ids)) == SumMap(items - ids)
        decreases |todo|
      {
        var id :| id in todo;
        RestStep(items, todo, ids, id);
        if id !in ids {
          sum := sum + items[id];
        } else {
          resv := resv - {id};
        }
        todo := todo - {id};
      }
    }

    method AddVolume(v: Volume) returns (ok: bool)
      modifies this
      ensures ok <==> Accepts(old(Value()), v)
      ensures Value() == Add(old(Value()), v)
    {
      var id := ReservationID(v);
      if id != "" { resv := resv - {id}; }
      var u := v.(node := pool.nodeId);
      var duplicate := false;
      ghost var before := volumes;
      for i := 0 to |volumes|
        invariant |volumes| == |before|
        invariant volumes == Replaced(before, u, i)
        invariant duplicate <==> exists j :: 0 <= j < i && before[j].name == v.name
        invariant forall j :: 0 <= j < i ==> !Clash(before, v, j)
        invariant pool == old(pool) && free == old(free) && resv == Unreserved(old(Value()), v).resv
      {
        if volumes[i].name == v.name {
          if volumes[i].size != v.size {
            assert Clash(before, v, i);
            ClashAt(before, v, i);
            return false;
          }
          volumes := volumes[i := u];
          duplicate := true;
        }
      }
      assert FirstClash(before, v, 0) == |before|;
      assert duplicate <==> HasName(before, v.name);
      if !duplicate {
        assert volumes == before;
        volumes := volumes + [u];
      }
      free := GetFreeResource();
      ok := true;
    }

    method RemoveVolumeByID(uuid: string)
      modifies this
      ensures Value() == Remove(old(Value()), uuid)
    {
      var k := FindVolume(uuid);
      if k < |volumes| {
        volumes := volumes[..k] + volumes[k + 1..];
        free := GetFreeResource();
      }
    }

    method FindVolume(uuid: string) returns (k: nat)
      ensures k == IndexOf(volumes, uuid, 0)
    {
      k := 0;
      while k < |volumes| && volumes[k].uuid != uuid
        invariant k <= |volumes|
        invariant IndexOf(volumes, uuid, 0) == IndexOf(volumes, uuid, k)
      {
        k := k + 1;
      }
    }

    method GetVolumeByID(uuid: string) returns (r: Option<Volume>)
      ensures r == Lookup(Value(), uuid)
    {
      var k := FindVolume(uuid);
      r := if k < |volumes| then Some(volumes[k]) else None;
    }

    method Reserve(id: string, size: nat)
      modifies this
      ensures Value() == NodeAccounting.Reserve(old(Value()), id, size)
    {
      for i := 0 to |volumes|
        invariant forall j :: 0 <= j < i ==> ReservationID(volumes[j]) != id
        invariant Value() == old(Value())
      {
        if id == ReservationID(volumes[i]) {
          assert id in ReservationIDs(volumes);
          return;
        }
      }
      if (if free.Some? then free.value else 0) < size { return; }
      resv := resv[id := size];
      free := GetFreeResource();
    }

    method Unreserve(id: string)
      modifies this
      ensures Value() == NodeAccounting.Unreserve(old(Value()), id)
    {
      resv := resv - {id};
      free := GetFreeResource();
    }

    method SetPool(p: Pool)
      modifies this
      ensures Value() == NodeAccounting.SetPool(old(Value()), p)
    {
      pool := p;
      free := GetFreeResource();
    }
  }

  /** The live reservations still to be visited. */
  ghost function Rest(items: map<string, nat>, todo: set<string>, ids: set<string>): map<string, nat> {
    map k | k in items && k in todo && k !in ids :: items[k]
  }

  /** The reservations left when those in `todo` have not been visited. */
  ghost function Kept(items: map<string, nat>, todo: set<string>, ids: set<string>): map<string, nat> {
    items - (ids - todo)
  }

  lemma RestEnds(items: map<string, nat>, ids: set<string>)
    ensures Rest(items, items.Keys, ids) == items - ids && SumMap(Rest(items, {}, ids)) == 0
    ensures Kept(items, items.Keys, ids) == items && Kept(items, {}, ids) == items - ids
  {
    assert Rest(items, {}, ids) == map[];
    assert ids - {} == ids;
  }

  lemma RestStep(items: map<string, nat>, todo: set<string>, ids: set<string>, id: string)
    requires id in todo && todo <= items.Keys
    ensures SumMap(Rest(items, todo, ids)) == SumMap(Rest(items, todo - {id}, ids)) + if id in ids then 0 else items[id]
    ensures Kept(items, todo - {id}, ids) == if id in ids then Kept(items, todo, ids) - {id} else Kept(items, todo, ids)
  {
    if id in ids {
      assert Rest(items, todo - {id}, ids) == Rest(items, todo, ids);
    } else {
      SumMapWithout(Rest(items, todo, ids), id);
      assert Rest(items, todo - {id}, ids) == Rest(items, todo, ids) - {id};
    }
  }

  lemma ClashAt(vols: seq<Volume>, v: Volume, k: nat)
    requires k < |vols| && Clash(vols, v, k) && forall j :: 0 <= j < k ==> !Clash(vols, v, j)
    ensures FirstClash(vols, v, 0) == k
  {
    assert FirstClash(vols, v, 0) <= k;
  }

  class State {
    var nodes: map<string, Node>
    var index: map<string, string>

    /** Two entries never share a node object. */
    ghost predicate Valid()
      reads this
    {
      forall a, b :: a in nodes && b in nodes && nodes[a] == nodes[b] ==> a == b
    }

    ghost function Value(): StateIndex.State
      reads this, nodes.Values
    {
      StateIndex.State(map id | id in nodes :: nodes[id].Value(), index)
    }

    constructor ()
      ensures Valid() && Value() == StateIndex.State(map[], map[]) && nodes.Values == {}
    {
      nodes, index := map[], map[];
    }

    method SetStoragePool(pool: Pool)
      requires Valid()
      modifies this, nodes.Values
      ensures Valid() && fresh(nodes.Values - old(nodes.Values))
      ensures Value() == StateIndex.SetStoragePool(old(Value()), pool)
    {
      var p := WithCapacity(pool);
      if p.nodeId in nodes {
        nodes[p.nodeId].SetPool(p);
      } else {
        var n := new Node(p);
        nodes := nodes[p.nodeId := n];
      }
    }

    method RemoveStoragePool(id: string)
      requires Valid()
      modifies this
      ensures Valid() && nodes.Values <= old(nodes.Values)
      ensures Value() == StateIndex.RemoveStoragePool(old(Value()), id)
    {
      nodes := nodes - {id};
    }

    method BindAntstorVolume(id: string, v: Volume) returns (err: Option<StateIndex.Error>)
      requires Valid()
      modifies this, nodes.Values
      ensures Valid() && nodes == old(nodes)
      ensures err == StateIndex.BindError(old(Value()), id, v)
      ensures Value() == StateIndex.Bind(old(Value()), id, v)
    {
      hide Add, Accepts, Node.Value;
      if id !in nodes { return Some(StateIndex.NodeNotFound); }
      if v.uuid == "" { return Some(StateIndex.EmptyUuid); }
      var ok := nodes[id].AddVolume(v);
      if !ok { return Some(StateIndex.DuplicateVolume); }
      assert Value().nodes == old(Value()).nodes[id := nodes[id].Value()];
      index := index[v.uuid := id];
      err := None;
    }

    method UnbindAntstorVolume(uuid: string) returns (err: Option<StateIndex.Error>)
      requires Valid()
      modifies this, nodes.Values
      ensures Valid() && nodes == old(nodes)
      ensures err == StateIndex.UnbindError(old(Value()), uuid)
      ensures Value() == StateIndex.Unbind(old(Value()), uuid)
    {
      hide Remove;
      if uuid !in index { return Some(StateIndex.VolumeNotIndexed); }
      var id := index[uuid];
      if id !in nodes { return Some(StateIndex.NodeNotFound); }
      nodes[id].RemoveVolumeByID(uuid);
      index := index - {uuid};
      err := None;
    }

    method GetVolumeByID(uuid: string) returns (r: StateIndex.Result<Volume>)
      ensures r == StateIndex.GetVolumeByID(Value(), uuid)
    {
      if uuid !in index { return StateIndex.Err(StateIndex.VolumeNotIndexed); }
      var id := index[uuid];
      if id !in nodes { return StateIndex.Err(StateIndex.NodeNotFound); }
      var v := nodes[id].GetVolumeByID(uuid);
      r := match v
        case Some(x) => StateIndex.Ok(x)
        case None => StateIndex.Err(StateIndex.VolumeNotFound);
    }
  }
}
