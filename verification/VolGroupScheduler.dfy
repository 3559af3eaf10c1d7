/**
 The volume-group scheduler: split a total size over distinct nodes, largest free space
 first, every piece aligned to 4 MiB and below the node's remote watermark.
 */
module VolGroupScheduler {

  const FOUR_MIB: int := 0x40_0000

  /** Go's integer division: truncation toward zero. */
  function Quo(a: int, b: int): int
    requires b > 0
  {
    if a >= 0 then a / b else -((-a) / b)
  }

  function Rem(a: int, b: int): int
    requires b > 0
  {
    a - Quo(a, b) * b
  }

  /** What the scheduler reads from a candidate node. */
  datatype Node = Node(
    id: string,
    free: int,          // cached free bytes
    available: int,     // pool size minus reserved logical volumes
    remote: int,        // bytes of volumes already placed here for other hosts
    volumes: nat)       // number of volumes on the node

  datatype Spec = Spec(total: int, maxCount: int, minSize: int, maxSize: int, localPct: int)

  /** An entry of spec.volumes; an entry without a node or size is not scheduled. */
  datatype Volume = Volume(id: string, size: int, node: string)

  predicate Scheduled(v: Volume) { v.size > 0 && v.node != "" }

  // ---------------------------------------------------------------------------
  // Sizes

  /** pickSizeFn: the smaller of free and wanted, refused below the minimum, capped, rounded up to 4 MiB. */
  function PickSize(s: Spec, free: int, want: int): int {
    var picked := if free > want then want else free;
    if picked < s.minSize then 0
    else
      var bytes := if picked > s.maxSize then s.maxSize else picked;
      Quo(bytes, FOUR_MIB) * FOUR_MIB + if Rem(bytes, FOUR_MIB) > 0 then FOUR_MIB else 0
  }

  /** The bytes of a node that volumes of other hosts may occupy. */
  function RemoteLimit(n: Node, localPct: int): int { n.available - Quo(n.available * localPct, 100) }

  /** getAllocatableRemoteVolumeSize: cut down to the watermark, rounded down to 4 MiB. */
  function Allocatable(n: Node, size: int, localPct: int): int {
    var most := RemoteLimit(n, localPct) - n.remote;
    if size == 0 || most < 0 then 0
    else Quo(if most < size then most else size, FOUR_MIB) * FOUR_MIB
  }

  function Offer(s: Spec, n: Node, left: int): int { Allocatable(n, PickSize(s, n.free, left), s.localPct) }

  // ---------------------------------------------------------------------------
  // One placement

  datatype Found = Placed(k: nat, size: int) | NotPlaced(last: int)

  /** The node loop: the first unused node with a positive offer; otherwise the last value computed. */
  function Search(s: Spec, nodes: seq<Node>, used: set<string>, left: int, i: nat, last: int): (r: Found)
    requires i <= |nodes|
    ensures r.Placed? ==> && i <= r.k < |nodes| && nodes[r.k].id !in used
                          && r.size == Offer(s, nodes[r.k], left) && r.size > 0
                          && (forall j :: i <= j < r.k ==> nodes[j].id in used || Offer(s, nodes[j], left) <= 0)
    ensures r.NotPlaced? ==> forall j :: i <= j < |nodes| ==> nodes[j].id in used || Offer(s, nodes[j], left) <= 0
    decreases |nodes| - i
  {
    if i == |nodes| then NotPlaced(last)
    else if nodes[i].id in used then Search(s, nodes, used, left, i + 1, last)
    else
      var r := Offer(s, nodes[i], left);
      if r > 0 then Placed(i, r) else Search(s, nodes, used, left, i + 1, r)
  }

  method FindNode(s: Spec, nodes: seq<Node>, used: set<string>, left: int) returns (r: Found)
    ensures r == Search(s, nodes, used, left, 0, 0)
  {
    var result := 0;
    var i := 0;
    while i < |nodes|
      invariant 0 <= i <= |nodes|
      invariant Search(s, nodes, used, left, 0, 0) == Search(s, nodes, used, left, i, result)
    {
      if nodes[i].id !in used {
        result := PickSize(s, nodes[i].free, left);
        result := Allocatable(nodes[i], result, s.localPct);
        if result > 0 {
          return Placed(i, result);
        }
      }
      i := i + 1;
    }
    r := NotPlaced(result);
  }

  // ---------------------------------------------------------------------------
  // One call of schedVolGroup

  /** The loop variables of schedVolGroup. */
  datatype State = State(vols: seq<Volume>, cnt: int, left: int, used: set<string>)

  datatype Result = Ok(st: State) | Fail(st: State)

  predicate Need(s: Spec, st: State) { st.cnt < s.maxCount && st.left > 0 }

  /** Count what is scheduled already. */
  function Recorded(s: Spec, vols: seq<Volume>, i: nat): (r: State)
    requires i <= |vols|
    ensures r.vols == vols
  {
    if i == 0 then State(vols, 0, s.total, {})
    else
      var st := Recorded(s, vols, i - 1);
      if Scheduled(vols[i - 1]) then
        st.(left := st.left - vols[i - 1].size, cnt := st.cnt + 1, used := st.used + {vols[i - 1].node})
      else st
  }

  function Unscheduled(vols: seq<Volume>, i: nat): (r: seq<nat>)
    requires i <= |vols|
    ensures forall a :: 0 <= a < |r| ==> r[a] < i && !Scheduled(vols[r[a]])
    ensures forall a, b :: 0 <= a < b < |r| ==> r[a] < r[b]
  {
    if i == 0 then []
    else
      var r := Unscheduled(vols, i - 1);
      if Scheduled(vols[i - 1]) then r else r + [i - 1]
  }

  predicate Indexes(todo: seq<nat>, n: nat) { forall a :: 0 <= a < |todo| ==> todo[a] < n }

  function PlaceAt(st: State, idx: nat, size: int, node: string): State
    requires idx < |st.vols|
  {
    State(st.vols[idx := st.vols[idx].(size := size, node := node)], st.cnt + 1, st.left - size, st.used + {node})
  }

  function PlaceNew(st: State, id: string, size: int, node: string): State {
    State(st.vols + [Volume(id, size, node)], st.cnt + 1, st.left - size, st.used + {node})
  }

  /** The loop over the unscheduled entries. */
  function Fill(s: Spec, nodes: seq<Node>, st: State, todo: seq<nat>): (r: Result)
    requires Indexes(todo, |st.vols|)
    ensures |r.st.vols| == |st.vols|
    decreases |todo|
  {
    if todo == [] then Ok(st)
    else if !Need(s, st) then Fill(s, nodes, st, todo[1..])
    else
      match Search(s, nodes, st.used, st.left, 0, 0)
      case Placed(k, size) => Fill(s, nodes, PlaceAt(st, todo[0], size, nodes[k].id), todo[1..])
      case NotPlaced(last) => if last == 0 then Fail(st) else Fill(s, nodes, st, todo[1..])
  }

  /** The append loop; its bound maxCount - cnt shrinks while cnt grows. */
  function Append(s: Spec, nodes: seq<Node>, st: State, i: nat, ids: nat -> string): Result
    decreases s.maxCount - st.cnt - i
  {
    if i >= s.maxCount - st.cnt then Ok(st)
    else if !Need(s, st) then Append(s, nodes, st, i + 1, ids)
    else
      match Search(s, nodes, st.used, st.left, 0, 0)
      case Placed(k, size) => Append(s, nodes, PlaceNew(st, ids(|st.vols|), size, nodes[k].id), i + 1, ids)
      case NotPlaced(last) => if last == 0 then Fail(st) else Append(s, nodes, st, i + 1, ids)
  }

  function Prune(vols: seq<Volume>): seq<Volume> {
    if vols == [] then []
    else Prune(vols[..|vols| - 1]) + if Scheduled(vols[|vols| - 1]) then [vols[|vols| - 1]] else []
  }

  function Sched(s: Spec, nodes: seq<Node>, vols: seq<Volume>, ids: nat -> string): Result {
    match Fill(s, nodes, Recorded(s, vols, |vols|), Unscheduled(vols, |vols|))
    case Fail(st) => Fail(st)
    case Ok(st) =>
      match Append(s, nodes, st, 0, ids)
      case Fail(st) => Fail(st)
      case Ok(st) => Ok(st.(vols := Prune(st.vols)))
  }

  /** The volume group object, whose spec.volumes the scheduler rewrites in place. */
  class VolumeGroup {
    const spec: Spec
    var volumes: seq<Volume>

    constructor (spec: Spec)
      ensures this.spec == spec && volumes == []
    {
      this.spec := spec;
      volumes := [];
    }

    /** schedVolGroup: on failure the entries placed so far stay in the in-memory object. */
    method SchedVolGroup(nodes: seq<Node>, ids: nat -> string) returns (ok: bool)
      modifies this`volumes
      ensures ok == Sched(spec, nodes, old(volumes), ids).Ok?
      ensures volumes == Sched(spec, nodes, old(volumes), ids).st.vols
    {
      var st, todo := Record();
      var filled;
      ok, filled := FillLoop(nodes, st, todo);
      if !ok {
        volumes := filled.vols;
        return;
      }
      var appended;
      ok, appended := AppendLoop(nodes, filled, ids);
      volumes := appended.vols;
      if ok {
        DeleteRedundant();
      }
    }

    method Record() returns (st: State, todo: seq<nat>)
      ensures st == Recorded(spec, volumes, |volumes|)
      ensures todo == Unscheduled(volumes, |volumes|)
    {
      var left, cnt, used := spec.total, 0, {};
      todo := [];
      for i := 0 to |volumes|
        invariant State(volumes, cnt, left, used) == Recorded(spec, volumes, i)
        invariant todo == Unscheduled(volumes, i)
      {
        if volumes[i].size > 0 && volumes[i].node != "" {
          left := left - volumes[i].size;
          cnt := cnt + 1;
          used := used + {volumes[i].node};
        } else {
          todo := todo + [i];
        }
      }
      st := State(volumes, cnt, left, used);
    }

    method FillLoop(nodes: seq<Node>, start: State, todo: seq<nat>) returns (ok: bool, st: State)
      requires Indexes(todo, |start.vols|)
      ensures ok == Fill(spec, nodes, start, todo).Ok? && st == Fill(spec, nodes, start, todo).st
    {
      st := start;
      assert todo[0..] == todo;
      for i := 0 to |todo|
        invariant |st.vols| == |start.vols|
        invariant Fill(spec, nodes, start, todo) == Fill(spec, nodes, st, todo[i..])
      {
        assert todo[i..][1..] == todo[i + 1..];
        if st.cnt < spec.maxCount && st.left > 0 {
          var r := FindNode(spec, nodes, st.used, st.left);
          match r
          case Placed(k, size) => st := PlaceAt(st, todo[i], size, nodes[k].id);
          case NotPlaced(last) =>
            if last == 0 {
              return false, st;
            }
        }
      }
      ok := true;
    }

    method AppendLoop(nodes: seq<Node>, start: State, ids: nat -> string) returns (ok: bool, st: State)
      ensures ok == Append(spec, nodes, start, 0, ids).Ok? && st == Append(spec, nodes, start, 0, ids).st
    {
      st := start;
      var i := 0;
      while i < spec.maxCount - st.cnt
        invariant 0 <= i
        invariant Append(spec, nodes, start, 0, ids) == Append(spec, nodes, st, i, ids)
        decreases spec.maxCount - st.cnt - i
      {
        if st.cnt < spec.maxCount && st.left > 0 {
          var r := FindNode(spec, nodes, st.used, st.left);
          match r
          case Placed(k, size) => st := PlaceNew(st, ids(|st.vols|), size, nodes[k].id);
          case NotPlaced(last) =>
            if last == 0 {
              return false, st;
            }
        }
        i := i + 1;
      }
      ok := true;
    }

    method DeleteRedundant()
      modifies this`volumes
      ensures volumes == Prune(old(volumes))
    {
      var kept := [];
      for i := 0 to |volumes|
        invariant volumes == old(volumes)
        invariant kept == Prune(volumes[..i])
      {
        assert volumes[..i + 1][..i] == volumes[..i];
        if volumes[i].size > 0 && volumes[i].node != "" {
          kept := kept + [volumes[i]];
        }
      }
      assert volumes[..|volumes|] == volumes;
      volumes := kept;
    }
  }
}
