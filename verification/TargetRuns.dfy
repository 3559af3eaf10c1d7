/**
 Any sequence of target creations and deletions on a node, with any remote calls failing; and the
 service itself, whose loops and calls do what the functions of `Target` say.
 */
module TargetRuns {
  import opened Prelude
  import opened SvcId
  import opened Target

  datatype Call = CallCreate(req: Request, f: Faults) | CallDelete(nqn: string, f: Faults)

  function Apply(st: Node, c: Call): (t: Node)
    requires Valid(st.alloc)
    ensures Valid(t.alloc)
  {
    match c
    case CallCreate(req, f) => CreateShape(st, req, f); Create(st, req, f).0
    case CallDelete(nqn, f) => Delete(st, nqn, f).0
  }

  function Exec(st: Node, cs: seq<Call>): (t: Node)
    requires Valid(st.alloc)
    ensures Valid(t.alloc)
    decreases |cs|
  {
    if cs == [] then st else Exec(Apply(st, cs[0]), cs[1..])
  }

  /** What is left of a list is in the list: every element is an earlier one. */
  lemma WithoutElements(subs: seq<Subsystem>, nqn: string)
    ensures forall i :: 0 <= i < |Without(subs, nqn)| ==>
              exists j :: 0 <= j < |subs| && subs[j] == Without(subs, nqn)[i]
  {
    var w := Without(subs, nqn);
    forall i | 0 <= i < |w| ensures exists j :: 0 <= j < |subs| && subs[j] == w[i] {
      assert w[i] in subs;
    }
  }

  lemma {:induction false} WithoutNqns(subs: seq<Subsystem>, nqn: string)
    requires UniqueNqns(subs)
    ensures UniqueNqns(Without(subs, nqn))
  {
    if subs != [] {
      var rest := subs[..|subs| - 1];
      WithoutNqns(rest, nqn);
      WithoutElements(rest, nqn);
    }
  }

  lemma {:induction false} WithoutBdevs(subs: seq<Subsystem>, nqn: string)
    requires BdevOnce(subs)
    ensures BdevOnce(Without(subs, nqn))
  {
    if subs != [] {
      var rest := subs[..|subs| - 1];
      WithoutBdevs(rest, nqn);
      WithoutElements(rest, nqn);
    }
  }

  lemma {:induction false} WithoutPorts(subs: seq<Subsystem>, nqn: string)
    requires PortOnce(subs)
    ensures PortOnce(Without(subs, nqn))
  {
    if subs != [] {
      var rest := subs[..|subs| - 1];
      WithoutPorts(rest, nqn);
      WithoutElements(rest, nqn);
    }
  }

  lemma CallKeepsNames(st: Node, c: Call)
    requires Valid(st.alloc) && UniqueNqns(st.subs) && BdevOnce(st.subs)
    ensures UniqueNqns(Apply(st, c).subs) && BdevOnce(Apply(st, c).subs)
  {
    hide Create;
    match c
    case CallCreate(req, f) => CreateKeepsNames(st, req, f);
    case CallDelete(nqn, f) =>
      WithoutNqns(st.subs, nqn);
      WithoutBdevs(st.subs, nqn);
  }

  /** Whatever fails, no name and no bdev is ever in two subsystems. */
  lemma {:induction false} RunKeepsNames(st: Node, cs: seq<Call>)
    requires Valid(st.alloc) && UniqueNqns(st.subs) && BdevOnce(st.subs)
    ensures UniqueNqns(Exec(st, cs).subs) && BdevOnce(Exec(st, cs).subs)
    decreases |cs|
  {
    if cs != [] {
      CallKeepsNames(st, cs[0]);
      RunKeepsNames(Apply(st, cs[0]), cs[1..]);
    }
  }

  /** A call whose resynchronisation, if it comes to that, succeeds, and that leaves the port to the service. */
  predicate Synced(c: Call) {
    c.f.sync && (c.CallCreate? ==> c.req.svcId.None?)
  }

  lemma CreateKeepsPorts(st: Node, req: Request, f: Faults)
    requires Valid(st.alloc) && PortOnce(st.subs) && Tracked(st) && req.svcId.None?
    ensures PortOnce(Create(st, req, f).0.subs)
  {
    CreateListener(st, req, f);
    CreateShape(st, req, f);
    var a, b := st.subs, Create(st, req, f).0.subs;
    var k := Find(a, req.nqn);
    if Added(st, req, f) {
      PickedPortIsFree(st, req, f);
      hide Create, Added, Choose, Tracked;
      assert b == a || Shape(a, b, req);
      forall i, x | 0 <= i < |b| && i != k && 0 <= x < |b[i].listeners|
        ensures b[i].listeners[x].svcId != b[k].listeners[0].svcId
      {
        assert a[i].listeners[x].svcId in ListenerIds(a);
      }
    }
  }

  lemma CallKeepsPorts(st: Node, c: Call)
    requires Valid(st.alloc) && PortOnce(st.subs) && Tracked(st) && Synced(c)
    ensures PortOnce(Apply(st, c).subs) && Tracked(Apply(st, c))
  {
    hide Create, ListenerIds, Added, Built;
    match c
    case CallCreate(req, f) =>
      CreateKeepsPorts(st, req, f);
      TrackedExactlyWhen(st, req, f);
    case CallDelete(nqn, f) => WithoutPorts(st.subs, nqn);
  }

  /** While resynchronisations succeed, no two targets ever share a port the service picked. */
  lemma {:induction false} RunKeepsPorts(st: Node, cs: seq<Call>)
    requires Valid(st.alloc) && PortOnce(st.subs) && Tracked(st) && forall c :: c in cs ==> Synced(c)
    ensures PortOnce(Exec(st, cs).subs) && Tracked(Exec(st, cs))
    decreases |cs|
  {
    if cs != [] {
      assert cs[0] in cs;
      CallKeepsPorts(st, cs[0]);
      RunKeepsPorts(Apply(st, cs[0]), cs[1..]);
    }
  }

  // ---------------------------------------------------------------------------
  // After a failed resynchronisation

  function AllDone(): Faults { Faults(true, Answered, Answered, Answered, Answered, true) }

  /** One target on the first port, and a set that knows it. */
  function OneTarget(min: int, max: int, addr: string): Node
  {
    Node([Subsystem("a", ["x"], [Listener(TCP, addr, Port(min))])], Alloc(min, max, min, {Port(min)}))
  }

  /** The read fails once, for a second target: the third is given the port of the first. */
  lemma FailedSyncReusesPort(min: int, max: int, addr: string)
    requires min < max
    ensures var st := OneTarget(min, max, addr);
            && Valid(st.alloc) && Tracked(st) && PortOnce(st.subs)
            && var t := Exec(st, [CallCreate(Request("b", "y", "", addr, None), AllDone().(sync := false)),
                                  CallCreate(Request("c", "z", "", addr, None), AllDone())]);
               |t.subs| == 3 && t.subs[2].listeners == t.subs[0].listeners
  {
    var st := OneTarget(min, max, addr);
    var c1 := CallCreate(Request("b", "y", "", addr, None), AllDone().(sync := false));
    var c2 := CallCreate(Request("c", "z", "", addr, None), AllDone());
    SecondTarget(min, max, addr);
    var u := Apply(st, c1);
    ThirdTarget(u, addr);
    assert [c1, c2][1..] == [c2] && [c2][1..] == [];
    assert Exec(u, [c2]) == Exec(Apply(u, c2), []) == Apply(u, c2);
  }

  lemma SecondTarget(min: int, max: int, addr: string)
    requires min < max
    ensures var st := OneTarget(min, max, addr);
            var t := Apply(st, CallCreate(Request("b", "y", "", addr, None), AllDone().(sync := false)));
            && |t.subs| == 2 && t.subs[0] == st.subs[0] && t.alloc.inUse == {} && t.alloc.min == min
            && t.subs[1].nqn == "b" && t.subs[1].namespaces == ["y"]
  {
    var st := OneTarget(min, max, addr);
    assert st.subs[..0] == [];
    assert Find(st.subs, "b") == 1;
    assert Port(min + 1) !in st.alloc.inUse;
  }

  lemma ThirdTarget(u: Node, addr: string)
    requires Valid(u.alloc) && |u.subs| == 2 && u.alloc.inUse == {}
    requires u.subs[0].nqn == "a" && u.subs[0].namespaces == ["x"]
    requires u.subs[1].nqn == "b" && u.subs[1].namespaces == ["y"]
    ensures var t := Apply(u, CallCreate(Request("c", "z", "", addr, None), AllDone()));
            |t.subs| == 3 && t.subs[0] == u.subs[0] && t.subs[2].listeners == [Listener(TCP, addr, Port(u.alloc.min))]
  {
    assert forall i :: 0 <= i < |u.subs| ==> u.subs[i].nqn != "c";
  }

  // ---------------------------------------------------------------------------
  // The service

  class SpdkService {
    var subs: seq<Subsystem>
    const idAlloc: SvcIdAllocator

    ghost function Value(): Node
      reads this, idAlloc
    {
      Node(subs, idAlloc.Value())
    }

    constructor (min: int, max: int)
      ensures Value() == Node([], Alloc(min, max, min, {})) && fresh(idAlloc)
    {
      subs := [];
      idAlloc := new SvcIdAllocator(min, max);
    }

    /** One pass over the subsystems: which one is ours, its service id, and whether another has the bdev. */
    method Scan(req: Request, trType: string) returns (k: nat, id: Option<Id>, used: bool)
      ensures k == Find(subs, req.nqn) && used == InUse(subs, req.nqn, req.bdev)
      ensures id == ScanId(subs, req.nqn, trType, req.svcId)
    {
      k, id, used := |subs|, req.svcId, false;
      for i := 0 to |subs|
        invariant k == if Find(subs[..i], req.nqn) < i then Find(subs[..i], req.nqn) else |subs|
        invariant id == ScanId(subs[..i], req.nqn, trType, req.svcId)
        invariant used == InUse(subs[..i], req.nqn, req.bdev)
      {
        assert subs[..i + 1][..i] == subs[..i];
        ghost var before := used;
        if subs[i].nqn == req.nqn {
          k := i;
          var ls := subs[i].listeners;
          ghost var start := id;
          for j := 0 to |ls|
            invariant id == LastId(ls[..j], trType, start)
          {
            assert ls[..j + 1][..j] == ls[..j];
            if ls[j].trType == trType { id := Some(ls[j].svcId); }
          }
          assert ls[..|ls|] == ls;
        } else {
          var ns := subs[i].namespaces;
          for j := 0 to |ns|
            invariant used == (before || req.bdev in ns[..j])
          {
            if ns[j] == req.bdev { used := true; }
          }
        }
        ScanNext(subs[..i], subs[i], req);
        assert subs[..i + 1] == subs[..i] + [subs[i]];
      }
      assert subs[..|subs|] == subs;
    }

    method Resync(ok: bool)
      modifies idAlloc
      ensures idAlloc.Value() == Sync(old(idAlloc.Value()), if ok then Listed(ListenerIds(subs)) else ReadFailed)
    {
      IdListsAgree(subs);
      var _ := idAlloc.SyncFromTruth(if ok then Listed(IdLists(subs)) else ReadFailed);
    }

    /** The remote calls: each takes effect unless refused, and says so unless the answer is lost. */
    method CallAddNs(k: nat, bdev: string, rpc: Rpc) returns (ok: bool)
      requires k < |subs|
      modifies this
      ensures ok == rpc.Answered?
      ensures Value() == if rpc.Refused? then old(Value()) else AddNs(old(Value()), k, bdev)
    {
      if !rpc.Refused? {
        subs := subs[k := subs[k].(namespaces := subs[k].namespaces + [bdev])];
      }
      ok := rpc.Answered?;
    }

    method CallAddListener(k: nat, l: Listener, rpc: Rpc) returns (ok: bool)
      requires k < |subs|
      modifies this
      ensures ok == rpc.Answered?
      ensures Value() == if rpc.Refused? then old(Value()) else AddListener(old(Value()), k, l)
    {
      if !rpc.Refused? {
        subs := subs[k := subs[k].(listeners := subs[k].listeners + [l])];
      }
      ok := rpc.Answered?;
    }

    method EnsureListener(k: nat, req: Request, f: Faults, found: Option<Id>) returns (r: Result)
      requires k < |subs| && Valid(idAlloc.Value())
      modifies this, idAlloc
      ensures (Value(), r) == Listen(old(Value()), k, req, f, found)
    {
      var id := found;
      if subs[k].listeners == [] {
        id := req.svcId;
        if id.None? {
          var n := idAlloc.NextID();
          if n.None? { return Err; }
          id := Some(Port(n.value));
        }
        var ok := CallAddListener(k, Listener(TrType(req), req.addr, id.value), f.addListener);
        if !ok { return Err; }
      }
      Resync(f.sync);
      r := if f.sync then Ok(req.nqn, id) else Err;
    }

    method CreateTarget(req: Request, f: Faults) returns (r: Result)
      requires Valid(idAlloc.Value())
      modifies this, idAlloc
      ensures (Value(), r) == Create(old(Value()), req, f)
    {
      hide InUse, ScanId, Next, Listen, Find;
      if !f.list { return Err; }
      var k, found, used := Scan(req, TrType(req));
      if used { return Err; }
      if k == |subs| {
        if f.create.Refused? { return Err; }
        subs := subs + [Subsystem(req.nqn, [], [])];
        if f.create.Unanswered? { return Err; }
        found := None;
      }
      if subs[k].namespaces == [] {
        var ok := CallAddNs(k, req.bdev, f.addNs);
        if !ok { return Err; }
      }
      r := EnsureListener(k, req, f, found);
    }

    method DeleteTarget(nqn: string, f: Faults) returns (ok: bool)
      modifies this, idAlloc
      ensures (Value(), ok) == Delete(old(Value()), nqn, f)
    {
      if !f.list { return false; }
      var found := false;
      for i := 0 to |subs|
        invariant found <==> exists j :: 0 <= j < i && subs[j].nqn == nqn
      {
        if subs[i].nqn == nqn { found := true; }
      }
      if !found { return true; }
      hide Target.Without;
      if !f.delete.Refused? { subs := Target.Without(subs, nqn); }
      Resync(f.sync);
      ok := f.delete.Answered?;
    }
  }

  lemma ScanNext(subs: seq<Subsystem>, s: Subsystem, req: Request)
    ensures InUse(subs + [s], req.nqn, req.bdev) == (InUse(subs, req.nqn, req.bdev) || Uses(s, req.nqn, req.bdev))
  {
    var all := subs + [s];
    assert forall i :: 0 <= i < |subs| ==> all[i] == subs[i];
    if Uses(s, req.nqn, req.bdev) {
      assert Uses(all[|subs|], req.nqn, req.bdev);
    }
    if i :| 0 <= i < |subs| && Uses(subs[i], req.nqn, req.bdev) {
      assert Uses(all[i], req.nqn, req.bdev);
    }
  }

  function IdList(ls: seq<Listener>): seq<Id> { seq(|ls|, i requires 0 <= i < |ls| => ls[i].svcId) }

  function IdLists(subs: seq<Subsystem>): (r: seq<seq<Id>>)
    ensures |r| == |subs| && forall i :: 0 <= i < |subs| ==> r[i] == IdList(subs[i].listeners)
  {
    seq(|subs|, i requires 0 <= i < |subs| => IdList(subs[i].listeners))
  }

  lemma {:induction false} IdListsAgree(subs: seq<Subsystem>)
    ensures AllIds(IdLists(subs)) == ListenerIds(subs)
  {
    if subs != [] {
      var n := |subs| - 1;
      IdListsAgree(subs[..n]);
      assert IdLists(subs)[..n] == IdLists(subs[..n]);
      var ls := subs[n].listeners;
      forall x | x in ListenerIds(subs) ensures x in ListenerIds(subs[..n]) || x in IdList(ls) {
        var i, j :| 0 <= i < |subs| && 0 <= j < |subs[i].listeners| && subs[i].listeners[j].svcId == x;
        if i < n {
          assert subs[..n][i].listeners[j].svcId == x;
        } else {
          assert IdList(ls)[j] == x;
        }
      }
      forall x | x in IdList(ls) ensures x in ListenerIds(subs) {
        var j :| 0 <= j < |ls| && IdList(ls)[j] == x;
        assert subs[n].listeners[j].svcId == x;
      }
      forall x | x in ListenerIds(subs[..n]) ensures x in ListenerIds(subs) {
        var i, j :| 0 <= i < n && 0 <= j < |subs[..n][i].listeners| && subs[..n][i].listeners[j].svcId == x;
        assert subs[i].listeners[j].svcId == x;
      }
    }
  }
}
