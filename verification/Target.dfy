/**
 NVMe-oF targets on one node: creating one takes up to three remote calls, any of which may
 fail, with or without having taken effect. A retry picks up whatever is there.
 */
module Target {
  import opened Prelude
  import opened SvcId

  datatype Listener = Listener(trType: string, addr: string, svcId: Id)

  /** A subsystem: its name, the bdevs of its namespaces, its listeners. */
  datatype Subsystem = Subsystem(nqn: string, namespaces: seq<string>, listeners: seq<Listener>)

  datatype Node = Node(subs: seq<Subsystem>, alloc: Alloc)

  /** `svcId` is None when the caller leaves the choice of the port to the service. */
  datatype Request = Request(nqn: string, bdev: string, trType: string, addr: string, svcId: Option<Id>)

  datatype Faults = Faults(list: bool, create: Rpc, addNs: Rpc, addListener: Rpc, delete: Rpc, sync: bool)

  datatype Result = Ok(nqn: string, svcId: Option<Id>) | Err

  const TCP := "TCP"

  function TrType(req: Request): string { if req.trType == "" then TCP else req.trType }

  // ---------------------------------------------------------------------------
  // What the service reads from the list of subsystems

  /** Index of the last subsystem with that name, or the length of the list. */
  function Find(subs: seq<Subsystem>, nqn: string): (k: nat)
    ensures k <= |subs|
    ensures k < |subs| ==> subs[k].nqn == nqn
    ensures k == |subs| ==> forall i :: 0 <= i < |subs| ==> subs[i].nqn != nqn
  {
    if subs == [] then 0
    else
      var n := |subs| - 1;
      if subs[n].nqn == nqn then n
      else
        var k := Find(subs[..n], nqn);
        if k < n then k else |subs|
  }

  predicate Uses(s: Subsystem, nqn: string, bdev: string) { s.nqn != nqn && bdev in s.namespaces }

  /** The bdev belongs to a subsystem of another name. */
  predicate InUse(subs: seq<Subsystem>, nqn: string, bdev: string) {
    exists i :: 0 <= i < |subs| && Uses(subs[i], nqn, bdev)
  }

  /** The service id of the last listener of that transport, or `id`. */
  function LastId(ls: seq<Listener>, trType: string, id: Option<Id>): Option<Id> {
    if ls == [] then id
    else if ls[|ls| - 1].trType == trType then Some(ls[|ls| - 1].svcId)
    else LastId(ls[..|ls| - 1], trType, id)
  }

  function ScanId(subs: seq<Subsystem>, nqn: string, trType: string, id: Option<Id>): Option<Id> {
    if subs == [] then id
    else
      var before := ScanId(subs[..|subs| - 1], nqn, trType, id);
      var last := subs[|subs| - 1];
      if last.nqn == nqn then LastId(last.listeners, trType, before) else before
  }

  function ListenerIds(subs: seq<Subsystem>): set<Id> {
    set i, j | 0 <= i < |subs| && 0 <= j < |subs[i].listeners| :: subs[i].listeners[j].svcId
  }

  // ---------------------------------------------------------------------------
  // CreateTarget and DeleteTarget

  function AddNs(st: Node, k: nat, bdev: string): Node
    requires k < |st.subs|
  {
    st.(subs := st.subs[k := st.subs[k].(namespaces := st.subs[k].namespaces + [bdev])])
  }

  function AddListener(st: Node, k: nat, l: Listener): Node
    requires k < |st.subs|
  {
    st.(subs := st.subs[k := st.subs[k].(listeners := st.subs[k].listeners + [l])])
  }

  /** Resynchronise; when that fails the call fails although the target is there. */
  function Finish(st: Node, f: Faults, nqn: string, id: Option<Id>): (Node, Result) {
    if f.sync then (st.(alloc := Sync(st.alloc, Listed(ListenerIds(st.subs)))), Ok(nqn, id))
    else (st.(alloc := Sync(st.alloc, ReadFailed)), Err)
  }

  /** The allocator after the choice of a port, and the port. */
  function Choose(a: Alloc, req: Request): (Alloc, Option<Id>)
    requires Valid(a)
  {
    if req.svcId.Some? then (a, req.svcId)
    else
      var (b, r) := Next(a);
      (b, if r.Some? then Some(Port(r.value)) else None)
  }

  function Listen(st: Node, k: nat, req: Request, f: Faults, found: Option<Id>): (Node, Result)
    requires k < |st.subs| && Valid(st.alloc)
  {
    if st.subs[k].listeners != [] then Finish(st, f, req.nqn, found)
    else
      var (a, id) := Choose(st.alloc, req);
      var chosen := st.(alloc := a);
      if id.None? || f.addListener.Refused? then (chosen, Err)
      else
        var t := AddListener(chosen, k, Listener(TrType(req), req.addr, id.value));
        if f.addListener.Unanswered? then (t, Err) else Finish(t, f, req.nqn, id)
  }

  /** Namespace and listener, each only if the subsystem has none. */
  function Complete(st: Node, k: nat, req: Request, f: Faults, found: Option<Id>): (Node, Result)
    requires k < |st.subs| && Valid(st.alloc)
  {
    if st.subs[k].namespaces != [] then Listen(st, k, req, f, found)
    else if f.addNs.Refused? then (st, Err)
    else
      var t := AddNs(st, k, req.bdev);
      if f.addNs.Unanswered? then (t, Err) else Listen(t, k, req, f, found)
  }

  function Create(st: Node, req: Request, f: Faults): (Node, Result)
    requires Valid(st.alloc)
  {
    var k := Find(st.subs, req.nqn);
    if !f.list || InUse(st.subs, req.nqn, req.bdev) then (st, Err)
    else if k < |st.subs| then Complete(st, k, req, f, ScanId(st.subs, req.nqn, TrType(req), req.svcId))
    else if f.create.Refused? then (st, Err)
    else
      var t := st.(subs := st.subs + [Subsystem(req.nqn, [], [])]);
      if f.create.Unanswered? then (t, Err) else Complete(t, k, req, f, None)
  }

  function Without(subs: seq<Subsystem>, nqn: string): (r: seq<Subsystem>)
    ensures forall s :: s in r <==> s in subs && s.nqn != nqn
  {
    if subs == [] then []
    else Without(subs[..|subs| - 1], nqn) + if subs[|subs| - 1].nqn == nqn then [] else [subs[|subs| - 1]]
  }

  /** DeleteTarget: the resynchronisation runs whether or not the deletion went well. */
  function Delete(st: Node, nqn: string, f: Faults): (Node, bool) {
    if !f.list then (st, false)
    else if Find(st.subs, nqn) == |st.subs| then (st, true)
    else
      var t := if f.delete.Refused? then st else st.(subs := Without(st.subs, nqn));
      (t.(alloc := Sync(t.alloc, if f.sync then Listed(ListenerIds(t.subs)) else ReadFailed)), f.delete.Answered?)
  }

  // ---------------------------------------------------------------------------
  // A retry completes what is there

  function Own(st: Node, req: Request): Option<Subsystem> {
    var k := Find(st.subs, req.nqn);
    if k < |st.subs| then Some(st.subs[k]) else None
  }

  predicate NeedsNs(st: Node, req: Request) { Own(st, req).None? || Own(st, req).value.namespaces == [] }

  predicate NeedsListener(st: Node, req: Request) { Own(st, req).None? || Own(st, req).value.listeners == [] }

  /** Everything before the listener goes well. */
  predicate Prepared(st: Node, req: Request, f: Faults) {
    && f.list && !InUse(st.subs, req.nqn, req.bdev)
    && (Own(st, req).None? ==> f.create.Answered?)
    && (NeedsNs(st, req) ==> f.addNs.Answered?)
  }

  /** Everything before the final resynchronisation goes well. */
  predicate Built(st: Node, req: Request, f: Faults)
    requires Valid(st.alloc)
  {
    && Prepared(st, req, f)
    && (NeedsListener(st, req) ==> f.addListener.Answered? && (req.svcId.None? ==> Next(st.alloc).1.Some?))
  }

  /** Whatever an earlier call left behind, a call succeeds if and only if every call it still needs does. */
  lemma OkExactlyWhen(st: Node, req: Request, f: Faults)
    requires Valid(st.alloc)
    ensures Create(st, req, f).1.Ok? <==> Built(st, req, f) && f.sync
  {
    hide InUse, Next, ScanId;
  }

  /** How a call may change the subsystem it is about. */
  predicate Extends(s: Subsystem, t: Subsystem, req: Request) {
    && t.nqn == s.nqn
    && (t.namespaces == s.namespaces || (s.namespaces == [] && t.namespaces == [req.bdev]))
    && (t.listeners == s.listeners ||
        (s.listeners == [] && |t.listeners| == 1
         && t.listeners[0].trType == TrType(req) && t.listeners[0].addr == req.addr))
  }

  /** Only the subsystem of that name changes, and only where it was empty. */
  predicate Shape(a: seq<Subsystem>, b: seq<Subsystem>, req: Request) {
    var k := Find(a, req.nqn);
    && |b| == (if k < |a| then |a| else |a| + 1)
    && (forall i :: 0 <= i < |b| && i != k ==> i < |a| && b[i] == a[i])
    && Extends(if k < |a| then a[k] else Subsystem(req.nqn, [], []), b[k], req)
    && !InUse(a, req.nqn, req.bdev)
  }

  lemma CreateShape(st: Node, req: Request, f: Faults)
    requires Valid(st.alloc)
    ensures Create(st, req, f).0.subs == st.subs || Shape(st.subs, Create(st, req, f).0.subs, req)
    ensures Valid(Create(st, req, f).0.alloc)
  {
    hide InUse, ScanId, ListenerIds, Complete;
    var k := Find(st.subs, req.nqn);
    if k < |st.subs| {
      CompleteShape(st, k, req, f, ScanId(st.subs, req.nqn, TrType(req), req.svcId));
    } else {
      CompleteShape(st.(subs := st.subs + [Subsystem(req.nqn, [], [])]), k, req, f, None);
    }
  }

  lemma CompleteShape(st: Node, k: nat, req: Request, f: Faults, found: Option<Id>)
    requires k < |st.subs| && Valid(st.alloc)
    ensures var b := Complete(st, k, req, f, found).0;
            && Valid(b.alloc) && |b.subs| == |st.subs| && Extends(st.subs[k], b.subs[k], req)
            && forall i :: 0 <= i < |b.subs| && i != k ==> b.subs[i] == st.subs[i]
  {
    hide Listen;
    if st.subs[k].namespaces != [] {
      ListenShape(st, k, req, f, found);
    } else {
      ListenShape(AddNs(st, k, req.bdev), k, req, f, found);
    }
  }

  lemma ListenShape(st: Node, k: nat, req: Request, f: Faults, found: Option<Id>)
    requires k < |st.subs| && Valid(st.alloc)
    ensures var b := Listen(st, k, req, f, found).0;
            && Valid(b.alloc) && |b.subs| == |st.subs| && Extends(st.subs[k], b.subs[k], req)
            && b.subs[k].namespaces == st.subs[k].namespaces
            && forall i :: 0 <= i < |b.subs| && i != k ==> b.subs[i] == st.subs[i]
  {
    hide ListenerIds, Next;
    NextValid(st.alloc);
  }

  lemma {:induction false} FindUnique(subs: seq<Subsystem>, nqn: string, k: nat)
    requires k < |subs| && subs[k].nqn == nqn && forall i :: k < i < |subs| ==> subs[i].nqn != nqn
    ensures Find(subs, nqn) == k
  {
    if k < |subs| - 1 {
      FindUnique(subs[..|subs| - 1], nqn, k);
    }
  }

  lemma {:induction false} LastFound(subs: seq<Subsystem>, nqn: string)
    requires Find(subs, nqn) < |subs|
    ensures forall i :: Find(subs, nqn) < i < |subs| ==> subs[i].nqn != nqn
  {
    if subs[|subs| - 1].nqn != nqn {
      LastFound(subs[..|subs| - 1], nqn);
    }
  }

  lemma ShapeFind(a: seq<Subsystem>, b: seq<Subsystem>, req: Request)
    requires Shape(a, b, req)
    ensures Find(b, req.nqn) == Find(a, req.nqn) && !InUse(b, req.nqn, req.bdev)
  {
    var k := Find(a, req.nqn);
    if k < |a| {
      LastFound(a, req.nqn);
    }
    FindUnique(b, req.nqn, k);
    forall i | 0 <= i < |b| ensures !Uses(b[i], req.nqn, req.bdev) {
      if i != k {
        assert !Uses(a[i], req.nqn, req.bdev);
      }
    }
  }

  lemma {:induction false} ScanOne(subs: seq<Subsystem>, nqn: string, trType: string, id: Option<Id>, k: nat)
    requires k < |subs| && subs[k].nqn == nqn && forall i :: k < i < |subs| ==> subs[i].nqn != nqn
    requires |subs[k].listeners| == 1 && subs[k].listeners[0].trType == trType
    ensures ScanId(subs, nqn, trType, id) == Some(subs[k].listeners[0].svcId)
  {
    if k < |subs| - 1 {
      ScanOne(subs[..|subs| - 1], nqn, trType, id, k);
    }
  }

  /**
   A successful call leaves a subsystem of that name with a namespace and a listener. The requested bdev is
   among its namespaces exactly when there was none to be found, or when it was there already.
   */
  lemma OkIsComplete(st: Node, req: Request, f: Faults)
    requires Valid(st.alloc) && Create(st, req, f).1.Ok?
    ensures var (t, r) := Create(st, req, f);
            var k := Find(t.subs, req.nqn);
            && r.nqn == req.nqn && k < |t.subs| && k == Find(st.subs, req.nqn)
            && t.subs[k].namespaces != [] && t.subs[k].listeners != []
            && t.alloc.inUse == ListenerIds(t.subs)
            && r.svcId == (if NeedsListener(st, req) then Some(t.subs[k].listeners[0].svcId)
                           else ScanId(st.subs, req.nqn, TrType(req), req.svcId))
            && (NeedsListener(st, req) ==> |t.subs[k].listeners| == 1 && t.subs[k].listeners[0].trType == TrType(req))
            && (!NeedsListener(st, req) && !NeedsNs(st, req) ==> t.subs == st.subs)
            && (req.bdev in t.subs[k].namespaces <==> NeedsNs(st, req) || req.bdev in Own(st, req).value.namespaces)
  {
    CreateShape(st, req, f);
    var t, k := Create(st, req, f).0, Find(st.subs, req.nqn);
    if t.subs != st.subs {
      ShapeFind(st.subs, t.subs, req);
    }
    hide InUse, ScanId, ListenerIds, Shape, Complete;
    if k < |st.subs| {
      CompleteOk(st, k, req, f, ScanId(st.subs, req.nqn, TrType(req), req.svcId));
    } else {
      CompleteOk(st.(subs := st.subs + [Subsystem(req.nqn, [], [])]), k, req, f, None);
    }
  }

  /** What a call that gets through does to the subsystem it found or made. */
  lemma CompleteOk(st: Node, k: nat, req: Request, f: Faults, found: Option<Id>)
    requires k < |st.subs| && Valid(st.alloc)
    ensures var (t, r) := Complete(st, k, req, f, found);
            r.Ok? ==>
              && k < |t.subs| && r.nqn == req.nqn && t.alloc.inUse == ListenerIds(t.subs)
              && t.subs == st.subs[k := t.subs[k]]
              && t.subs[k].namespaces == (if st.subs[k].namespaces == [] then [req.bdev] else st.subs[k].namespaces)
              && if st.subs[k].listeners == [] then
                   && |t.subs[k].listeners| == 1 && t.subs[k].listeners[0].trType == TrType(req)
                   && r.svcId == Some(t.subs[k].listeners[0].svcId)
                 else t.subs[k].listeners == st.subs[k].listeners && r.svcId == found
  {
    hide Listen;
    if st.subs[k].namespaces != [] {
      ListenOk(st, k, req, f, found);
    } else {
      ListenOk(AddNs(st, k, req.bdev), k, req, f, found);
    }
  }

  lemma ListenOk(st: Node, k: nat, req: Request, f: Faults, found: Option<Id>)
    requires k < |st.subs| && Valid(st.alloc)
    ensures var (t, r) := Listen(st, k, req, f, found);
            r.Ok? ==>
              && k < |t.subs| && r.nqn == req.nqn && t.alloc.inUse == ListenerIds(t.subs)
              && t.subs == st.subs[k := t.subs[k]] && t.subs[k].namespaces == st.subs[k].namespaces
              && if st.subs[k].listeners == [] then
                   && |t.subs[k].listeners| == 1 && t.subs[k].listeners[0].trType == TrType(req)
                   && r.svcId == Some(t.subs[k].listeners[0].svcId)
                 else t.subs[k].listeners == st.subs[k].listeners && r.svcId == found
  {
    hide ListenerIds, Next, TrType;
  }

  /** A subsystem of that name that exports another bdev: the call succeeds and the requested bdev is not exported. */
  lemma BdevCanBeIgnored(a: Alloc, req: Request, other: string, l: Listener, f: Faults)
    requires Valid(a) && f.list && f.sync && other != req.bdev
    ensures var st := Node([Subsystem(req.nqn, [other], [l])], a);
            var (t, r) := Create(st, req, f);
            r.Ok? && forall i :: 0 <= i < |t.subs| ==> req.bdev !in t.subs[i].namespaces
  {
    var st := Node([Subsystem(req.nqn, [other], [l])], a);
    FindUnique(st.subs, req.nqn, 0);
    assert !InUse(st.subs, req.nqn, req.bdev);
    OkExactlyWhen(st, req, f);
    OkIsComplete(st, req, f);
  }

  lemma {:induction false} LastIdFacts(ls: seq<Listener>, trType: string, id: Option<Id>)
    ensures (exists l :: l in ls && l.trType == trType) ==>
              exists l :: l in ls && l.trType == trType && LastId(ls, trType, id) == Some(l.svcId)
    ensures (forall l :: l in ls ==> l.trType != trType) ==> LastId(ls, trType, id) == id
  {
    if ls != [] {
      var n := |ls| - 1;
      assert ls == ls[..n] + [ls[n]];
      if ls[n].trType != trType {
        LastIdFacts(ls[..n], trType, id);
      }
    }
  }

  lemma {:induction false} ScanOwn(subs: seq<Subsystem>, nqn: string, trType: string, id: Option<Id>, k: nat)
    requires UniqueNqns(subs) && k < |subs| && subs[k].nqn == nqn
    ensures ScanId(subs, nqn, trType, id) == LastId(subs[k].listeners, trType, id)
  {
    var n := |subs| - 1;
    if k < n {
      ScanOwn(subs[..n], nqn, trType, id, k);
    } else {
      ScanOthers(subs[..n], nqn, trType, id);
    }
  }

  lemma {:induction false} ScanOthers(subs: seq<Subsystem>, nqn: string, trType: string, id: Option<Id>)
    requires forall i :: 0 <= i < |subs| ==> subs[i].nqn != nqn
    ensures ScanId(subs, nqn, trType, id) == id
  {
    if subs != [] {
      ScanOthers(subs[..|subs| - 1], nqn, trType, id);
    }
  }

  /**
   A call that finds a listener returns the id of one of the requested transport, and the id it was asked for
   when there is none of that transport.
   */
  lemma FoundIdExactlyWhen(st: Node, req: Request, f: Faults)
    requires Valid(st.alloc) && UniqueNqns(st.subs) && Create(st, req, f).1.Ok? && !NeedsListener(st, req)
    ensures var r, ls := Create(st, req, f).1, Own(st, req).value.listeners;
            if exists l :: l in ls && l.trType == TrType(req)
            then exists l :: l in ls && l.trType == TrType(req) && r.svcId == Some(l.svcId)
            else r.svcId == req.svcId
  {
    OkIsComplete(st, req, f);
    hide Create, TrType;
    var k := Find(st.subs, req.nqn);
    ScanOwn(st.subs, req.nqn, TrType(req), req.svcId, k);
    LastIdFacts(st.subs[k].listeners, TrType(req), req.svcId);
  }

  lemma {:induction false} ScanSame(a: seq<Subsystem>, b: seq<Subsystem>, nqn: string, trType: string, id: Option<Id>)
    requires |a| == |b| && forall i :: 0 <= i < |a| ==> a[i].nqn == b[i].nqn && a[i].listeners == b[i].listeners
    ensures ScanId(a, nqn, trType, id) == ScanId(b, nqn, trType, id)
  {
    if a != [] {
      ScanSame(a[..|a| - 1], b[..|b| - 1], nqn, trType, id);
    }
  }

  /** What a successful call returned is what the next one finds. */
  lemma SameAnswer(st: Node, req: Request, f: Faults)
    requires Valid(st.alloc) && Create(st, req, f).1.Ok?
    ensures var (t, r) := Create(st, req, f);
            ScanId(t.subs, req.nqn, TrType(req), req.svcId) == r.svcId
  {
    OkIsComplete(st, req, f);
    CreateShape(st, req, f);
    var (t, r) := Create(st, req, f);
    hide Create;
    var k := Find(t.subs, req.nqn);
    LastFound(t.subs, req.nqn);
    if NeedsListener(st, req) {
      ScanOne(t.subs, req.nqn, TrType(req), req.svcId, k);
    } else if t.subs != st.subs {
      forall i | 0 <= i < |st.subs|
        ensures t.subs[i].nqn == st.subs[i].nqn && t.subs[i].listeners == st.subs[i].listeners {
      }
      ScanSame(st.subs, t.subs, req.nqn, TrType(req), req.svcId);
    }
  }

  /** A further retry changes nothing and returns the same name and service id. */
  lemma RetryChangesNothing(st: Node, req: Request, f: Faults, g: Faults)
    requires Valid(st.alloc) && Create(st, req, f).1.Ok? && g.list && g.sync
    ensures var (t, r) := Create(st, req, f);
            Valid(t.alloc) && Create(t, req, g) == (t, r)
  {
    OkExactlyWhen(st, req, f);
    OkIsComplete(st, req, f);
    SameAnswer(st, req, f);
    CreateShape(st, req, f);
    var (t, r) := Create(st, req, f);
    assert !InUse(t.subs, req.nqn, req.bdev) by {
      if t.subs != st.subs { ShapeFind(st.subs, t.subs, req); }
    }
    RetryOf(t, req, g);
  }

  lemma RetryOf(t: Node, req: Request, g: Faults)
    requires Valid(t.alloc) && g.list && g.sync && !InUse(t.subs, req.nqn, req.bdev)
    requires !NeedsNs(t, req) && !NeedsListener(t, req) && t.alloc.inUse == ListenerIds(t.subs)
    ensures Create(t, req, g) == (t, Ok(req.nqn, ScanId(t.subs, req.nqn, TrType(req), req.svcId)))
  {
    hide InUse, ScanId, ListenerIds;
  }

  // ---------------------------------------------------------------------------
  // What every call keeps

  predicate UniqueNqns(subs: seq<Subsystem>) {
    forall i, j :: 0 <= i < j < |subs| ==> subs[i].nqn != subs[j].nqn
  }

  /** No bdev sits in two subsystems. */
  predicate BdevOnce(subs: seq<Subsystem>) {
    forall i, j, b :: 0 <= i < j < |subs| && b in subs[i].namespaces ==> b !in subs[j].namespaces
  }

  /** No two subsystems listen on the same service id. */
  predicate PortOnce(subs: seq<Subsystem>) {
    forall i, j, x, y :: 0 <= i < j < |subs| && 0 <= x < |subs[i].listeners| && 0 <= y < |subs[j].listeners| ==>
      subs[i].listeners[x].svcId != subs[j].listeners[y].svcId
  }

  /** Every listener's id is in the allocator's set. */
  predicate Tracked(st: Node) { ListenerIds(st.subs) <= st.alloc.inUse }

  lemma ShapeNames(a: seq<Subsystem>, b: seq<Subsystem>, req: Request)
    requires Shape(a, b, req) && UniqueNqns(a) && BdevOnce(a)
    ensures UniqueNqns(b) && BdevOnce(b)
  {
    var k := Find(a, req.nqn);
    forall i | 0 <= i < |b| && i != k ensures b[i] == a[i] && a[i].nqn != req.nqn && req.bdev !in b[i].namespaces {
      assert a[i].nqn != req.nqn;
      assert !Uses(a[i], req.nqn, req.bdev);
    }
    forall i, j, x | 0 <= i < j < |b| && x in b[i].namespaces ensures x !in b[j].namespaces {
    }
  }

  lemma CreateKeepsNames(st: Node, req: Request, f: Faults)
    requires Valid(st.alloc) && UniqueNqns(st.subs) && BdevOnce(st.subs)
    ensures UniqueNqns(Create(st, req, f).0.subs) && BdevOnce(Create(st, req, f).0.subs)
  {
    CreateShape(st, req, f);
    hide Create;
    if Create(st, req, f).0.subs != st.subs {
      ShapeNames(st.subs, Create(st, req, f).0.subs, req);
    }
  }

  // ---------------------------------------------------------------------------
  // Ports

  /** A listener is added, whether or not the answer arrives. */
  predicate Added(st: Node, req: Request, f: Faults)
    requires Valid(st.alloc)
  {
    Prepared(st, req, f) && NeedsListener(st, req) && !f.addListener.Refused? && Choose(st.alloc, req).1.Some?
  }

  lemma CreateAlloc(st: Node, req: Request, f: Faults)
    requires Valid(st.alloc)
    ensures var t := Create(st, req, f).0;
            && (Built(st, req, f) ==> t.alloc.inUse == if f.sync then ListenerIds(t.subs) else {})
            && (!Built(st, req, f) ==> st.alloc.inUse <= t.alloc.inUse)
            && (!Built(st, req, f) && Added(st, req, f) ==> t.alloc == Choose(st.alloc, req).0)
  {
    hide InUse, ScanId, ListenerIds, Complete;
    var k := Find(st.subs, req.nqn);
    NextValid(st.alloc);
    if k < |st.subs| {
      CompleteAlloc(st, k, req, f, ScanId(st.subs, req.nqn, TrType(req), req.svcId));
    } else {
      CompleteAlloc(st.(subs := st.subs + [Subsystem(req.nqn, [], [])]), k, req, f, None);
    }
  }

  lemma CompleteAlloc(st: Node, k: nat, req: Request, f: Faults, found: Option<Id>)
    requires k < |st.subs| && Valid(st.alloc)
    ensures var t := Complete(st, k, req, f, found).0;
            var silent := st.subs[k].listeners == [];
            var picks := Choose(st.alloc, req).1.Some?;
            if st.subs[k].namespaces == [] && !f.addNs.Answered? then t.alloc == st.alloc
            else if silent ==> f.addListener.Answered? && picks then
              t.alloc.inUse == if f.sync then ListenerIds(t.subs) else {}
            else t.alloc == Choose(st.alloc, req).0
  {
    hide ListenerIds, Next;
  }

  lemma CreateListener(st: Node, req: Request, f: Faults)
    requires Valid(st.alloc)
    ensures var t := Create(st, req, f).0;
            var k := Find(st.subs, req.nqn);
            if Added(st, req, f) then
              k < |t.subs| && t.subs[k].listeners == [Listener(TrType(req), req.addr, Choose(st.alloc, req).1.value)]
            else
              forall i :: 0 <= i < |t.subs| ==>
                t.subs[i].listeners == if i < |st.subs| then st.subs[i].listeners else []
  {
    hide InUse, ScanId, ListenerIds, Next;
  }

  lemma IdsAfter(st: Node, req: Request, f: Faults)
    requires Valid(st.alloc)
    ensures var t := Create(st, req, f).0;
            ListenerIds(t.subs) ==
            ListenerIds(st.subs) + if Added(st, req, f) then {Choose(st.alloc, req).1.value} else {}
  {
    CreateListener(st, req, f);
    CreateShape(st, req, f);
    var t := Create(st, req, f).0;
    var k := Find(st.subs, req.nqn);
    var more := if Added(st, req, f) then {Choose(st.alloc, req).1.value} else {};
    hide Create, Prepared, Choose, InUse;
    assert Added(st, req, f) ==> t.subs[k].listeners[0].svcId == Choose(st.alloc, req).1.value;
    forall x | x in ListenerIds(st.subs) ensures x in ListenerIds(t.subs) {
      var i, j :| 0 <= i < |st.subs| && 0 <= j < |st.subs[i].listeners| && st.subs[i].listeners[j].svcId == x;
      assert t.subs[i].listeners == st.subs[i].listeners;
    }
  }

  /** While the set is up to date, a port the service picks itself is on no existing listener. */
  lemma PickedPortIsFree(st: Node, req: Request, f: Faults)
    requires Valid(st.alloc) && Tracked(st) && req.svcId.None? && Added(st, req, f)
    ensures var t := Create(st, req, f).0;
            var k := Find(st.subs, req.nqn);
            && k < |t.subs| && |t.subs[k].listeners| == 1
            && t.subs[k].listeners[0].svcId !in ListenerIds(st.subs)
            && t.subs[k].listeners[0].svcId.Port?
            && st.alloc.min <= t.subs[k].listeners[0].svcId.n <= st.alloc.max
  {
    CreateListener(st, req, f);
    NextValid(st.alloc);
    hide Create, ListenerIds;
  }

  /**
   The set stays up to date exactly when no resynchronisation fails at the end, and no listener asked for
   on an unknown id is added while the answer is lost.
   */
  lemma TrackedExactlyWhen(st: Node, req: Request, f: Faults)
    requires Valid(st.alloc) && Tracked(st)
    ensures Tracked(Create(st, req, f).0) <==>
              && (Built(st, req, f) ==> f.sync)
              && (Added(st, req, f) && f.addListener.Unanswered? ==>
                    req.svcId.None? || req.svcId.value in st.alloc.inUse)
  {
    IdsAfter(st, req, f);
    CreateAlloc(st, req, f);
    NextValid(st.alloc);
    if Built(st, req, f) {
      OkExactlyWhen(st, req, f);
      BuiltListens(st, req, f);
    }
    hide Create, ListenerIds, Prepared;
  }

  /**
   A deletion keeps the set up to date exactly when its resynchronisation, which it runs once it has found
   the target, succeeds or no listener is left.
   */
  lemma DeleteTrackedExactlyWhen(st: Node, nqn: string, f: Faults)
    requires Tracked(st)
    ensures Tracked(Delete(st, nqn, f).0) <==>
              (f.list && Find(st.subs, nqn) < |st.subs| && !f.sync ==> ListenerIds(Delete(st, nqn, f).0.subs) == {})
  {
    hide ListenerIds, Without;
  }

  /** A target that was built has a listener. */
  lemma BuiltListens(st: Node, req: Request, f: Faults)
    requires Valid(st.alloc) && Built(st, req, f)
    ensures ListenerIds(Create(st, req, f).0.subs) != {}
  {
    IdsAfter(st, req, f);
    hide Create, Prepared;
    if !Added(st, req, f) {
      assert !NeedsListener(st, req);
      assert Own(st, req).value.listeners[0].svcId in ListenerIds(st.subs);
    }
  }
}
