/**
 What is on the node after a call: a new target step by step, what a failure leaves of it, and that a
 deletion takes away exactly what it names.
 */
module TargetOutcome {
  import opened Prelude
  import opened SvcId
  import opened Target

  predicate Absent(subs: seq<Subsystem>, nqn: string) { forall i :: 0 <= i < |subs| ==> subs[i].nqn != nqn }

  lemma FindAbsent(subs: seq<Subsystem>, nqn: string)
    ensures Find(subs, nqn) == |subs| <==> Absent(subs, nqn)
  {
  }

  // ---------------------------------------------------------------------------
  // Creation

  /** The port a new listener gets: the one asked for, or the next-fit one, or the first when none is in use. */
  ghost predicate PortFor(a: Alloc, req: Request, id: Id)
    requires Valid(a)
  {
    if req.svcId.Some? then id == req.svcId.value
    else if a.inUse == {} then id == Port(a.min)
    else id.Port? && NextFit(a, id.n)
  }

  lemma ChosenPort(a: Alloc, req: Request)
    requires Valid(a)
    ensures var c := Choose(a, req).1;
            && (c.Some? ==> PortFor(a, req, c.value))
            && (c.None? ==> req.svcId.None? && a.inUse != {} && forall n :: !NextFit(a, n))
  {
    if req.svcId.None? && a.inUse != {} {
      NextIsExact(a);
    }
  }

  /** How much of a new target there is: subsystem, namespace, listener. */
  function Partial(req: Request, id: Id, parts: nat): seq<Subsystem> {
    if parts == 0 then []
    else if parts == 1 then [Subsystem(req.nqn, [], [])]
    else if parts == 2 then [Subsystem(req.nqn, [req.bdev], [])]
    else [Subsystem(req.nqn, [req.bdev], [Listener(TrType(req), req.addr, id)])]
  }

  /** The parts whose calls took effect, the last of them perhaps without an answer. */
  function Parts(f: Faults, port: bool): nat {
    if f.create.Refused? then 0
    else if f.create.Unanswered? || f.addNs.Refused? then 1
    else if f.addNs.Unanswered? || !port || f.addListener.Refused? then 2
    else 3
  }

  /**
   Over a node without that NQN a call adds the target at the end, as far as its calls took effect, and changes
   nothing else; it adds nothing when the list cannot be read or the bdev belongs to another subsystem.
   */
  lemma NewTarget(st: Node, req: Request, f: Faults) returns (id: Id)
    requires Valid(st.alloc) && Absent(st.subs, req.nqn)
    ensures var t := Create(st, req, f).0;
            if !f.list || (exists i :: 0 <= i < |st.subs| && req.bdev in st.subs[i].namespaces) then t == st
            else t.subs == st.subs + Partial(req, id, Parts(f, Choose(st.alloc, req).1.Some?))
    ensures Choose(st.alloc, req).1.Some? ==> PortFor(st.alloc, req, id)
  {
    ChosenPort(st.alloc, req);
    FindAbsent(st.subs, req.nqn);
    id := if Choose(st.alloc, req).1.Some? then Choose(st.alloc, req).1.value else Port(0);
    if i :| 0 <= i < |st.subs| && req.bdev in st.subs[i].namespaces {
      assert Uses(st.subs[i], req.nqn, req.bdev);
    } else {
      var u := st.(subs := st.subs + [Subsystem(req.nqn, [], [])]);
      BuiltUp(u, |st.subs|, req, f);
      hide Complete, Choose, TrType;
    }
  }

  lemma BuiltUp(st: Node, k: nat, req: Request, f: Faults)
    requires Valid(st.alloc) && k < |st.subs| && st.subs[k] == Subsystem(req.nqn, [], [])
    ensures var t, c := Complete(st, k, req, f, None).0, Choose(st.alloc, req).1;
            t.subs == st.subs[k :=
              if f.addNs.Refused? then st.subs[k]
              else if f.addNs.Unanswered? || c.None? || f.addListener.Refused? then Subsystem(req.nqn, [req.bdev], [])
              else Subsystem(req.nqn, [req.bdev], [Listener(TrType(req), req.addr, c.value)])]
  {
    hide Choose, TrType, ListenerIds;
    assert st.subs[k := st.subs[k]] == st.subs;
    var none: seq<string>, silent: seq<Listener> := [], [];
    assert none + [req.bdev] == [req.bdev];
    assert forall l: Listener :: silent + [l] == [l];
  }

  /** A call over a new name that succeeds adds the whole target and returns its port. */
  lemma NewTargetOk(st: Node, req: Request, f: Faults) returns (id: Id)
    requires Valid(st.alloc) && Absent(st.subs, req.nqn) && Create(st, req, f).1.Ok?
    ensures Create(st, req, f).1 == Ok(req.nqn, Some(id)) && PortFor(st.alloc, req, id)
    ensures Create(st, req, f).0.subs ==
              st.subs + [Subsystem(req.nqn, [req.bdev], [Listener(TrType(req), req.addr, id)])]
  {
    OkExactlyWhen(st, req, f);
    FindAbsent(st.subs, req.nqn);
    OkIsComplete(st, req, f);
    assert !InUse(st.subs, req.nqn, req.bdev);
    NotElsewhere(st.subs, req);
    assert Choose(st.alloc, req).1.Some? && Parts(f, true) == 3;
    hide Create, Find, InUse, Choose;
    id := NewTarget(st, req, f);
    assert Create(st, req, f).0.subs[|st.subs|].listeners[0].svcId == id;
  }

  lemma NotElsewhere(subs: seq<Subsystem>, req: Request)
    requires Absent(subs, req.nqn)
    ensures InUse(subs, req.nqn, req.bdev) <==> exists i :: 0 <= i < |subs| && req.bdev in subs[i].namespaces
  {
    if i :| 0 <= i < |subs| && req.bdev in subs[i].namespaces {
      assert Uses(subs[i], req.nqn, req.bdev);
    }
  }

  // ---------------------------------------------------------------------------
  // Deletion

  /** The subsystems of other names, in the order they had. */
  function Others(subs: seq<Subsystem>, nqn: string): seq<Subsystem> {
    if subs == [] then []
    else (if subs[0].nqn == nqn then [] else [subs[0]]) + Others(subs[1..], nqn)
  }

  lemma {:induction false} OthersConcat(a: seq<Subsystem>, b: seq<Subsystem>, nqn: string)
    ensures Others(a + b, nqn) == Others(a, nqn) + Others(b, nqn)
  {
    if a == [] {
      assert a + b == b;
    } else {
      assert (a + b)[1..] == a[1..] + b;
      OthersConcat(a[1..], b, nqn);
    }
  }

  lemma WithoutNext(subs: seq<Subsystem>, s: Subsystem, nqn: string)
    ensures Without(subs + [s], nqn) == Without(subs, nqn) + if s.nqn == nqn then [] else [s]
  {
    assert (subs + [s])[..|subs|] == subs;
  }

  lemma {:induction false} WithoutIsOthers(subs: seq<Subsystem>, nqn: string)
    ensures Without(subs, nqn) == Others(subs, nqn)
  {
    if subs == [] {
      assert Without(subs, nqn) == [];
    } else {
      var n := |subs| - 1;
      hide Without;
      WithoutNext(subs[..n], subs[n], nqn);
      WithoutIsOthers(subs[..n], nqn);
      OthersConcat(subs[..n], [subs[n]], nqn);
      assert subs == subs[..n] + [subs[n]];
      assert [subs[n]][1..] == [];
    }
  }

  lemma {:induction false} OthersAll(subs: seq<Subsystem>, nqn: string)
    requires Absent(subs, nqn)
    ensures Others(subs, nqn) == subs
  {
    if subs != [] {
      assert Absent(subs[1..], nqn);
      OthersAll(subs[1..], nqn);
      assert subs == [subs[0]] + subs[1..];
    }
  }

  lemma {:induction false} OthersMembers(subs: seq<Subsystem>, nqn: string)
    ensures Absent(Others(subs, nqn), nqn)
    ensures forall s :: s in Others(subs, nqn) <==> s in subs && s.nqn != nqn
  {
    if subs != [] {
      OthersMembers(subs[1..], nqn);
      assert subs == [subs[0]] + subs[1..];
    }
  }

  /**
   A deletion that reads the list and is not refused leaves the other subsystems in their order and none of that
   name; otherwise none changes. It reports success if and only if the list was read and the target was absent
   or the deletion was answered.
   */
  lemma DeleteOutcome(st: Node, nqn: string, f: Faults)
    ensures var (t, ok) := Delete(st, nqn, f);
            && t.subs == (if f.list && !f.delete.Refused? then Others(st.subs, nqn) else st.subs)
            && (f.list && !f.delete.Refused? ==> Absent(t.subs, nqn))
            && (ok <==> f.list && (Absent(st.subs, nqn) || f.delete.Answered?))
  {
    FindAbsent(st.subs, nqn);
    WithoutIsOthers(st.subs, nqn);
    OthersMembers(st.subs, nqn);
    if Absent(st.subs, nqn) {
      OthersAll(st.subs, nqn);
    }
    hide Find, Without, ListenerIds;
  }

  /** The bdevs of a deleted target can be exported under any other name. */
  lemma FreedBdev(st: Node, nqn: string, f: Faults, k: nat, req: Request)
    requires BdevOnce(st.subs) && k < |st.subs| && st.subs[k].nqn == nqn && req.bdev in st.subs[k].namespaces
    requires f.list && !f.delete.Refused?
    ensures var t := Delete(st, nqn, f).0;
            !InUse(t.subs, req.nqn, req.bdev) && forall i :: 0 <= i < |t.subs| ==> req.bdev !in t.subs[i].namespaces
  {
    DeleteOutcome(st, nqn, f);
    OthersMembers(st.subs, nqn);
    var t := Delete(st, nqn, f).0;
    forall i | 0 <= i < |t.subs| ensures req.bdev !in t.subs[i].namespaces {
      assert t.subs[i] in t.subs;
      var j :| 0 <= j < |st.subs| && st.subs[j] == t.subs[i];
    }
  }

  /** With the bdev free and the name new, a call whose calls are all answered exports it. */
  lemma FreedThenCreated(st: Node, nqn: string, f: Faults, k: nat, req: Request, g: Faults)
    requires BdevOnce(st.subs) && k < |st.subs| && st.subs[k].nqn == nqn && req.bdev in st.subs[k].namespaces
    requires f.list && !f.delete.Refused? && Valid(st.alloc) && Absent(st.subs, req.nqn) && req.svcId.Some?
    requires g.list && g.sync && g.create.Answered? && g.addNs.Answered? && g.addListener.Answered?
    ensures var t := Delete(st, nqn, f).0;
            && Valid(t.alloc)
            && Create(t, req, g).1 == Ok(req.nqn, req.svcId)
            && Create(t, req, g).0.subs ==
                 Others(st.subs, nqn)
                 + [Subsystem(req.nqn, [req.bdev], [Listener(TrType(req), req.addr, req.svcId.value)])]
  {
    FreedBdev(st, nqn, f, k, req);
    DeleteOutcome(st, nqn, f);
    StillAbsent(st.subs, nqn, req.nqn);
    var t := Delete(st, nqn, f).0;
    FindAbsent(t.subs, req.nqn);
    OkExactlyWhen(t, req, g);
    hide Create, Delete, Find, InUse;
    var id := NewTargetOk(t, req, g);
  }

  lemma StillAbsent(subs: seq<Subsystem>, gone: string, nqn: string)
    requires Absent(subs, nqn)
    ensures Absent(Others(subs, gone), nqn)
  {
    OthersMembers(subs, gone);
    var r := Others(subs, gone);
    forall i | 0 <= i < |r| ensures r[i].nqn != nqn {
      assert r[i] in r;
    }
  }

  /** Deleting a target that was just created gives the subsystems back as they were, and their ports in the set. */
  lemma CreateThenDelete(st: Node, req: Request, f: Faults, g: Faults)
    requires Valid(st.alloc) && Absent(st.subs, req.nqn) && Create(st, req, f).1.Ok?
    requires g.list && g.delete.Answered? && g.sync
    ensures var (t, ok) := Delete(Create(st, req, f).0, req.nqn, g);
            ok && t.subs == st.subs && t.alloc.inUse == ListenerIds(st.subs)
  {
    var id := NewTargetOk(st, req, f);
    var u := Create(st, req, f).0;
    hide Create;
    var target := Subsystem(req.nqn, [req.bdev], [Listener(TrType(req), req.addr, id)]);
    DeleteOutcome(u, req.nqn, g);
    OthersConcat(st.subs, [target], req.nqn);
    OthersAll(st.subs, req.nqn);
    assert [target][1..] == [];
    assert u.subs[|st.subs|].nqn == req.nqn;
    FindAbsent(u.subs, req.nqn);
    hide Find, Without, ListenerIds;
  }
}
