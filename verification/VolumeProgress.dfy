/**
 What the passes achieve: from every reachable state a volume whose node has room can still be served, a
 volume found in the scheduler's state keeps its node, and every deletion can be brought to its end.
 */
module VolumeProgress {
  import opened Prelude
  import opened NodeAccounting
  import StateOutcome
  import opened VolumeBinding
  import opened VolumeLifecycle
  import opened VolumeLifecycleSafety
  import opened VolumeLifecycleRuns

  ghost predicate Reaches(w: World, v: World)
    requires w.history != []
  {
    exists ls :: Run(w, ls) == v
  }

  lemma {:induction false} RunAppend(w: World, a: seq<Label>, b: seq<Label>)
    requires w.history != []
    ensures Run(w, a + b) == Run(Run(w, a), b)
    decreases |a|
  {
    hide Step;
    if a == [] {
      assert a + b == b;
    } else {
      assert (a + b)[1..] == a[1..] + b;
      RunAppend(Step(w, a[0]), a[1..], b);
    }
  }

  lemma ReachesSelf(w: World)
    requires w.history != []
    ensures Reaches(w, w)
  {
    assert Run(w, []) == w;
  }

  lemma ReachesOn(u: World, v: World, w: World)
    requires u.history != [] && v.history != [] && Reaches(u, v) && Reaches(v, w)
    ensures Reaches(u, w)
  {
    hide Run;
    var a :| Run(u, a) == v;
    var b :| Run(v, b) == w;
    RunAppend(u, a, b);
  }

  /** Both actors are between passes. */
  ghost predicate Calm(w: World) { Inv(w) && w.ctl == Idle && w.agent == Resting && !w.gone }

  lemma CalmDown(w: World) returns (v: World)
    requires Inv(w) && !w.gone
    ensures w.history != [] && Reaches(w, v) && Calm(v) && v == w.(ctl := Idle, agent := Resting)
  {
    Nonempty(w);
    IdleInv(w);
    IdleInv(w.(ctl := Idle));
    RunTwo(w, CtlStop, AgentStop);
    v := w.(ctl := Idle, agent := Resting);
    assert Step(w, CtlStop) == w.(ctl := Idle);
    assert Run(w, [CtlStop, AgentStop]) == v;
  }

  lemma Arrives(w: World, ls: seq<Label>, v: World)
    requires Inv(w) && w.history != [] && Run(w, ls) == v && v.ctl == Idle && v.agent == Resting && !v.gone
    ensures Reaches(w, v) && Calm(v)
  {
    hide Inv;
    RunInv(w, ls);
  }

  // ---------------------------------------------------------------------------
  // The controller's passes over the newest version

  lemma ReadsNewest(w: World)
    requires Calm(w)
    ensures w.history != [] && w.seen < |w.history|
    ensures var i := |w.history| - 1;
            Step(w, CacheRead(i)) == w.(seen := i, ctl := Begin(Live(w), i))
  {
    hide Sound, Where, Placement, Held, Freed, AgentOk;
  }

  lemma PersistStep(w: World, i: nat, n: string)
    requires w.ctl == Persist(i, n) && i + 1 == |w.history| && !w.gone
    ensures var o := Live(w).(target := Some(n));
            Step(Step(w, CtlPersist), CtlPlace) ==
              w.(ctl := Idle, history := w.history + [o], gone := o.deleting && o.finalizers == [])
  {
  }

  /** The scheduler finds a volume that is in the state, on the node it is bound to. */
  lemma FindsBound(w: World, i: nat, n: string, m: string)
    requires Inv(w) && w.ctl == Schedule(i) && i < |w.history| && Where(w.state, w.uuid) == Some(n) && n != ""
    ensures Step(w, CtlSchedule(m)) == w.(ctl := Persist(i, n))
  {
    LookupOurs(w.state, w.name, w.uuid);
    hide Inv, StateIndex.GetVolumeByID, StateIndex.Bind, StateIndex.BindError, Where;
  }

  lemma BoundNodeNamed(w: World)
    requires Inv(w) && Where(w.state, w.uuid).Some?
    ensures Where(w.state, w.uuid).value in w.state.nodes && Where(w.state, w.uuid).value != ""
  {
    BoundIsCounted(w.state, w.name, w.uuid);
    hide Versions, StageOk, Placement, Held, Freed, AgentOk;
  }

  /**
   A volume that is bound although its object names no node: whatever node the scheduler would choose now, a pass
   over the newest version gives it the node it is bound to, and the state does not change.
   */
  lemma RetryKeepsNode(w: World, n: string, m: string)
    requires Inv(w) && w.ctl == Idle && !w.gone && Where(w.state, w.uuid) == Some(n)
    requires w.history != [] && !Live(w).deleting && Live(w).target == None
    ensures var t := Run(Run(w, [CacheRead(|w.history| - 1)]), [CtlSchedule(m), CtlPersist, CtlPlace]);
            && t.history == w.history + [Live(w).(target := Some(n))] && t.state == w.state && !t.gone && t.ctl == Idle
            && t.agent == w.agent && t.lvs == w.lvs
  {
    hide Run, Inv, Where;
    var i := |w.history| - 1;
    BoundNodeNamed(w);
    SchedulesNewest(w);
    var u := w.(seen := i, ctl := Schedule(i));
    StepInv(w, CacheRead(i));
    RunOne(w, CacheRead(i));
    FindsBound(u, i, n, m);
    RunThree(u, CtlSchedule(m), CtlPersist, CtlPlace);
    hide Step;
    PersistStep(u.(ctl := Persist(i, n)), i, n);
  }

  lemma SchedulesNewest(w: World)
    requires Inv(w) && w.ctl == Idle && w.history != [] && !Live(w).deleting && Live(w).target == None
    ensures var i := |w.history| - 1; Step(w, CacheRead(i)) == w.(seen := i, ctl := Schedule(i))
  {
    hide Sound, Where, Placement, Held, Freed, AgentOk;
  }

  /** The node has room for the volume under its name. */
  ghost predicate Bindable(w: World, n: string)
    requires w.history != []
  {
    && StateIndex.BindError(w.state, n, Live(w).attrs).None?
    && Where(w.state, w.uuid) in {None, Some(n)} && Live(w).target in {None, Some(n)}
  }

  lemma BindStaysPossible(s: StateIndex.State, n: string, v: Volume)
    requires StateIndex.BindError(s, n, v).None? && UniqueNames(s.nodes[n].volumes)
    ensures StateIndex.BindError(StateIndex.Bind(s, n, v), n, v).None?
  {
    StateOutcome.BindErrorExactlyWhen(s, n, v);
    StateIndex.BoundVolumes(s, n, v);
    var t := StateIndex.Bind(s, n, v);
    StateOutcome.BindErrorExactlyWhen(t, n, v);
    assert !StateOutcome.Clashes(t.nodes[n], v) by {
      forall i | 0 <= i < |t.nodes[n].volumes| && t.nodes[n].volumes[i].name == v.name
        ensures t.nodes[n].volumes[i].size == v.size
      {
        if i < |s.nodes[n].volumes| {
          assert s.nodes[n].volumes[i].name == v.name ==> s.nodes[n].volumes[i].size == v.size;
        }
      }
    }
  }

  /** The state a successful bind of the newest version leaves. */
  lemma BindsHere(w: World, n: string)
    requires Inv(w) && w.history != [] && Bindable(w, n)
    ensures var s := StateIndex.Bind(w.state, n, Live(w).attrs);
            Where(s, w.uuid) == Some(n) && StateIndex.BindError(s, n, Live(w).attrs).None?
  {
    assert VersionOk(Live(w), w.name, w.uuid, w.bound);
    BindOurs(w.state, n, Live(w).attrs);
    NodeFacts(w.state, n, w.name, w.uuid);
    BindStaysPossible(w.state, n, Live(w).attrs);
  }

  lemma PlaceSteps(w: World, i: nat, n: string)
    requires w.ctl == Schedule(i) && i + 1 == |w.history| && !w.gone && !Live(w).deleting
    requires StateIndex.GetVolumeByID(w.state, w.uuid).Err? && StateIndex.BindError(w.state, n, Live(w).attrs).None?
    ensures Step(Step(Step(w, CtlSchedule(n)), CtlPersist), CtlPlace) ==
              w.(ctl := Idle, state := StateIndex.Bind(w.state, n, Live(w).attrs), bound := w.bound + {n},
                 history := w.history + [Live(w).(target := Some(n), labelled := true)])
  {
    hide StateIndex.Bind, StateIndex.BindError, StateIndex.GetVolumeByID;
    var a := Step(w, CtlSchedule(n));
    assert a == w.(ctl := Place(i, n), state := StateIndex.Bind(w.state, n, Live(w).attrs), bound := w.bound + {n});
    assert Step(a, CtlPersist) == a;
  }

  /** A volume without a node gets one: the one it is bound to, or the one chosen for it. */
  lemma GetsNode(w: World, n: string) returns (v: World)
    requires Calm(w) && w.history != [] && !Live(w).deleting && Bindable(w, n)
    ensures Reaches(w, v) && Calm(v) && v.history != [] && !Live(v).deleting && Bindable(v, n)
    ensures Live(v).target == Some(n) && Live(v).finalizers == Live(w).finalizers && v.lvs == w.lvs
  {
    if Live(w).target == Some(n) {
      ReachesSelf(w);
      v := w;
    } else if Where(w.state, w.uuid).Some? {
      v := KeepsNode(w, n);
    } else {
      v := TakesNode(w, n);
    }
  }

  lemma KeepsNode(w: World, n: string) returns (v: World)
    requires Calm(w) && w.history != [] && !Live(w).deleting && Bindable(w, n)
    requires Live(w).target == None && Where(w.state, w.uuid) == Some(n)
    ensures Reaches(w, v) && Calm(v) && v.history != [] && !Live(v).deleting && Bindable(v, n)
    ensures Live(v).target == Some(n) && Live(v).finalizers == Live(w).finalizers && v.lvs == w.lvs
  {
    hide Inv, Run, Where, StateIndex.BindError;
    RetryKeepsNode(w, n, n);
    var a, b := [CacheRead(|w.history| - 1)], [CtlSchedule(n), CtlPersist, CtlPlace];
    v := Run(Run(w, a), b);
    RunAppend(w, a, b);
    Arrives(w, a + b, v);
    SameVolume(w, a + b);
  }

  /** Name and uuid never change. */
  lemma {:induction false} SameVolume(w: World, ls: seq<Label>)
    requires w.history != []
    ensures Run(w, ls).uuid == w.uuid
  {
    RunKeepsBound(w, ls);
  }

  lemma NotFound(w: World)
    requires Inv(w) && Where(w.state, w.uuid) == None
    ensures StateIndex.GetVolumeByID(w.state, w.uuid).Err?
  {
    LookupOurs(w.state, w.name, w.uuid);
    hide Versions, StageOk, Placement, Held, Freed, AgentOk;
  }

  lemma TakesNode(w: World, n: string) returns (v: World)
    requires Calm(w) && w.history != [] && !Live(w).deleting && Bindable(w, n)
    requires Live(w).target == None && Where(w.state, w.uuid) == None
    ensures Reaches(w, v) && Calm(v) && v.history != [] && !Live(v).deleting && Bindable(v, n)
    ensures Live(v).target == Some(n) && Live(v).finalizers == Live(w).finalizers && v.lvs == w.lvs
  {
    hide Inv, Run, Step, Where, StateIndex.Bind, StateIndex.BindError, StateIndex.GetVolumeByID;
    var i := |w.history| - 1;
    NotFound(w);
    BindsHere(w, n);
    ReadsNewest(w);
    var u := w.(seen := i, ctl := Schedule(i));
    var a, b := [CacheRead(i)], [CtlSchedule(n), CtlPersist, CtlPlace];
    RunOne(w, CacheRead(i));
    RunThree(u, CtlSchedule(n), CtlPersist, CtlPlace);
    PlaceSteps(u, i, n);
    RunAppend(w, a, b);
    v := Run(u, b);
    Arrives(w, a + b, v);
  }

  lemma BindSteps(w: World, i: nat, n: string)
    requires w.ctl == Validate(i) && i + 1 == |w.history| && !w.gone && !Live(w).deleting && Live(w).target == Some(n)
    requires StateIndex.BindError(w.state, n, Live(w).attrs).None?
    ensures var o := Live(w);
            var fs := if InState in o.finalizers then o.finalizers else o.finalizers + [InState];
            Step(Step(w, CtlBind), CtlRecord) ==
              w.(ctl := Idle, state := StateIndex.Bind(w.state, n, o.attrs), bound := w.bound + {n},
                 history := if o.labelled && InState in o.finalizers then w.history
                            else w.history + [o.(labelled := true, finalizers := fs)])
  {
    hide StateIndex.Bind, StateIndex.BindError;
    var o := Live(w);
    var a := Step(w, CtlBind);
    if o.labelled && InState in o.finalizers {
      assert a == w.(ctl := Idle, state := StateIndex.Bind(w.state, n, o.attrs), bound := w.bound + {n});
    } else {
      assert a == w.(ctl := Record(i), state := StateIndex.Bind(w.state, n, o.attrs), bound := w.bound + {n});
    }
  }

  /** A pass over a volume with a node binds it there, labels it and marks it, and takes no finalizer away. */
  lemma MarkRun(w: World, n: string)
    requires Calm(w) && w.history != [] && !Live(w).deleting && Live(w).target == Some(n)
    requires StateIndex.BindError(w.state, n, Live(w).attrs).None?
    ensures var i, o := |w.history| - 1, Live(w);
            var fs := if InState in o.finalizers then o.finalizers else o.finalizers + [InState];
            Run(w, [CacheRead(i), CtlBind, CtlRecord]) ==
              w.(seen := i, state := StateIndex.Bind(w.state, n, o.attrs), bound := w.bound + {n},
                 history := if o.labelled && InState in o.finalizers then w.history
                            else w.history + [o.(labelled := true, finalizers := fs)])
  {
    hide Inv, Run, Step, StateIndex.Bind, StateIndex.BindError;
    var i := |w.history| - 1;
    ReadsNewest(w);
    RunThree(w, CacheRead(i), CtlBind, CtlRecord);
    BindSteps(w.(seen := i, ctl := Validate(i)), i, n);
  }

  lemma GetsMarked(w: World, n: string) returns (v: World)
    requires Calm(w) && w.history != [] && !Live(w).deleting && Bindable(w, n) && Live(w).target == Some(n)
    ensures Reaches(w, v) && Calm(v) && v.history != [] && v.lvs == w.lvs && Where(v.state, v.uuid) == Some(n)
    ensures Live(v) == Live(w).(labelled := true, finalizers := Live(v).finalizers)
    ensures InState in Live(v).finalizers
    ensures forall f :: f in Live(w).finalizers ==> f in Live(v).finalizers
  {
    hide Inv, Run, Step, Where, StateIndex.Bind, StateIndex.BindError;
    var i := |w.history| - 1;
    BindsHere(w, n);
    MarkRun(w, n);
    v := Run(w, [CacheRead(i), CtlBind, CtlRecord]);
    Arrives(w, [CacheRead(i), CtlBind, CtlRecord], v);
  }

  // ---------------------------------------------------------------------------
  // The agent's passes

  ghost function AgentRun(w: World): World
    requires w.history != []
  {
    Run(w, [AgentRead, AgentAct, AgentWrite])
  }

  /** What a pass does once its action `a` on the node is known. */
  lemma AgentRunIs(w: World, a: AgentStage, lvs: set<string>)
    requires Calm(w) && w.history != [] && !a.Resting? && !a.Looked? && a.i + 1 == |w.history|
    requires ActStep(w.(agent := Looked(a.i)), a.i) == w.(agent := a, lvs := lvs)
    requires Recorded(a, Live(w).finalizers) != []
    ensures AgentRun(w) ==
              w.(lvs := lvs, history := w.history + [Live(w).(finalizers := Recorded(a, Live(w).finalizers))])
  {
    hide ActStep, Recorded, Inv;
    var v := w.(agent := Looked(a.i));
    assert Step(w, AgentRead) == v && Step(v, AgentAct) == ActStep(v, a.i);
    WriteBack(w.(agent := a, lvs := lvs));
    hide Run, Step;
    RunThree(w, AgentRead, AgentAct, AgentWrite);
  }

  lemma WriteBack(t: World)
    requires !t.gone && !t.agent.Resting? && !t.agent.Looked? && t.agent.i + 1 == |t.history|
    requires Recorded(t.agent, Live(t).finalizers) != []
    ensures Step(t, AgentWrite) ==
              t.(agent := Resting,
                 history := t.history + [Live(t).(finalizers := Recorded(t.agent, Live(t).finalizers))])
  {
    hide Recorded;
  }

  /** Creates the logical volume where the volume is placed, and records it. */
  lemma AgentCreates(w: World, n: string)
    requires Calm(w) && w.history != [] && !Live(w).deleting && Live(w).target == Some(n)
    requires InState in Live(w).finalizers && !HasLogic(Live(w))
    ensures AgentRun(w) == w.(lvs := w.lvs + {n},
              history := w.history + [Live(w).(finalizers := Live(w).finalizers + [LogicVolume])])
  {
    hide Inv, HasLogic, Without, Run;
    AgentRunIs(w, Created(|w.history| - 1), w.lvs + {n});
  }

  /** Exposes the logical volume by a target, and records that. */
  lemma AgentExposes(w: World, n: string)
    requires Calm(w) && w.history != [] && !Live(w).deleting && Live(w).target == Some(n)
    requires InState in Live(w).finalizers && HasLogic(Live(w)) && SpdkTarget !in Live(w).finalizers
    ensures AgentRun(w) == w.(history := w.history + [Live(w).(finalizers := Live(w).finalizers + [SpdkTarget])])
  {
    hide Inv, HasLogic, Without, Run;
    AgentRunIs(w, Exposed(|w.history| - 1), w.lvs);
  }

  /** Takes the target down first. */
  lemma AgentHides(w: World)
    requires Calm(w) && w.history != [] && Live(w).deleting && Live(w).target.Some?
    requires InState in Live(w).finalizers && SpdkTarget in Live(w).finalizers
    ensures var o := Live(w).(finalizers := Without(Live(w).finalizers, {SpdkTarget}));
            AgentRun(w) == w.(history := w.history + [o]) && InState in o.finalizers
  {
    hide Inv, HasLogic, Without, Run;
    assert InState in Without(Live(w).finalizers, {SpdkTarget});
    AgentRunIs(w, Hidden(|w.history| - 1), w.lvs);
  }

  /** And then the logical volume. */
  lemma AgentDeletes(w: World, n: string)
    requires Calm(w) && w.history != [] && Live(w).deleting && Live(w).target == Some(n)
    requires InState in Live(w).finalizers && SpdkTarget !in Live(w).finalizers && HasLogic(Live(w))
    ensures var o := Live(w).(finalizers := Without(Live(w).finalizers, LOGIC_FINALIZERS));
            AgentRun(w) == w.(lvs := w.lvs - {n}, history := w.history + [o]) && InState in o.finalizers
  {
    hide Inv, HasLogic, Without, Run;
    assert InState in Without(Live(w).finalizers, LOGIC_FINALIZERS);
    AgentRunIs(w, Deleted(|w.history| - 1), w.lvs - {n});
  }

  /** Placed, marked, and a logical volume with a target on its node. */
  ghost predicate Served(w: World, n: string) {
    && w.history != [] && !w.gone
    && (var o := Live(w);
        && o.target == Some(n) && o.labelled && !o.deleting
        && InState in o.finalizers && HasLogic(o) && SpdkTarget in o.finalizers)
    && n in w.lvs && Where(w.state, w.uuid) == Some(n)
  }

  lemma GetsCreated(w: World, n: string) returns (v: World)
    requires Calm(w) && w.history != [] && !Live(w).deleting && Live(w).target == Some(n) && Live(w).labelled
    requires InState in Live(w).finalizers && Where(w.state, w.uuid) == Some(n)
    ensures Reaches(w, v) && Calm(v) && v.history != [] && Where(v.state, v.uuid) == Some(n)
    ensures Live(v) == Live(w).(finalizers := Live(v).finalizers)
    ensures InState in Live(v).finalizers && HasLogic(Live(v)) && n in v.lvs
  {
    if HasLogic(Live(w)) {
      assert n in w.lvs;
      ReachesSelf(w);
      v := w;
    } else {
      hide Where;
      AgentCreates(w, n);
      hide Run, Inv;
      v := AgentRun(w);
      Arrives(w, [AgentRead, AgentAct, AgentWrite], v);
    }
  }

  lemma GetsExposed(w: World, n: string) returns (v: World)
    requires Calm(w) && w.history != [] && !Live(w).deleting && Live(w).target == Some(n) && Live(w).labelled
    requires InState in Live(w).finalizers && HasLogic(Live(w)) && n in w.lvs && Where(w.state, w.uuid) == Some(n)
    ensures Reaches(w, v) && Served(v, n)
  {
    if SpdkTarget in Live(w).finalizers {
      ReachesSelf(w);
      v := w;
    } else {
      hide Where;
      AgentExposes(w, n);
      hide Run, Inv;
      v := AgentRun(w);
      Arrives(w, [AgentRead, AgentAct, AgentWrite], v);
    }
  }

  /**
   From every reachable state, whatever the actors were doing: a volume that is not being deleted and that some
   node can take, the one it is bound to or placed on if any, can still be bound there, created and exposed.
   */
  lemma CanBeServed(w0: World, ls: seq<Label>, n: string) returns (v: World)
    requires Initial(w0) && !Run(w0, ls).gone && !Live(Run(w0, ls)).deleting && Bindable(Run(w0, ls), n)
    ensures Reaches(Run(w0, ls), v) && Served(v, n)
  {
    hide Run, Initial, Inv, Where, StateIndex.BindError, Reaches, Served;
    InitialInv(w0);
    Nonempty(w0);
    RunInv(w0, ls);
    var w := Run(w0, ls);
    var a := CalmDown(w);
    v := Serves(a, n);
    ReachesOn(w, a, v);
  }

  lemma Serves(w: World, n: string) returns (v: World)
    requires Calm(w) && w.history != [] && !Live(w).deleting && Bindable(w, n)
    ensures Reaches(w, v) && Served(v, n)
  {
    hide Calm, Where, StateIndex.BindError, Reaches, Served, HasLogic;
    var b := GetsNode(w, n);
    var c := GetsMarked(b, n);
    ReachesOn(w, b, c);
    var d := GetsCreated(c, n);
    ReachesOn(w, c, d);
    v := GetsExposed(d, n);
    ReachesOn(w, d, v);
  }

  // ---------------------------------------------------------------------------
  // Deletion

  /** The in-state finalizer comes at most once, and a target only with it. */
  predicate Once(fs: seq<Finalizer>) {
    && Single(fs)
    && (SpdkTarget in fs ==> InState in fs)
  }

  predicate Single(fs: seq<Finalizer>) { forall i, j :: 0 <= i < j < |fs| && fs[i] == InState ==> fs[j] != InState }

  predicate AllOnce(h: seq<Object>) { forall i :: 0 <= i < |h| ==> Once(h[i].finalizers) }

  lemma {:induction false} WithoutOnce(fs: seq<Finalizer>, drop: set<Finalizer>)
    requires Single(fs)
    ensures Single(Without(fs, drop))
  {
    if fs != [] {
      var n := |fs| - 1;
      WithoutOnce(fs[..n], drop);
      if fs[n] == InState {
        assert InState !in fs[..n];
      }
      SingleNext(Without(fs[..n], drop), fs[n]);
    }
  }

  lemma SingleNext(fs: seq<Finalizer>, f: Finalizer)
    requires Single(fs) && (f == InState ==> InState !in fs)
    ensures Single(fs + [f])
  {
  }

  lemma AppendOnce(fs: seq<Finalizer>, f: Finalizer)
    requires Once(fs) && (f == InState ==> InState !in fs) && (f == SpdkTarget ==> InState in fs)
    ensures Once(fs + [f])
  {
  }

  lemma DropOnce(fs: seq<Finalizer>, drop: set<Finalizer>)
    requires Once(fs) && InState !in drop
    ensures Once(Without(fs, drop))
  {
    WithoutOnce(fs, drop);
  }

  lemma MarkedOnce(live: Object, o: Object)
    requires Once(live.finalizers) && Once(o.finalizers)
    ensures Once(Marked(live, o).finalizers)
  {
    if InState !in o.finalizers {
      AppendOnce(o.finalizers, InState);
    }
  }

  lemma CtlOnce(w: World, l: Label)
    requires Inv(w) && w.history != [] && AllOnce(w.history)
    ensures AllOnce(CtlStep(w, l).history)
  {
    hide Sound, Where, Placement, Held, Freed, AgentOk, Versions, Without, Marked, Once;
    hide StateIndex.Bind, StateIndex.BindError, StateIndex.Unbind, StateIndex.GetVolumeByID;
    assert Once(Live(w).finalizers);
    if !w.ctl.Idle? {
      var o := w.history[w.ctl.i];
      assert Once(o.finalizers);
      MarkedOnce(Live(w), o);
      DropOnce(o.finalizers, {KernelLVol, SpdkTarget});
      NoneOnce();
    }
  }

  lemma NoneOnce()
    ensures Once([])
  {
  }

  lemma AgentOnce(w: World, l: Label)
    requires Inv(w) && w.history != [] && AllOnce(w.history)
    ensures AllOnce(AgentStep(w, l).history)
  {
    hide Sound, Where, Placement, Held, Freed, StageOk, Versions, Without, Once, ActStep;
    ActKeepsHistory(w);
    if !w.agent.Resting? && !w.agent.Looked? {
      var fs := w.history[w.agent.i].finalizers;
      assert Once(fs);
      DropOnce(fs, {SpdkTarget});
      DropOnce(fs, LOGIC_FINALIZERS);
      AppendOnce(fs, LogicVolume);
      AppendOnce(fs, SpdkTarget);
    }
  }

  lemma ActKeepsHistory(w: World)
    ensures w.agent.Looked? && w.agent.i < |w.history| ==> ActStep(w, w.agent.i).history == w.history
  {
  }

  lemma OtherOnce(w: World, l: Label)
    requires w.history != [] && AllOnce(w.history)
    ensures AllOnce(OtherStep(w, l).history)
  {
    hide StateIndex.Apply, StateIndex.Proper, Without, Once;
    assert Once(Live(w).finalizers);
    if l.AddOther? {
      AppendOnce(Live(w).finalizers, OtherFinalizer(l.f));
    } else if l.DropOther? {
      DropOnce(Live(w).finalizers, {OtherFinalizer(l.f)});
    }
  }

  lemma StepOnce(w: World, l: Label)
    requires Inv(w) && w.history != [] && AllOnce(w.history)
    ensures AllOnce(Step(w, l).history)
  {
    hide Inv, AllOnce, CtlStep, AgentStep, OtherStep;
    CtlOnce(w, l);
    AgentOnce(w, l);
    OtherOnce(w, l);
  }

  lemma {:induction false} RunOnce(w: World, ls: seq<Label>)
    requires Inv(w) && w.history != [] && AllOnce(w.history)
    ensures AllOnce(Run(w, ls).history)
    decreases |ls|
  {
    hide Inv, AllOnce, Step;
    if ls != [] {
      StepOnce(w, ls[0]);
      StepInv(w, ls[0]);
      RunOnce(Step(w, ls[0]), ls[1..]);
    }
  }

  /** A deletion under way. */
  ghost predicate Leaving(w: World) { Calm(w) && w.history != [] && Live(w).deleting && AllOnce(w.history) }

  lemma MarkedHasNode(w: World)
    requires Leaving(w) && InState in Live(w).finalizers
    ensures Live(w).target.Some? && w.lvs <= {Live(w).target.value}
  {
    assert VersionOk(Live(w), w.name, w.uuid, w.bound);
  }

  lemma ReallyLeaving(w: World, ls: seq<Label>, v: World)
    requires Leaving(w) && v == Run(w, ls) && v.ctl == Idle && v.agent == Resting && !v.gone && Live(v).deleting
    ensures Reaches(w, v) && Leaving(v)
  {
    hide Inv, Run, AllOnce;
    Arrives(w, ls, v);
    RunOnce(w, ls);
  }

  lemma GetsHidden(w: World) returns (v: World)
    requires Leaving(w)
    ensures Reaches(w, v) && Leaving(v) && SpdkTarget !in Live(v).finalizers && v.lvs == w.lvs && v.forced == w.forced
    ensures InState in Live(v).finalizers <==> InState in Live(w).finalizers
    ensures HasLogic(Live(v)) <==> HasLogic(Live(w))
  {
    hide Inv, Run;
    if SpdkTarget in Live(w).finalizers {
      assert Once(Live(w).finalizers);
      MarkedHasNode(w);
      hide Run, Inv, AllOnce, Without;
      AgentHides(w);
      v := AgentRun(w);
      ReallyLeaving(w, [AgentRead, AgentAct, AgentWrite], v);
    } else {
      ReachesSelf(w);
      v := w;
    }
  }

  lemma GetsDeleted(w: World) returns (v: World)
    requires Leaving(w) && SpdkTarget !in Live(w).finalizers
    ensures Reaches(w, v) && Leaving(v) && v.forced == w.forced && !HasLogic(Live(v))
    ensures SpdkTarget !in Live(v).finalizers
    ensures InState in Live(v).finalizers <==> InState in Live(w).finalizers
    ensures v.lvs == if HasLogic(Live(w)) then {} else w.lvs
  {
    if HasLogic(Live(w)) {
      assert VersionOk(Live(w), w.name, w.uuid, w.bound);
      MarkedHasNode(w);
      AgentDeletes(w, Live(w).target.value);
      hide Run, Inv, AllOnce;
      v := AgentRun(w);
      ReallyLeaving(w, [AgentRead, AgentAct, AgentWrite], v);
    } else {
      ReachesSelf(w);
      v := w;
    }
  }

  predicate OnlyMark(fs: seq<Finalizer>) { fs == [] || fs == [InState] }

  lemma {:induction false} WithoutShrinks(fs: seq<Finalizer>, f: Finalizer)
    ensures |Without(fs, {f})| <= |fs| && (f in fs ==> |Without(fs, {f})| < |fs|)
  {
    if fs != [] {
      WithoutShrinks(fs[..|fs| - 1], f);
    }
  }

  lemma NotTwice(fs: seq<Finalizer>)
    requires Once(fs) && |fs| > 1 && fs[0] == InState
    ensures fs[1] != InState
  {
  }

  lemma OnceLeft(fs: seq<Finalizer>)
    requires Once(fs) && forall f :: f in fs ==> f == InState
    ensures OnlyMark(fs)
  {
    hide Once;
    if fs != [] {
      assert fs[0] in fs;
      if |fs| > 1 {
        assert fs[1] in fs;
        NotTwice(fs);
      }
    }
  }

  lemma DropsOther(w: World, f: string)
    requires w.history != [] && !w.gone
    ensures var o := Live(w).(finalizers := Without(Live(w).finalizers, {OtherFinalizer(f)}));
            Run(w, [DropOther(f)]) ==
              w.(history := w.history + [o], gone := o.deleting && o.finalizers == [])
  {
    hide Without, Run, CtlStep, AgentStep, StateIndex.Apply, StateIndex.Proper;
    RunOne(w, DropOther(f));
  }

  /** The owners of the other finalizers let go; without the controller's mark the object goes with the last one. */
  lemma {:induction false} OthersLetGo(w: World) returns (v: World)
    requires Leaving(w) && !HasLogic(Live(w)) && SpdkTarget !in Live(w).finalizers
    ensures Reaches(w, v) && v.history != [] && v.forced == w.forced && v.lvs == w.lvs
    ensures if InState in Live(w).finalizers then Leaving(v) && Live(v).finalizers == [InState] else v.gone
    decreases |Live(w).finalizers|
  {
    hide Inv, Run, AllOnce, Without;
    var fs := Live(w).finalizers;
    if f :| f in fs && f.OtherFinalizer? {
      WithoutShrinks(fs, f);
      DropsOther(w, f.name);
      var u := Run(w, [DropOther(f.name)]);
      assert Reaches(w, u);
      if u.gone {
        v := u;
      } else {
        ReallyLeaving(w, [DropOther(f.name)], u);
        v := OthersLetGo(u);
        ReachesOn(w, u, v);
      }
    } else {
      OnlyMarkLeft(w);
      ReachesSelf(w);
      v := w;
    }
  }

  lemma OnlyMarkLeft(w: World)
    requires Leaving(w) && !HasLogic(Live(w)) && SpdkTarget !in Live(w).finalizers
    requires forall f :: f in Live(w).finalizers ==> !f.OtherFinalizer?
    ensures Live(w).finalizers == [InState]
  {
    hide Sound, Where, Placement, AgentOk, Versions;
    var fs := Live(w).finalizers;
    assert Once(fs);
    forall f | f in fs ensures f == InState {
      assert !f.OtherFinalizer?;
    }
    OnceLeft(fs);
  }

  lemma GivesBack(w: World)
    requires Inv(w)
    ensures Where(StateIndex.Unbind(w.state, w.uuid), w.uuid) == None
  {
    UnbindOurs(w.state, w.name, w.uuid);
    hide Versions, StageOk, Placement, Held, Freed, AgentOk;
  }

  /** The controller's last pass: the space is given back and the object goes. */
  lemma LastPass(w: World) returns (v: World)
    requires Leaving(w) && Live(w).finalizers == [InState]
    ensures Reaches(w, v) && v.history != [] && v.gone && v.forced == w.forced && v.lvs == w.lvs
    ensures Where(v.state, v.uuid) == None
  {
    hide Inv, Run, Step, Where, StateIndex.Unbind, StateIndex.UnbindError;
    var i := |w.history| - 1;
    GivesBack(w);
    ReadsNewest(w);
    StepTeardown(w, i);
    RunThree(w, CacheRead(i), CtlTeardown(false, false), CtlClear);
    v := Run(w, [CacheRead(i), CtlTeardown(false, false), CtlClear]);
  }

  /** The last finalizer, or a pool that is reported missing. */
  predicate EndsNow(w: World, nilPool: bool)
    requires w.history != []
  {
    var o := Live(w);
    o.finalizers == [InState] || (o.target.Some? && o.target.value !in w.pools && nilPool)
  }

  lemma EndRun(w: World, i: nat, overdue: bool, nilPool: bool)
    requires w.ctl == Teardown(i) && i + 1 == |w.history| && !w.gone && Live(w).deleting && EndsNow(w, nilPool)
    ensures var t := Run(w, [CtlTeardown(overdue, nilPool), CtlClear, CtlPrune]);
            t.gone && t.state == StateIndex.Unbind(w.state, w.uuid) && t.uuid == w.uuid
  {
    hide Run, Step, StateIndex.Unbind, Without;
    RunThree(w, CtlTeardown(overdue, nilPool), CtlClear, CtlPrune);
    TeardownIs(w, i, overdue, nilPool);
    ClearEnds(TeardownStep(w, i, overdue, nilPool));
  }

  lemma PruneRun(w: World, i: nat, overdue: bool, nilPool: bool)
    requires w.ctl == Teardown(i) && i + 1 == |w.history| && !w.gone && Live(w).deleting && !EndsNow(w, nilPool)
    ensures var t := Run(w, [CtlTeardown(overdue, nilPool), CtlClear, CtlPrune]);
            var o := Live(w);
            var p := o.(finalizers := Without(o.finalizers, {KernelLVol, SpdkTarget}));
            if o.target.Some? && overdue && |o.finalizers| > 1 then
              t == w.(ctl := Idle, history := w.history + [p], gone := p.finalizers == [])
            else t == w.(ctl := Idle)
  {
    hide Run, Step, StateIndex.Unbind, Without;
    RunThree(w, CtlTeardown(overdue, nilPool), CtlClear, CtlPrune);
    TeardownIs(w, i, overdue, nilPool);
    PruneEnds(TeardownStep(w, i, overdue, nilPool));
  }

  lemma TeardownIs(w: World, i: nat, overdue: bool, nilPool: bool)
    requires w.ctl == Teardown(i) && i < |w.history|
    ensures Step(w, CtlTeardown(overdue, nilPool)) == TeardownStep(w, i, overdue, nilPool)
  {
    hide TeardownStep;
  }

  lemma ClearEnds(a: World)
    requires a.history != [] && a.ctl.Clear? && a.ctl.i + 1 == |a.history| && !a.gone && Live(a).deleting
    ensures Step(Step(a, CtlClear), CtlPrune) ==
              a.(ctl := Idle, gone := true, history := a.history + [Live(a).(finalizers := [])])
  {
    var b := Step(a, CtlClear);
    assert b.ctl == Idle && Step(b, CtlPrune) == b;
  }

  lemma PruneEnds(a: World)
    requires a.history != [] && !a.ctl.Clear? && (a.ctl.Prune? ==> a.ctl.i + 1 == |a.history|) && !a.gone
    ensures a.ctl == Idle ==> Step(Step(a, CtlClear), CtlPrune) == a
    ensures a.ctl.Prune? ==>
              var o := Live(a).(finalizers := Without(Live(a).finalizers, {KernelLVol, SpdkTarget}));
              Step(Step(a, CtlClear), CtlPrune) ==
                a.(ctl := Idle, history := a.history + [o], gone := o.deleting && o.finalizers == [])
  {
    hide Without;
    assert Step(a, CtlClear) == a;
  }

  /**
   What a pass over the newest version of a volume being deleted does: the last finalizer, or a pool that is
   reported missing, ends it and gives the space back; an overdue one loses the finalizers of the failed node,
   and only those; any other pass changes nothing.
   */
  lemma TeardownOutcome(w: World, overdue: bool, nilPool: bool)
    requires Calm(w) && w.history != [] && Live(w).deleting
    ensures var t := Run(Run(w, [CacheRead(|w.history| - 1)]), [CtlTeardown(overdue, nilPool), CtlClear, CtlPrune]);
            var o := Live(w);
            if o.finalizers == [InState] || (o.target.Some? && o.target.value !in w.pools && nilPool) then
              t.gone && Where(t.state, t.uuid) == None
            else if o.target.Some? && overdue && |o.finalizers| > 1 then
              && t.state == w.state && t.history == w.history + [o.(finalizers := Live(t).finalizers)]
              && forall f :: f in Live(t).finalizers <==> f in o.finalizers && f != KernelLVol && f != SpdkTarget
            else t.history == w.history && t.state == w.state && !t.gone
  {
    hide Run, Step, Inv, Where, StateIndex.Unbind, Without;
    var i := |w.history| - 1;
    ReadsNewest(w);
    RunOne(w, CacheRead(i));
    var u := w.(seen := i, ctl := Teardown(i));
    if EndsNow(u, nilPool) {
      EndRun(u, i, overdue, nilPool);
      GivesBack(w);
    } else {
      PruneRun(u, i, overdue, nilPool);
    }
  }

  /**
   From every reachable state of a deletion, whatever the actors were doing, there is a way to its end: the object
   goes without force, a recorded logical volume is removed, and a recorded binding gives the space back.
   */
  lemma DeletionCanComplete(w0: World, ls: seq<Label>) returns (v: World)
    requires Initial(w0) && !Run(w0, ls).gone && Live(Run(w0, ls)).deleting
    ensures var w := Run(w0, ls);
            && Reaches(w, v) && v.history != [] && v.gone && v.forced == w.forced
            && (InState in Live(w).finalizers ==> Where(v.state, v.uuid) == None)
            && (HasLogic(Live(w)) ==> v.lvs == {})
  {
    hide Run, Initial, Inv, Where, Reaches, AllOnce, HasLogic;
    FreshOnce(w0);
    InitialInv(w0);
    Nonempty(w0);
    RunInv(w0, ls);
    RunOnce(w0, ls);
    var w := Run(w0, ls);
    var a := CalmDown(w);
    v := Leaves(a);
    ReachesOn(w, a, v);
  }

  lemma Leaves(w: World) returns (v: World)
    requires Leaving(w)
    ensures Reaches(w, v) && v.history != [] && v.gone && v.forced == w.forced
    ensures InState in Live(w).finalizers ==> Where(v.state, v.uuid) == None
    ensures HasLogic(Live(w)) ==> v.lvs == {}
  {
    hide Calm, Where, Reaches, AllOnce, HasLogic;
    var b := GetsHidden(w);
    var c := GetsDeleted(b);
    ReachesOn(w, b, c);
    v := Ends(c);
    ReachesOn(w, c, v);
  }

  lemma Ends(w: World) returns (v: World)
    requires Leaving(w) && !HasLogic(Live(w)) && SpdkTarget !in Live(w).finalizers
    ensures Reaches(w, v) && v.history != [] && v.gone && v.forced == w.forced && v.lvs == w.lvs
    ensures InState in Live(w).finalizers ==> Where(v.state, v.uuid) == None
  {
    hide Calm, Where, Reaches, AllOnce, HasLogic;
    var d := OthersLetGo(w);
    if InState in Live(w).finalizers {
      v := LastPass(d);
      ReachesOn(w, d, v);
    } else {
      v := d;
    }
  }

  lemma FreshOnce(w: World)
    requires Initial(w)
    ensures AllOnce(w.history)
  {
    assert forall f :: f in w.history[0].finalizers ==> f.OtherFinalizer?;
    forall i | 0 <= i < |w.history[0].finalizers| ensures w.history[0].finalizers[i] != InState {
      assert w.history[0].finalizers[i] in w.history[0].finalizers;
    }
  }
}
