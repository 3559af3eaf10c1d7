/**
 Theorems about every run of a volume's life: recorded bytes are never free, there is one node,
 a deletion gives the space back, and exactly which steps lose the record of a logical volume.
 */
module VolumeLifecycleRuns {
  import opened Prelude
  import opened NodeAccounting
  import opened VolumeBinding
  import opened VolumeLifecycle
  import opened VolumeLifecycleSafety

  /** Free space and the bytes of the volume fit side by side in the node's capacity. */
  ghost predicate NotFree(s: StateIndex.State, uuid: string, n: string)
    requires n in s.nodes
  {
    var st := s.nodes[n];
    st.free.Some? ==>
      && st.pool.capacity.Some?
      && forall i: nat :: StateIndex.FoundAt(s, uuid, n, i) ==>
           st.free.value + TotalSize(st.volumes[i]) + SumSeq(st.pool.reserved) <= st.pool.capacity.value
  }

  /** What a volume that carries a logical-volume finalizer is entitled to. */
  ghost predicate Accounted(w: World)
    requires w.history != []
  {
    var o := Live(w);
    && InState in o.finalizers
    && o.target.Some?
    && Where(w.state, w.uuid) == o.target
    && o.target.value in w.state.nodes
    && (exists i: nat :: StateIndex.FoundAt(w.state, w.uuid, o.target.value, i))
    && NotFree(w.state, w.uuid, o.target.value)
  }

  lemma InvAccounted(w: World)
    requires Inv(w) && HasLogic(Live(w)) && !w.forced
    ensures Accounted(w)
  {
    hide Sound, Where;
    assert VersionOk(Live(w), w.name, w.uuid, w.bound);
    assert Later(w.history[w.seen], Live(w));
    BoundIsCounted(w.state, w.name, w.uuid);
  }

  /**
   In every run, as long as the volume was not torn down for want of its pool: a volume with a
   logical-volume finalizer has the in-state finalizer and is bound at its target node, so its
   bytes are not counted as free.
   */
  lemma RecordedIsNeverFree(w: World, ls: seq<Label>)
    requires Initial(w)
    ensures var t := Run(w, ls);
            HasLogic(Live(t)) && !t.forced ==> Accounted(t)
  {
    InitialInv(w);
    RunInv(w, ls);
    hide Inv, Accounted;
    var t := Run(w, ls);
    Nonempty(t);
    if HasLogic(Live(t)) && !t.forced {
      InvAccounted(t);
    }
  }

  /** Only a missing pool, reported as no object at all, makes the controller tear a volume down by force. */
  lemma ForcedOnlyWithoutPool(w: World, l: Label)
    requires Inv(w) && !w.forced && Step(w, l).forced
    ensures w.ctl.Teardown? && w.history[w.ctl.i].deleting && l.CtlTeardown? && l.nilPool
    ensures w.history[w.ctl.i].target.Some? && w.history[w.ctl.i].target.value !in w.pools
  {
    hide Sound, Where, Versions, Placement, Held, AgentOk;
  }

  lemma {:induction false} NeverForced(w: World, ls: seq<Label>)
    requires Inv(w) && !w.forced && forall l :: l in ls ==> !(l.CtlTeardown? && l.nilPool)
    ensures !Run(w, ls).forced
    decreases |ls|
  {
    hide Inv, Step;
    if ls != [] {
      Nonempty(w);
      assert ls[0] in ls;
      StepInv(w, ls[0]);
      if Step(w, ls[0]).forced {
        ForcedOnlyWithoutPool(w, ls[0]);
      } else {
        NeverForced(Step(w, ls[0]), ls[1..]);
      }
    }
  }

  /** With a client that never returns a nil pool, recorded bytes are never free, without exception. */
  lemma RecordedIsNeverFreeOutright(w: World, ls: seq<Label>)
    requires Initial(w) && forall l :: l in ls ==> !(l.CtlTeardown? && l.nilPool)
    ensures var t := Run(w, ls);
            !t.forced && (HasLogic(Live(t)) ==> Accounted(t))
  {
    assert !w.forced;
    hide Run, Initial, Accounted, HasLogic;
    InitialInv(w);
    NeverForced(w, ls);
    RecordedIsNeverFree(w, ls);
  }

  // ---------------------------------------------------------------------------
  // One node

  /** Every node named for the volume: by its versions, by the state, or by a logical volume. */
  function Nodes(w: World): set<string> {
    w.bound + w.lvs + (set i | 0 <= i < |w.history| && w.history[i].target.Some? :: w.history[i].target.value)
  }

  lemma InvOneNode(w: World)
    requires Inv(w)
    ensures forall a, b :: a in Nodes(w) && b in Nodes(w) ==> a == b
    ensures Where(w.state, w.uuid).Some? ==> Where(w.state, w.uuid).value in Nodes(w)
  {
    hide Sound, Where, StageOk, Held;
    var last := |w.history| - 1;
    forall i | 0 <= i < |w.history| && w.history[i].target.Some?
      ensures Live(w).target == w.history[i].target
    {
      assert Later(w.history[i], w.history[last]);
    }
  }

  /** Whatever is retried, fails or is read late: one volume never has two nodes. */
  lemma OneNode(w: World, ls: seq<Label>)
    requires Initial(w)
    ensures var t := Run(w, ls);
            && (forall a, b :: a in Nodes(t) && b in Nodes(t) ==> a == b)
            && (Where(t.state, t.uuid).Some? ==> Where(t.state, t.uuid).value in Nodes(t))
  {
    InitialInv(w);
    RunInv(w, ls);
    InvOneNode(Run(w, ls));
  }

  lemma StepKeepsBound(w: World, l: Label)
    requires w.history != []
    ensures w.bound <= Step(w, l).bound && Step(w, l).uuid == w.uuid
  {
    hide CtlStep, AgentStep, StateIndex.Apply, StateIndex.Proper, Without, Live;
    CtlKeepsBound(w, l);
    AgentKeepsBound(w, l);
  }

  lemma CtlKeepsBound(w: World, l: Label)
    requires w.history != []
    ensures w.bound <= CtlStep(w, l).bound && CtlStep(w, l).uuid == w.uuid
  {
    hide StateIndex.Bind, StateIndex.BindError, StateIndex.Unbind, StateIndex.GetVolumeByID, Without, Marked, Begin;
  }

  lemma AgentKeepsBound(w: World, l: Label)
    requires w.history != []
    ensures AgentStep(w, l).bound == w.bound && AgentStep(w, l).uuid == w.uuid
  {
    hide HasLogic, Recorded;
  }

  lemma {:induction false} RunKeepsBound(w: World, ls: seq<Label>)
    requires w.history != []
    ensures w.bound <= Run(w, ls).bound && Run(w, ls).uuid == w.uuid
    decreases |ls|
  {
    hide Step;
    if ls != [] {
      StepKeepsBound(w, ls[0]);
      RunKeepsBound(Step(w, ls[0]), ls[1..]);
    }
  }

  /** Two moments of one run never show the volume bound to different nodes. */
  lemma OneNodeOverTime(w: World, before: seq<Label>, after: seq<Label>)
    requires Initial(w)
    ensures var u := Run(w, before);
            u.history != [] &&
            var t := Run(u, after);
            Where(u.state, u.uuid).Some? && Where(t.state, t.uuid).Some? ==>
              Where(u.state, u.uuid) == Where(t.state, t.uuid)
  {
    InitialInv(w);
    RunInv(w, before);
    var u := Run(w, before);
    Nonempty(u);
    RunInv(u, after);
    RunKeepsBound(u, after);
    hide Sound, Where, StageOk, Held, AgentOk, Versions;
  }

  // ---------------------------------------------------------------------------
  // Giving the space back

  /** Some version of the volume recorded its binding. */
  predicate EverRecorded(w: World) {
    exists i :: 0 <= i < |w.history| && InState in w.history[i].finalizers
  }

  lemma InvGone(w: World)
    requires Inv(w) && w.gone
    ensures Where(w.state, w.uuid).Some? <==> w.bound != {} && !w.forced && !EverRecorded(w)
  {
    hide Sound, Where, Versions, AgentOk;
  }

  /**
   Exactly when a deleted volume keeps its space: it was bound, it was not torn down by force, and none of
   its versions ever recorded the binding.
   */
  lemma GoneStaysBoundExactlyWhen(w: World, ls: seq<Label>)
    requires Initial(w)
    ensures var t := Run(w, ls);
            t.gone ==> (Where(t.state, t.uuid).Some? <==> t.bound != {} && !t.forced && !EverRecorded(t))
  {
    hide Run, Initial, Inv, Where, EverRecorded;
    InitialInv(w);
    Nonempty(w);
    RunInv(w, ls);
    if Run(w, ls).gone {
      InvGone(Run(w, ls));
    }
  }

  /** A recorded logical volume really exists until the volume is deleted. */
  lemma RecordedExists(w: World, ls: seq<Label>)
    requires Initial(w)
    ensures var t := Run(w, ls);
            HasLogic(Live(t)) && !Live(t).deleting ==> Exists(Live(t), t.lvs)
  {
    hide Run, Sound, Where, Placement, Held, StageOk, Initial, HasLogic, Exists;
    InitialInv(w);
    RunInv(w, ls);
  }

  // ---------------------------------------------------------------------------
  // Losing the record

  predicate Lost(w: World)
    requires w.history != []
  {
    LogicVolume !in Live(w).finalizers
  }

  lemma CtlLoses(w: World, l: Label)
    requires Inv(w) && !w.gone && !Lost(w)
    ensures Lost(CtlStep(w, l)) <==>
              || (l.CtlRecord? && w.ctl.Record? && InState !in w.history[w.ctl.i].finalizers)
              || (l.CtlClear? && w.ctl.Clear? && w.ctl.i + 1 == |w.history|)
  {
    hide Sound, Where, Placement, Held, Freed, AgentOk, Begin;
    hide StateIndex.Bind, StateIndex.BindError, StateIndex.Unbind, StateIndex.GetVolumeByID;
    if w.ctl.Record? {
      assert VersionOk(w.history[w.ctl.i], w.name, w.uuid, w.bound);
    }
  }

  lemma AgentLoses(w: World, l: Label)
    requires Inv(w) && !w.gone && !Lost(w) && Exists(Live(w), w.lvs)
    ensures !Lost(AgentStep(w, l))
  {
    hide Sound, Where, Placement, Held, StageOk;
  }

  /**
   The record of an existing logical volume is lost by exactly two kinds of step: the controller
   patching finalizers from a version that did not have the in-state finalizer yet, and the clearing of
   all finalizers, which happens only in a teardown that was forced because the pool was missing.
   */
  lemma LosesRecordExactlyWhen(w: World, l: Label)
    requires Inv(w) && !w.gone && !Lost(w) && Exists(Live(w), w.lvs)
    ensures Lost(Step(w, l)) <==>
              || (l.CtlRecord? && w.ctl.Record? && InState !in w.history[w.ctl.i].finalizers)
              || (l.CtlClear? && w.ctl.Clear? && w.ctl.i + 1 == |w.history|)
    ensures Lost(Step(w, l)) && l.CtlClear? ==> w.forced
  {
    hide Inv, StateIndex.Apply, StateIndex.Proper, CtlStep, AgentStep, Without, Exists;
    if l.CtlClear? && w.ctl.Clear? && w.ctl.i + 1 == |w.history| {
      ForcedClear(w);
    }
    CtlLoses(w, l);
    AgentLoses(w, l);
  }

  lemma ForcedClear(w: World)
    requires Inv(w) && w.ctl.Clear? && w.ctl.i + 1 == |w.history| && HasLogic(Live(w))
    ensures w.forced
  {
    hide Sound, Where, Placement, Held, AgentOk;
  }

  // ---------------------------------------------------------------------------
  // Abandoning a logical volume

  /** A logical volume is on a node although the state counts nothing for it. */
  predicate Abandoned(w: World) { w.lvs != {} && Where(w.state, w.uuid).None? }

  /** The controller lets the space go while a logical volume is there. */
  predicate LetsGo(w: World, l: Label)
    requires Inv(w)
  {
    && l.CtlTeardown? && w.ctl.Teardown? && w.lvs != {}
    && var o := w.history[w.ctl.i];
       o.finalizers == [InState] || (o.target.Some? && o.target.value !in w.pools && l.nilPool)
  }

  /** The agent creates a logical volume from a version it read before the space was let go. */
  predicate CreatesLate(w: World, l: Label)
    requires Inv(w)
  {
    && l.AgentAct? && w.agent.Looked? && Where(w.state, w.uuid).None?
    && var o := w.history[w.agent.i];
       InState in o.finalizers && !o.deleting && !HasLogic(o)
  }

  lemma CtlAbandons(w: World, l: Label)
    requires Inv(w) && !Abandoned(w)
    ensures Abandoned(CtlStep(w, l)) <==> LetsGo(w, l)
  {
    hide Sound, Versions, Held, Freed, AgentOk, HasLogic;
    hide StateIndex.Bind, StateIndex.BindError, StateIndex.Unbind, StateIndex.GetVolumeByID, Where;
    if w.ctl.Teardown? {
      UnbindOurs(w.state, w.name, w.uuid);
    } else if w.ctl.Validate? {
      BindKeeps(w, w.ctl.i, w.history[w.ctl.i].target.value);
    } else if w.ctl.Schedule? && l.CtlSchedule? {
      BindKeeps(w, w.ctl.i, l.node);
    }
  }

  /** A bind never takes the volume out of the state. */
  lemma BindKeeps(w: World, i: nat, n: string)
    requires Inv(w) && i < |w.history|
    ensures Where(w.state, w.uuid).Some? ==> Where(StateIndex.Bind(w.state, n, w.history[i].attrs), w.uuid).Some?
  {
    hide Sound, Versions, Held, Freed, AgentOk, Placement;
  }

  lemma AgentAbandons(w: World, l: Label)
    requires Inv(w) && !Abandoned(w)
    ensures Abandoned(AgentStep(w, l)) <==> CreatesLate(w, l)
  {
    hide Sound, Placement, Held, Freed, StageOk, Where;
    if w.agent.Looked? {
      assert VersionOk(w.history[w.agent.i], w.name, w.uuid, w.bound);
    }
  }

  lemma OtherAbandons(w: World, l: Label)
    requires Inv(w) && !Abandoned(w)
    ensures !Abandoned(OtherStep(w, l))
  {
    hide Versions, Placement, Held, Freed, StageOk, AgentOk, StateIndex.Apply, StateIndex.Proper, Sound, Where;
    if l.StateOp? && StateIndex.Proper(w.state, l.op) && Foreign(l.op, w.name, w.uuid) {
      ForeignKeeps(w.state, l.op, w.name, w.uuid);
    }
  }

  /**
   A step leaves a logical volume without its space being counted if and only if it is the unbinding of a
   deletion pass that reads no record of an existing logical volume, or of one whose pool is reported as
   nil, or the creation of the logical volume from a version read before that unbinding.
   */
  lemma AbandonsExactlyWhen(w: World, l: Label)
    requires Inv(w) && !Abandoned(w)
    ensures Abandoned(Step(w, l)) <==> LetsGo(w, l) || CreatesLate(w, l)
  {
    hide Inv, CtlStep, AgentStep, OtherStep, Abandoned;
    CtlAbandons(w, l);
    AgentAbandons(w, l);
    OtherAbandons(w, l);
  }

  // ---------------------------------------------------------------------------
  // Runs that show what does not hold

  lemma RunCons(w: World, l: Label, ls: seq<Label>)
    requires w.history != []
    ensures Run(w, [l] + ls) == Run(Step(w, l), ls)
  {
    assert ([l] + ls)[1..] == ls;
    hide Step;
  }

  lemma RunOne(w: World, a: Label)
    requires w.history != []
    ensures Run(w, [a]) == Step(w, a)
  {
    assert Run(Step(w, a), [a][1..]) == Step(w, a);
  }

  lemma RunTwo(w: World, a: Label, b: Label)
    requires w.history != []
    ensures Run(w, [a, b]) == Step(Step(w, a), b)
  {
    hide Run, Step;
    RunCons(w, a, [b]);
    RunOne(Step(w, a), b);
    assert [a] + [b] == [a, b];
  }

  lemma RunThree(w: World, a: Label, b: Label, c: Label)
    requires w.history != []
    ensures Run(w, [a, b, c]) == Step(Step(Step(w, a), b), c)
  {
    hide Run, Step;
    RunCons(w, a, [b, c]);
    RunTwo(Step(w, a), b, c);
    assert [a] + [b, c] == [a, b, c];
  }

  /** A node without volumes, and a volume already made out to it. */
  function Fresh(n: string, v: Volume): World {
    World(v.name, v.uuid, [Object(v, Some(n), false, [], false)], false, 0, Idle, Resting,
          StateIndex.State(map[n := NodeState(Pool(n, None, 0, 0, []), [], map[], None)], map[]),
          {n}, {}, {}, false)
  }

  lemma FreshIsInitial(n: string, v: Volume)
    requires n != ""
    ensures Initial(Fresh(n, v))
  {
  }

  /** The first pass: bound, not recorded yet. */
  lemma FirstBind(n: string, v: Volume)
    requires n != "" && v.uuid != ""
    ensures var w := Fresh(n, v);
            var t := Step(Step(w, CacheRead(0)), CtlBind);
            && t == w.(ctl := Record(0), state := StateIndex.Bind(w.state, n, v), bound := {n})
            && Where(t.state, v.uuid) == Some(n)
            && t.state.nodes.Keys == {n} && t.state.nodes[n].volumes == [v.(node := n)]
  {
    var w := Fresh(n, v);
    assert Begin(w.history[0], 0) == Validate(0);
  }

  /** Binding the very same volume again succeeds and leaves it where it is. */
  lemma BindAgain(s: StateIndex.State, n: string, v: Volume)
    requires n in s.nodes && v.uuid != "" && s.nodes[n].volumes == [v.(node := n)]
    ensures StateIndex.BindError(s, n, v).None?
  {
    assert !Clash(s.nodes[n].volumes, v, 0);
  }

  lemma StepRecord(w: World, i: nat)
    requires w.ctl == Record(i) && i < |w.history| && !w.gone && InState !in w.history[i].finalizers
    ensures Step(w, CtlRecord) == w.(ctl := Idle,
              history := w.history + [Marked(Live(w), w.history[i])])
  {
  }

  lemma StepCreate(w: World)
    requires w.history != [] && !w.gone && w.agent == Resting && Live(w).target.Some?
    requires InState in Live(w).finalizers && !Live(w).deleting && !HasLogic(Live(w))
    ensures Step(w, AgentRead) == w.(agent := Looked(|w.history| - 1))
    ensures Step(Step(w, AgentRead), AgentAct) ==
              w.(agent := Created(|w.history| - 1), lvs := w.lvs + {Live(w).target.value})
  {
  }

  lemma StepAgentRecord(w: World, i: nat)
    requires w.agent == Created(i) && i < |w.history| && !w.gone
    ensures Step(w, AgentWrite) ==
              if i + 1 != |w.history| then w.(agent := Resting)
              else w.(agent := Resting,
                      history := w.history + [Live(w).(finalizers := Live(w).finalizers + [LogicVolume])])
  {
  }

  /** Bound, recorded, and the logical volume created but not recorded yet. */
  ghost predicate CreatedAt(t: World, n: string, v: Volume) {
    && t.ctl == Idle && t.seen == 0 && !t.gone && !t.forced && t.agent == Created(1)
    && t.name == v.name && t.uuid == v.uuid && t.lvs == {n}
    && t.history == [Object(v, Some(n), false, [], false), Object(v, Some(n), true, [InState], false)]
    && n in t.state.nodes && t.state.nodes[n].volumes == [v.(node := n)] && Where(t.state, v.uuid) == Some(n)
  }

  /** The run to `CreatedAt`. */
  ghost function Create(n: string, v: Volume): World {
    Run(Run(Fresh(n, v), [CacheRead(0), CtlBind]), [CtlRecord, AgentRead, AgentAct])
  }

  lemma Creates(n: string, v: Volume)
    requires n != "" && v.uuid != ""
    ensures CreatedAt(Create(n, v), n, v)
  {
    var w := Fresh(n, v);
    FirstBind(n, v);
    hide Step, StateIndex.Bind, Run, Where;
    RunTwo(w, CacheRead(0), CtlBind);
    var t := Run(w, [CacheRead(0), CtlBind]);
    RunThree(t, CtlRecord, AgentRead, AgentAct);
    StepRecord(t, 0);
    var r := Step(t, CtlRecord);
    assert t.history[0].finalizers + [InState] == [InState];
    assert r.history == [Object(v, Some(n), false, [], false), Object(v, Some(n), true, [InState], false)];
    StepCreate(r);
    assert {} + {n} == {n};
    assert Create(n, v) == r.(agent := Created(1), lvs := {n});
  }

  /** A stale version is read again: the volume is bound again and its finalizers are about to be overwritten. */
  lemma ReadsAgain(w: World, n: string, v: Volume)
    requires w.history != [] && w.history[0] == Object(v, Some(n), false, [], false) && w.ctl == Idle && w.seen == 0
    requires n in w.state.nodes && v.uuid != "" && w.state.nodes[n].volumes == [v.(node := n)]
    ensures var t := Step(Step(w, CacheRead(0)), CtlBind);
            t == w.(ctl := Record(0), state := StateIndex.Bind(w.state, n, v), bound := w.bound + {n})
  {
    BindAgain(w.state, n, v);
    hide StateIndex.Bind, StateIndex.BindError;
  }

  lemma AgentRecords(c: World, n: string, v: Volume)
    requires CreatedAt(c, n, v)
    ensures Run(c, [AgentWrite]) == c.(agent := Resting,
              history := c.history + [Object(v, Some(n), true, [InState, LogicVolume], false)])
  {
    hide Step, Run;
    RunOne(c, AgentWrite);
    StepAgentRecord(c, 1);
    assert Live(c).finalizers + [LogicVolume] == [InState, LogicVolume];
  }

  lemma RecordsAgain(u: World, n: string, v: Volume)
    requires u.history != [] && u.history[0] == Object(v, Some(n), false, [], false)
    requires u.ctl == Idle && u.seen == 0 && !u.gone
    requires n in u.state.nodes && v.uuid != "" && u.state.nodes[n].volumes == [v.(node := n)]
    ensures var t := Run(u, [CacheRead(0), CtlBind, CtlRecord]);
            !t.gone && t.lvs == u.lvs && t.history == u.history + [Live(u).(labelled := true, finalizers := [InState])]
  {
    ReadsAgain(u, n, v);
    hide Step, Run, StateIndex.Bind;
    RunThree(u, CacheRead(0), CtlBind, CtlRecord);
    StepRecord(Step(Step(u, CacheRead(0)), CtlBind), 0);
    assert u.history[0].finalizers + [InState] == [InState];
  }

  /** A late read of the controller's own cache does erase the record of an existing logical volume. */
  lemma StaleReadErases(n: string, v: Volume)
    requires n != "" && v.uuid != ""
    ensures Initial(Fresh(n, v))
    ensures var u := Run(Create(n, v), [AgentWrite]);
            var t := Run(u, [CacheRead(0), CtlBind, CtlRecord]);
            && !Lost(u) && Lost(t) && !t.gone && !Live(t).deleting && Exists(Live(t), t.lvs)
  {
    FreshIsInitial(n, v);
    Creates(n, v);
    hide Initial, Where, Run, Create, Fresh;
    AgentRecords(Create(n, v), n, v);
    RecordsAgain(Run(Create(n, v), [AgentWrite]), n, v);
  }

  /** Deleted after the binding and before its record: the volume is gone and stays bound. */
  lemma GoneButBound(n: string, v: Volume)
    requires n != "" && v.uuid != ""
    ensures Initial(Fresh(n, v))
    ensures var t := Run(Fresh(n, v), [CacheRead(0), CtlBind, UserDelete]);
            t.gone && Where(t.state, t.uuid) == Some(n)
  {
    FreshIsInitial(n, v);
    FirstBind(n, v);
    var w := Fresh(n, v);
    RunThree(w, CacheRead(0), CtlBind, UserDelete);
    hide StateIndex.Bind, Initial, CtlStep, Run;
  }

  lemma StepDelete(w: World)
    requires w.history != [] && !w.gone && Live(w).finalizers != []
    ensures Step(w, UserDelete) == w.(history := w.history + [Live(w).(deleting := true)])
  {
  }

  lemma StepTeardown(w: World, i: nat)
    requires w.ctl == Idle && w.seen <= i && i + 1 == |w.history| && !w.gone
    requires w.history[i].deleting && w.history[i].finalizers == [InState]
    ensures var t := Step(Step(Step(w, CacheRead(i)), CtlTeardown(false, false)), CtlClear);
            && t == w.(seen := i, state := StateIndex.Unbind(w.state, w.uuid), gone := true,
                       history := w.history + [w.history[i].(finalizers := [])])
            && Where(t.state, w.uuid) ==
                 if StateIndex.UnbindError(w.state, w.uuid).None? then None else Where(w.state, w.uuid)
  {
    hide StateIndex.UnbindError;
  }

  /**
   Deleted between the creation of the logical volume and its record: the object goes, the state lets
   the space go, and the logical volume is still on the node. Only what is recorded is accounted for.
   */
  lemma UnrecordedIsAbandoned(n: string, v: Volume)
    requires n != "" && v.uuid != ""
    ensures Initial(Fresh(n, v))
    ensures var u := Run(Create(n, v), [UserDelete, AgentWrite]);
            var t := Run(u, [CacheRead(2), CtlTeardown(false, false), CtlClear]);
            t.gone && !t.forced && t.lvs == {n} && Where(t.state, t.uuid) == None
  {
    FreshIsInitial(n, v);
    Creates(n, v);
    hide Step, StateIndex.Unbind, Initial, Run, Create;
    var c := Create(n, v);
    RunTwo(c, UserDelete, AgentWrite);
    StepDelete(c);
    StepAgentRecord(Step(c, UserDelete), 1);
    var u := Run(c, [UserDelete, AgentWrite]);
    RunThree(u, CacheRead(2), CtlTeardown(false, false), CtlClear);
    StepTeardown(u, 2);
  }
}
