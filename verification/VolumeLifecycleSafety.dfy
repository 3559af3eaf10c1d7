/**
 What every step of the volume's life keeps: a recorded logical volume is always bound in the
 scheduler's state at its target node, and the volume never has more than one node.
 */
module VolumeLifecycleSafety {
  import opened Prelude
  import opened VolumeBinding
  import opened VolumeLifecycle

  /** How a later version may differ from an earlier one. */
  predicate Later(a: Object, b: Object) {
    && (a.deleting ==> b.deleting)
    && (a.target.Some? ==> b.target == a.target)
    && (a.deleting && !HasLogic(a) ==> !HasLogic(b))
  }

  predicate VersionOk(o: Object, name: string, uuid: string, bound: set<string>) {
    && o.attrs.name == name && o.attrs.uuid == uuid
    && (HasLogic(o) ==> InState in o.finalizers)
    && (InState in o.finalizers ==> o.target.Some? && o.target.value in bound)
  }

  ghost predicate Versions(h: seq<Object>, name: string, uuid: string, bound: set<string>) {
    && h != []
    && (forall i :: 0 <= i < |h| ==> VersionOk(h[i], name, uuid, bound))
    && (forall i, j :: 0 <= i <= j < |h| ==> Later(h[i], h[j]))
  }

  ghost predicate StageOk(h: seq<Object>, seen: nat, ctl: Stage, at: Option<string>, forced: bool) {
    && seen < |h|
    && (ctl.Idle? || ctl.i == seen)
    && match ctl
       case Idle => true
       case Validate(i) => !h[seen].deleting && h[seen].target.Some?
       case Record(i) => !h[seen].deleting && h[seen].target.Some? && at == h[seen].target
       case Schedule(i) => !h[seen].deleting && h[seen].target.None?
       case Persist(i, m) => at == Some(m)
       case Place(i, m) => at == Some(m)
       case Teardown(i) => h[seen].deleting
       case Clear(i) => h[seen].deleting && at.None? && (!forced ==> h[seen].finalizers == [InState])
       case Prune(i) => h[seen].deleting
  }

  /** One node for the volume, wherever a node is named. */
  ghost predicate Placement(h: seq<Object>, seen: nat, at: Option<string>, bound: set<string>)
    requires seen < |h|
  {
    && (forall a, b :: a in bound && b in bound ==> a == b)
    && (forall n :: n in bound ==> h[|h| - 1].target in {None, Some(n)})
    && (at.Some? ==> at.value in bound)
    // once bound it stays bound until a pass has seen the deletion
    && (bound != {} && at.None? ==> h[seen].deleting)
    // no target is written before the volume is bound
    && (bound == {} ==> forall i :: 0 <= i < |h| ==> h[i].target == h[|h| - 1].target)
  }

  /** The in-state finalizer tells the truth, until the last pass of a deletion. */
  ghost predicate Held(h: seq<Object>, gone: bool, seen: nat, at: Option<string>, forced: bool)
    requires seen < |h|
  {
    var o := h[|h| - 1];
    && gone == (o.deleting && o.finalizers == [])
    && (!forced && InState in o.finalizers ==> at == o.target || (h[seen].deleting && !HasLogic(h[seen])))
    // a version with the finalizer is followed by others with it, or by the unbound end
    && (forall i :: 0 <= i < |h| && InState in h[i].finalizers ==>
          InState in o.finalizers || (gone && at.None? && h[seen].deleting))
  }

  /** Once bound, the volume is let go only by a forced teardown or after its binding was recorded. */
  ghost predicate Freed(h: seq<Object>, seen: nat, at: Option<string>, bound: set<string>, forced: bool)
    requires seen < |h|
  {
    && (bound != {} && at.None? && !forced ==> exists i :: 0 <= i < |h| && InState in h[i].finalizers)
    && (forced ==> at.None? && h[seen].deleting)
  }

  predicate Exists(o: Object, lvs: set<string>) { o.target.Some? && o.target.value in lvs }

  /** What is on the node: nothing off the bound node, and what is recorded, until the deletion. */
  ghost predicate AgentOk(h: seq<Object>, a: AgentStage, lvs: set<string>, bound: set<string>)
    requires h != []
  {
    && lvs <= bound
    && (HasLogic(h[|h| - 1]) && !h[|h| - 1].deleting ==> Exists(h[|h| - 1], lvs))
    && (!a.Resting? ==> a.i < |h|)
    && match a
       case Created(i) => !h[i].deleting && InState in h[i].finalizers && Exists(h[i], lvs)
       case Exposed(i) => InState in h[i].finalizers
       case Hidden(i) => InState in h[i].finalizers
       case Deleted(i) => InState in h[i].finalizers && h[i].deleting && !Exists(h[i], lvs)
       case _ => true
  }

  ghost predicate Inv(w: World) {
    var at := Where(w.state, w.uuid);
    && Versions(w.history, w.name, w.uuid, w.bound)
    && StageOk(w.history, w.seen, w.ctl, at, w.forced)
    && Sound(w.state, w.name, w.uuid)
    && Placement(w.history, w.seen, at, w.bound)
    && Held(w.history, w.gone, w.seen, at, w.forced)
    && Freed(w.history, w.seen, at, w.bound, w.forced)
    && AgentOk(w.history, w.agent, w.lvs, w.bound)
  }

  lemma InitialInv(w: World)
    requires Initial(w)
    ensures Inv(w)
  {
  }

  // ---------------------------------------------------------------------------
  // Writes

  /** When a new version may follow the newest one. */
  ghost predicate Fits(w: World, o: Object)
    requires w.history != [] && w.seen < |w.history|
  {
    var last := Live(w);
    var at := Where(w.state, w.uuid);
    && o.attrs.name == w.name && o.attrs.uuid == w.uuid
    && Later(last, o)
    && (HasLogic(o) ==> InState in o.finalizers)
    && (HasLogic(o) && !o.deleting ==> HasLogic(last) || Exists(o, w.lvs))
    && (o.target == last.target || (at.Some? && o.target == at))
    && (InState in last.finalizers ==>
          InState in o.finalizers || (o.deleting && o.finalizers == [] && at.None? && w.history[w.seen].deleting))
    && (InState in o.finalizers && InState !in last.finalizers ==> at.Some? && o.target == at)
  }

  lemma PushVersions(w: World, o: Object)
    requires Inv(w) && Fits(w, o)
    ensures Versions(Push(w, o).history, w.name, w.uuid, w.bound)
  {
    hide Sound, Where;
    var h := w.history + [o];
    forall i, j | 0 <= i <= j < |h| ensures Later(h[i], h[j]) {
      if j == |w.history| && i < j {
        assert Later(w.history[i], Live(w));
      }
    }
    assert VersionOk(Live(w), w.name, w.uuid, w.bound);
  }

  lemma PushInv(w: World, o: Object)
    requires Inv(w) && Fits(w, o) && !w.gone
    ensures Inv(Push(w, o))
  {
    hide Sound, Where;
    PushVersions(w, o);
    var h := w.history + [o];
    var at := Where(w.state, w.uuid);
    assert h[w.seen] == w.history[w.seen];
    assert Placement(h, w.seen, at, w.bound);
    assert Held(h, o.deleting && o.finalizers == [], w.seen, at, w.forced);
    assert Freed(h, w.seen, at, w.bound, w.forced) by {
      assert forall i :: 0 <= i < |w.history| ==> h[i] == w.history[i];
    }
  }

  lemma IdleInv(w: World)
    requires Inv(w)
    ensures Inv(w.(ctl := Idle)) && Inv(w.(agent := Resting))
  {
    hide Sound, Where, Versions, Placement, Held;
  }

  lemma UpdateInv(w: World, i: nat, o: Object)
    requires Inv(w) && (i + 1 == |w.history| ==> Fits(w, o))
    ensures Inv(Update(w, i, o))
  {
    hide Inv, Fits;
    if !w.gone && i + 1 == |w.history| {
      PushInv(w, o);
    }
  }

  lemma PatchInv(w: World, o: Object)
    requires Inv(w) && Fits(w, o)
    ensures Inv(Patch(w, o))
  {
    hide Inv, Fits;
    if !w.gone {
      PushInv(w, o);
    }
  }

  // ---------------------------------------------------------------------------
  // The controller

  lemma CacheReadInv(w: World, i: nat)
    requires Inv(w)
    ensures Inv(CtlStep(w, CacheRead(i)))
  {
    hide Sound, Where, AgentOk;
    if w.ctl.Idle? && w.seen <= i < |w.history| {
      assert Later(w.history[w.seen], w.history[i]);
    }
  }

  /** The state changed, but not for this volume. */
  lemma StateKept(w: World, s: StateIndex.State, ctl: Stage)
    requires Inv(w) && Sound(s, w.name, w.uuid) && Where(s, w.uuid) == Where(w.state, w.uuid)
    requires StageOk(w.history, w.seen, ctl, Where(s, w.uuid), w.forced)
    ensures Inv(w.(state := s, ctl := ctl))
  {
    hide Sound, Where, Versions, Placement, Held, Freed, AgentOk, StageOk;
  }

  /** The volume has just been bound to `n`, by a pass that has not seen a deletion. */
  lemma NowBound(w: World, s: StateIndex.State, n: string, ctl: Stage)
    requires Inv(w) && Sound(s, w.name, w.uuid) && Where(s, w.uuid) == Some(n)
    requires w.bound <= {n} && Live(w).target in {None, Some(n)} && !w.history[w.seen].deleting
    requires StageOk(w.history, w.seen, ctl, Some(n), w.forced)
    ensures Inv(w.(state := s, bound := w.bound + {n}, ctl := ctl))
  {
    hide Sound, Where, StageOk, HasLogic;
    assert VersionOk(Live(w), w.name, w.uuid, w.bound);
  }

  /** The volume has just been unbound, by a pass that has seen the deletion. */
  lemma NowUnbound(w: World, s: StateIndex.State, ctl: Stage, forced: bool)
    requires Inv(w) && Sound(s, w.name, w.uuid) && Where(s, w.uuid) == None
    requires w.history[w.seen].deleting && (w.forced ==> forced)
    requires !forced ==> !HasLogic(w.history[w.seen]) && InState in w.history[w.seen].finalizers
    requires StageOk(w.history, w.seen, ctl, None, forced)
    ensures Inv(w.(state := s, ctl := ctl, forced := forced))
  {
    hide Sound, Where, Versions, AgentOk, HasLogic;
    assert Freed(w.history, w.seen, None, w.bound, forced);
  }

  lemma BindStepInv(w: World, i: nat)
    requires Inv(w) && w.ctl == Validate(i)
    ensures Inv(BindStep(w, i, w.history[i].target.value))
  {
    var o := w.history[i];
    var n := o.target.value;
    assert Later(o, Live(w)) && VersionOk(o, w.name, w.uuid, w.bound);
    assert w.bound <= {n};
    BindOurs(w.state, n, o.attrs);
    hide Sound, Where, StateIndex.Bind, StateIndex.BindError, Inv, Placement, Versions, VersionOk;
    var s := StateIndex.Bind(w.state, n, o.attrs);
    if StateIndex.BindError(w.state, n, o.attrs).Some? {
      StateKept(w, s, Idle);
    } else {
      NowBound(w, s, n, if o.labelled && InState in o.finalizers then Idle else Record(i));
    }
  }

  lemma ScheduleStepInv(w: World, i: nat, n: string)
    requires Inv(w) && w.ctl == Schedule(i)
    ensures Inv(ScheduleStep(w, i, n))
  {
    hide Sound, Where, StateIndex.Bind, StateIndex.BindError, StateIndex.GetVolumeByID;
    var o := w.history[i];
    var at := Where(w.state, w.uuid);
    LookupOurs(w.state, w.name, w.uuid);
    assert VersionOk(o, w.name, w.uuid, w.bound);
    if at.Some? {
      assert at.value != "" by {
        BoundIsCounted(w.state, w.name, w.uuid);
        NodeFacts(w.state, at.value, w.name, w.uuid);
      }
      StateKept(w, w.state, Persist(i, at.value));
    } else {
      assert w.bound == {} && Live(w).target == o.target;
      BindOurs(w.state, n, o.attrs);
      hide Inv, Placement, Versions, VersionOk;
      var s := StateIndex.Bind(w.state, n, o.attrs);
      if StateIndex.BindError(w.state, n, o.attrs).Some? {
        StateKept(w, s, Idle);
      } else {
        NowBound(w, s, n, Place(i, n));
      }
    }
  }

  lemma TeardownStepInv(w: World, i: nat, overdue: bool, nilPool: bool)
    requires Inv(w) && w.ctl == Teardown(i)
    ensures Inv(TeardownStep(w, i, overdue, nilPool))
  {
    hide StateIndex.Unbind, Sound, Where, Placement, Held, AgentOk;
    var o := w.history[i];
    UnbindOurs(w.state, w.name, w.uuid);
    var s := StateIndex.Unbind(w.state, w.uuid);
    hide Inv, Versions;
    if o.finalizers == [InState] {
      NowUnbound(w, s, Clear(i), w.forced);
    } else if o.target.Some? && o.target.value !in w.pools && nilPool {
      NowUnbound(w, s, Clear(i), true);
    } else {
      StateKept(w, w.state, Idle);
      StateKept(w, w.state, Prune(i));
    }
  }

  lemma RecordFits(w: World, i: nat)
    requires Inv(w) && w.ctl == Record(i)
    ensures Fits(w, Marked(Live(w), w.history[i]))
  {
    hide Sound, Where, AgentOk;
    assert Later(w.history[i], Live(w)) && VersionOk(w.history[i], w.name, w.uuid, w.bound);
    assert VersionOk(Live(w), w.name, w.uuid, w.bound);
  }

  lemma TargetFits(w: World, m: string, labelled: bool)
    requires Inv(w) && Where(w.state, w.uuid) == Some(m)
    ensures Fits(w, Live(w).(target := Some(m), labelled := labelled))
  {
    hide Sound, Where, AgentOk;
    assert VersionOk(Live(w), w.name, w.uuid, w.bound);
  }

  lemma ClearFits(w: World, i: nat)
    requires Inv(w) && w.ctl == Clear(i) && i + 1 == |w.history|
    ensures Fits(w, w.history[i].(finalizers := []))
  {
    hide Sound, Where, AgentOk;
    assert VersionOk(Live(w), w.name, w.uuid, w.bound);
  }

  /** Removing finalizers other than the in-state one. */
  lemma WithoutFits(w: World, drop: set<Finalizer>)
    requires Inv(w) && InState !in drop
    requires !Live(w).deleting ==> LOGIC_FINALIZERS !! drop
    ensures Fits(w, Live(w).(finalizers := Without(Live(w).finalizers, drop)))
  {
    hide Sound, Where, AgentOk;
    assert VersionOk(Live(w), w.name, w.uuid, w.bound);
  }

  lemma CtlWriteInv(w: World, l: Label)
    requires Inv(w) && (l.CtlRecord? || l.CtlPersist? || l.CtlPlace? || l.CtlClear? || l.CtlPrune? || l.CtlStop?)
    ensures Inv(CtlStep(w, l))
  {
    hide Sound, Where, Versions, Placement, Held, AgentOk, Fits;
    var v := w.(ctl := Idle);
    IdleInv(w);
    match (l, w.ctl)
    case (CtlRecord, Record(i)) =>
      RecordFits(w, i);
      FitsIdle(w, Marked(Live(w), w.history[i]));
      PatchInv(v, Marked(Live(w), w.history[i]));
    case (CtlPersist, Persist(i, m)) =>
      TargetFits(v, m, Live(w).labelled);
      UpdateInv(v, i, w.history[i].(target := Some(m)));
    case (CtlPlace, Place(_, m)) =>
      TargetFits(v, m, true);
      PatchInv(v, Live(w).(target := Some(m), labelled := true));
    case (CtlClear, Clear(i)) =>
      var o := w.history[i].(finalizers := []);
      if i + 1 == |w.history| {
        ClearFits(w, i);
        FitsIdle(w, o);
      }
      UpdateInv(v, i, o);
    case (CtlPrune, Prune(i)) =>
      if i + 1 == |w.history| {
        WithoutFits(v, {KernelLVol, SpdkTarget});
      }
      UpdateInv(v, i, w.history[i].(finalizers := Without(w.history[i].finalizers, {KernelLVol, SpdkTarget})));
    case _ =>
  }

  lemma FitsIdle(w: World, o: Object)
    requires w.history != [] && w.seen < |w.history| && Fits(w, o)
    ensures Fits(w.(ctl := Idle), o) && Fits(w.(agent := Resting), o)
  {
  }

  // ---------------------------------------------------------------------------
  // The agent and everybody else

  lemma AgentInv(w: World, l: Label)
    requires Inv(w) && (l.AgentRead? || l.AgentAct? || l.AgentStop?)
    ensures Inv(AgentStep(w, l))
  {
    hide Sound, Where, StageOk, Placement, Held;
    if l.AgentAct? && w.agent.Looked? {
      assert VersionOk(w.history[w.agent.i], w.name, w.uuid, w.bound);
    }
  }

  lemma AgentFits(w: World)
    requires Inv(w) && !w.agent.Resting? && !w.agent.Looked? && w.agent.i + 1 == |w.history|
    ensures Fits(w, Live(w).(finalizers := Recorded(w.agent, Live(w).finalizers)))
  {
    hide Sound, Where, StageOk, Placement, Held;
    assert VersionOk(Live(w), w.name, w.uuid, w.bound);
  }

  lemma AgentWriteInv(w: World)
    requires Inv(w)
    ensures Inv(AgentStep(w, AgentWrite))
  {
    var a := w.agent;
    hide Sound, Where, Versions, Placement, Held, Fits;
    IdleInv(w);
    if !a.Resting? && !a.Looked? {
      var o := w.history[a.i].(finalizers := Recorded(a, w.history[a.i].finalizers));
      if a.i + 1 == |w.history| {
        AgentFits(w);
        FitsIdle(w, o);
      }
      UpdateInv(w.(agent := Resting), a.i, o);
    }
  }

  lemma EditFits(w: World, o: Object)
    requires Inv(w) && (Live(w).deleting ==> o.deleting) && o.target == Live(w).target
    requires o.attrs.name == w.name && o.attrs.uuid == w.uuid
    requires forall f :: f in o.finalizers && !f.OtherFinalizer? <==> f in Live(w).finalizers && !f.OtherFinalizer?
    ensures Fits(w, o)
  {
    hide Sound, Where, StageOk, Placement, Held, AgentOk;
    assert VersionOk(Live(w), w.name, w.uuid, w.bound);
  }

  lemma ReportInv(w: World)
    requires Inv(w)
    ensures Inv(CtlStep(w, CtlReport))
  {
    hide Sound, Where, Placement, Held, Freed, AgentOk, Fits;
    assert VersionOk(Live(w), w.name, w.uuid, w.bound);
    var v := w.(ctl := Idle);
    IdleInv(w);
    EditFits(v, Live(v));
    if w.ctl.Validate? || w.ctl.Schedule? {
      UpdateInv(v, w.ctl.i, w.history[w.ctl.i]);
    }
  }

  lemma OtherInv(w: World, l: Label)
    requires Inv(w)
    ensures Inv(OtherStep(w, l))
  {
    hide Fits, Placement, Held, AgentOk;
    assert VersionOk(Live(w), w.name, w.uuid, w.bound);
    match l
    case UserDelete =>
      EditFits(w, Live(w).(deleting := true));
      PatchInv(w, Live(w).(deleting := true));
    case UserEdit(a, b) =>
      EditFits(w, Live(w).(attrs := a.(name := w.name, uuid := w.uuid), labelled := b));
      PatchInv(w, Live(w).(attrs := a.(name := w.name, uuid := w.uuid), labelled := b));
    case AddOther(f) =>
      EditFits(w, Live(w).(finalizers := Live(w).finalizers + [OtherFinalizer(f)]));
      PatchInv(w, Live(w).(finalizers := Live(w).finalizers + [OtherFinalizer(f)]));
    case DropOther(f) =>
      WithoutFits(w, {OtherFinalizer(f)});
      PatchInv(w, Live(w).(finalizers := Without(Live(w).finalizers, {OtherFinalizer(f)})));
    case StateOp(op) =>
      if StateIndex.Proper(w.state, op) && Foreign(op, w.name, w.uuid) {
        ForeignKeeps(w.state, op, w.name, w.uuid);
        hide Sound, Where, StateIndex.Apply, StateIndex.Proper;
        StateKept(w, StateIndex.Apply(w.state, op), w.ctl);
      }
    case _ =>
  }

  lemma StepInv(w: World, l: Label)
    requires Inv(w)
    ensures Inv(Step(w, l))
  {
    hide Sound, Where, Versions, Placement, Held, AgentOk, BindStep, ScheduleStep, TeardownStep;
    match l
    case CacheRead(i) => CacheReadInv(w, i);
    case CtlBind => if w.ctl.Validate? { BindStepInv(w, w.ctl.i); }
    case CtlSchedule(n) => if w.ctl.Schedule? { ScheduleStepInv(w, w.ctl.i, n); }
    case CtlTeardown(overdue, nilPool) => if w.ctl.Teardown? { TeardownStepInv(w, w.ctl.i, overdue, nilPool); }
    case AgentRead => AgentInv(w, l);
    case AgentAct => AgentInv(w, l);
    case AgentStop => AgentInv(w, l);
    case AgentWrite => AgentWriteInv(w);
    case UserDelete => OtherInv(w, l);
    case UserEdit(_, _) => OtherInv(w, l);
    case CtlReport => ReportInv(w);
    case AddOther(_) => OtherInv(w, l);
    case DropOther(_) => OtherInv(w, l);
    case StateOp(_) => OtherInv(w, l);
    case SetPools(_) => OtherInv(w, l);
    case _ => CtlWriteInv(w, l);
  }

  lemma {:induction false} RunInv(w: World, ls: seq<Label>)
    requires Inv(w)
    ensures Inv(Run(w, ls))
    decreases |ls|
  {
    hide Inv, Step;
    if ls != [] {
      assert w.history != [] by { Nonempty(w); }
      StepInv(w, ls[0]);
      RunInv(Step(w, ls[0]), ls[1..]);
    }
  }

  lemma Nonempty(w: World)
    requires Inv(w)
    ensures w.history != []
  {
  }
}
