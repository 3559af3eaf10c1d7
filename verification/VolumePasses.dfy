/**
 The reconcile passes of the volume controller and of the node agent as the imperative code they
 are: a volume object read earlier is changed in place, the scheduler's state and the node's engine
 are called on the way, and the result is written back. Each pass that is left alone does what the
 corresponding steps of the life cycle do.
 */
module VolumePasses {
  import opened Prelude
  import opened NodeAccounting
  import StateIndex
  import SchedulerState
  import opened VolumeLifecycle
  import opened VolumeLifecycleRuns

  /** The copy of the object a pass works on. */
  class AntstorVolume {
    var attrs: Volume
    var target: Option<string>
    var labelled: bool
    var finalizers: seq<Finalizer>
    const deleting: bool
    const version: nat

    ghost function Value(): Object
      reads this
    {
      Object(attrs, target, labelled, finalizers, deleting)
    }

    constructor (o: Object, i: nat)
      ensures Value() == o && version == i
    {
      attrs, target, labelled, finalizers := o.attrs, o.target, o.labelled, o.finalizers;
      deleting, version := o.deleting, i;
    }

    method HasFinalizer(f: Finalizer) returns (found: bool)
      ensures found == (f in finalizers)
    {
      found := false;
      for i := 0 to |finalizers|
        invariant found == (f in finalizers[..i])
      {
        if finalizers[i] == f {
          found := true;
          break;
        }
      }
    }

    /** The loop that rebuilds the list without some finalizers. */
    method DropFinalizers(drop: set<Finalizer>)
      modifies this`finalizers
      ensures finalizers == Without(old(finalizers), drop)
    {
      var kept := [];
      for i := 0 to |finalizers|
        invariant finalizers == old(finalizers)
        invariant kept == Without(finalizers[..i], drop)
      {
        assert finalizers[..i + 1][..i] == finalizers[..i];
        if finalizers[i] !in drop { kept := kept + [finalizers[i]]; }
      }
      assert finalizers[..|finalizers|] == finalizers;
      finalizers := kept;
    }
  }

  class ApiServer {
    var history: seq<Object>
    var gone: bool

    constructor (h: seq<Object>)
      ensures history == h && !gone
    {
      history, gone := h, false;
    }

    method Push(o: Object)
      modifies this
      ensures history == old(history) + [o] && gone == (o.deleting && o.finalizers == [])
    {
      history := history + [o];
      gone := o.deleting && o.finalizers == [];
    }

    /** Update: refused unless made from the newest version. */
    method Update(vol: AntstorVolume) returns (ok: bool)
      modifies this
      ensures ok == (!old(gone) && vol.version + 1 == |old(history)|)
      ensures if ok then history == old(history) + [vol.Value()] && gone == (vol.deleting && vol.finalizers == [])
              else history == old(history) && gone == old(gone)
    {
      ok := !gone && vol.version + 1 == |history|;
      if ok { Push(Object(vol.attrs, vol.target, vol.labelled, vol.finalizers, vol.deleting)); }
    }

    /** A merge patch: the fields that are present replace those of whatever version is newest. */
    method Patch(p: Changes) returns (ok: bool)
      requires history != []
      modifies this
      ensures ok == !old(gone)
      ensures var o := Merged(old(history)[|old(history)| - 1], p);
              if ok then history == old(history) + [o] && gone == (o.deleting && o.finalizers == [])
              else history == old(history) && gone == old(gone)
    {
      ok := !gone;
      if ok { Push(Merged(history[|history| - 1], p)); }
    }
  }

  /** The fields of a merge patch the controller may make; None: not in the patch. */
  datatype Changes = Changes(target: Option<string>, labelled: bool, finalizers: Option<seq<Finalizer>>)

  function Merged(o: Object, p: Changes): Object {
    o.(target := if p.target.Some? then p.target else o.target,
       labelled := o.labelled || p.labelled,
       finalizers := if p.finalizers.Some? then p.finalizers.value else o.finalizers)
  }

  /** The part of the world the controller's calls go to. */
  ghost predicate Shows(w: World, api: ApiServer, st: SchedulerState.State)
    reads api, st, st.nodes.Values
  {
    w.history == api.history && w.gone == api.gone && w.state == st.Value()
  }

  /** Two worlds alike in everything a pass reads or writes outside itself. */
  ghost predicate Alike(a: World, b: World) {
    a.history == b.history && a.gone == b.gone && a.state == b.state && a.lvs == b.lvs
  }

  /** An uninterrupted pass over a volume that has its target. */
  ghost function ValidatePass(w: World, i: nat, n: string): World
    requires i < |w.history|
  {
    var o := w.history[i];
    var b := w.(state := StateIndex.Bind(w.state, n, o.attrs));
    if StateIndex.BindError(w.state, n, o.attrs).Some? || (o.labelled && InState in o.finalizers) then b
    else Patch(b, Marked(Live(w), o))
  }

  /**
   An uninterrupted pass over a volume without a target; `choice` is the scheduler's answer, and `report`
   says whether the lack of a node is news to be written to the status.
   */
  ghost function SchedulePass(w: World, i: nat, choice: Option<string>, report: bool): World
    requires i < |w.history|
  {
    var o := w.history[i];
    var found := StateIndex.GetVolumeByID(w.state, w.uuid);
    if found.Ok? && found.value.node != "" then Update(w, i, o.(target := Some(found.value.node)))
    else if choice.None? then if report then Update(w, i, o) else w
    else
      var b := w.(state := StateIndex.Bind(w.state, choice.value, o.attrs));
      if StateIndex.BindError(w.state, choice.value, o.attrs).Some? then b
      else Patch(b, Live(w).(target := choice, labelled := true))
  }

  method ValidateAndMutate(api: ApiServer, st: SchedulerState.State, vol: AntstorVolume, ghost w: World)
    requires st.Valid() && vol.version < |api.history| && vol.Value() == api.history[vol.version]
    requires vol.target.Some? && Shows(w, api, st)
    modifies api, st, st.nodes.Values, vol
    ensures st.Valid() && Shows(ValidatePass(w, vol.version, old(vol.target.value)), api, st)
  {
    hide StateIndex.Bind, StateIndex.BindError, SchedulerState.State.Valid, SchedulerState.State.Value;
    var n := vol.target.value;
    var err := st.BindAntstorVolume(n, vol.attrs);
    if err.Some? { return; }
    var patch := Changes(None, false, None);
    if !vol.labelled {
      vol.labelled := true;
      patch := patch.(labelled := true);
    }
    var found := vol.HasFinalizer(InState);
    if !found {
      vol.finalizers := vol.finalizers + [InState];
      patch := patch.(finalizers := Some(vol.finalizers));
    }
    if patch != Changes(None, false, None) {
      var _ := api.Patch(patch);
    }
  }

  method ScheduleVolume(api: ApiServer, st: SchedulerState.State, vol: AntstorVolume, choice: Option<string>,
                        report: bool, ghost w: World)
    requires st.Valid() && vol.version < |api.history| && vol.Value() == api.history[vol.version]
    requires vol.target.None? && Shows(w, api, st) && w.uuid == vol.attrs.uuid
    modifies api, st, st.nodes.Values, vol
    ensures st.Valid() && Shows(SchedulePass(w, vol.version, choice, report), api, st)
  {
    hide StateIndex.Bind, StateIndex.BindError, StateIndex.GetVolumeByID;
    hide SchedulerState.State.Valid, SchedulerState.State.Value;
    var found := st.GetVolumeByID(vol.attrs.uuid);
    if found.Ok? && found.value.node != "" {
      vol.target := Some(found.value.node);
      var _ := api.Update(vol);
      return;
    }
    if choice.None? {
      if report { var _ := api.Update(vol); }
      return;
    }
    Place(api, st, vol, choice.value, w);
  }

  /** The end of such a pass: bind the volume to the chosen node, and record that. */
  method Place(api: ApiServer, st: SchedulerState.State, vol: AntstorVolume, n: string, ghost w: World)
    requires st.Valid() && vol.version < |api.history| && vol.Value() == api.history[vol.version]
    requires Shows(w, api, st)
    modifies api, st, st.nodes.Values
    ensures var b := w.(state := StateIndex.Bind(w.state, n, vol.attrs));
            && st.Valid()
            && Shows(if StateIndex.BindError(w.state, n, vol.attrs).Some? then b
                     else Patch(b, Live(w).(target := Some(n), labelled := true)), api, st)
  {
    hide StateIndex.Bind, StateIndex.BindError, SchedulerState.State.Valid, SchedulerState.State.Value;
    var err := st.BindAntstorVolume(n, vol.attrs);
    if err.Some? { return; }
    var _ := api.Patch(Changes(Some(n), true, None));
  }

  /** An uninterrupted pass over a volume being deleted. */
  ghost function DeletionPass(w: World, i: nat, overdue: bool, nilPool: bool): World
    requires i < |w.history|
  {
    var o := w.history[i];
    if o.finalizers == [InState] || (o.target.Some? && o.target.value !in w.pools && nilPool) then
      Update(w.(state := StateIndex.Unbind(w.state, w.uuid)), i, o.(finalizers := []))
    else if o.target.Some? && overdue && |o.finalizers| > 1 then
      Update(w, i, o.(finalizers := Without(o.finalizers, {KernelLVol, SpdkTarget})))
    else w
  }

  method HandleDeletion(api: ApiServer, st: SchedulerState.State, vol: AntstorVolume, overdue: bool, nilPool: bool,
                        pools: set<string>, ghost w: World)
    requires st.Valid() && vol.version < |api.history| && vol.Value() == api.history[vol.version]
    requires Shows(w, api, st) && w.uuid == vol.attrs.uuid && w.pools == pools
    modifies api, st, st.nodes.Values, vol
    ensures st.Valid() && Shows(DeletionPass(w, vol.version, overdue, nilPool), api, st)
  {
    hide StateIndex.Unbind, StateIndex.UnbindError;
    if vol.finalizers == [InState] {
      RemoveFromState(api, st, vol);
      return;
    }
    if vol.target.None? { return; }
    if vol.target.value !in pools && nilPool {
      RemoveFromState(api, st, vol);
      return;
    }
    if overdue && |vol.finalizers| > 1 {
      vol.DropFinalizers({KernelLVol, SpdkTarget});
      var _ := api.Update(vol);
    }
  }

  /** Unbind, whatever comes of it, and let the object go. */
  method RemoveFromState(api: ApiServer, st: SchedulerState.State, vol: AntstorVolume)
    requires st.Valid()
    modifies api, st, st.nodes.Values, vol
    ensures st.Valid() && st.nodes == old(st.nodes)
    ensures st.Value() == StateIndex.Unbind(old(st.Value()), old(vol.attrs.uuid))
    ensures if !old(api.gone) && vol.version + 1 == |old(api.history)|
            then api.history == old(api.history) + [old(vol.Value()).(finalizers := [])] && api.gone == vol.deleting
            else api.history == old(api.history) && api.gone == old(api.gone)
  {
    var _ := st.UnbindAntstorVolume(vol.attrs.uuid);
    hide StateIndex.Unbind, StateIndex.UnbindError;
    vol.finalizers := [];
    var _ := api.Update(vol);
  }

  // ---------------------------------------------------------------------------
  // The agent

  /** The nodes that hold a logical volume for this volume. */
  class Engine {
    var nodes: set<string>

    constructor ()
      ensures nodes == {}
    {
      nodes := {};
    }

    method CreateVolume(node: string, rpc: Rpc) returns (ok: bool)
      modifies this
      ensures ok == rpc.Answered? && nodes == if rpc.Refused? then old(nodes) else old(nodes) + {node}
    {
      if !rpc.Refused? { nodes := nodes + {node}; }
      ok := rpc.Answered?;
    }

    method DeleteVolume(node: string, rpc: Rpc) returns (ok: bool)
      modifies this
      ensures ok == rpc.Answered? && nodes == if rpc.Refused? then old(nodes) else old(nodes) - {node}
    {
      if !rpc.Refused? { nodes := nodes - {node}; }
      ok := rpc.Answered?;
    }
  }

  /** A pass of the agent from version `i` that no one disturbs; `rpc` is the fate of its one call on the node. */
  function AgentPass(w: World, i: nat, ready: bool, rpc: Rpc): World
    requires i < |w.history|
  {
    var o := w.history[i];
    var t := ActStep(w, i);
    if (ready && !o.deleting) || rpc.Refused? || t.agent.Resting? then w
    else if rpc.Unanswered? then w.(lvs := t.lvs)
    else Update(w.(lvs := t.lvs), i, o.(finalizers := Recorded(t.agent, o.finalizers)))
  }

  method SyncOneVolume(api: ApiServer, engine: Engine, vol: AntstorVolume, ready: bool, rpc: Rpc, ghost w: World)
    requires vol.version < |api.history| && vol.Value() == api.history[vol.version]
    requires w.history == api.history && w.gone == api.gone && w.lvs == engine.nodes
    modifies api, engine, vol
    ensures var t := AgentPass(w, vol.version, ready, rpc);
            t.history == api.history && t.gone == api.gone && t.lvs == engine.nodes
  {
    var write := Perform(engine, vol, ready, rpc, w);
    hide ActStep, Recorded;
    if write { var _ := api.Update(vol); }
  }

  /** What the pass does on its node and to its copy of the object; `write` tells whether to write that back. */
  method Perform(engine: Engine, vol: AntstorVolume, ready: bool, rpc: Rpc, ghost w: World) returns (write: bool)
    requires vol.version < |w.history| && vol.Value() == w.history[vol.version] && w.lvs == engine.nodes
    modifies engine, vol
    ensures var o, t := old(vol.Value()), ActStep(w, vol.version);
            var idle := (ready && !o.deleting) || t.agent.Resting?;
            && write == (!idle && rpc.Answered?)
            && engine.nodes == (if idle || rpc.Refused? then w.lvs else t.lvs)
            && (write ==> vol.Value() == o.(finalizers := Recorded(t.agent, o.finalizers)))
  {
    var inState := vol.HasFinalizer(InState);
    if !inState || vol.target.None? { return false; }
    if vol.deleting {
      write := TakeDown(engine, vol, rpc, w);
    } else if ready {
      write := false;
    } else {
      write := BringUp(engine, vol, rpc, w);
    }
  }

  method TakeDown(engine: Engine, vol: AntstorVolume, rpc: Rpc, ghost w: World) returns (write: bool)
    requires vol.version < |w.history| && vol.Value() == w.history[vol.version] && w.lvs == engine.nodes
    requires InState in vol.finalizers && vol.target.Some? && vol.deleting
    modifies engine, vol
    ensures var o, t := old(vol.Value()), ActStep(w, vol.version);
            && write == (!t.agent.Resting? && rpc.Answered?)
            && engine.nodes == (if t.agent.Resting? || rpc.Refused? then w.lvs else t.lvs)
            && (write ==> vol.Value() == o.(finalizers := Recorded(t.agent, o.finalizers)))
  {
    hide HasLogic, Without, ActStep, Recorded;
    DeletingAct(w, vol.version);
    var hasTarget := vol.HasFinalizer(SpdkTarget);
    var logic := HasLogicFinalizer(vol);
    if hasTarget {
      vol.DropFinalizers({SpdkTarget});
      write := rpc.Answered?;
    } else if logic {
      write := engine.DeleteVolume(vol.target.value, rpc);
      vol.DropFinalizers(LOGIC_FINALIZERS);
    } else {
      write := false;
    }
  }

  /** The agent's action on a volume being deleted, and what it records. */
  lemma DeletingAct(w: World, i: nat)
    requires i < |w.history|
    requires var o := w.history[i]; InState in o.finalizers && o.target.Some? && o.deleting
    ensures var o := w.history[i];
            ActStep(w, i) ==
              if SpdkTarget in o.finalizers then w.(agent := Hidden(i))
              else if HasLogic(o) then w.(agent := Deleted(i), lvs := w.lvs - {o.target.value})
              else w.(agent := Resting)
    ensures Recorded(Hidden(i), w.history[i].finalizers) == Without(w.history[i].finalizers, {SpdkTarget})
    ensures Recorded(Deleted(i), w.history[i].finalizers) == Without(w.history[i].finalizers, LOGIC_FINALIZERS)
  {
  }

  method BringUp(engine: Engine, vol: AntstorVolume, rpc: Rpc, ghost w: World) returns (write: bool)
    requires vol.version < |w.history| && vol.Value() == w.history[vol.version] && w.lvs == engine.nodes
    requires InState in vol.finalizers && vol.target.Some? && !vol.deleting
    modifies engine, vol
    ensures var o, t := old(vol.Value()), ActStep(w, vol.version);
            && write == (!t.agent.Resting? && rpc.Answered?)
            && engine.nodes == (if t.agent.Resting? || rpc.Refused? then w.lvs else t.lvs)
            && (write ==> vol.Value() == o.(finalizers := Recorded(t.agent, o.finalizers)))
  {
    var logic := HasLogicFinalizer(vol);
    var hasTarget := vol.HasFinalizer(SpdkTarget);
    hide HasLogic, Without;
    if !logic {
      write := engine.CreateVolume(vol.target.value, rpc);
      vol.finalizers := vol.finalizers + [LogicVolume];
    } else if !hasTarget {
      vol.finalizers := vol.finalizers + [SpdkTarget];
      write := rpc.Answered?;
    } else {
      write := false;
    }
  }

  method HasLogicFinalizer(vol: AntstorVolume) returns (r: bool)
    ensures r == HasLogic(vol.Value())
  {
    var a := vol.HasFinalizer(KernelLVol);
    var b := vol.HasFinalizer(SpdkLvol);
    var c := vol.HasFinalizer(LogicVolume);
    r := a || b || c;
  }

  // ---------------------------------------------------------------------------
  // Passes are runs

  lemma Reads(w: World, i: nat)
    requires w.ctl == Idle && w.seen <= i < |w.history|
    ensures Step(w, CacheRead(i)) == w.(seen := i, ctl := Begin(w.history[i], i))
  {
  }

  lemma BindThenRecord(w: World, i: nat)
    requires w.ctl == Validate(i) && i < |w.history| && w.history[i].target.Some?
    ensures Alike(Step(Step(w, CtlBind), CtlRecord), ValidatePass(w, i, w.history[i].target.value))
  {
    hide StateIndex.Bind, StateIndex.BindError, Without;
    var o := w.history[i];
    var t := BindStep(w, i, o.target.value);
    assert Step(w, CtlBind) == t;
    if t.ctl.Record? {
      assert Step(t, CtlRecord) == Patch(t.(ctl := Idle), Marked(Live(w), o));
    } else {
      assert Step(t, CtlRecord) == t;
    }
  }

  lemma ValidatePassIsRun(w: World, i: nat)
    requires w.ctl == Idle && w.seen <= i < |w.history| && !w.history[i].deleting && w.history[i].target.Some?
    ensures Alike(Run(w, [CacheRead(i), CtlBind, CtlRecord]), ValidatePass(w, i, w.history[i].target.value))
  {
    hide ValidatePass, Run, Step;
    RunThree(w, CacheRead(i), CtlBind, CtlRecord);
    Reads(w, i);
    ValidatePassFrom(w, i);
    BindThenRecord(w.(seen := i, ctl := Validate(i)), i);
  }

  lemma ValidatePassFrom(w: World, i: nat)
    requires i < |w.history| && w.history[i].target.Some?
    ensures var n := w.history[i].target.value;
            Alike(ValidatePass(w.(seen := i, ctl := Validate(i)), i, n), ValidatePass(w, i, n))
  {
    hide StateIndex.Bind, StateIndex.BindError;
  }

  lemma PersistOrPlace(t: World)
    requires t.history != [] && (t.ctl.Persist? ==> t.ctl.i < |t.history|)
    ensures t.ctl == Idle ==> Step(Step(t, CtlPersist), CtlPlace) == t
    ensures t.ctl.Persist? ==>
              Step(Step(t, CtlPersist), CtlPlace) ==
              Update(t.(ctl := Idle), t.ctl.i, t.history[t.ctl.i].(target := Some(t.ctl.node)))
    ensures t.ctl.Place? ==>
              Step(Step(t, CtlPersist), CtlPlace) ==
              Patch(t.(ctl := Idle), Live(t).(target := Some(t.ctl.node), labelled := true))
  {
    var u := Step(t, CtlPersist);
    if t.ctl.Persist? {
      assert u.ctl == Idle && Step(u, CtlPlace) == u;
    } else {
      assert u == t;
    }
  }

  lemma Schedules(w: World, i: nat, n: string)
    requires w.ctl == Schedule(i) && i < |w.history|
    ensures Step(w, CtlSchedule(n)) == ScheduleStep(w, i, n)
  {
    hide ScheduleStep;
  }

  lemma SchedulePassIsRun(w: World, i: nat, n: string)
    requires w.ctl == Idle && w.seen <= i < |w.history| && !w.history[i].deleting && w.history[i].target.None?
    ensures Alike(Run(Run(w, [CacheRead(i)]), [CtlSchedule(n), CtlPersist, CtlPlace]),
                  SchedulePass(w, i, Some(n), false))
  {
    hide StateIndex.Bind, StateIndex.BindError, StateIndex.GetVolumeByID, Run, Step, ScheduleStep, SchedulePass;
    RunOne(w, CacheRead(i));
    Reads(w, i);
    var v := w.(seen := i, ctl := Schedule(i));
    RunThree(v, CtlSchedule(n), CtlPersist, CtlPlace);
    Schedules(v, i, n);
    SchedulePassFrom(w, i, n);
    Scheduled(v, i, n);
  }

  /** With no node to choose, the pass only reports, or stops. */
  lemma NoNodePassIsRun(w: World, i: nat, report: bool)
    requires w.ctl == Idle && w.seen <= i < |w.history| && !w.history[i].deleting && w.history[i].target.None?
    requires StateIndex.GetVolumeByID(w.state, w.uuid).Err?
    ensures Alike(Run(w, [CacheRead(i), if report then CtlReport else CtlStop]), SchedulePass(w, i, None, report))
  {
    hide Run, StateIndex.GetVolumeByID, Step;
    RunTwo(w, CacheRead(i), if report then CtlReport else CtlStop);
    Reads(w, i);
    Reports(w.(seen := i, ctl := Schedule(i)), i);
  }

  lemma Reports(w: World, i: nat)
    requires w.ctl == Schedule(i) && i < |w.history|
    ensures Step(w, CtlReport) == Update(w.(ctl := Idle), i, w.history[i]) && Step(w, CtlStop) == w.(ctl := Idle)
  {
  }

  lemma SchedulePassFrom(w: World, i: nat, n: string)
    requires i < |w.history|
    ensures Alike(SchedulePass(w.(seen := i, ctl := Schedule(i)), i, Some(n), false),
                  SchedulePass(w, i, Some(n), false))
  {
    hide StateIndex.Bind, StateIndex.BindError, StateIndex.GetVolumeByID;
  }

  lemma Scheduled(w: World, i: nat, n: string)
    requires i < |w.history|
    ensures Alike(Step(Step(ScheduleStep(w, i, n), CtlPersist), CtlPlace), SchedulePass(w, i, Some(n), false))
  {
    hide StateIndex.Bind, StateIndex.BindError, StateIndex.GetVolumeByID, Step;
    PersistOrPlace(ScheduleStep(w, i, n));
  }

  lemma Clears(t: World)
    requires t.ctl.Clear? && t.ctl.i < |t.history|
    ensures Step(Step(t, CtlClear), CtlPrune)
         == Update(t.(ctl := Idle), t.ctl.i, t.history[t.ctl.i].(finalizers := []))
  {
    var u := Step(t, CtlClear);
    assert u.ctl == Idle && Step(u, CtlPrune) == u;
  }

  lemma Prunes(t: World)
    requires t.ctl.Prune? && t.ctl.i < |t.history|
    ensures var o := t.history[t.ctl.i];
            Step(Step(t, CtlClear), CtlPrune) ==
              Update(t.(ctl := Idle), t.ctl.i, o.(finalizers := Without(o.finalizers, {KernelLVol, SpdkTarget})))
  {
    hide Without;
    assert Step(t, CtlClear) == t;
  }

  lemma RestsAfter(t: World)
    requires t.history != [] && t.ctl == Idle
    ensures Step(Step(t, CtlClear), CtlPrune) == t
  {
    assert Step(t, CtlClear) == t;
  }

  lemma TearsDown(w: World, i: nat, overdue: bool, nilPool: bool)
    requires w.ctl == Teardown(i) && i < |w.history|
    ensures Step(w, CtlTeardown(overdue, nilPool)) == TeardownStep(w, i, overdue, nilPool)
  {
    hide TeardownStep;
  }

  lemma DeletionPassIsRun(w: World, i: nat, overdue: bool, nilPool: bool)
    requires w.ctl == Idle && w.seen <= i < |w.history| && w.history[i].deleting
    ensures Alike(Run(Run(w, [CacheRead(i)]), [CtlTeardown(overdue, nilPool), CtlClear, CtlPrune]),
                  DeletionPass(w, i, overdue, nilPool))
  {
    hide StateIndex.Unbind, Run, Step, TeardownStep, DeletionPass;
    RunOne(w, CacheRead(i));
    Reads(w, i);
    var v := w.(seen := i, ctl := Teardown(i));
    RunThree(v, CtlTeardown(overdue, nilPool), CtlClear, CtlPrune);
    TearsDown(v, i, overdue, nilPool);
    DeletionPassFrom(w, i, overdue, nilPool);
    TornDown(v, i, overdue, nilPool);
  }

  lemma DeletionPassFrom(w: World, i: nat, overdue: bool, nilPool: bool)
    requires i < |w.history|
    ensures Alike(DeletionPass(w.(seen := i, ctl := Teardown(i)), i, overdue, nilPool),
                  DeletionPass(w, i, overdue, nilPool))
  {
    hide StateIndex.Unbind, Without;
  }

  lemma TornDown(w: World, i: nat, overdue: bool, nilPool: bool)
    requires i < |w.history|
    ensures Alike(Step(Step(TeardownStep(w, i, overdue, nilPool), CtlClear), CtlPrune),
                  DeletionPass(w, i, overdue, nilPool))
  {
    hide StateIndex.Unbind, Step, Without, Update, Alike;
    var t, o := TeardownStep(w, i, overdue, nilPool), w.history[i];
    if t.ctl.Clear? {
      Clears(t);
      UpdateAlike(w.(state := t.state), t.(ctl := Idle), i, o.(finalizers := []));
    } else if t.ctl.Prune? {
      Prunes(t);
      UpdateAlike(w, t.(ctl := Idle), i, o.(finalizers := Without(o.finalizers, {KernelLVol, SpdkTarget})));
    } else {
      RestsAfter(t);
      UpdateAlike(w, t, i, o);
    }
  }

  /** A write does the same to two worlds that are alike to the passes. */
  lemma UpdateAlike(a: World, b: World, i: nat, o: Object)
    requires a == b.(ctl := a.ctl, forced := a.forced)
    ensures Alike(b, a) && Alike(Update(b, i, o), Update(a, i, o))
  {
  }

  lemma AgentWrites(t: World)
    requires t.history != [] && (t.agent.Resting? || (!t.agent.Looked? && t.agent.i < |t.history|))
    ensures t.agent.Resting? ==> Step(t, AgentWrite) == t
    ensures !t.agent.Resting? ==>
              Step(t, AgentWrite) ==
              Update(t.(agent := Resting), t.agent.i,
                     t.history[t.agent.i].(finalizers := Recorded(t.agent, t.history[t.agent.i].finalizers)))
  {
  }

  /** The steps of such a pass: cut off by a stop where it ends early. */
  function AgentSteps(o: Object, ready: bool, rpc: Rpc): seq<Label> {
    if (ready && !o.deleting) || rpc.Refused? then [AgentRead, AgentStop]
    else [AgentRead, AgentAct, if rpc.Unanswered? then AgentStop else AgentWrite]
  }

  lemma AgentPassIsRun(w: World, ready: bool, rpc: Rpc)
    requires w.history != [] && w.agent == Resting && !w.gone
    ensures Alike(Run(w, AgentSteps(Live(w), ready, rpc)), AgentPass(w, |w.history| - 1, ready, rpc))
  {
    hide Run, ActStep, Recorded, Update, Alike;
    ActStepFrame(w, |w.history| - 1);
    var steps := AgentSteps(Live(w), ready, rpc);
    if (ready && !Live(w).deleting) || rpc.Refused? {
      assert steps == [AgentRead, AgentStop];
      AgentOnlyReads(w);
    } else if rpc.Unanswered? {
      assert steps == [AgentRead, AgentAct, AgentStop];
      AgentCutOff(w);
    } else {
      assert steps == [AgentRead, AgentAct, AgentWrite];
      AgentWritesBack(w);
    }
  }

  lemma AgentOnlyReads(w: World)
    requires w.history != [] && w.agent == Resting && !w.gone
    ensures Alike(Run(w, [AgentRead, AgentStop]), w)
  {
    hide Run, ActStep, Step;
    AgentActs(w);
    RunTwo(w, AgentRead, AgentStop);
    AgentStops(w.(agent := Looked(|w.history| - 1)));
  }

  lemma AgentCutOff(w: World)
    requires w.history != [] && w.agent == Resting && !w.gone
    ensures var t := ActStep(w, |w.history| - 1);
            Alike(Run(w, [AgentRead, AgentAct, AgentStop]), if t.agent.Resting? then w else w.(lvs := t.lvs))
  {
    hide Run, ActStep, Step;
    var i := |w.history| - 1;
    AgentActs(w);
    ActStepFrame(w, i);
    RunThree(w, AgentRead, AgentAct, AgentStop);
    AgentStops(ActStep(w, i));
  }

  lemma AgentWritesBack(w: World)
    requires w.history != [] && w.agent == Resting && !w.gone
    ensures var i := |w.history| - 1;
            var t, o := ActStep(w, i), w.history[i];
            Alike(Run(w, [AgentRead, AgentAct, AgentWrite]),
                  if t.agent.Resting? then w
                  else Update(w.(lvs := t.lvs), i, o.(finalizers := Recorded(t.agent, o.finalizers))))
  {
    hide Run, ActStep, Step, Recorded;
    var i := |w.history| - 1;
    AgentActs(w);
    ActStepFrame(w, i);
    RunThree(w, AgentRead, AgentAct, AgentWrite);
    Acted(w, i);
  }

  lemma AgentStops(w: World)
    requires w.history != []
    ensures Step(w, AgentStop) == w.(agent := Resting)
  {
  }

  /** What the agent does depends on the version it read and not on its stage. */
  lemma ActStepFrame(w: World, i: nat)
    requires i < |w.history|
    ensures ActStep(w.(agent := Looked(i)), i) == ActStep(w, i)
    ensures ActStep(w, i) == w.(agent := ActStep(w, i).agent, lvs := ActStep(w, i).lvs)
    ensures ActStep(w, i).agent.Resting? ==> ActStep(w, i).lvs == w.lvs
    ensures !ActStep(w, i).agent.Resting? ==> !ActStep(w, i).agent.Looked? && ActStep(w, i).agent.i == i
  {
  }

  lemma AgentActs(w: World)
    requires w.history != [] && w.agent == Resting && !w.gone
    ensures var v := w.(agent := Looked(|w.history| - 1));
            Step(w, AgentRead) == v && Step(v, AgentAct) == ActStep(v, |w.history| - 1)
  {
    hide ActStep;
  }

  lemma Acted(w: World, i: nat)
    requires i < |w.history|
    ensures var o, t := w.history[i], ActStep(w, i);
            Step(t, AgentWrite) ==
              if t.agent.Resting? then t
              else Update(w.(agent := Resting, lvs := t.lvs), i, o.(finalizers := Recorded(t.agent, o.finalizers)))
  {
    ActStepFrame(w, i);
    hide HasLogic, Without, Step, ActStep, Recorded;
    AgentWrites(ActStep(w, i));
  }
}
