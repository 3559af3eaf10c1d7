/**
 The life of one volume: the controller binds it in the scheduler's state and marks it with
 the in-state finalizer, the agent creates the logical volume and the target and marks them,
 and both undo this in reverse when the volume is deleted.

 The object is a history of versions. The controller reads it through a cache that may lag
 but never goes back; the agent reads the newest version. `Update` fails unless made from the
 newest version, a merge patch never does. A pass is a sequence of steps, and any number of
 steps of the other actors may come between two of them.
 */
module VolumeLifecycle {
  import opened Prelude
  import opened NodeAccounting
  import opened VolumeBinding

  datatype Finalizer = InState | LogicVolume | KernelLVol | SpdkLvol | SpdkTarget | OtherFinalizer(name: string)

  /** One version of the volume object; `labelled`: it has the label by which the target's agent finds it. */
  datatype Object = Object(
    attrs: Volume, target: Option<string>, labelled: bool, finalizers: seq<Finalizer>, deleting: bool)

  /** Where the controller's pass stands, and the version it works from. */
  datatype Stage =
    | Idle
    | Validate(i: nat)                // about to bind the volume to its target node
    | Record(i: nat)                  // bound, about to patch label and finalizer in
    | Schedule(i: nat)                // no target yet
    | Persist(i: nat, node: string)   // found in state, about to update the target
    | Place(i: nat, node: string)     // newly bound, about to patch the target
    | Teardown(i: nat)
    | Clear(i: nat)                   // unbound, about to remove all finalizers
    | Prune(i: nat)                   // node failure, about to remove some finalizers

  datatype AgentStage =
    | Resting
    | Looked(i: nat)
    | Created(i: nat)
    | Exposed(i: nat)
    | Hidden(i: nat)
    | Deleted(i: nat)

  datatype World = World(
    name: string, uuid: string,
    history: seq<Object>,
    gone: bool,                       // removed from the API server
    seen: nat,                        // newest version the controller has been shown
    ctl: Stage,
    agent: AgentStage,
    state: StateIndex.State,
    pools: set<string>,               // pools the API server knows
    bound: set<string>,               // nodes the volume was ever bound to
    lvs: set<string>,                 // nodes that hold a logical volume for it
    forced: bool)                     // torn down because its pool was missing

  datatype Label =
    | CacheRead(i: nat)
    | CtlBind
    | CtlRecord
    | CtlSchedule(node: string)
    | CtlPersist
    | CtlPlace
    | CtlTeardown(overdue: bool, nilPool: bool)
    | CtlClear
    | CtlPrune
    | CtlReport
    | CtlStop
    | AgentRead
    | AgentAct
    | AgentWrite
    | AgentStop
    | UserDelete
    | UserEdit(attrs: Volume, labelled: bool)
    | AddOther(f: string)
    | DropOther(f: string)
    | StateOp(op: StateIndex.Op)
    | SetPools(pools: set<string>)

  const LOGIC_FINALIZERS := {LogicVolume, KernelLVol, SpdkLvol}

  predicate HasLogic(o: Object) {
    LogicVolume in o.finalizers || KernelLVol in o.finalizers || SpdkLvol in o.finalizers
  }

  /** The finalizers without those of `drop`, in order. */
  function Without(fs: seq<Finalizer>, drop: set<Finalizer>): (r: seq<Finalizer>)
    ensures forall f :: f in r <==> f in fs && f !in drop
  {
    if fs == [] then []
    else Without(fs[..|fs| - 1], drop) + if fs[|fs| - 1] in drop then [] else [fs[|fs| - 1]]
  }

  function Live(w: World): Object
    requires w.history != []
  {
    w.history[|w.history| - 1]
  }

  // ---------------------------------------------------------------------------
  // The API server

  /** A new version; the object disappears when it is being deleted and no finalizer is left. */
  function Push(w: World, o: Object): World {
    w.(history := w.history + [o], gone := o.deleting && o.finalizers == [])
  }

  function Patch(w: World, o: Object): World { if w.gone then w else Push(w, o) }

  function Update(w: World, i: nat, o: Object): World {
    if w.gone || i + 1 != |w.history| then w else Push(w, o)
  }

  // ---------------------------------------------------------------------------
  // The controller

  /** The stage a pass starts in, from the version read. */
  function Begin(o: Object, i: nat): Stage {
    if o.deleting then Teardown(i) else if o.target.Some? then Validate(i) else Schedule(i)
  }

  /** What the patch of a pass that read `o` makes of the newest version: only what `o` lacked is in the patch. */
  function Marked(live: Object, o: Object): Object {
    live.(labelled := live.labelled || !o.labelled,
          finalizers := if InState in o.finalizers then live.finalizers else o.finalizers + [InState])
  }

  /** Bind at the target node; afterwards label and finalizer are patched in unless the version read has both. */
  ghost function BindStep(w: World, i: nat, n: string): World
    requires i < |w.history|
  {
    var o := w.history[i];
    var s := StateIndex.Bind(w.state, n, o.attrs);
    if StateIndex.BindError(w.state, n, o.attrs).Some? then w.(state := s, ctl := Idle)
    else w.(state := s, bound := w.bound + {n},
            ctl := if o.labelled && InState in o.finalizers then Idle else Record(i))
  }

  /** A volume already in state keeps its node; any other is bound to the node the scheduler chose. */
  ghost function ScheduleStep(w: World, i: nat, n: string): World
    requires i < |w.history|
  {
    var o := w.history[i];
    var found := StateIndex.GetVolumeByID(w.state, w.uuid);
    if found.Ok? && found.value.node != "" then w.(ctl := Persist(i, found.value.node))
    else
      var s := StateIndex.Bind(w.state, n, o.attrs);
      if StateIndex.BindError(w.state, n, o.attrs).Some? then w.(state := s, ctl := Idle)
      else w.(state := s, bound := w.bound + {n}, ctl := Place(i, n))
  }

  /**
   handleDeletion up to its write. `overdue`: the deletion is 20 minutes old and the pool is not ready.
   `nilPool`: the client returns no object for a missing pool; one that returns an empty object makes the
   missing pool look like one that is not ready.
   */
  ghost function TeardownStep(w: World, i: nat, overdue: bool, nilPool: bool): World
    requires i < |w.history|
  {
    var o := w.history[i];
    if o.finalizers == [InState] then w.(state := StateIndex.Unbind(w.state, w.uuid), ctl := Clear(i))
    else if o.target.None? then w.(ctl := Idle)
    else if o.target.value !in w.pools && nilPool then
      w.(state := StateIndex.Unbind(w.state, w.uuid), ctl := Clear(i), forced := true)
    else if overdue && |o.finalizers| > 1 then w.(ctl := Prune(i))
    else w.(ctl := Idle)
  }

  // ---------------------------------------------------------------------------
  // The agent

  /** What the agent does on its node after reading version `i`. */
  function ActStep(w: World, i: nat): World
    requires i < |w.history|
  {
    var o := w.history[i];
    if InState !in o.finalizers || o.target.None? then w.(agent := Resting)
    else if o.deleting then
      if SpdkTarget in o.finalizers then w.(agent := Hidden(i))
      else if HasLogic(o) then w.(agent := Deleted(i), lvs := w.lvs - {o.target.value})
      else w.(agent := Resting)
    else if !HasLogic(o) then w.(agent := Created(i), lvs := w.lvs + {o.target.value})
    else if SpdkTarget !in o.finalizers then w.(agent := Exposed(i))
    else w.(agent := Resting)
  }

  /** The finalizers the agent records for what it has just done. */
  function Recorded(a: AgentStage, fs: seq<Finalizer>): seq<Finalizer> {
    match a
    case Created(_) => fs + [LogicVolume]
    case Exposed(_) => fs + [SpdkTarget]
    case Hidden(_) => Without(fs, {SpdkTarget})
    case Deleted(_) => Without(fs, LOGIC_FINALIZERS)
    case _ => fs
  }

  // ---------------------------------------------------------------------------
  // Steps; a label that is not possible in a state changes nothing

  ghost function CtlStep(w: World, l: Label): (r: World)
    requires w.history != []
    ensures r.history != []
  {
    var n := |w.history|;
    match (l, w.ctl)
    case (CacheRead(i), Idle) => if w.seen <= i < n then w.(seen := i, ctl := Begin(w.history[i], i)) else w
    case (CtlBind, Validate(i)) =>
      if i < n && w.history[i].target.Some? then BindStep(w, i, w.history[i].target.value) else w
    case (CtlRecord, Record(i)) =>
      if i < n then Patch(w.(ctl := Idle), Marked(Live(w), w.history[i])) else w
    case (CtlSchedule(m), Schedule(i)) => if i < n then ScheduleStep(w, i, m) else w
    case (CtlPersist, Persist(i, m)) =>
      if i < n then Update(w.(ctl := Idle), i, w.history[i].(target := Some(m))) else w
    case (CtlPlace, Place(_, m)) => Patch(w.(ctl := Idle), Live(w).(target := Some(m), labelled := true))
    case (CtlTeardown(overdue, nilPool), Teardown(i)) => if i < n then TeardownStep(w, i, overdue, nilPool) else w
    case (CtlClear, Clear(i)) => if i < n then Update(w.(ctl := Idle), i, w.history[i].(finalizers := [])) else w
    case (CtlPrune, Prune(i)) =>
      if i < n then
        Update(w.(ctl := Idle), i,
               w.history[i].(finalizers := Without(w.history[i].finalizers, {KernelLVol, SpdkTarget})))
      else w
    // a status is written, or a label that does not matter here
    case (CtlReport, Validate(i)) => if i < n then Update(w.(ctl := Idle), i, w.history[i]) else w
    case (CtlReport, Schedule(i)) => if i < n then Update(w.(ctl := Idle), i, w.history[i]) else w
    case (CtlStop, _) => w.(ctl := Idle)
    case _ => w
  }

  function AgentStep(w: World, l: Label): (r: World)
    requires w.history != []
    ensures r.history != []
  {
    match (l, w.agent)
    case (AgentRead, Resting) => if w.gone then w else w.(agent := Looked(|w.history| - 1))
    case (AgentAct, Looked(i)) => if i < |w.history| then ActStep(w, i) else w
    case (AgentWrite, a) =>
      if !a.Resting? && !a.Looked? && a.i < |w.history| then
        Update(w.(agent := Resting), a.i, w.history[a.i].(finalizers := Recorded(a, w.history[a.i].finalizers)))
      else w
    case (AgentStop, _) => w.(agent := Resting)
    case _ => w
  }

  ghost function OtherStep(w: World, l: Label): (r: World)
    requires w.history != []
    ensures r.history != []
  {
    match l
    case UserDelete => Patch(w, Live(w).(deleting := true))
    case UserEdit(a, b) => Patch(w, Live(w).(attrs := a.(name := w.name, uuid := w.uuid), labelled := b))
    case AddOther(f) => Patch(w, Live(w).(finalizers := Live(w).finalizers + [OtherFinalizer(f)]))
    case DropOther(f) => Patch(w, Live(w).(finalizers := Without(Live(w).finalizers, {OtherFinalizer(f)})))
    case StateOp(op) =>
      if StateIndex.Proper(w.state, op) && Foreign(op, w.name, w.uuid) then w.(state := StateIndex.Apply(w.state, op))
      else w
    case SetPools(ps) => w.(pools := ps)
    case _ => w
  }

  ghost function Step(w: World, l: Label): (r: World)
    requires w.history != []
    ensures r.history != []
  {
    match l
    case CacheRead(_) => CtlStep(w, l)
    case CtlBind => CtlStep(w, l)
    case CtlRecord => CtlStep(w, l)
    case CtlSchedule(_) => CtlStep(w, l)
    case CtlPersist => CtlStep(w, l)
    case CtlPlace => CtlStep(w, l)
    case CtlTeardown(_, _) => CtlStep(w, l)
    case CtlClear => CtlStep(w, l)
    case CtlPrune => CtlStep(w, l)
    case CtlReport => CtlStep(w, l)
    case CtlStop => CtlStep(w, l)
    case AgentRead => AgentStep(w, l)
    case AgentAct => AgentStep(w, l)
    case AgentWrite => AgentStep(w, l)
    case AgentStop => AgentStep(w, l)
    case _ => OtherStep(w, l)
  }

  /** A volume just created: any target, perhaps finalizers of others, nothing bound or created for it. */
  ghost predicate Initial(w: World) {
    && |w.history| == 1 && !w.gone && w.seen == 0 && w.ctl == Idle && w.agent == Resting
    && (forall f :: f in w.history[0].finalizers ==> f.OtherFinalizer?)
    && w.history[0].attrs.name == w.name && w.history[0].attrs.uuid == w.uuid
    && !w.history[0].deleting
    && Sound(w.state, w.name, w.uuid) && Where(w.state, w.uuid) == None
    && w.bound == {} && w.lvs == {} && !w.forced
  }

  ghost function Run(w: World, ls: seq<Label>): (r: World)
    requires w.history != []
    ensures r.history != []
    decreases |ls|
  {
    if ls == [] then w else Run(Step(w, ls[0]), ls[1..])
  }
}
