/**
 The reconcile passes as the three programs run them: each mutates its own copy of the
 object field by field, calls SPDK or the host, and asks the API server for one write.
 Every pass is tied to the step system: undisturbed, it does what the actor's steps do.
 */
module MigrationPasses {
  import opened Prelude
  import opened HostScan
  import opened Migration

  /** A pass's own copy of the VolumeMigration object. */
  class VolumeMigration {
    var version: nat
    var phase: Phase
    var status: RunStatus
    var nodeLabel: Option<string>
    var source: VolumeInfo
    var dest: VolumeInfo
    var bdev: Option<string>
    var pipe: Connect
    var host: Connect
    var enabled: bool
    var verdict: Verdict
    var progress: JobProgress
    var finalizers: seq<Finalizer>

    constructor (m: Object)
      ensures Value() == m
    {
      version, phase, status, nodeLabel := m.version, m.phase, m.status, m.nodeLabel;
      source, dest, bdev, pipe, host := m.source, m.dest, m.bdev, m.pipe, m.host;
      enabled, verdict, progress, finalizers := m.enabled, m.verdict, m.progress, m.finalizers;
    }

    function Value(): Object
      reads this
    {
      Object(version, phase, status, nodeLabel, source, dest, bdev, pipe, host, enabled, verdict, progress, finalizers)
    }

    /** The loop that rebuilds the finalizer list without one entry. */
    method DropFinalizer(x: Finalizer)
      modifies this`finalizers
      ensures finalizers == Without(old(finalizers), x)
    {
      var kept := [];
      for i := 0 to |finalizers|
        invariant finalizers == old(finalizers)
        invariant kept == Without(finalizers[..i], x)
      {
        assert finalizers[..i + 1][..i] == finalizers[..i];
        if finalizers[i] != x {
          kept := kept + [finalizers[i]];
        }
      }
      assert finalizers[..|finalizers|] == finalizers;
      finalizers := kept;
    }
  }

  // ---------------------------------------------------------------------------
  // Controller

  datatype Call = NoCall | StatusUpdate | SpecUpdate | Create(name: string)

  function Requested(c: Call, m: Object): Write {
    match c
    case NoCall => NoWrite
    case StatusUpdate => WriteStatus(m)
    case SpecUpdate => WriteSpec(m)
    case Create(name) => CreateDest(name)
  }

  method ControllerReconcile(mig: VolumeMigration, src: SourceView, dest: DestView, newName: string) returns (c: Call)
    modifies mig
    ensures Requested(c, mig.Value()) == ControllerPass(old(mig.Value()), src, dest, newName)
  {
    if mig.status == Failed { return NoCall; }
    if mig.phase == NoPhase {
      mig.phase := Pending;
      mig.status := InWork;
      return StatusUpdate;
    }
    if src.SourceMissing? || !src.isLvol || src.mustLocal {
      mig.status := Failed;
      return StatusUpdate;
    }
    if !src.ready { return StatusUpdate; }
    if mig.source.node == None || mig.source.target == None || mig.source.host == None {
      mig.source := mig.source.(node := src.node, host := src.host, target := Some(src.target));
      return SpecUpdate;
    }
    if mig.nodeLabel == None {
      mig.nodeLabel := src.node;
      return SpecUpdate;
    }
    if mig.phase == Pending {
      mig.phase := CreatingVolume;
      mig.status := InWork;
      return StatusUpdate;
    }
    if mig.dest.name == None {
      mig.dest := mig.dest.(name := Some(newName), host := src.host);
      return SpecUpdate;
    }
    if dest.DestMissing? { return Create(mig.dest.name.value); }
    if !dest.ready { return NoCall; }
    if mig.dest.node == None || mig.dest.target == None {
      mig.dest := mig.dest.(node := dest.node, target := Some(dest.target));
      return SpecUpdate;
    }
    c := ControllerPhases(mig);
  }

  method ControllerPhases(mig: VolumeMigration) returns (c: Call)
    modifies mig
    ensures Requested(c, mig.Value()) == PhasePass(old(mig.Value()))
  {
    if mig.phase == CreatingVolume {
      mig.phase := SetupPipe;
      return StatusUpdate;
    }
    if mig.phase == SetupPipe {
      if mig.pipe != Connected { return NoCall; }
      if mig.host != Connected { return NoCall; }
    }
    if mig.phase == SetupPipe {
      mig.phase := Syncing;
      return StatusUpdate;
    }
    if mig.phase == Syncing {
      if mig.verdict != Success { return NoCall; }
    }
    if mig.phase == Syncing {
      mig.phase := Cleaning;
      return StatusUpdate;
    }
    if mig.phase == Cleaning {
      if mig.pipe != Disconnected { return NoCall; }
      if mig.host != Disconnected { return NoCall; }
    }
    if mig.phase == Cleaning {
      mig.phase := Finished;
      mig.status := Done;
      return StatusUpdate;
    }
    c := NoCall;
  }

  // ---------------------------------------------------------------------------
  // SPDK as the agent uses it

  class Spdk {
    var bdevs: set<string>
    var tasks: seq<Task>
    var autoSwitch: bool

    /** EnsureMigrationDestBdev: look for the bdev and attach it unless it is there already. */
    method EnsureDestBdev(bdev: string, query: bool, attach: Rpc) returns (ok: bool)
      modifies this`bdevs
      ensures ok == (query && (bdev in old(bdevs) || attach.Answered?))
      ensures bdevs == if query && !attach.Refused? then old(bdevs) + {bdev} else old(bdevs)
    {
      if !query { return false; }
      if bdev in bdevs {
        assert bdevs + {bdev} == bdevs;
        return true;
      }
      if !attach.Refused? { bdevs := bdevs + {bdev}; }
      ok := attach.Answered?;
    }

    /** DetachMigrationDestBdev: a bdev that is not found counts as detached. */
    method DetachDestBdev(bdev: string, query: bool, detach: Rpc) returns (ok: bool)
      modifies this`bdevs
      ensures ok == (query && (bdev !in old(bdevs) || detach.Answered?))
      ensures bdevs == if query && !detach.Refused? then old(bdevs) - {bdev} else old(bdevs)
    {
      if !query { return false; }
      if bdev !in bdevs {
        assert bdevs - {bdev} == bdevs;
        return true;
      }
      if !detach.Refused? { bdevs := bdevs - {bdev}; }
      ok := detach.Answered?;
    }

    /** GetMigrationTask: the loop that keeps the tasks of one source. */
    method GetTasks(src: string) returns (own: seq<Task>)
      ensures own == OfSource(tasks, src)
    {
      own := [];
      for i := 0 to |tasks|
        invariant own == OfSource(tasks[..i], src)
      {
        assert tasks[..i + 1][..i] == tasks[..i];
        if tasks[i].src == src { own := own + [tasks[i]]; }
      }
      assert tasks[..|tasks|] == tasks;
    }

    /** CleanMigrationTask: `found` is overwritten by every reported task, so the last one decides. */
    method CleanTask(src: string, dst: Option<string>, query: bool, cleanup: Rpc) returns (ok: bool)
      modifies this`tasks
      ensures ok == (query && (TaskFound(old(tasks), src, dst) ==> cleanup.Answered?))
      ensures tasks == if query && TaskFound(old(tasks), src, dst) && !cleanup.Refused?
                       then old(tasks)[..|old(tasks)| - 1] else old(tasks)
    {
      if !query { return false; }
      var found := false;
      for i := 0 to |tasks|
        invariant tasks == old(tasks)
        invariant found == (i > 0 && tasks[i - 1].src == src && tasks[i - 1].dst == dst)
      {
        found := tasks[i].src == src && tasks[i].dst == dst;
      }
      if found {
        if !cleanup.Refused? { tasks := tasks[..|tasks| - 1]; }
        return cleanup.Answered?;
      }
      ok := true;
    }
  }

  /** The search the cleanup loop stands for. */
  predicate HasTask(tasks: seq<Task>, src: string, dst: Option<string>) {
    exists i :: 0 <= i < |tasks| && tasks[i].src == src && tasks[i].dst == dst
  }

  /** The flag agrees with the search if and only if the last reported task is the one, or none is. */
  lemma TaskFoundExactlyWhen(tasks: seq<Task>, src: string, dst: Option<string>)
    ensures (TaskFound(tasks, src, dst) <==> HasTask(tasks, src, dst)) <==>
              || !HasTask(tasks, src, dst)
              || (tasks[|tasks| - 1].src == src && tasks[|tasks| - 1].dst == dst)
    ensures |tasks| <= 1 ==> (TaskFound(tasks, src, dst) <==> HasTask(tasks, src, dst))
  {
    if TaskFound(tasks, src, dst) {
      assert tasks[|tasks| - 1].src == src && tasks[|tasks| - 1].dst == dst;
    }
  }

  /** A task that is followed by one of another source, or for another destination, is not seen and stays. */
  lemma TaskCanBeMissed(own: Task, other: Task)
    requires other.src != own.src || other.dst != own.dst
    ensures var tasks := [own, other];
            HasTask(tasks, own.src, own.dst) && !TaskFound(tasks, own.src, own.dst)
  {
    assert [own, other][0] == own;
  }

  // ---------------------------------------------------------------------------
  // Agent

  datatype AgentCall = AgentNothing | AgentUpdate | AgentPatch(p: Patch)

  /** Which of the agent's SPDK calls go well; the two queries have no effect to lose. */
  datatype AgentFaults = AgentFaults(
    bdevs: bool, tasks: bool, attach: Rpc, start: Rpc, config: Rpc, cleanup: Rpc, detach: Rpc)

  /** What one agent pass leaves: object to record, bdevs, tasks, autoswitch setting, request. */
  datatype AgentOut = AgentOut(m: Object, bdevs: set<string>, tasks: seq<Task>, auto: bool, call: AgentCall)

  /** The effect of one agent pass, wherever it fails. */
  function AgentPass(s: Object, destReady: bool, bdevs: set<string>, tasks: seq<Task>, auto: bool, f: AgentFaults)
    : AgentOut
  {
    var nothing := AgentOut(s, bdevs, tasks, auto, AgentNothing);
    if s.dest.name == None || !destReady then nothing
    else if s.phase == SetupPipe && s.bdev == None then SetupPass(nothing, f)
    else if s.phase == Syncing then SyncingPass(nothing, f)
    else if s.phase == Cleaning && s.pipe == Connected then CleaningPass(nothing, f)
    else nothing
  }

  function SetupPass(o: AgentOut, f: AgentFaults): AgentOut {
    var b := DestBdev(o.m);
    if !f.bdevs then o
    else
      var t := if f.attach.Refused? then o else o.(bdevs := o.bdevs + {b});
      if b in o.bdevs || f.attach.Answered? then t.(m := PipeUp(o.m), call := AgentUpdate) else t
  }

  function SyncingPass(o: AgentOut, f: AgentFaults): AgentOut {
    var own := OfSource(o.tasks, SourceBdev(o.m));
    if !f.tasks then o
    else if own == [] then if f.start.Refused? then o else o.(tasks := o.tasks + [NewTask(o.m)])
    else
      var m := SyncPass(o.m, own[0]);
      if m.None? then o
      else if o.m.enabled then o.(m := m.value, call := AgentPatch(DiffPatch(o.m, m.value)))
      else if f.config.Refused? then o
      else if f.config.Unanswered? then o.(auto := true)
      else o.(m := m.value, auto := true, call := AgentPatch(DiffPatch(o.m, m.value)))
  }

  function CleaningPass(o: AgentOut, f: AgentFaults): AgentOut {
    var found := TaskFound(o.tasks, SourceBdev(o.m), o.m.bdev);
    if !f.tasks then o
    else
      var t := if found && !f.cleanup.Refused? then o.(tasks := o.tasks[..|o.tasks| - 1]) else o;
      if (found && !f.cleanup.Answered?) || !f.bdevs then t
      else
        var b := DestBdev(o.m);
        var u := if f.detach.Refused? then t else t.(bdevs := t.bdevs - {b});
        if b !in o.bdevs || f.detach.Answered? then u.(m := PipeDown(o.m), call := AgentUpdate) else u
  }

  /** One agent pass as a method: SPDK is changed in place, `call` says what it asks of the API server. */
  method AgentReconcile(mig: VolumeMigration, spdk: Spdk, destReady: bool, f: AgentFaults) returns (call: AgentCall)
    modifies mig, spdk
    ensures var o := AgentPass(old(mig.Value()), destReady, old(spdk.bdevs), old(spdk.tasks), old(spdk.autoSwitch), f);
            && spdk.bdevs == o.bdevs && spdk.tasks == o.tasks && spdk.autoSwitch == o.auto && call == o.call
            && (call == AgentUpdate ==> mig.Value() == o.m)
  {
    if mig.dest.name == None { return AgentNothing; }
    if !destReady { return AgentNothing; }
    if mig.phase == SetupPipe && mig.bdev == None {
      call := SetUpPipe(mig, spdk, f);
    } else if mig.phase == Syncing {
      call := SyncJob(mig, spdk, f);
    } else if mig.phase == Cleaning && mig.pipe == Connected {
      call := CleanUp(mig, spdk, f);
    } else {
      call := AgentNothing;
    }
  }

  method SetUpPipe(mig: VolumeMigration, spdk: Spdk, f: AgentFaults) returns (call: AgentCall)
    modifies mig, spdk
    ensures var start := AgentOut(old(mig.Value()), old(spdk.bdevs), old(spdk.tasks), old(spdk.autoSwitch),
                                  AgentNothing);
            var o := SetupPass(start, f);
            && spdk.bdevs == o.bdevs && spdk.tasks == o.tasks && spdk.autoSwitch == o.auto && call == o.call
            && (call == AgentUpdate ==> mig.Value() == o.m)
  {
    var name := DestBdev(mig.Value());
    var ok := spdk.EnsureDestBdev(name, f.bdevs, f.attach);
    if !ok { return AgentNothing; }
    mig.bdev := Some(name);
    mig.pipe := Connected;
    mig.finalizers := mig.finalizers + [PipeFinalizer];
    call := AgentUpdate;
  }

  method SyncJob(mig: VolumeMigration, spdk: Spdk, f: AgentFaults) returns (call: AgentCall)
    modifies mig, spdk
    ensures var start := AgentOut(old(mig.Value()), old(spdk.bdevs), old(spdk.tasks), old(spdk.autoSwitch),
                                  AgentNothing);
            var o := SyncingPass(start, f);
            spdk.bdevs == o.bdevs && spdk.tasks == o.tasks && spdk.autoSwitch == o.auto && call == o.call
    ensures call != AgentUpdate
  {
    var base := mig.Value();
    if !f.tasks { return AgentNothing; }
    var own := spdk.GetTasks(SourceBdev(base));
    if own == [] {
      if !f.start.Refused? { spdk.tasks := spdk.tasks + [NewTask(base)]; }
      return AgentNothing;
    }
    var task := own[0];
    mig.progress := task.progress;
    if task.progress.status != Completed && task.progress.elapsed - base.progress.elapsed < 10 * 1000 {
      return AgentNothing;
    }
    if !mig.enabled {
      if mig.progress.rounds > 0 {
        if !f.config.Refused? { spdk.autoSwitch := true; }
        if !f.config.Answered? { return AgentNothing; }
        mig.enabled := true;
        mig.verdict := NoVerdict;
      } else {
        return AgentNothing;
      }
    }
    call := AgentPatch(DiffPatch(base, mig.Value()));
  }

  method CleanUp(mig: VolumeMigration, spdk: Spdk, f: AgentFaults) returns (call: AgentCall)
    modifies mig, spdk
    ensures var start := AgentOut(old(mig.Value()), old(spdk.bdevs), old(spdk.tasks), old(spdk.autoSwitch),
                                  AgentNothing);
            var o := CleaningPass(start, f);
            && spdk.bdevs == o.bdevs && spdk.tasks == o.tasks && spdk.autoSwitch == o.auto && call == o.call
            && (call == AgentUpdate ==> mig.Value() == o.m)
  {
    var ok := spdk.CleanTask(SourceBdev(mig.Value()), mig.bdev, f.tasks, f.cleanup);
    if !ok { return AgentNothing; }
    ok := spdk.DetachDestBdev(DestBdev(mig.Value()), f.bdevs, f.detach);
    if !ok { return AgentNothing; }
    mig.pipe := Disconnected;
    mig.DropFinalizer(PipeFinalizer);
    call := AgentUpdate;
  }

  /** The world after `n` agent steps and a stop. */
  ghost function AgentCut(w: World, n: nat): World
    requires w.hist != []
    decreases n
  {
    if n == 0 then w.(agent := AgentIdle) else AgentCut(AgentAct(w), n - 1)
  }

  ghost function AgentApplied(w: World, o: AgentOut, missed: bool): World
    requires w.hist != []
  {
    var v := w.(bdevs := o.bdevs, tasks := o.tasks, missed := missed, autoSwitch := o.auto, agent := AgentIdle);
    match o.call
    case AgentNothing => v
    case AgentUpdate => Update(v, o.m)
    case AgentPatch(p) => MergePatch(v, p)
  }

  /** How many of its steps a pass completes: a refused call is no step, one whose answer is lost the last. */
  ghost function AgentDone(w: World, f: AgentFaults): nat
    requires w.hist != []
  {
    var s := w.Cur();
    if s.dest.name == None || w.destVol != Ready then 0
    else if s.phase == SetupPipe && s.bdev == None then SetupDone(w, f)
    else if s.phase == Syncing then SyncDone(w, f)
    else if s.phase == Cleaning && s.pipe == Connected then CleanDone(w, f)
    else 0
  }

  ghost function SetupDone(w: World, f: AgentFaults): nat
    requires w.hist != []
  {
    if !f.bdevs then 0
    else if DestBdev(w.Cur()) in w.bdevs || f.attach.Answered? then 2
    else if f.attach.Refused? then 0 else 1
  }

  ghost function SyncDone(w: World, f: AgentFaults): nat
    requires w.hist != []
  {
    if !f.tasks then 0
    else if w.Own() == [] then if f.start.Refused? then 0 else 2
    else if w.Cur().enabled || f.config.Answered? then 2
    else if f.config.Refused? then 0 else 1
  }

  ghost function CleanDone(w: World, f: AgentFaults): nat
    requires w.hist != []
  {
    var found := TaskFound(w.tasks, SourceBdev(w.Cur()), w.Cur().bdev);
    if !f.tasks || (found && f.cleanup.Refused?) then 0
    else if (found && !f.cleanup.Answered?) || !f.bdevs then 1
    else if DestBdev(w.Cur()) !in w.bdevs || f.detach.Answered? then 3
    else if f.detach.Refused? then 1 else 2
  }

  /** Left alone, a pass from a fresh read is a run of `n` agent steps, and then stops. */
  ghost predicate AgentAgrees(w: World, o: AgentOut, n: nat)
    requires w.hist != []
  {
    exists missed :: AgentCut(w, n) == AgentApplied(w, o, missed)
  }

  lemma AgentCuts(w: World)
    requires w.hist != []
    ensures AgentCut(w, 0) == w.(agent := AgentIdle)
    ensures AgentCut(w, 1) == AgentAct(w).(agent := AgentIdle)
    ensures AgentCut(w, 2) == AgentAct(AgentAct(w)).(agent := AgentIdle)
    ensures AgentCut(w, 3) == AgentAct(AgentAct(AgentAct(w))).(agent := AgentIdle)
  {
    hide AgentAct;
    var a, b := AgentAct(w), AgentAct(AgentAct(w));
    assert AgentCut(b, 1) == AgentCut(AgentAct(b), 0);
    assert AgentCut(a, 2) == AgentCut(b, 1) && AgentCut(a, 1) == AgentCut(b, 0);
  }

  /** What a pass finds before its first call. */
  ghost function AgentStart(w: World): AgentOut
    requires w.hist != []
  {
    AgentOut(w.Cur(), w.bdevs, w.tasks, w.autoSwitch, AgentNothing)
  }

  /** The stages of setting up the pipe: attach the bdev, record. */
  lemma AgentSetupSteps(w: World)
    requires w.hist != [] && w.agent == AgentLoaded(w.Cur()) && w.destVol == Ready
    requires w.Cur().dest.name.Some? && w.Cur().phase == SetupPipe && w.Cur().bdev == None
    ensures var s := w.Cur();
            var a := w.(bdevs := w.bdevs + {DestBdev(s)}, agent := AgentIdle);
            AgentCut(w, 0) == w.(agent := AgentIdle) && AgentCut(w, 1) == a && AgentCut(w, 2) == Update(a, PipeUp(s))
  {
    hide AgentCut, AgentSync, AgentClean;
    AgentCuts(w);
  }

  lemma AgentSetupIsSteps(w: World, f: AgentFaults)
    requires w.hist != [] && w.agent == AgentLoaded(w.Cur()) && w.destVol == Ready
    requires w.Cur().dest.name.Some? && w.Cur().phase == SetupPipe && w.Cur().bdev == None
    ensures AgentAgrees(w, SetupPass(AgentStart(w), f), SetupDone(w, f))
  {
    hide AgentCut, PipeUp, Update;
    AgentSetupSteps(w);
    var o, b := SetupPass(AgentStart(w), f), DestBdev(w.Cur());
    var n := SetupDone(w, f);
    assert b in w.bdevs ==> w.bdevs + {b} == w.bdevs;
    assert AgentCut(w, n) == AgentApplied(w, o, w.missed);
  }

  /** The stages of syncing: look at the job, then start it or record its progress. */
  lemma AgentSyncSteps(w: World)
    requires w.hist != [] && w.agent == AgentLoaded(w.Cur()) && w.destVol == Ready
    requires w.Cur().dest.name.Some? && w.Cur().phase == Syncing
    ensures var a := AgentSync(w, w.Cur());
            var idle := a.(agent := AgentIdle);
            && AgentCut(w, 0) == w.(agent := AgentIdle) && AgentCut(w, 1) == idle
            && (a.agent.AgentStarting? ==> AgentCut(w, 2) == idle.(tasks := a.tasks + [NewTask(a.agent.s)]))
            && (a.agent.AgentPatching? ==> AgentCut(w, 2) == MergePatch(idle, a.agent.p))
            && (a.agent.AgentIdle? ==> AgentCut(w, 2) == idle)
  {
    hide AgentCut, AgentSync, AgentClean, ApplyPatch;
    AgentCuts(w);
  }

  lemma AgentSyncIsSteps(w: World, f: AgentFaults)
    requires w.hist != [] && w.agent == AgentLoaded(w.Cur()) && w.destVol == Ready
    requires w.Cur().dest.name.Some? && w.Cur().phase == Syncing
    ensures AgentAgrees(w, SyncingPass(AgentStart(w), f), SyncDone(w, f))
  {
    hide OfSource, SyncPass, DiffPatch, MergePatch, AgentCut;
    AgentSyncSteps(w);
    var o := SyncingPass(AgentStart(w), f);
    var n := SyncDone(w, f);
    assert AgentCut(w, n) == AgentApplied(w, o, w.missed);
  }

  /** The stages of cleaning up: remove the task, detach the bdev, record. */
  lemma AgentCleanSteps(w: World)
    requires w.hist != [] && w.agent == AgentLoaded(w.Cur()) && w.destVol == Ready
    requires w.Cur().dest.name.Some? && w.Cur().phase == Cleaning && w.Cur().pipe == Connected
    ensures var s := w.Cur();
            var a := AgentClean(w, s).(agent := AgentIdle);
            var b := a.(bdevs := a.bdevs - {DestBdev(s)});
            && AgentCut(w, 0) == w.(agent := AgentIdle) && AgentCut(w, 1) == a
            && AgentCut(w, 2) == b && AgentCut(w, 3) == Update(b, PipeDown(s))
  {
    hide AgentCut, OfSource, TaskFound, AgentSync, PipeDown;
    AgentCuts(w);
  }

  lemma AgentCleanIsSteps(w: World, f: AgentFaults)
    requires w.hist != [] && w.agent == AgentLoaded(w.Cur()) && w.destVol == Ready
    requires w.Cur().dest.name.Some? && w.Cur().phase == Cleaning && w.Cur().pipe == Connected
    ensures AgentAgrees(w, CleaningPass(AgentStart(w), f), CleanDone(w, f))
  {
    hide OfSource, AgentCut, PipeDown, Update;
    AgentCleanSteps(w);
    var o, b := CleaningPass(AgentStart(w), f), DestBdev(w.Cur());
    hide TaskFound;
    var n := CleanDone(w, f);
    assert b !in w.bdevs ==> w.bdevs - {b} == w.bdevs;
    assert AgentCut(w, n) == AgentApplied(w, o, if n == 0 then w.missed else AgentClean(w, w.Cur()).missed);
  }

  lemma AgentPassIsSteps(w: World, f: AgentFaults)
    requires w.hist != [] && w.agent == AgentLoaded(w.Cur())
    ensures AgentAgrees(w, AgentPass(w.Cur(), w.destVol == Ready, w.bdevs, w.tasks, w.autoSwitch, f), AgentDone(w, f))
  {
    hide AgentAgrees, SetupPass, SyncingPass, CleaningPass, SetupDone, SyncDone, CleanDone;
    var s := w.Cur();
    if s.dest.name == None || w.destVol != Ready {
      AgentIdles(w);
    } else if s.phase == SetupPipe && s.bdev == None {
      AgentSetupIsSteps(w, f);
    } else if s.phase == Syncing {
      AgentSyncIsSteps(w, f);
    } else if s.phase == Cleaning && s.pipe == Connected {
      AgentCleanIsSteps(w, f);
    } else {
      AgentIdles(w);
    }
  }

  /** A pass with nothing to do. */
  lemma AgentIdles(w: World)
    requires w.hist != []
    ensures AgentAgrees(w, AgentStart(w), 0)
  {
    assert AgentCut(w, 0) == AgentApplied(w, AgentStart(w), w.missed);
  }

  // ---------------------------------------------------------------------------
  // Host

  class HostPaths {
    var paths: map<Addr, PathState>
  }

  /** Which of the host's commands go well. */
  datatype HostFaults = HostFaults(list: bool, connect: Rpc, disconnect: Rpc)

  /** What one host pass leaves: object to record, paths, whether a write is asked for. */
  datatype HostOut = HostOut(m: Object, paths: map<Addr, PathState>, update: bool)

  function HostPass(f: Facts, s: Object, destReady: bool, paths: map<Addr, PathState>, list: seq<Subsystem>,
                    st: PathState, e: HostFaults): HostOut
  {
    var nothing := HostOut(s, paths, false);
    if s.dest.name == None || !destReady then nothing
    else if s.phase == SetupPipe && s.host != Connected then HostSetupPass(f, nothing, list, st, e)
    else if s.phase == Syncing && s.verdict != Success && s.enabled then HostSyncPass(nothing, list, e)
    else if s.phase == Cleaning && s.host == Connected then HostCleanPass(nothing, list, e)
    else nothing
  }

  function HostSetupPass(f: Facts, o: HostOut, list: seq<Subsystem>, st: PathState, e: HostFaults): HostOut {
    if !e.list then o
    else if Flag(list, f.dest.nqn, f.dest.addr, false) then o.(m := HostUp(o.m), update := true)
    else if e.connect.Refused? then o
    else
      var t := o.(paths := o.paths[f.dest.addr := st]);
      if e.connect.Answered? then t.(m := HostUp(o.m), update := true) else t
  }

  function HostSyncPass(o: HostOut, list: seq<Subsystem>, e: HostFaults): HostOut {
    var t := OrZero(o.m.dest.target, NO_TARGET);
    if e.list && Flag(list, t.nqn, t.addr, true) then o.(m := o.m.(verdict := Success), update := true) else o
  }

  function HostCleanPass(o: HostOut, list: seq<Subsystem>, e: HostFaults): HostOut {
    var src := SourceAddr(o.m);
    var p := SourcePath(list, OrZero(o.m.dest.target, NO_TARGET).nqn, src);
    if !e.list || (p.Some? && p.value.state != Degraded) || (p.Some? && e.disconnect.Refused?) then o
    else
      var t := if p.Some? then o.(paths := o.paths - {src}) else o;
      if p.None? || e.disconnect.Answered? then t.(m := HostDown(o.m), update := true) else t
  }

  /** One host pass: `list` is what the host reports, `update` whether a write is asked for. */
  method HostReconcile(f: Facts, mig: VolumeMigration, host: HostPaths, destReady: bool, list: seq<Subsystem>,
                       st: PathState, e: HostFaults)
    returns (update: bool)
    modifies mig, host
    ensures var o := HostPass(f, old(mig.Value()), destReady, old(host.paths), list, st, e);
            host.paths == o.paths && update == o.update && (update ==> mig.Value() == o.m)
  {
    hide Flag, SourcePath, Without;
    if mig.dest.name == None { return false; }
    if !destReady { return false; }

    if mig.phase == SetupPipe && mig.host != Connected {
      if !e.list { return false; }
      var connected := ScanFlag(list, f.dest.nqn, f.dest.addr, false);
      if !connected {
        if !e.connect.Refused? { host.paths := host.paths[f.dest.addr := st]; }
        if !e.connect.Answered? { return false; }
      }
      mig.host := Connected;
      mig.finalizers := mig.finalizers + [HostFinalizer];
      return true;
    }

    if mig.phase == Syncing {
      if mig.verdict != Success && mig.enabled {
        if !e.list { return false; }
        var t := OrZero(mig.dest.target, NO_TARGET);
        var switched := ScanFlag(list, t.nqn, t.addr, true);
        if switched {
          mig.verdict := Success;
          return true;
        }
      }
      return false;
    }

    if mig.phase == Cleaning {
      if mig.host == Connected {
        if !e.list { return false; }
        var src := SourceAddr(mig.Value());
        var p := ScanSource(list, OrZero(mig.dest.target, NO_TARGET).nqn, src);
        if p.Some? && p.value.state != Degraded {
          return false;
        }
        if p.Some? {
          if !e.disconnect.Refused? { host.paths := host.paths - {src}; }
          if !e.disconnect.Answered? { return false; }
        }
        mig.host := Disconnected;
        mig.DropFinalizer(HostFinalizer);
        return true;
      }
    }
    update := false;
  }

  /** The world after `n` host steps that read the same list, and a stop. */
  ghost function HostCut(f: Facts, w: World, list: seq<Subsystem>, st: PathState, n: nat): World
    requires w.hist != []
    decreases n
  {
    if n == 0 then w.(host := HostIdle) else HostCut(f, HostAct(f, w, list, st), list, st, n - 1)
  }

  ghost function HostApplied(w: World, o: HostOut, saw: bool): World
    requires w.hist != []
  {
    var v := w.(paths := o.paths, host := HostIdle, sawWorking := saw);
    if o.update then Update(v, o.m) else v
  }

  /** How many of its steps a pass completes, by the commands it runs. */
  ghost function HostDone(f: Facts, w: World, list: seq<Subsystem>, e: HostFaults): nat
    requires w.hist != []
  {
    var s := w.Cur();
    if s.dest.name == None || w.destVol != Ready || !e.list then 0
    else if s.phase == SetupPipe && s.host != Connected then
      if f.dest.addr in w.paths then 2 else Commanded(e.connect)
    else if s.phase == Syncing && s.verdict != Success && s.enabled then 2
    else if s.phase == Cleaning && s.host == Connected then
      var p := SourcePath(list, OrZero(s.dest.target, NO_TARGET).nqn, SourceAddr(s));
      if p.None? then 2 else if p.value.state != Degraded then 0 else Commanded(e.disconnect)
    else 0
  }

  /** A pass decides, runs its command and records. */
  function Commanded(rpc: Rpc): nat { match rpc case Refused => 0 case Unanswered => 2 case Answered => 3 }

  /** Left alone, a pass from a fresh read is a run of `n` host steps, and then stops. */
  ghost predicate HostAgrees(f: Facts, w: World, o: HostOut, list: seq<Subsystem>, st: PathState, n: nat)
    requires w.hist != []
  {
    exists saw :: HostCut(f, w, list, st, n) == HostApplied(w, o, saw)
  }

  lemma HostCuts(f: Facts, w: World, list: seq<Subsystem>, st: PathState)
    requires w.hist != []
    ensures var a := HostAct(f, w, list, st);
            var b := HostAct(f, a, list, st);
            && HostCut(f, w, list, st, 0) == w.(host := HostIdle)
            && HostCut(f, w, list, st, 1) == a.(host := HostIdle)
            && HostCut(f, w, list, st, 2) == b.(host := HostIdle)
            && HostCut(f, w, list, st, 3) == HostAct(f, b, list, st).(host := HostIdle)
  {
    hide HostAct;
    var a := HostAct(f, w, list, st);
    var b := HostAct(f, a, list, st);
    assert HostCut(f, b, list, st, 1) == HostCut(f, HostAct(f, b, list, st), list, st, 0);
    assert HostCut(f, a, list, st, 2) == HostCut(f, b, list, st, 1);
    assert HostCut(f, a, list, st, 1) == HostCut(f, b, list, st, 0);
  }

  /** The three stages of connecting: decide, connect, record. */
  lemma HostSetupSteps(f: Facts, w: World, list: seq<Subsystem>, st: PathState)
    requires w.hist != [] && w.host == HostLoaded(w.Cur()) && Lists(list, f.dest.nqn, w.paths) && w.destVol == Ready
    requires w.Cur().dest.name.Some? && w.Cur().phase == SetupPipe && w.Cur().host != Connected
    ensures var s := w.Cur();
            var idle := w.(host := HostIdle);
            && HostCut(f, w, list, st, 0) == idle
            && if Flag(list, f.dest.nqn, f.dest.addr, false) then HostCut(f, w, list, st, 2) == Update(idle, HostUp(s))
               else
                 var b := idle.(paths := w.paths[f.dest.addr := st]);
                 HostCut(f, w, list, st, 2) == b && HostCut(f, w, list, st, 3) == Update(b, HostUp(s))
  {
    hide HostCut, Lists, Flag, SourcePath, HostUp;
    HostCuts(f, w, list, st);
  }

  lemma HostSetupIsSteps(f: Facts, w: World, list: seq<Subsystem>, st: PathState, e: HostFaults)
    requires w.hist != [] && w.host == HostLoaded(w.Cur()) && Lists(list, f.dest.nqn, w.paths) && w.destVol == Ready
    requires w.Cur().dest.name.Some? && w.Cur().phase == SetupPipe && w.Cur().host != Connected
    ensures HostAgrees(f, w, HostSetupPass(f, HostOut(w.Cur(), w.paths, false), list, st, e), list, st,
                       HostDone(f, w, list, e))
  {
    hide HostCut, Lists, Flag, HostUp, Update;
    HostSetupSteps(f, w, list, st);
    FlagOfListing(list, f.dest.nqn, w.paths, f.dest.addr, false);
    var o := HostSetupPass(f, HostOut(w.Cur(), w.paths, false), list, st, e);
    assert HostCut(f, w, list, st, HostDone(f, w, list, e)) == HostApplied(w, o, w.sawWorking);
  }

  lemma HostSyncIsSteps(f: Facts, w: World, list: seq<Subsystem>, st: PathState, e: HostFaults)
    requires w.hist != [] && w.host == HostLoaded(w.Cur()) && Lists(list, f.dest.nqn, w.paths) && w.destVol == Ready
    requires var s := w.Cur(); s.dest.name.Some? && s.phase == Syncing && s.verdict != Success && s.enabled
    ensures HostAgrees(f, w, HostSyncPass(HostOut(w.Cur(), w.paths, false), list, e), list, st,
                       HostDone(f, w, list, e))
  {
    hide Lists, Flag;
    HostCuts(f, w, list, st);
    var o := HostSyncPass(HostOut(w.Cur(), w.paths, false), list, e);
    var n := if o.update then 2 else 0;
    assert HostCut(f, w, list, st, n) == HostApplied(w, o, HostCut(f, w, list, st, n).sawWorking);
  }

  /** The stages of closing: decide, cut the source path if it is there, record. */
  lemma HostCleanSteps(f: Facts, w: World, list: seq<Subsystem>, st: PathState)
    requires w.hist != [] && w.host == HostLoaded(w.Cur()) && Lists(list, f.dest.nqn, w.paths) && w.destVol == Ready
    requires w.Cur().dest.name.Some? && w.Cur().phase == Cleaning && w.Cur().host == Connected
    ensures var s := w.Cur();
            var p := SourcePath(list, OrZero(s.dest.target, NO_TARGET).nqn, SourceAddr(s));
            var idle := w.(host := HostIdle);
            && HostCut(f, w, list, st, 0) == idle
            && (p.None? ==> HostCut(f, w, list, st, 2) == Update(idle, HostDown(s)))
            && (p.Some? && p.value.state == Degraded ==>
                  var b := idle.(paths := w.paths - {SourceAddr(s)});
                  HostCut(f, w, list, st, 2) == b && HostCut(f, w, list, st, 3) == Update(b, HostDown(s)))
  {
    hide HostCut, Lists, Flag, SourcePath, HostDown, OrZero;
    HostCuts(f, w, list, st);
  }

  lemma HostCleanIsSteps(f: Facts, w: World, list: seq<Subsystem>, st: PathState, e: HostFaults)
    requires w.hist != [] && w.host == HostLoaded(w.Cur()) && Lists(list, f.dest.nqn, w.paths) && w.destVol == Ready
    requires w.Cur().dest.name.Some? && w.Cur().phase == Cleaning && w.Cur().host == Connected
    ensures HostAgrees(f, w, HostCleanPass(HostOut(w.Cur(), w.paths, false), list, e), list, st,
                       HostDone(f, w, list, e))
  {
    hide HostCut, Lists, SourcePath, HostDown, Update;
    HostCleanSteps(f, w, list, st);
    var s, start := w.Cur(), HostOut(w.Cur(), w.paths, false);
    var p := SourcePath(list, OrZero(s.dest.target, NO_TARGET).nqn, SourceAddr(s));
    hide SourceAddr, OrZero;
    if !e.list || (p.Some? && (p.value.state != Degraded || e.disconnect.Refused?)) {
      assert HostCut(f, w, list, st, 0) == HostApplied(w, start, w.sawWorking);
    } else if p.None? {
      assert HostCut(f, w, list, st, 2) == HostApplied(w, start.(m := HostDown(s), update := true), w.sawWorking);
    } else if e.disconnect.Unanswered? {
      var o := start.(paths := w.paths - {SourceAddr(s)});
      assert HostCut(f, w, list, st, 2) == HostApplied(w, o, w.sawWorking);
    } else {
      var o := start.(paths := w.paths - {SourceAddr(s)}, m := HostDown(s), update := true);
      assert HostCut(f, w, list, st, 3) == HostApplied(w, o, w.sawWorking);
    }
  }

  lemma HostPassIsSteps(f: Facts, w: World, list: seq<Subsystem>, st: PathState, e: HostFaults)
    requires w.hist != [] && w.host == HostLoaded(w.Cur()) && Lists(list, f.dest.nqn, w.paths)
    ensures HostAgrees(f, w, HostPass(f, w.Cur(), w.destVol == Ready, w.paths, list, st, e), list, st,
                       HostDone(f, w, list, e))
  {
    hide Lists, HostSetupPass, HostSyncPass, HostCleanPass, HostAgrees;
    var s := w.Cur();
    if s.dest.name == None || w.destVol != Ready {
      HostIdles(f, w, list, st);
    } else if s.phase == SetupPipe && s.host != Connected {
      HostSetupIsSteps(f, w, list, st, e);
    } else if s.phase == Syncing && s.verdict != Success && s.enabled {
      HostSyncIsSteps(f, w, list, st, e);
    } else if s.phase == Cleaning && s.host == Connected {
      HostCleanIsSteps(f, w, list, st, e);
    } else {
      HostIdles(f, w, list, st);
    }
  }

  /** A pass with nothing to do. */
  lemma HostIdles(f: Facts, w: World, list: seq<Subsystem>, st: PathState)
    requires w.hist != []
    ensures HostAgrees(f, w, HostOut(w.Cur(), w.paths, false), list, st, 0)
  {
    assert HostCut(f, w, list, st, 0) == HostApplied(w, HostOut(w.Cur(), w.paths, false), w.sawWorking);
  }
}
