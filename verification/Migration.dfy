/**
 Live volume migration: one VolumeMigration object shared by three actors.

 - the controller advances the phase; it reads from an informer cache, so any
   recorded version may be what it sees;
 - the agent on the source node attaches the destination bdev, runs the copy task,
   enables autoswitch and takes the pipe down again;
 - the host manager connects the destination path, records that IO has switched and
   disconnects the source path.

 Agent and host read the live object, act on SPDK or on the host, and record
 afterwards; a pass may stop at any point in between.
 */
module Migration {
  import opened Prelude
  import opened HostScan

  // ---------------------------------------------------------------------------
  // The API object

  datatype Phase = NoPhase | Pending | CreatingVolume | SetupPipe | Syncing | Cleaning | Finished
  {
    function Rank(): nat {
      match this
      case NoPhase => 0
      case Pending => 1
      case CreatingVolume => 2
      case SetupPipe => 3
      case Syncing => 4
      case Cleaning => 5
      case Finished => 6
    }
  }

  /** Status.Status: empty, Working, Error, Finished. */
  datatype RunStatus = NoStatus | InWork | Failed | Done

  datatype Connect = Unknown | Connected | Disconnected
  {
    function Rank(): nat {
      match this
      case Unknown => 0
      case Connected => 1
      case Disconnected => 2
    }
  }

  datatype Verdict = NoVerdict | Success | Error

  datatype Target = Target(nqn: string, addr: Addr)

  /** What the object says about a volume; None stands for a field that is still empty. */
  datatype VolumeInfo = VolumeInfo(
    name: Option<string>, node: Option<string>, host: Option<string>, target: Option<Target>)

  /** The value Go reads from a field: the zero value when nothing was stored. */
  function OrZero<T>(o: Option<T>, zero: T): T { if o.Some? then o.value else zero }

  const NO_TARGET := Target("", Addr("", ""))

  datatype TaskStatus = Completed | OtherStatus(name: string)

  datatype JobProgress = JobProgress(status: TaskStatus, rounds: int, elapsed: int)

  /** Entries of metadata.finalizers. */
  datatype Finalizer = PipeFinalizer | HostFinalizer | OtherFinalizer(name: string)

  datatype Object = Object(
    version: nat,
    phase: Phase,
    status: RunStatus,
    nodeLabel: Option<string>,
    source: VolumeInfo,
    dest: VolumeInfo,
    bdev: Option<string>,
    pipe: Connect,
    host: Connect,
    enabled: bool,
    verdict: Verdict,
    progress: JobProgress,
    finalizers: seq<Finalizer>)

  // ---------------------------------------------------------------------------
  // Controller pass

  datatype SourceView =
    | SourceMissing
    | SourceFound(isLvol: bool, mustLocal: bool, ready: bool,
                  node: Option<string>, host: Option<string>, target: Target)

  datatype DestView = DestMissing | DestFound(ready: bool, node: Option<string>, target: Target)

  datatype Write = NoWrite | WriteStatus(m: Object) | WriteSpec(m: Object) | CreateDest(name: string)

  predicate Unfilled(v: VolumeInfo) { v.node == None || v.target == None || v.host == None }

  /** What one controller pass over the object `m` wants written. */
  function ControllerPass(m: Object, src: SourceView, dest: DestView, newName: string): Write {
    if m.status == Failed then NoWrite
    else if m.phase == NoPhase then WriteStatus(m.(phase := Pending, status := InWork))
    else if src.SourceMissing? || !src.isLvol || src.mustLocal then WriteStatus(m.(status := Failed))
    else if !src.ready then WriteStatus(m)
    else if Unfilled(m.source) then
      WriteSpec(m.(source := m.source.(node := src.node, host := src.host, target := Some(src.target))))
    else if m.nodeLabel == None then WriteSpec(m.(nodeLabel := src.node))
    else if m.phase == Pending then WriteStatus(m.(phase := CreatingVolume, status := InWork))
    else if m.dest.name == None then WriteSpec(m.(dest := m.dest.(name := Some(newName), host := src.host)))
    else if dest.DestMissing? then CreateDest(m.dest.name.value)
    else if !dest.ready then NoWrite
    else if m.dest.node == None || m.dest.target == None then
      WriteSpec(m.(dest := m.dest.(node := dest.node, target := Some(dest.target))))
    else PhasePass(m)
  }

  /** The tail of the controller pass, once both volumes are known and ready. */
  function PhasePass(m: Object): Write {
    match m.phase
    case CreatingVolume => WriteStatus(m.(phase := SetupPipe))
    case SetupPipe =>
      if m.pipe != Connected || m.host != Connected then NoWrite
      else WriteStatus(m.(phase := Syncing))
    case Syncing => if m.verdict != Success then NoWrite else WriteStatus(m.(phase := Cleaning))
    case Cleaning =>
      if m.pipe != Disconnected || m.host != Disconnected then NoWrite
      else WriteStatus(m.(phase := Finished, status := Done))
    case _ => NoWrite
  }

  // ---------------------------------------------------------------------------
  // Agent and host writes

  /** SPDK appends "n1" to the controller name, which is the name of the destination volume. */
  function DestBdev(m: Object): string { OrZero(m.dest.name, "") + "n1" }

  function Without(s: seq<Finalizer>, x: Finalizer): (r: seq<Finalizer>)
    ensures x !in r
    ensures forall y :: y != x ==> (y in r <==> y in s)
  {
    if s == [] then [] else Without(s[..|s| - 1], x) + if s[|s| - 1] == x then [] else [s[|s| - 1]]
  }

  function PipeUp(m: Object): Object {
    m.(bdev := Some(DestBdev(m)), pipe := Connected, finalizers := m.finalizers + [PipeFinalizer])
  }

  function PipeDown(m: Object): Object {
    m.(pipe := Disconnected, finalizers := Without(m.finalizers, PipeFinalizer))
  }

  function HostUp(m: Object): Object {
    m.(host := Connected, finalizers := m.finalizers + [HostFinalizer])
  }

  function HostDown(m: Object): Object {
    m.(host := Disconnected, finalizers := Without(m.finalizers, HostFinalizer))
  }

  /** A JSON merge patch over the fields the agent touches while syncing: only changed leaves are present. */
  datatype Patch = Patch(
    enabled: Option<bool>, verdict: Option<Verdict>,
    status: Option<TaskStatus>, rounds: Option<int>, elapsed: Option<int>)

  function Changed<T(==)>(was: T, now: T): Option<T> { if was == now then None else Some(now) }

  function Patched<T>(v: T, p: Option<T>): T { if p.Some? then p.value else v }

  function DiffPatch(base: Object, now: Object): Patch {
    Patch(Changed(base.enabled, now.enabled), Changed(base.verdict, now.verdict),
          Changed(base.progress.status, now.progress.status),
          Changed(base.progress.rounds, now.progress.rounds),
          Changed(base.progress.elapsed, now.progress.elapsed))
  }

  function ApplyPatch(m: Object, p: Patch): Object {
    m.(enabled := Patched(m.enabled, p.enabled),
       verdict := Patched(m.verdict, p.verdict),
       progress := JobProgress(Patched(m.progress.status, p.status),
                               Patched(m.progress.rounds, p.rounds),
                               Patched(m.progress.elapsed, p.elapsed)))
  }

  function SourceAddr(m: Object): Addr { OrZero(m.source.target, NO_TARGET).addr }

  /** The logical volume of the source, which carries the volume's name. */
  function SourceBdev(m: Object): string { OrZero(m.source.name, "") }

  /** A copy task as SPDK reports it. */
  datatype Task = Task(src: string, dst: Option<string>, progress: JobProgress)

  /** GetMigrationTask: those of the reported tasks that copy from `src`, in order. */
  function OfSource(tasks: seq<Task>, src: string): seq<Task> {
    if tasks == [] then []
    else OfSource(tasks[..|tasks| - 1], src) + if tasks[|tasks| - 1].src == src then [tasks[|tasks| - 1]] else []
  }

  lemma OfSourceNext(tasks: seq<Task>, t: Task, src: string)
    ensures OfSource(tasks + [t], src) == OfSource(tasks, src) + if t.src == src then [t] else []
  {
    assert (tasks + [t])[..|tasks|] == tasks;
  }

  /** SPDK reports new progress of the tasks of one source. */
  function Progressed(tasks: seq<Task>, src: string, p: JobProgress): seq<Task> {
    if tasks == [] then []
    else
      var t := tasks[|tasks| - 1];
      Progressed(tasks[..|tasks| - 1], src, p) + [if t.src == src then t.(progress := p) else t]
  }

  lemma ProgressedNext(tasks: seq<Task>, t: Task, src: string, p: JobProgress)
    ensures Progressed(tasks + [t], src, p)
         == Progressed(tasks, src, p) + [if t.src == src then t.(progress := p) else t]
  {
    assert (tasks + [t])[..|tasks|] == tasks;
  }

  lemma {:induction false} ProgressedOwn(tasks: seq<Task>, src: string, p: JobProgress)
    ensures OfSource(Progressed(tasks, src, p), src) == Progressed(OfSource(tasks, src), src, p)
  {
    if tasks != [] {
      var rest, t := tasks[..|tasks| - 1], tasks[|tasks| - 1];
      ProgressedOwn(rest, src, p);
      OfSourceNext(Progressed(rest, src, p), if t.src == src then t.(progress := p) else t, src);
      ProgressedNext(OfSource(rest, src), t, src, p);
      assert t.src != src ==> OfSource(tasks, src) == OfSource(rest, src);
    }
  }

  /** The object the agent wants recorded after reading `task` while syncing; None: nothing to write yet. */
  function SyncPass(s: Object, task: Task): Option<Object> {
    var m := s.(progress := task.progress);
    if task.progress.status != Completed && task.progress.elapsed - s.progress.elapsed < 10 * 1000 then None
    else if s.enabled then Some(m)
    else if m.progress.rounds > 0 then Some(m.(enabled := true, verdict := NoVerdict))
    else None
  }

  /** `foundTask` after the loop of the cleanup call: only the last reported task decides. */
  function TaskFound(tasks: seq<Task>, src: string, dst: Option<string>): bool {
    tasks != [] && tasks[|tasks| - 1].src == src && tasks[|tasks| - 1].dst == dst
  }

  function NewTask(s: Object): Task { Task(SourceBdev(s), s.bdev, JobProgress(OtherStatus(""), 0, 0)) }

  // ---------------------------------------------------------------------------
  // The world around the object

  datatype DestVolume = Absent | Creating | Ready
  {
    function Rank(): nat { match this case Absent => 0 case Creating => 1 case Ready => 2 }
  }

  datatype AgentPc =
    | AgentIdle
    | AgentLoaded(s: Object)
    | AgentAttached(s: Object)
    | AgentStarting(s: Object)
    | AgentPatching(p: Patch)
    | AgentTaskCleaned(s: Object)
    | AgentDetached(s: Object)

  datatype HostPc =
    | HostIdle
    | HostLoaded(s: Object)
    | HostConnecting(s: Object)
    | HostConnected(s: Object)
    | HostSwitched(s: Object)
    | HostCutting(s: Object, listed: map<Addr, PathState>)
    | HostClosing(s: Object)

  /** Facts about the two volumes that do not change during a migration. */
  datatype Facts = Facts(
    srcNode: Option<string>, srcHost: Option<string>, src: Target, destNode: Option<string>, dest: Target)

  /** The destination volume is created with the NQN of the source, on another node. */
  predicate ValidFacts(f: Facts) {
    && f.srcNode.Some? && f.srcHost.Some? && f.destNode.Some?
    && f.dest.nqn == f.src.nqn
    && f.dest.addr != f.src.addr
  }

  datatype World = World(
    hist: seq<Object>,            // every recorded version of the object, oldest first
    destVol: DestVolume,
    bdevs: set<string>,           // bdevs attached in the source node's SPDK
    tasks: seq<Task>,             // copy tasks SPDK reports, in its order, of any source
    missed: bool,                 // the last cleanup did not see the copy, for another task came last
    autoSwitch: bool,             // SPDK was told to switch by itself
    paths: map<Addr, PathState>,     // the host's paths to the subsystem, with their states
    agent: AgentPc,
    host: HostPc,
    sawWorking: bool)             // some host pass has seen the destination path "working"
  {
    ghost function Cur(): Object
      requires hist != []
    {
      hist[|hist| - 1]
    }

    /** The copy tasks of this migration's source. */
    ghost function Own(): seq<Task>
      requires hist != []
    {
      OfSource(tasks, SourceBdev(Cur()))
    }
  }

  datatype Label =
    | Controller(i: nat, src: SourceView, dest: DestView, newName: string)
    | AgentRead | AgentStep | AgentStop
    | HostRead | HostStep(list: seq<Subsystem>, connectedAs: PathState) | HostStop
    | EnvDest | EnvTask(progress: JobProgress) | EnvForeign(tasks: seq<Task>)
    | EnvPath(addr: Addr, state: PathState) | EnvLose(addr: Addr)

  /** Update: spec and metadata are replaced unless the version is stale; status is left alone. */
  ghost function Update(w: World, m: Object): World
    requires w.hist != []
  {
    if m.version != w.Cur().version then w
    else w.(hist := w.hist + [m.(version := |w.hist|, phase := w.Cur().phase, status := w.Cur().status)])
  }

  /** Status().Update: the status is replaced unless the version is stale; the rest is left alone. */
  ghost function UpdateStatus(w: World, m: Object): World
    requires w.hist != []
  {
    if m.version != w.Cur().version then w
    else w.(hist := w.hist + [w.Cur().(version := |w.hist|, phase := m.phase, status := m.status)])
  }

  /** Patch carries no version, so it always lands. */
  ghost function MergePatch(w: World, p: Patch): World
    requires w.hist != []
  {
    w.(hist := w.hist + [ApplyPatch(w.Cur(), p).(version := |w.hist|)])
  }

  /** Views a controller pass may have of the volumes: true facts, possibly out of date. */
  predicate Truthful(f: Facts, w: World, src: SourceView, dest: DestView) {
    && (src.SourceFound? ==> src.node == f.srcNode && src.host == f.srcHost && src.target == f.src)
    && (dest.DestFound? ==> w.destVol != Absent)
    && (dest.DestFound? && dest.ready ==> w.destVol == Ready && dest.node == f.destNode && dest.target == f.dest)
  }

  ghost function ControllerStep(f: Facts, w: World, l: Label): (r: World)
    requires w.hist != [] && l.Controller?
    ensures r.hist != []
  {
    if l.i >= |w.hist| || !Truthful(f, w, l.src, l.dest) then w
    else
      match ControllerPass(w.hist[l.i], l.src, l.dest, l.newName)
      case NoWrite => w
      case WriteStatus(m) => UpdateStatus(w, m)
      case WriteSpec(m) => Update(w, m)
      case CreateDest(_) => if w.destVol == Absent then w.(destVol := Creating) else w
  }

  /** The agent's first step of a pass that syncs: look at the job. */
  ghost function AgentSync(w: World, s: Object): World {
    var own := OfSource(w.tasks, SourceBdev(s));
    if own == [] then w.(agent := AgentStarting(s))
    else
      var m := SyncPass(s, own[0]);
      if m.None? then w.(agent := AgentIdle)
      else w.(autoSwitch := w.autoSwitch || !s.enabled, agent := AgentPatching(DiffPatch(s, m.value)))
  }

  /** The agent's first step of a pass that cleans up: remove the job. */
  ghost function AgentClean(w: World, s: Object): World {
    var found := TaskFound(w.tasks, SourceBdev(s), s.bdev);
    w.(tasks := if found then w.tasks[..|w.tasks| - 1] else w.tasks,
       missed := !found && OfSource(w.tasks, SourceBdev(s)) != [],
       agent := AgentTaskCleaned(s))
  }

  ghost function AgentDecide(w: World, s: Object): World {
    if s.dest.name == None || w.destVol != Ready then w.(agent := AgentIdle)
    else if s.phase == SetupPipe && s.bdev == None then
      w.(bdevs := w.bdevs + {DestBdev(s)}, agent := AgentAttached(s))
    else if s.phase == Syncing then AgentSync(w, s)
    else if s.phase == Cleaning && s.pipe == Connected then AgentClean(w, s)
    else w.(agent := AgentIdle)
  }

  ghost function AgentAct(w: World): (r: World)
    requires w.hist != []
    ensures r.hist != []
  {
    var idle := w.(agent := AgentIdle);
    match w.agent
    case AgentIdle => w
    case AgentLoaded(s) => AgentDecide(w, s)
    case AgentAttached(s) => Update(idle, PipeUp(s))
    case AgentStarting(s) => idle.(tasks := w.tasks + [NewTask(s)])
    case AgentPatching(p) => MergePatch(idle, p)
    case AgentTaskCleaned(s) => w.(bdevs := w.bdevs - {DestBdev(s)}, agent := AgentDetached(s))
    case AgentDetached(s) => Update(idle, PipeDown(s))
  }

  /** The host's first step of a pass: read the listing and decide what to do. */
  ghost function HostDecide(f: Facts, w: World, s: Object, list: seq<Subsystem>): World {
    var t := OrZero(s.dest.target, NO_TARGET);
    if s.dest.name == None || w.destVol != Ready || !Lists(list, f.dest.nqn, w.paths) then w.(host := HostIdle)
    else if s.phase == SetupPipe && s.host != Connected then
      w.(host := if Flag(list, f.dest.nqn, f.dest.addr, false) then HostConnected(s) else HostConnecting(s))
    else if s.phase == Syncing && s.verdict != Success && s.enabled then
      if Flag(list, t.nqn, t.addr, true) then w.(host := HostSwitched(s), sawWorking := true)
      else w.(host := HostIdle)
    else if s.phase == Cleaning && s.host == Connected then
      var p := SourcePath(list, t.nqn, SourceAddr(s));
      w.(host := if p.None? then HostClosing(s)
                 else if p.value.state != Degraded then HostIdle
                 else HostCutting(s, w.paths))
    else w.(host := HostIdle)
  }

  ghost function HostAct(f: Facts, w: World, list: seq<Subsystem>, connectedAs: PathState): (r: World)
    requires w.hist != []
    ensures r.hist != []
  {
    var idle := w.(host := HostIdle);
    match w.host
    case HostIdle => w
    case HostLoaded(s) => HostDecide(f, w, s, list)
    case HostConnecting(s) => w.(paths := w.paths[f.dest.addr := connectedAs], host := HostConnected(s))
    case HostConnected(s) => Update(idle, HostUp(s))
    case HostSwitched(s) => Update(idle, s.(verdict := Success))
    case HostCutting(s, _) => w.(paths := w.paths - {SourceAddr(s)}, host := HostClosing(s))
    case HostClosing(s) => Update(idle, HostDown(s))
  }

  /** One step of the system; a label that is not possible in `w` changes nothing. */
  ghost function Step(f: Facts, w: World, l: Label): (r: World)
    requires w.hist != []
    ensures r.hist != []
  {
    match l
    case Controller(_, _, _, _) => ControllerStep(f, w, l)
    case AgentRead => if w.agent.AgentIdle? then w.(agent := AgentLoaded(w.Cur())) else w
    case AgentStep => AgentAct(w)
    case AgentStop => w.(agent := AgentIdle)
    case HostRead => if w.host.HostIdle? then w.(host := HostLoaded(w.Cur())) else w
    case HostStep(list, st) => HostAct(f, w, list, st)
    case HostStop => w.(host := HostIdle)
    case EnvDest => if w.destVol == Creating then w.(destVol := Ready) else w
    case EnvTask(p) => w.(tasks := Progressed(w.tasks, SourceBdev(w.Cur()), p))
    // tasks of other sources come, go and change places
    case EnvForeign(ts) => if OfSource(ts, SourceBdev(w.Cur())) == w.Own() then w.(tasks := ts) else w
    case EnvPath(a, st) => if a in w.paths then w.(paths := w.paths[a := st]) else w
    case EnvLose(a) => w.(paths := w.paths - {a})
  }

  ghost function Run(f: Facts, w: World, ls: seq<Label>): (r: World)
    requires w.hist != []
    ensures r.hist != []
    decreases |ls|
  {
    if ls == [] then w
    else Run(f, Step(f, w, ls[0]), ls[1..])
  }

  /** A migration as a user creates it: only the source volume is named. */
  ghost predicate Initial(f: Facts, w: World) {
    && |w.hist| == 1
    && (var m := w.hist[0];
        && m.version == 0 && m.phase in {NoPhase, Pending} && m.status in {NoStatus, InWork}
        && m.nodeLabel == None && Unfilled(m.source)
        && m.dest == VolumeInfo(None, None, None, None)
        && m.bdev == None && m.pipe == Unknown && m.host == Unknown
        && !m.enabled && m.verdict == NoVerdict
        && PipeFinalizer !in m.finalizers && HostFinalizer !in m.finalizers)
    && w.destVol == Absent && w.Own() == [] && !w.missed && !w.autoSwitch
    && w.agent == AgentIdle && w.host == HostIdle && !w.sawWorking
  }
}
