/**
 Safety of live migration in every interleaving: a non-interference argument. Each
 actor's snapshot stays right about the fields only that actor writes, whatever the
 others record meanwhile.
 */
module MigrationSafety {
  import opened Prelude
  import opened HostScan
  import opened Migration

  // ---------------------------------------------------------------------------
  // What every recorded version satisfies

  predicate Good(f: Facts, m: Object) {
    // volumes are known before they are needed
    && (!Unfilled(m.source) ==> m.source.target == Some(f.src))
    && (m.phase.Rank() >= CreatingVolume.Rank() ==> !Unfilled(m.source) && m.nodeLabel.Some?)
    && (m.phase.Rank() >= SetupPipe.Rank() ==> m.dest.node.Some? && m.dest.target.Some?)
    && (m.dest.node.Some? ==> m.dest.name.Some? && m.dest.target == Some(f.dest))
    // pipe
    && (m.bdev == None <==> m.pipe == Unknown)
    && (m.bdev.Some? ==> m.dest.name.Some? && m.bdev.value == DestBdev(m))
    && (PipeFinalizer in m.finalizers <==> m.pipe == Connected)
    && (HostFinalizer in m.finalizers <==> m.host == Connected)
    // phases
    && (m.phase.Rank() < SetupPipe.Rank() ==> m.pipe == Unknown && m.host == Unknown)
    && (m.phase == SetupPipe ==> m.pipe != Disconnected && m.host != Disconnected)
    && (m.phase == Syncing ==> m.pipe == Connected && m.host == Connected)
    && (m.phase.Rank() >= Cleaning.Rank() ==> m.verdict == Success && m.pipe != Unknown && m.host != Unknown)
    && (m.phase == Finished ==> m.pipe == Disconnected && m.host == Disconnected)
    && (m.enabled ==> m.phase.Rank() >= Syncing.Rank())
    && (m.verdict == Success ==> m.enabled)
    && m.verdict != Error
  }

  /** `a` may be an older version of `b`: nothing the protocol has recorded is undone. */
  predicate Leads(a: Object, b: Object) {
    && a.phase.Rank() <= b.phase.Rank()
    && a.pipe.Rank() <= b.pipe.Rank()
    && a.host.Rank() <= b.host.Rank()
    && (a.enabled ==> b.enabled)
    && (a.verdict == Success ==> b.verdict == Success)
    && (a.dest.name.Some? ==> b.dest.name == a.dest.name)
    && (a.bdev.Some? ==> b.bdev == a.bdev)
    && (a.dest.node.Some? ==> b.dest == a.dest)
    && b.source.name == a.source.name && (!Unfilled(a.source) ==> b.source == a.source)
    && (a.status == Failed ==> b.status == Failed)
  }

  // ---------------------------------------------------------------------------
  // What holds of the whole world

  /** Versions count up, every version is good and each leads to the next. */
  ghost predicate Chain(f: Facts, h: seq<Object>) {
    && h != []
    && h[|h| - 1].version == |h| - 1
    && Good(f, h[|h| - 1])
    && (|h| > 1 ==> Chain(f, h[..|h| - 1]) && Leads(h[|h| - 2], h[|h| - 1]))
  }

  ghost predicate Recorded(h: seq<Object>, s: Object) {
    s.version < |h| && h[s.version] == s
  }

  function Last(h: seq<Object>): Object
    requires h != []
  {
    h[|h| - 1]
  }

  /** Only the agent writes pipe, bdev and enabled, so its snapshot is right about them. */
  ghost predicate AgentOwns(h: seq<Object>, s: Object) {
    Recorded(h, s) && s.pipe == Last(h).pipe && s.bdev == Last(h).bdev && s.enabled == Last(h).enabled
  }

  /** Only the host writes the host status and the verdict. */
  ghost predicate HostOwns(h: seq<Object>, s: Object) {
    Recorded(h, s) && s.host == Last(h).host && s.verdict == Last(h).verdict
  }

  ghost predicate AgentInv(h: seq<Object>, pc: AgentPc, bdevs: set<string>, own: seq<Task>, missed: bool, auto: bool) {
    match pc
    case AgentIdle => true
    case AgentLoaded(s) => AgentOwns(h, s)
    case AgentAttached(s) =>
      AgentOwns(h, s) && s.phase == SetupPipe && s.bdev == None && s.dest.name.Some? && DestBdev(s) in bdevs
    case AgentStarting(s) => AgentOwns(h, s) && s.phase == Syncing && own == []
    case AgentPatching(p) =>
      && p.verdict == None && p.enabled in {None, Some(true)} && (p.enabled == Some(true) ==> auto)
      && h != [] && Last(h).phase.Rank() >= Syncing.Rank()
    case AgentTaskCleaned(s) =>
      AgentOwns(h, s) && s.phase == Cleaning && s.pipe == Connected && (own == [] || missed)
    case AgentDetached(s) =>
      && AgentOwns(h, s) && s.phase == Cleaning && s.pipe == Connected && (own == [] || missed)
      && DestBdev(s) !in bdevs
  }

  ghost predicate HostInv(f: Facts, h: seq<Object>, pc: HostPc, sawWorking: bool) {
    match pc
    case HostIdle => true
    case HostLoaded(s) => HostOwns(h, s)
    case HostConnecting(s) => HostOwns(h, s) && s.phase == SetupPipe && s.host == Unknown
    case HostConnected(s) => HostOwns(h, s) && s.phase == SetupPipe && s.host == Unknown
    case HostSwitched(s) => HostOwns(h, s) && s.phase == Syncing && s.enabled && sawWorking
    case HostCutting(s, listed) =>
      && HostOwns(h, s) && s.phase == Cleaning && s.host == Connected && sawWorking
      && SourceAddr(s) == f.src.addr
      && f.src.addr in listed && listed[f.src.addr] == Degraded && listed.Keys - {f.src.addr} != {}
    case HostClosing(s) => HostOwns(h, s) && s.phase == Cleaning && s.host == Connected && sawWorking
  }

  ghost predicate SpdkInv(m: Object, bdevs: set<string>, own: seq<Task>, missed: bool, auto: bool) {
    && |own| <= 1 && (missed ==> own != [])
    && (own != [] ==> m.pipe != Unknown && (m.pipe == Connected || missed))
    && (own != [] ==> own[0].src == SourceBdev(m) && own[0].dst == m.bdev)
    && (m.bdev.Some? && m.pipe == Connected && m.phase.Rank() < Cleaning.Rank() ==> m.bdev.value in bdevs)
    && (m.bdev.Some? && m.pipe == Disconnected ==> m.bdev.value !in bdevs)
    && (m.enabled ==> auto)
  }

  ghost predicate EnvInv(m: Object, destVol: DestVolume, sawWorking: bool) {
    && (m.verdict == Success ==> sawWorking)
    && (m.dest.name == None ==> destVol == Absent)
    && (m.dest.node.Some? ==> destVol == Ready)
  }

  ghost predicate Inv(f: Facts, w: World) {
    && Chain(f, w.hist)
    && AgentInv(w.hist, w.agent, w.bdevs, w.Own(), w.missed, w.autoSwitch)
    && HostInv(f, w.hist, w.host, w.sawWorking)
    && SpdkInv(Last(w.hist), w.bdevs, w.Own(), w.missed, w.autoSwitch)
    && EnvInv(Last(w.hist), w.destVol, w.sawWorking)
  }

  lemma InitialInv(f: Facts, w: World)
    requires ValidFacts(f) && Initial(f, w)
    ensures Inv(f, w)
  {
  }

  // ---------------------------------------------------------------------------
  // Histories

  lemma Appended(f: Facts, h: seq<Object>, m: Object)
    requires Chain(f, h) && m.version == |h| && Good(f, m) && Leads(Last(h), m)
    ensures Chain(f, h + [m])
  {
    assert (h + [m])[..|h|] == h;
  }

  /** Any recorded version is good, leads to the current one, and carries its position as version. */
  lemma {:induction false} Version(f: Facts, h: seq<Object>, i: nat)
    requires Chain(f, h) && i < |h|
    ensures h[i].version == i && Good(f, h[i]) && Leads(h[i], Last(h))
    decreases |h|
  {
    if i < |h| - 1 {
      Version(f, h[..|h| - 1], i);
    }
  }

  // Each kind of write turns a good object into a good later one.

  lemma ControllerWrites(f: Facts, w: World, l: Label, m: Object, r: Object)
    requires ValidFacts(f) && Good(f, m)
    requires l.Controller? && Truthful(f, w, l.src, l.dest)
    requires var x := ControllerPass(m, l.src, l.dest, l.newName);
             || (x.WriteStatus? && r == m.(version := r.version, phase := x.m.phase, status := x.m.status))
             || (x.WriteSpec? && r == x.m.(version := r.version, phase := m.phase, status := m.status))
    ensures Good(f, r) && Leads(m, r)
    ensures r.pipe == m.pipe && r.bdev == m.bdev && r.enabled == m.enabled && r.host == m.host && r.verdict == m.verdict
    ensures r.dest.node.Some? ==> m.dest.node.Some? || w.destVol == Ready
    ensures r.dest.name == None ==> m.dest.name == None
  {
    hide PhasePass;
    if !Unfilled(m.source) && m.nodeLabel.Some? && m.dest.node.Some? && m.dest.target.Some? && m.status != Failed {
      if ControllerPass(m, l.src, l.dest, l.newName) == PhasePass(m) {
        PhaseWrites(f, m, r);
      }
    }
  }

  lemma PhaseWrites(f: Facts, m: Object, r: Object)
    requires Good(f, m) && !Unfilled(m.source) && m.nodeLabel.Some? && m.dest.node.Some? && m.dest.target.Some?
    requires m.status != Failed
    requires var x := PhasePass(m);
             || (x.WriteStatus? && r == m.(version := r.version, phase := x.m.phase, status := x.m.status))
             || (x.WriteSpec? && r == x.m.(version := r.version, phase := m.phase, status := m.status))
    ensures Good(f, r) && Leads(m, r)
    ensures r == m.(version := r.version, phase := r.phase, status := r.status)
  {
  }

  lemma PipeUpWrite(f: Facts, m: Object, v: nat)
    requires Good(f, m) && m.phase == SetupPipe && m.pipe == Unknown
    ensures Good(f, PipeUp(m).(version := v)) && Leads(m, PipeUp(m).(version := v))
  {
  }

  lemma PipeDownWrite(f: Facts, m: Object, v: nat)
    requires Good(f, m) && m.phase == Cleaning && m.pipe == Connected
    ensures Good(f, PipeDown(m).(version := v)) && Leads(m, PipeDown(m).(version := v))
  {
  }

  lemma HostUpWrite(f: Facts, m: Object, v: nat)
    requires Good(f, m) && m.phase == SetupPipe && m.host == Unknown
    ensures Good(f, HostUp(m).(version := v)) && Leads(m, HostUp(m).(version := v))
  {
  }

  lemma HostDownWrite(f: Facts, m: Object, v: nat)
    requires Good(f, m) && m.phase == Cleaning && m.host == Connected
    ensures Good(f, HostDown(m).(version := v)) && Leads(m, HostDown(m).(version := v))
  {
  }

  /** The agent's unversioned patch: the fields it carries can only confirm what is recorded. */
  lemma PatchWrite(f: Facts, m: Object, p: Patch, v: nat)
    requires Good(f, m) && p.verdict == None && p.enabled in {None, Some(true)}
    requires m.phase.Rank() >= Syncing.Rank()
    ensures Good(f, ApplyPatch(m, p).(version := v)) && Leads(m, ApplyPatch(m, p).(version := v))
  {
  }

  // A write by one actor leaves the others' snapshots right about their own fields.

  lemma AgentUndisturbed(h: seq<Object>, m: Object, pc: AgentPc, bdevs: set<string>, own: seq<Task>, missed: bool,
                         auto: bool)
    requires h != [] && AgentInv(h, pc, bdevs, own, missed, auto)
    requires m.pipe == Last(h).pipe && m.bdev == Last(h).bdev && m.enabled == Last(h).enabled
    requires Last(h).phase.Rank() <= m.phase.Rank()
    ensures AgentInv(h + [m], pc, bdevs, own, missed, auto)
  {
  }

  lemma HostUndisturbed(f: Facts, h: seq<Object>, m: Object, pc: HostPc, sawWorking: bool)
    requires h != [] && HostInv(f, h, pc, sawWorking)
    requires m.host == Last(h).host && m.verdict == Last(h).verdict
    ensures HostInv(f, h + [m], pc, sawWorking)
  {
  }

  // ---------------------------------------------------------------------------
  // Controller

  /** What a controller step can do, in terms the other actors care about. */
  ghost predicate ControllerEffect(f: Facts, w: World, w': World)
    requires w.hist != []
  {
    var m := Last(w.hist);
    || w' == w
    || (w' == w.(destVol := Creating) && w.destVol == Absent && m.dest.name.Some?)
    || (&& |w'.hist| == |w.hist| + 1
        && (var r := Last(w'.hist);
            && w' == w.(hist := w.hist + [r])
            && r.version == |w.hist| && Good(f, r) && Leads(m, r)
            && r.pipe == m.pipe && r.bdev == m.bdev && r.enabled == m.enabled
            && r.host == m.host && r.verdict == m.verdict
            && (r.dest.node.Some? ==> m.dest.node.Some? || w.destVol == Ready)
            && (r.dest.name == None ==> m.dest.name == None)))
  }

  lemma ControllerCurrent(f: Facts, w: World, l: Label, x: Write, r: Object)
    requires ValidFacts(f) && w.hist != [] && Good(f, Last(w.hist)) && l.Controller?
    requires Truthful(f, w, l.src, l.dest)
    requires x == ControllerPass(Last(w.hist), l.src, l.dest, l.newName)
    requires var m := Last(w.hist);
             || (x.WriteStatus? && r == m.(version := |w.hist|, phase := x.m.phase, status := x.m.status))
             || (x.WriteSpec? && r == x.m.(version := |w.hist|, phase := m.phase, status := m.status))
    ensures ControllerEffect(f, w, w.(hist := w.hist + [r]))
  {
    ControllerWrites(f, w, l, Last(w.hist), r);
  }

  /** A pass over a stale version writes nothing; it may still create the destination volume. */
  lemma ControllerStale(f: Facts, w: World, m: Object, l: Label, x: Write)
    requires w.hist != [] && Leads(m, Last(w.hist)) && m.version != Last(w.hist).version && l.Controller?
    requires x == ControllerPass(m, l.src, l.dest, l.newName)
    ensures x.WriteStatus? ==> UpdateStatus(w, x.m) == w
    ensures x.WriteSpec? ==> Update(w, x.m) == w
  {
  }

  lemma CreatesNamed(m: Object, l: Label)
    requires l.Controller?
    ensures ControllerPass(m, l.src, l.dest, l.newName).CreateDest? ==> m.dest.name.Some?
  {
  }

  lemma ControllerDoes(f: Facts, w: World, l: Label)
    requires ValidFacts(f) && Chain(f, w.hist) && l.Controller?
    ensures ControllerEffect(f, w, ControllerStep(f, w, l))
  {
    if l.i < |w.hist| && Truthful(f, w, l.src, l.dest) {
      var m := w.hist[l.i];
      Version(f, w.hist, l.i);
      Version(f, w.hist, |w.hist| - 1);
      CreatesNamed(m, l);
      var x := ControllerPass(m, l.src, l.dest, l.newName);
      if l.i == |w.hist| - 1 && x.WriteStatus? {
        ControllerCurrent(f, w, l, x, m.(version := |w.hist|, phase := x.m.phase, status := x.m.status));
      } else if l.i == |w.hist| - 1 && x.WriteSpec? {
        ControllerCurrent(f, w, l, x, x.m.(version := |w.hist|, phase := m.phase, status := m.status));
      } else if l.i < |w.hist| - 1 {
        ControllerStale(f, w, m, l, x);
      }
    }
  }

  lemma ControllerInv(f: Facts, w: World, w': World)
    requires Inv(f, w) && ControllerEffect(f, w, w')
    ensures Inv(f, w')
  {
    hide Good, OfSource;
    if |w'.hist| == |w.hist| + 1 {
      var r := Last(w'.hist);
      Appended(f, w.hist, r);
      AgentUndisturbed(w.hist, r, w.agent, w.bdevs, w.Own(), w.missed, w.autoSwitch);
      HostUndisturbed(f, w.hist, r, w.host, w.sawWorking);
    }
  }

  // ---------------------------------------------------------------------------
  // Agent

  /** What an agent step can do, in terms the other actors care about. */
  ghost predicate AgentEffect(f: Facts, w: World, w': World)
    requires w.hist != []
  {
    var m := Last(w.hist);
    || (&& w' == w.(agent := w'.agent, bdevs := w'.bdevs, tasks := w'.tasks, missed := w'.missed,
                    autoSwitch := w'.autoSwitch)
        && AgentInv(w.hist, w'.agent, w'.bdevs, w'.Own(), w'.missed, w'.autoSwitch)
        && SpdkInv(m, w'.bdevs, w'.Own(), w'.missed, w'.autoSwitch))
    || (&& |w'.hist| == |w.hist| + 1
        && (var r := Last(w'.hist);
            && w' == w.(hist := w.hist + [r], agent := AgentIdle)
            && r.version == |w.hist| && Good(f, r) && Leads(m, r)
            && r.host == m.host && r.verdict == m.verdict && r.dest == m.dest
            && SpdkInv(r, w.bdevs, w.Own(), w.missed, w.autoSwitch)))
  }

  lemma AgentEffectInv(f: Facts, w: World, w': World)
    requires Inv(f, w) && AgentEffect(f, w, w')
    ensures Inv(f, w')
  {
    hide Good, OfSource;
    if |w'.hist| == |w.hist| + 1 {
      var r := Last(w'.hist);
      Appended(f, w.hist, r);
      HostUndisturbed(f, w.hist, r, w.host, w.sawWorking);
    }
  }

  /** What the agent may rely on when it acts. */
  ghost predicate AgentSees(f: Facts, w: World) {
    && w.hist != [] && Good(f, Last(w.hist)) && Last(w.hist).version == |w.hist| - 1
    && AgentInv(w.hist, w.agent, w.bdevs, w.Own(), w.missed, w.autoSwitch)
    && SpdkInv(Last(w.hist), w.bdevs, w.Own(), w.missed, w.autoSwitch)
    && (!w.agent.AgentIdle? && !w.agent.AgentPatching? ==> Good(f, w.agent.s) && Leads(w.agent.s, Last(w.hist)))
  }

  /** A versioned write lands only on the version it was made from. */
  lemma UpdateOf(w: World, s: Object, m: Object)
    requires w.hist != [] && Recorded(w.hist, s) && Last(w.hist).version == |w.hist| - 1
    requires m.version == s.version && m.phase == s.phase && m.status == s.status
    ensures if s.version == |w.hist| - 1 then
              s == Last(w.hist) && Update(w, m) == w.(hist := w.hist + [m.(version := |w.hist|)])
            else Update(w, m) == w
  {
  }

  lemma PipeUpSpdk(m: Object, v: nat, bdevs: set<string>, own: seq<Task>, missed: bool, auto: bool)
    requires SpdkInv(m, bdevs, own, missed, auto) && m.pipe == Unknown && DestBdev(m) in bdevs
    ensures SpdkInv(PipeUp(m).(version := v), bdevs, own, missed, auto)
  {
  }

  lemma PipeDownSpdk(m: Object, v: nat, bdevs: set<string>, own: seq<Task>, missed: bool, auto: bool)
    requires SpdkInv(m, bdevs, own, missed, auto) && m.pipe == Connected && (own == [] || missed)
    requires m.bdev.Some? ==> m.bdev.value !in bdevs
    ensures SpdkInv(PipeDown(m).(version := v), bdevs, own, missed, auto)
  {
  }

  lemma GoodBdev(f: Facts, m: Object)
    requires Good(f, m)
    ensures m.bdev == None <==> m.pipe == Unknown
    ensures m.bdev.Some? ==> m.bdev.value == DestBdev(m)
  {
  }

  lemma AgentRecordsUp(f: Facts, w: World)
    requires AgentSees(f, w) && w.agent.AgentAttached?
    ensures AgentEffect(f, w, AgentAct(w))
  {
    hide AgentDecide, OfSource, Good, SpdkInv, Update;
    var s := w.agent.s;
    UpdateOf(w.(agent := AgentIdle), s, PipeUp(s));
    GoodBdev(f, s);
    if s.version == |w.hist| - 1 {
      PipeUpWrite(f, s, |w.hist|);
      PipeUpSpdk(s, |w.hist|, w.bdevs, w.Own(), w.missed, w.autoSwitch);
    }
  }

  lemma AgentRecordsDown(f: Facts, w: World)
    requires AgentSees(f, w) && w.agent.AgentDetached?
    ensures AgentEffect(f, w, AgentAct(w))
  {
    hide AgentDecide, OfSource, Good, SpdkInv, Update;
    var s := w.agent.s;
    UpdateOf(w.(agent := AgentIdle), s, PipeDown(s));
    GoodBdev(f, s);
    if s.version == |w.hist| - 1 {
      PipeDownWrite(f, s, |w.hist|);
      PipeDownSpdk(s, |w.hist|, w.bdevs, w.Own(), w.missed, w.autoSwitch);
    }
  }

  lemma AgentPatches(f: Facts, w: World)
    requires AgentSees(f, w) && w.agent.AgentPatching?
    ensures AgentEffect(f, w, AgentAct(w))
  {
    hide AgentDecide, OfSource, Good;
    PatchWrite(f, Last(w.hist), w.agent.p, |w.hist|);
  }

  lemma AgentDecides(f: Facts, w: World)
    requires AgentSees(f, w) && w.agent.AgentLoaded?
    ensures AgentEffect(f, w, AgentAct(w))
  {
    hide OfSource, AgentSync, AgentClean, Good, Leads, AgentInv, SpdkInv;
    var s := w.agent.s;
    AgentIdles(f, w);
    if s.phase == SetupPipe && s.bdev == None && s.dest.name.Some? {
      AgentAttaches(f, w, s);
    } else if s.phase == Syncing {
      AgentSyncs(f, w, s);
    } else if s.phase == Cleaning && s.pipe == Connected {
      AgentCleans(f, w, s);
    }
  }

  lemma AgentIdles(f: Facts, w: World)
    requires AgentSees(f, w)
    ensures AgentEffect(f, w, w.(agent := AgentIdle))
  {
    hide OfSource, Good, SpdkInv;
  }

  lemma AgentAttaches(f: Facts, w: World, s: Object)
    requires AgentSees(f, w) && w.agent == AgentLoaded(s)
    requires s.phase == SetupPipe && s.bdev == None && s.dest.name.Some?
    ensures AgentEffect(f, w, w.(bdevs := w.bdevs + {DestBdev(s)}, agent := AgentAttached(s)))
  {
    hide OfSource;
    GoodBdev(f, Last(w.hist));
    GoodBdev(f, s);
    hide Good, Leads;
  }

  lemma AgentSyncs(f: Facts, w: World, s: Object)
    requires AgentSees(f, w) && w.agent == AgentLoaded(s) && s.phase == Syncing
    ensures AgentEffect(f, w, AgentSync(w, s))
  {
    GoodVerdict(f, s);
    assert Last(w.hist).phase.Rank() >= Syncing.Rank() && SourceBdev(s) == SourceBdev(w.Cur());
    hide OfSource, Good, Leads, SyncPass, DiffPatch;
    if w.Own() != [] {
      SyncPatch(s, w.Own()[0]);
    }
  }

  /** The progress patch never carries a verdict, and enables autoswitch or leaves it alone. */
  lemma SyncPatch(s: Object, t: Task)
    requires !s.enabled ==> s.verdict == NoVerdict
    ensures SyncPass(s, t).Some? ==>
              var p := DiffPatch(s, SyncPass(s, t).value);
              p.verdict == None && p.enabled in {None, Some(true)} && (p.enabled == Some(true) ==> !s.enabled)
  {
  }

  lemma GoodVerdict(f: Facts, m: Object)
    requires Good(f, m)
    ensures !m.enabled ==> m.verdict == NoVerdict
  {
  }

  lemma AgentCleans(f: Facts, w: World, s: Object)
    requires AgentSees(f, w) && w.agent == AgentLoaded(s) && s.phase == Cleaning && s.pipe == Connected
    ensures AgentEffect(f, w, AgentClean(w, s))
  {
    hide OfSource;
    CleanedOwn(w.tasks, SourceBdev(s), s.bdev);
  }

  /** Removing the task that was found removes it from the own ones. */
  lemma CleanedOwn(tasks: seq<Task>, src: string, dst: Option<string>)
    ensures TaskFound(tasks, src, dst) ==>
              OfSource(tasks, src) == OfSource(tasks[..|tasks| - 1], src) + [tasks[|tasks| - 1]]
  {
  }

  lemma AgentWorks(f: Facts, w: World)
    requires AgentSees(f, w) && (w.agent.AgentStarting? || w.agent.AgentTaskCleaned?)
    ensures AgentEffect(f, w, AgentAct(w))
  {
    hide OfSource, AgentDecide;
    if w.agent.AgentStarting? {
      OfSourceNext(w.tasks, NewTask(w.agent.s), SourceBdev(w.agent.s));
    }
  }

  lemma AgentDoes(f: Facts, w: World)
    requires AgentSees(f, w)
    ensures AgentEffect(f, w, AgentAct(w))
  {
    hide AgentDecide, OfSource;
    match w.agent
    case AgentIdle =>
    case AgentLoaded(_) => AgentDecides(f, w);
    case AgentAttached(_) => AgentRecordsUp(f, w);
    case AgentStarting(_) => AgentWorks(f, w);
    case AgentPatching(_) => AgentPatches(f, w);
    case AgentTaskCleaned(_) => AgentWorks(f, w);
    case AgentDetached(_) => AgentRecordsDown(f, w);
  }

  lemma AgentSnapshot(f: Facts, w: World)
    requires Inv(f, w)
    ensures AgentSees(f, w)
  {
    if !w.agent.AgentIdle? && !w.agent.AgentPatching? {
      Version(f, w.hist, w.agent.s.version);
    }
  }

  // ---------------------------------------------------------------------------
  // Host

  /** What a host step can do, in terms the other actors care about. */
  ghost predicate HostEffect(f: Facts, w: World, w': World)
    requires w.hist != []
  {
    var m := Last(w.hist);
    || (&& w' == w.(host := w'.host, paths := w'.paths, sawWorking := w'.sawWorking)
        && HostInv(f, w.hist, w'.host, w'.sawWorking) && (w.sawWorking ==> w'.sawWorking))
    || (&& |w'.hist| == |w.hist| + 1
        && (var r := Last(w'.hist);
            && w' == w.(hist := w.hist + [r], host := HostIdle)
            && r.version == |w.hist| && Good(f, r) && Leads(m, r)
            && r.pipe == m.pipe && r.bdev == m.bdev && r.enabled == m.enabled
            && r.phase == m.phase && r.dest == m.dest
            && (r.verdict == Success ==> w.sawWorking)))
  }

  lemma HostEffectInv(f: Facts, w: World, w': World)
    requires Inv(f, w) && HostEffect(f, w, w')
    ensures Inv(f, w')
  {
    hide Good, OfSource;
    if |w'.hist| == |w.hist| + 1 {
      var r := Last(w'.hist);
      Appended(f, w.hist, r);
      AgentUndisturbed(w.hist, r, w.agent, w.bdevs, w.Own(), w.missed, w.autoSwitch);
    }
  }

  /** What the host may rely on when it acts. */
  ghost predicate HostSees(f: Facts, w: World) {
    && w.hist != [] && Good(f, Last(w.hist)) && Last(w.hist).version == |w.hist| - 1
    && HostInv(f, w.hist, w.host, w.sawWorking)
    && (Last(w.hist).verdict == Success ==> w.sawWorking)
    && (!w.host.HostIdle? ==> Good(f, w.host.s) && Leads(w.host.s, Last(w.hist)))
  }

  lemma HostRecordsUp(f: Facts, w: World, list: seq<Subsystem>, st: PathState)
    requires HostSees(f, w) && w.host.HostConnected?
    ensures HostEffect(f, w, HostAct(f, w, list, st))
  {
    hide HostDecide, Good, Update;
    UpdateOf(w.(host := HostIdle), w.host.s, HostUp(w.host.s));
    if w.host.s.version == |w.hist| - 1 {
      HostUpWrite(f, w.host.s, |w.hist|);
    }
  }

  lemma HostRecordsSwitch(f: Facts, w: World, list: seq<Subsystem>, st: PathState)
    requires HostSees(f, w) && w.host.HostSwitched?
    ensures HostEffect(f, w, HostAct(f, w, list, st))
  {
    hide HostDecide;
  }

  lemma HostRecordsDown(f: Facts, w: World, list: seq<Subsystem>, st: PathState)
    requires HostSees(f, w) && w.host.HostClosing?
    ensures HostEffect(f, w, HostAct(f, w, list, st))
  {
    hide HostDecide, Good, Update;
    UpdateOf(w.(host := HostIdle), w.host.s, HostDown(w.host.s));
    if w.host.s.version == |w.hist| - 1 {
      HostDownWrite(f, w.host.s, |w.hist|);
    }
  }

  lemma HostDecides(f: Facts, w: World, list: seq<Subsystem>, st: PathState)
    requires HostSees(f, w) && w.host.HostLoaded? && w.host.s.phase != Cleaning
    ensures HostEffect(f, w, HostAct(f, w, list, st))
  {
    GoodHost(f, w.host.s);
    hide Lists, Flag, SourcePath, Good, Leads;
  }

  lemma GoodHost(f: Facts, m: Object)
    requires Good(f, m)
    ensures m.phase == SetupPipe ==> m.host != Disconnected
  {
  }

  lemma HostDecidesCleaning(f: Facts, w: World, list: seq<Subsystem>, st: PathState)
    requires ValidFacts(f) && HostSees(f, w) && w.host.HostLoaded? && w.host.s.phase == Cleaning
    ensures HostEffect(f, w, HostAct(f, w, list, st))
  {
    hide Lists, Flag, SourcePath;
    if Lists(list, f.dest.nqn, w.paths) {
      SourceOfListing(list, f.dest.nqn, w.paths, f.src.addr);
    }
  }

  lemma HostDoes(f: Facts, w: World, list: seq<Subsystem>, st: PathState)
    requires ValidFacts(f) && HostSees(f, w)
    ensures HostEffect(f, w, HostAct(f, w, list, st))
  {
    hide HostDecide;
    match w.host
    case HostIdle =>
    case HostLoaded(s) =>
      if s.phase == Cleaning {
        HostDecidesCleaning(f, w, list, st);
      } else {
        HostDecides(f, w, list, st);
      }
    case HostConnecting(_) =>
    case HostConnected(_) => HostRecordsUp(f, w, list, st);
    case HostSwitched(_) => HostRecordsSwitch(f, w, list, st);
    case HostCutting(_, _) =>
    case HostClosing(_) => HostRecordsDown(f, w, list, st);
  }

  lemma HostSnapshot(f: Facts, w: World)
    requires Inv(f, w)
    ensures HostSees(f, w)
  {
    if !w.host.HostIdle? {
      Version(f, w.hist, w.host.s.version);
    }
  }

  // ---------------------------------------------------------------------------
  // Runs

  lemma AgentActInv(f: Facts, w: World)
    requires Inv(f, w)
    ensures Inv(f, AgentAct(w))
  {
    AgentSnapshot(f, w);
    AgentDoes(f, w);
    AgentEffectInv(f, w, AgentAct(w));
  }

  lemma HostActInv(f: Facts, w: World, list: seq<Subsystem>, st: PathState)
    requires ValidFacts(f) && Inv(f, w)
    ensures Inv(f, HostAct(f, w, list, st))
  {
    HostSnapshot(f, w);
    HostDoes(f, w, list, st);
    HostEffectInv(f, w, HostAct(f, w, list, st));
  }

  /** Every step of every actor and of the environment keeps the invariant. */
  lemma StepInv(f: Facts, w: World, l: Label)
    requires ValidFacts(f) && Inv(f, w)
    ensures Inv(f, Step(f, w, l))
  {
    hide OfSource, ControllerStep, AgentAct, HostAct, Chain, SpdkInv;
    match l
    case Controller(_, _, _, _) => ControllerActInv(f, w, l);
    case AgentStep => AgentActInv(f, w);
    case HostStep(list, st) => HostActInv(f, w, list, st);
    case EnvTask(p) => ProgressInv(f, w, p);
    case AgentRead => ReadInv(f, w);
    case HostRead => ReadInv(f, w);
    case _ =>
  }

  lemma ControllerActInv(f: Facts, w: World, l: Label)
    requires ValidFacts(f) && Inv(f, w) && l.Controller?
    ensures Inv(f, ControllerStep(f, w, l))
  {
    hide ControllerStep, ControllerEffect, AgentInv, HostInv, SpdkInv, EnvInv;
    ControllerDoes(f, w, l);
    ControllerInv(f, w, ControllerStep(f, w, l));
  }

  /** The newest version is a right snapshot for the agent and for the host. */
  lemma ReadInv(f: Facts, w: World)
    requires Inv(f, w)
    ensures AgentOwns(w.hist, w.Cur()) && HostOwns(w.hist, w.Cur())
  {
    hide AgentInv, HostInv, SpdkInv, EnvInv, Good;
  }

  lemma ProgressInv(f: Facts, w: World, p: JobProgress)
    requires Inv(f, w)
    ensures Inv(f, Step(f, w, EnvTask(p)))
  {
    hide OfSource, Progressed, HostInv, EnvInv, AgentOwns, Good;
    ProgressedOwn(w.tasks, SourceBdev(w.Cur()), p);
    ProgressOne(w.Own(), SourceBdev(w.Cur()), p);
  }

  lemma ProgressOne(own: seq<Task>, src: string, p: JobProgress)
    requires |own| <= 1
    ensures var next := Progressed(own, src, p);
            |next| == |own| && (own != [] ==> next[0].src == own[0].src && next[0].dst == own[0].dst)
  {
    assert own != [] ==> own[..0] == [];
  }

  lemma {:induction false} RunInv(f: Facts, w: World, ls: seq<Label>)
    requires ValidFacts(f) && Inv(f, w)
    ensures Inv(f, Run(f, w, ls))
    decreases |ls|
  {
    if ls != [] {
      StepInv(f, w, ls[0]);
      RunInv(f, Step(f, w, ls[0]), ls[1..]);
    }
  }
}
