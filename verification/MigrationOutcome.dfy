/**
 What the steps of a migration come to: when exactly the phase moves and when the migration fails, what is
 recorded about the volumes, and when the agent may allow the switch.
 */
module MigrationOutcome {
  import opened Prelude
  import opened HostScan
  import opened Migration
  import opened MigrationSafety
  import opened MigrationRuns

  // ---------------------------------------------------------------------------
  // What the controller records, and when

  /** The object says about nodes and hosts what is so: the destination is made for the host of the source. */
  predicate TellsFacts(f: Facts, m: Object) {
    && (!Unfilled(m.source) ==>
          m.source.node == f.srcNode && m.source.host == f.srcHost && m.source.target == Some(f.src))
    && (m.nodeLabel.Some? ==> m.nodeLabel == f.srcNode)
    && (m.dest.name.Some? ==> m.dest.host == f.srcHost)
    && (m.dest.node.Some? ==> m.dest.node == f.destNode && m.dest.target == Some(f.dest))
  }

  ghost predicate AllTell(f: Facts, h: seq<Object>) { forall i :: 0 <= i < |h| ==> TellsFacts(f, h[i]) }

  /** No other write touches what is said about the volumes. */
  predicate SameVolumes(a: Object, b: Object) { a.source == b.source && a.dest == b.dest && a.nodeLabel == b.nodeLabel }

  /** A write of something that is recorded, with the same volumes. */
  ghost predicate WritesSame(w: World, t: World) {
    || t.hist == w.hist
    || (|t.hist| == |w.hist| + 1 && t.hist[..|w.hist|] == w.hist
        && exists i :: 0 <= i < |w.hist| && SameVolumes(w.hist[i], t.hist[|w.hist|]))
  }

  lemma SameVolumesTell(f: Facts, w: World, t: World)
    requires AllTell(f, w.hist) && WritesSame(w, t)
    ensures AllTell(f, t.hist)
  {
    if t.hist != w.hist {
      var i :| 0 <= i < |w.hist| && SameVolumes(w.hist[i], t.hist[|w.hist|]);
      assert TellsFacts(f, w.hist[i]);
      forall j | 0 <= j < |w.hist| ensures t.hist[j] == w.hist[j] {
        assert t.hist[..|w.hist|][j] == w.hist[j];
      }
    }
  }

  lemma UpdateWritesSame(w: World, m: Object, i: nat)
    requires w.hist != [] && i < |w.hist| && SameVolumes(w.hist[i], m)
    ensures WritesSame(w, Update(w, m))
  {
    if m.version == w.Cur().version {
      var t := Update(w, m);
      assert SameVolumes(w.hist[i], t.hist[|w.hist|]);
    }
  }

  lemma AgentWritesSame(f: Facts, w: World)
    requires Inv(f, w)
    ensures WritesSame(w, AgentAct(w))
  {
    hide HostInv, SpdkInv, EnvInv, WritesSame, AgentDecide, Update, ApplyPatch;
    match w.agent
    case AgentIdle => assert WritesSame(w, w) by { Unwritten(w, w); }
    case AgentLoaded(s) =>
      DecideKeepsPaths(w, s);
      Unwritten(w, AgentDecide(w, s));
    case AgentAttached(s) => UpdateWritesSame(w.(agent := AgentIdle), PipeUp(s), s.version);
                             SameHistory(w, w.(agent := AgentIdle), AgentAct(w));
    case AgentStarting(_) => Unwritten(w, AgentAct(w));
    case AgentPatching(p) => PatchWritesSame(w, p);
    case AgentTaskCleaned(_) => Unwritten(w, AgentAct(w));
    case AgentDetached(s) => UpdateWritesSame(w.(agent := AgentIdle), PipeDown(s), s.version);
                             SameHistory(w, w.(agent := AgentIdle), AgentAct(w));
  }

  lemma Unwritten(w: World, t: World)
    requires t.hist == w.hist
    ensures WritesSame(w, t)
  {
  }

  lemma SameHistory(w: World, v: World, t: World)
    requires v.hist == w.hist && WritesSame(v, t)
    ensures WritesSame(w, t)
  {
  }

  lemma PatchWritesSame(w: World, p: Patch)
    requires w.hist != []
    ensures WritesSame(w, MergePatch(w.(agent := AgentIdle), p))
  {
    var t := MergePatch(w.(agent := AgentIdle), p);
    assert SameVolumes(w.hist[|w.hist| - 1], t.hist[|w.hist|]);
  }

  lemma HostWritesSame(f: Facts, w: World, list: seq<Subsystem>, st: PathState)
    requires Inv(f, w)
    ensures WritesSame(w, HostAct(f, w, list, st))
  {
    hide AgentInv, SpdkInv, EnvInv, WritesSame, HostDecide, Update;
    var idle := w.(host := HostIdle);
    match w.host
    case HostIdle => Unwritten(w, w);
    case HostLoaded(s) =>
      HostDecideKeeps(f, w, s, list);
      Unwritten(w, HostDecide(f, w, s, list));
    case HostConnecting(_) => Unwritten(w, HostAct(f, w, list, st));
    case HostConnected(s) => UpdateWritesSame(idle, HostUp(s), s.version);
                             SameHistory(w, idle, HostAct(f, w, list, st));
    case HostSwitched(s) => UpdateWritesSame(idle, s.(verdict := Success), s.version);
                            SameHistory(w, idle, HostAct(f, w, list, st));
    case HostCutting(_, _) => Unwritten(w, HostAct(f, w, list, st));
    case HostClosing(s) => UpdateWritesSame(idle, HostDown(s), s.version);
                           SameHistory(w, idle, HostAct(f, w, list, st));
  }

  lemma PassTells(f: Facts, w: World, m: Object, src: SourceView, dest: DestView, newName: string)
    requires TellsFacts(f, m) && Truthful(f, w, src, dest)
    ensures var x := ControllerPass(m, src, dest, newName);
            && (x.WriteSpec? ==> TellsFacts(f, x.m)) && (x.WriteStatus? ==> SameVolumes(m, x.m))
  {
  }

  lemma ControllerTells(f: Facts, w: World, l: Label)
    requires Chain(f, w.hist) && AllTell(f, w.hist) && l.Controller?
    ensures AllTell(f, ControllerStep(f, w, l).hist)
  {
    hide ControllerPass, Good, Leads;
    if l.i < |w.hist| && Truthful(f, w, l.src, l.dest) {
      PassTells(f, w, w.hist[l.i], l.src, l.dest, l.newName);
      assert TellsFacts(f, w.Cur());
    }
  }

  lemma TellsStep(f: Facts, w: World, l: Label)
    requires Inv(f, w) && AllTell(f, w.hist)
    ensures AllTell(f, Step(f, w, l).hist)
  {
    hide AgentAct, HostAct, ControllerStep, AgentInv, HostInv, SpdkInv, EnvInv, OfSource, Progressed;
    hide AllTell, WritesSame;
    if l.Controller? {
      ControllerTells(f, w, l);
    } else if l.AgentStep? {
      AgentWritesSame(f, w);
      SameVolumesTell(f, w, AgentAct(w));
    } else if l.HostStep? {
      HostWritesSame(f, w, l.list, l.connectedAs);
      SameVolumesTell(f, w, HostAct(f, w, l.list, l.connectedAs));
    }
  }

  lemma {:induction false} TellsRun(f: Facts, w: World, ls: seq<Label>)
    requires ValidFacts(f) && Inv(f, w) && AllTell(f, w.hist)
    ensures AllTell(f, Run(f, w, ls).hist)
    decreases |ls|
  {
    hide Step, AllTell, AgentInv, HostInv, SpdkInv, EnvInv;
    if ls != [] {
      TellsStep(f, w, ls[0]);
      StepInv(f, w, ls[0]);
      TellsRun(f, Step(f, w, ls[0]), ls[1..]);
    }
  }

  /** In every run the recorded object names the nodes, hosts and targets of the two volumes as they are. */
  lemma RecordedVolumesAreRight(f: Facts, w0: World, ls: seq<Label>)
    requires ValidFacts(f) && Initial(f, w0)
    ensures var m := Run(f, w0, ls).Cur();
            && (!Unfilled(m.source) ==>
                  m.source.node == f.srcNode && m.source.host == f.srcHost && m.source.target == Some(f.src))
            && (m.nodeLabel.Some? ==> m.nodeLabel == f.srcNode)
            && (m.dest.name.Some? ==> m.dest.host == f.srcHost)
            && (m.dest.node.Some? ==> m.dest.node == f.destNode && m.dest.target == Some(f.dest))
  {
    assert AllTell(f, w0.hist);
    hide Run, Initial, AgentInv, HostInv, SpdkInv, EnvInv;
    InitialInv(f, w0);
    TellsRun(f, w0, ls);
    assert TellsFacts(f, Run(f, w0, ls).Cur());
  }

  /** The controller works from the newest version, with what is true about the volumes. */
  ghost predicate Current(f: Facts, w: World, l: Label)
    requires w.hist != []
  {
    l.Controller? && l.i + 1 == |w.hist| && Truthful(f, w, l.src, l.dest) && w.Cur().status != Failed
  }

  /** The source volume cannot be migrated. */
  predicate Unfit(src: SourceView) { src.SourceMissing? || !src.isLvol || src.mustLocal }

  /** Both volumes are ready and recorded, as far as the phase needs them. */
  ghost predicate Prepared(w: World, l: Label)
    requires w.hist != [] && l.Controller?
  {
    var m := w.Cur();
    && !Unfit(l.src) && l.src.ready && !Unfilled(m.source) && m.nodeLabel.Some?
    && (m.phase == Pending || (&& m.dest.name.Some? && l.dest.DestFound? && l.dest.ready
                               && m.dest.node.Some? && m.dest.target.Some?))
  }

  /** What the phase waits for has been recorded. */
  predicate PhaseDone(m: Object) {
    match m.phase
    case SetupPipe => m.pipe == Connected && m.host == Connected
    case Syncing => m.verdict == Success
    case Cleaning => m.pipe == Disconnected && m.host == Disconnected
    case Finished => false
    case _ => true
  }

  lemma StaleWrites(f: Facts, w: World, l: Label)
    requires Chain(f, w.hist) && l.Controller? && l.i + 1 != |w.hist|
    ensures ControllerStep(f, w, l).hist == w.hist
  {
    hide Good, Leads;
    if l.i < |w.hist| {
      Version(f, w.hist, l.i);
      ControllerStale(f, w, w.hist[l.i], l, ControllerPass(w.hist[l.i], l.src, l.dest, l.newName));
    }
  }

  /** What a pass over `m` wants done to phase and status. */
  lemma PassMoves(m: Object, src: SourceView, dest: DestView, newName: string)
    requires m.status != Failed
    ensures var x := ControllerPass(m, src, dest, newName);
            var fit := !Unfit(src) && src.ready && !Unfilled(m.source) && m.nodeLabel.Some?;
            var both := && m.dest.name.Some? && dest.DestFound? && dest.ready
                        && m.dest.node.Some? && m.dest.target.Some?;
            && (x.WriteStatus? && x.m.status == Failed <==> m.phase != NoPhase && Unfit(src))
            && (x.WriteStatus? && x.m.phase != m.phase <==>
                  m.phase == NoPhase || (fit && (m.phase == Pending || both) && PhaseDone(m)))
            && (x.WriteStatus? && x.m.phase != m.phase ==>
                  x.m.phase.Rank() == m.phase.Rank() + 1 && x.m.status == StatusIn(x.m.phase, m.status))
  {
  }

  /** The status that goes with a phase that was entered. */
  function StatusIn(phase: Phase, before: RunStatus): RunStatus {
    match phase
    case Pending => InWork
    case CreatingVolume => InWork
    case Finished => Done
    case _ => before
  }

  lemma ControllerMoves(f: Facts, w: World, l: Label)
    requires ValidFacts(f) && Chain(f, w.hist) && l.Controller? && w.Cur().status != Failed
    ensures var m, r := w.Cur(), ControllerStep(f, w, l).Cur();
            && (r.status == Failed <==> Current(f, w, l) && m.phase != NoPhase && Unfit(l.src))
            && (r.phase != m.phase <==>
                  Current(f, w, l) && (m.phase == NoPhase || (Prepared(w, l) && PhaseDone(m))))
            && (r.phase != m.phase ==>
                  r.phase.Rank() == m.phase.Rank() + 1 && r.status == StatusIn(r.phase, m.status))
  {
    hide Good, Leads, ControllerPass, PhaseDone, Unfit, StatusIn;
    if l.i + 1 != |w.hist| {
      StaleWrites(f, w, l);
    } else {
      PassMoves(w.Cur(), l.src, l.dest, l.newName);
      PassKeepsVersion(w.Cur(), l.src, l.dest, l.newName);
    }
  }

  lemma PassKeepsVersion(m: Object, src: SourceView, dest: DestView, newName: string)
    ensures var x := ControllerPass(m, src, dest, newName);
            (x.WriteStatus? || x.WriteSpec? ==> x.m.version == m.version)
  {
  }

  /** Only the controller moves the phase. */
  lemma OthersKeepPhase(f: Facts, w: World, l: Label)
    requires ValidFacts(f) && Inv(f, w) && !l.Controller?
    ensures Step(f, w, l).Cur().phase == w.Cur().phase && Step(f, w, l).Cur().status == w.Cur().status
  {
    hide AgentAct, HostAct, ControllerStep, AgentInv, HostInv, SpdkInv, EnvInv, OfSource, Progressed;
    if l.AgentStep? {
      AgentKeepsStatus(w);
    } else if l.HostStep? {
      HostKeepsStatus(f, w, l.list, l.connectedAs);
    }
  }

  /**
   Exactly when a migration moves on, one phase at a time: a controller pass over the newest version finds both
   volumes ready and recorded, and what the phase waits for done. It fails exactly when such a pass finds that
   the source volume is missing, no logical volume of SPDK, or bound to its host.
   */
  lemma AdvancesExactlyWhen(f: Facts, w: World, l: Label)
    requires ValidFacts(f) && Inv(f, w) && w.Cur().status != Failed
    ensures var m, r := w.Cur(), Step(f, w, l).Cur();
            && (r.status == Failed <==> Current(f, w, l) && m.phase != NoPhase && Unfit(l.src))
            && (r.phase != m.phase <==>
                  Current(f, w, l) && (m.phase == NoPhase || (Prepared(w, l) && PhaseDone(m))))
            && (r.phase != m.phase ==>
                  r.phase.Rank() == m.phase.Rank() + 1 && r.status == StatusIn(r.phase, m.status))
  {
    hide ControllerStep, AgentAct, HostAct, AgentInv, HostInv, SpdkInv, EnvInv, OfSource, Progressed;
    if l.Controller? {
      ControllerMoves(f, w, l);
    } else {
      OthersKeepPhase(f, w, l);
    }
  }

  // ---------------------------------------------------------------------------
  // Autoswitch is enabled only after a round of copying

  /** The agent's first step of a syncing pass, with its copy of the object `w.agent.s`. */
  ghost predicate Syncs(w: World, l: Label) {
    && l.AgentStep? && w.agent.AgentLoaded? && w.destVol == Ready
    && w.agent.s.dest.name.Some? && w.agent.s.phase == Syncing
  }

  /** The copy is done, or has run for ten seconds since the pass's version recorded its progress. */
  ghost predicate Due(w: World)
    requires w.hist != [] && w.agent.AgentLoaded? && w.Own() != []
  {
    var p := w.Own()[0].progress;
    p.status == Completed || p.elapsed - w.agent.s.progress.elapsed >= 10000
  }

  /** A syncing pass that finds the copy due and through at least one round. */
  ghost predicate SeesRound(w: World, l: Label)
    requires w.hist != []
  {
    Syncs(w, l) && w.Own() != [] && Due(w) && w.Own()[0].progress.rounds > 0
  }

  lemma OwnOfSnapshot(f: Facts, w: World)
    requires Inv(f, w) && w.agent.AgentLoaded?
    ensures OfSource(w.tasks, SourceBdev(w.agent.s)) == w.Own()
  {
    hide HostInv, SpdkInv, EnvInv, OfSource;
    AgentSnapshot(f, w);
  }

  /** What a syncing pass decides: start the copy, wait, or report; it allows the switch exactly after a round. */
  lemma SyncsExactly(f: Facts, w: World)
    requires Inv(f, w) && Syncs(w, AgentStep)
    ensures var t, s := Step(f, w, AgentStep), w.agent.s;
            && (w.Own() == [] <==> t.agent.AgentStarting?)
            && (t.agent.AgentPatching? <==> w.Own() != [] && Due(w) && (s.enabled || w.Own()[0].progress.rounds > 0))
            && (t.autoSwitch <==> w.autoSwitch || (!s.enabled && SeesRound(w, AgentStep)))
            && t.hist == w.hist && t.tasks == w.tasks && t.bdevs == w.bdevs
            && (t.agent.AgentPatching? ==>
                  ApplyPatch(s, t.agent.p) == s.(progress := w.Own()[0].progress, enabled := true,
                                                 verdict := if s.enabled then s.verdict else NoVerdict))
  {
    hide AgentInv, HostInv, SpdkInv, EnvInv, OfSource, AgentClean, DiffPatch, ApplyPatch;
    OwnOfSnapshot(f, w);
    if w.Own() != [] && SyncPass(w.agent.s, w.Own()[0]).Some? {
      DiffThenApply(w.agent.s, SyncPass(w.agent.s, w.Own()[0]).value);
    }
  }

  /** The switch is allowed by no other step. */
  lemma AutoSwitchExactlyWhen(f: Facts, w: World, l: Label)
    requires ValidFacts(f) && Inv(f, w)
    ensures Step(f, w, l).autoSwitch <==>
              w.autoSwitch || (Syncs(w, l) && !w.agent.s.enabled && SeesRound(w, l))
  {
    hide HostAct, ControllerStep, AgentAct, AgentInv, HostInv, SpdkInv, EnvInv, OfSource, Progressed, SeesRound;
    if Syncs(w, l) {
      SyncsExactly(f, w);
    } else if l.AgentStep? {
      OthersKeepSwitch(w);
    } else if l.Controller? {
      ControllerKeepsPaths(f, w, l);
    } else if l.HostStep? {
      HostKeepsMissed(f, w, l.list, l.connectedAs);
    }
  }

  lemma OthersKeepSwitch(w: World)
    requires w.hist != [] && !Syncs(w, AgentStep)
    ensures AgentAct(w).autoSwitch == w.autoSwitch
  {
    hide AgentClean, AgentSync;
    if w.agent.AgentLoaded? {
      CleanKeepsSwitch(w, w.agent.s);
    }
  }

  lemma CleanKeepsSwitch(w: World, s: Object)
    ensures AgentClean(w, s).autoSwitch == w.autoSwitch
  {
  }

  /** Moment `k` of a run: a syncing pass sees that. */
  ghost predicate SeesRoundAt(f: Facts, w: World, ls: seq<Label>, k: nat)
    requires w.hist != [] && k < |ls|
  {
    SeesRound(Run(f, w, ls[..k]), ls[k])
  }

  lemma SwitchStep(f: Facts, w: World, l: Label)
    requires ValidFacts(f) && Inv(f, w) && !w.autoSwitch && Step(f, w, l).autoSwitch
    ensures SeesRound(w, l)
  {
    hide Step, AgentInv, HostInv, SpdkInv, EnvInv;
    AutoSwitchExactlyWhen(f, w, l);
  }

  lemma {:induction false} SwitchEarlier(f: Facts, w0: World, ls: seq<Label>)
    requires ValidFacts(f) && Inv(f, w0) && !w0.autoSwitch && Run(f, w0, ls).autoSwitch
    ensures exists k: nat :: k < |ls| && SeesRoundAt(f, w0, ls, k)
    decreases |ls|
  {
    hide Run, Step, AgentInv, HostInv, SpdkInv, EnvInv, SeesRound;
    RunNothing(f, w0);
    var k := |ls| - 1;
    var init := ls[..k];
    RunLast(f, w0, ls);
    if Run(f, w0, init).autoSwitch {
      SwitchEarlier(f, w0, init);
      var j: nat :| j < |init| && SeesRoundAt(f, w0, init, j);
      assert init[..j] == ls[..j];
      assert SeesRoundAt(f, w0, ls, j);
    } else {
      RunInv(f, w0, init);
      SwitchStep(f, Run(f, w0, init), ls[k]);
      assert SeesRoundAt(f, w0, ls, k);
    }
  }

  /**
   In every run: SPDK was told to switch, or the object says so, only if an earlier pass of the agent saw a copy
   of this source through at least one round, and completed or ten seconds past what its version recorded.
   */
  lemma SwitchAllowedEarlier(f: Facts, w0: World, ls: seq<Label>)
    requires ValidFacts(f) && Initial(f, w0)
    requires Run(f, w0, ls).autoSwitch || Run(f, w0, ls).Cur().enabled
    ensures exists k: nat :: k < |ls| && SeesRoundAt(f, w0, ls, k)
  {
    hide Run, AgentInv, HostInv, SpdkInv, EnvInv, Chain, SeesRoundAt;
    RecordedIsReal(f, w0, ls);
    InitialInv(f, w0);
    SwitchEarlier(f, w0, ls);
  }

  // ---------------------------------------------------------------------------
  // The destination's name

  lemma ControllerNames(f: Facts, w: World, l: Label)
    requires ValidFacts(f) && Chain(f, w.hist) && l.Controller? && w.Cur().dest.name == None
    ensures var r := ControllerStep(f, w, l).Cur(); r.dest.name.Some? ==> r.dest.name.value == l.newName
  {
    hide Good, Leads;
    if l.i + 1 != |w.hist| {
      StaleWrites(f, w, l);
    }
  }

  lemma OthersKeepDest(f: Facts, w: World, l: Label)
    requires ValidFacts(f) && Inv(f, w) && !l.Controller?
    ensures Step(f, w, l).Cur().dest == w.Cur().dest
  {
    hide AgentAct, HostAct, ControllerStep, AgentInv, HostInv, SpdkInv, EnvInv, OfSource, Progressed, Good, Leads;
    if l.AgentStep? {
      AgentSnapshot(f, w);
      AgentDoes(f, w);
    } else if l.HostStep? {
      HostSnapshot(f, w);
      HostDoes(f, w, l.list, l.connectedAs);
    }
  }

  /** The destination volume gets the name that was made up for it, from the controller and no one else. */
  lemma NamedByController(f: Facts, w: World, l: Label)
    requires ValidFacts(f) && Inv(f, w) && w.Cur().dest.name == None && Step(f, w, l).Cur().dest.name.Some?
    ensures l.Controller? && Step(f, w, l).Cur().dest.name.value == l.newName
  {
    hide AgentAct, HostAct, ControllerStep, AgentInv, HostInv, SpdkInv, EnvInv, OfSource, Progressed;
    if l.Controller? {
      ControllerNames(f, w, l);
    } else {
      OthersKeepDest(f, w, l);
    }
  }

  // ---------------------------------------------------------------------------
  // The source path is gone when the host is done

  /** The host is closing, or has recorded that it is disconnected, and still has the source path. */
  ghost predicate KeepsSource(f: Facts, w: World)
    requires w.hist != []
  {
    (w.host.HostClosing? || w.Cur().host == Disconnected) && f.src.addr in w.paths
  }

  /** A pass of the host decides to close and has no other path than the source path. */
  ghost predicate ClosesAlone(f: Facts, w: World, l: Label)
    requires w.hist != []
  {
    l.HostStep? && w.host.HostLoaded? && Step(f, w, l).host.HostClosing? && w.paths.Keys == {f.src.addr}
  }

  lemma AloneKeys(m: map<Addr, PathState>, a: Addr)
    requires a in m && |m| <= 1
    ensures m.Keys == {a}
  {
    assert |m.Keys| == |m|;
    if b :| b in m && b != a {
      Cardinal({a, b}, m.Keys);
    }
  }

  lemma {:induction false} Cardinal<T>(a: set<T>, b: set<T>)
    requires a <= b
    ensures |a| <= |b|
    decreases |a|
  {
    if x :| x in a {
      Cardinal(a - {x}, b - {x});
    }
  }

  lemma DecidesAlone(f: Facts, w: World, list: seq<Subsystem>)
    requires ValidFacts(f) && Inv(f, w) && w.host.HostLoaded? && HostDecide(f, w, w.host.s, list).host.HostClosing?
    ensures f.src.addr in w.paths ==> w.paths.Keys == {f.src.addr}
  {
    hide AgentInv, HostInv, SpdkInv, EnvInv, Chain, Flag, Lists, SourcePath;
    HostSnapshot(f, w);
    SourceOfListing(list, f.dest.nqn, w.paths, f.src.addr);
    if f.src.addr in w.paths && |w.paths| <= 1 {
      AloneKeys(w.paths, f.src.addr);
    }
  }

  lemma HostKeepsSource(f: Facts, w: World, list: seq<Subsystem>, st: PathState)
    requires ValidFacts(f) && Inv(f, w) && !KeepsSource(f, w) && KeepsSource(f, HostAct(f, w, list, st))
    ensures w.host.HostLoaded? && HostAct(f, w, list, st).host.HostClosing? && w.paths.Keys == {f.src.addr}
  {
    hide AgentInv, SpdkInv, EnvInv, HostDecide, HostInv, Chain;
    if w.host.HostLoaded? {
      HostDecideKeeps(f, w, w.host.s, list);
      if HostDecide(f, w, w.host.s, list).host.HostClosing? {
        DecidesAlone(f, w, list);
      }
    } else {
      RestKeepsSource(f, w, list, st);
    }
  }

  /** Past its decision the host cuts the source path before it closes. */
  lemma RestKeepsSource(f: Facts, w: World, list: seq<Subsystem>, st: PathState)
    requires ValidFacts(f) && Inv(f, w) && !KeepsSource(f, w) && !w.host.HostLoaded?
    ensures !KeepsSource(f, HostAct(f, w, list, st))
  {
    hide AgentInv, SpdkInv, EnvInv, HostDecide, Good, Leads, Update, Chain;
    var idle := w.(host := HostIdle);
    match w.host
    case HostIdle =>
    case HostConnecting(_) =>
    case HostConnected(s) => UpdatesHost(idle, HostUp(s));
    case HostSwitched(s) => UpdatesHost(idle, s.(verdict := Success));
    case HostCutting(_, _) =>
    case HostClosing(s) => UpdatesHost(idle, HostDown(s));
  }

  lemma UpdatesHost(w: World, m: Object)
    requires w.hist != []
    ensures var t := Update(w, m);
            t.paths == w.paths && t.host == w.host && (t.Cur().host == w.Cur().host || t.Cur().host == m.host)
  {
  }

  lemma OthersCloseNothing(f: Facts, w: World, l: Label)
    requires ValidFacts(f) && Inv(f, w) && (l.AgentStep? || l.Controller?)
    ensures var t := Step(f, w, l); t.paths == w.paths && t.host == w.host && t.Cur().host == w.Cur().host
  {
    hide AgentAct, HostAct, ControllerStep, AgentInv, HostInv, SpdkInv, EnvInv, Good, Leads, OfSource;
    if l.AgentStep? {
      AgentSnapshot(f, w);
      AgentDoes(f, w);
    } else {
      ControllerDoes(f, w, l);
    }
  }

  lemma SourceStep(f: Facts, w: World, l: Label)
    requires ValidFacts(f) && Inv(f, w) && !KeepsSource(f, w) && KeepsSource(f, Step(f, w, l))
    ensures ClosesAlone(f, w, l)
  {
    hide AgentAct, HostAct, ControllerStep, AgentInv, HostInv, SpdkInv, EnvInv, OfSource, Progressed;
    if l.HostStep? {
      HostKeepsSource(f, w, l.list, l.connectedAs);
    } else if l.AgentStep? || l.Controller? {
      OthersCloseNothing(f, w, l);
    }
  }

  ghost predicate ClosesAloneAt(f: Facts, w: World, ls: seq<Label>, k: nat)
    requires w.hist != [] && k < |ls|
  {
    ClosesAlone(f, Run(f, w, ls[..k]), ls[k])
  }

  lemma {:induction false} KeptEarlier(f: Facts, w: World, ls: seq<Label>)
    requires ValidFacts(f) && Inv(f, w) && !KeepsSource(f, w) && KeepsSource(f, Run(f, w, ls))
    ensures exists k: nat :: k < |ls| && ClosesAloneAt(f, w, ls, k)
    decreases |ls|
  {
    hide Run, Step, AgentInv, HostInv, SpdkInv, EnvInv, KeepsSource, ClosesAlone;
    RunNothing(f, w);
    var k := |ls| - 1;
    var init := ls[..k];
    RunLast(f, w, ls);
    if KeepsSource(f, Run(f, w, init)) {
      KeptEarlier(f, w, init);
      var j: nat :| j < |init| && ClosesAloneAt(f, w, init, j);
      assert init[..j] == ls[..j];
      assert ClosesAloneAt(f, w, ls, j);
    } else {
      RunInv(f, w, init);
      SourceStep(f, Run(f, w, init), ls[k]);
      assert ClosesAloneAt(f, w, ls, k);
    }
  }

  /**
   In every run: when the host has recorded that it is disconnected, and so when the migration is finished, it has
   lost the source path, unless a pass of it had decided to close with that path as its only one.
   */
  lemma SourceIsCut(f: Facts, w0: World, ls: seq<Label>)
    requires ValidFacts(f) && Initial(f, w0) && Run(f, w0, ls).Cur().host == Disconnected
    ensures || f.src.addr !in Run(f, w0, ls).paths
            || exists k: nat :: k < |ls| && ClosesAloneAt(f, w0, ls, k)
  {
    assert !KeepsSource(f, w0);
    InitialInv(f, w0);
    hide Run, Initial, AgentInv, HostInv, SpdkInv, EnvInv, ClosesAloneAt;
    if f.src.addr in Run(f, w0, ls).paths {
      KeptEarlier(f, w0, ls);
    }
  }
}
