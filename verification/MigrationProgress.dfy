/**
 Live migration cannot get stuck by itself: from every reachable state it can still finish,
 unless the controller has recorded an error or the host has lost the destination path
 before the switch was recorded. The second condition is exact.
 */
module MigrationProgress {
  import opened Prelude
  import opened HostScan
  import opened Migration
  import opened MigrationSafety
  import opened MigrationRuns

  ghost predicate Reaches(f: Facts, w: World, v: World)
    requires w.hist != []
  {
    exists ls :: Run(f, w, ls) == v
  }

  lemma ReachesSelf(f: Facts, w: World)
    requires w.hist != []
    ensures Reaches(f, w, w)
  {
    assert Run(f, w, []) == w;
  }

  lemma ReachesTransitive(f: Facts, u: World, v: World, w: World)
    requires u.hist != [] && v.hist != [] && Reaches(f, u, v) && Reaches(f, v, w)
    ensures Reaches(f, u, w)
  {
    var a :| Run(f, u, a) == v;
    var b :| Run(f, v, b) == w;
    RunConcat(f, u, a, b);
  }

  lemma RunStep(f: Facts, w: World, a: Label)
    requires w.hist != []
    ensures Run(f, w, [a]) == Step(f, w, a)
  {
    assert Run(f, Step(f, w, a), [a][1..]) == Step(f, w, a);
  }

  lemma RunTwo(f: Facts, w: World, a: Label, b: Label)
    requires w.hist != []
    ensures Run(f, w, [a, b]) == Step(f, Step(f, w, a), b)
  {
    assert [a, b][1..] == [b];
    RunStep(f, Step(f, w, a), b);
  }

  // ---------------------------------------------------------------------------
  // Listings exist for every set of paths

  lemma PathsWith(m: map<Addr, PathState>, a: Addr, rest: seq<Path>) returns (r: seq<Path>)
    requires a in m && Enumerates(rest, m - {a})
    ensures Enumerates(r, m)
  {
    r := [Path(a, m[a])] + rest;
    assert |r| == |m| by {
      assert m.Keys == (m - {a}).Keys + {a};
    }
    assert forall i :: 0 <= i < |r| ==> r[i] == if i == 0 then Path(a, m[a]) else rest[i - 1];
    forall b | b in m
      ensures exists i :: 0 <= i < |r| && r[i].addr == b
    {
      ListedWith(m, a, rest, r, b);
    }
  }

  lemma ListedWith(m: map<Addr, PathState>, a: Addr, rest: seq<Path>, r: seq<Path>, b: Addr)
    requires a in m && Enumerates(rest, m - {a}) && r == [Path(a, m[a])] + rest && b in m
    ensures exists i :: 0 <= i < |r| && r[i].addr == b
  {
    if b == a {
      assert r[0].addr == a;
    } else {
      assert b in m - {a};
      var j :| 0 <= j < |rest| && rest[j].addr == b;
      assert r[j + 1].addr == b;
    }
  }

  lemma {:induction false} PathsOf(m: map<Addr, PathState>) returns (r: seq<Path>)
    ensures Enumerates(r, m)
    decreases |m|
  {
    if m == map[] {
      r := [];
    } else {
      var a :| a in m;
      assert m.Keys == (m - {a}).Keys + {a};
      var rest := PathsOf(m - {a});
      r := PathsWith(m, a, rest);
    }
  }

  lemma Listing(nqn: string, m: map<Addr, PathState>) returns (r: seq<Subsystem>)
    ensures Lists(r, nqn, m)
  {
    var paths := PathsOf(m);
    r := [Subsystem(nqn, paths)];
    assert r[0].nqn == nqn;
  }

  // ---------------------------------------------------------------------------
  // One protocol move at a time

  predicate Idle(w: World) { w.agent == AgentIdle && w.host == HostIdle }

  /** The destination path is there, or no longer or not yet needed. */
  ghost predicate PathOk(f: Facts, w: World)
    requires w.hist != []
  {
    f.dest.addr in w.paths || w.Cur().verdict == Success || w.Cur().host != Connected
  }

  ghost predicate Live(f: Facts, w: World) {
    Inv(f, w) && Idle(w) && w.Cur().status != Failed && PathOk(f, w)
  }

  /** What is still missing before the pipe can be set up. */
  ghost function Missing(w: World): nat
    requires w.hist != []
  {
    var m := w.Cur();
    (if Unfilled(m.source) then 1 else 0) + (if m.nodeLabel == None then 1 else 0)
    + (if m.dest.name == None then 1 else 0) + (2 - w.destVol.Rank())
    + (if m.dest.node == None || m.dest.target == None then 1 else 0)
  }

  ghost predicate Closer(w: World, v: World)
    requires w.hist != [] && v.hist != []
  {
    || Measure(v.Cur()) < Measure(w.Cur())
    || (Measure(v.Cur()) == Measure(w.Cur()) && Missing(v) < Missing(w))
  }

  ghost predicate Moves(f: Facts, w: World, v: World)
    requires w.hist != []
  {
    Reaches(f, w, v) && Live(f, v) && Closer(w, v) && KeepsCopy(w, v)
  }

  /** A copy task runs from the moment the switch is allowed. */
  ghost predicate Copying(w: World)
    requires w.hist != []
  {
    w.Cur().enabled ==> w.Own() != []
  }

  /** The pipe is not taken down by what moves the phase, and the copy stays as long as the pipe is up. */
  ghost predicate KeepsCopy(w: World, v: World)
    requires w.hist != [] && v.hist != []
  {
    && (v.Cur().phase == w.Cur().phase || v.Cur().pipe == w.Cur().pipe)
    && (Copying(w) && v.Cur().pipe != Disconnected ==> Copying(v))
  }

  /** A controller pass over the current version with both volumes seen as they are. */
  ghost function Pass(f: Facts, w: World): Label
    requires w.hist != []
  {
    Controller(|w.hist| - 1, SourceFound(true, false, true, f.srcNode, f.srcHost, f.src),
               if w.destVol == Absent then DestMissing else DestFound(w.destVol == Ready, f.destNode, f.dest), "mig-")
  }

  lemma Conclude(f: Facts, w: World, ls: seq<Label>, v: World)
    requires ValidFacts(f) && Live(f, w) && v == Run(f, w, ls)
    requires Idle(v) && v.Cur().status != Failed && PathOk(f, v) && Closer(w, v)
    requires v.Cur().phase == w.Cur().phase || v.Cur().pipe == w.Cur().pipe
    requires || (v.tasks == w.tasks && v.Cur().enabled == w.Cur().enabled)
             || v.Own() != [] || v.Cur().pipe == Disconnected
    ensures Moves(f, w, v)
  {
    hide Run, Closer, AgentInv, HostInv, SpdkInv, EnvInv, OfSource;
    RunInv(f, w, ls);
    NothingUndone(f, w, ls);
  }

  // The controller's moves

  ghost predicate Prepares(f: Facts, w: World, v: World)
    requires w.hist != [] && v.hist != []
  {
    && v == w.(hist := v.hist, destVol := v.destVol) && v.Cur().status != Failed
    && v.Cur().verdict == w.Cur().verdict && v.Cur().host == w.Cur().host && Closer(w, v)
    && v.Cur().pipe == w.Cur().pipe && v.Cur().enabled == w.Cur().enabled
  }

  /** What a pass over the newest version does: its write lands. */
  lemma PassWrites(f: Facts, w: World, x: Write)
    requires w.hist != []
    requires var l := Pass(f, w); x == ControllerPass(w.Cur(), l.src, l.dest, l.newName)
    ensures var m, v := w.Cur(), Step(f, w, Pass(f, w));
            && (x.WriteStatus? && x.m == m.(phase := x.m.phase, status := x.m.status) ==> v == Recording(w, x.m))
            && (x.WriteSpec? && x.m == m.(source := x.m.source, nodeLabel := x.m.nodeLabel, dest := x.m.dest) ==>
                  v == Recording(w, x.m))
            && (x.CreateDest? && w.destVol == Absent ==> v == w.(destVol := Creating))
  {
    hide ControllerPass, AgentAct, HostAct;
  }

  /** Filling in a missing field brings the migration closer. */
  lemma SpecPrepares(f: Facts, w: World, m: Object)
    requires w.hist != [] && w.Cur().status != Failed
    requires m == w.Cur().(source := m.source, nodeLabel := m.nodeLabel, dest := m.dest)
    requires Missing(Recording(w, m)) < Missing(w)
    ensures Prepares(f, w, Recording(w, m))
  {
    hide Missing;
  }

  /** So does moving the phase forward. */
  lemma StatusPrepares(f: Facts, w: World, phase: Phase, status: RunStatus)
    requires w.hist != [] && status != Failed && w.Cur().phase.Rank() < phase.Rank()
    ensures Prepares(f, w, Recording(w, w.Cur().(phase := phase, status := status)))
  {
    hide Missing;
  }

  lemma PassStarts(f: Facts, w: World)
    requires w.hist != [] && w.Cur().status != Failed && w.Cur().phase == NoPhase
    ensures Prepares(f, w, Step(f, w, Pass(f, w)))
  {
    hide Step, Prepares;
    PassWrites(f, w, WriteStatus(w.Cur().(phase := Pending, status := InWork)));
    StatusPrepares(f, w, Pending, InWork);
  }

  lemma PassFills(f: Facts, w: World)
    requires ValidFacts(f) && w.hist != [] && w.Cur().status != Failed && w.Cur().phase == Pending
    ensures Prepares(f, w, Step(f, w, Pass(f, w)))
  {
    hide Step, Prepares;
    var m := w.Cur();
    if Unfilled(m.source) {
      var n := m.(source := m.source.(node := f.srcNode, host := f.srcHost, target := Some(f.src)));
      PassWrites(f, w, WriteSpec(n));
      SpecPrepares(f, w, n);
    } else if m.nodeLabel == None {
      var n := m.(nodeLabel := f.srcNode);
      PassWrites(f, w, WriteSpec(n));
      SpecPrepares(f, w, n);
    } else {
      PassWrites(f, w, WriteStatus(m.(phase := CreatingVolume, status := InWork)));
      StatusPrepares(f, w, CreatingVolume, InWork);
    }
  }

  lemma PassNames(f: Facts, w: World)
    requires w.hist != [] && w.Cur().status != Failed && w.Cur().phase == CreatingVolume
    requires !Unfilled(w.Cur().source) && w.Cur().nodeLabel.Some? && w.Cur().dest.name == None
    ensures Prepares(f, w, Step(f, w, Pass(f, w)))
  {
    hide Step, Prepares;
    var m, l := w.Cur(), Pass(f, w);
    var n := m.(dest := m.dest.(name := Some(l.newName), host := l.src.host));
    PassWrites(f, w, WriteSpec(n));
    SpecPrepares(f, w, n);
  }

  lemma PassCreates(f: Facts, w: World)
    requires ValidFacts(f) && w.hist != [] && Good(f, w.Cur()) && w.Cur().status != Failed
    requires w.Cur().phase == CreatingVolume && w.destVol != Creating
    requires EnvInv(w.Cur(), w.destVol, w.sawWorking)
    ensures Prepares(f, w, Step(f, w, Pass(f, w)))
  {
    hide Step;
    var m := w.Cur();
    if m.dest.name == None {
      PassNames(f, w);
    } else if w.destVol == Absent {
      PassWrites(f, w, CreateDest(m.dest.name.value));
    } else if m.dest.node == None || m.dest.target == None {
      var n := m.(dest := m.dest.(node := f.destNode, target := Some(f.dest)));
      PassWrites(f, w, WriteSpec(n));
      hide Prepares;
      SpecPrepares(f, w, n);
    } else {
      PassWrites(f, w, WriteStatus(m.(phase := SetupPipe)));
      hide Prepares;
      StatusPrepares(f, w, SetupPipe, m.status);
    }
  }

  lemma ControllerPrepares(f: Facts, w: World) returns (v: World)
    requires ValidFacts(f) && Live(f, w) && w.Cur().phase.Rank() < SetupPipe.Rank() && w.destVol != Creating
    ensures Moves(f, w, v)
  {
    hide Step, AgentInv, HostInv, SpdkInv, Closer;
    if w.Cur().phase == CreatingVolume {
      PassCreates(f, w);
    } else if w.Cur().phase == NoPhase {
      PassStarts(f, w);
    } else {
      PassFills(f, w);
    }
    RunStep(f, w, Pass(f, w));
    v := Step(f, w, Pass(f, w));
    Conclude(f, w, [Pass(f, w)], v);
  }

  lemma DestVolumeReady(f: Facts, w: World) returns (v: World)
    requires ValidFacts(f) && Live(f, w) && w.destVol == Creating
    ensures Moves(f, w, v)
  {
    RunStep(f, w, EnvDest);
    v := Step(f, w, EnvDest);
    Conclude(f, w, [EnvDest], v);
  }

  lemma PassAdvances(f: Facts, w: World)
    requires ValidFacts(f) && w.hist != [] && Good(f, w.Cur()) && w.Cur().status != Failed && w.destVol == Ready
    requires var m := w.Cur();
             || (m.phase == SetupPipe && m.pipe == Connected && m.host == Connected)
             || (m.phase == Syncing && m.verdict == Success)
             || (m.phase == Cleaning && m.pipe == Disconnected && m.host == Disconnected)
    ensures var v := Step(f, w, Pass(f, w));
            var m := w.Cur();
            && v == w.(hist := v.hist) && v.Cur().status != Failed
            && v.Cur().verdict == m.verdict && v.Cur().host == m.host && Closer(w, v)
            && v.Cur().pipe == m.pipe && v.Cur().enabled == m.enabled
  {
    hide Step;
    var m, l := w.Cur(), Pass(f, w);
    PassWrites(f, w, ControllerPass(m, l.src, l.dest, l.newName));
    assert ControllerPass(m, l.src, l.dest, l.newName) == PhasePass(m);
  }

  lemma ControllerAdvances(f: Facts, w: World) returns (v: World)
    requires ValidFacts(f) && Live(f, w)
    requires var m := w.Cur();
             || (m.phase == SetupPipe && m.pipe == Connected && m.host == Connected)
             || (m.phase == Syncing && m.verdict == Success)
             || (m.phase == Cleaning && m.pipe == Disconnected && m.host == Disconnected)
    ensures Moves(f, w, v)
  {
    PassAdvances(f, w);
    RunStep(f, w, Pass(f, w));
    hide Step, AgentInv, HostInv, SpdkInv;
    v := Step(f, w, Pass(f, w));
    Conclude(f, w, [Pass(f, w)], v);
  }

  // The agent's moves

  ghost function Recording(w: World, m: Object): World {
    w.(hist := w.hist + [m.(version := |w.hist|)])
  }

  /** The agent reads the newest version and decides. */
  lemma AgentBegins(f: Facts, w: World)
    requires w.hist != [] && w.agent == AgentIdle
    ensures Run(f, w, [AgentRead, AgentStep]) == AgentDecide(w.(agent := AgentLoaded(w.Cur())), w.Cur())
  {
    hide AgentDecide;
    RunTwo(f, w, AgentRead, AgentStep);
  }

  /** A write made from the newest version lands. */
  lemma UpdateLands(w: World, m: Object)
    requires w.hist != [] && m.version == w.Cur().version && m.phase == w.Cur().phase && m.status == w.Cur().status
    ensures Update(w, m) == Recording(w, m)
  {
  }

  lemma AgentUpRun(f: Facts, w: World)
    requires w.hist != [] && w.agent == AgentIdle && w.destVol == Ready
    requires w.Cur().phase == SetupPipe && w.Cur().bdev == None && w.Cur().dest.name.Some?
    ensures var m := w.Cur();
            Run(f, w, [AgentRead, AgentStep] + [AgentStep])
            == Recording(w.(bdevs := w.bdevs + {DestBdev(m)}), PipeUp(m))
  {
    AgentBegins(f, w);
    var m := w.Cur();
    var u := Run(f, w, [AgentRead, AgentStep]);
    assert u == w.(bdevs := w.bdevs + {DestBdev(m)}, agent := AgentAttached(m));
    hide Run, AgentDecide, Update;
    RunConcat(f, w, [AgentRead, AgentStep], [AgentStep]);
    RunStep(f, u, AgentStep);
    UpdateLands(u.(agent := AgentIdle), PipeUp(m));
  }

  lemma AgentSetsUp(f: Facts, w: World) returns (v: World)
    requires ValidFacts(f) && Live(f, w) && w.Cur().phase == SetupPipe && w.Cur().pipe == Unknown
    ensures Moves(f, w, v)
  {
    AgentUpRun(f, w);
    v := Run(f, w, [AgentRead, AgentStep] + [AgentStep]);
    Conclude(f, w, [AgentRead, AgentStep] + [AgentStep], v);
  }

  lemma AgentStartRun(f: Facts, w: World)
    requires w.hist != [] && w.agent == AgentIdle && w.destVol == Ready && w.Own() == []
    requires w.Cur().phase == Syncing && w.Cur().dest.name.Some?
    ensures var v := Run(f, w, [AgentRead, AgentStep] + [AgentStep]);
            v == w.(tasks := w.tasks + [NewTask(w.Cur())]) && v.Own() == [NewTask(w.Cur())]
  {
    hide OfSource;
    AgentBegins(f, w);
    var m := w.Cur();
    var u := Run(f, w, [AgentRead, AgentStep]);
    assert u == w.(agent := AgentStarting(m));
    hide Run, AgentDecide;
    RunConcat(f, w, [AgentRead, AgentStep], [AgentStep]);
    RunStep(f, u, AgentStep);
    OfSourceNext(w.tasks, NewTask(m), SourceBdev(m));
  }

  const DONE := JobProgress(Completed, 1, 0)

  lemma AgentEnableRun(f: Facts, w: World)
    requires w.hist != [] && w.agent == AgentIdle && w.destVol == Ready && |w.Own()| == 1 && w.Own()[0].progress == DONE
    requires var m := w.Cur(); m.phase == Syncing && m.dest.name.Some? && !m.enabled && m.verdict == NoVerdict
    ensures Run(f, w, [AgentRead, AgentStep] + [AgentStep])
         == Recording(w.(autoSwitch := true), w.Cur().(enabled := true, progress := DONE))
  {
    hide OfSource;
    AgentBegins(f, w);
    var m := w.Cur();
    var u := Run(f, w, [AgentRead, AgentStep]);
    var next := m.(enabled := true, progress := DONE);
    assert SyncPass(m, w.Own()[0]) == Some(next);
    assert u == w.(autoSwitch := true, agent := AgentPatching(DiffPatch(m, next)));
    hide Run, AgentDecide, DiffPatch, ApplyPatch;
    RunConcat(f, w, [AgentRead, AgentStep], [AgentStep]);
    RunStep(f, u, AgentStep);
    DiffThenApply(m, next);
  }

  lemma JobDone(f: Facts, w: World)
    requires w.hist != [] && |w.Own()| == 1 && w.Own()[0].src == SourceBdev(w.Cur())
    ensures var v := Run(f, w, [EnvTask(DONE)]);
            v == w.(tasks := v.tasks) && |v.Own()| == 1 && v.Own()[0].progress == DONE
  {
    RunStep(f, w, EnvTask(DONE));
    ProgressedOwn(w.tasks, SourceBdev(w.Cur()), DONE);
    assert w.Own()[..0] == [];
    hide OfSource;
  }

  /** The agent starts the copy unless it runs already, and SPDK completes it. */
  lemma AgentCopies(f: Facts, w: World) returns (ls: seq<Label>)
    requires ValidFacts(f) && Live(f, w) && w.Cur().phase == Syncing
    ensures var v := Run(f, w, ls);
            v == w.(tasks := v.tasks) && |v.Own()| == 1 && v.Own()[0].progress == DONE
  {
    hide OfSource, Run;
    var go := [AgentRead, AgentStep] + [AgentStep];
    var first := if w.Own() == [] then go else [];
    RunNothing(f, w);
    if w.Own() == [] {
      AgentStartRun(f, w);
    }
    JobDone(f, Run(f, w, first));
    RunConcat(f, w, first, [EnvTask(DONE)]);
    ls := first + [EnvTask(DONE)];
  }

  lemma AgentEnables(f: Facts, w: World) returns (v: World)
    requires ValidFacts(f) && Live(f, w) && w.Cur().phase == Syncing && !w.Cur().enabled
    ensures Moves(f, w, v)
  {
    hide OfSource, Run, AgentInv, HostInv, SpdkInv;
    var go := [AgentRead, AgentStep] + [AgentStep];
    var ls := AgentCopies(f, w);
    var t := Run(f, w, ls);
    AgentEnableRun(f, t);
    v := Run(f, t, go);
    RunConcat(f, w, ls, go);
    Conclude(f, w, ls + go, v);
  }

  lemma AgentDownRun(f: Facts, w: World)
    requires w.hist != [] && w.agent == AgentIdle && w.destVol == Ready
    requires w.Cur().phase == Cleaning && w.Cur().pipe == Connected && w.Cur().dest.name.Some?
    ensures var v := Run(f, w, [AgentRead, AgentStep] + [AgentStep, AgentStep]);
            var c := AgentClean(w, w.Cur());
            v == Recording(c.(agent := AgentIdle, bdevs := w.bdevs - {DestBdev(w.Cur())}), PipeDown(w.Cur()))
  {
    hide Run, AgentDecide, AgentClean, Update, PipeDown;
    AgentBegins(f, w);
    CleanDecision(w);
    var m := w.Cur();
    var u := Run(f, w, [AgentRead, AgentStep]);
    RunConcat(f, w, [AgentRead, AgentStep], [AgentStep, AgentStep]);
    RunTwo(f, u, AgentStep, AgentStep);
    DownLands(u.(agent := AgentIdle, bdevs := w.bdevs - {DestBdev(m)}));
  }

  lemma CleanDecision(w: World)
    requires w.hist != [] && w.destVol == Ready
    requires w.Cur().phase == Cleaning && w.Cur().pipe == Connected && w.Cur().dest.name.Some?
    ensures var c := AgentClean(w, w.Cur());
            && AgentDecide(w.(agent := AgentLoaded(w.Cur())), w.Cur()) == c
            && c == w.(tasks := c.tasks, missed := c.missed, agent := AgentTaskCleaned(w.Cur()))
  {
    hide OfSource, TaskFound;
  }

  lemma DownLands(w: World)
    requires w.hist != []
    ensures Update(w, PipeDown(w.Cur())) == Recording(w, PipeDown(w.Cur()))
  {
    UpdateLands(w, PipeDown(w.Cur()));
  }

  lemma AgentTakesDown(f: Facts, w: World) returns (v: World)
    requires ValidFacts(f) && Live(f, w) && w.Cur().phase == Cleaning && w.Cur().pipe == Connected
    ensures Moves(f, w, v)
  {
    hide OfSource, TaskFound, Run;
    AgentDownRun(f, w);
    v := Run(f, w, [AgentRead, AgentStep] + [AgentStep, AgentStep]);
    Conclude(f, w, [AgentRead, AgentStep] + [AgentStep, AgentStep], v);
  }

  // The host's moves: a pass reads a listing and decides, then acts and records

  const ACT := HostStep([], Working)

  lemma ConnectDecision(f: Facts, w: World, list: seq<Subsystem>)
    requires w.hist != [] && w.host == HostIdle && w.destVol == Ready && Lists(list, f.dest.nqn, w.paths)
    requires w.Cur().phase == SetupPipe && w.Cur().host == Unknown && w.Cur().dest.name.Some?
    ensures Run(f, w, [HostRead, HostStep(list, Working)])
         == w.(host := if f.dest.addr in w.paths then HostConnected(w.Cur()) else HostConnecting(w.Cur()))
  {
    hide Lists, Flag, Run;
    FlagOfListing(list, f.dest.nqn, w.paths, f.dest.addr, false);
    RunTwo(f, w, HostRead, HostStep(list, Working));
  }

  lemma SwitchDecision(f: Facts, w: World, list: seq<Subsystem>)
    requires w.hist != [] && w.host == HostIdle && w.destVol == Ready && Lists(list, f.dest.nqn, w.paths)
    requires f.dest.addr in w.paths && w.paths[f.dest.addr] == Working
    requires var m := w.Cur(); m.phase == Syncing && m.enabled && m.verdict != Success
    requires w.Cur().dest.name.Some? && w.Cur().dest.target == Some(f.dest)
    ensures Run(f, w, [HostRead, HostStep(list, Working)]) == w.(host := HostSwitched(w.Cur()), sawWorking := true)
  {
    hide Lists, Flag, Run;
    FlagOfListing(list, f.dest.nqn, w.paths, f.dest.addr, true);
    RunTwo(f, w, HostRead, HostStep(list, Working));
  }

  lemma CleaningDecision(f: Facts, w: World, list: seq<Subsystem>)
    requires w.hist != [] && w.host == HostIdle && w.destVol == Ready && Lists(list, f.dest.nqn, w.paths)
    requires w.Cur().phase == Cleaning && w.Cur().host == Connected && w.Cur().dest.name.Some?
    requires w.Cur().dest.target == Some(f.dest) && SourceAddr(w.Cur()) == f.src.addr
    requires f.src.addr in w.paths ==> w.paths[f.src.addr] == Degraded
    ensures Run(f, w, [HostRead, HostStep(list, Working)])
         == w.(host := if f.src.addr in w.paths && |w.paths| > 1 then HostCutting(w.Cur(), w.paths)
                       else HostClosing(w.Cur()))
  {
    hide Lists, SourcePath, Run;
    SourceOfListing(list, f.dest.nqn, w.paths, f.src.addr);
    RunTwo(f, w, HostRead, HostStep(list, Working));
  }

  lemma ConnectAndRecord(f: Facts, w: World) returns (ls: seq<Label>)
    requires w.hist != []
    requires w.host == HostConnecting(w.Cur()) || (w.host == HostConnected(w.Cur()) && f.dest.addr in w.paths)
    ensures var v := Run(f, w, ls);
            v == Recording(w.(paths := v.paths, host := HostIdle), HostUp(w.Cur())) && f.dest.addr in v.paths
  {
    hide Run, HostDecide, Update;
    if w.host.HostConnecting? {
      ls := [ACT, ACT];
      RunTwo(f, w, ACT, ACT);
      UpdateLands(w.(paths := w.paths[f.dest.addr := Working], host := HostIdle), HostUp(w.Cur()));
    } else {
      ls := [ACT];
      RunStep(f, w, ACT);
      UpdateLands(w.(host := HostIdle), HostUp(w.Cur()));
    }
  }

  lemma CutAndRecord(f: Facts, w: World) returns (ls: seq<Label>)
    requires w.hist != [] && (w.host == HostClosing(w.Cur()) || (w.host.HostCutting? && w.host.s == w.Cur()))
    ensures var v := Run(f, w, ls); v == Recording(w.(paths := v.paths, host := HostIdle), HostDown(w.Cur()))
  {
    hide Run, HostDecide, Update, Without;
    if w.host.HostCutting? {
      ls := [ACT, ACT];
      RunTwo(f, w, ACT, ACT);
      UpdateLands(w.(paths := w.paths - {SourceAddr(w.Cur())}, host := HostIdle), HostDown(w.Cur()));
    } else {
      ls := [ACT];
      RunStep(f, w, ACT);
      UpdateLands(w.(host := HostIdle), HostDown(w.Cur()));
    }
  }

  lemma HostConnects(f: Facts, w: World) returns (v: World)
    requires ValidFacts(f) && Live(f, w) && w.Cur().phase == SetupPipe && w.Cur().host == Unknown
    ensures Moves(f, w, v)
  {
    hide Run, Step, Lists, AgentInv, HostInv, SpdkInv;
    var list := Listing(f.dest.nqn, w.paths);
    var first := [HostRead, HostStep(list, Working)];
    ConnectDecision(f, w, list);
    var second := ConnectAndRecord(f, Run(f, w, first));
    v := Run(f, Run(f, w, first), second);
    RunConcat(f, w, first, second);
    Conclude(f, w, first + second, v);
  }

  lemma SwitchRun(f: Facts, w: World) returns (ls: seq<Label>)
    requires w.hist != [] && w.host == HostIdle && w.destVol == Ready
    requires f.dest.addr in w.paths && w.paths[f.dest.addr] == Working
    requires var m := w.Cur(); m.phase == Syncing && m.enabled && m.verdict != Success
    requires w.Cur().dest.name.Some? && w.Cur().dest.target == Some(f.dest)
    ensures Run(f, w, ls) == Recording(w.(sawWorking := true), w.Cur().(verdict := Success))
  {
    var list := Listing(f.dest.nqn, w.paths);
    var first := [HostRead, HostStep(list, Working)];
    SwitchDecision(f, w, list);
    hide Run, HostDecide, Update;
    UpdateLands(w.(sawWorking := true, host := HostIdle), w.Cur().(verdict := Success));
    RunStep(f, Run(f, w, first), ACT);
    RunConcat(f, w, first, [ACT]);
    ls := first + [ACT];
  }

  lemma DownRun(f: Facts, w: World) returns (ls: seq<Label>)
    requires w.hist != [] && w.host == HostIdle && w.destVol == Ready
    requires w.Cur().phase == Cleaning && w.Cur().host == Connected && w.Cur().dest.name.Some?
    requires w.Cur().dest.target == Some(f.dest) && SourceAddr(w.Cur()) == f.src.addr
    requires f.src.addr in w.paths ==> w.paths[f.src.addr] == Degraded
    ensures var v := Run(f, w, ls); v == Recording(w.(paths := v.paths), HostDown(w.Cur()))
  {
    var list := Listing(f.dest.nqn, w.paths);
    var first := [HostRead, HostStep(list, Working)];
    CleaningDecision(f, w, list);
    var second := CutAndRecord(f, Run(f, w, first));
    RunConcat(f, w, first, second);
    ls := first + second;
  }

  lemma HostSeesSwitch(f: Facts, w: World) returns (v: World)
    requires ValidFacts(f) && Live(f, w) && w.Cur().phase == Syncing && w.Cur().enabled && w.Cur().verdict != Success
    ensures Moves(f, w, v)
  {
    var zero := [EnvPath(f.dest.addr, Working)];
    RunStep(f, w, zero[0]);
    var ls := SwitchRun(f, Run(f, w, zero));
    v := Run(f, Run(f, w, zero), ls);
    RunConcat(f, w, zero, ls);
    Conclude(f, w, zero + ls, v);
  }

  lemma HostDisconnects(f: Facts, w: World) returns (v: World)
    requires ValidFacts(f) && Live(f, w) && w.Cur().phase == Cleaning && w.Cur().host == Connected
    ensures Moves(f, w, v)
  {
    var zero := [EnvPath(f.src.addr, Degraded)];
    RunStep(f, w, zero[0]);
    var ls := DownRun(f, Run(f, w, zero));
    v := Run(f, Run(f, w, zero), ls);
    RunConcat(f, w, zero, ls);
    Conclude(f, w, zero + ls, v);
  }

  /** In every live unfinished state some actor can bring the migration closer to its end. */
  lemma SomeActorCanMove(f: Facts, w: World) returns (v: World)
    requires ValidFacts(f) && Live(f, w) && w.Cur().phase != Finished
    ensures Moves(f, w, v)
  {
    var m := w.Cur();
    match m.phase
    case SetupPipe =>
      if m.pipe == Unknown { v := AgentSetsUp(f, w); }
      else if m.host == Unknown { v := HostConnects(f, w); }
      else { v := ControllerAdvances(f, w); }
    case Syncing =>
      if !m.enabled { v := AgentEnables(f, w); }
      else if m.verdict != Success { v := HostSeesSwitch(f, w); }
      else { v := ControllerAdvances(f, w); }
    case Cleaning =>
      if m.pipe == Connected { v := AgentTakesDown(f, w); }
      else if m.host == Connected { v := HostDisconnects(f, w); }
      else { v := ControllerAdvances(f, w); }
    case _ =>
      if w.destVol == Creating { v := DestVolumeReady(f, w); }
      else { v := ControllerPrepares(f, w); }
  }

  lemma {:induction false} LiveFinishes(f: Facts, w: World) returns (v: World)
    requires ValidFacts(f) && Live(f, w)
    ensures Reaches(f, w, v) && v.hist != [] && v.Cur().phase == Finished
    decreases Measure(w.Cur()), Missing(w)
  {
    if w.Cur().phase == Finished {
      ReachesSelf(f, w);
      v := w;
    } else {
      var u := SomeActorCanMove(f, w);
      v := LiveFinishes(f, u);
      ReachesTransitive(f, w, u, v);
    }
  }

  // ---------------------------------------------------------------------------
  // The exact condition

  /** A host pass has seen the switch and nothing was recorded since it read the object. */
  ghost predicate SwitchPending(w: World)
    requires w.hist != []
  {
    w.host.HostSwitched? && w.host.s.version == w.Cur().version
  }

  ghost predicate CanFinish(f: Facts, w: World)
    requires w.hist != []
  {
    || w.Cur().phase == Finished
    || (w.Cur().status != Failed && (PathOk(f, w) || SwitchPending(w)))
  }

  /** Stopping both actors loses nothing that is recorded. */
  lemma Quiesce(f: Facts, w: World) returns (v: World)
    requires ValidFacts(f) && Inv(f, w) && w.Cur().status != Failed && PathOk(f, w)
    ensures Reaches(f, w, v) && Live(f, v)
  {
    hide AgentAct, HostAct, ControllerStep, OfSource;
    var ls := [AgentStop, HostStop];
    assert ls[1..] == [HostStop];
    RunStep(f, Step(f, w, AgentStop), HostStop);
    v := Run(f, w, ls);
    RunInv(f, w, ls);
  }

  lemma RecordsSwitch(f: Facts, w: World)
    requires w.hist != [] && SwitchPending(w)
    ensures var v := Step(f, w, HostStep([], Working));
            v.Cur().verdict == Success && v.Cur().status == w.Cur().status
  {
  }

  lemma FinishPossible(f: Facts, w: World) returns (v: World)
    requires ValidFacts(f) && Inv(f, w) && CanFinish(f, w)
    ensures Reaches(f, w, v) && v.hist != [] && v.Cur().phase == Finished
  {
    ReachesSelf(f, w);
    v := w;
    if w.Cur().phase != Finished {
      if !PathOk(f, w) {
        var l := HostStep([], Working);
        RecordsSwitch(f, w);
        RunStep(f, w, l);
        StepInv(f, w, l);
        v := Step(f, w, l);
      }
      var u := Quiesce(f, v);
      ReachesTransitive(f, w, v, u);
      v := LiveFinishes(f, u);
      ReachesTransitive(f, w, u, v);
    }
  }

  lemma HopelessStep(f: Facts, w: World, l: Label)
    requires ValidFacts(f) && Inv(f, w) && !CanFinish(f, w)
    ensures !CanFinish(f, Step(f, w, l))
  {
    StepLeads(f, w, l);
    StepInv(f, w, l);
    if w.Cur().status == Failed {
      FailedKeepsPhase(f, w, l);
    } else {
      LostKeepsLost(f, w, l);
    }
  }

  lemma ControllerHalted(f: Facts, w: World, l: Label)
    requires Chain(f, w.hist) && l.Controller? && w.Cur().status == Failed
    ensures ControllerStep(f, w, l).hist == w.hist
  {
    hide Good, Leads;
    if l.i < |w.hist| - 1 {
      Version(f, w.hist, l.i);
      ControllerStale(f, w, w.hist[l.i], l, ControllerPass(w.hist[l.i], l.src, l.dest, l.newName));
    }
  }

  /** A recorded error is final: the phase never moves again. */
  lemma FailedKeepsPhase(f: Facts, w: World, l: Label)
    requires ValidFacts(f) && Inv(f, w) && w.Cur().status == Failed
    ensures Step(f, w, l).Cur().phase == w.Cur().phase
  {
    hide AgentAct, HostAct, ControllerStep, AgentInv, HostInv, SpdkInv, OfSource;
    if l.Controller? {
      ControllerHalted(f, w, l);
    } else if l.AgentStep? {
      AgentKeepsStatus(w);
    } else if l.HostStep? {
      HostKeepsStatus(f, w, l.list, l.connectedAs);
    }
  }

  ghost predicate Lost(f: Facts, w: World)
    requires w.hist != []
  {
    !PathOk(f, w) && !SwitchPending(w)
  }

  /** While it is lost the recorded object is before the cleanup, so it is not finished. */
  lemma LostIsUnfinished(f: Facts, w: World)
    requires Inv(f, w) && Lost(f, w)
    ensures w.Cur().phase != Finished
  {
    hide AgentInv, HostInv, SpdkInv, EnvInv;
  }

  lemma LostStep(f: Facts, w: World, l: Label)
    requires ValidFacts(f) && Inv(f, w) && Lost(f, w)
    ensures Lost(f, Step(f, w, l))
  {
    hide AgentAct, HostAct, ControllerStep, AgentInv, HostInv, SpdkInv, EnvInv, OfSource, Progressed;
    if l.Controller? {
      LostController(f, w, l);
    } else if l.AgentStep? {
      LostAgent(f, w);
    } else if l.HostStep? {
      LostHost(f, w, l.list, l.connectedAs);
    }
  }

  lemma LostKeepsLost(f: Facts, w: World, l: Label)
    requires ValidFacts(f) && Inv(f, w) && Lost(f, w)
    ensures Lost(f, Step(f, w, l)) && Step(f, w, l).Cur().phase != Finished
  {
    hide Step, Lost, AgentInv, HostInv, SpdkInv, EnvInv;
    LostStep(f, w, l);
    StepInv(f, w, l);
    LostIsUnfinished(f, Step(f, w, l));
  }

  lemma LostController(f: Facts, w: World, l: Label)
    requires ValidFacts(f) && Inv(f, w) && Lost(f, w) && l.Controller?
    ensures Lost(f, ControllerStep(f, w, l))
  {
    hide ControllerStep, AgentInv, SpdkInv, EnvInv, Good, Leads;
    ControllerDoes(f, w, l);
  }

  lemma LostAgent(f: Facts, w: World)
    requires ValidFacts(f) && Inv(f, w) && Lost(f, w)
    ensures Lost(f, AgentAct(w))
  {
    hide AgentAct, AgentInv, SpdkInv, EnvInv, Good, Leads, OfSource;
    AgentSnapshot(f, w);
    AgentDoes(f, w);
  }

  lemma LostHost(f: Facts, w: World, list: seq<Subsystem>, st: PathState)
    requires ValidFacts(f) && Inv(f, w) && Lost(f, w)
    ensures Lost(f, HostAct(f, w, list, st))
  {
    hide AgentInv, SpdkInv, EnvInv, HostDecide, Chain, SourceAddr;
    if w.host.HostLoaded? {
      LostDecides(f, w, list);
    } else {
      HostSnapshot(f, w);
    }
  }

  lemma LostDecides(f: Facts, w: World, list: seq<Subsystem>)
    requires ValidFacts(f) && Inv(f, w) && Lost(f, w) && w.host.HostLoaded?
    ensures Lost(f, HostDecide(f, w, w.host.s, list))
  {
    hide AgentInv, SpdkInv, EnvInv, Chain, Flag, Lists, SourcePath;
    HostSnapshot(f, w);
    if Lists(list, f.dest.nqn, w.paths) {
      FlagOfListing(list, f.dest.nqn, w.paths, f.dest.addr, true);
    }
  }

  lemma {:induction false} HopelessRun(f: Facts, w: World, ls: seq<Label>)
    requires ValidFacts(f) && Inv(f, w) && !CanFinish(f, w)
    ensures Run(f, w, ls).Cur().phase != Finished
    decreases |ls|
  {
    if ls != [] {
      HopelessStep(f, w, ls[0]);
      StepInv(f, w, ls[0]);
      HopelessRun(f, Step(f, w, ls[0]), ls[1..]);
    }
  }

  /**
   No deadlock, with its exact condition: a reachable migration has a continuation that finishes
   it if and only if it is finished already, or no error is recorded and the destination path is
   present, not yet needed, no longer needed, or its switch is about to be recorded.
   */
  lemma FinishesExactlyWhen(f: Facts, w0: World, ls: seq<Label>)
    requires ValidFacts(f) && Initial(f, w0)
    ensures var w := Run(f, w0, ls);
            CanFinish(f, w) <==> exists more :: Run(f, w, more).Cur().phase == Finished
  {
    InitialInv(f, w0);
    RunInv(f, w0, ls);
    var w := Run(f, w0, ls);
    if CanFinish(f, w) {
      var v := FinishPossible(f, w);
      var more :| Run(f, w, more) == v;
      assert Run(f, w, more).Cur().phase == Finished;
    } else {
      forall more ensures Run(f, w, more).Cur().phase != Finished {
        HopelessRun(f, w, more);
      }
    }
  }

  /** A fresh migration with a healthy environment can always finish. */
  lemma FreshMigrationFinishes(f: Facts, w0: World)
    requires ValidFacts(f) && Initial(f, w0)
    ensures exists ls :: Run(f, w0, ls).Cur().phase == Finished
  {
    InitialInv(f, w0);
    var v := FinishPossible(f, w0);
    var ls :| Run(f, w0, ls) == v;
  }

  // ---------------------------------------------------------------------------
  // A cleanup can miss the copy

  /** Once the pipe is down no later pass looks at the copy tasks again. */
  lemma MissedStep(f: Facts, w: World, l: Label)
    requires ValidFacts(f) && Inv(f, w) && w.missed && w.Cur().pipe == Disconnected
    ensures Step(f, w, l).missed && Step(f, w, l).Cur().pipe == Disconnected
  {
    hide AgentAct, HostAct, ControllerStep, AgentInv, HostInv, SpdkInv, EnvInv, OfSource, Progressed;
    StepLeads(f, w, l);
    if l.AgentStep? {
      MissedAgent(f, w);
    } else if l.Controller? {
      ControllerKeepsPaths(f, w, l);
    } else if l.HostStep? {
      HostKeepsMissed(f, w, l.list, l.connectedAs);
    }
  }

  lemma MissedAgent(f: Facts, w: World)
    requires Inv(f, w) && w.missed && w.Cur().pipe == Disconnected
    ensures AgentAct(w).missed
  {
    hide HostInv, SpdkInv, EnvInv, OfSource, SyncPass, DiffPatch, Chain;
  }

  lemma {:induction false} MissedRun(f: Facts, w: World, ls: seq<Label>)
    requires ValidFacts(f) && Inv(f, w) && w.missed && w.Cur().pipe == Disconnected
    ensures Run(f, w, ls).missed
    decreases |ls|
  {
    hide Step, AgentInv, HostInv, SpdkInv, EnvInv;
    if ls != [] {
      MissedStep(f, w, ls[0]);
      StepInv(f, w, ls[0]);
      MissedRun(f, Step(f, w, ls[0]), ls[1..]);
    }
  }

  lemma ForeignComes(f: Facts, w: World, other: Task)
    requires w.hist != [] && other.src != SourceBdev(w.Cur())
    ensures var v := w.(tasks := w.tasks + [other]);
            Run(f, w, [EnvForeign(w.tasks + [other])]) == v && v.Own() == w.Own()
  {
    hide Run, OfSource;
    OfSourceNext(w.tasks, other, SourceBdev(w.Cur()));
    RunStep(f, w, EnvForeign(w.tasks + [other]));
  }

  /** Another migration's task, listed after the copy, hides it from the cleanup. */
  lemma CleanupMisses(f: Facts, w: World, other: Task) returns (v: World)
    requires ValidFacts(f) && Live(f, w) && w.Cur().phase == Cleaning && w.Cur().pipe == Connected
    requires w.Own() != [] && other.src != SourceBdev(w.Cur())
    ensures Reaches(f, w, v) && Live(f, v) && v.missed && v.Cur().pipe == Disconnected
  {
    hide Run, OfSource, AgentInv, HostInv, SpdkInv, Without;
    var zero, down := [EnvForeign(w.tasks + [other])], [AgentRead, AgentStep] + [AgentStep, AgentStep];
    ForeignComes(f, w, other);
    var u := w.(tasks := w.tasks + [other]);
    AgentDownRun(f, u);
    v := Run(f, u, down);
    RunConcat(f, w, zero, down);
    RunInv(f, w, zero + down);
  }

  lemma {:induction false} CleaningReached(f: Facts, w: World) returns (v: World)
    requires ValidFacts(f) && Live(f, w) && Copying(w) && w.Cur().pipe != Disconnected
    ensures Reaches(f, w, v) && Live(f, v) && v.Cur().phase == Cleaning && v.Cur().pipe == Connected && v.Own() != []
    decreases Measure(w.Cur()), Missing(w)
  {
    hide Run, Reaches, OfSource, AgentInv, HostInv, SpdkInv, EnvInv;
    if w.Cur().phase == Cleaning {
      ReachesSelf(f, w);
      v := w;
    } else {
      var u := SomeActorCanMove(f, w);
      v := CleaningReached(f, u);
      ReachesTransitive(f, w, u, v);
    }
  }

  /** Every fresh migration has a run that finishes it and leaves its copy task behind. */
  lemma CleanupCanMiss(f: Facts, w0: World)
    requires ValidFacts(f) && Initial(f, w0)
    ensures exists ls :: var w := Run(f, w0, ls); w.Cur().phase == Finished && w.Own() != []
  {
    assert Copying(w0) && Idle(w0) && PathOk(f, w0);
    hide Run, OfSource, AgentInv, HostInv, EnvInv;
    InitialInv(f, w0);
    var u := CleaningReached(f, w0);
    var v := CleanupMisses(f, u, Task(SourceBdev(u.Cur()) + "x", None, DONE));
    var w := LiveFinishes(f, v);
    var rest :| Run(f, v, rest) == w;
    MissedRun(f, v, rest);
    RunInv(f, v, rest);
    ReachesTransitive(f, w0, u, v);
    ReachesTransitive(f, w0, v, w);
    var ls :| Run(f, w0, ls) == w;
  }
}
