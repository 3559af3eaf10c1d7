/**
 What holds over whole runs of a live migration, from a freshly created object.
 */
module MigrationRuns {
  import opened HostScan
  import opened Migration
  import opened MigrationSafety

  lemma {:induction false} RunConcat(f: Facts, w: World, a: seq<Label>, b: seq<Label>)
    requires w.hist != []
    ensures Run(f, w, a + b) == Run(f, Run(f, w, a), b)
    decreases |a|
  {
    if a == [] {
      assert a + b == b;
    } else {
      assert (a + b)[1..] == a[1..] + b;
      RunConcat(f, Step(f, w, a[0]), a[1..], b);
    }
  }

  lemma RunNothing(f: Facts, w: World)
    requires w.hist != []
    ensures Run(f, w, []) == w
  {
  }

  lemma RunLast(f: Facts, w: World, ls: seq<Label>)
    requires w.hist != [] && ls != []
    ensures Run(f, w, ls) == Step(f, Run(f, w, ls[..|ls| - 1]), ls[|ls| - 1])
  {
    hide Step;
    var k := |ls| - 1;
    assert ls == ls[..k] + [ls[k]];
    RunConcat(f, w, ls[..k], [ls[k]]);
    var v := Run(f, w, ls[..k]);
    assert Run(f, Step(f, v, ls[k]), [ls[k]][1..]) == Step(f, v, ls[k]);
  }

  /** Whatever the interleaving, the recorded object never claims more than SPDK and the host have done. */
  lemma RecordedIsReal(f: Facts, w0: World, ls: seq<Label>)
    requires ValidFacts(f) && Initial(f, w0)
    ensures var w := Run(f, w0, ls);
            var m := w.Cur();
            && (m.phase in {SetupPipe, Syncing} && m.pipe == Connected ==> m.bdev.Some? && m.bdev.value in w.bdevs)
            && (m.phase == Syncing ==> m.pipe == Connected && m.host == Connected)
            && (m.enabled ==> w.autoSwitch)
            && (m.verdict == Success ==> m.enabled && w.sawWorking)
            && (PipeFinalizer in m.finalizers <==> m.pipe == Connected)
            && (HostFinalizer in m.finalizers <==> m.host == Connected)
  {
    InitialInv(f, w0);
    RunInv(f, w0, ls);
  }

  /** The step of an agent's cleaning pass that looks for the copy and removes it. */
  ghost predicate Cleans(w: World, l: Label) {
    && l.AgentStep? && w.agent.AgentLoaded? && w.destVol == Ready
    && w.agent.s.dest.name.Some? && w.agent.s.phase == Cleaning && w.agent.s.pipe == Connected
  }

  /** The copy is among the listed tasks, and another one is listed last. */
  ghost predicate Hidden(w: World)
    requires w.hist != []
  {
    w.Own() != [] && w.tasks != [] && w.tasks[|w.tasks| - 1].src != SourceBdev(w.Cur())
  }

  /** A step that looks for the copy misses it exactly when it is hidden; no other step changes the flag. */
  lemma MissedExactlyWhen(f: Facts, w: World, l: Label)
    requires ValidFacts(f) && Inv(f, w)
    ensures Step(f, w, l).missed <==> if Cleans(w, l) then Hidden(w) else w.missed
  {
    hide HostAct, ControllerStep, AgentAct, AgentInv, HostInv, SpdkInv, EnvInv, OfSource, Progressed, Hidden;
    if l.AgentStep? {
      AgentMisses(f, w);
    } else if l.Controller? {
      ControllerKeepsPaths(f, w, l);
    } else if l.HostStep? {
      HostKeepsMissed(f, w, l.list, l.connectedAs);
    }
  }

  lemma AgentMisses(f: Facts, w: World)
    requires ValidFacts(f) && Inv(f, w)
    ensures AgentAct(w).missed <==> if Cleans(w, AgentStep) then Hidden(w) else w.missed
  {
    hide HostInv, EnvInv, AgentDecide, OfSource, Hidden, Good;
    if w.agent.AgentLoaded? {
      DecisionMisses(f, w);
    }
  }

  lemma DecisionMisses(f: Facts, w: World)
    requires ValidFacts(f) && Inv(f, w) && w.agent.AgentLoaded?
    ensures AgentDecide(w, w.agent.s).missed <==> if Cleans(w, AgentStep) then Hidden(w) else w.missed
  {
    hide HostInv, EnvInv, SyncPass, DiffPatch, Good;
    AgentSnapshot(f, w);
    LastOwn(w.tasks, SourceBdev(w.Cur()));
    hide OfSource, Chain;
  }

  /** Moment `k` of a run: a cleaning pass looks for the copy. */
  ghost predicate CleansAt(f: Facts, w: World, ls: seq<Label>, k: nat)
    requires w.hist != [] && k < |ls|
  {
    Cleans(Run(f, w, ls[..k]), ls[k])
  }

  /** The last cleaning pass of a run found the copy hidden. */
  ghost predicate LastCleanMisses(f: Facts, w: World, ls: seq<Label>)
    requires w.hist != []
  {
    exists k: nat :: k < |ls| && CleansAt(f, w, ls, k) && Hidden(Run(f, w, ls[..k]))
                     && forall j: nat :: k < j < |ls| ==> !CleansAt(f, w, ls, j)
  }

  lemma LastCleanNext(f: Facts, w: World, ls: seq<Label>)
    requires w.hist != [] && ls != []
    ensures var n := |ls| - 1;
            LastCleanMisses(f, w, ls) <==>
              if CleansAt(f, w, ls, n) then Hidden(Run(f, w, ls[..n])) else LastCleanMisses(f, w, ls[..n])
  {
    hide Run, Cleans, Hidden;
    var n := |ls| - 1;
    var init := ls[..n];
    assert forall k: nat :: k < n ==> init[..k] == ls[..k] && init[k] == ls[k];
    assert forall k: nat :: k < n ==> CleansAt(f, w, init, k) == CleansAt(f, w, ls, k);
  }

  /** The flag is what it stands for. */
  lemma {:induction false} MissedInRun(f: Facts, w: World, ls: seq<Label>)
    requires ValidFacts(f) && Inv(f, w) && !w.missed
    ensures Run(f, w, ls).missed <==> LastCleanMisses(f, w, ls)
    decreases |ls|
  {
    if ls == [] {
      assert Run(f, w, ls) == w;
    } else {
      hide Run, Step, Cleans, Hidden, LastCleanMisses, AgentInv, HostInv, SpdkInv, EnvInv;
      var n := |ls| - 1;
      MissedInRun(f, w, ls[..n]);
      LastCleanNext(f, w, ls);
      RunInv(f, w, ls[..n]);
      MissedExactlyWhen(f, Run(f, w, ls[..n]), ls[n]);
      RunLast(f, w, ls);
    }
  }

  /**
   A finished migration leaves no finalizer and no attached bdev, and it leaves no copy task if and only if its
   last cleaning pass did not find the copy hidden behind a task of another source.
   */
  lemma FinishedIsClean(f: Facts, w0: World, ls: seq<Label>)
    requires ValidFacts(f) && Initial(f, w0)
    ensures var w := Run(f, w0, ls);
            var m := w.Cur();
            m.phase == Finished ==>
              && PipeFinalizer !in m.finalizers && HostFinalizer !in m.finalizers
              && m.bdev.Some? && m.bdev.value !in w.bdevs
              && (w.Own() == [] <==> !LastCleanMisses(f, w0, ls))
  {
    assert !w0.missed;
    hide Run, Initial, AgentInv, HostInv, EnvInv, OfSource, LastCleanMisses;
    InitialInv(f, w0);
    RunInv(f, w0, ls);
    MissedInRun(f, w0, ls);
  }

  /** At every moment of the run SPDK lists tasks of this migration's source only. */
  ghost predicate OnlyOwn(f: Facts, w: World, ls: seq<Label>)
    requires w.hist != []
  {
    forall k: nat :: k <= |ls| ==> Run(f, w, ls[..k]).Own() == Run(f, w, ls[..k]).tasks
  }

  lemma {:induction false} OwnAreOfSource(tasks: seq<Task>, src: string)
    ensures forall t :: t in OfSource(tasks, src) ==> t.src == src
  {
    if tasks != [] {
      OwnAreOfSource(tasks[..|tasks| - 1], src);
    }
  }

  lemma OnlyOwnHidesNothing(w: World)
    requires w.hist != [] && w.Own() == w.tasks
    ensures !Hidden(w)
  {
    OwnAreOfSource(w.tasks, SourceBdev(w.Cur()));
  }

  /** As long as no task of another source is listed, every finished migration has left no copy task. */
  lemma AloneEndsClean(f: Facts, w0: World, ls: seq<Label>)
    requires ValidFacts(f) && Initial(f, w0) && OnlyOwn(f, w0, ls)
    ensures Run(f, w0, ls).Cur().phase == Finished ==> Run(f, w0, ls).Own() == []
  {
    hide Run, OfSource, Hidden, CleansAt;
    FinishedIsClean(f, w0, ls);
    hide Initial;
    forall k: nat | k < |ls| ensures !Hidden(Run(f, w0, ls[..k])) {
      OnlyOwnHidesNothing(Run(f, w0, ls[..k]));
    }
  }

  /** A task listed last that is of the source is the last of the own ones. */
  lemma LastOwn(tasks: seq<Task>, src: string)
    ensures OfSource(tasks, src) != [] ==> tasks != []
    ensures tasks != [] && tasks[|tasks| - 1].src == src ==>
              OfSource(tasks, src) != [] && OfSource(tasks, src)[|OfSource(tasks, src)| - 1] == tasks[|tasks| - 1]
  {
  }

  lemma HostKeepsMissed(f: Facts, w: World, list: seq<Subsystem>, st: PathState)
    requires w.hist != []
    ensures HostAct(f, w, list, st).missed == w.missed && HostAct(f, w, list, st).autoSwitch == w.autoSwitch
  {
    hide HostDecide;
    if w.host.HostLoaded? {
      HostDecideKeeps(f, w, w.host.s, list);
    }
  }

  // ---------------------------------------------------------------------------
  // Nothing recorded is undone

  lemma EffectLeads(f: Facts, w: World, w': World)
    requires w.hist != [] && w'.hist != []
    requires ControllerEffect(f, w, w') || AgentEffect(f, w, w') || HostEffect(f, w, w')
    ensures w'.Cur() == w.Cur() || Leads(w.Cur(), w'.Cur())
  {
  }

  lemma AgentLeads(f: Facts, w: World)
    requires Inv(f, w)
    ensures Leads(w.Cur(), AgentAct(w).Cur())
  {
    hide AgentInv, HostInv, SpdkInv, EnvInv, AgentAct, Good, OfSource;
    LeadsSelf(w.Cur());
    AgentSnapshot(f, w);
    AgentDoes(f, w);
    EffectLeads(f, w, AgentAct(w));
  }

  lemma HostLeads(f: Facts, w: World, list: seq<Subsystem>, st: PathState)
    requires ValidFacts(f) && Inv(f, w)
    ensures Leads(w.Cur(), HostAct(f, w, list, st).Cur())
  {
    hide AgentInv, HostInv, SpdkInv, EnvInv, HostAct, Good;
    LeadsSelf(w.Cur());
    HostSnapshot(f, w);
    HostDoes(f, w, list, st);
    EffectLeads(f, w, HostAct(f, w, list, st));
  }

  lemma LeadsSelf(m: Object)
    ensures Leads(m, m)
  {
  }

  lemma ControllerLeads(f: Facts, w: World, l: Label)
    requires ValidFacts(f) && Inv(f, w) && l.Controller?
    ensures Leads(w.Cur(), ControllerStep(f, w, l).Cur())
  {
    hide AgentInv, HostInv, SpdkInv, EnvInv, ControllerStep, Good;
    LeadsSelf(w.Cur());
    ControllerDoes(f, w, l);
    EffectLeads(f, w, ControllerStep(f, w, l));
  }

  /** The current object either stays or is replaced by one it leads to. */
  lemma StepLeads(f: Facts, w: World, l: Label)
    requires ValidFacts(f) && Inv(f, w)
    ensures Leads(w.Cur(), Step(f, w, l).Cur())
  {
    hide AgentInv, HostInv, SpdkInv, EnvInv, AgentAct, HostAct, ControllerStep, Leads, OfSource, Progressed;
    LeadsSelf(w.Cur());
    if l.Controller? {
      ControllerLeads(f, w, l);
    } else if l.AgentStep? {
      AgentLeads(f, w);
    } else if l.HostStep? {
      HostLeads(f, w, l.list, l.connectedAs);
    }
  }

  lemma LeadsTransitive(a: Object, b: Object, c: Object)
    requires Leads(a, b) && Leads(b, c)
    ensures Leads(a, c)
  {
  }

  /**
   From any reachable state onwards the phase only moves forward, a connection only goes from
   unknown to connected to disconnected, and autoswitch stays enabled and successful, although
   the agent's progress patch carries no version.
   */
  lemma {:induction false} NothingUndone(f: Facts, w: World, ls: seq<Label>)
    requires ValidFacts(f) && Inv(f, w)
    ensures Leads(w.Cur(), Run(f, w, ls).Cur())
    decreases |ls|
  {
    if ls != [] {
      var v := Step(f, w, ls[0]);
      StepInv(f, w, ls[0]);
      StepLeads(f, w, ls[0]);
      NothingUndone(f, v, ls[1..]);
      LeadsTransitive(w.Cur(), v.Cur(), Run(f, v, ls[1..]).Cur());
    }
  }

  lemma HistoryOfRun(f: Facts, w0: World, before: seq<Label>, after: seq<Label>)
    requires ValidFacts(f) && Initial(f, w0)
    ensures Leads(Run(f, w0, before).Cur(), Run(f, w0, before + after).Cur())
  {
    InitialInv(f, w0);
    RunInv(f, w0, before);
    RunConcat(f, w0, before, after);
    NothingUndone(f, Run(f, w0, before), after);
  }

  // ---------------------------------------------------------------------------
  // The source path is cut only after the switch

  /** A host pass that reads a listing in which the destination path is "working". */
  ghost predicate SeesWorking(f: Facts, w: World, l: Label) {
    l.HostStep? && w.host.HostLoaded? && f.dest.addr in w.paths && w.paths[f.dest.addr] == Working
  }

  lemma HostSaw(f: Facts, w: World, list: seq<Subsystem>, st: PathState)
    requires ValidFacts(f) && Inv(f, w) && !w.sawWorking && HostAct(f, w, list, st).sawWorking
    ensures w.host.HostLoaded? && f.dest.addr in w.paths && w.paths[f.dest.addr] == Working
  {
    hide AgentInv, SpdkInv, EnvInv, Lists, Flag, SourcePath;
    HostSnapshot(f, w);
    FlagOfListing(list, f.dest.nqn, w.paths, f.dest.addr, true);
  }

  lemma SawStep(f: Facts, w: World, l: Label)
    requires ValidFacts(f) && Inv(f, w) && !w.sawWorking && Step(f, w, l).sawWorking
    ensures SeesWorking(f, w, l)
  {
    hide AgentAct, HostAct, ControllerStep, AgentInv, HostInv, SpdkInv, EnvInv, OfSource, Progressed;
    if l.AgentStep? {
      AgentKeepsPaths(w);
    } else if l.Controller? {
      ControllerKeepsPaths(f, w, l);
    } else {
      HostSaw(f, w, l.list, l.connectedAs);
    }
  }

  /** The flag in the model is earned: some step of the run really saw the destination path working. */
  lemma {:induction false} SawWorkingEarlier(f: Facts, w0: World, ls: seq<Label>)
    requires ValidFacts(f) && Initial(f, w0) && Run(f, w0, ls).sawWorking
    ensures exists k :: 0 <= k < |ls| && SeesWorking(f, Run(f, w0, ls[..k]), ls[k])
    decreases |ls|
  {
    assert !w0.sawWorking && ls != [];
    hide Run, Step, Initial, AgentInv, HostInv, SpdkInv, EnvInv, Chain, SeesWorking;
    var k := |ls| - 1;
    var init := ls[..k];
    RunLast(f, w0, ls);
    InitialInv(f, w0);
    RunInv(f, w0, init);
    if Run(f, w0, init).sawWorking {
      SawWorkingEarlier(f, w0, init);
      var j :| 0 <= j < |init| && SeesWorking(f, Run(f, w0, init[..j]), init[j]);
      assert init[..j] == ls[..j];
    } else {
      SawStep(f, Run(f, w0, init), ls[k]);
    }
  }

  lemma AgentKeepsPaths(w: World)
    requires w.hist != []
    ensures AgentAct(w).paths == w.paths && AgentAct(w).sawWorking == w.sawWorking
  {
    hide AgentDecide;
    if w.agent.AgentLoaded? {
      DecideKeepsPaths(w, w.agent.s);
    }
  }

  /** Deciding, the agent writes nothing and touches only SPDK. */
  lemma DecideKeepsPaths(w: World, s: Object)
    ensures var v := AgentDecide(w, s);
            v == w.(agent := v.agent, bdevs := v.bdevs, tasks := v.tasks, missed := v.missed,
                    autoSwitch := v.autoSwitch)
  {
    hide SyncPass, DiffPatch, OfSource;
  }

  /** Deciding, the host writes nothing and touches no path. */
  lemma HostDecideKeeps(f: Facts, w: World, s: Object, list: seq<Subsystem>)
    ensures var v := HostDecide(f, w, s, list);
            v == w.(host := v.host, sawWorking := v.sawWorking)
  {
    hide Lists, Flag, SourcePath;
  }

  lemma AgentKeepsStatus(w: World)
    requires w.hist != []
    ensures AgentAct(w).Cur().phase == w.Cur().phase && AgentAct(w).Cur().status == w.Cur().status
  {
    hide AgentDecide;
    if w.agent.AgentLoaded? {
      DecideKeepsPaths(w, w.agent.s);
    }
  }

  lemma HostKeepsStatus(f: Facts, w: World, list: seq<Subsystem>, st: PathState)
    requires w.hist != []
    ensures HostAct(f, w, list, st).Cur().phase == w.Cur().phase
    ensures HostAct(f, w, list, st).Cur().status == w.Cur().status
  {
    hide HostDecide;
    if w.host.HostLoaded? {
      HostDecideKeeps(f, w, w.host.s, list);
    }
  }

  /** Patching an object with the difference to another gives the other. */
  lemma DiffThenApply(a: Object, b: Object)
    requires b == a.(enabled := b.enabled, verdict := b.verdict, progress := b.progress)
    ensures ApplyPatch(a, DiffPatch(a, b)) == b
  {
  }

  lemma ControllerKeepsPaths(f: Facts, w: World, l: Label)
    requires w.hist != [] && l.Controller?
    ensures var v := ControllerStep(f, w, l); v == w.(hist := v.hist, destVol := v.destVol)
  {
  }

  /** Among the actors only the host touches paths: it connects the destination or cuts the source. */
  lemma PathChange(f: Facts, w: World, l: Label)
    requires w.hist != [] && !l.EnvLose? && !l.EnvPath?
    ensures var w' := Step(f, w, l);
            || w'.paths == w.paths
            || (l.HostStep? && w.host.HostConnecting? && w'.paths == w.paths[f.dest.addr := l.connectedAs])
            || (l.HostStep? && w.host.HostCutting? && w'.paths == w.paths - {SourceAddr(w.host.s)})
  {
    hide AgentAct, ControllerStep, HostDecide, OfSource, Progressed;
    if l.AgentStep? {
      AgentKeepsPaths(w);
    } else if l.Controller? {
      ControllerKeepsPaths(f, w, l);
    } else if l.HostStep? && w.host.HostLoaded? {
      HostDecideKeeps(f, w, w.host.s, l.list);
    }
  }

  /** A host step that takes the source path away is the disconnect of a pass that had listed it as degraded. */
  lemma CutStep(f: Facts, w: World, l: Label)
    requires ValidFacts(f) && Inv(f, w) && !l.EnvLose?
    requires f.src.addr in w.paths && f.src.addr !in Step(f, w, l).paths
    ensures w.host.HostCutting? && w.sawWorking
    ensures var listed := w.host.listed;
            && f.src.addr in listed && listed[f.src.addr] == Degraded
            && listed.Keys - {f.src.addr} != {}
            && Step(f, w, l).paths == w.paths - {f.src.addr}
            && (listed.Keys <= w.paths.Keys ==> Step(f, w, l).paths != map[])
  {
    if l.EnvPath? {
      assert false;
    }
    PathChange(f, w, l);
    var listed := w.host.listed;
    var other :| other in listed.Keys - {f.src.addr};
    if listed.Keys <= w.paths.Keys {
      assert other in Step(f, w, l).paths;
    }
  }

  /**
   In every run, when the protocol removes the source path, an earlier step saw the destination
   path working, this pass listed the source path as degraded beside another path, and the
   host keeps a path unless the environment took one away after that listing.
   */
  lemma DisconnectIsSafe(f: Facts, w0: World, ls: seq<Label>, l: Label)
    requires ValidFacts(f) && Initial(f, w0) && !l.EnvLose?
    requires var w := Run(f, w0, ls); f.src.addr in w.paths && f.src.addr !in Step(f, w, l).paths
    ensures exists k :: 0 <= k < |ls| && SeesWorking(f, Run(f, w0, ls[..k]), ls[k])
    ensures var w := Run(f, w0, ls);
            && w.host.HostCutting?
            && f.src.addr in w.host.listed && w.host.listed[f.src.addr] == Degraded
            && w.host.listed.Keys - {f.src.addr} != {}
            && (w.host.listed.Keys <= w.paths.Keys ==> Step(f, w, l).paths != map[])
  {
    InitialInv(f, w0);
    RunInv(f, w0, ls);
    CutStep(f, Run(f, w0, ls), l);
    SawWorkingEarlier(f, w0, ls);
  }

  // ---------------------------------------------------------------------------
  // Boundedly many protocol steps

  /** The fields whose changes drive the protocol. */
  predicate SameProtocolState(a: Object, b: Object) {
    a.phase == b.phase && a.pipe == b.pipe && a.host == b.host && a.enabled == b.enabled && a.verdict == b.verdict
  }

  const MOST_CHANGES := 12

  function Measure(m: Object): (r: nat)
    ensures r <= MOST_CHANGES
  {
    (6 - m.phase.Rank()) + (2 - m.pipe.Rank()) + (2 - m.host.Rank())
    + (if m.enabled then 0 else 1) + (if m.verdict == Success then 0 else 1)
  }

  /** How many steps of a run change the protocol state. */
  ghost function Changes(f: Facts, w: World, ls: seq<Label>): nat
    requires w.hist != []
    decreases |ls|
  {
    if ls == [] then 0
    else
      var v := Step(f, w, ls[0]);
      (if SameProtocolState(w.Cur(), v.Cur()) then 0 else 1) + Changes(f, v, ls[1..])
  }

  lemma ChangeLowers(f: Facts, a: Object, b: Object)
    requires Leads(a, b) && Good(f, a) && Good(f, b)
    ensures Measure(b) <= Measure(a)
    ensures !SameProtocolState(a, b) ==> Measure(b) < Measure(a)
  {
  }

  lemma {:induction false} ChangesBounded(f: Facts, w: World, ls: seq<Label>)
    requires ValidFacts(f) && Inv(f, w)
    ensures Changes(f, w, ls) + Measure(Run(f, w, ls).Cur()) <= Measure(w.Cur())
    decreases |ls|
  {
    hide Step, Measure, Leads, SameProtocolState, AgentInv, HostInv, SpdkInv, EnvInv;
    if ls != [] {
      StepInv(f, w, ls[0]);
      StepLeads(f, w, ls[0]);
      ChangeLowers(f, w.Cur(), Step(f, w, ls[0]).Cur());
      ChangesBounded(f, Step(f, w, ls[0]), ls[1..]);
    }
  }

  /** However long the run, phase, connections and autoswitch change at most twelve times. */
  lemma BoundedlyManyChanges(f: Facts, w0: World, ls: seq<Label>)
    requires ValidFacts(f) && Initial(f, w0)
    ensures Changes(f, w0, ls) <= MOST_CHANGES
  {
    InitialInv(f, w0);
    ChangesBounded(f, w0, ls);
  }
}
