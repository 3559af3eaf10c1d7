/**
 What a group achieves: calls of Add before Start are queued and handed over, an error is returned only after
 the stop, and from every reachable state the group can still be stopped cleanly, unless it is too late.
 */
module RunnableGroupProgress {
  import opened RunnableGroup

  // ---------------------------------------------------------------------------
  // What becomes of a call of Add

  /** An error is returned only by a group that was stopped, and before Start nothing is handed over. */
  predicate Told(g: Group) {
    && (forall rn :: rn in g.adds && g.adds[rn] == Rejected ==> g.stopped)
    && (!g.started ==> forall rn :: rn in g.adds ==> g.adds[rn] in {Checked, Queued, Rejected})
  }

  lemma StartTold(g: Group, l: Label)
    requires Told(g) && Inv(g)
    ensures Told(StartStep(g, l))
  {
    hide QueueOk, CountOk, AddsOk, RemoveOne;
  }

  lemma AddTold(g: Group, l: Label)
    requires Told(g) && Inv(g)
    ensures Told(AddStep(g, l))
  {
    hide QueueOk, CountOk, AddsOk, StopOk;
  }

  lemma RecTold(g: Group, l: Label)
    requires Told(g)
    ensures Told(RecStep(g, l))
  {
  }

  lemma RunStepTold(g: Group, l: Label)
    requires Told(g)
    ensures Told(RunStep(g, l))
  {
  }

  lemma StopTold(g: Group, l: Label)
    requires Told(g)
    ensures Told(StopStep(g, l))
  {
  }

  lemma StepTold(g: Group, l: Label)
    requires Told(g) && Inv(g)
    ensures Told(Step(g, l))
  {
    hide Told, Inv, StartStep, RecStep, RunStep, AddStep, StopStep;
    StartTold(g, l);
    AddTold(g, l);
    RecTold(g, l);
    RunStepTold(g, l);
    StopTold(g, l);
  }

  lemma {:induction false} RunTold(g: Group, ls: seq<Label>)
    requires Told(g) && Inv(g)
    ensures Told(Run(g, ls))
    decreases |ls|
  {
    hide Told, Inv, Step;
    if ls != [] {
      StepTold(g, ls[0]);
      StepInv(g, ls[0]);
      RunTold(Step(g, ls[0]), ls[1..]);
    }
  }

  /**
   In every run: before Start a call of Add that got past its check has put its runnable in the queue, and a call
   returns an error only when the group is stopped.
   */
  lemma EarlyAddsAreQueued(ls: seq<Label>, rn: nat)
    ensures var g := Run(Initial(), ls);
            && (rn in g.adds && !g.started ==> g.adds[rn] == Checked || (g.adds[rn] == Queued && rn in g.queue))
            && (Stage(g.adds, rn, Rejected) ==> g.stopped)
  {
    InitialInv();
    RunInv(Initial(), ls);
    RunTold(Initial(), ls);
    hide Run, CountOk, AddsOk;
  }

  /** A queued runnable waits until it is handed over. */
  predicate InLine(g: Group, rn: nat) { Stage(g.adds, rn, Queued) || Stage(g.adds, rn, Sent) }

  lemma LineStep(g: Group, l: Label, rn: nat)
    requires InLine(g, rn)
    ensures InLine(Step(g, l), rn)
  {
    hide RemoveOne;
  }

  lemma {:induction false} LineRun(g: Group, ls: seq<Label>, rn: nat)
    requires InLine(g, rn)
    ensures InLine(Run(g, ls), rn)
    decreases |ls|
  {
    hide Step, InLine;
    if ls != [] {
      LineStep(g, ls[0], rn);
      LineRun(Step(g, ls[0]), ls[1..], rn);
    }
  }

  /** What was queued is handed over by the time Start is over. */
  lemma QueuedIsHandedOver(ls: seq<Label>, more: seq<Label>, rn: nat)
    ensures var g := Run(Initial(), ls);
            var t := Run(g, more);
            Stage(g.adds, rn, Queued) && t.starter.Ready? ==> Stage(t.adds, rn, Sent)
  {
    hide Run;
    var g := Run(Initial(), ls);
    if Stage(g.adds, rn, Queued) {
      LineRun(g, more, rn);
      RunConcat(Initial(), ls, more);
      StartWaitsForAll(ls + more);
    }
  }

  // ---------------------------------------------------------------------------
  // Moves

  ghost predicate Reaches(g: Group, t: Group) { exists ls :: Run(g, ls) == t }

  lemma ReachesSelf(g: Group)
    ensures Reaches(g, g)
  {
    assert Run(g, []) == g;
  }

  lemma ReachesOn(a: Group, b: Group, c: Group)
    requires Reaches(a, b) && Reaches(b, c)
    ensures Reaches(a, c)
  {
    hide Run;
    var x :| Run(a, x) == b;
    var y :| Run(b, y) == c;
    RunConcat(a, x, y);
  }

  /** A state of the protocol from which it can go on: no panic, the channel open, nothing dropped before the stop. */
  ghost predicate Alive(g: Group) {
    Inv(g) && !g.panicked && !g.chClosed && (!g.stopped ==> forall rn :: !Dropped(g, rn))
  }

  lemma StepAlive(g: Group, l: Label, t: Group)
    requires Alive(g) && t == Step(g, l) && !t.panicked && !t.chClosed
    ensures Reaches(g, t) && Alive(t)
  {
    hide Inv, Step, Dropped;
    StepInv(g, l);
    StoppedStays(g, l);
    assert Run(Step(g, l), [l][1..]) == Step(g, l);
    assert Run(g, [l]) == t;
    if !t.stopped {
      forall rn ensures !Dropped(t, rn) {
        DropsExactlyWhen(g, l, rn);
      }
    }
  }

  /** The reconciler finishes what it has in hand. */
  lemma Drains(g: Group) returns (t: Group)
    requires Alive(g)
    ensures Reaches(g, t) && Alive(t) && (t.rec.Receiving? || t.rec.Absent?)
    ensures t == g.(rec := t.rec, wg := t.wg, launched := t.launched, active := t.active, running := t.running)
  {
    t := g;
    ReachesSelf(g);
    if g.rec.Launching? {
      t := Launches(g);
    } else if g.rec.Holding? {
      t := Counts(g);
    } else if g.rec.Got? {
      t := Checks(g);
    }
    ExitedIsClosed(g);
  }

  lemma ExitedIsClosed(g: Group)
    requires Alive(g)
    ensures !g.rec.Exited?
  {
    hide QueueOk, CountOk, AddsOk;
  }

  lemma Launches(g: Group) returns (t: Group)
    requires Alive(g) && g.rec.Launching?
    ensures Reaches(g, t) && Alive(t) && t == g.(rec := Receiving, running := t.running)
  {
    hide Inv;
    t := Step(g, RecLaunch);
    StepAlive(g, RecLaunch, t);
  }

  lemma Counts(g: Group) returns (t: Group)
    requires Alive(g) && g.rec.Holding?
    ensures Reaches(g, t) && Alive(t)
    ensures t == g.(rec := Receiving, wg := t.wg, launched := t.launched, active := t.active, running := t.running)
  {
    NotLate(g);
    hide Inv;
    var a := Step(g, RecCount);
    StepAlive(g, RecCount, a);
    t := Launches(a);
    ReachesOn(g, a, t);
  }

  /** A reconciler that holds the lock has seen a group that is not stopped. */
  lemma NotLate(g: Group)
    requires Alive(g) && g.rec.Holding?
    ensures !g.stopped && !g.lateAdd
  {
    hide QueueOk, CountOk, AddsOk;
  }

  lemma Checks(g: Group) returns (t: Group)
    requires Alive(g) && g.rec.Got?
    ensures Reaches(g, t) && Alive(t)
    ensures t == g.(rec := Receiving, wg := t.wg, launched := t.launched, active := t.active, running := t.running)
  {
    hide Inv;
    var a := Step(g, RecCheck);
    StepAlive(g, RecCheck, a);
    if g.stopped {
      t := a;
    } else {
      t := Counts(a);
      ReachesOn(g, a, t);
    }
  }

  /** Start hands over one runnable of its queue. */
  lemma HandsOver(g: Group) returns (t: Group)
    requires Alive(g) && g.starter.Queuing? && g.starter.i < |g.queue| && !g.stopped
    ensures Reaches(g, t) && Alive(t) && t.starter == Queuing(g.starter.i + 1) && t.queue == g.queue
    ensures !t.stopped && t.stopper == g.stopper
  {
    var a := Drains(g);
    SpawnedReceives(a);
    hide Inv;
    t := Step(a, StartSend);
    StepAlive(a, StartSend, t);
    ReachesOn(g, a, t);
  }

  lemma SpawnedReceives(g: Group)
    requires Alive(g) && !g.starter.Fresh?
    ensures !g.rec.Absent?
  {
    hide QueueOk, CountOk, AddsOk;
  }

  lemma {:induction false} EmptiesQueue(g: Group) returns (t: Group)
    requires Alive(g) && g.starter.Queuing? && !g.stopped
    ensures Reaches(g, t) && Alive(t) && (t.starter.Waiting? || t.starter.Ready?)
    ensures !t.stopped && t.stopper == g.stopper
    decreases |g.queue| - g.starter.i
  {
    hide Inv;
    if g.starter.i < |g.queue| {
      var a := HandsOver(g);
      t := EmptiesQueue(a);
      ReachesOn(g, a, t);
    } else {
      t := Step(g, StartUnlock);
      StepAlive(g, StartUnlock, t);
    }
  }

  lemma {:induction false} RemoveShorter(q: seq<nat>, rn: nat)
    requires rn in q
    ensures |RemoveOne(q, rn)| == |q| - 1
  {
    if q[0] != rn {
      assert q == [q[0]] + q[1..];
      RemoveShorter(q[1..], rn);
    }
  }

  /** While Start waits and the reconciler is free, the first in its queue has been started. */
  lemma FirstIsStarted(g: Group)
    requires Alive(g) && g.starter.Waiting? && g.rec.Receiving? && !g.stopped && g.queue != []
    ensures var rn := g.queue[0]; rn in g.marked - g.signalled && rn in g.launched
  {
    hide CountOk, AddsOk, StopOk;
    var rn := g.queue[0];
    assert rn in g.queue;
    assert !Dropped(g, rn);
  }

  lemma {:induction false} WaitsOut(g: Group) returns (t: Group)
    requires Alive(g) && g.starter.Waiting? && !g.stopped
    ensures Reaches(g, t) && Alive(t) && t.starter.Ready? && !t.stopped && t.stopper == g.stopper
    decreases |g.queue|
  {
    WaitingHasQueue(g);
    var a := Drains(g);
    SpawnedReceives(a);
    FirstIsStarted(a);
    var rn := a.queue[0];
    RemoveShorter(a.queue, rn);
    hide Inv, RemoveOne;
    var b := Step(a, StartReceive(rn));
    StepAlive(a, StartReceive(rn), b);
    ReachesOn(g, a, b);
    if b.starter.Ready? {
      t := b;
    } else {
      t := WaitsOut(b);
      ReachesOn(g, b, t);
    }
  }

  /** Start waits only for a queue that is not empty. */
  lemma WaitingHasQueue(g: Group)
    requires Alive(g) && g.starter.Waiting?
    ensures g.queue != []
  {
    hide CountOk, AddsOk;
  }

  /** Start comes to its end. */
  lemma StartFinishes(g: Group) returns (t: Group)
    requires Alive(g) && !g.stopped
    ensures Reaches(g, t) && Alive(t) && t.starter.Ready? && !t.stopped && t.stopper == g.stopper
  {
    hide Inv;
    t := g;
    ReachesSelf(g);
    if t.starter.Fresh? {
      var a := Step(t, StartBegin);
      StepAlive(t, StartBegin, a);
      ReachesOn(g, t, a);
      t := a;
    }
    if t.starter.Spawned? {
      var a := Step(t, StartLock);
      StepAlive(t, StartLock, a);
      ReachesOn(g, t, a);
      t := a;
    }
    if t.starter.Queuing? {
      var a := EmptiesQueue(t);
      ReachesOn(g, t, a);
      t := a;
    }
    if t.starter.Waiting? {
      var a := WaitsOut(t);
      ReachesOn(g, t, a);
      t := a;
    }
  }

  /** The flag is set once Start is over and the reconciler holds no lock. */
  lemma GetsStopped(g: Group) returns (t: Group)
    requires Alive(g) && !g.stopped
    ensures Reaches(g, t) && Alive(t) && t.stopper == Waited
  {
    hide Inv, Reaches, Alive;
    UnstoppedStage(g);
    var a := StartFinishes(g);
    var b := Drains(a);
    ReachesOn(g, a, b);
    UnstoppedStage(b);
    t := SetsFlag(b);
    ReachesOn(g, b, t);
  }

  lemma SetsFlag(g: Group) returns (t: Group)
    requires Alive(g) && g.starter.Ready? && !g.rec.Holding? && (g.stopper.Unstopped? || g.stopper.Starting?)
    ensures Reaches(g, t) && Alive(t) && t.stopper == Waited
  {
    hide Inv, Reaches, StartStep, RecStep, RunStep, AddStep;
    var b := g;
    ReachesSelf(g);
    if g.stopper.Unstopped? {
      b := Step(g, StopBegin);
      StepAlive(g, StopBegin, b);
    }
    t := Step(b, StopFlag);
    StepAlive(b, StopFlag, t);
    ReachesOn(g, b, t);
  }

  lemma UnstoppedStage(g: Group)
    requires Alive(g)
    ensures g.stopped <==> g.stopper.Waited? || g.stopper.AllDone?
    ensures !g.stopper.Returned?
  {
    hide QueueOk, CountOk, AddsOk;
  }

  /** With nothing in hand the runnables that count are those that run. */
  lemma RunningCounts(g: Group)
    requires Alive(g) && g.rec.Receiving?
    ensures g.active == g.running && g.wg == |g.running|
  {
    hide QueueOk, AddsOk, StopOk;
  }

  lemma {:induction false} AllReturn(g: Group) returns (t: Group)
    requires Alive(g) && g.rec.Receiving? && g.stopper == Waited
    ensures Reaches(g, t) && Alive(t) && t.stopper == Waited && t.wg == 0
    decreases |g.running|
  {
    RunningCounts(g);
    hide Inv;
    if rn :| rn in g.running {
      var a := Step(g, Return(rn));
      StepAlive(g, Return(rn), a);
      assert a.running == g.running - {rn};
      t := AllReturn(a);
      ReachesOn(g, a, t);
    } else {
      assert g.running == {};
      ReachesSelf(g);
      t := g;
    }
  }

  lemma StopReturns(g: Group) returns (t: Group)
    requires Alive(g) && g.stopper.AllDone?
    ensures Reaches(g, t) && t.stopper == Returned(true)
  {
    hide Inv;
    t := Step(g, StopReturn);
    assert Run(t, [StopReturn][1..]) == t;
    assert Run(g, [StopReturn]) == t;
  }

  lemma StopFinishes(g: Group) returns (t: Group)
    requires Alive(g)
    ensures Reaches(g, t) && t.stopper == Returned(true)
  {
    UnstoppedStage(g);
    hide Inv;
    var a := g;
    ReachesSelf(g);
    if !g.stopped {
      a := GetsStopped(g);
    }
    if a.stopper.Waited? {
      var b := Drains(a);
      StoppedReceives(b);
      var c := AllReturn(b);
      var d := Step(c, StopDone);
      StepAlive(c, StopDone, d);
      ReachesOn(g, a, b);
      ReachesOn(g, b, c);
      ReachesOn(g, c, d);
      a := d;
    }
    t := StopReturns(a);
    ReachesOn(g, a, t);
  }

  lemma StoppedReceives(g: Group)
    requires Alive(g) && g.stopper.Waited?
    ensures !g.rec.Absent?
  {
    hide QueueOk, CountOk, AddsOk;
  }

  /** With the channel closed the reconciler drops or starts what it has, and ends. */
  lemma ReconcilerEnds(g: Group)
    requires Inv(g) && g.chClosed && !g.panicked
    ensures Run(g, [RecCheck, RecLaunch, RecExit]).rec.Exited?
  {
    ClosedReconciler(g);
    hide Inv, Run, StartStep, RunStep, AddStep, StopStep;
    RunThree(g, RecCheck, RecLaunch, RecExit);
    var a := Step(g, RecCheck);
    assert a == g.(rec := if g.rec.Got? then Receiving else g.rec);
    var b := Step(a, RecLaunch);
    assert b.chClosed && !b.panicked && (b.rec.Receiving? || b.rec.Exited?);
  }

  lemma ClosedReconciler(g: Group)
    requires Inv(g) && g.chClosed
    ensures g.stopped && !g.rec.Absent? && !g.rec.Holding?
  {
    hide QueueOk, CountOk, AddsOk;
  }

  // ---------------------------------------------------------------------------
  // Theorem

  lemma StuckStep(g: Group, l: Label)
    requires g.panicked || g.stopper == Returned(false)
    ensures var t := Step(g, l); t.stopper == g.stopper && (g.panicked ==> t == g)
  {
    hide StartStep, RecStep, RunStep, AddStep;
    OthersKeepStopper(g, l);
  }

  lemma OthersKeepStopper(g: Group, l: Label)
    ensures StartStep(g, l).stopper == g.stopper && RecStep(g, l).stopper == g.stopper
    ensures RunStep(g, l).stopper == g.stopper && AddStep(g, l).stopper == g.stopper
  {
    hide StartStep, AddStep;
    StartKeepsStopper(g, l);
    AddKeepsStopper(g, l);
  }

  lemma StartKeepsStopper(g: Group, l: Label)
    ensures StartStep(g, l).stopper == g.stopper
  {
    hide RemoveOne;
    match l
    case StartBegin =>
    case StartLock =>
    case StartSend =>
    case StartUnlock =>
    case StartReceive(_) =>
    case _ =>
  }

  lemma AddKeepsStopper(g: Group, l: Label)
    ensures AddStep(g, l).stopper == g.stopper
  {
  }

  lemma {:induction false} StuckRun(g: Group, ls: seq<Label>)
    requires g.panicked || g.stopper == Returned(false)
    ensures Run(g, ls).stopper == g.stopper
    decreases |ls|
  {
    hide Step;
    if ls != [] {
      StuckStep(g, ls[0]);
      StuckRun(Step(g, ls[0]), ls[1..]);
    }
  }

  lemma ReachedAlive(ls: seq<Label>)
    ensures var g := Run(Initial(), ls);
            !g.panicked && !g.stopper.Returned? ==> Alive(g)
  {
    InitialInv();
    RunInv(Initial(), ls);
    var g := Run(Initial(), ls);
    forall rn ensures !g.stopped ==> !Dropped(g, rn) {
      KeptRun(Initial(), ls, rn);
    }
    hide Run, QueueOk, CountOk, AddsOk;
  }

  /**
   No deadlock, with its exact condition: from a reachable state the group can be brought to a clean end, with Start
   over and every runnable returned, if and only if it has come to that end already, or nothing was sent on
   the closed channel and the caller's context has not expired first.
   */
  lemma StopsExactlyWhen(ls: seq<Label>)
    ensures var g := Run(Initial(), ls);
            (exists more :: Run(g, more).stopper == Returned(true)) <==>
              g.stopper == Returned(true) || (!g.panicked && g.stopper != Returned(false))
  {
    hide Run, Inv;
    var g := Run(Initial(), ls);
    ReachedAlive(ls);
    if g.stopper == Returned(true) {
      ReachesSelf(g);
      var more :| Run(g, more) == g;
      assert Run(g, more).stopper == Returned(true);
    } else if !g.panicked && g.stopper != Returned(false) {
      var t := StopFinishes(g);
      var more :| Run(g, more) == t;
      assert Run(g, more).stopper == Returned(true);
    } else {
      forall more ensures Run(g, more).stopper != Returned(true) {
        StuckRun(g, more);
      }
    }
  }
}
