/**
 A group of runnables that is started once, grows while it runs and is stopped once. The callers of
 Start, Add and StopAndWait, the reconciling goroutine, the runnables and their ready checks all take
 steps in any order; channels are unbuffered, so a send and its receipt are one step.
 */
module RunnableGroup {

  /** The body of Start, which runs once. */
  datatype Starter =
    | Fresh
    | Spawned                 // the reconciler runs, the start lock is not held yet
    | Queuing(i: nat)         // holding the start lock, `i` runnables handed over
    | Waiting                 // for the runnables of the start queue to report ready
    | Ready                   // the ready channel is closed

  datatype Reconciler =
    | Absent
    | Receiving
    | Got(rn: nat)
    | Holding(rn: nat)        // read-locked, and seen that the group is not stopped
    | Launching(rn: nat)      // counted, the lock released
    | Exited

  datatype AddStage = Checked | Sending | Queued | Sent | Rejected

  datatype Stopper =
    | Unstopped
    | Starting                // StopAndWait first completes Start
    | Waited                  // flag set, context cancelled, waiting
    | AllDone                 // the wait for the runnables is over
    | Returned(clean: bool)   // through `done`, or because the caller's context expired

  datatype Group = Group(
    starter: Starter, started: bool, queue: seq<nat>,
    marked: set<nat>,         // runnables that will report ready
    signalled: set<nat>,      // those that have
    rec: Reconciler,
    wg: nat,                  // the WaitGroup's counter
    launched: set<nat>,       // runnables counted by the WaitGroup at some time
    active: set<nat>,         // counted and not done
    running: set<nat>,        // their goroutines
    adds: map<nat, AddStage>, // one entry for each call of Add
    stopper: Stopper, stopped: bool, chClosed: bool,
    lateAdd: bool,            // the WaitGroup was raised after the flag was set
    lateSignal: bool,         // a send on the closed ready channel
    panicked: bool)           // a send on the closed internal channel

  datatype Label =
    | StartBegin | StartLock | StartSend | StartUnlock | StartReceive(rn: nat)
    | RecCheck | RecCount | RecLaunch | RecExit
    | Return(rn: nat) | Signal(rn: nat)
    | AddCheck(rn: nat) | AddStart(rn: nat) | AddSend(rn: nat)
    | StopBegin | StopFlag | StopDone | StopReturn | StopExpire

  function Initial(): Group {
    Group(Fresh, false, [], {}, {}, Absent, 0, {}, {}, {}, map[], Unstopped, false, false, false, false, false)
  }

  /** The start queue without the first entry equal to `rn`. */
  function RemoveOne(q: seq<nat>, rn: nat): seq<nat> {
    if q == [] then [] else if q[0] == rn then q[1..] else [q[0]] + RemoveOne(q[1..], rn)
  }

  // ---------------------------------------------------------------------------
  // Steps; a label that is not possible in a state changes nothing

  function StartStep(g: Group, l: Label): Group {
    match l
    case StartBegin => if g.starter.Fresh? then g.(starter := Spawned, rec := Receiving) else g
    case StartLock => if g.starter.Spawned? then g.(starter := Queuing(0), started := true) else g
    case StartSend =>
      if g.starter.Queuing? && g.starter.i < |g.queue| && g.rec.Receiving? && !g.chClosed then
        var rn := g.queue[g.starter.i];
        g.(starter := Queuing(g.starter.i + 1), marked := g.marked + {rn}, rec := Got(rn), adds := g.adds[rn := Sent])
      else g
    case StartUnlock =>
      if g.starter.Queuing? && g.starter.i >= |g.queue| then
        g.(starter := if g.queue == [] then Ready else Waiting)
      else g
    case StartReceive(rn) =>
      if g.starter.Waiting? && rn in g.marked - g.signalled && rn in g.launched then
        var q := RemoveOne(g.queue, rn);
        g.(queue := q, signalled := g.signalled + {rn}, starter := if q == [] then Ready else Waiting)
      else g
    case _ => g
  }

  function RecStep(g: Group, l: Label): Group {
    match l
    case RecCheck => if g.rec.Got? then g.(rec := if g.stopped then Receiving else Holding(g.rec.rn)) else g
    case RecCount =>
      if g.rec.Holding? then
        g.(rec := Launching(g.rec.rn), wg := g.wg + 1, launched := g.launched + {g.rec.rn},
           active := g.active + {g.rec.rn}, lateAdd := g.lateAdd || g.stopped)
      else g
    case RecLaunch => if g.rec.Launching? then g.(rec := Receiving, running := g.running + {g.rec.rn}) else g
    case RecExit => if g.rec.Receiving? && g.chClosed then g.(rec := Exited) else g
    case _ => g
  }

  /** A runnable returns; a ready check passes and its report finds the channel closed. */
  function RunStep(g: Group, l: Label): Group {
    match l
    case Return(rn) =>
      if rn in g.running then
        g.(running := g.running - {rn}, active := g.active - {rn}, wg := if g.wg > 0 then g.wg - 1 else 0)
      else g
    case Signal(rn) =>
      if rn in g.marked - g.signalled && rn in g.launched && g.starter.Ready? then g.(lateSignal := true) else g
    case _ => g
  }

  function AddStep(g: Group, l: Label): Group {
    match l
    case AddCheck(rn) =>
      if rn in g.adds then g else g.(adds := g.adds[rn := if g.stopped then Rejected else Checked])
    case AddStart(rn) =>
      if rn in g.adds && g.adds[rn] == Checked && !g.starter.Queuing? then
        if g.started then g.(adds := g.adds[rn := Sending])
        else g.(adds := g.adds[rn := Queued], queue := g.queue + [rn])
      else g
    case AddSend(rn) =>
      if rn in g.adds && g.adds[rn] == Sending then
        if g.chClosed then g.(panicked := true)
        else if g.rec.Receiving? then g.(adds := g.adds[rn := Sent], rec := Got(rn))
        else g
      else g
    case _ => g
  }

  function StopStep(g: Group, l: Label): Group {
    match l
    case StopBegin => if g.stopper.Unstopped? then g.(stopper := Starting) else g
    case StopFlag =>
      // Start has returned, and no reader holds the lock
      if g.stopper.Starting? && g.starter.Ready? && !g.rec.Holding? then g.(stopper := Waited, stopped := true) else g
    case StopDone => if g.stopper.Waited? && g.wg == 0 then g.(stopper := AllDone) else g
    case StopReturn => if g.stopper.AllDone? then g.(stopper := Returned(true), chClosed := true) else g
    case StopExpire =>
      if g.stopper.Waited? || g.stopper.AllDone? then g.(stopper := Returned(false), chClosed := true) else g
    case _ => g
  }

  function Step(g: Group, l: Label): Group {
    if g.panicked then g
    else
      match l
      case StartBegin => StartStep(g, l)
      case StartLock => StartStep(g, l)
      case StartSend => StartStep(g, l)
      case StartUnlock => StartStep(g, l)
      case StartReceive(_) => StartStep(g, l)
      case RecCheck => RecStep(g, l)
      case RecCount => RecStep(g, l)
      case RecLaunch => RecStep(g, l)
      case RecExit => RecStep(g, l)
      case Return(_) => RunStep(g, l)
      case Signal(_) => RunStep(g, l)
      case AddCheck(_) => AddStep(g, l)
      case AddStart(_) => AddStep(g, l)
      case AddSend(_) => AddStep(g, l)
      case _ => StopStep(g, l)
  }

  function Run(g: Group, ls: seq<Label>): Group
    decreases |ls|
  {
    if ls == [] then g else Run(Step(g, ls[0]), ls[1..])
  }

  // ---------------------------------------------------------------------------
  // The invariant

  predicate Distinct(q: seq<nat>) { forall i, j :: 0 <= i < j < |q| ==> q[i] != q[j] }

  predicate Stage(adds: map<nat, AddStage>, rn: nat, s: AddStage) { rn in adds && adds[rn] == s }

  predicate CountOk(wg: nat, launched: set<nat>, active: set<nat>, running: set<nat>, rec: Reconciler) {
    && wg == |active| && active <= launched && running <= active
    && (active != running ==> rec.Launching? && active == running + {rec.rn})
    && (rec.Launching? ==> rec.rn in active && rec.rn !in running)
  }

  predicate AddsOk(adds: map<nat, AddStage>, launched: set<nat>, rec: Reconciler) {
    && (forall rn :: rn in launched ==> Stage(adds, rn, Sent))
    && (rec.Got? || rec.Holding? ==> Stage(adds, rec.rn, Sent) && rec.rn !in launched)
  }

  ghost predicate QueueOk(starter: Starter, q: seq<nat>, marked: set<nat>, signalled: set<nat>,
                          adds: map<nat, AddStage>)
  {
    && Distinct(q) && signalled <= marked
    && (forall rn :: rn in q ==> Stage(adds, rn, Queued) || Stage(adds, rn, Sent))
    && (forall rn :: rn in adds && adds[rn] == Queued ==> rn in q)
    && match starter
       case Queuing(i) =>
         && i <= |q| && signalled == {} && (forall rn :: rn in marked <==> rn in q[..i])
         && (forall j :: i <= j < |q| ==> Stage(adds, q[j], Queued))
         && (forall j :: 0 <= j < i ==> Stage(adds, q[j], Sent))
       case Waiting =>
         && q != [] && (forall rn :: rn in q ==> Stage(adds, rn, Sent))
         && forall rn :: rn in q <==> rn in marked && rn !in signalled
       case Ready => q == [] && marked == signalled
       case _ => marked == {} && forall rn :: rn in q ==> Stage(adds, rn, Queued)
  }

  predicate StopOk(starter: Starter, started: bool, rec: Reconciler, active: set<nat>,
                   stopper: Stopper, stopped: bool, chClosed: bool)
  {
    && (stopped <==> stopper.Waited? || stopper.AllDone? || stopper.Returned?)
    && (stopped ==> starter.Ready? && !rec.Holding?)
    && (stopper.AllDone? || stopper == Returned(true) ==> active == {})
    && (chClosed <==> stopper.Returned?)
    && (started <==> starter.Queuing? || starter.Waiting? || starter.Ready?)
    && (starter.Fresh? <==> rec.Absent?)
    && (rec.Exited? ==> chClosed)
  }

  ghost predicate Inv(g: Group) {
    && CountOk(g.wg, g.launched, g.active, g.running, g.rec)
    && AddsOk(g.adds, g.launched, g.rec)
    && QueueOk(g.starter, g.queue, g.marked, g.signalled, g.adds)
    && StopOk(g.starter, g.started, g.rec, g.active, g.stopper, g.stopped, g.chClosed)
    && !g.lateAdd && !g.lateSignal
  }

  lemma InitialInv()
    ensures Inv(Initial())
  {
  }

  lemma {:induction false} RemoveOneFacts(q: seq<nat>, rn: nat)
    requires Distinct(q)
    ensures Distinct(RemoveOne(q, rn))
    ensures forall x :: x in RemoveOne(q, rn) <==> x in q && x != rn
  {
    if q != [] && q[0] != rn {
      RemoveOneFacts(q[1..], rn);
      assert q == [q[0]] + q[1..];
      var r := RemoveOne(q[1..], rn);
      forall i, j | 0 <= i < j < |r| + 1 ensures ([q[0]] + r)[i] != ([q[0]] + r)[j] {
        if i == 0 {
          assert r[j - 1] in r;
        }
      }
    } else if q != [] {
      assert q == [rn] + q[1..];
    }
  }

  lemma BeginQueue(g: Group)
    requires Inv(g)
    ensures g.starter.Fresh? ==> QueueOk(Spawned, g.queue, g.marked, g.signalled, g.adds)
    ensures g.starter.Spawned? ==> QueueOk(Queuing(0), g.queue, g.marked, g.signalled, g.adds)
    ensures g.starter.Queuing? ==> g.signalled == {} && g.starter.i <= |g.queue|
  {
  }

  lemma SendQueue(i: nat, q: seq<nat>, marked: set<nat>, adds: map<nat, AddStage>)
    requires QueueOk(Queuing(i), q, marked, {}, adds) && i < |q|
    ensures QueueOk(Queuing(i + 1), q, marked + {q[i]}, {}, adds[q[i] := Sent]) && Stage(adds, q[i], Queued)
  {
    assert q[..i + 1] == q[..i] + [q[i]];
  }

  lemma UnlockQueue(q: seq<nat>, marked: set<nat>, adds: map<nat, AddStage>)
    requires QueueOk(Queuing(|q|), q, marked, {}, adds)
    ensures QueueOk(if q == [] then Ready else Waiting, q, marked, {}, adds)
  {
    assert q[..|q|] == q;
    if q == [] {
      assert marked == {};
    }
  }

  lemma ReceiveQueue(q: seq<nat>, marked: set<nat>, signalled: set<nat>, adds: map<nat, AddStage>, rn: nat)
    requires QueueOk(Waiting, q, marked, signalled, adds) && rn in marked - signalled
    ensures var r := RemoveOne(q, rn);
            QueueOk(if r == [] then Ready else Waiting, r, marked, signalled + {rn}, adds)
  {
    RemoveOneFacts(q, rn);
    if RemoveOne(q, rn) == [] {
      forall x | x in marked ensures x in signalled + {rn} {
        assert x !in RemoveOne(q, rn);
      }
      assert marked == signalled + {rn};
    }
  }

  lemma AppendQueue(starter: Starter, q: seq<nat>, adds: map<nat, AddStage>, rn: nat)
    requires (starter.Fresh? || starter.Spawned?) && QueueOk(starter, q, {}, {}, adds) && Stage(adds, rn, Checked)
    ensures QueueOk(starter, q + [rn], {}, {}, adds[rn := Queued])
  {
    forall i | 0 <= i < |q| ensures q[i] != rn {
      assert q[i] in q;
    }
  }

  /** The queue does not mind a new stage of a call that is not in it. */
  lemma OtherAdd(g: Group, rn: nat, s: AddStage)
    requires Inv(g) && s != Queued && (rn in g.adds ==> g.adds[rn] == Checked || g.adds[rn] == Sending)
    ensures QueueOk(g.starter, g.queue, g.marked, g.signalled, g.adds[rn := s])
  {
    assert rn !in g.queue;
  }

  lemma StartInv(g: Group, l: Label)
    requires Inv(g)
    ensures Inv(StartStep(g, l))
  {
    hide QueueOk, RemoveOne;
    BeginQueue(g);
    match l
    case StartSend =>
      if g.starter.Queuing? && g.starter.i < |g.queue| { SendQueue(g.starter.i, g.queue, g.marked, g.adds); }
    case StartUnlock =>
      if g.starter.Queuing? && g.starter.i == |g.queue| { UnlockQueue(g.queue, g.marked, g.adds); }
    case StartReceive(rn) =>
      if g.starter.Waiting? && rn in g.marked - g.signalled {
        ReceiveQueue(g.queue, g.marked, g.signalled, g.adds, rn);
      }
    case _ =>
  }

  lemma RecInv(g: Group, l: Label)
    requires Inv(g)
    ensures Inv(RecStep(g, l))
  {
  }

  lemma ReturnCount(g: Group, rn: nat)
    requires CountOk(g.wg, g.launched, g.active, g.running, g.rec) && rn in g.running
    ensures g.wg > 0 && rn in g.active
    ensures CountOk(g.wg - 1, g.launched, g.active - {rn}, g.running - {rn}, g.rec)
  {
    assert |g.active - {rn}| == |g.active| - 1;
    if g.active != g.running {
      assert g.active - {rn} == (g.running - {rn}) + {g.rec.rn};
    }
  }

  lemma RunStepInv(g: Group, l: Label)
    requires Inv(g)
    ensures Inv(RunStep(g, l))
  {
    SignalledAll(g);
    hide CountOk, QueueOk, AddsOk;
    if l.Return? && l.rn in g.running {
      ReturnCount(g, l.rn);
    }
  }

  lemma SignalledAll(g: Group)
    requires Inv(g)
    ensures g.starter.Ready? ==> g.marked == g.signalled
  {
  }

  lemma AddInv(g: Group, l: Label)
    requires Inv(g)
    ensures Inv(AddStep(g, l))
  {
    match l
    case AddCheck(rn) => if rn !in g.adds { OtherAdd(g, rn, if g.stopped then Rejected else Checked); }
    case AddStart(rn) =>
      if Stage(g.adds, rn, Checked) {
        if g.started {
          OtherAdd(g, rn, Sending);
        } else {
          assert g.marked == {} && g.signalled == {};
          AppendQueue(g.starter, g.queue, g.adds, rn);
        }
      }
    case AddSend(rn) => if Stage(g.adds, rn, Sending) { OtherAdd(g, rn, Sent); }
    case _ =>
  }

  lemma StopInv(g: Group, l: Label)
    requires Inv(g)
    ensures Inv(StopStep(g, l))
  {
  }

  lemma StepInv(g: Group, l: Label)
    requires Inv(g)
    ensures Inv(Step(g, l))
  {
    hide Inv, StartStep, RecStep, RunStep, AddStep, StopStep;
    StartInv(g, l);
    RecInv(g, l);
    RunStepInv(g, l);
    AddInv(g, l);
    StopInv(g, l);
  }

  lemma {:induction false} RunInv(g: Group, ls: seq<Label>)
    requires Inv(g)
    ensures Inv(Run(g, ls))
    decreases |ls|
  {
    hide Inv, Step;
    if ls != [] {
      StepInv(g, ls[0]);
      RunInv(Step(g, ls[0]), ls[1..]);
    }
  }

  // ---------------------------------------------------------------------------
  // Theorems

  /**
   In every interleaving: the WaitGroup counts exactly the runnables started and not returned, it is never
   raised after the group is stopped, and nothing is sent on the closed ready channel.
   */
  lemma EveryRunIsSafe(ls: seq<Label>)
    ensures var g := Run(Initial(), ls);
            && !g.lateAdd && !g.lateSignal
            && g.wg == |g.active| && g.running <= g.active <= g.launched
  {
    InitialInv();
    RunInv(Initial(), ls);
    hide Run, QueueOk, AddsOk, StopOk;
  }

  /** When Start is over, every runnable added before it was handed over, and each of those reported ready. */
  lemma StartWaitsForAll(ls: seq<Label>)
    ensures var g := Run(Initial(), ls);
            g.starter.Ready? ==>
              g.marked == g.signalled && g.queue == [] && forall rn :: rn in g.adds ==> g.adds[rn] != Queued
  {
    InitialInv();
    RunInv(Initial(), ls);
    hide Run, CountOk, AddsOk, StopOk;
  }

  lemma StoppedStep(g: Group, l: Label)
    requires Inv(g) && g.stopped
    ensures var t := Step(g, l);
            t.stopped && t.launched == g.launched && t.active <= g.active
  {
    hide QueueOk, AddsOk, CountOk, RemoveOne;
  }

  /** From the moment the flag is set nothing is started any more. */
  lemma {:induction false} StoppedRun(g: Group, ls: seq<Label>)
    requires Inv(g) && g.stopped
    ensures var t := Run(g, ls);
            t.stopped && t.launched == g.launched && t.active <= g.active
    decreases |ls|
  {
    hide Inv, Step;
    if ls != [] {
      StepInv(g, ls[0]);
      StoppedStep(g, ls[0]);
      StoppedRun(Step(g, ls[0]), ls[1..]);
    }
  }

  /** When StopAndWait returns through `done`, every runnable ever started has returned, and none starts later. */
  lemma StopWaitsForAll(ls: seq<Label>, later: seq<Label>)
    ensures var g := Run(Initial(), ls);
            var t := Run(g, later);
            g.stopper == Returned(true) ==> g.active == {} && t.active == {} && t.launched == g.launched
  {
    InitialInv();
    RunInv(Initial(), ls);
    var g := Run(Initial(), ls);
    hide Run, QueueOk, AddsOk, CountOk;
    if g.stopper == Returned(true) {
      StoppedRun(g, later);
    }
  }

  // ---------------------------------------------------------------------------
  // A call of Add that overlaps StopAndWait

  /** The call has passed its check of the flag and has not handed its runnable over. */
  predicate InFlight(g: Group, rn: nat) { Stage(g.adds, rn, Checked) || Stage(g.adds, rn, Sending) }

  /** Once the group is stopped only a call of Add changes the stage of one. */
  lemma OthersKeepAdds(g: Group, l: Label)
    requires Inv(g) && g.stopped && !g.panicked && !l.AddCheck? && !l.AddStart? && !l.AddSend?
    ensures var t := Step(g, l); !t.panicked && t.adds == g.adds
  {
    hide QueueOk, AddsOk, CountOk, RemoveOne;
  }

  lemma QuietStep(g: Group, l: Label)
    requires Inv(g) && g.stopped && !g.panicked && forall rn :: !InFlight(g, rn)
    ensures !Step(g, l).panicked && forall rn :: !InFlight(Step(g, l), rn)
  {
    hide QueueOk, AddsOk, CountOk, StopOk, StartStep, RecStep, RunStep, StopStep;
    if l.AddStart? || l.AddSend? {
      assert !InFlight(g, l.rn);
    } else if !l.AddCheck? {
      OthersKeepAdds(g, l);
    }
    forall rn ensures !InFlight(Step(g, l), rn) {
      assert !InFlight(g, rn);
    }
  }

  lemma {:induction false} QuietRun(g: Group, ls: seq<Label>)
    requires Inv(g) && g.stopped && !g.panicked && forall rn :: !InFlight(g, rn)
    ensures !Run(g, ls).panicked
    decreases |ls|
  {
    hide Inv, Step, InFlight;
    if ls != [] {
      StepInv(g, ls[0]);
      StoppedStep(g, ls[0]);
      QuietStep(g, ls[0]);
      QuietRun(Step(g, ls[0]), ls[1..]);
    }
  }

  function Crash(rn: nat): seq<Label> { [StopExpire, AddStart(rn), AddSend(rn)] }

  lemma RunThree(g: Group, a: Label, b: Label, c: Label)
    ensures Run(g, [a, b, c]) == Step(Step(Step(g, a), b), c)
  {
    hide Step;
    var u := Step(Step(g, a), b);
    assert [a, b, c][1..] == [b, c] && [b, c][1..] == [c] && [c][1..] == [];
    assert Run(u, [c]) == Run(Step(u, c), []);
    assert Run(Step(g, a), [b, c]) == Run(u, [c]);
  }

  lemma CrashSteps(g: Group, rn: nat)
    requires Inv(g) && g.stopped && !g.panicked && InFlight(g, rn)
    ensures Step(Step(Step(g, StopExpire), AddStart(rn)), AddSend(rn)).panicked
  {
    hide QueueOk, AddsOk, CountOk, StartStep, RecStep, RunStep;
    var a := Step(g, StopExpire);
    assert a.chClosed && a.started && !a.starter.Queuing? && a.adds == g.adds && !a.panicked;
    hide StopStep, StopOk;
    var b := Step(a, AddStart(rn));
    assert Stage(b.adds, rn, Sending) && b.chClosed;
  }

  lemma Crashes(g: Group, rn: nat)
    requires Inv(g) && g.stopped && !g.panicked && InFlight(g, rn)
    ensures Run(g, Crash(rn)).panicked
  {
    hide Step, Inv, InFlight;
    CrashSteps(g, rn);
    RunThree(g, StopExpire, AddStart(rn), AddSend(rn));
  }

  /**
   Once the group is stopped, a send on the closed internal channel is possible if and only if some call of
   Add had passed its check before and has not handed its runnable over.
   */
  lemma SendOnClosedExactlyWhen(g: Group)
    requires Inv(g) && g.stopped && !g.panicked
    ensures (exists ls :: Run(g, ls).panicked) <==> exists rn :: InFlight(g, rn)
  {
    if rn :| InFlight(g, rn) {
      Crashes(g, rn);
    } else {
      forall ls ensures !Run(g, ls).panicked {
        QuietRun(g, ls);
      }
    }
  }

  /** A run from the start in which a call of Add does overlap, and sends on the closed channel. */
  lemma AddCanCrash()
    ensures Run(Initial(), [AddCheck(0), StartBegin, StartLock, StartUnlock, StopBegin, StopFlag] + Crash(0)).panicked
  {
    var ls := [AddCheck(0), StartBegin, StartLock, StartUnlock, StopBegin, StopFlag];
    var g := Run(Initial(), ls);
    InitialInv();
    RunInv(Initial(), ls);
    SixSteps();
    Crashes(g, 0);
    RunConcat(Initial(), ls, Crash(0));
  }

  lemma SixSteps()
    ensures var g := Run(Initial(), [AddCheck(0), StartBegin, StartLock, StartUnlock, StopBegin, StopFlag]);
            g.stopped && !g.panicked && !g.chClosed && InFlight(g, 0)
  {
    var first, second := [AddCheck(0), StartBegin, StartLock], [StartUnlock, StopBegin, StopFlag];
    assert first + second == [AddCheck(0), StartBegin, StartLock, StartUnlock, StopBegin, StopFlag];
    RunConcat(Initial(), first, second);
    FirstThree();
    LastThree();
  }

  /** A call of Add has passed its check, and Start holds its lock. */
  function Overlapping(): Group {
    Initial().(starter := Queuing(0), started := true, rec := Receiving, adds := map[0 := Checked])
  }

  lemma FirstThree()
    ensures Run(Initial(), [AddCheck(0), StartBegin, StartLock]) == Overlapping()
  {
    hide Run;
    RunThree(Initial(), AddCheck(0), StartBegin, StartLock);
    var g := Step(Initial(), AddCheck(0));
    assert g == Initial().(adds := map[0 := Checked]);
  }

  lemma LastThree()
    ensures Run(Overlapping(), [StartUnlock, StopBegin, StopFlag])
         == Overlapping().(starter := Ready, stopper := Waited, stopped := true)
  {
    hide Run;
    RunThree(Overlapping(), StartUnlock, StopBegin, StopFlag);
  }

  lemma {:induction false} RunConcat(g: Group, a: seq<Label>, b: seq<Label>)
    ensures Run(g, a + b) == Run(Run(g, a), b)
    decreases |a|
  {
    hide Step;
    if a == [] {
      assert a + b == b;
    } else {
      assert (a + b)[1..] == a[1..] + b;
      RunConcat(Step(g, a[0]), a[1..], b);
    }
  }

  // ---------------------------------------------------------------------------
  // A runnable that is accepted and never started

  /** The reconciler has taken the runnable and not yet counted it. */
  predicate InHand(rec: Reconciler, rn: nat) { (rec.Got? || rec.Holding?) && rec.rn == rn }

  /** The call of Add has returned without an error, and the runnable is neither started nor about to be. */
  predicate Dropped(g: Group, rn: nat) { Stage(g.adds, rn, Sent) && rn !in g.launched && !InHand(g.rec, rn) }

  /** A step drops a runnable exactly when the reconciler checks it after the flag is set. */
  lemma DropsExactlyWhen(g: Group, l: Label, rn: nat)
    requires Inv(g) && !Dropped(g, rn)
    ensures Dropped(Step(g, l), rn) <==> !g.panicked && g.stopped && l.RecCheck? && g.rec == Got(rn)
  {
    hide QueueOk, CountOk, RemoveOne;
  }

  /** The same runnable is not sent again. */
  lemma DroppedStart(g: Group, l: Label, rn: nat)
    requires Inv(g) && Dropped(g, rn)
    ensures Dropped(StartStep(g, l), rn)
  {
    hide CountOk, AddsOk, StopOk, RemoveOne;
    if l.StartSend? && g.starter.Queuing? && g.starter.i < |g.queue| {
      assert Stage(g.adds, g.queue[g.starter.i], Queued);
    }
  }

  lemma DroppedOther(g: Group, l: Label, rn: nat)
    requires Dropped(g, rn)
    ensures Dropped(RunStep(g, l), rn) && Dropped(StopStep(g, l), rn)
  {
  }

  lemma DroppedRec(g: Group, l: Label, rn: nat)
    requires Dropped(g, rn)
    ensures Dropped(RecStep(g, l), rn)
  {
  }

  lemma DroppedAdd(g: Group, l: Label, rn: nat)
    requires Dropped(g, rn)
    ensures Dropped(AddStep(g, l), rn)
  {
  }

  /** What is dropped stays dropped. */
  lemma DroppedStep(g: Group, l: Label, rn: nat)
    requires Inv(g) && Dropped(g, rn)
    ensures Dropped(Step(g, l), rn)
  {
    hide Inv, Dropped, StartStep, RecStep, RunStep, AddStep, StopStep;
    DroppedStart(g, l, rn);
    DroppedRec(g, l, rn);
    DroppedOther(g, l, rn);
    DroppedAdd(g, l, rn);
  }

  lemma {:induction false} DroppedRun(g: Group, ls: seq<Label>, rn: nat)
    requires Inv(g) && Dropped(g, rn)
    ensures Dropped(Run(g, ls), rn)
    decreases |ls|
  {
    hide Inv, Step, Dropped;
    if ls != [] {
      StepInv(g, ls[0]);
      DroppedStep(g, ls[0], rn);
      DroppedRun(Step(g, ls[0]), ls[1..], rn);
    }
  }

  lemma StoppedStays(g: Group, l: Label)
    ensures g.stopped ==> Step(g, l).stopped
  {
    hide RemoveOne;
  }

  lemma {:induction false} KeptRun(g: Group, ls: seq<Label>, rn: nat)
    requires Inv(g) && (!g.stopped ==> !Dropped(g, rn))
    ensures !Run(g, ls).stopped ==> !Dropped(Run(g, ls), rn)
    decreases |ls|
  {
    hide Inv, Step, Dropped;
    if ls != [] {
      StepInv(g, ls[0]);
      StoppedStays(g, ls[0]);
      if !g.stopped {
        DropsExactlyWhen(g, ls[0], rn);
      }
      KeptRun(Step(g, ls[0]), ls[1..], rn);
    }
  }

  /** Until the group is stopped every runnable handed over is started, or in the hands of the reconciler. */
  lemma SentIsStarted(ls: seq<Label>, rn: nat)
    ensures var g := Run(Initial(), ls);
            !g.stopped && Stage(g.adds, rn, Sent) ==> rn in g.launched || InHand(g.rec, rn)
  {
    InitialInv();
    KeptRun(Initial(), ls, rn);
  }

  /** A stopped group can still drop the runnable: it is in hand, or its call of Add is in flight and can send. */
  predicate Droppable(g: Group, rn: nat) { g.rec == Got(rn) || (InFlight(g, rn) && !g.chClosed) }

  lemma UndroppableStep(g: Group, l: Label, rn: nat)
    requires Inv(g) && g.stopped && !Dropped(g, rn) && !Droppable(g, rn)
    ensures !Droppable(Step(g, l), rn)
  {
    hide QueueOk, AddsOk, CountOk, RemoveOne;
  }

  lemma {:induction false} UndroppableRun(g: Group, ls: seq<Label>, rn: nat)
    requires Inv(g) && g.stopped && !Dropped(g, rn) && !Droppable(g, rn)
    ensures !Dropped(Run(g, ls), rn)
    decreases |ls|
  {
    hide Inv, Step, Dropped, InFlight;
    if ls != [] {
      StepInv(g, ls[0]);
      StoppedStays(g, ls[0]);
      DropsExactlyWhen(g, ls[0], rn);
      UndroppableStep(g, ls[0], rn);
      UndroppableRun(Step(g, ls[0]), ls[1..], rn);
    }
  }

  /** The reconciler finishes what it has, takes the runnable from its call of Add, and checks it. */
  function Drop(rn: nat): seq<Label> { [RecCheck, RecLaunch, AddStart(rn)] + [AddSend(rn), RecCheck] }

  lemma RunTwo(g: Group, a: Label, b: Label)
    ensures Run(g, [a, b]) == Step(Step(g, a), b)
  {
    hide Step;
    var u := Step(Step(g, a), b);
    assert [a, b][1..] == [b] && [b][1..] == [];
    assert Run(Step(g, a), [b]) == Run(u, []);
  }

  /** A stopped reconciler is ready to receive after two steps. */
  lemma Receives(g: Group)
    requires Inv(g) && g.stopped && !g.panicked && !g.chClosed
    ensures var t := Step(Step(g, RecCheck), RecLaunch); t == g.(rec := Receiving, running := t.running)
  {
    hide QueueOk, AddsOk, CountOk, StartStep, RunStep, AddStep, StopStep;
  }

  lemma TakesOver(g: Group, rn: nat)
    requires Inv(g) && g.stopped && !g.panicked && !g.chClosed && InFlight(g, rn)
    ensures var t := Run(g, [RecCheck, RecLaunch, AddStart(rn)]);
            && t.stopped && !t.panicked && !t.chClosed && t.rec == Receiving
            && Stage(t.adds, rn, Sending) && t.launched == g.launched
  {
    hide Run, QueueOk, CountOk, StartStep, RecStep, RunStep, StopStep;
    Receives(g);
    RunThree(g, RecCheck, RecLaunch, AddStart(rn));
  }

  lemma Drops(g: Group, rn: nat)
    requires Inv(g) && g.stopped && !g.panicked && !g.chClosed && InFlight(g, rn)
    ensures Dropped(Run(g, Drop(rn)), rn)
  {
    assert rn !in g.launched;
    hide Run, Inv, StartStep, RunStep, StopStep, InFlight;
    TakesOver(g, rn);
    var t := Run(g, [RecCheck, RecLaunch, AddStart(rn)]);
    RunTwo(t, AddSend(rn), RecCheck);
    var u := t.(adds := t.adds[rn := Sent], rec := Got(rn));
    assert Step(t, AddSend(rn)) == u;
    assert Step(u, RecCheck) == u.(rec := Receiving);
    RunConcat(g, [RecCheck, RecLaunch, AddStart(rn)], [AddSend(rn), RecCheck]);
  }

  lemma DropsInHand(g: Group, rn: nat)
    requires Inv(g) && g.stopped && !g.panicked && g.rec == Got(rn)
    ensures Dropped(Run(g, [RecCheck]), rn)
  {
    hide Inv;
    DropsExactlyWhen(g, RecCheck, rn);
    assert Run(Step(g, RecCheck), [RecCheck][1..]) == Step(g, RecCheck);
  }

  /**
   Once the group is stopped, a runnable whose call of Add reports no error is never started in some run if and
   only if it was dropped already, is in the hands of the reconciler, or its call passed its check before and the
   internal channel is still open.
   */
  lemma DroppedExactlyWhen(g: Group, rn: nat)
    requires Inv(g) && g.stopped && !g.panicked
    ensures (exists ls :: Dropped(Run(g, ls), rn)) <==> Dropped(g, rn) || Droppable(g, rn)
  {
    if Dropped(g, rn) {
      DroppedRun(g, [], rn);
    } else if g.rec == Got(rn) {
      DropsInHand(g, rn);
    } else if Droppable(g, rn) {
      Drops(g, rn);
    } else {
      forall ls ensures !Dropped(Run(g, ls), rn) {
        UndroppableRun(g, ls, rn);
      }
    }
  }

  /** A run from the start in which Add overlaps the stop, reports no error, and its runnable is never started. */
  lemma AddCanBeDropped(later: seq<Label>)
    ensures var ls := [AddCheck(0), StartBegin, StartLock, StartUnlock, StopBegin, StopFlag] + Drop(0);
            Dropped(Run(Run(Initial(), ls), later), 0)
  {
    hide Run, Inv, Dropped;
    var ls := [AddCheck(0), StartBegin, StartLock, StartUnlock, StopBegin, StopFlag];
    var g := Run(Initial(), ls);
    InitialInv();
    RunInv(Initial(), ls);
    SixSteps();
    Drops(g, 0);
    RunConcat(Initial(), ls, Drop(0));
    RunInv(g, Drop(0));
    DroppedRun(Run(g, Drop(0)), later, 0);
  }
}
