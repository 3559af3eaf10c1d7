/**
 Snapshots of volumes: the controller lets a snapshot begin only when it finds no other unmerged one of
 the same origin, and the agents move it on from there. The search goes by a label.

 `log` holds every version of every snapshot ever written; `cur` says which version of each is the
 newest. The controller has one worker and may read any version; its list of siblings is read live. All
 writes are refused unless made from the newest version, and `Update` leaves the status alone.
 */
module Snapshot {
  import opened Prelude

  datatype Status = Unset | Creating | Ready | Merging | Merged | Failed | Deleted

  /** The labels that matter; `other` stands for any further ones. */
  datatype Labels = Labels(origin: Option<string>, mergeStart: bool, mergeFinish: bool, other: bool)

  datatype Snap = Snap(
    origin: string, labels: Labels, size: int, node: Option<string>, kernelLvol: bool,
    status: Status, finalizer: bool, deleting: bool)

  datatype Key = Key(ns: string, name: string)

  datatype Entry = Entry(key: Key, snap: Snap)

  datatype Stage =
    | Idle
    | Reading(i: nat)         // has a version of a snapshot
    | Cleared(i: nat)         // and has found no unmerged sibling

  datatype World = World(log: seq<Entry>, cur: map<Key, nat>, ctl: Stage)

  datatype Label =
    | CtlRead(i: nat)
    | CtlPass(poolMissing: bool)
    | CtlAct(node: string)
    | CtlStop
    | AgentCreate(key: Key)
    | AgentReady(key: Key)
    | AgentRestore(key: Key)
    | AgentMerged(key: Key)
    | UserCreate(key: Key, snap: Snap)
    | UserEdit(key: Key, labels: Labels, size: int)
    | UserDelete(key: Key)
    | Vanish(key: Key)

  const FOUR_MIB := 0x40_0000

  predicate NoLabels(l: Labels) { l == Labels(None, false, false, false) }

  // ---------------------------------------------------------------------------
  // The controller's pass

  datatype Decision = Nothing | Release | Relabel | Resize | Proceed

  /** The pass up to the search for siblings, whose outcome is `clear`. */
  function Decide(o: Snap, poolMissing: bool, clear: bool): Decision {
    if o.deleting && (o.status.Merged? || poolMissing) then Release
    else if o.status.Merged? then Nothing
    else if NoLabels(o.labels) then Relabel
    else if o.size < FOUR_MIB then Nothing
    else if o.size % FOUR_MIB > 0 then Resize
    else if clear then Proceed
    else Nothing
  }

  /** The rest of the pass, once the origin volume is found on `node` with room for the snapshot. */
  function Act(o: Snap, node: string): Option<Snap> {
    if o.node.None? then Some(o.(node := Some(node), labels := o.labels.(other := true)))
    else if o.status.Unset? then Some(o.(status := Creating))
    else if o.labels.mergeStart && !o.status.Merging? then Some(o.(status := Merging))
    else None
  }

  /** What the label search finds in the way: another snapshot of that namespace and label, not merged. */
  predicate InTheWay(key: Key, origin: string, other: Entry) {
    other.key != key && other.key.ns == key.ns && other.snap.labels.origin == Some(origin) && !other.snap.status.Merged?
  }

  predicate Clear(w: World, key: Key, origin: string)
    requires Valid(w)
  {
    forall k :: k in w.cur ==> !InTheWay(key, origin, w.log[w.cur[k]])
  }

  // ---------------------------------------------------------------------------
  // Steps

  predicate Valid(w: World) {
    && (forall k :: k in w.cur ==> w.cur[k] < |w.log| && w.log[w.cur[k]].key == k)
    && (w.ctl.Idle? || w.ctl.i < |w.log|)
  }

  function Push(w: World, key: Key, s: Snap): World {
    w.(log := w.log + [Entry(key, s)], cur := w.cur[key := |w.log|])
  }

  /** A write made from version `i`. */
  function Update(w: World, i: nat, s: Snap): World
    requires i < |w.log|
  {
    var key := w.log[i].key;
    if key in w.cur && w.cur[key] == i then Push(w, key, s) else w
  }

  function Remove(w: World, key: Key): World { w.(cur := w.cur - {key}) }

  function CtlStep(w: World, l: Label): (r: World)
    requires Valid(w)
    ensures Valid(r)
  {
    match (l, w.ctl)
    case (CtlRead(i), Idle) => if i < |w.log| then w.(ctl := Reading(i)) else w
    case (CtlPass(missing), Reading(i)) =>
      var e, idle := w.log[i], w.(ctl := Idle);
      (match Decide(e.snap, missing, Clear(w, e.key, e.snap.origin))
       case Nothing => idle
       case Release => if e.key in w.cur && w.cur[e.key] == i then Remove(idle, e.key) else idle
       case Relabel => Update(idle, i, e.snap.(labels := e.snap.labels.(origin := Some(e.snap.origin), other := true)))
       case Resize => Update(idle, i, e.snap.(size := e.snap.size / FOUR_MIB * FOUR_MIB))
       case Proceed => w.(ctl := Cleared(i)))
    case (CtlAct(n), Cleared(i)) =>
      var r := Act(w.log[i].snap, n);
      if r.Some? then Update(w.(ctl := Idle), i, r.value) else w.(ctl := Idle)
    case (CtlStop, _) => w.(ctl := Idle)
    case _ => w
  }

  /** What an agent makes of the newest version; None when there is nothing to do. */
  function AgentWrite(l: Label, s: Snap): Option<Snap> {
    if s.deleting then None
    else
      match l
      case AgentCreate(_) => if s.status.Creating? && !s.finalizer then Some(s.(finalizer := true)) else None
      case AgentReady(_) => if s.status.Creating? && s.finalizer then Some(s.(status := Ready)) else None
      // the merged status set here is not stored: Update ignores it
      case AgentRestore(_) =>
        if s.kernelLvol && s.status.Merging? && !s.labels.mergeFinish then
          Some(s.(labels := s.labels.(mergeFinish := true)))
        else None
      case AgentMerged(_) =>
        if s.kernelLvol && s.status.Merging? && s.labels.mergeFinish then Some(s.(status := Merged)) else None
      case _ => None
  }

  function Now(w: World, key: Key): Snap
    requires Valid(w) && key in w.cur
  {
    w.log[w.cur[key]].snap
  }

  function AgentStep(w: World, l: Label, key: Key): (r: World)
    requires Valid(w)
    ensures Valid(r)
  {
    if key in w.cur && AgentWrite(l, Now(w, key)).Some? then Push(w, key, AgentWrite(l, Now(w, key)).value) else w
  }

  function UserStep(w: World, l: Label): (r: World)
    requires Valid(w)
    ensures Valid(r)
  {
    match l
    case UserCreate(k, s) =>
      if k in w.cur then w else Push(w, k, s.(status := Unset, finalizer := false, deleting := false))
    case UserEdit(k, labels, size) => if k in w.cur then Push(w, k, Now(w, k).(labels := labels, size := size)) else w
    case UserDelete(k) => if k in w.cur then Push(w, k, Now(w, k).(deleting := true)) else w
    case Vanish(k) => Remove(w, k)
    case _ => w
  }

  function Step(w: World, l: Label): (r: World)
    requires Valid(w)
    ensures Valid(r)
  {
    match l
    case AgentCreate(k) => AgentStep(w, l, k)
    case AgentReady(k) => AgentStep(w, l, k)
    case AgentRestore(k) => AgentStep(w, l, k)
    case AgentMerged(k) => AgentStep(w, l, k)
    case UserCreate(_, _) => UserStep(w, l)
    case UserEdit(_, _, _) => UserStep(w, l)
    case UserDelete(_) => UserStep(w, l)
    case Vanish(_) => UserStep(w, l)
    case _ => CtlStep(w, l)
  }

  function Run(w: World, ls: seq<Label>): (r: World)
    requires Valid(w)
    ensures Valid(r)
    decreases |ls|
  {
    if ls == [] then w else Run(Step(w, ls[0]), ls[1..])
  }

  function Empty(): World { World([], map[], Idle) }

  // ---------------------------------------------------------------------------
  // One active snapshot

  predicate Active(s: Snap) { !s.status.Unset? && !s.status.Merged? }

  /** Labels that are there include the right origin. */
  predicate LabelsOk(l: Labels, origin: string) { NoLabels(l) || l.origin == Some(origin) }

  /** What users must keep to: labels in place, and the origin label left alone. */
  predicate Proper(w: World, l: Label)
    requires Valid(w)
  {
    match l
    case UserCreate(_, s) => LabelsOk(s.labels, s.origin)
    case UserEdit(k, labels, _) =>
      k in w.cur ==>
        && LabelsOk(labels, Now(w, k).origin)
        && (Now(w, k).labels.origin.Some? ==> labels.origin.Some?)
    case _ => true
  }

  predicate ProperRun(w: World, ls: seq<Label>)
    requires Valid(w)
    decreases |ls|
  {
    ls == [] || (Proper(w, ls[0]) && ProperRun(Step(w, ls[0]), ls[1..]))
  }

  predicate Labelled(s: Snap) {
    LabelsOk(s.labels, s.origin) && (Active(s) ==> s.labels.origin == Some(s.origin))
  }

  predicate Siblings(w: World, a: Key, b: Key)
    requires Valid(w)
  {
    a in w.cur && b in w.cur && a != b && a.ns == b.ns && Now(w, a).origin == Now(w, b).origin
  }

  /** No other snapshot of that namespace and origin is active. */
  predicate Alone(w: World, key: Key, origin: string)
    requires Valid(w)
  {
    forall k :: k in w.cur && k != key && k.ns == key.ns && Now(w, k).origin == origin ==> !Active(Now(w, k))
  }

  predicate Unique(w: World)
    requires Valid(w)
  {
    forall a :: a in w.cur && Active(Now(w, a)) ==> Alone(w, a, Now(w, a).origin)
  }

  predicate Inv(w: World) {
    && Valid(w)
    && (forall i :: 0 <= i < |w.log| ==> Labelled(w.log[i].snap))
    && Unique(w)
    && (w.ctl.Cleared? ==>
          var e := w.log[w.ctl.i];
          Alone(w, e.key, e.snap.origin) && !NoLabels(e.snap.labels) && !e.snap.status.Merged?)
  }

  lemma PushAlone(w: World, key: Key, s: Snap, a: Key, origin: string)
    requires Valid(w) && Alone(w, a, origin)
    requires Active(s) && key != a && key.ns == a.ns ==> s.origin != origin
    ensures Alone(Push(w, key, s), a, origin)
  {
    var t := Push(w, key, s);
    forall k | k in t.cur && k != a && k.ns == a.ns && Now(t, k).origin == origin ensures !Active(Now(t, k)) {
      if k != key {
        assert Now(t, k) == Now(w, k);
      }
    }
  }

  lemma PushUnique(w: World, key: Key, s: Snap)
    requires Inv(w) && (Active(s) ==> Alone(w, key, s.origin))
    ensures Unique(Push(w, key, s))
  {
    hide Labelled;
    var t := Push(w, key, s);
    forall a | a in t.cur && Active(Now(t, a)) ensures Alone(t, a, Now(t, a).origin) {
      if a == key {
        PushAlone(w, key, s, a, s.origin);
      } else {
        assert Now(t, a) == Now(w, a) && Alone(w, a, Now(w, a).origin);
        PushAlone(w, key, s, a, Now(w, a).origin);
      }
    }
  }

  /** A write to one snapshot that leaves it inactive, or finds it alone. */
  lemma PushInv(w: World, key: Key, s: Snap)
    requires Inv(w) && Labelled(s)
    requires key in w.cur ==> Now(w, key).origin == s.origin
    requires Active(s) ==> Alone(w, key, s.origin)
    requires Active(s) && w.ctl.Cleared? ==> key in w.cur && Active(Now(w, key))
    ensures Inv(Push(w, key, s))
  {
    hide Labelled, Active;
    PushUnique(w, key, s);
    if w.ctl.Cleared? {
      var e := w.log[w.ctl.i];
      PushAlone(w, key, s, e.key, e.snap.origin);
    }
  }

  lemma RemoveInv(w: World, key: Key)
    requires Inv(w)
    ensures Inv(Remove(w, key))
  {
    var t := Remove(w, key);
    assert forall k :: k in t.cur ==> Now(t, k) == Now(w, k);
    forall a | a in t.cur && Active(Now(t, a)) ensures Alone(t, a, Now(t, a).origin) {
      assert Alone(w, a, Now(w, a).origin);
    }
  }

  lemma IdleInv(w: World)
    requires Inv(w)
    ensures Inv(w.(ctl := Idle))
  {
    var t := w.(ctl := Idle);
    assert forall k :: k in t.cur ==> Now(t, k) == Now(w, k);
    forall a | a in t.cur && Active(Now(t, a)) ensures Alone(t, a, Now(t, a).origin) {
      assert Alone(w, a, Now(w, a).origin);
    }
  }

  /** The label search sees every active sibling, so finding nothing means being alone. */
  lemma ClearIsAlone(w: World, key: Key, origin: string)
    requires Inv(w) && Clear(w, key, origin)
    ensures Alone(w, key, origin)
  {
    forall k | k in w.cur && k != key && k.ns == key.ns && Now(w, k).origin == origin ensures !Active(Now(w, k)) {
      assert !InTheWay(key, origin, w.log[w.cur[k]]);
      assert Labelled(w.log[w.cur[k]].snap);
    }
  }

  /** A versioned write of the same snapshot, no more active than it was unless it is alone. */
  lemma UpdateInv(w: World, i: nat, s: Snap)
    requires Inv(w) && w.ctl.Idle? && i < |w.log| && Labelled(s) && s.origin == w.log[i].snap.origin
    requires Active(s) && !Active(w.log[i].snap) ==> Alone(w, w.log[i].key, s.origin)
    ensures Inv(Update(w, i, s))
  {
    var key := w.log[i].key;
    if key in w.cur && w.cur[key] == i {
      assert Now(w, key) == w.log[i].snap;
      PushInv(w, key, s);
    }
  }

  lemma AliveIdle(w: World, key: Key, origin: string)
    requires Valid(w)
    ensures Alone(w.(ctl := Idle), key, origin) == Alone(w, key, origin)
  {
    assert forall k :: k in w.cur ==> Now(w.(ctl := Idle), k) == Now(w, k);
  }

  lemma PassInv(w: World, missing: bool, i: nat)
    requires Inv(w) && w.ctl == Reading(i)
    ensures Inv(CtlStep(w, CtlPass(missing)))
  {
    var e, idle := w.log[i], w.(ctl := Idle);
    IdleInv(w);
    assert Labelled(e.snap);
    match Decide(e.snap, missing, Clear(w, e.key, e.snap.origin))
    case Nothing =>
    case Release => RemoveInv(idle, e.key);
    case Relabel => UpdateInv(idle, i, e.snap.(labels := e.snap.labels.(origin := Some(e.snap.origin), other := true)));
    case Resize => UpdateInv(idle, i, e.snap.(size := e.snap.size / FOUR_MIB * FOUR_MIB));
    case Proceed =>
      ClearIsAlone(w, e.key, e.snap.origin);
      var t := w.(ctl := Cleared(i));
      AliveIdle(w, e.key, e.snap.origin);
      AliveIdle(t, e.key, e.snap.origin);
      forall a | a in t.cur && Active(Now(t, a)) ensures Alone(t, a, Now(t, a).origin) {
        assert Now(t, a) == Now(w, a);
        AliveIdle(w, a, Now(w, a).origin);
        AliveIdle(t, a, Now(w, a).origin);
      }
  }

  lemma ActInv(w: World, n: string, i: nat)
    requires Inv(w) && w.ctl == Cleared(i)
    ensures Inv(CtlStep(w, CtlAct(n)))
  {
    var e := w.log[i];
    IdleInv(w);
    assert Labelled(e.snap);
    AliveIdle(w, e.key, e.snap.origin);
    if Act(e.snap, n).Some? {
      UpdateInv(w.(ctl := Idle), i, Act(e.snap, n).value);
    }
  }

  lemma AgentInv(w: World, l: Label, key: Key)
    requires Inv(w)
    ensures Inv(AgentStep(w, l, key))
  {
    if key in w.cur && AgentWrite(l, Now(w, key)).Some? {
      assert Labelled(w.log[w.cur[key]].snap);
      PushInv(w, key, AgentWrite(l, Now(w, key)).value);
    }
  }

  lemma UserInv(w: World, l: Label)
    requires Inv(w) && Proper(w, l)
    ensures Inv(UserStep(w, l))
  {
    match l
    case UserCreate(k, s) =>
      if k !in w.cur { PushInv(w, k, s.(status := Unset, finalizer := false, deleting := false)); }
    case UserEdit(k, labels, size) =>
      if k in w.cur {
        assert Labelled(w.log[w.cur[k]].snap);
        PushInv(w, k, Now(w, k).(labels := labels, size := size));
      }
    case UserDelete(k) =>
      if k in w.cur {
        assert Labelled(w.log[w.cur[k]].snap);
        PushInv(w, k, Now(w, k).(deleting := true));
      }
    case Vanish(k) => RemoveInv(w, k);
    case _ =>
  }

  lemma StepInv(w: World, l: Label)
    requires Inv(w) && Proper(w, l)
    ensures Inv(Step(w, l))
  {
    match l
    case AgentCreate(k) => AgentInv(w, l, k);
    case AgentReady(k) => AgentInv(w, l, k);
    case AgentRestore(k) => AgentInv(w, l, k);
    case AgentMerged(k) => AgentInv(w, l, k);
    case UserCreate(_, _) => UserInv(w, l);
    case UserEdit(_, _, _) => UserInv(w, l);
    case UserDelete(_) => UserInv(w, l);
    case Vanish(_) => UserInv(w, l);
    case CtlPass(m) => if w.ctl.Reading? { PassInv(w, m, w.ctl.i); }
    case CtlAct(n) => if w.ctl.Cleared? { ActInv(w, n, w.ctl.i); }
    case CtlStop => IdleInv(w);
    case CtlRead(i) => if w.ctl.Idle? && i < |w.log| { ReadInv(w, i); }
  }

  lemma ReadInv(w: World, i: nat)
    requires Inv(w) && i < |w.log|
    ensures Inv(w.(ctl := Reading(i)))
  {
    var t := w.(ctl := Reading(i));
    forall a | a in t.cur && Active(Now(t, a)) ensures Alone(t, a, Now(t, a).origin) {
      assert Now(t, a) == Now(w, a);
      AliveIdle(w, a, Now(w, a).origin);
      AliveIdle(t, a, Now(w, a).origin);
    }
  }

  lemma {:induction false} RunInv(w: World, ls: seq<Label>)
    requires Inv(w) && ProperRun(w, ls)
    ensures Inv(Run(w, ls))
    decreases |ls|
  {
    hide Unique, Step, Proper, Labelled, Alone;
    if ls != [] {
      StepInv(w, ls[0]);
      RunInv(Step(w, ls[0]), ls[1..]);
    }
  }

  /** With the labels in place, no run ever has two active snapshots of one origin in one namespace. */
  lemma OneActive(ls: seq<Label>, a: Key, b: Key)
    requires ProperRun(Empty(), ls)
    ensures var w := Run(Empty(), ls);
            Siblings(w, a, b) ==> !Active(Now(w, a)) || !Active(Now(w, b))
  {
    RunInv(Empty(), ls);
  }
}
