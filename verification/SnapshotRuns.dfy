/**
 When exactly the labels keep an origin to one active snapshot, what merging ends, and the controller's
 pass as the code that changes a snapshot in place and walks over its siblings.
 */
module SnapshotRuns {
  import opened Prelude
  import opened Snapshot

  lemma {:induction false} RunConcat(w: World, a: seq<Label>, b: seq<Label>)
    requires Valid(w)
    ensures Run(w, a + b) == Run(Run(w, a), b)
    decreases |a|
  {
    hide Step;
    if a == [] {
      assert a + b == b;
    } else {
      assert (a + b)[1..] == a[1..] + b;
      RunConcat(Step(w, a[0]), a[1..], b);
    }
  }

  // ---------------------------------------------------------------------------
  // Merged is the end

  /** The controller never goes on with a version it has read as merged. */
  predicate ReadUnmerged(w: World)
    requires Valid(w)
  {
    w.ctl.Cleared? ==> !w.log[w.ctl.i].snap.status.Merged?
  }

  lemma UnmergedStep(w: World, l: Label)
    requires Valid(w) && ReadUnmerged(w)
    ensures ReadUnmerged(Step(w, l))
  {
    hide Clear;
  }

  lemma MergedStep(w: World, l: Label, key: Key)
    requires Valid(w) && ReadUnmerged(w) && key in w.cur && Now(w, key).status.Merged?
    ensures key in Step(w, l).cur ==> Now(Step(w, l), key).status.Merged?
  {
    hide Clear;
  }

  /** The snapshot exists all through the run. */
  predicate Stays(w: World, ls: seq<Label>, key: Key)
    requires Valid(w)
    decreases |ls|
  {
    key in w.cur && (ls == [] || Stays(Step(w, ls[0]), ls[1..], key))
  }

  /** A merged snapshot stays merged for as long as it exists, whatever the users do to labels. */
  lemma {:induction false} MergedIsFinal(w: World, ls: seq<Label>, key: Key)
    requires Valid(w) && ReadUnmerged(w) && Stays(w, ls, key) && Now(w, key).status.Merged?
    ensures key in Run(w, ls).cur && Now(Run(w, ls), key).status.Merged?
    decreases |ls|
  {
    hide Step, ReadUnmerged;
    if ls != [] {
      UnmergedStep(w, ls[0]);
      MergedStep(w, ls[0], key);
      MergedIsFinal(Step(w, ls[0]), ls[1..], key);
    }
  }

  /** What `MergedIsFinal` asks of its first state holds in every run. */
  lemma {:induction false} EveryRunReadsUnmerged(w: World, ls: seq<Label>)
    requires Valid(w) && ReadUnmerged(w)
    ensures ReadUnmerged(Run(w, ls))
    decreases |ls|
  {
    hide Step, ReadUnmerged;
    if ls != [] {
      UnmergedStep(w, ls[0]);
      EveryRunReadsUnmerged(Step(w, ls[0]), ls[1..]);
    }
  }

  // ---------------------------------------------------------------------------
  // Exactly which labels are enough

  /** The user creates these two snapshots of one origin with these labels, and edits labels only to some of `edits`. */
  predicate Uses(ls: seq<Label>, a: Key, b: Key, origin: string, la: Labels, lb: Labels, edits: set<Labels>) {
    forall l :: l in ls ==>
      && (l.UserEdit? ==> l.labels in edits)
      && (l.UserCreate? ==>
            && l.snap.origin == origin
            && ((l.key == a && l.snap.labels == la) || (l.key == b && l.snap.labels == lb)))
  }

  predicate AllOf(w: World, origin: string) { forall i :: 0 <= i < |w.log| ==> w.log[i].snap.origin == origin }

  lemma OriginStays(w: World, l: Label, origin: string)
    requires Valid(w) && AllOf(w, origin) && (l.UserCreate? ==> l.snap.origin == origin)
    ensures AllOf(Step(w, l), origin)
  {
    hide Clear;
  }

  /** The labels a user may set without harm: the right origin, or none at the creation. */
  predicate Harmless(origin: string, la: Labels, lb: Labels, edits: set<Labels>) {
    && LabelsOk(la, origin) && LabelsOk(lb, origin)
    && forall e :: e in edits ==> e.origin == Some(origin)
  }

  lemma {:induction false} HarmlessIsProper(w: World, ls: seq<Label>, a: Key, b: Key, origin: string,
                                            la: Labels, lb: Labels, edits: set<Labels>)
    requires Valid(w) && AllOf(w, origin) && Uses(ls, a, b, origin, la, lb, edits) && Harmless(origin, la, lb, edits)
    ensures ProperRun(w, ls)
    decreases |ls|
  {
    hide Step;
    if ls != [] {
      assert ls[0] in ls;
      OriginStays(w, ls[0], origin);
      HarmlessIsProper(Step(w, ls[0]), ls[1..], a, b, origin, la, lb, edits);
    }
  }

  predicate BothActive(w: World, a: Key, b: Key)
    requires Valid(w)
  {
    Siblings(w, a, b) && Active(Now(w, a)) && Active(Now(w, b))
  }

  /** One round of the controller: read the newest version, find nothing in the way, act. */
  function Round(i: nat): seq<Label> { [CtlRead(i), CtlPass(false), CtlAct("n")] }

  /** A version the controller lets through. */
  predicate Passes(s: Snap) {
    !s.deleting && !s.status.Merged? && !NoLabels(s.labels) && s.size >= FOUR_MIB && s.size % FOUR_MIB == 0
  }

  lemma OneStep(w: World, l: Label)
    requires Valid(w)
    ensures Run(w, [l]) == Step(w, l)
  {
    hide Step;
    assert Run(Step(w, l), [l][1..]) == Step(w, l);
  }

  lemma ThreeSteps(w: World, a: Label, b: Label, c: Label)
    requires Valid(w)
    ensures Run(w, [a, b, c]) == Step(Step(Step(w, a), b), c) && Run(w, [a, b]) == Step(Step(w, a), b)
    ensures Run(w, [a]) == Step(w, a)
  {
    hide Step;
    var ls := [a, b, c];
    var u := Step(w, a);
    var v := Step(u, b);
    assert ls[1..] == [b, c] && ls[1..][1..] == [c] && [a, b][1..] == [b];
    assert [c][1..] == [] && [b][1..] == [] && [a][1..] == [];
    assert Run(v, [c]) == Step(v, c) && Run(u, [b]) == v;
    assert Run(u, [b, c]) == Run(v, [c]);
  }

  lemma RoundWrites(w: World, key: Key)
    requires Valid(w) && w.ctl == Idle && key in w.cur && Passes(Now(w, key))
    requires Clear(w, key, Now(w, key).origin) && Act(Now(w, key), "n").Some?
    ensures Run(w, Round(w.cur[key])) == Push(w, key, Act(Now(w, key), "n").value)
  {
    var i := w.cur[key];
    var u := Step(w, CtlRead(i));
    assert u == w.(ctl := Reading(i));
    assert Clear(u, key, Now(w, key).origin) by {
      assert forall k :: k in u.cur ==> u.log[u.cur[k]] == w.log[w.cur[k]];
    }
    var v := Step(u, CtlPass(false));
    assert v == w.(ctl := Cleared(i));
    ThreeSteps(w, CtlRead(i), CtlPass(false), CtlAct("n"));
  }

  /** Nothing but `key` changed, and it did not come in the way of itself. */
  lemma ClearAfter(w: World, key: Key, s: Snap)
    requires Valid(w) && key in w.cur && Clear(w, key, s.origin)
    ensures Clear(Push(w, key, s), key, s.origin)
  {
    var t := Push(w, key, s);
    forall k | k in t.cur ensures !InTheWay(key, s.origin, t.log[t.cur[k]]) {
      if k != key {
        assert t.log[t.cur[k]] == w.log[w.cur[k]];
      }
    }
  }

  function Begin(s: Snap): Snap {
    s.(node := Some("n"), labels := s.labels.(other := true), status := Creating)
  }

  /** Two rounds make a new snapshot active. */
  lemma TwoRounds(w: World, key: Key)
    requires Valid(w) && w.ctl == Idle && key in w.cur && Passes(Now(w, key))
    requires Now(w, key).status.Unset? && Now(w, key).node.None? && Clear(w, key, Now(w, key).origin)
    ensures var t := Run(w, Round(w.cur[key]) + Round(|w.log|));
            && t.ctl == Idle && t.cur.Keys == w.cur.Keys && Now(t, key) == Begin(Now(w, key))
            && forall k :: k in w.cur && k != key ==> Now(t, k) == Now(w, k)
  {
    hide Run, Step, Round;
    var s := Now(w, key);
    var u := Push(w, key, Act(s, "n").value);
    RoundWrites(w, key);
    ClearAfter(w, key, Act(s, "n").value);
    RoundWrites(u, key);
    RunConcat(w, Round(w.cur[key]), Round(|w.log|));
  }

  function New(origin: string, labels: Labels): Snap {
    Snap(origin, labels, FOUR_MIB, None, true, Unset, false, false)
  }

  lemma CreatedAlone(a: Key, s: Snap)
    requires s.status.Unset? && !s.finalizer && !s.deleting
    ensures var u := Run(Empty(), [UserCreate(a, s)]);
            u.ctl == Idle && u.cur.Keys == {a} && Now(u, a) == s
  {
    hide Run, CtlStep, AgentStep;
    OneStep(Empty(), UserCreate(a, s));
  }

  lemma AloneIsClear(u: World, a: Key, origin: string)
    requires Valid(u) && u.cur.Keys == {a}
    ensures Clear(u, a, origin)
  {
    assert forall k :: k in u.cur ==> k in u.cur.Keys;
  }

  /** The first snapshot is created, labelled by the controller if need be, and becomes active. */
  lemma FirstBegins(a: Key, origin: string, la: Labels) returns (ls: seq<Label>)
    ensures OnlyCreates(ls, UserCreate(a, New(origin, la)))
    ensures var t := Run(Empty(), ls);
            && t.ctl == Idle && t.cur.Keys == {a} && Active(Now(t, a)) && Now(t, a).origin == origin
            && (!NoLabels(la) ==> Now(t, a).labels.origin == la.origin)
  {
    hide Run, Step, OnlyCreates, Round, Clear;
    var c := UserCreate(a, New(origin, la));
    var u := Run(Empty(), [c]);
    CreatedAlone(a, New(origin, la));
    var before := [c];
    if NoLabels(la) {
      u, before := Relabels(Empty(), u, c, a);
    }
    AloneIsClear(u, a, origin);
    var more := Round(u.cur[a]) + Round(|u.log|);
    TwoRounds(u, a);
    RunConcat(Empty(), before, more);
    RoundsCreateNothing(c, u.cur[a], |u.log|, if NoLabels(la) then before[1..] else []);
    ls := before + more;
    assert NoLabels(la) ==> before == [c] + before[1..];
  }

  /** A second one that passes does not see the first and becomes active too. */
  lemma BesideIt(u: World, a: Key, b: Key, origin: string)
    requires Valid(u) && u.ctl == Idle && u.cur.Keys == {a, b} && a != b && a.ns == b.ns
    requires Active(Now(u, a)) && Now(u, a).origin == origin && Now(u, a).labels.origin != Some(origin)
    requires Passes(Now(u, b)) && Now(u, b).origin == origin && Now(u, b).status.Unset? && Now(u, b).node.None?
    ensures BothActive(Run(u, Round(u.cur[b]) + Round(|u.log|)), a, b)
  {
    forall k | k in u.cur ensures !InTheWay(b, origin, u.log[u.cur[k]]) {
      assert k in u.cur.Keys;
    }
    hide Run, Passes;
    assert a in u.cur.Keys && b in u.cur.Keys;
    TwoRounds(u, b);
  }

  /** The second one is created, and labelled by the controller if need be. */
  lemma SecondBegins(w: World, a: Key, b: Key, origin: string, lb: Labels) returns (ls: seq<Label>)
    requires Valid(w) && w.ctl == Idle && w.cur.Keys == {a} && a != b && a.ns == b.ns
    requires Active(Now(w, a)) && Now(w, a).origin == origin && Now(w, a).labels.origin != Some(origin)
    ensures BothActive(Run(w, ls), a, b)
    ensures OnlyCreates(ls, UserCreate(b, New(origin, lb)))
  {
    hide Run, Step, BothActive, Active, OnlyCreates, Round;
    var c := UserCreate(b, New(origin, lb));
    var u := Run(w, [c]);
    Created(w, a, b, New(origin, lb));
    var before := [c];
    if NoLabels(lb) {
      u, before := Relabels(w, u, c, b);
    }
    var more := Round(u.cur[b]) + Round(|u.log|);
    BesideIt(u, a, b, origin);
    RunConcat(w, before, more);
    RoundsCreateNothing(c, u.cur[b], |u.log|, if NoLabels(lb) then before[1..] else []);
    ls := before + more;
    assert NoLabels(lb) ==> before == [c] + before[1..];
  }

  predicate OnlyCreates(ls: seq<Label>, c: Label) {
    forall l :: l in ls ==> !l.UserEdit? && (l.UserCreate? ==> l == c)
  }

  lemma RoundsCreateNothing(c: Label, i: nat, j: nat, relabel: seq<Label>)
    requires c.UserCreate? && forall l :: l in relabel ==> l.CtlRead? || l.CtlPass?
    ensures OnlyCreates([c] + (Round(i) + Round(j)), c)
    ensures OnlyCreates([c] + relabel + (Round(i) + Round(j)), c)
  {
  }

  lemma Created(w: World, a: Key, b: Key, s: Snap)
    requires Valid(w) && w.ctl == Idle && w.cur.Keys == {a} && a != b
    requires s.status.Unset? && !s.finalizer && !s.deleting
    ensures var u := Run(w, [UserCreate(b, s)]);
            u.ctl == Idle && u.cur.Keys == {a, b} && Now(u, b) == s && Now(u, a) == Now(w, a)
  {
    hide Run, CtlStep, AgentStep;
    OneStep(w, UserCreate(b, s));
    assert a in w.cur.Keys && b !in w.cur.Keys;
    var u := Push(w, b, s);
    assert Step(w, UserCreate(b, s)) == u;
    hide Step;
    assert u.cur.Keys == w.cur.Keys + {b};
  }

  lemma Relabels(w: World, u: World, c: Label, b: Key) returns (t: World, ls: seq<Label>)
    requires Valid(w) && Valid(u) && u == Run(w, [c]) && u.ctl == Idle && b in u.cur
    requires NoLabels(Now(u, b).labels) && !Now(u, b).deleting && !Now(u, b).status.Merged?
    ensures Valid(t) && t == Run(w, ls) && t.ctl == Idle && t.cur.Keys == u.cur.Keys
    ensures forall k :: k in u.cur && k != b ==> Now(t, k) == Now(u, k)
    ensures var s := Now(u, b);
            Now(t, b) == s.(labels := s.labels.(origin := Some(s.origin), other := true))
    ensures ls == [c] + [CtlRead(u.cur[b]), CtlPass(false)]
  {
    ls := [c] + [CtlRead(u.cur[b]), CtlPass(false)];
    RunConcat(w, [c], [CtlRead(u.cur[b]), CtlPass(false)]);
    ThreeSteps(u, CtlRead(u.cur[b]), CtlPass(false), CtlStop);
    t := Run(w, ls);
    assert Step(u, CtlRead(u.cur[b])) == u.(ctl := Reading(u.cur[b]));
  }

  /** A first snapshot whose labels lack the origin lets a second one in. */
  lemma BadLabelsSuffice(a: Key, b: Key, origin: string, la: Labels, lb: Labels, edits: set<Labels>)
    returns (ls: seq<Label>)
    requires a != b && a.ns == b.ns && !LabelsOk(la, origin)
    ensures Uses(ls, a, b, origin, la, lb, edits) && BothActive(Run(Empty(), ls), a, b)
  {
    hide Run, BothActive, Active;
    var first := FirstBegins(a, origin, la);
    var second := SecondBegins(Run(Empty(), first), a, b, origin, lb);
    RunConcat(Empty(), first, second);
    ls := first + second;
  }

  lemma Edited(w: World, a: Key, e: Labels)
    requires Valid(w) && w.ctl == Idle && w.cur.Keys == {a}
    ensures var t := Run(w, [UserEdit(a, e, FOUR_MIB)]);
            t.ctl == Idle && t.cur.Keys == {a} && Now(t, a) == Now(w, a).(labels := e, size := FOUR_MIB)
  {
    hide Run;
    ThreeSteps(w, UserEdit(a, e, FOUR_MIB), CtlStop, CtlStop);
    assert a in w.cur.Keys;
    assert Step(w, UserEdit(a, e, FOUR_MIB)) == Push(w, a, Now(w, a).(labels := e, size := FOUR_MIB));
    hide Step;
  }

  /** So does an edit that takes the origin label of an active snapshot away. */
  lemma BadEditSuffices(a: Key, b: Key, origin: string, la: Labels, lb: Labels, edits: set<Labels>, e: Labels)
    returns (ls: seq<Label>)
    requires a != b && a.ns == b.ns && e in edits && e.origin != Some(origin)
    ensures Uses(ls, a, b, origin, la, lb, edits) && BothActive(Run(Empty(), ls), a, b)
  {
    hide Run, BothActive;
    var first := FirstBegins(a, origin, la);
    var edit := [UserEdit(a, e, FOUR_MIB)];
    var w := Run(Empty(), first);
    Edited(w, a, e);
    var second := SecondBegins(Run(w, edit), a, b, origin, lb);
    RunConcat(Empty(), first, edit);
    RunConcat(Empty(), first + edit, second);
    ls := first + edit + second;
  }

  /**
   Two snapshots of one origin can both become active if and only if one of them is created with labels that
   are not empty and yet lack the right origin, or the user edits labels to some that lack it.
   */
  lemma TwoActiveExactlyWhen(a: Key, b: Key, origin: string, la: Labels, lb: Labels, edits: set<Labels>)
    requires a != b && a.ns == b.ns
    ensures (exists ls :: Uses(ls, a, b, origin, la, lb, edits) && BothActive(Run(Empty(), ls), a, b))
       <==> !Harmless(origin, la, lb, edits)
  {
    if !LabelsOk(la, origin) {
      var ls := BadLabelsSuffice(a, b, origin, la, lb, edits);
    } else if !LabelsOk(lb, origin) {
      var ls := BadLabelsSuffice(b, a, origin, lb, la, edits);
      assert Uses(ls, a, b, origin, la, lb, edits) && BothActive(Run(Empty(), ls), a, b);
    } else if e :| e in edits && e.origin != Some(origin) {
      var ls := BadEditSuffices(a, b, origin, la, lb, edits, e);
    } else {
      forall ls | Uses(ls, a, b, origin, la, lb, edits) ensures !BothActive(Run(Empty(), ls), a, b) {
        HarmlessIsProper(Empty(), ls, a, b, origin, la, lb, edits);
        OneActive(ls, a, b);
      }
    }
  }

  // ---------------------------------------------------------------------------
  // The pass as code

  class AntstorSnapshot {
    const key: Key
    var snap: Snap

    constructor (k: Key, s: Snap)
      ensures key == k && snap == s
    {
      key, snap := k, s;
    }

    /** The loop over the listed siblings: stops at the first one in the way. */
    method NoneInTheWay(items: seq<Entry>) returns (clear: bool)
      ensures clear <==> forall j :: 0 <= j < |items| ==> !InTheWay(key, snap.origin, items[j])
    {
      for j := 0 to |items|
        invariant forall i :: 0 <= i < j ==> !InTheWay(key, snap.origin, items[i])
      {
        // the list call returns only the labelled ones of this namespace
        if items[j].snap.labels.origin == Some(snap.origin) && items[j].key.ns == key.ns {
          if items[j].key != key {
            if !items[j].snap.status.Merged? {
              assert InTheWay(key, snap.origin, items[j]);
              return false;
            }
          }
        }
      }
      clear := true;
    }

    /** The pass up to the search: changes the snapshot as it will be written, and says what to do with it. */
    method Check(items: seq<Entry>, poolMissing: bool) returns (d: Decision)
      modifies this`snap
      ensures var clear := forall j :: 0 <= j < |items| ==> !InTheWay(key, old(snap.origin), items[j]);
              d == Decide(old(snap), poolMissing, clear)
      ensures snap == match d
                      case Relabel =>
                        old(snap).(labels := old(snap.labels).(origin := Some(old(snap.origin)), other := true))
                      case Resize => old(snap).(size := old(snap.size) / FOUR_MIB * FOUR_MIB)
                      case _ => old(snap)
    {
      if snap.deleting && (snap.status.Merged? || poolMissing) { return Release; }
      if snap.status.Merged? { return Nothing; }
      if NoLabels(snap.labels) {
        snap := snap.(labels := snap.labels.(origin := Some(snap.origin), other := true));
        return Relabel;
      }
      if snap.size < FOUR_MIB { return Nothing; }
      if snap.size % FOUR_MIB > 0 {
        snap := snap.(size := snap.size / FOUR_MIB * FOUR_MIB);
        return Resize;
      }
      var clear := NoneInTheWay(items);
      return if clear then Proceed else Nothing;
    }

    /** The rest of the pass. */
    method Advance(node: string) returns (write: bool)
      modifies this`snap
      ensures write == Act(old(snap), node).Some?
      ensures snap == if write then Act(old(snap), node).value else old(snap)
    {
      if snap.node.None? {
        snap := snap.(node := Some(node), labels := snap.labels.(other := true));
        return true;
      }
      if snap.status.Unset? {
        snap := snap.(status := Creating);
        return true;
      }
      if snap.labels.mergeStart && !snap.status.Merging? {
        snap := snap.(status := Merging);
        return true;
      }
      return false;
    }
  }
}
