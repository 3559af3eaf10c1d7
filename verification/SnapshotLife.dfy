/**
 The life of one snapshot: what each pass of the controller makes of it, and that a snapshot with nothing in
 its way can be created, made ready, merged into its origin and let go.
 */
module SnapshotLife {
  import opened Prelude
  import opened Snapshot
  import opened SnapshotRuns

  // ---------------------------------------------------------------------------
  // One pass

  /** The controller has read the newest version of `key`. */
  predicate HasRead(w: World, key: Key) { Valid(w) && key in w.cur && w.ctl == Reading(w.cur[key]) }

  /**
   What a pass makes of the newest version: a deleted one that is merged, or whose pool is missing, is released; one
   without labels is labelled with its origin; an unaligned size is cut to the 4 MiB below; and the pass goes on
   exactly with an unmerged, labelled one of proper size that has no unmerged sibling.
   */
  lemma PassOutcome(w: World, key: Key, missing: bool)
    requires HasRead(w, key)
    ensures var t, s := Step(w, CtlPass(missing)), Now(w, key);
            && (t.ctl == Cleared(w.cur[key]) <==>
                  && !s.status.Merged? && !(s.deleting && missing) && !NoLabels(s.labels)
                  && s.size >= FOUR_MIB && s.size % FOUR_MIB == 0 && Clear(w, key, s.origin))
            && (key !in t.cur <==> s.deleting && (s.status.Merged? || missing))
            && (key in t.cur ==>
                  && t.cur.Keys == w.cur.Keys
                  && Now(t, key) == s.(labels := Now(t, key).labels, size := Now(t, key).size)
                  && (Now(t, key).labels != s.labels <==> !s.status.Merged? && NoLabels(s.labels))
                  && (Now(t, key).labels != s.labels ==> Now(t, key).labels.origin == Some(s.origin))
                  && (s.size >= 0 && Now(t, key).size != s.size ==>
                        && Now(t, key).size % FOUR_MIB == 0 && Now(t, key).size <= s.size < Now(t, key).size + FOUR_MIB
                        && Now(t, key).size >= FOUR_MIB))
  {
    hide Clear;
    Sizes(Now(w, key).size);
  }

  lemma Sizes(size: int)
    ensures size >= FOUR_MIB && size % FOUR_MIB > 0 ==>
              var r := size / FOUR_MIB * FOUR_MIB; r % FOUR_MIB == 0 && FOUR_MIB <= r < size < r + FOUR_MIB
  {
  }

  /**
   When the agent acts: on a version that is not being deleted, it takes a snapshot that is to be created, then
   reports it, restores one that is to be merged, then reports that.
   */
  lemma AgentActsExactlyWhen(w: World, key: Key)
    requires Valid(w) && key in w.cur
    ensures var s := Now(w, key);
            && (Step(w, AgentCreate(key)) == w || Step(w, AgentCreate(key)) == Push(w, key, s.(finalizer := true)))
            && (Step(w, AgentCreate(key)) != w <==> !s.deleting && s.status.Creating? && !s.finalizer)
            && (Step(w, AgentReady(key)) == w || Step(w, AgentReady(key)) == Push(w, key, s.(status := Ready)))
            && (Step(w, AgentReady(key)) != w <==> !s.deleting && s.status.Creating? && s.finalizer)
            && (Step(w, AgentRestore(key)) != w <==>
                  !s.deleting && s.kernelLvol && s.status.Merging? && !s.labels.mergeFinish)
            && (Step(w, AgentMerged(key)) == w || Step(w, AgentMerged(key)) == Push(w, key, s.(status := Merged)))
            && (Step(w, AgentMerged(key)) != w <==>
                  !s.deleting && s.kernelLvol && s.status.Merging? && s.labels.mergeFinish)
  {
    assert forall s :: |Push(w, key, s).log| == |w.log| + 1;
  }

  // ---------------------------------------------------------------------------
  // One round

  /** One round of the controller over the newest version: read, find nothing in the way, act. */
  function Round(i: nat, node: string): seq<Label> { [CtlRead(i), CtlPass(false), CtlAct(node)] }

  /** Between passes, nothing in the way, and a version the controller lets through. */
  predicate MayGoOn(w: World, key: Key) {
    && Valid(w) && w.ctl == Idle && key in w.cur && Passes(Now(w, key)) && Clear(w, key, Now(w, key).origin)
  }

  lemma RoundActs(w: World, key: Key, node: string)
    requires MayGoOn(w, key)
    ensures var s := Now(w, key);
            Run(w, Round(w.cur[key], node)) ==
              if s.node.None? then Push(w, key, s.(node := Some(node), labels := s.labels.(other := true)))
              else if s.status.Unset? then Push(w, key, s.(status := Creating))
              else if s.labels.mergeStart && !s.status.Merging? then Push(w, key, s.(status := Merging))
              else w
  {
    var i := w.cur[key];
    var u := Step(w, CtlRead(i));
    assert u == w.(ctl := Reading(i));
    assert Clear(u, key, Now(w, key).origin) by {
      assert forall k :: k in u.cur ==> u.log[u.cur[k]] == w.log[w.cur[k]];
    }
    var v := Step(u, CtlPass(false));
    assert v == w.(ctl := Cleared(i));
    hide Clear, Run, Passes;
    ThreeSteps(w, CtlRead(i), CtlPass(false), CtlAct(node));
  }

  lemma StillMayGoOn(w: World, key: Key, s: Snap)
    requires MayGoOn(w, key) && Passes(s) && s.origin == Now(w, key).origin
    ensures MayGoOn(Push(w, key, s), key) && Now(Push(w, key, s), key) == s
  {
    ClearAfter(w, key, s);
  }

  // ---------------------------------------------------------------------------
  // The stages

  ghost predicate Reaches(w: World, t: World)
    requires Valid(w)
  {
    exists ls :: Run(w, ls) == t
  }

  lemma ReachesBy(w: World, ls: seq<Label>, t: World)
    requires Valid(w) && Run(w, ls) == t
    ensures Reaches(w, t)
  {
  }

  lemma ReachesOn(a: World, b: World, c: World)
    requires Valid(a) && Valid(b) && Reaches(a, b) && Reaches(b, c)
    ensures Reaches(a, c)
  {
    hide Run;
    var x :| Run(a, x) == b;
    var y :| Run(b, y) == c;
    RunConcat(a, x, y);
  }

  /** A new snapshot gets the node of its origin and the creating status. */
  lemma Begins(w: World, key: Key, node: string) returns (t: World)
    requires MayGoOn(w, key) && Now(w, key).status.Unset? && Now(w, key).node.None?
    ensures Reaches(w, t) && MayGoOn(t, key)
    ensures var s := Now(w, key);
            Now(t, key) == s.(node := Some(node), labels := s.labels.(other := true), status := Creating)
  {
    hide Run, Clear, Step;
    var s := Now(w, key);
    var a := s.(node := Some(node), labels := s.labels.(other := true));
    RoundActs(w, key, node);
    StillMayGoOn(w, key, a);
    var u := Push(w, key, a);
    ReachesBy(w, Round(w.cur[key], node), u);
    RoundActs(u, key, node);
    StillMayGoOn(u, key, a.(status := Creating));
    t := Push(u, key, a.(status := Creating));
    ReachesBy(u, Round(u.cur[key], node), t);
    ReachesOn(w, u, t);
  }

  lemma AgentPush(w: World, l: Label, key: Key, s: Snap)
    requires Valid(w) && key in w.cur
    requires l in {AgentCreate(key), AgentReady(key), AgentRestore(key), AgentMerged(key)}
    requires AgentWrite(l, Now(w, key)) == Some(s)
    ensures Run(w, [l]) == Push(w, key, s)
  {
    hide AgentWrite;
    OneStep(w, l);
  }

  /** The agent takes the snapshot and reports it ready. */
  lemma BecomesReady(w: World, key: Key) returns (t: World)
    requires MayGoOn(w, key) && Now(w, key).status.Creating? && !Now(w, key).finalizer
    ensures Reaches(w, t) && MayGoOn(t, key) && Now(t, key) == Now(w, key).(finalizer := true, status := Ready)
  {
    hide Run, Clear;
    var a := Now(w, key).(finalizer := true);
    AgentPush(w, AgentCreate(key), key, a);
    StillMayGoOn(w, key, a);
    var u := Push(w, key, a);
    ReachesBy(w, [AgentCreate(key)], u);
    AgentPush(u, AgentReady(key), key, a.(status := Ready));
    StillMayGoOn(u, key, a.(status := Ready));
    t := Push(u, key, a.(status := Ready));
    ReachesBy(u, [AgentReady(key)], t);
    ReachesOn(w, u, t);
  }

  /** A ready snapshot with the label that asks for it is merged: the controller begins it, the agent ends it. */
  lemma BecomesMerged(w: World, key: Key) returns (t: World)
    requires MayGoOn(w, key) && Now(w, key).status.Ready? && Now(w, key).node.Some? && Now(w, key).kernelLvol
    requires Now(w, key).labels.mergeStart
    ensures Reaches(w, t) && Valid(t) && t.ctl == Idle && key in t.cur
    ensures var s := Now(w, key); Now(t, key) == s.(status := Merged, labels := s.labels.(mergeFinish := true))
  {
    hide Run, Clear, Step;
    var a := Now(w, key).(status := Merging);
    RoundActs(w, key, "");
    StillMayGoOn(w, key, a);
    var u := Push(w, key, a);
    ReachesBy(w, Round(w.cur[key], ""), u);
    t := Restores(u, key);
    ReachesOn(w, u, t);
  }

  lemma Restores(w: World, key: Key) returns (t: World)
    requires MayGoOn(w, key) && Now(w, key).status.Merging? && Now(w, key).kernelLvol
    ensures Reaches(w, t) && Valid(t) && t.ctl == Idle && key in t.cur
    ensures var s := Now(w, key); Now(t, key) == s.(status := Merged, labels := s.labels.(mergeFinish := true))
  {
    hide Run, Clear;
    var s := Now(w, key);
    var a := s.(labels := s.labels.(mergeFinish := true));
    var u := w;
    if s.labels.mergeFinish {
      assert a == s;
      Nowhere(w);
      ReachesBy(w, [], w);
    } else {
      AgentPush(w, AgentRestore(key), key, a);
      StillMayGoOn(w, key, a);
      u := Push(w, key, a);
      ReachesBy(w, [AgentRestore(key)], u);
    }
    AgentPush(u, AgentMerged(key), key, a.(status := Merged));
    t := Push(u, key, a.(status := Merged));
    ReachesBy(u, [AgentMerged(key)], t);
    ReachesOn(w, u, t);
  }

  lemma Nowhere(w: World)
    requires Valid(w)
    ensures Run(w, []) == w
  {
  }

  /** A merged snapshot that is deleted is let go. */
  lemma IsReleased(w: World, key: Key) returns (t: World)
    requires Valid(w) && w.ctl == Idle && key in w.cur && Now(w, key).status.Merged?
    ensures Reaches(w, t) && Valid(t) && key !in t.cur && t.cur.Keys == w.cur.Keys - {key}
  {
    var u := Push(w, key, Now(w, key).(deleting := true));
    assert Step(w, UserDelete(key)) == u;
    OneStep(w, UserDelete(key));
    var i := u.cur[key];
    assert Step(u, CtlRead(i)) == u.(ctl := Reading(i));
    t := Step(u.(ctl := Reading(i)), CtlPass(false));
    assert t == Remove(u, key);
    hide Run, Step;
    ThreeSteps(u, CtlRead(i), CtlPass(false), CtlStop);
    ReachesBy(w, [UserDelete(key)], u);
    ReachesBy(u, [CtlRead(i), CtlPass(false)], t);
    ReachesOn(w, u, t);
  }

  /**
   The whole life: from any state in which nothing is in its way, a new snapshot with labels and a proper size can be
   made ready on the node of its origin, merged when its user asks for it, and let go.
   */
  lemma WholeLife(w: World, key: Key, node: string) returns (ready: World, merged: World, end: World)
    requires MayGoOn(w, key) && Now(w, key).status.Unset? && Now(w, key).node.None?
    requires !Now(w, key).finalizer && Now(w, key).kernelLvol
    ensures Reaches(w, ready) && Valid(ready) && key in ready.cur
    ensures Now(ready, key).status.Ready? && Now(ready, key).finalizer && Now(ready, key).node == Some(node)
    ensures Reaches(ready, merged) && Valid(merged) && key in merged.cur && Now(merged, key).status.Merged?
    ensures Reaches(merged, end) && Valid(end) && key !in end.cur
  {
    hide Run, Clear, Step, Reaches;
    var a := Begins(w, key, node);
    ready := BecomesReady(a, key);
    ReachesOn(w, a, ready);
    var b := AsksForMerge(ready, key);
    merged := BecomesMerged(b, key);
    ReachesOn(ready, b, merged);
    end := IsReleased(merged, key);
  }

  lemma AsksForMerge(w: World, key: Key) returns (t: World)
    requires MayGoOn(w, key)
    ensures Reaches(w, t) && MayGoOn(t, key)
    ensures var s := Now(w, key); Now(t, key) == s.(labels := s.labels.(mergeStart := true))
  {
    var s := Now(w, key);
    var l := UserEdit(key, s.labels.(mergeStart := true), s.size);
    t := Push(w, key, s.(labels := s.labels.(mergeStart := true)));
    assert Step(w, l) == t;
    OneStep(w, l);
    hide Run, Step;
    ReachesBy(w, [l], t);
    StillMayGoOn(w, key, s.(labels := s.labels.(mergeStart := true)));
  }
}
