/**
 The host manager's reading of `nvme list-subsys`: the nested loops that look for
 the destination path, for a destination path that is "working", and for the
 source path beside another one.
 */
module HostScan {
  import opened Prelude

  /** Transport address of a target: IP address and service id (TCP port). */
  datatype Addr = Addr(ip: string, svcId: string)

  /** `path_state` of an NVMe path; only two of its values matter here. */
  datatype PathState = Working | Degraded | OtherState(name: string)

  datatype Path = Path(addr: Addr, state: PathState)

  datatype Subsystem = Subsystem(nqn: string, paths: seq<Path>)

  /** What the two flag loops look for: the address, and optionally the "working" state. */
  predicate Matches(p: Path, addr: Addr, needWorking: bool) {
    p.addr == addr && (needWorking ==> p.state == Working)
  }

  predicate AnyMatch(paths: seq<Path>, addr: Addr, needWorking: bool) {
    exists i :: 0 <= i < |paths| && Matches(paths[i], addr, needWorking)
  }

  /** The flag after the loops: a later subsystem with the same NQN overwrites it. */
  function Flag(list: seq<Subsystem>, nqn: string, addr: Addr, needWorking: bool): bool {
    if list == [] then false
    else
      var last := list[|list| - 1];
      if last.nqn == nqn && last.paths != [] then AnyMatch(last.paths, addr, needWorking)
      else Flag(list[..|list| - 1], nqn, addr, needWorking)
  }

  /** The search the loops stand for: some path of some subsystem with that NQN matches. */
  predicate Reported(list: seq<Subsystem>, nqn: string, addr: Addr, needWorking: bool) {
    exists i :: 0 <= i < |list| && list[i].nqn == nqn && AnyMatch(list[i].paths, addr, needWorking)
  }

  method ScanFlag(list: seq<Subsystem>, nqn: string, addr: Addr, needWorking: bool) returns (found: bool)
    ensures found == Flag(list, nqn, addr, needWorking)
  {
    found := false;
    for i := 0 to |list|
      invariant found == Flag(list[..i], nqn, addr, needWorking)
    {
      assert list[..i + 1][..i] == list[..i];
      if list[i].nqn == nqn {
        var paths := list[i].paths;
        var before := found;
        var j := 0;
        while j < |paths|
          invariant 0 <= j <= |paths|
          invariant j == 0 ==> found == before
          invariant j > 0 ==> !found
          invariant forall k :: 0 <= k < j ==> !Matches(paths[k], addr, needWorking)
        {
          found := Matches(paths[j], addr, needWorking);
          if found { break; }
          j := j + 1;
        }
      }
    }
    assert list[..|list|] == list;
  }

  /** The flag never invents a path, and it is exact when the list names each NQN once. */
  lemma {:induction false} FlagMeaning(list: seq<Subsystem>, nqn: string, addr: Addr, needWorking: bool)
    ensures Flag(list, nqn, addr, needWorking) ==> Reported(list, nqn, addr, needWorking)
    ensures UniqueNqns(list) ==> (Flag(list, nqn, addr, needWorking) <==> Reported(list, nqn, addr, needWorking))
  {
    if list != [] {
      var rest := list[..|list| - 1];
      FlagMeaning(rest, nqn, addr, needWorking);
      assert forall i :: 0 <= i < |rest| ==> rest[i] == list[i];
      assert Reported(rest, nqn, addr, needWorking) ==> Reported(list, nqn, addr, needWorking);
    }
  }

  /** The last subsystem of that NQN that has any path, if there is one, has a match: it decides the flag. */
  ghost predicate LastOneMatches(list: seq<Subsystem>, nqn: string, addr: Addr, needWorking: bool) {
    exists i :: 0 <= i < |list| && list[i].nqn == nqn && AnyMatch(list[i].paths, addr, needWorking)
                && EmptyAfter(list, nqn, i)
  }

  predicate EmptyAfter(list: seq<Subsystem>, nqn: string, i: nat) {
    forall j :: i < j < |list| && list[j].nqn == nqn ==> list[j].paths == []
  }

  /** What the flag loops compute, for every list: the later entries have the last word. */
  lemma {:induction false} FlagExactly(list: seq<Subsystem>, nqn: string, addr: Addr, needWorking: bool)
    ensures Flag(list, nqn, addr, needWorking) <==> LastOneMatches(list, nqn, addr, needWorking)
  {
    if list != [] {
      var n := |list| - 1;
      var rest := list[..n];
      FlagExactly(rest, nqn, addr, needWorking);
      assert forall i :: 0 <= i < n ==> rest[i] == list[i];
      if list[n].nqn == nqn && list[n].paths != [] {
        assert EmptyAfter(list, nqn, n);
      } else {
        assert forall i :: 0 <= i < n ==> (EmptyAfter(list, nqn, i) <==> EmptyAfter(rest, nqn, i));
      }
    }
  }

  /** A match is followed by a last entry of the NQN that has paths but no match. */
  ghost predicate Overwritten(list: seq<Subsystem>, nqn: string, addr: Addr, needWorking: bool) {
    exists i, k :: 0 <= i < k < |list| && list[i].nqn == nqn && list[k].nqn == nqn && EmptyAfter(list, nqn, k)
                   && AnyMatch(list[i].paths, addr, needWorking)
                   && list[k].paths != [] && !AnyMatch(list[k].paths, addr, needWorking)
  }

  /** The last entry of the NQN that has paths. */
  lemma {:induction false} LastWithPaths(list: seq<Subsystem>, nqn: string, i: nat) returns (k: nat)
    requires i < |list| && list[i].nqn == nqn && list[i].paths != []
    ensures i <= k < |list| && list[k].nqn == nqn && list[k].paths != [] && EmptyAfter(list, nqn, k)
  {
    var n := |list| - 1;
    if list[n].nqn == nqn && list[n].paths != [] {
      k := n;
    } else {
      k := LastWithPaths(list[..n], nqn, i);
      assert forall j :: 0 <= j < n ==> list[..n][j] == list[j];
    }
  }

  /** The flag differs from the search exactly when a match is overwritten. */
  lemma FlagIsSearchExactlyWhen(list: seq<Subsystem>, nqn: string, addr: Addr, needWorking: bool)
    ensures (Flag(list, nqn, addr, needWorking) <==> Reported(list, nqn, addr, needWorking))
       <==> !Overwritten(list, nqn, addr, needWorking)
  {
    FlagExactly(list, nqn, addr, needWorking);
    if i :| 0 <= i < |list| && list[i].nqn == nqn && AnyMatch(list[i].paths, addr, needWorking) {
      var k := LastWithPaths(list, nqn, i);
    }
  }

  /** A second entry with the same NQN can hide the path: the flag then differs from the search. */
  lemma FlagCanMiss(nqn: string, addr: Addr, other: Addr)
    requires addr != other
    ensures var list := [Subsystem(nqn, [Path(addr, Working)]), Subsystem(nqn, [Path(other, Working)])];
            Reported(list, nqn, addr, true) && !Flag(list, nqn, addr, true)
  {
    var list := [Subsystem(nqn, [Path(addr, Working)]), Subsystem(nqn, [Path(other, Working)])];
    assert Matches(list[0].paths[0], addr, true);
    assert AnyMatch(list[0].paths, addr, true);
  }

  /** The last path with the source address, in a subsystem of that NQN that has more than one path. */
  function SourcePath(list: seq<Subsystem>, nqn: string, addr: Addr): Option<Path> {
    if list == [] then None
    else
      var last := list[|list| - 1];
      if last.nqn == nqn && |last.paths| > 1 && LastAt(last.paths, addr).Some? then LastAt(last.paths, addr)
      else SourcePath(list[..|list| - 1], nqn, addr)
  }

  function LastAt(paths: seq<Path>, addr: Addr): (r: Option<Path>)
    ensures r.Some? ==> r.value in paths && r.value.addr == addr
    ensures r.None? ==> forall p :: p in paths ==> p.addr != addr
  {
    if paths == [] then None
    else if paths[|paths| - 1].addr == addr then Some(paths[|paths| - 1])
    else LastAt(paths[..|paths| - 1], addr)
  }

  method ScanSource(list: seq<Subsystem>, nqn: string, addr: Addr) returns (r: Option<Path>)
    ensures r == SourcePath(list, nqn, addr)
  {
    r := None;
    for i := 0 to |list|
      invariant r == SourcePath(list[..i], nqn, addr)
    {
      assert list[..i + 1][..i] == list[..i];
      if list[i].nqn == nqn {
        if |list[i].paths| > 1 {
          var paths := list[i].paths;
          var before := r;
          for j := 0 to |paths|
            invariant r == if LastAt(paths[..j], addr).Some? then LastAt(paths[..j], addr) else before
          {
            assert paths[..j + 1][..j] == paths[..j];
            if paths[j].addr == addr {
              r := Some(paths[j]);
            }
          }
          assert paths[..|paths|] == paths;
        }
      }
    }
    assert list[..|list|] == list;
  }

  predicate UniqueNqns(list: seq<Subsystem>) {
    forall i, j :: 0 <= i < |list| && 0 <= j < |list| && list[i].nqn == list[j].nqn ==> i == j
  }

  /** `paths` enumerates the address-to-state map `m` without repetition. */
  ghost predicate Enumerates(paths: seq<Path>, m: map<Addr, PathState>) {
    && |paths| == |m|
    && (forall i :: 0 <= i < |paths| ==> paths[i].addr in m && m[paths[i].addr] == paths[i].state)
    && (forall a :: a in m ==> exists i :: 0 <= i < |paths| && paths[i].addr == a)
  }

  /** `list` is a faithful listing of a host whose paths to `nqn` are `m`. */
  ghost predicate Lists(list: seq<Subsystem>, nqn: string, m: map<Addr, PathState>) {
    && UniqueNqns(list)
    && (forall i :: 0 <= i < |list| && list[i].nqn == nqn ==> Enumerates(list[i].paths, m))
    && (m != map[] ==> exists i :: 0 <= i < |list| && list[i].nqn == nqn)
  }

  /** On a faithful listing the flag says exactly whether the host has such a path. */
  lemma FlagOfListing(list: seq<Subsystem>, nqn: string, m: map<Addr, PathState>, addr: Addr, needWorking: bool)
    requires Lists(list, nqn, m)
    ensures Flag(list, nqn, addr, needWorking)
       <==> addr in m && (needWorking ==> m[addr] == Working)
  {
    FlagMeaning(list, nqn, addr, needWorking);
    if addr in m && (needWorking ==> m[addr] == Working) {
      var i :| 0 <= i < |list| && list[i].nqn == nqn;
      var k :| 0 <= k < |list[i].paths| && list[i].paths[k].addr == addr;
      assert Matches(list[i].paths[k], addr, needWorking);
      assert AnyMatch(list[i].paths, addr, needWorking);
    }
  }

  /** On a faithful listing the source path is reported exactly when it is there beside another path. */
  lemma SourceOfListing(list: seq<Subsystem>, nqn: string, m: map<Addr, PathState>, addr: Addr)
    requires Lists(list, nqn, m)
    ensures SourcePath(list, nqn, addr) == if addr in m && |m| > 1 then Some(Path(addr, m[addr])) else None
    ensures SourcePath(list, nqn, addr).Some? ==> m.Keys - {addr} != {}
  {
    SourceOfPrefix(list, nqn, m, addr);
    if addr in m && |m| > 1 {
      var i :| 0 <= i < |list| && list[i].nqn == nqn;
      var k :| 0 <= k < |list[i].paths| && list[i].paths[k].addr == addr;
      assert list[i].paths[k] in list[i].paths;
      assert |m.Keys - {addr}| == |m| - 1;
    }
  }

  lemma {:induction false} SourceOfPrefix(list: seq<Subsystem>, nqn: string, m: map<Addr, PathState>, addr: Addr)
    requires forall i :: 0 <= i < |list| && list[i].nqn == nqn ==> Enumerates(list[i].paths, m)
    ensures SourcePath(list, nqn, addr).Some? ==>
              addr in m && |m| > 1 && SourcePath(list, nqn, addr).value == Path(addr, m[addr])
    ensures SourcePath(list, nqn, addr).None? && |m| > 1 ==>
              forall i :: 0 <= i < |list| && list[i].nqn == nqn ==> forall p :: p in list[i].paths ==> p.addr != addr
  {
    if list != [] {
      var rest := list[..|list| - 1];
      SourceOfPrefix(rest, nqn, m, addr);
      assert forall i :: 0 <= i < |rest| ==> rest[i] == list[i];
    }
  }
}
