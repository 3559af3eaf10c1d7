/**
 The service-id allocator: next-fit over a cyclic range of TCP ports, with a set of ids in use
 that is resynchronised from the listeners of the target.
 */
module SvcId {
  import opened Prelude

  /** A service id is a string; those that spell a number are written as that number. */
  datatype Id = Port(n: int) | Text(s: string)

  datatype Alloc = Alloc(min: int, max: int, cursor: int, inUse: set<Id>)

  predicate Valid(a: Alloc) { a.min <= a.cursor <= a.max }

  function Span(a: Alloc): int { a.max - a.min + 1 }

  /** The id `k` places after the cursor, going round. */
  function At(a: Alloc, k: nat): (r: int)
    requires Valid(a) && k <= Span(a)
    ensures a.min <= r <= a.max
  {
    if a.cursor + k <= a.max then a.cursor + k else a.cursor + k - Span(a)
  }

  /** How far an id lies after the cursor, going round; the cursor itself is a full round away. */
  function Distance(a: Alloc, id: int): (k: nat)
    requires Valid(a) && a.min <= id <= a.max
    ensures 1 <= k <= Span(a) && At(a, k) == id
  {
    if id > a.cursor then id - a.cursor else id - a.cursor + Span(a)
  }

  /** The first free place from `k` on, or the full round. */
  function FirstFree(a: Alloc, k: nat): (r: nat)
    requires Valid(a) && 1 <= k <= Span(a)
    ensures k <= r <= Span(a)
    ensures forall j :: k <= j < r ==> Port(At(a, j)) in a.inUse
    ensures r < Span(a) ==> Port(At(a, r)) !in a.inUse
    decreases Span(a) - k
  {
    if k == Span(a) || Port(At(a, k)) !in a.inUse then k else FirstFree(a, k + 1)
  }

  /** NextID: an empty set restarts at the minimum; otherwise probe, but the last probe always fails. */
  function Next(a: Alloc): (Alloc, Option<int>)
    requires Valid(a)
  {
    if a.inUse == {} then (a.(cursor := a.min, inUse := {Port(a.min)}), Some(a.min))
    else
      var k := FirstFree(a, 1);
      if k == Span(a) then (a, None)
      else (a.(cursor := At(a, k), inUse := a.inUse + {Port(At(a, k))}), Some(At(a, k)))
  }

  function Free(a: Alloc, id: int): Alloc { a.(inUse := a.inUse - {Port(id)}) }

  /** What asking the target for its subsystems comes to. */
  datatype Truth<T> = NoReader | ReadFailed | Listed(value: T)

  /** SyncFromTruth: the set is kept without a reader, and otherwise emptied first, so a failed read leaves it empty. */
  function Sync(a: Alloc, truth: Truth<set<Id>>): Alloc {
    match truth
    case NoReader => a
    case ReadFailed => a.(inUse := {})
    case Listed(ids) => a.(inUse := ids)
  }

  /** The ids of a listing of listeners, subsystem by subsystem. */
  function TruthIds(truth: Truth<seq<seq<Id>>>): Truth<set<Id>> {
    match truth
    case NoReader => NoReader
    case ReadFailed => ReadFailed
    case Listed(list) => Listed(AllIds(list))
  }

  class SvcIdAllocator {
    const minId: int
    const maxId: int
    var cursor: int
    var inUse: set<Id>

    ghost function Value(): Alloc
      reads this
    {
      Alloc(minId, maxId, cursor, inUse)
    }

    constructor (min: int, max: int)
      ensures Value() == Alloc(min, max, min, {})
    {
      minId, maxId, cursor, inUse := min, max, min, {};
    }

    method NextID() returns (r: Option<int>)
      requires Valid(Value())
      modifies this
      ensures Value() == Next(old(Value())).0 && r == Next(old(Value())).1
    {
      if inUse == {} {
        cursor := minId;
        inUse := inUse + {Port(cursor)};
        return Some(cursor);
      }
      ghost var a := Value();
      var count, found := 0, false;
      while !found
        invariant 0 <= count < Span(a) && cursor == At(a, count) && inUse == a.inUse
        invariant found ==> count >= 1 && FirstFree(a, 1) == count
        invariant !found ==> FirstFree(a, 1) == FirstFree(a, count + 1)
        decreases Span(a) - count, !found
      {
        cursor := cursor + 1;
        if cursor > maxId { cursor := minId; }
        if Port(cursor) !in inUse { found := true; }
        count := count + 1;
        if count >= maxId - minId + 1 {
          return None;
        }
      }
      inUse := inUse + {Port(cursor)};
      return Some(cursor);
    }

    method FreeID(id: int)
      modifies this
      ensures Value() == Free(old(Value()), id)
    {
      inUse := inUse - {Port(id)};
    }

    method SyncFromTruth(truth: Truth<seq<seq<Id>>>) returns (ok: bool)
      modifies this
      ensures Value() == Sync(old(Value()), TruthIds(truth)) && ok == truth.Listed?
    {
      if truth.NoReader? { return false; }
      inUse := {};
      if truth.ReadFailed? { return false; }
      var list := truth.value;
      for i := 0 to |list|
        invariant cursor == old(cursor) && inUse == AllIds(list[..i])
      {
        assert list[..i + 1][..i] == list[..i];
        for j := 0 to |list[i]|
          invariant cursor == old(cursor)
          invariant inUse == AllIds(list[..i]) + Elements(list[i][..j])
        {
          assert list[i][..j + 1] == list[i][..j] + [list[i][j]];
          inUse := inUse + {list[i][j]};
        }
        assert list[i][..|list[i]|] == list[i];
      }
      assert list[..|list|] == list;
      ok := true;
    }
  }

  function Elements(ids: seq<Id>): set<Id> { set x | x in ids }

  /** The ids of all listeners of all subsystems. */
  function AllIds(list: seq<seq<Id>>): set<Id> {
    if list == [] then {} else AllIds(list[..|list| - 1]) + Elements(list[|list| - 1])
  }

  // ---------------------------------------------------------------------------
  // What NextID guarantees

  /** `id` is free, and every id met before it on the way round from the cursor is in use. */
  ghost predicate NextFit(a: Alloc, id: int)
    requires Valid(a)
  {
    && a.min <= id <= a.max && id != a.cursor && Port(id) !in a.inUse
    && forall x :: a.min <= x <= a.max && Distance(a, x) < Distance(a, id) ==> Port(x) in a.inUse
  }

  /** With ids in use, the answer is the one next-fit id; there is none exactly when all but the cursor's are taken. */
  lemma NextIsExact(a: Alloc)
    requires Valid(a) && a.inUse != {}
    ensures var (b, r) := Next(a);
            && (forall id :: r == Some(id) <==> NextFit(a, id))
            && (r.None? <==> forall x :: a.min <= x <= a.max && x != a.cursor ==> Port(x) in a.inUse)
            && (r.None? ==> b == a)
            && (r.Some? ==> b == Alloc(a.min, a.max, r.value, a.inUse + {Port(r.value)}))
  {
    var k := FirstFree(a, 1);
    forall id | NextFit(a, id) ensures k < Span(a) && id == At(a, k) {
      var d := Distance(a, id);
      assert Port(At(a, d)) !in a.inUse && k <= d < Span(a);
      assert Distance(a, At(a, k)) == k;
    }
    if k < Span(a) {
      var id := At(a, k);
      assert Distance(a, id) == k;
      forall x | a.min <= x <= a.max && Distance(a, x) < k ensures Port(x) in a.inUse {
        assert x == At(a, Distance(a, x));
      }
      assert NextFit(a, id);
    } else {
      forall x | a.min <= x <= a.max && x != a.cursor ensures Port(x) in a.inUse {
        assert x == At(a, Distance(a, x));
      }
    }
  }

  lemma NextValid(a: Alloc)
    requires Valid(a)
    ensures Valid(Next(a).0)
    ensures Next(a).1.Some? ==>
              Port(Next(a).1.value) !in a.inUse && a.inUse < Next(a).0.inUse && Port(Next(a).1.value) in Next(a).0.inUse
  {
  }

  /** The last probe is wasted: with only the cursor's own id free, the allocator fails. */
  lemma FreeIdRefused(a: Alloc)
    requires Valid(a) && a.inUse == set x | a.min <= x <= a.max && x != a.cursor :: Port(x)
    requires a.min < a.max
    ensures Port(a.cursor) !in a.inUse && Next(a).1.None?
  {
    assert Port(if a.cursor == a.min then a.max else a.min) in a.inUse;
    NextIsExact(a);
  }

  /** A freed id is handed out again: with all others in use it is the next one, unless the cursor stands on it. */
  lemma FreedIsNext(a: Alloc, id: int)
    requires Valid(a) && a.min <= id <= a.max
    requires forall x :: a.min <= x <= a.max && x != id ==> Port(x) in a.inUse
    ensures Port(id) !in Free(a, id).inUse
    ensures id != a.cursor ==> Next(Free(a, id)).1 == Some(id)
    ensures id == a.cursor && a.min < a.max ==> Next(Free(a, id)).1 == None
  {
    var b := Free(a, id);
    if id != a.cursor {
      assert Port(a.cursor) in b.inUse;
      NextIsExact(b);
      assert NextFit(b, id);
    } else if a.min < a.max {
      assert Port(if id == a.min then a.max else a.min) in b.inUse;
      NextIsExact(b);
    }
  }

  // ---------------------------------------------------------------------------
  // Histories

  datatype Op = OpNext | OpFree(id: int) | OpSync(truth: Truth<set<Id>>)

  function Apply(a: Alloc, op: Op): (b: Alloc)
    requires Valid(a)
    ensures Valid(b)
  {
    match op
    case OpNext => Next(a).0
    case OpFree(id) => Free(a, id)
    case OpSync(truth) => Sync(a, truth)
  }

  function Exec(a: Alloc, ops: seq<Op>): (b: Alloc)
    requires Valid(a)
    ensures Valid(b)
    decreases |ops|
  {
    if ops == [] then a else Exec(Apply(a, ops[0]), ops[1..])
  }

  /** No resynchronisation among the operations has a reader to ask. */
  predicate Undisturbed(ops: seq<Op>) { forall op :: op in ops && op.OpSync? ==> op.truth.NoReader? }

  lemma {:induction false} HeldUntilFreed(a: Alloc, ops: seq<Op>, id: int)
    requires Valid(a) && Port(id) in a.inUse && OpFree(id) !in ops && Undisturbed(ops)
    ensures Port(id) in Exec(a, ops).inUse
    decreases |ops|
  {
    if ops != [] {
      NextValid(a);
      assert ops[0] in ops && Undisturbed(ops[1..]);
      HeldUntilFreed(Apply(a, ops[0]), ops[1..], id);
    }
  }

  /** An id handed out is not handed out again before it is freed or the set is resynchronised. */
  lemma NoIdTwice(a: Alloc, ops: seq<Op>)
    requires Valid(a) && Next(a).1.Some? && Undisturbed(ops)
    requires OpFree(Next(a).1.value) !in ops
    ensures Valid(Next(a).0) && Next(Exec(Next(a).0, ops)).1 != Next(a).1
  {
    NextValid(a);
    HeldUntilFreed(Next(a).0, ops, Next(a).1.value);
    NextValid(Exec(Next(a).0, ops));
  }
}
