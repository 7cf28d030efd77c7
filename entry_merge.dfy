/**
 * The bonded-entry reconciler of alchemicalitp/state_A_B.py: `_merge_entry`,
 * `create_dummy` and the two-cursor walk of `_merge_entries`, as a step
 * function and its run to completion. The class method
 * `StateAB.Alchemistry.MergeEntries` is the loop itself, proved to compute
 * `MergeEntriesOf`.
 */
module EntryMerge {
  import opened Results
  import opened Topologies

  /** The variables of the `_merge_entries` loop: the two cursors and the entries appended so far. */
  datatype EntryState = EntryState(aIdx: int, bIdx: int, out: seq<Entry>)

  /** The state before the first iteration. */
  const START: EntryState := EntryState(0, 0, [])

  /** Indexing a section: past the end there is no entry (None). */
  function EntryAt(entries: seq<Entry>, i: int): Option<Entry>
  {
    if 0 <= i < |entries| then Some(entries[i]) else None
  }

  /** How many entries of a list of length `n` lie at or after cursor `i`. */
  function Remaining(n: int, i: int): nat
  {
    if i < n then n - i else 0
  }

  /**
   * `_merge_entry`: with one side missing, a copy of the other marked with
   * its origin; with both present, whatever `add_stateB` yields.
   */
  function MergeEntry(ops: EntryOps, a: Option<Entry>, b: Option<Entry>): (r: Option<Entry>)
    requires a.Some? || b.Some?
    // one side missing: a copy of the other side, differing only in its origin mark
    ensures a.None? ==> r.Some? && r.value.origin == FromTopology2 && r.value.(origin := b.value.origin) == b.value
    ensures b.None? ==> r.Some? && r.value.origin == FromTopology1 && r.value.(origin := a.value.origin) == a.value
    // both present: a value exactly when `add_stateB` combines them, keeping the shared serials
    ensures a.Some? && b.Some? ==> (r.Some? <==> ops.addStateB(a.value, b.value).Some?)
    ensures a.Some? && b.Some? ==> r == ops.addStateB(a.value, b.value)
    ensures a.Some? && b.Some? && r.Some? && IndexPreserving(ops) ==> r.value.idx == a.value.idx == b.value.idx
  {
    if a.None? then Some(b.value.(origin := FromTopology2))
    else if b.None? then Some(a.value.(origin := FromTopology1))
    else ops.addStateB(a.value, b.value)
  }

  /**
   * `create_dummy`: the missing side is replaced by the entry class's dummy
   * and the two are combined; an IndexError when they cannot be.
   */
  function CreateDummy(ops: EntryOps, a: Option<Entry>, b: Option<Entry>): (r: Result<Entry, MergeError>)
    requires a.Some? || b.Some?
    // the IndexError names the real entry
    ensures r.Err? ==> r.error == DummyFailed(if a.Some? then a.value else b.value)
    // it fails exactly when `add_stateB` refuses the real entry and the dummy built from it
    ensures a.Some? && b.None? ==> (r.Ok? <==> ops.addStateB(a.value, ops.createDummy(a.value)).Some?)
    ensures a.None? ==> (r.Ok? <==> ops.addStateB(ops.createDummy(b.value), b.value).Some?)
    // and then yields the combination of the real entry with its dummy, in the source's argument order
    ensures a.Some? && b.None? && r.Ok? ==> Some(r.value) == ops.addStateB(a.value, ops.createDummy(a.value))
    ensures a.None? && r.Ok? ==> Some(r.value) == ops.addStateB(ops.createDummy(b.value), b.value)
    // with serial-preserving helpers the pairing has the real entry's serials
    ensures a.Some? && b.None? && r.Ok? && IndexPreserving(ops) ==> r.value.idx == a.value.idx
    ensures a.None? && r.Ok? && IndexPreserving(ops) ==> r.value.idx == b.value.idx
  {
    var stateA := if a.None? then ops.createDummy(b.value) else a.value;
    var stateB := if a.Some? && b.None? then ops.createDummy(a.value) else b.value;
    match ops.addStateB(stateA, stateB)
    case Some(d) => Ok(d)
    case None => Err(DummyFailed(if a.Some? then a.value else b.value))
  }

  /**
   * An entry `e` of one topology with no partner in the other: kept
   * single-state, marked with its origin, when its serials pass `idx_in` on
   * its own list and `check_other_list`; otherwise paired with a dummy.
   */
  function Unmatched(ops: EntryOps, e: Entry, own: seq<Option<int>>, other: seq<Option<int>>, fromA: bool)
    : (r: Result<Entry, MergeError>)
    // kept unchanged but for its origin mark exactly when both list tests pass
    ensures ops.idxIn(e, own) && ops.checkOtherList(e, own, other) ==>
              r == Ok(e.(origin := if fromA then FromTopology1 else FromTopology2))
    // otherwise the dummy pairing, whose only failure names the entry
    ensures !(ops.idxIn(e, own) && ops.checkOtherList(e, own, other)) ==>
              r == if fromA then CreateDummy(ops, Some(e), None) else CreateDummy(ops, None, Some(e))
    ensures r.Err? ==> r.error == DummyFailed(e) && !(ops.idxIn(e, own) && ops.checkOtherList(e, own, other))
    ensures r.Ok? && IndexPreserving(ops) ==> r.value.idx == e.idx
  {
    if ops.idxIn(e, own) && ops.checkOtherList(e, own, other) then
      Ok(e.(origin := if fromA then FromTopology1 else FromTopology2))
    else if fromA then CreateDummy(ops, Some(e), None)
    else CreateDummy(ops, None, Some(e))
  }

  /** One iteration of the `_merge_entries` loop. */
  function EntryStep(
    ops: EntryOps, entriesA: seq<Entry>, entriesB: seq<Entry>, aList: seq<Option<int>>, bList: seq<Option<int>>,
    s: EntryState): (r: Result<EntryState, MergeError>)
    requires 0 <= s.aIdx && 0 <= s.bIdx
    requires s.aIdx < |entriesA| || s.bIdx < |entriesB|
    // each cursor moves by at most one, and the entries left strictly decrease
    ensures r.Ok? ==> s.aIdx <= r.value.aIdx <= s.aIdx + 1 && s.bIdx <= r.value.bIdx <= s.bIdx + 1
    ensures r.Ok? ==> Remaining(|entriesA|, r.value.aIdx) + Remaining(|entriesB|, r.value.bIdx)
                      < Remaining(|entriesA|, s.aIdx) + Remaining(|entriesB|, s.bIdx)
  {
    var entryA := EntryAt(entriesA, s.aIdx);
    var entryB := EntryAt(entriesB, s.bIdx);
    var merged := MergeEntry(ops, entryA, entryB);
    if merged.Some? then
      Ok(EntryState(s.aIdx + 1, s.bIdx + 1, s.out + [merged.value]))
    else if ops.idxLess(entryA.value, entryB.value) then
      match Unmatched(ops, entryA.value, aList, bList, true)
      case Err(e) => Err(e)
      case Ok(e) => Ok(EntryState(s.aIdx + 1, s.bIdx, s.out + [e]))
    else
      match Unmatched(ops, entryB.value, bList, aList, false)
      case Err(e) => Err(e)
      case Ok(e) => Ok(EntryState(s.aIdx, s.bIdx + 1, s.out + [e]))
  }

  /**
   * Each iteration appends exactly one entry; a value from `_merge_entry`
   * moves both cursors; the only failure is a dummy that cannot be built.
   */
  lemma StepShape(
    ops: EntryOps, entriesA: seq<Entry>, entriesB: seq<Entry>, aList: seq<Option<int>>, bList: seq<Option<int>>,
    s: EntryState)
    requires 0 <= s.aIdx && 0 <= s.bIdx
    requires s.aIdx < |entriesA| || s.bIdx < |entriesB|
    ensures var r := EntryStep(ops, entriesA, entriesB, aList, bList, s);
            var m := MergeEntry(ops, EntryAt(entriesA, s.aIdx), EntryAt(entriesB, s.bIdx));
            && (r.Ok? ==> exists x :: r.value.out == s.out + [x])
            && (m.Some? ==> r == Ok(EntryState(s.aIdx + 1, s.bIdx + 1, s.out + [m.value])))
            && (r.Err? ==> r.error.DummyFailed?)
  {
    var r := EntryStep(ops, entriesA, entriesB, aList, bList, s);
    if r.Ok? {
      var x := r.value.out[|r.value.out| - 1];
      assert r.value.out == s.out + [x];
    }
  }

  /** The `_merge_entries` loop run from state `s` until both cursors pass their ends. */
  function EntryRun(
    ops: EntryOps, entriesA: seq<Entry>, entriesB: seq<Entry>, aList: seq<Option<int>>, bList: seq<Option<int>>,
    s: EntryState): (r: Result<EntryState, MergeError>)
    requires 0 <= s.aIdx && 0 <= s.bIdx
    ensures r.Ok? ==> r.value.aIdx >= |entriesA| && r.value.bIdx >= |entriesB|
    decreases Remaining(|entriesA|, s.aIdx) + Remaining(|entriesB|, s.bIdx)
  {
    if s.aIdx < |entriesA| || s.bIdx < |entriesB| then
      match EntryStep(ops, entriesA, entriesB, aList, bList, s)
      case Err(e) => Err(e)
      case Ok(t) => EntryRun(ops, entriesA, entriesB, aList, bList, t)
    else Ok(s)
  }

  /**
   * `_merge_entries` on two sections: each is renumbered through its id map
   * and sorted, then walked from the start.
   */
  function MergeEntriesOf(
    ops: EntryOps, topA: seq<Entry>, topB: seq<Entry>, aMap: map<int, int>, bMap: map<int, int>,
    aList: seq<Option<int>>, bList: seq<Option<int>>): (r: Result<seq<Entry>, MergeError>)
    ensures var entriesA, entriesB := ops.sort(ops.updateIdx(topA, aMap)), ops.sort(ops.updateIdx(topB, bMap));
            && (r.Ok? ==> Max(|entriesA|, |entriesB|) <= |r.value| <= |entriesA| + |entriesB|)
            && (r.Ok? && IndexPreserving(ops) ==> Indices(r.value) == Indices(entriesA) + Indices(entriesB))
    ensures r.Err? ==> r.error.DummyFailed?
  {
    var entriesA := ops.sort(ops.updateIdx(topA, aMap));
    var entriesB := ops.sort(ops.updateIdx(topB, bMap));
    MergedLength(ops, entriesA, entriesB, aList, bList);
    RunError(ops, entriesA, entriesB, aList, bList, START);
    UnionWhenPreserving(ops, entriesA, entriesB, aList, bList);
    match EntryRun(ops, entriesA, entriesB, aList, bList, START)
    case Err(e) => Err(e)
    case Ok(t) => Ok(t.out)
  }

  /** The only way the walk can fail is a dummy that cannot be built. */
  lemma {:induction false} RunError(
    ops: EntryOps, entriesA: seq<Entry>, entriesB: seq<Entry>, aList: seq<Option<int>>, bList: seq<Option<int>>,
    s: EntryState)
    requires 0 <= s.aIdx && 0 <= s.bIdx
    ensures var r := EntryRun(ops, entriesA, entriesB, aList, bList, s);
            r.Err? ==> r.error.DummyFailed?
    decreases Remaining(|entriesA|, s.aIdx) + Remaining(|entriesB|, s.bIdx)
  {
    if s.aIdx < |entriesA| || s.bIdx < |entriesB| {
      StepShape(ops, entriesA, entriesB, aList, bList, s);
      var r := EntryStep(ops, entriesA, entriesB, aList, bList, s);
      if r.Ok? {
        RunError(ops, entriesA, entriesB, aList, bList, r.value);
      }
    }
  }

  function Max(x: int, y: int): int
  {
    if x < y then y else x
  }

  /** From state `s`, the walk appends between max and sum of the entries left on each side. */
  lemma {:induction false} RunLength(
    ops: EntryOps, entriesA: seq<Entry>, entriesB: seq<Entry>, aList: seq<Option<int>>, bList: seq<Option<int>>,
    s: EntryState)
    requires 0 <= s.aIdx && 0 <= s.bIdx
    ensures var r := EntryRun(ops, entriesA, entriesB, aList, bList, s);
            var leftA, leftB := Remaining(|entriesA|, s.aIdx), Remaining(|entriesB|, s.bIdx);
            r.Ok? ==> Max(leftA, leftB) <= |r.value.out| - |s.out| <= leftA + leftB
    decreases Remaining(|entriesA|, s.aIdx) + Remaining(|entriesB|, s.bIdx)
  {
    if s.aIdx < |entriesA| || s.bIdx < |entriesB| {
      var r := EntryStep(ops, entriesA, entriesB, aList, bList, s);
      StepShape(ops, entriesA, entriesB, aList, bList, s);
      if r.Ok? {
        RunLength(ops, entriesA, entriesB, aList, bList, r.value);
      }
    }
  }

  /** `MergedIndicesAreUnion`, for helpers that may or may not keep serials. */
  lemma UnionWhenPreserving(
    ops: EntryOps, entriesA: seq<Entry>, entriesB: seq<Entry>, aList: seq<Option<int>>, bList: seq<Option<int>>)
    ensures var r := EntryRun(ops, entriesA, entriesB, aList, bList, START);
            r.Ok? && IndexPreserving(ops) ==> Indices(r.value.out) == Indices(entriesA) + Indices(entriesB)
  {
    if IndexPreserving(ops) {
      MergedIndicesAreUnion(ops, entriesA, entriesB, aList, bList);
    }
  }

  /**
   * Every iteration appends one entry, so a completed merge has at least as
   * many entries as the longer section and at most as many as both together.
   */
  lemma MergedLength(
    ops: EntryOps, entriesA: seq<Entry>, entriesB: seq<Entry>, aList: seq<Option<int>>, bList: seq<Option<int>>)
    ensures var r := EntryRun(ops, entriesA, entriesB, aList, bList, START);
            r.Ok? ==> Max(|entriesA|, |entriesB|) <= |r.value.out| <= |entriesA| + |entriesB|
  {
    RunLength(ops, entriesA, entriesB, aList, bList, START);
  }

  /** Entries marked with an origin, unchanged otherwise. */
  function Marked(entries: seq<Entry>, origin: Origin): (r: seq<Entry>)
    ensures |r| == |entries|
    ensures forall i :: 0 <= i < |entries| ==> r[i] == entries[i].(origin := origin)
  {
    seq(|entries|, i requires 0 <= i < |entries| => entries[i].(origin := origin))
  }

  /** Appending the next marked entry, then the marked rest, appends the marked suffix from `i`. */
  lemma MarkedFrom(entries: seq<Entry>, i: int, origin: Origin, out: seq<Entry>)
    requires 0 <= i < |entries|
    ensures (out + [entries[i].(origin := origin)]) + Marked(entries[i + 1..], origin)
              == out + Marked(entries[i..], origin)
  {
    assert Marked(entries[i..], origin) == [entries[i].(origin := origin)] + Marked(entries[i + 1..], origin);
  }

  /** Nothing is appended for an exhausted section. */
  lemma MarkedNone(entries: seq<Entry>, i: int, origin: Origin, out: seq<Entry>)
    requires |entries| <= i
    ensures out + Marked(entries[|entries|..], origin) == out
  {
    assert Marked(entries[|entries|..], origin) == [];
  }

  /** With A exhausted, one iteration appends the next B entry marked as coming from topology 2. */
  lemma StepExhaustedA(
    ops: EntryOps, entriesA: seq<Entry>, entriesB: seq<Entry>, aList: seq<Option<int>>, bList: seq<Option<int>>,
    s: EntryState)
    requires |entriesA| <= s.aIdx && 0 <= s.bIdx < |entriesB|
    ensures EntryRun(ops, entriesA, entriesB, aList, bList, s)
              == EntryRun(ops, entriesA, entriesB, aList, bList,
                          EntryState(s.aIdx + 1, s.bIdx + 1, s.out + [entriesB[s.bIdx].(origin := FromTopology2)]))
  {
    assert MergeEntry(ops, EntryAt(entriesA, s.aIdx), EntryAt(entriesB, s.bIdx))
           == Some(entriesB[s.bIdx].(origin := FromTopology2));
  }

  /** With B exhausted, one iteration appends the next A entry marked as coming from topology 1. */
  lemma StepExhaustedB(
    ops: EntryOps, entriesA: seq<Entry>, entriesB: seq<Entry>, aList: seq<Option<int>>, bList: seq<Option<int>>,
    s: EntryState)
    requires 0 <= s.aIdx < |entriesA| && |entriesB| <= s.bIdx
    ensures EntryRun(ops, entriesA, entriesB, aList, bList, s)
              == EntryRun(ops, entriesA, entriesB, aList, bList,
                          EntryState(s.aIdx + 1, s.bIdx + 1, s.out + [entriesA[s.aIdx].(origin := FromTopology1)]))
  {
    assert MergeEntry(ops, EntryAt(entriesA, s.aIdx), EntryAt(entriesB, s.bIdx))
           == Some(entriesA[s.aIdx].(origin := FromTopology1));
  }

  /**
   * Once section A is exhausted, every remaining B entry is appended as a
   * marked copy: no dummy partner is built for them, whatever the lists say.
   */
  lemma {:induction false} ExhaustedA(
    ops: EntryOps, entriesA: seq<Entry>, entriesB: seq<Entry>, aList: seq<Option<int>>, bList: seq<Option<int>>,
    s: EntryState)
    requires |entriesA| <= s.aIdx && 0 <= s.bIdx <= |entriesB|
    ensures EntryRun(ops, entriesA, entriesB, aList, bList, s)
              == Ok(EntryState(s.aIdx + |entriesB| - s.bIdx, |entriesB|,
                               s.out + Marked(entriesB[s.bIdx..], FromTopology2)))
    decreases |entriesB| - s.bIdx
  {
    if s.bIdx < |entriesB| {
      var x := entriesB[s.bIdx].(origin := FromTopology2);
      var t := EntryState(s.aIdx + 1, s.bIdx + 1, s.out + [x]);
      StepExhaustedA(ops, entriesA, entriesB, aList, bList, s);
      ExhaustedA(ops, entriesA, entriesB, aList, bList, t);
      MarkedFrom(entriesB, s.bIdx, FromTopology2, s.out);
    } else {
      MarkedNone(entriesB, s.bIdx, FromTopology2, s.out);
    }
  }

  /** Once section B is exhausted, every remaining A entry is appended as a marked copy. */
  lemma {:induction false} ExhaustedB(
    ops: EntryOps, entriesA: seq<Entry>, entriesB: seq<Entry>, aList: seq<Option<int>>, bList: seq<Option<int>>,
    s: EntryState)
    requires 0 <= s.aIdx <= |entriesA| && |entriesB| <= s.bIdx
    ensures EntryRun(ops, entriesA, entriesB, aList, bList, s)
              == Ok(EntryState(|entriesA|, s.bIdx + |entriesA| - s.aIdx,
                               s.out + Marked(entriesA[s.aIdx..], FromTopology1)))
    decreases |entriesA| - s.aIdx
  {
    if s.aIdx < |entriesA| {
      var x := entriesA[s.aIdx].(origin := FromTopology1);
      var t := EntryState(s.aIdx + 1, s.bIdx + 1, s.out + [x]);
      StepExhaustedB(ops, entriesA, entriesB, aList, bList, s);
      ExhaustedB(ops, entriesA, entriesB, aList, bList, t);
      MarkedFrom(entriesA, s.aIdx, FromTopology1, s.out);
    } else {
      MarkedNone(entriesA, s.aIdx, FromTopology1, s.out);
    }
  }

  /** A walk against an empty section appends every entry of the other as a marked copy. */
  lemma AgainstEmpty(ops: EntryOps, entries: seq<Entry>, aList: seq<Option<int>>, bList: seq<Option<int>>)
    ensures EntryRun(ops, entries, [], aList, bList, START)
              == Ok(EntryState(|entries|, |entries|, Marked(entries, FromTopology1)))
    ensures EntryRun(ops, [], entries, aList, bList, START)
              == Ok(EntryState(|entries|, |entries|, Marked(entries, FromTopology2)))
  {
    ExhaustedB(ops, entries, [], aList, bList, START);
    ExhaustedA(ops, [], entries, aList, bList, START);
    assert entries[0..] == entries;
    assert [] + Marked(entries, FromTopology1) == Marked(entries, FromTopology1);
    assert [] + Marked(entries, FromTopology2) == Marked(entries, FromTopology2);
  }

  /** Each entry combined with itself. */
  function SelfCombined(ops: EntryOps, entries: seq<Entry>): seq<Entry>
    requires forall i :: 0 <= i < |entries| ==> ops.addStateB(entries[i], entries[i]).Some?
  {
    seq(|entries|, i requires 0 <= i < |entries| => ops.addStateB(entries[i], entries[i]).value)
  }

  lemma {:induction false} SelfMergeFrom(
    ops: EntryOps, entries: seq<Entry>, aList: seq<Option<int>>, bList: seq<Option<int>>, s: EntryState)
    requires forall i :: 0 <= i < |entries| ==> ops.addStateB(entries[i], entries[i]).Some?
    requires 0 <= s.aIdx <= |entries| && s.bIdx == s.aIdx
    requires s.out == SelfCombined(ops, entries[..s.aIdx])
    ensures EntryRun(ops, entries, entries, aList, bList, s)
              == Ok(EntryState(|entries|, |entries|, SelfCombined(ops, entries)))
    decreases |entries| - s.aIdx
  {
    if s.aIdx < |entries| {
      var i := s.aIdx;
      var t := EntryState(i + 1, i + 1, s.out + [ops.addStateB(entries[i], entries[i]).value]);
      assert EntryStep(ops, entries, entries, aList, bList, s) == Ok(t);
      assert entries[..i + 1] == entries[..i] + [entries[i]];
      assert t.out == SelfCombined(ops, entries[..i + 1]);
      SelfMergeFrom(ops, entries, aList, bList, t);
    } else {
      assert entries[..s.aIdx] == entries;
    }
  }

  /**
   * Merging a section with itself, when `add_stateB` combines every entry
   * with itself, pairs each entry with its own copy, in order: no entry is
   * dropped, added or given a dummy.
   */
  lemma SelfMerge(ops: EntryOps, entries: seq<Entry>, aList: seq<Option<int>>, bList: seq<Option<int>>)
    requires forall i :: 0 <= i < |entries| ==> ops.addStateB(entries[i], entries[i]).Some?
    ensures EntryRun(ops, entries, entries, aList, bList, START)
              == Ok(EntryState(|entries|, |entries|, SelfCombined(ops, entries)))
  {
    assert SelfCombined(ops, entries[..0]) == [];
    SelfMergeFrom(ops, entries, aList, bList, START);
  }

  /** The atom-serial tuples of a list of entries. */
  function Indices(entries: seq<Entry>): set<seq<int>>
  {
    set i | 0 <= i < |entries| :: entries[i].idx
  }

  /** The entries of a section that lie before cursor `i`. */
  function Consumed(entries: seq<Entry>, i: int): seq<Entry>
    requires 0 <= i
  {
    if i < |entries| then entries[..i] else entries
  }

  lemma IndicesAppend(entries: seq<Entry>, e: Entry)
    ensures Indices(entries + [e]) == Indices(entries) + {e.idx}
  {
    var l := entries + [e];
    forall x | x in Indices(l) ensures x in Indices(entries) + {e.idx} {
      var i :| 0 <= i < |l| && l[i].idx == x;
      if i < |entries| { assert entries[i] == l[i]; }
    }
    forall x | x in Indices(entries) ensures x in Indices(l) {
      var i :| 0 <= i < |entries| && entries[i].idx == x;
      assert l[i] == entries[i];
    }
    assert l[|entries|] == e;
  }

  lemma ConsumedNext(entries: seq<Entry>, i: int)
    requires 0 <= i
    ensures i < |entries| ==> Consumed(entries, i + 1) == Consumed(entries, i) + [entries[i]]
    ensures i >= |entries| ==> Consumed(entries, i + 1) == Consumed(entries, i)
  {
    if i < |entries| {
      assert entries[..i + 1] == entries[..i] + [entries[i]];
    }
  }

  /** Under `IndexPreserving`, a dummy pairing keeps the serials of the real entry. */
  lemma DummyKeepsIndices(ops: EntryOps, e: Entry, fromA: bool)
    requires IndexPreserving(ops)
    ensures var r := if fromA then CreateDummy(ops, Some(e), None) else CreateDummy(ops, None, Some(e));
            r.Ok? ==> r.value.idx == e.idx
  {
    var d := ops.createDummy(e);
    assert d.idx == e.idx;
    if fromA {
      if ops.addStateB(e, d).Some? {
        assert ops.addStateB(e, d).value.idx == e.idx;
      }
    } else {
      if ops.addStateB(d, e).Some? {
        assert ops.addStateB(d, e).value.idx == d.idx;
      }
    }
  }

  /** Moving a cursor one step adds the serial tuple of the entry it passes, if any. */
  lemma ConsumedIndices(entries: seq<Entry>, i: int)
    requires 0 <= i
    ensures i < |entries| ==> Indices(Consumed(entries, i + 1)) == Indices(Consumed(entries, i)) + {entries[i].idx}
    ensures i >= |entries| ==> Indices(Consumed(entries, i + 1)) == Indices(Consumed(entries, i))
  {
    ConsumedNext(entries, i);
    if i < |entries| {
      IndicesAppend(Consumed(entries, i), entries[i]);
    }
  }

  /** The serial tuple of the entry an unmatched entry is turned into is its own. */
  lemma UnmatchedKeepsIndices(ops: EntryOps, e: Entry, own: seq<Option<int>>, other: seq<Option<int>>, fromA: bool)
    requires IndexPreserving(ops)
    ensures var r := Unmatched(ops, e, own, other, fromA);
            r.Ok? ==> r.value.idx == e.idx
  {
    DummyKeepsIndices(ops, e, fromA);
  }

  /**
   * The entry one iteration appends carries the serial tuple of each entry
   * it consumes, and it consumes at least one.
   */
  lemma AppendedEntry(
    ops: EntryOps, entriesA: seq<Entry>, entriesB: seq<Entry>, aList: seq<Option<int>>, bList: seq<Option<int>>,
    s: EntryState) returns (x: Entry)
    requires IndexPreserving(ops)
    requires 0 <= s.aIdx && 0 <= s.bIdx
    requires s.aIdx < |entriesA| || s.bIdx < |entriesB|
    requires EntryStep(ops, entriesA, entriesB, aList, bList, s).Ok?
    ensures var t := EntryStep(ops, entriesA, entriesB, aList, bList, s).value;
            && t.out == s.out + [x]
            && (t.aIdx > s.aIdx && s.aIdx < |entriesA| ==> x.idx == entriesA[s.aIdx].idx)
            && (t.bIdx > s.bIdx && s.bIdx < |entriesB| ==> x.idx == entriesB[s.bIdx].idx)
            && ((t.aIdx > s.aIdx && s.aIdx < |entriesA|) || (t.bIdx > s.bIdx && s.bIdx < |entriesB|))
  {
    var entryA := EntryAt(entriesA, s.aIdx);
    var entryB := EntryAt(entriesB, s.bIdx);
    var merged := MergeEntry(ops, entryA, entryB);
    if merged.Some? {
      x := merged.value;
    } else if ops.idxLess(entryA.value, entryB.value) {
      UnmatchedKeepsIndices(ops, entryA.value, aList, bList, true);
      x := Unmatched(ops, entryA.value, aList, bList, true).value;
    } else {
      UnmatchedKeepsIndices(ops, entryB.value, bList, aList, false);
      x := Unmatched(ops, entryB.value, bList, aList, false).value;
    }
  }

  /** The serial tuples a cursor move from `i` to `j` adds: that of the entry passed, if any. */
  lemma CursorIndices(entries: seq<Entry>, i: int, j: int, x: Entry)
    requires 0 <= i <= j <= i + 1
    requires j > i && i < |entries| ==> x.idx == entries[i].idx
    ensures Indices(Consumed(entries, j))
              == Indices(Consumed(entries, i)) + (if j > i && i < |entries| then {x.idx} else {})
  {
    if j > i {
      ConsumedIndices(entries, i);
    }
  }

  /** One iteration adds to the output exactly the serial tuples of the entries it consumes. */
  lemma StepIndices(
    ops: EntryOps, entriesA: seq<Entry>, entriesB: seq<Entry>, aList: seq<Option<int>>, bList: seq<Option<int>>,
    s: EntryState)
    requires IndexPreserving(ops)
    requires 0 <= s.aIdx && 0 <= s.bIdx
    requires s.aIdx < |entriesA| || s.bIdx < |entriesB|
    requires Indices(s.out) == Indices(Consumed(entriesA, s.aIdx)) + Indices(Consumed(entriesB, s.bIdx))
    ensures var r := EntryStep(ops, entriesA, entriesB, aList, bList, s);
            r.Ok? ==> Indices(r.value.out)
                        == Indices(Consumed(entriesA, r.value.aIdx)) + Indices(Consumed(entriesB, r.value.bIdx))
  {
    var r := EntryStep(ops, entriesA, entriesB, aList, bList, s);
    if r.Ok? {
      var t := r.value;
      var x := AppendedEntry(ops, entriesA, entriesB, aList, bList, s);
      IndicesAppend(s.out, x);
      CursorIndices(entriesA, s.aIdx, t.aIdx, x);
      CursorIndices(entriesB, s.bIdx, t.bIdx, x);
      var consumedA, consumedB := Indices(Consumed(entriesA, s.aIdx)), Indices(Consumed(entriesB, s.bIdx));
      var addedA := if t.aIdx > s.aIdx && s.aIdx < |entriesA| then {x.idx} else {};
      var addedB := if t.bIdx > s.bIdx && s.bIdx < |entriesB| then {x.idx} else {};
      assert addedA + addedB == {x.idx};
      calc {
        Indices(Consumed(entriesA, t.aIdx)) + Indices(Consumed(entriesB, t.bIdx));
        (consumedA + addedA) + (consumedB + addedB);
        (consumedA + consumedB) + (addedA + addedB);
        Indices(s.out) + {x.idx};
      }
    }
  }

  lemma {:induction false} RunIndices(
    ops: EntryOps, entriesA: seq<Entry>, entriesB: seq<Entry>, aList: seq<Option<int>>, bList: seq<Option<int>>,
    s: EntryState)
    requires IndexPreserving(ops)
    requires 0 <= s.aIdx && 0 <= s.bIdx
    requires Indices(s.out) == Indices(Consumed(entriesA, s.aIdx)) + Indices(Consumed(entriesB, s.bIdx))
    ensures var r := EntryRun(ops, entriesA, entriesB, aList, bList, s);
            r.Ok? ==> Indices(r.value.out) == Indices(entriesA) + Indices(entriesB)
    decreases Remaining(|entriesA|, s.aIdx) + Remaining(|entriesB|, s.bIdx)
  {
    if s.aIdx < |entriesA| || s.bIdx < |entriesB| {
      StepIndices(ops, entriesA, entriesB, aList, bList, s);
      var r := EntryStep(ops, entriesA, entriesB, aList, bList, s);
      if r.Ok? {
        RunIndices(ops, entriesA, entriesB, aList, bList, r.value);
      }
    }
  }

  /**
   * Under `IndexPreserving`, a completed merge neither drops nor invents an
   * interaction: the serial tuples of the merged section are exactly those
   * of the two input sections.
   */
  lemma MergedIndicesAreUnion(
    ops: EntryOps, entriesA: seq<Entry>, entriesB: seq<Entry>, aList: seq<Option<int>>, bList: seq<Option<int>>)
    requires IndexPreserving(ops)
    ensures var r := EntryRun(ops, entriesA, entriesB, aList, bList, START);
            r.Ok? ==> Indices(r.value.out) == Indices(entriesA) + Indices(entriesB)
  {
    assert Indices([]) == {};
    RunIndices(ops, entriesA, entriesB, aList, bList, START);
  }

  /**
   * An entry of A only, met while B still has entries: it is kept with its
   * origin mark and its parameters untouched when both list tests pass,
   * and is otherwise replaced by its dummy pairing.
   */
  lemma UnmatchedEntry(
    ops: EntryOps, entriesA: seq<Entry>, entriesB: seq<Entry>, aList: seq<Option<int>>, bList: seq<Option<int>>,
    s: EntryState)
    requires 0 <= s.aIdx < |entriesA| && 0 <= s.bIdx < |entriesB|
    requires ops.addStateB(entriesA[s.aIdx], entriesB[s.bIdx]).None?
    ensures var e, r := entriesA[s.aIdx], EntryStep(ops, entriesA, entriesB, aList, bList, s);
            && (ops.idxLess(e, entriesB[s.bIdx]) && ops.idxIn(e, aList) && ops.checkOtherList(e, aList, bList) ==>
                  r == Ok(EntryState(s.aIdx + 1, s.bIdx, s.out + [e.(origin := FromTopology1)])))
            && (ops.idxLess(e, entriesB[s.bIdx]) && !(ops.idxIn(e, aList) && ops.checkOtherList(e, aList, bList)) ==>
                  match CreateDummy(ops, Some(e), None)
                  case Ok(d) => r == Ok(EntryState(s.aIdx + 1, s.bIdx, s.out + [d]))
                  case Err(err) => r == Err(err))
  {
  }

  /**
   * An entry of B only, met while A still has entries and not `idx_less`
   * than it: kept with its origin mark when both list tests pass on B's
   * list against A's, and otherwise replaced by its dummy pairing.
   */
  lemma UnmatchedEntryB(
    ops: EntryOps, entriesA: seq<Entry>, entriesB: seq<Entry>, aList: seq<Option<int>>, bList: seq<Option<int>>,
    s: EntryState)
    requires 0 <= s.aIdx < |entriesA| && 0 <= s.bIdx < |entriesB|
    requires ops.addStateB(entriesA[s.aIdx], entriesB[s.bIdx]).None?
    requires !ops.idxLess(entriesA[s.aIdx], entriesB[s.bIdx])
    ensures var e, r := entriesB[s.bIdx], EntryStep(ops, entriesA, entriesB, aList, bList, s);
            && (ops.idxIn(e, bList) && ops.checkOtherList(e, bList, aList) ==>
                  r == Ok(EntryState(s.aIdx, s.bIdx + 1, s.out + [e.(origin := FromTopology2)])))
            && (!(ops.idxIn(e, bList) && ops.checkOtherList(e, bList, aList)) ==>
                  match CreateDummy(ops, None, Some(e))
                  case Ok(d) => r == Ok(EntryState(s.aIdx, s.bIdx + 1, s.out + [d]))
                  case Err(err) => r == Err(err))
  {
  }

  /**
   * `create_dummy` fails with an IndexError exactly when `add_stateB`
   * refuses the real entry and the dummy built from it.
   */
  lemma DummyFailure(ops: EntryOps, e: Entry)
    ensures CreateDummy(ops, Some(e), None).Err? <==> ops.addStateB(e, ops.createDummy(e)).None?
    ensures CreateDummy(ops, None, Some(e)).Err? <==> ops.addStateB(ops.createDummy(e), e).None?
    ensures CreateDummy(ops, Some(e), None).Err? ==> CreateDummy(ops, Some(e), None).error == DummyFailed(e)
    ensures CreateDummy(ops, None, Some(e)).Err? ==> CreateDummy(ops, None, Some(e)).error == DummyFailed(e)
  {
  }
}
