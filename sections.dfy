/**
 * The per-section merge rules of alchemicalitp/state_A_B.py: the compared
 * directives (`defaults`, `cmaptypes`), the `moleculetype` header, and which
 * bonded sections must, may or must jointly be present.
 */
module Sections {
  import opened Results
  import opened Topologies
  import EntryMerge

  /**
   * `_merge_defaults`: kept only when both topologies have `defaults`. A
   * topology without dihedrals carries placeholder fudge factors, so the
   * merged value is that of every topology that has dihedrals; the two must
   * then agree when both have them.
   */
  function DefaultsOf(topA: Topology, topB: Topology): (r: Result<Option<Directive>, MergeError>)
    ensures r.Err? <==> && topA.defaults.Some? && topB.defaults.Some?
                        && topA.dihedrals.Some? && topB.dihedrals.Some?
                        && topA.defaults != topB.defaults
    ensures r.Err? ==> r.error == DefaultsDiffer
    ensures r.Ok? ==> (r.value.Some? <==> topA.defaults.Some? && topB.defaults.Some?)
    ensures r.Ok? && r.value.Some? ==> r.value == topA.defaults || r.value == topB.defaults
    ensures r.Ok? && r.value.Some? && topA.dihedrals.Some? ==> r.value == topA.defaults
    ensures r.Ok? && r.value.Some? && topB.dihedrals.Some? ==> r.value == topB.defaults
  {
    if topA.defaults.Some? && topB.defaults.Some? then
      if topA.dihedrals.Some? && topB.dihedrals.Some? then
        if topA.defaults == topB.defaults then Ok(topA.defaults) else Err(DefaultsDiffer)
      else if topA.dihedrals.Some? then Ok(topA.defaults)
      else Ok(topB.defaults)
    else Ok(None)
  }

  /** When neither topology has dihedrals, topology B's `defaults` are the ones kept. */
  lemma DefaultsWithoutDihedrals(topA: Topology, topB: Topology)
    requires topA.defaults.Some? && topB.defaults.Some?
    requires topA.dihedrals.None? && topB.dihedrals.None?
    ensures DefaultsOf(topA, topB) == Ok(topB.defaults)
  {
  }

  /**
   * `_merge_cmaptypes`: the merge succeeds exactly when the two `cmaptypes`
   * directives agree, both absent included, and then keeps that directive.
   * Two different directives are an unimplemented alchemical change; a
   * directive in one topology only is an error of its own.
   */
  function CmaptypesOf(topA: Topology, topB: Topology): (r: Result<Option<Directive>, MergeError>)
    ensures r.Ok? <==> topA.cmaptypes == topB.cmaptypes
    ensures r.Ok? ==> r.value == topA.cmaptypes && r.value == topB.cmaptypes
    ensures r.Err? ==> (r.error == CmapTypesChanged <==> topA.cmaptypes.Some? && topB.cmaptypes.Some?)
    ensures r.Err? ==> r.error == CmapTypesChanged || r.error == CmapTypesOneSided
  {
    if topA.cmaptypes.Some? && topB.cmaptypes.Some? then
      if topA.cmaptypes == topB.cmaptypes then Ok(topB.cmaptypes) else Err(CmapTypesChanged)
    else if !(topA.cmaptypes.Some? || topB.cmaptypes.Some?) then Ok(None)
    else Err(CmapTypesOneSided)
  }

  /** Swapping the topologies does not change the `cmaptypes` outcome. */
  lemma CmaptypesSymmetric(topA: Topology, topB: Topology)
    ensures CmaptypesOf(topA, topB) == CmaptypesOf(topB, topA)
  {
  }

  /**
   * `_create_moleculetype`: both headers are required and must agree on
   * `nrexcl`; the merged header joins the two names with "2".
   */
  function MoleculetypeOf(topA: Topology, topB: Topology): (r: Result<Moleculetype, MergeError>)
    ensures r.Ok? <==> && topA.moleculetype.Some? && topB.moleculetype.Some?
                       && topA.moleculetype.value.nrexcl == topB.moleculetype.value.nrexcl
    ensures r.Err? && (topA.moleculetype.None? || topB.moleculetype.None?) ==> r.error == MissingSection("moleculetype")
    ensures r.Err? && topA.moleculetype.Some? && topB.moleculetype.Some? ==> r.error == NrexclDiffers
    ensures r.Ok? ==> r.value.nrexcl == topA.moleculetype.value.nrexcl == topB.moleculetype.value.nrexcl
  {
    if topA.moleculetype.None? || topB.moleculetype.None? then Err(MissingSection("moleculetype"))
    else
      var a := topA.moleculetype.value;
      var b := topB.moleculetype.value;
      if a.nrexcl != b.nrexcl then Err(NrexclDiffers)
      else Ok(Moleculetype(a.name + "2" + b.name, a.nrexcl))
  }

  /**
   * The merged molecule name splits back into the two source names around
   * the "2" that joins them.
   */
  lemma MoleculeNameSplits(topA: Topology, topB: Topology)
    requires MoleculetypeOf(topA, topB).Ok?
    ensures var name := MoleculetypeOf(topA, topB).value.name;
            var a, b := topA.moleculetype.value.name, topB.moleculetype.value.name;
            && |name| == |a| + 1 + |b|
            && name[..|a|] == a && name[|a|] == '2' && name[|a| + 1..] == b
  {
    var name, a, b := MoleculetypeOf(topA, topB).value.name, topA.moleculetype.value.name, topB.moleculetype.value.name;
    assert name == a + "2" + b;
    assert name[..|a|] == a;
    assert name[|a| + 1..] == b;
  }

  /** A section the merge may create empty when a topology lacks it. */
  function OrEmpty(section: Option<seq<Entry>>): seq<Entry>
  {
    if section.Some? then section.value else []
  }

  /** `_merge_bonds`: both topologies must have a `bonds` section. */
  function BondsOf(
    ops: EntryOps, topA: Topology, topB: Topology, aMap: map<int, int>, bMap: map<int, int>,
    aList: seq<Option<int>>, bList: seq<Option<int>>): (r: Result<seq<Entry>, MergeError>)
    ensures (topA.bonds.None? || topB.bonds.None?) ==> r == Err(MissingSection("bonds"))
    ensures topA.bonds.Some? && topB.bonds.Some? ==>
              r == EntryMerge.MergeEntriesOf(ops, topA.bonds.value, topB.bonds.value, aMap, bMap, aList, bList)
  {
    if topA.bonds.None? || topB.bonds.None? then Err(MissingSection("bonds"))
    else EntryMerge.MergeEntriesOf(ops, topA.bonds.value, topB.bonds.value, aMap, bMap, aList, bList)
  }

  /**
   * `_merge_pairs`, `_merge_angles`, `_merge_dihedrals`: a section missing
   * from a topology is merged as an empty one.
   */
  function OptionalSectionOf(
    ops: EntryOps, sectionA: Option<seq<Entry>>, sectionB: Option<seq<Entry>>, aMap: map<int, int>, bMap: map<int, int>,
    aList: seq<Option<int>>, bList: seq<Option<int>>): (r: Result<seq<Entry>, MergeError>)
    // when the helpers leave an empty section empty, a section missing from one
    // topology contributes nothing: the other survives whole, marked with its origin
    ensures ops.updateIdx([], aMap) == [] && ops.updateIdx([], bMap) == [] && ops.sort([]) == [] ==>
              && (sectionA.None? && sectionB.None? ==> r == Ok([]))
              && (sectionB.None? ==>
                    r == Ok(EntryMerge.Marked(ops.sort(ops.updateIdx(OrEmpty(sectionA), aMap)), FromTopology1)))
              && (sectionA.None? ==>
                    r == Ok(EntryMerge.Marked(ops.sort(ops.updateIdx(OrEmpty(sectionB), bMap)), FromTopology2)))
    // a section present in both topologies is merged by `_merge_entries`
    ensures sectionA.Some? && sectionB.Some? ==>
              r == EntryMerge.MergeEntriesOf(ops, sectionA.value, sectionB.value, aMap, bMap, aList, bList)
    ensures r.Err? ==> r.error.DummyFailed?
  {
    EntryMerge.AgainstEmpty(ops, ops.sort(ops.updateIdx(OrEmpty(sectionA), aMap)), aList, bList);
    EntryMerge.AgainstEmpty(ops, ops.sort(ops.updateIdx(OrEmpty(sectionB), bMap)), aList, bList);
    EntryMerge.MergeEntriesOf(ops, OrEmpty(sectionA), OrEmpty(sectionB), aMap, bMap, aList, bList)
  }

  /**
   * `_merge_cmaps`: merged when both topologies have `cmap`, absent when
   * neither has it. When only one has it the assertion at the end fails
   * whatever the sections hold: its chained comparison can never be true.
   */
  function CmapOf(
    ops: EntryOps, topA: Topology, topB: Topology, aMap: map<int, int>, bMap: map<int, int>,
    aList: seq<Option<int>>, bList: seq<Option<int>>): (r: Result<Option<seq<Entry>>, MergeError>)
    ensures r.Ok? && r.value.Some? ==> topA.cmap.Some? && topB.cmap.Some?
    ensures r.Ok? && r.value.None? <==> topA.cmap.None? && topB.cmap.None?
    ensures topA.cmap.Some? != topB.cmap.Some? ==> r == Err(CmapOneSided)
    ensures topA.cmap.Some? && topB.cmap.Some? ==>
              r == match EntryMerge.MergeEntriesOf(ops, topA.cmap.value, topB.cmap.value, aMap, bMap, aList, bList)
                   case Ok(entries) => Ok(Some(entries))
                   case Err(e) => Err(e)
  {
    if topA.cmap.Some? && topB.cmap.Some? then
      match EntryMerge.MergeEntriesOf(ops, topA.cmap.value, topB.cmap.value, aMap, bMap, aList, bList)
      case Err(e) => Err(e)
      case Ok(entries) => Ok(Some(entries))
    else if topA.cmap.None? && topB.cmap.None? then Ok(None)
    else Err(CmapOneSided)
  }

  /**
   * A one-sided section other than `cmap` is merged as if the other side
   * were empty: every entry of the present side survives, each appended as
   * a copy marked with its origin, and no dummy is built.
   */
  lemma OneSidedSectionKept(
    ops: EntryOps, sectionA: seq<Entry>, aMap: map<int, int>, bMap: map<int, int>,
    aList: seq<Option<int>>, bList: seq<Option<int>>)
    requires ops.updateIdx([], bMap) == [] && ops.sort([]) == []
    ensures var entries := ops.sort(ops.updateIdx(sectionA, aMap));
            OptionalSectionOf(ops, Some(sectionA), None, aMap, bMap, aList, bList)
              == Ok(EntryMerge.Marked(entries, FromTopology1))
  {
    var entries := ops.sort(ops.updateIdx(sectionA, aMap));
    EntryMerge.ExhaustedB(ops, entries, [], aList, bList, EntryMerge.START);
    assert entries[0..] == entries;
    assert [] + EntryMerge.Marked(entries, FromTopology1) == EntryMerge.Marked(entries, FromTopology1);
  }
}
