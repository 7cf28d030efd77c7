/**
 * The `Alchemistry` class of alchemicalitp/state_A_B.py: built from two
 * topologies A and B and the two correspondence lists, its constructor runs
 * the section merges in order and fills the merged topology's sections.
 * `Merge` is the specification of that whole sequence as one value; the
 * class is the step-by-step computation, proved to produce it.
 */
module StateAB {
  import opened Results
  import opened Topologies
  import AtomMerge
  import IndexRemap
  import EntryMerge
  import Sections

  /**
   * The merged topology's `content_dict`: each directive the merge has
   * produced so far. `cmap` is absent unless both topologies have one.
   */
  datatype Content = Content(
    defaults: Option<Directive>,
    cmaptypes: Option<Directive>,
    moleculetype: Option<Moleculetype>,
    atoms: seq<Atom>,
    bonds: seq<Entry>,
    pairs: seq<Entry>,
    angles: seq<Entry>,
    dihedrals: seq<Entry>,
    cmap: Option<seq<Entry>>)

  /** The merged topology's name and content, and the id maps and remapped lists the merge keeps. */
  datatype Merged = Merged(
    name: string,
    content: Content,
    topAIdMap: map<int, int>,
    topBIdMap: map<int, int>,
    aList: seq<Option<int>>,
    bList: seq<Option<int>>)

  /**
   * What the constructor is given: the two topologies, their correspondence
   * lists, and the entry helpers per section.
   */
  datatype Inputs = Inputs(
    topA: Topology, topB: Topology, topAList: seq<Option<int>>, topBList: seq<Option<int>>,
    helpers: Section -> EntryOps)

  /** The merged topology before any step: only its name is set. */
  function Initial(args: Inputs): Merged
  {
    Merged(args.topA.name + "2" + args.topB.name, Content(None, None, None, [], [], [], [], [], None),
           map[], map[], [], [])
  }

  /** `_merge_defaults` as a step on the merged sections. */
  function DefaultsStep(args: Inputs, m: Merged): Result<Merged, MergeError>
  {
    var d :- Sections.DefaultsOf(args.topA, args.topB);
    Ok(if d.Some? then m.(content := m.content.(defaults := d)) else m)
  }

  /** `_merge_cmaptypes` as a step on the merged sections. */
  function CmaptypesStep(args: Inputs, m: Merged): Result<Merged, MergeError>
  {
    var d :- Sections.CmaptypesOf(args.topA, args.topB);
    Ok(if d.Some? then m.(content := m.content.(cmaptypes := d)) else m)
  }

  /** `_create_moleculetype` as a step on the merged sections. */
  function MoleculetypeStep(args: Inputs, m: Merged): Result<Merged, MergeError>
  {
    var mt :- Sections.MoleculetypeOf(args.topA, args.topB);
    Ok(m.(content := m.content.(moleculetype := Some(mt))))
  }

  /** `_merge_atoms` as a step: the merged atoms and both id maps. */
  function AtomsStep(args: Inputs, m: Merged): Result<Merged, MergeError>
  {
    var s :- AtomMerge.AtomsOf(args.topA, args.topB, args.topAList, args.topBList);
    Ok(m.(content := m.content.(atoms := s.atoms), topAIdMap := s.aMap, topBIdMap := s.bMap))
  }

  /** The first `_update_top_list` call: topology A's list through A's id map. */
  function AListStep(args: Inputs, m: Merged): Result<Merged, MergeError>
  {
    var l :- IndexRemap.RemapList(args.topAList, m.topAIdMap);
    Ok(m.(aList := l))
  }

  /** The second `_update_top_list` call: topology B's list through B's id map. */
  function BListStep(args: Inputs, m: Merged): Result<Merged, MergeError>
  {
    var l :- IndexRemap.RemapList(args.topBList, m.topBIdMap);
    Ok(m.(bList := l))
  }

  /** `_merge_bonds`, `_merge_pairs`, `_merge_angles`, `_merge_dihedrals` and `_merge_cmaps` as steps. */
  function SectionStep(args: Inputs, section: Section, m: Merged): Result<Merged, MergeError>
  {
    var ops := args.helpers(section);
    match section
    case Bonds =>
      var v :- Sections.BondsOf(ops, args.topA, args.topB, m.topAIdMap, m.topBIdMap, m.aList, m.bList);
      Ok(m.(content := m.content.(bonds := v)))
    case Pairs =>
      var v :- Sections.OptionalSectionOf(ops, args.topA.pairs, args.topB.pairs,
                                          m.topAIdMap, m.topBIdMap, m.aList, m.bList);
      Ok(m.(content := m.content.(pairs := v)))
    case Angles =>
      var v :- Sections.OptionalSectionOf(ops, args.topA.angles, args.topB.angles,
                                          m.topAIdMap, m.topBIdMap, m.aList, m.bList);
      Ok(m.(content := m.content.(angles := v)))
    case Dihedrals =>
      var v :- Sections.OptionalSectionOf(ops, args.topA.dihedrals, args.topB.dihedrals,
                                          m.topAIdMap, m.topBIdMap, m.aList, m.bList);
      Ok(m.(content := m.content.(dihedrals := v)))
    case Cmap =>
      var v :- Sections.CmapOf(ops, args.topA, args.topB, m.topAIdMap, m.topBIdMap, m.aList, m.bList);
      Ok(if v.Some? then m.(content := m.content.(cmap := v)) else m)
  }

  /** The steps of the constructor. */
  datatype Stage =
    | MergingDefaults
    | MergingCmaptypes
    | CreatingMoleculetype
    | MergingAtoms
    | UpdatingAList
    | UpdatingBList
    | MergingSection(section: Section)

  const STAGE_COUNT := 11

  /** The constructor's steps in order (the atomtypes steps are not part of this model). */
  function StageAt(k: nat): Stage
    requires k < STAGE_COUNT
  {
    match k
    case 0 => MergingDefaults
    case 1 => MergingCmaptypes
    case 2 => CreatingMoleculetype
    case 3 => MergingAtoms
    case 4 => UpdatingAList
    case 5 => UpdatingBList
    case 6 => MergingSection(Bonds)
    case 7 => MergingSection(Pairs)
    case 8 => MergingSection(Angles)
    case 9 => MergingSection(Dihedrals)
    case _ => MergingSection(Cmap)
  }

  function Apply(args: Inputs, stage: Stage, m: Merged): Result<Merged, MergeError>
  {
    match stage
    case MergingDefaults => DefaultsStep(args, m)
    case MergingCmaptypes => CmaptypesStep(args, m)
    case CreatingMoleculetype => MoleculetypeStep(args, m)
    case MergingAtoms => AtomsStep(args, m)
    case UpdatingAList => AListStep(args, m)
    case UpdatingBList => BListStep(args, m)
    case MergingSection(section) => SectionStep(args, section, m)
  }

  /** The steps from the `k`-th on, from sections `m`; the first step to fail aborts the rest. */
  function Pipeline(args: Inputs, k: nat, m: Merged): Result<Merged, MergeError>
    decreases STAGE_COUNT - k
  {
    if k >= STAGE_COUNT then Ok(m)
    else
      var m' :- Apply(args, StageAt(k), m);
      Pipeline(args, k + 1, m')
  }

  /**
   * The whole merge, as the constructor performs it: the merged topology is
   * named after both inputs, and the header steps abort it, in order, with
   * their own errors.
   */
  function Merge(args: Inputs): (r: Result<Merged, MergeError>)
    ensures r.Ok? ==> r.value.name == args.topA.name + "2" + args.topB.name
    ensures Sections.DefaultsOf(args.topA, args.topB).Err? ==> r == Err(DefaultsDiffer)
    ensures Sections.DefaultsOf(args.topA, args.topB).Ok? && Sections.CmaptypesOf(args.topA, args.topB).Err? ==>
              r == Err(Sections.CmaptypesOf(args.topA, args.topB).error)
    ensures && Sections.DefaultsOf(args.topA, args.topB).Ok? && Sections.CmaptypesOf(args.topA, args.topB).Ok?
            && Sections.MoleculetypeOf(args.topA, args.topB).Err? ==>
              r == Err(Sections.MoleculetypeOf(args.topA, args.topB).error)
  {
    PipelineKeepsName(args, 0, Initial(args));
    Pipeline(args, 0, Initial(args))
  }

  /** No step renames the merged topology. */
  lemma {:induction false} PipelineKeepsName(args: Inputs, k: nat, m: Merged)
    ensures Pipeline(args, k, m).Ok? ==> Pipeline(args, k, m).value.name == m.name
    decreases STAGE_COUNT - k
  {
    if k < STAGE_COUNT {
      var r := Apply(args, StageAt(k), m);
      if r.Ok? {
        ApplyFrame(args, StageAt(k), m);
        PipelineKeepsName(args, k + 1, r.value);
      }
    }
  }

  /**
   * A step writes only the fields it is responsible for; every other part
   * of the merged topology passes through it unchanged.
   */
  ghost predicate OnlyOwnFields(stage: Stage, m: Merged, m': Merged)
  {
    && m'.name == m.name
    && (stage != MergingDefaults ==> m'.content.defaults == m.content.defaults)
    && (stage != MergingCmaptypes ==> m'.content.cmaptypes == m.content.cmaptypes)
    && (stage != CreatingMoleculetype ==> m'.content.moleculetype == m.content.moleculetype)
    && (stage != MergingAtoms ==>
          m'.content.atoms == m.content.atoms && m'.topAIdMap == m.topAIdMap && m'.topBIdMap == m.topBIdMap)
    && (stage != UpdatingAList ==> m'.aList == m.aList)
    && (stage != UpdatingBList ==> m'.bList == m.bList)
    && (stage != MergingSection(Bonds) ==> m'.content.bonds == m.content.bonds)
    && (stage != MergingSection(Pairs) ==> m'.content.pairs == m.content.pairs)
    && (stage != MergingSection(Angles) ==> m'.content.angles == m.content.angles)
    && (stage != MergingSection(Dihedrals) ==> m'.content.dihedrals == m.content.dihedrals)
    && (stage != MergingSection(Cmap) ==> m'.content.cmap == m.content.cmap)
  }

  lemma DefaultsFrame(args: Inputs, m: Merged)
    requires DefaultsStep(args, m).Ok?
    ensures OnlyOwnFields(MergingDefaults, m, DefaultsStep(args, m).value)
  {
  }

  lemma CmaptypesFrame(args: Inputs, m: Merged)
    requires CmaptypesStep(args, m).Ok?
    ensures OnlyOwnFields(MergingCmaptypes, m, CmaptypesStep(args, m).value)
  {
  }

  lemma MoleculetypeFrame(args: Inputs, m: Merged)
    requires MoleculetypeStep(args, m).Ok?
    ensures OnlyOwnFields(CreatingMoleculetype, m, MoleculetypeStep(args, m).value)
  {
  }

  lemma AtomsFrame(args: Inputs, m: Merged)
    requires AtomsStep(args, m).Ok?
    ensures OnlyOwnFields(MergingAtoms, m, AtomsStep(args, m).value)
  {
  }

  lemma ListsFrame(args: Inputs, m: Merged)
    ensures AListStep(args, m).Ok? ==> OnlyOwnFields(UpdatingAList, m, AListStep(args, m).value)
    ensures BListStep(args, m).Ok? ==> OnlyOwnFields(UpdatingBList, m, BListStep(args, m).value)
  {
  }

  lemma SectionFrame(args: Inputs, section: Section, m: Merged)
    requires SectionStep(args, section, m).Ok?
    ensures OnlyOwnFields(MergingSection(section), m, SectionStep(args, section, m).value)
  {
  }

  /**
   * The merged topologies a successful pipeline passes through from step
   * `k` on: `ms[i]` is the input of step `i` and `ms[i + 1]` its result.
   */
  lemma {:induction false} PipelineSteps(args: Inputs, k: nat, m: Merged) returns (ms: seq<Merged>)
    requires k <= STAGE_COUNT
    requires Pipeline(args, k, m).Ok?
    ensures |ms| == STAGE_COUNT + 1 && ms[k] == m && ms[STAGE_COUNT] == Pipeline(args, k, m).value
    ensures forall i :: k <= i < STAGE_COUNT ==> Apply(args, StageAt(i), ms[i]) == Ok(ms[i + 1])
    decreases STAGE_COUNT - k
  {
    if k == STAGE_COUNT {
      ms := seq(STAGE_COUNT + 1, _ => m);
    } else {
      var rest := PipelineSteps(args, k + 1, Apply(args, StageAt(k), m).value);
      ms := rest[k := m];
    }
  }

  /**
   * The eleven steps of a successful merge, one by one: the merged topology
   * after each step is that step applied to the one before, and differs from
   * it only in the fields the step owns.
   */
  lemma MergeSteps(args: Inputs) returns (ms: seq<Merged>)
    requires Merge(args).Ok?
    ensures |ms| == STAGE_COUNT + 1 && ms[0] == Initial(args) && ms[STAGE_COUNT] == Merge(args).value
    ensures DefaultsStep(args, ms[0]) == Ok(ms[1]) && OnlyOwnFields(MergingDefaults, ms[0], ms[1])
    ensures CmaptypesStep(args, ms[1]) == Ok(ms[2]) && OnlyOwnFields(MergingCmaptypes, ms[1], ms[2])
    ensures MoleculetypeStep(args, ms[2]) == Ok(ms[3]) && OnlyOwnFields(CreatingMoleculetype, ms[2], ms[3])
    ensures AtomsStep(args, ms[3]) == Ok(ms[4]) && OnlyOwnFields(MergingAtoms, ms[3], ms[4])
    ensures AListStep(args, ms[4]) == Ok(ms[5]) && OnlyOwnFields(UpdatingAList, ms[4], ms[5])
    ensures BListStep(args, ms[5]) == Ok(ms[6]) && OnlyOwnFields(UpdatingBList, ms[5], ms[6])
    ensures SectionStep(args, Bonds, ms[6]) == Ok(ms[7]) && OnlyOwnFields(MergingSection(Bonds), ms[6], ms[7])
    ensures SectionStep(args, Pairs, ms[7]) == Ok(ms[8]) && OnlyOwnFields(MergingSection(Pairs), ms[7], ms[8])
    ensures SectionStep(args, Angles, ms[8]) == Ok(ms[9]) && OnlyOwnFields(MergingSection(Angles), ms[8], ms[9])
    ensures SectionStep(args, Dihedrals, ms[9]) == Ok(ms[10])
            && OnlyOwnFields(MergingSection(Dihedrals), ms[9], ms[10])
    ensures SectionStep(args, Cmap, ms[10]) == Ok(ms[11]) && OnlyOwnFields(MergingSection(Cmap), ms[10], ms[11])
  {
    ms := PipelineSteps(args, 0, Initial(args));
    assert Apply(args, StageAt(0), ms[0]) == Ok(ms[1]);
    assert Apply(args, StageAt(1), ms[1]) == Ok(ms[2]);
    assert Apply(args, StageAt(2), ms[2]) == Ok(ms[3]);
    assert Apply(args, StageAt(3), ms[3]) == Ok(ms[4]);
    assert Apply(args, StageAt(4), ms[4]) == Ok(ms[5]);
    assert Apply(args, StageAt(5), ms[5]) == Ok(ms[6]);
    assert Apply(args, StageAt(6), ms[6]) == Ok(ms[7]);
    assert Apply(args, StageAt(7), ms[7]) == Ok(ms[8]);
    assert Apply(args, StageAt(8), ms[8]) == Ok(ms[9]);
    assert Apply(args, StageAt(9), ms[9]) == Ok(ms[10]);
    assert Apply(args, StageAt(10), ms[10]) == Ok(ms[11]);
    DefaultsFrame(args, ms[0]);
    CmaptypesFrame(args, ms[1]);
    MoleculetypeFrame(args, ms[2]);
    AtomsFrame(args, ms[3]);
    ListsFrame(args, ms[4]);
    ListsFrame(args, ms[5]);
    SectionFrame(args, Bonds, ms[6]);
    SectionFrame(args, Pairs, ms[7]);
    SectionFrame(args, Angles, ms[8]);
    SectionFrame(args, Dihedrals, ms[9]);
    SectionFrame(args, Cmap, ms[10]);
  }

  /**
   * A successful merge carries the name and header that its first three
   * steps computed: the `defaults` kept by `_merge_defaults`, the `cmaptypes`
   * both topologies share, and the joined `moleculetype`.
   */
  lemma MergedHeader(args: Inputs)
    requires Merge(args).Ok?
    ensures var r := Merge(args).value;
            && r.name == args.topA.name + "2" + args.topB.name
            && Sections.DefaultsOf(args.topA, args.topB) == Ok(r.content.defaults)
            && args.topA.cmaptypes == args.topB.cmaptypes == r.content.cmaptypes
            && Sections.MoleculetypeOf(args.topA, args.topB).Ok?
            && r.content.moleculetype == Some(Sections.MoleculetypeOf(args.topA, args.topB).value)
  {
    var ms := MergeSteps(args);
  }

  /**
   * A successful merge holds the atoms and id maps of `_merge_atoms`, and
   * the two correspondence lists rewritten through those maps.
   */
  lemma MergedRenumbering(args: Inputs)
    requires Merge(args).Ok?
    ensures var r := Merge(args).value;
            var s := AtomMerge.AtomsOf(args.topA, args.topB, args.topAList, args.topBList);
            && s.Ok?
            && r.content.atoms == s.value.atoms && r.topAIdMap == s.value.aMap && r.topBIdMap == s.value.bMap
            && IndexRemap.RemapList(args.topAList, r.topAIdMap) == Ok(r.aList)
            && IndexRemap.RemapList(args.topBList, r.topBIdMap) == Ok(r.bList)
  {
    var ms := MergeSteps(args);
  }

  /**
   * In a successful merge the atoms are numbered 1..n with charge groups to
   * match, every atom of topology A has a merged serial, and each remapped
   * list keeps its length, has a serial exactly where the original slot is
   * truthy, and only serials of merged atoms.
   */
  lemma MergedSerials(args: Inputs)
    requires Merge(args).Ok?
    ensures var r := Merge(args).value;
            && args.topA.atoms.Some? && args.topB.atoms.Some?
            && (forall i :: 0 <= i < |r.content.atoms| ==>
                  r.content.atoms[i].nr == i + 1 && r.content.atoms[i].cgnr == i + 1)
            && (forall i :: 0 <= i < |args.topA.atoms.value| ==> args.topA.atoms.value[i].nr in r.topAIdMap)
            && |r.aList| == |args.topAList| && |r.bList| == |args.topBList|
            && (forall i :: 0 <= i < |r.aList| ==> (r.aList[i].Some? <==> Truthy(args.topAList[i])))
            && (forall i :: 0 <= i < |r.bList| ==> (r.bList[i].Some? <==> Truthy(args.topBList[i])))
            && (forall i :: 0 <= i < |r.aList| && r.aList[i].Some? ==> 1 <= r.aList[i].value <= |r.content.atoms|)
            && (forall i :: 0 <= i < |r.bList| && r.bList[i].Some? ==> 1 <= r.bList[i].value <= |r.content.atoms|)
  {
    var r := Merge(args).value;
    MergedRenumbering(args);
    AtomMerge.MergedAtomsNumbered(args.topA.atoms.value, args.topB.atoms.value, args.topAList, args.topBList);
    IndexRemap.RemapListMeaning(args.topAList, r.topAIdMap);
    IndexRemap.RemapListMeaning(args.topBList, r.topBIdMap);
  }

  /**
   * A successful merge holds, for each bonded section, what its merge step
   * computes from the final id maps and remapped lists.
   */
  lemma MergedSections(args: Inputs)
    requires Merge(args).Ok?
    ensures var r := Merge(args).value;
            var h, aMap, bMap, aList, bList := args.helpers, r.topAIdMap, r.topBIdMap, r.aList, r.bList;
            && Sections.BondsOf(h(Bonds), args.topA, args.topB, aMap, bMap, aList, bList) == Ok(r.content.bonds)
            && Sections.OptionalSectionOf(h(Pairs), args.topA.pairs, args.topB.pairs, aMap, bMap, aList, bList)
                 == Ok(r.content.pairs)
            && Sections.OptionalSectionOf(h(Angles), args.topA.angles, args.topB.angles, aMap, bMap, aList, bList)
                 == Ok(r.content.angles)
            && Sections.OptionalSectionOf(h(Dihedrals), args.topA.dihedrals, args.topB.dihedrals,
                                          aMap, bMap, aList, bList)
                 == Ok(r.content.dihedrals)
            && Sections.CmapOf(h(Cmap), args.topA, args.topB, aMap, bMap, aList, bList) == Ok(r.content.cmap)
  {
    var ms := PipelineSteps(args, 0, Initial(args));
    StepFrames(args, ms);
    LateSteps(args, ms);
  }

  /** Each step of a chain of successful steps keeps to its own fields. */
  lemma StepFrames(args: Inputs, ms: seq<Merged>)
    requires |ms| == STAGE_COUNT + 1
    requires forall i :: 0 <= i < STAGE_COUNT ==> Apply(args, StageAt(i), ms[i]) == Ok(ms[i + 1])
    ensures forall i :: 0 <= i < STAGE_COUNT ==> OnlyOwnFields(StageAt(i), ms[i], ms[i + 1])
  {
    forall i | 0 <= i < STAGE_COUNT
      ensures OnlyOwnFields(StageAt(i), ms[i], ms[i + 1])
    {
      assert Apply(args, StageAt(i), ms[i]) == Ok(ms[i + 1]);
      ApplyFrame(args, StageAt(i), ms[i]);
    }
  }

  /** Every step keeps to its own fields. */
  lemma ApplyFrame(args: Inputs, stage: Stage, m: Merged)
    requires Apply(args, stage, m).Ok?
    ensures OnlyOwnFields(stage, m, Apply(args, stage, m).value)
  {
    match stage
    case MergingDefaults => DefaultsFrame(args, m);
    case MergingCmaptypes => CmaptypesFrame(args, m);
    case CreatingMoleculetype => MoleculetypeFrame(args, m);
    case MergingAtoms => AtomsFrame(args, m);
    case UpdatingAList => ListsFrame(args, m);
    case UpdatingBList => ListsFrame(args, m);
    case MergingSection(section) => SectionFrame(args, section, m);
  }

  /** The five section steps read the final id maps and lists, and each writes its own section only. */
  lemma LateSteps(args: Inputs, ms: seq<Merged>)
    requires |ms| == STAGE_COUNT + 1 && ms[0] == Initial(args)
    requires forall i :: 0 <= i < STAGE_COUNT ==> OnlyOwnFields(StageAt(i), ms[i], ms[i + 1])
    requires forall i :: 0 <= i < STAGE_COUNT ==> Apply(args, StageAt(i), ms[i]) == Ok(ms[i + 1])
    ensures var r := ms[STAGE_COUNT];
            var h, aMap, bMap, aList, bList := args.helpers, r.topAIdMap, r.topBIdMap, r.aList, r.bList;
            && Sections.BondsOf(h(Bonds), args.topA, args.topB, aMap, bMap, aList, bList) == Ok(r.content.bonds)
            && Sections.OptionalSectionOf(h(Pairs), args.topA.pairs, args.topB.pairs, aMap, bMap, aList, bList)
                 == Ok(r.content.pairs)
            && Sections.OptionalSectionOf(h(Angles), args.topA.angles, args.topB.angles, aMap, bMap, aList, bList)
                 == Ok(r.content.angles)
            && Sections.OptionalSectionOf(h(Dihedrals), args.topA.dihedrals, args.topB.dihedrals,
                                          aMap, bMap, aList, bList)
                 == Ok(r.content.dihedrals)
            && Sections.CmapOf(h(Cmap), args.topA, args.topB, aMap, bMap, aList, bList) == Ok(r.content.cmap)
  {
    var r := ms[STAGE_COUNT];
    assert OnlyOwnFields(StageAt(1), ms[1], ms[2]);
    assert OnlyOwnFields(StageAt(2), ms[2], ms[3]);
    assert OnlyOwnFields(StageAt(3), ms[3], ms[4]);
    assert OnlyOwnFields(StageAt(4), ms[4], ms[5]);
    assert OnlyOwnFields(StageAt(5), ms[5], ms[6]);
    assert OnlyOwnFields(StageAt(6), ms[6], ms[7]);
    assert OnlyOwnFields(StageAt(7), ms[7], ms[8]);
    assert OnlyOwnFields(StageAt(8), ms[8], ms[9]);
    assert OnlyOwnFields(StageAt(9), ms[9], ms[10]);
    assert OnlyOwnFields(StageAt(10), ms[10], ms[11]);
    assert OnlyOwnFields(StageAt(0), ms[0], ms[1]);
    assert ms[10].content.cmap == None;
    assert Apply(args, StageAt(6), ms[6]) == Ok(ms[7]);
    assert Apply(args, StageAt(7), ms[7]) == Ok(ms[8]);
    assert Apply(args, StageAt(8), ms[8]) == Ok(ms[9]);
    assert Apply(args, StageAt(9), ms[9]) == Ok(ms[10]);
    assert Apply(args, StageAt(10), ms[10]) == Ok(ms[11]);
  }

  /**
   * When the bonds helpers keep atom-serial tuples, the merged bonds connect
   * exactly the renumbered bonds of topology A and those of topology B.
   */
  lemma MergedBondsAreUnion(args: Inputs)
    requires Merge(args).Ok?
    requires IndexPreserving(args.helpers(Bonds))
    ensures var r := Merge(args).value;
            var ops := args.helpers(Bonds);
            && args.topA.bonds.Some? && args.topB.bonds.Some?
            && EntryMerge.Indices(r.content.bonds)
                 == EntryMerge.Indices(ops.sort(ops.updateIdx(args.topA.bonds.value, r.topAIdMap)))
                    + EntryMerge.Indices(ops.sort(ops.updateIdx(args.topB.bonds.value, r.topBIdMap)))
  {
    var r := Merge(args).value;
    var ops := args.helpers(Bonds);
    MergedSections(args);
    EntryMerge.MergedIndicesAreUnion(
      ops, ops.sort(ops.updateIdx(args.topA.bonds.value, r.topAIdMap)),
      ops.sort(ops.updateIdx(args.topB.bonds.value, r.topBIdMap)), r.aList, r.bList);
  }

  /**
   * What any successful merge needs of its topologies: `atoms`, `bonds` and
   * `moleculetype` in both with equal `nrexcl`, identical `cmaptypes`, and a
   * `cmap` section in both or in neither.
   */
  lemma MergeNeeds(args: Inputs)
    requires Merge(args).Ok?
    ensures args.topA.atoms.Some? && args.topB.atoms.Some?
    ensures args.topA.bonds.Some? && args.topB.bonds.Some?
    ensures args.topA.moleculetype.Some? && args.topB.moleculetype.Some?
    ensures args.topA.moleculetype.value.nrexcl == args.topB.moleculetype.value.nrexcl
    ensures args.topA.cmaptypes == args.topB.cmaptypes
    ensures args.topA.cmap.Some? == args.topB.cmap.Some?
  {
    MergedHeader(args);
    MergedSerials(args);
    MergedSections(args);
  }

  /** A `cmap` section in one topology only makes the merge fail, whatever else the topologies hold. */
  lemma OneSidedCmapFails(args: Inputs)
    requires args.topA.cmap.Some? != args.topB.cmap.Some?
    ensures Merge(args).Err?
  {
    if Merge(args).Ok? {
      MergeNeeds(args);
    }
  }

  /**
   * Two different `defaults` directives in topologies that both have
   * dihedrals stop the merge at its first step, with that error.
   */
  lemma ConflictingDefaultsFail(args: Inputs)
    requires args.topA.defaults.Some? && args.topB.defaults.Some? && args.topA.defaults != args.topB.defaults
    requires args.topA.dihedrals.Some? && args.topB.dihedrals.Some?
    ensures Merge(args) == Err(DefaultsDiffer)
  {
    assert DefaultsStep(args, Initial(args)) == Err(DefaultsDiffer);
  }

  /** A merge run to completion. */
  class Alchemistry {
    const topA: Topology
    const topB: Topology
    const topAList: seq<Option<int>>
    const topBList: seq<Option<int>>
    const helpers: Section -> EntryOps

    const name: string
    /** `content_dict`, filled in directive by directive. */
    var content: Content
    var topAIdMap: map<int, int>
    var topBIdMap: map<int, int>
    var aList: seq<Option<int>>
    var bList: seq<Option<int>>
    /** The exception that aborted the constructor, if any. */
    var failure: Option<MergeError>

    /** The constructor's arguments. */
    function In(): Inputs
    {
      Inputs(topA, topB, topAList, topBList, helpers)
    }

    /** The merged sections as one value. */
    function Snapshot(): Merged
      reads this
    {
      Merged(name, content, topAIdMap, topBIdMap, aList, bList)
    }

    /**
     * Runs the merges in order and stops at the first exception, recorded
     * in `failure`; when none is raised, the sections are those of `Merge`.
     */
    constructor(topA: Topology, topB: Topology, topAList: seq<Option<int>>, topBList: seq<Option<int>>,
                helpers: Section -> EntryOps)
      ensures In() == Inputs(topA, topB, topAList, topBList, helpers)
      ensures failure == ErrorOf(Merge(In()))
      ensures failure.None? ==> Snapshot() == Merge(In()).value
    {
      this.topA := topA;
      this.topB := topB;
      this.topAList := topAList;
      this.topBList := topBList;
      this.helpers := helpers;
      name := topA.name + "2" + topB.name;
      content := Content(None, None, None, [], [], [], [], [], None);
      topAIdMap := map[];
      topBIdMap := map[];
      aList := [];
      bList := [];
      failure := None;
      new;
      ghost var goal := Merge(In());
      var o := MergeHeader();
      if o.Fail? {
        failure := Some(o.error);
        return;
      }
      o := Renumber();
      if o.Fail? {
        failure := Some(o.error);
        return;
      }
      o := MergeTwoBody();
      if o.Fail? {
        failure := Some(o.error);
        return;
      }
      o := MergeManyBody();
      if o.Fail? {
        failure := Some(o.error);
        return;
      }
      assert goal == Pipeline(In(), STAGE_COUNT, Snapshot());
    }

    /** `_merge_defaults`, `_merge_cmaptypes` and `_create_moleculetype`, in the constructor's order. */
    method MergeHeader() returns (o: Outcome<MergeError>)
      modifies this`content
      ensures Pipeline(In(), 0, old(Snapshot())) == if o.Fail? then Err(o.error) else Pipeline(In(), 3, Snapshot())
    {
      ghost var goal := Pipeline(In(), 0, Snapshot());
      o := MergeDefaults();
      if o.Fail? {
        return;
      }
      assert goal == Pipeline(In(), 1, Snapshot());
      o := MergeCmaptypes();
      if o.Fail? {
        return;
      }
      assert goal == Pipeline(In(), 2, Snapshot());
      o := CreateMoleculetype();
    }

    /** `_merge_atoms`, then `_update_top_list` on each correspondence list. */
    method Renumber() returns (o: Outcome<MergeError>)
      modifies this`content, this`topAIdMap, this`topBIdMap, this`aList, this`bList
      ensures Pipeline(In(), 3, old(Snapshot())) == if o.Fail? then Err(o.error) else Pipeline(In(), 6, Snapshot())
    {
      o := MergeAtoms();
      if o.Fail? {
        return;
      }
      var r := UpdateTopList(topAList, topAIdMap);
      if r.Err? {
        return Fail(r.error);
      }
      aList := r.value;
      r := UpdateTopList(topBList, topBIdMap);
      if r.Err? {
        return Fail(r.error);
      }
      bList := r.value;
    }

    /** `_merge_bonds` and `_merge_pairs`: the interactions between two atoms. */
    method MergeTwoBody() returns (o: Outcome<MergeError>)
      modifies this`content
      ensures Pipeline(In(), 6, old(Snapshot())) == if o.Fail? then Err(o.error) else Pipeline(In(), 8, Snapshot())
    {
      ghost var goal := Pipeline(In(), 6, Snapshot());
      o := MergeBonds();
      if o.Fail? {
        return;
      }
      assert goal == Pipeline(In(), 7, Snapshot());
      o := MergePairs();
    }

    /** `_merge_angles`, `_merge_dihedrals` and `_merge_cmaps`: the interactions among three or more atoms. */
    method MergeManyBody() returns (o: Outcome<MergeError>)
      modifies this`content
      ensures Pipeline(In(), 8, old(Snapshot()))
              == if o.Fail? then Err(o.error) else Pipeline(In(), STAGE_COUNT, Snapshot())
    {
      ghost var goal := Pipeline(In(), 8, Snapshot());
      o := MergeAngles();
      if o.Fail? {
        return;
      }
      assert goal == Pipeline(In(), 9, Snapshot());
      o := MergeDihedrals();
      if o.Fail? {
        return;
      }
      assert goal == Pipeline(In(), 10, Snapshot());
      o := MergeCmaps();
    }

    /** `_merge_defaults`: the merged `defaults` are set only when both topologies have them. */
    method MergeDefaults() returns (o: Outcome<MergeError>)
      modifies this`content
      ensures match DefaultsStep(In(), old(Snapshot()))
              case Ok(m) => o == Pass && Snapshot() == m
              case Err(e) => o == Fail(e) && Snapshot() == old(Snapshot())
    {
      var d := Sections.DefaultsOf(topA, topB);
      if d.Err? {
        return Fail(d.error);
      }
      if d.value.Some? {
        content := content.(defaults := d.value);
      }
      return Pass;
    }

    /** `_merge_cmaptypes`: the shared directive is set when both topologies have the same one. */
    method MergeCmaptypes() returns (o: Outcome<MergeError>)
      modifies this`content
      ensures match CmaptypesStep(In(), old(Snapshot()))
              case Ok(m) => o == Pass && Snapshot() == m
              case Err(e) => o == Fail(e) && Snapshot() == old(Snapshot())
    {
      var d := Sections.CmaptypesOf(topA, topB);
      if d.Err? {
        return Fail(d.error);
      }
      if d.value.Some? {
        content := content.(cmaptypes := d.value);
      }
      return Pass;
    }

    /** `_create_moleculetype`. */
    method CreateMoleculetype() returns (o: Outcome<MergeError>)
      modifies this`content
      ensures match MoleculetypeStep(In(), old(Snapshot()))
              case Ok(m) => o == Pass && Snapshot() == m
              case Err(e) => o == Fail(e) && Snapshot() == old(Snapshot())
    {
      var header := Sections.MoleculetypeOf(topA, topB);
      if header.Err? {
        return Fail(header.error);
      }
      content := content.(moleculetype := Some(header.value));
      return Pass;
    }

    /**
     * `_merge_atoms`: the two-cursor walk over the atom lists, appending
     * merged atoms and filling the id maps in place.
     */
    method MergeAtoms() returns (o: Outcome<MergeError>)
      modifies this`content, this`topAIdMap, this`topBIdMap
      ensures match AtomsStep(In(), old(Snapshot()))
              case Ok(m) => o == Pass && Snapshot() == m
              case Err(e) => o == Fail(e)
    {
      topAIdMap := map[];
      topBIdMap := map[];
      var skip: seq<int> := [];
      content := content.(atoms := []);
      var current := 0;
      var aIdx := 0;
      var bIdx := 0;
      if topA.atoms.None? || topB.atoms.None? {
        return Fail(MissingSection("atoms"));
      }
      var atomsA := topA.atoms.value;
      var atomsB := topB.atoms.value;
      ghost var goal := AtomMerge.AtomRun(atomsA, atomsB, topAList, topBList, AtomMerge.START);
      while aIdx < |atomsA| || bIdx < |atomsB|
        invariant 0 <= aIdx <= |atomsA| && 0 <= bIdx <= |atomsB|
        invariant AtomMerge.AtomRun(atomsA, atomsB, topAList, topBList,
                                    AtomMerge.AtomState(aIdx, bIdx, current, skip, content.atoms, topAIdMap, topBIdMap))
                  == goal
        invariant content == old(content).(atoms := content.atoms)
        decreases |atomsA| - aIdx + |atomsB| - bIdx
      {
        ghost var s := AtomMerge.AtomState(aIdx, bIdx, current, skip, content.atoms, topAIdMap, topBIdMap);
        AtomMerge.RunUnfold(atomsA, atomsB, topAList, topBList, s);
        o, aIdx, bIdx, current, skip := MergeNextAtom(atomsA, atomsB, aIdx, bIdx, current, skip);
        if o.Fail? {
          return;
        }
      }
      return Pass;
    }

    /**
     * One pass of the `_merge_atoms` loop body, from cursors `aIdx` and
     * `bIdx`, counter `current` and `skip_state_B` list `skip`.
     */
    method MergeNextAtom(atomsA: seq<Atom>, atomsB: seq<Atom>, aIdx: int, bIdx: int, current: int, skip: seq<int>)
      returns (o: Outcome<MergeError>, aIdx': int, bIdx': int, current': int, skip': seq<int>)
      requires 0 <= aIdx <= |atomsA| && 0 <= bIdx <= |atomsB|
      requires aIdx < |atomsA| || bIdx < |atomsB|
      modifies this`content, this`topAIdMap, this`topBIdMap
      ensures match AtomMerge.AtomStep(atomsA, atomsB, topAList, topBList,
                                       AtomMerge.AtomState(aIdx, bIdx, current, skip, old(content).atoms,
                                                           old(topAIdMap), old(topBIdMap)))
              case Ok(t) => && o == Pass && content == old(content).(atoms := t.atoms)
                            && t == AtomMerge.AtomState(aIdx', bIdx', current', skip', content.atoms,
                                                        topAIdMap, topBIdMap)
              case Err(e) => o == Fail(e)
    {
      ghost var s := AtomMerge.AtomState(aIdx, bIdx, current, skip, content.atoms, topAIdMap, topBIdMap);
      aIdx', bIdx', current', skip' := aIdx, bIdx, current, skip;
      var atomA := AtomMerge.At(atomsA, aIdx);
      var atomB := AtomMerge.At(atomsB, bIdx);
      if AtomMerge.Declared(atomA, topAList) || AtomMerge.Declared(atomB, topBList) {
        if AtomMerge.Declared(atomA, topAList) {
          var k := AtomMerge.IndexOf(topAList, aIdx + 1);
          if k.None? {
            return Fail(NotDeclared(aIdx + 1)), aIdx', bIdx', current', skip';
          }
          if k.value >= |topBList| {
            return Fail(NoPartnerSlot(k.value)), aIdx', bIdx', current', skip';
          }
          var atomBNr := topBList[k.value];
          current' := current' + 1;
          aIdx' := aIdx' + 1;
          var newAtom := atomA.value.(nr := current', cgnr := current');
          if atomBNr.None? {
            AtomMerge.DisappearingAtom(atomsA, atomsB, topAList, topBList, s, k.value);
            var dummyB := newAtom.(typeB := Some(DUM), massB := Some(atomA.value.mass), chargeB := Some(0.0));
            content := content.(atoms := content.atoms + [dummyB]);
            topAIdMap := topAIdMap[atomA.value.nr := current'];
          } else {
            var bNr := atomBNr.value;
            // the last alternative is never taken: bNr was read from topBList
            if bNr in skip' {
            } else if Some(bNr) in topBList {
              skip' := skip' + [bNr];
            } else {
              bIdx' := bIdx' + 1;
            }
            var partner := AtomMerge.AtomBySerial(atomsB, bNr);
            if partner.None? {
              return Fail(NoSuchAtom(bNr)), aIdx', bIdx', current', skip';
            }
            if atomB.None? {
              return Fail(NoAtomAtCursor), aIdx', bIdx', current', skip';
            }
            AtomMerge.PairedAtom(atomsA, atomsB, topAList, topBList, s, k.value, bNr, partner.value);
            var paired := newAtom.(typeB := Some(partner.value.atomType), massB := Some(partner.value.mass),
                                   chargeB := Some(partner.value.charge));
            content := content.(atoms := content.atoms + [paired]);
            topAIdMap := topAIdMap[atomA.value.nr := current'];
            topBIdMap := topBIdMap[bNr := current'];
          }
        } else {
          var k := AtomMerge.IndexOf(topBList, bIdx + 1);
          if k.None? {
            return Fail(NotDeclared(bIdx + 1)), aIdx', bIdx', current', skip';
          }
          if k.value >= |topAList| {
            return Fail(NoPartnerSlot(k.value)), aIdx', bIdx', current', skip';
          }
          var b := atomB.value;
          if topAList[k.value].None? {
            AtomMerge.AppearingAtom(atomsA, atomsB, topAList, topBList, s, k.value);
            current' := current' + 1;
            bIdx' := bIdx' + 1;
            var dummyA := b.(nr := current', cgnr := current', typeB := Some(b.atomType), massB := Some(b.mass),
                             chargeB := Some(b.charge), atomType := DUM, charge := 0.0);
            content := content.(atoms := content.atoms + [dummyA]);
            topBIdMap := topBIdMap[b.nr := current'];
          } else {
            AtomMerge.SkippedAtom(atomsA, atomsB, topAList, topBList, s, k.value);
            bIdx' := bIdx' + 1;
            skip' := skip' + [bIdx'];
          }
        }
      } else {
        if atomA.None? || atomB.None? {
          return Fail(NoAtomAtCursor), aIdx', bIdx', current', skip';
        }
        var a := atomA.value;
        var b := atomB.value;
        AtomMerge.UndeclaredPair(atomsA, atomsB, topAList, topBList, s);
        current' := current' + 1;
        var newAtom := a.(nr := current', cgnr := current');
        if AtomMerge.SameAtom(a, b) {
          content := content.(atoms := content.atoms + [newAtom]);
        } else if a.atom == b.atom && a.resnr == b.resnr {
          var changed := newAtom.(typeB := Some(b.atomType), massB := Some(b.mass), chargeB := Some(b.charge));
          content := content.(atoms := content.atoms + [changed]);
        } else {
          return Fail(CannotLink(a, b)), aIdx', bIdx', current', skip';
        }
        aIdx' := aIdx' + 1;
        bIdx' := bIdx' + 1;
        topAIdMap := topAIdMap[a.nr := current'];
        topBIdMap := topBIdMap[b.nr := current'];
      }
      return Pass, aIdx', bIdx', current', skip';
    }

    /** `_update_top_list`: a correspondence list rewritten into merged serials. */
    method UpdateTopList(oldList: seq<Option<int>>, mapping: map<int, int>)
      returns (r: Result<seq<Option<int>>, MergeError>)
      ensures r == IndexRemap.RemapList(oldList, mapping)
    {
      var newList: seq<Option<int>> := [];
      for i := 0 to |oldList|
        invariant IndexRemap.RemapList(oldList[..i], mapping) == Ok(newList)
      {
        var index := oldList[i];
        assert oldList[..i + 1][..i] == oldList[..i];
        if Truthy(index) {
          if index.value !in mapping {
            IndexRemap.PrefixError(oldList, mapping, i + 1);
            return Err(MissingMapping(index.value));
          }
          newList := newList + [Some(mapping[index.value])];
        } else {
          newList := newList + [None];
        }
      }
      assert oldList[..|oldList|] == oldList;
      return Ok(newList);
    }

    /**
     * `_merge_entries`: both sections renumbered and sorted, then walked
     * with two cursors, one merged entry appended per iteration.
     */
    method MergeEntries(ops: EntryOps, sectionA: seq<Entry>, sectionB: seq<Entry>)
      returns (r: Result<seq<Entry>, MergeError>)
      ensures r == EntryMerge.MergeEntriesOf(ops, sectionA, sectionB, topAIdMap, topBIdMap, aList, bList)
    {
      var entriesA := ops.sort(ops.updateIdx(sectionA, topAIdMap));
      var entriesB := ops.sort(ops.updateIdx(sectionB, topBIdMap));
      var aIdx := 0;
      var bIdx := 0;
      var out: seq<Entry> := [];
      ghost var goal := EntryMerge.EntryRun(ops, entriesA, entriesB, aList, bList, EntryMerge.START);
      while aIdx < |entriesA| || bIdx < |entriesB|
        invariant 0 <= aIdx && 0 <= bIdx
        invariant EntryMerge.EntryRun(ops, entriesA, entriesB, aList, bList, EntryMerge.EntryState(aIdx, bIdx, out))
                  == goal
        decreases EntryMerge.Remaining(|entriesA|, aIdx) + EntryMerge.Remaining(|entriesB|, bIdx)
      {
        ghost var step :=
          EntryMerge.EntryStep(ops, entriesA, entriesB, aList, bList, EntryMerge.EntryState(aIdx, bIdx, out));
        var entryA := EntryMerge.EntryAt(entriesA, aIdx);
        var entryB := EntryMerge.EntryAt(entriesB, bIdx);
        var newEntry := EntryMerge.MergeEntry(ops, entryA, entryB);
        if newEntry.Some? {
          aIdx := aIdx + 1;
          bIdx := bIdx + 1;
          out := out + [newEntry.value];
        } else if ops.idxLess(entryA.value, entryB.value) {
          aIdx := aIdx + 1;
          if ops.idxIn(entryA.value, aList) && ops.checkOtherList(entryA.value, aList, bList) {
            out := out + [entryA.value.(origin := FromTopology1)];
          } else {
            var dummy := EntryMerge.CreateDummy(ops, entryA, None);
            if dummy.Err? {
              return Err(dummy.error);
            }
            out := out + [dummy.value];
          }
        } else {
          bIdx := bIdx + 1;
          if ops.idxIn(entryB.value, bList) && ops.checkOtherList(entryB.value, bList, aList) {
            out := out + [entryB.value.(origin := FromTopology2)];
          } else {
            var dummy := EntryMerge.CreateDummy(ops, None, entryB);
            if dummy.Err? {
              return Err(dummy.error);
            }
            out := out + [dummy.value];
          }
        }
        assert step == Ok(EntryMerge.EntryState(aIdx, bIdx, out));
      }
      return Ok(out);
    }

    /** `_merge_bonds`. */
    method MergeBonds() returns (o: Outcome<MergeError>)
      modifies this`content
      ensures match SectionStep(In(), Bonds, old(Snapshot()))
              case Ok(m) => o == Pass && Snapshot() == m
              case Err(e) => o == Fail(e) && Snapshot() == old(Snapshot())
    {
      if topA.bonds.None? || topB.bonds.None? {
        return Fail(MissingSection("bonds"));
      }
      var r := MergeEntries(helpers(Bonds), topA.bonds.value, topB.bonds.value);
      if r.Err? {
        return Fail(r.error);
      }
      content := content.(bonds := r.value);
      return Pass;
    }

    /** `_merge_pairs`. */
    method MergePairs() returns (o: Outcome<MergeError>)
      modifies this`content
      ensures match SectionStep(In(), Pairs, old(Snapshot()))
              case Ok(m) => o == Pass && Snapshot() == m
              case Err(e) => o == Fail(e) && Snapshot() == old(Snapshot())
    {
      var r := MergeEntries(helpers(Pairs), Sections.OrEmpty(topA.pairs), Sections.OrEmpty(topB.pairs));
      if r.Err? {
        return Fail(r.error);
      }
      content := content.(pairs := r.value);
      return Pass;
    }

    /** `_merge_angles`. */
    method MergeAngles() returns (o: Outcome<MergeError>)
      modifies this`content
      ensures match SectionStep(In(), Angles, old(Snapshot()))
              case Ok(m) => o == Pass && Snapshot() == m
              case Err(e) => o == Fail(e) && Snapshot() == old(Snapshot())
    {
      var r := MergeEntries(helpers(Angles), Sections.OrEmpty(topA.angles), Sections.OrEmpty(topB.angles));
      if r.Err? {
        return Fail(r.error);
      }
      content := content.(angles := r.value);
      return Pass;
    }

    /** `_merge_dihedrals`. */
    method MergeDihedrals() returns (o: Outcome<MergeError>)
      modifies this`content
      ensures match SectionStep(In(), Dihedrals, old(Snapshot()))
              case Ok(m) => o == Pass && Snapshot() == m
              case Err(e) => o == Fail(e) && Snapshot() == old(Snapshot())
    {
      var r := MergeEntries(helpers(Dihedrals), Sections.OrEmpty(topA.dihedrals), Sections.OrEmpty(topB.dihedrals));
      if r.Err? {
        return Fail(r.error);
      }
      content := content.(dihedrals := r.value);
      return Pass;
    }

    /** `_merge_cmaps`. */
    method MergeCmaps() returns (o: Outcome<MergeError>)
      modifies this`content
      ensures match SectionStep(In(), Cmap, old(Snapshot()))
              case Ok(m) => o == Pass && Snapshot() == m
              case Err(e) => o == Fail(e) && Snapshot() == old(Snapshot())
    {
      if topA.cmap.Some? && topB.cmap.Some? {
        var r := MergeEntries(helpers(Cmap), topA.cmap.value, topB.cmap.value);
        if r.Err? {
          return Fail(r.error);
        }
        content := content.(cmap := Some(r.value));
      } else if topA.cmap.None? && topB.cmap.None? {
      } else {
        return Fail(CmapOneSided);
      }
      return Pass;
    }
  }
}
