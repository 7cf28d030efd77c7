# Alchemistry: merging two topologies into one dual-state topology

This project models `Alchemistry` from `alchemicalitp/state_A_B.py`. The class
builds one hybrid molecular topology ("state A to state B") from two parsed
topologies and two correspondence lists. The lists say which atom of A becomes
which atom of B, or that an atom appears or disappears.

The model has five modules:

- `Topologies` (`topologies.dfy`) holds the data model.
  - An `Atom` carries its A-state fields and optional B-state fields.
  - An `Entry` is a bonded line: atom serials, parameters, optional B parameters and an origin tag.
  - A `Topology` is the content dictionary, one optional field per section.
  - `MergeError` lists the exceptions that abort a merge.
  - `EntryOps` holds the entry-class helpers of `field.py` and `entry.py` as abstract functions.
- `AtomMerge` (`atom_merge.dfy`) models the atom reconciler `_merge_atoms`.
  One loop iteration is `AtomStep`, and the loop run to its end is `AtomRun`.
- `IndexRemap` (`index_remap.dfy`) models `_update_top_list` as `RemapList`.
- `EntryMerge` (`entry_merge.dfy`) models `_merge_entry` as `MergeEntry` and
  `create_dummy` as `CreateDummy`. One iteration of the two-cursor walk of
  `_merge_entries` is `EntryStep`, the walk run to its end is `EntryRun`, and
  the whole method is `MergeEntriesOf`.
- `Sections` (`sections.dfy`) models the per-section decisions.
  These cover `defaults`, `cmaptypes`, `moleculetype`, the required `bonds`,
  the optional `pairs`/`angles`/`dihedrals` and the jointly required `cmap`.
- `StateAB` (`state_ab.dfy`) models the constructor.
  - `Merge` runs the eleven modelled steps of the constructor as a pipeline (the two atomtypes
    steps are left out), and the first failing step aborts it.
  - `Alchemistry` is the imperative class. It has the source's fields (`content`,
    `topAIdMap`, `topBIdMap`, `aList`, `bList`). It has a method for each modelled
    source method except `_merge_entry` and `create_dummy`, which are functions in
    `EntryMerge`. Four more methods group the constructor's calls (`MergeHeader`,
    `Renumber`, `MergeTwoBody`, `MergeManyBody`), and `MergeNextAtom` is the body
    of the `_merge_atoms` loop.
  - The two-cursor `while` loops and the `for` loop of `_update_top_list` are
    proved to compute the specification functions above.

The model reproduces these behaviours of the code as written:

- Indexing past the end of an atom or entry list yields no atom (Python `None`).
  So once one entry section is exhausted, every remaining entry of the other
  section is appended as a copy tagged with its origin, and no dummy is built.
- The correspondence lookups of a declared atom use the cursor position plus
  one, not the atom's serial. `WellNumbered` states the numbering that
  `merge_comment` is relied on to produce. `SerialIsPosition`, `DeclaredAFound`
  and `DeclaredBFound` show that the two agree under it.
- `skip_state_B` receives B serials in one branch and post-increment cursor
  positions in another.
- The assertion at the end of `_merge_cmaps` is a chained comparison that can
  never hold. A `cmap` section in one topology only therefore always aborts
  the merge (`OneSidedCmapFails`).
- A declared A atom with a real partner never moves the B cursor. The
  `else: top_B_idx += 1` branch is unreachable, because the partner serial was
  read from `top_B_list` itself. So the B cursor stays put even for a partner
  that no earlier step consumed, and the model keeps that.

## Model

| member | source | states |
|---|---|---|
| `AtomMerge.AtomStep` | alchemicalitp/state_A_B.py:101-172 | one loop iteration moves each cursor by at most one, moves at least one, and keeps both within their lists |
| `AtomMerge.AtomRun` | alchemicalitp/state_A_B.py:101 | the loop ends only when both atom lists are consumed |
| `AtomMerge.IndexOf` | alchemicalitp/state_A_B.py:106 | `list.index`: the first slot holding the value, or none when the value is absent (a ValueError) |
| `AtomMerge.AtomBySerial` | alchemicalitp/state_A_B.py:125-127 | the B atom whose attributes are read has the requested serial; none when no atom has it |
| `AtomMerge.MergedAtomsNumbered` | alchemicalitp/state_A_B.py:91-172 | merged atoms get `nr == cgnr == 1..n` in append order; every A serial is mapped; id-map values are merged serials; \|A\| <= n <= \|A\|+\|B\| |
| `AtomMerge.DisappearingAtom` | alchemicalitp/state_A_B.py:105-116 | a declared A atom with no partner keeps A's state, gets type `DUM`, A's mass and zero charge as state B; only the A cursor moves and only the A id map is written |
| `AtomMerge.PairedAtom` | alchemicalitp/state_A_B.py:117-131 | a declared A atom with a partner takes the partner's type, mass and charge as state B; the B cursor stays; the partner serial is recorded as skipped; both id maps point at the new atom |
| `AtomMerge.AppearingAtom` | alchemicalitp/state_A_B.py:132-144 | a declared B atom whose A slot is None gets B's parameters as state B and type `DUM`, zero charge and unchanged mass as state A |
| `AtomMerge.SkippedAtom` | alchemicalitp/state_A_B.py:145-147 | a declared B atom with an A partner emits nothing, moves the B cursor and appends the post-increment position to `skip_state_B` |
| `AtomMerge.UndeclaredPair` | alchemicalitp/state_A_B.py:148-172 | an undeclared pair equal in all six fields gives one atom without B fields; same name and resnr gives B's type/mass/charge as state B; anything else is a NameError; both cursors move by one |
| `AtomMerge.ExhaustedUndeclared` | alchemicalitp/state_A_B.py:148-152 | an undeclared step with one list exhausted aborts on the missing atom |
| `AtomMerge.SerialIsPosition` | alchemicalitp/state_A_B.py:95-97 | when serials equal 1-based positions, lookup by serial is lookup by position |
| `AtomMerge.DeclaredAFound` | alchemicalitp/state_A_B.py:104-106 | under that numbering, a declared A atom is always found by its position, so the `list.index` lookup cannot fail |
| `AtomMerge.DeclaredBFound` | alchemicalitp/state_A_B.py:132-133 | under that numbering, a declared B atom is always found by its position, so the `list.index` lookup cannot fail |
| `AtomMerge.DeclaredAStep` | alchemicalitp/state_A_B.py:105-131 | a declared A atom: a cursor position + 1 absent from `top_A_list` is a ValueError; otherwise one atom is appended with A's state and serial `current + 1`, the A cursor and counter move, the B cursor stays, and the A id map points at the new atom |
| `AtomMerge.DeclaredBStep` | alchemicalitp/state_A_B.py:132-147 | a declared B atom: the A cursor and A id map stay and the B cursor moves; either an appearing atom with `DUM`/zero charge as state A is appended and mapped, or the position is recorded as skipped and nothing else changes |
| `AtomMerge.PlainStep` | alchemicalitp/state_A_B.py:148-172 | an undeclared pair succeeds exactly when both atoms exist with equal name and resnr; it then appends A's atom, with B's type/mass/charge as state B unless all six fields agree, and maps both serials |
| `AtomMerge.AtomsOf` | alchemicalitp/state_A_B.py:81-99 | `atoms` missing from a topology is an error; otherwise the completed loop numbers the merged atoms 1..n, maps every A serial, and gives \|A\| <= n <= \|A\|+\|B\| |
| `AtomMerge.SelfMerge` | alchemicalitp/state_A_B.py:148-159 | merging an atom list with itself under empty lists reproduces it (charge groups flattened) and maps every serial to itself |
| `IndexRemap.RemapListMeaning` | alchemicalitp/state_A_B.py:174-181 | the remapped list has the same length and order; a truthy slot becomes `mapping[index]`, a falsy one None; it fails exactly when a truthy slot is unmapped, naming the first one |
| `IndexRemap.IdentityRemap` | alchemicalitp/state_A_B.py:174-181 | remapping through a map that fixes every listed serial returns the list unchanged |
| `EntryMerge.MergeEntry` | alchemicalitp/state_A_B.py:183-192 | with one entry missing, a copy of the other tagged with its origin; with both, exactly what `add_stateB` yields for them; serials kept under tuple-preserving helpers |
| `EntryMerge.CreateDummy` | alchemicalitp/state_A_B.py:240-249 | succeeds exactly when `add_stateB` accepts the real entry and its dummy in the right order, and then yields that combination; the error names the real entry; serials kept under tuple-preserving helpers |
| `EntryMerge.Unmatched` | alchemicalitp/state_A_B.py:215-238 | an unmatched entry is kept tagged with its origin exactly when `idx_in` and `check_other_list` hold, and is otherwise the `create_dummy` result; it can fail only through the dummy |
| `EntryMerge.MergeEntriesOf` | alchemicalitp/state_A_B.py:193-238 | the merged section has between max(\|A\|,\|B\|) and \|A\|+\|B\| entries, its serial tuples are the union of both sections' under tuple-preserving helpers, and the only failure is a dummy |
| `EntryMerge.EntryStep` | alchemicalitp/state_A_B.py:207-238 | one iteration moves each cursor by at most one and strictly decreases the entries left |
| `EntryMerge.EntryRun` | alchemicalitp/state_A_B.py:207 | the walk ends only when both sections are consumed |
| `EntryMerge.StepShape` | alchemicalitp/state_A_B.py:207-238 | each iteration appends exactly one entry; a value from `_merge_entry` moves both cursors; the only failure is a dummy that cannot be built |
| `EntryMerge.MergedLength` | alchemicalitp/state_A_B.py:207-238 | a completed walk appends between max(\|A\|,\|B\|) and \|A\|+\|B\| entries |
| `EntryMerge.ExhaustedA` | alchemicalitp/state_A_B.py:183-214 | once section A is exhausted, every remaining B entry is appended as a copy tagged "topology 2", with no dummy |
| `EntryMerge.ExhaustedB` | alchemicalitp/state_A_B.py:183-214 | once section B is exhausted, every remaining A entry is appended as a copy tagged "topology 1", with no dummy |
| `EntryMerge.SelfMerge` | alchemicalitp/state_A_B.py:190-214 | a section merged with itself, when `add_stateB` combines each entry with itself, pairs every entry with its copy in order |
| `EntryMerge.MergedIndicesAreUnion` | alchemicalitp/state_A_B.py:193-238 | when the helpers keep serial tuples, the merged section's tuples are exactly the union of the two sections' tuples |
| `EntryMerge.UnmatchedEntry` | alchemicalitp/state_A_B.py:215-226 | an `idx_less` A entry is kept tagged "topology 1" when `idx_in` and `check_other_list` hold, and is otherwise paired with a dummy or fails |
| `EntryMerge.UnmatchedEntryB` | alchemicalitp/state_A_B.py:227-238 | the same rule for a B entry, tested on B's list against A's and tagged "topology 2" |
| `EntryMerge.DummyFailure` | alchemicalitp/state_A_B.py:240-249 | `create_dummy` raises an IndexError exactly when `add_stateB` refuses the entry and its dummy |
| `EntryMerge.DummyKeepsIndices` | alchemicalitp/state_A_B.py:240-247 | when the helpers keep serial tuples, a dummy pairing has the serials of the real entry |
| `Sections.DefaultsOf` | alchemicalitp/state_A_B.py:31-44 | `defaults` is set only when both have it; with dihedrals in both they must be equal (else an assertion error); otherwise the side with dihedrals wins |
| `Sections.DefaultsWithoutDihedrals` | alchemicalitp/state_A_B.py:42-44 | with dihedrals in neither topology, B's `defaults` are kept |
| `Sections.CmaptypesOf` | alchemicalitp/state_A_B.py:52-61 | succeeds exactly when the two `cmaptypes` agree (both absent included); unequal tables are NotImplementedError; a one-sided table is NameError |
| `Sections.CmaptypesSymmetric` | alchemicalitp/state_A_B.py:52-61 | swapping the topologies does not change the `cmaptypes` outcome |
| `Sections.MoleculetypeOf` | alchemicalitp/state_A_B.py:70-75 | both headers are required, `nrexcl` must be equal, and the merged header keeps that `nrexcl` |
| `Sections.MoleculeNameSplits` | alchemicalitp/state_A_B.py:72-74 | the merged molecule name is A's name, then "2", then B's name |
| `Sections.BondsOf` | alchemicalitp/state_A_B.py:252-257 | `bonds` must exist in both topologies; both sections are then merged by `_merge_entries` |
| `Sections.OptionalSectionOf` | alchemicalitp/state_A_B.py:259-297 | a section present in both is merged by `_merge_entries`; a section missing from both merges to nothing; one missing from one side leaves the other whole, renumbered, sorted and tagged with its origin; the only failure is a dummy |
| `Sections.CmapOf` | alchemicalitp/state_A_B.py:299-309 | `cmap` is merged by `_merge_entries` when in both, absent when in neither, and a one-sided `cmap` always fails |
| `Sections.OneSidedSectionKept` | alchemicalitp/state_A_B.py:259-297 | an optional section present in A only survives whole, every entry tagged "topology 1", with no dummy |
| `StateAB.Merge` | alchemicalitp/state_A_B.py:7-29 | the merged name joins the two names with "2"; failures of the `defaults`, `cmaptypes` and `moleculetype` steps abort the merge with that step's error, in that order |
| `StateAB.MergeSteps` | alchemicalitp/state_A_B.py:17-29 | a successful merge is the eleven modelled steps of the constructor (the two atomtypes steps are left out) in the constructor's order, each changing only the fields it owns |
| `StateAB.MergedHeader` | alchemicalitp/state_A_B.py:9-21 | the merged name joins the two names with "2", and the header directives are those the first steps compute |
| `StateAB.MergedRenumbering` | alchemicalitp/state_A_B.py:22-24 | the merged atoms and id maps are those of `_merge_atoms`, and the two lists are remapped through them |
| `StateAB.MergedSerials` | alchemicalitp/state_A_B.py:22-24 | atoms are numbered 1..n; every A atom is mapped; the remapped lists keep their length and hold merged serials exactly at truthy slots |
| `StateAB.MergedSections` | alchemicalitp/state_A_B.py:25-29 | each bonded section is merged with the final id maps and remapped lists |
| `StateAB.MergedBondsAreUnion` | alchemicalitp/state_A_B.py:25 | with tuple-preserving helpers, the merged bonds connect exactly the renumbered bonds of A and of B |
| `StateAB.MergeNeeds` | alchemicalitp/state_A_B.py:17-29 | a successful merge needs `atoms`, `bonds` and `moleculetype` in both with equal `nrexcl`, equal `cmaptypes`, and `cmap` in both or neither |
| `StateAB.OneSidedCmapFails` | alchemicalitp/state_A_B.py:306-309 | a `cmap` section in one topology only makes the whole merge fail |
| `StateAB.ConflictingDefaultsFail` | alchemicalitp/state_A_B.py:31-36 | different `defaults` with dihedrals on both sides stop the merge at its first step |
| `StateAB.Alchemistry.constructor` | alchemicalitp/state_A_B.py:7-29 | runs the merges in order and records the first exception; without one, the fields hold `Merge` of the arguments |
| `StateAB.Alchemistry.MergeHeader` | alchemicalitp/state_A_B.py:17-21 | the `defaults`, `cmaptypes` and `moleculetype` steps in order, stopping at the first failure |
| `StateAB.Alchemistry.Renumber` | alchemicalitp/state_A_B.py:22-24 | `_merge_atoms`, then both `_update_top_list` calls |
| `StateAB.Alchemistry.MergeTwoBody` | alchemicalitp/state_A_B.py:25-26 | the `bonds` and `pairs` merges in order |
| `StateAB.Alchemistry.MergeManyBody` | alchemicalitp/state_A_B.py:27-29 | the `angles`, `dihedrals` and `cmap` merges in order |
| `StateAB.Alchemistry.MergeDefaults` | alchemicalitp/state_A_B.py:31-44 | the new `content` is that of `DefaultsOf`, or unchanged on failure |
| `StateAB.Alchemistry.MergeCmaptypes` | alchemicalitp/state_A_B.py:52-61 | the new `content` is that of `CmaptypesOf`, or unchanged on failure |
| `StateAB.Alchemistry.CreateMoleculetype` | alchemicalitp/state_A_B.py:70-75 | the new `content` is that of `MoleculetypeOf`, or unchanged on failure |
| `StateAB.Alchemistry.MergeAtoms` | alchemicalitp/state_A_B.py:81-172 | the while loop leaves the atoms and both id maps equal to `AtomRun` from the start state |
| `StateAB.Alchemistry.MergeNextAtom` | alchemicalitp/state_A_B.py:102-172 | one loop body updates cursors, counter, skip list, atoms and id maps exactly as `AtomStep` |
| `StateAB.Alchemistry.UpdateTopList` | alchemicalitp/state_A_B.py:174-181 | the for loop returns `RemapList` of its arguments |
| `StateAB.Alchemistry.MergeEntries` | alchemicalitp/state_A_B.py:193-238 | the while loop returns the walk of `EntryRun` over both sections, renumbered and sorted |
| `StateAB.Alchemistry.MergeBonds` | alchemicalitp/state_A_B.py:252-257 | sets `bonds` to the merged section, or fails when a topology lacks it |
| `StateAB.Alchemistry.MergePairs` | alchemicalitp/state_A_B.py:259-270 | sets `pairs`, treating a missing section as empty |
| `StateAB.Alchemistry.MergeAngles` | alchemicalitp/state_A_B.py:272-283 | sets `angles`, treating a missing section as empty |
| `StateAB.Alchemistry.MergeDihedrals` | alchemicalitp/state_A_B.py:285-297 | sets `dihedrals`, treating a missing section as empty |
| `StateAB.Alchemistry.MergeCmaps` | alchemicalitp/state_A_B.py:299-309 | sets `cmap` when both have it, leaves it absent when neither has it, and fails otherwise |

## Left out

- `_merge_atomtypes` and `_add_dummy_atomtypes` (alchemicalitp/state_A_B.py:47-50 and :63-68) are not modelled. They are a set union and an append on the atom-type table, done by methods of `field.py`. The `warnings.warn` there only logs.
- The bodies of the helpers in `alchemicalitp/field.py` and `alchemicalitp/entry.py` are not part of this model. These are `merge_comment`, `update_idx`, `sort`, `add_stateB`, `idx_less`, `idx_in`, `check_other_list`, `create_dummy`, `remove_zero`, parsing and serialisation. The entry helpers are the abstract functions of `EntryOps`. Lemmas that need more of them say so in a `requires`: `IndexPreserving` says `create_dummy` keeps serials and `add_stateB` only combines equal serials.
- `atom_idx2attr` is modelled as a lookup of the first atom with the given serial, failing when there is none. Its real body is not part of this model.
- `remove_zero` on the inputs (:11-13) is not modelled. The topologies are taken as already stripped.
- Comment text is not modelled (:76-79, :128, :152, :186, :189, :219, :231). The merged header keeps no comments. An entry's origin tag stands for the "Entry from topology 1/2" comment. The `' to '.join` at :128 and :152 is kept only for its failure when a cursor atom is missing.
- Copying and aliasing are not modelled. `copy.copy`/`deepcopy` and the in-place `update_idx`/`sort` of the caller's sections (:194-200) become value transformations, so the model does not capture that the inputs are mutated.
- Charges and masses are Python floats. They are modelled as `real`, since they are only copied, compared with `==` and set to zero.
- The constructor's asserts (:36, :71, :309) are treated as failures. Running Python with `-O` would disable them, and that is not modelled.
- `StateAB.Alchemistry.MergeAtoms`: on failure it states only the error. It does not state the partial atoms and id maps that the aborted loop leaves behind.
