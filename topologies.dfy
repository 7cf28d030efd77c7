/**
 * The parsed topology sections the merge reads and writes: atoms, bonded
 * entries, the molecule header, and the sections that are only compared.
 * Parsing, serialisation and the bodies of the per-entry helpers live in
 * alchemicalitp/field.py and alchemicalitp/entry.py, which are not part of
 * this model; the helpers appear here as the functions of an `EntryOps`
 * record whose assumed properties are stated where lemmas need them.
 */
module Topologies {
  import opened Results

  /** The type name given to the vanishing side of an appearing or disappearing atom. */
  const DUM: string := "DUM"

  /**
   * One line of the `atoms` section. `atomType`, `charge` and `mass` are the
   * state-A parameters; the `...B` fields are the state-B parameters, absent
   * on a freshly read atom. Charges and masses are only copied, compared and
   * set to zero, so exact reals stand for the source's floats.
   */
  datatype Atom = Atom(
    nr: int,
    atomType: string,
    resnr: int,
    residue: string,
    atom: string,
    cgnr: int,
    charge: real,
    mass: real,
    typeB: Option<string>,
    chargeB: Option<real>,
    massB: Option<real>)

  /** The parameter columns of a bonded entry, never interpreted by the merge. */
  type Params = seq<string>

  /**
   * Where a single-state entry came from: the merge marks the entries it
   * keeps without a dummy partner as coming from topology 1 or 2.
   */
  datatype Origin = Unmarked | FromTopology1 | FromTopology2

  /**
   * A bond, pair, angle, dihedral or cmap line: its atom serials, its
   * state-A parameters, its state-B parameters once combined, and its origin.
   */
  datatype Entry = Entry(idx: seq<int>, params: Params, paramsB: Option<Params>, origin: Origin)

  /** The directive contents that are only compared for equality and copied. */
  type Directive = seq<string>

  /** The `moleculetype` header; its comment lines are not modelled. */
  datatype Moleculetype = Moleculetype(name: string, nrexcl: int)

  /** The bonded sections, each with its own entry class in the source. */
  datatype Section = Bonds | Pairs | Angles | Dihedrals | Cmap

  /**
   * A parsed topology: its name and its content dictionary, one optional
   * field per section key.
   */
  datatype Topology = Topology(
    name: string,
    defaults: Option<Directive>,
    cmaptypes: Option<Directive>,
    moleculetype: Option<Moleculetype>,
    atoms: Option<seq<Atom>>,
    bonds: Option<seq<Entry>>,
    pairs: Option<seq<Entry>>,
    angles: Option<seq<Entry>>,
    dihedrals: Option<seq<Entry>>,
    cmap: Option<seq<Entry>>)

  /** The exceptions that abort a merge. */
  datatype MergeError =
    | DefaultsDiffer                        // the assert on `defaults` when both sides have dihedrals
    | CmapTypesChanged                      // NotImplementedError: both `cmaptypes` present but unequal
    | CmapTypesOneSided                     // NameError: `cmaptypes` present in one topology only
    | NrexclDiffers                         // the assert on the two `nrexcl` values
    | MissingSection(key: string)           // KeyError on a required content key
    | NotDeclared(position: int)            // ValueError from `list.index` on a correspondence list
    | NoPartnerSlot(slot: int)              // IndexError on the other correspondence list
    | NoSuchAtom(serial: int)               // the partner serial names no atom of topology B
    | NoAtomAtCursor                        // AttributeError: a cursor ran past its atom list
    | CannotLink(atomA: Atom, atomB: Atom)  // NameError: two undeclared atoms that do not match
    | MissingMapping(index: int)            // KeyError: a listed serial has no merged number
    | DummyFailed(entry: Entry)             // IndexError: no dummy partner could be built
    | CmapOneSided                          // AssertionError: `cmap` present in one topology only

  /**
   * The entry-class helpers of the source, one record per section:
   * `addStateB` combines an A entry with a B entry (a falsy result is None),
   * `idxLess` is the ordering used by the merge walk, `idxIn` and
   * `checkOtherList` are the alchemical-list membership tests, `createDummy`
   * builds a zero-strength partner, `updateIdx` rewrites serials through an
   * id map and `sort` orders a section.
   */
  datatype EntryOps = EntryOps(
    addStateB: (Entry, Entry) -> Option<Entry>,
    idxLess: (Entry, Entry) -> bool,
    idxIn: (Entry, seq<Option<int>>) -> bool,
    checkOtherList: (Entry, seq<Option<int>>, seq<Option<int>>) -> bool,
    createDummy: Entry -> Entry,
    updateIdx: (seq<Entry>, map<int, int>) -> seq<Entry>,
    sort: seq<Entry> -> seq<Entry>)

  /**
   * The assumed contract of the helpers that the index lemmas rely on:
   * `createDummy` keeps the serials, and `addStateB` yields a value only for
   * entries with the same serials, keeping them.
   */
  ghost predicate IndexPreserving(ops: EntryOps)
  {
    && (forall e :: ops.createDummy(e).idx == e.idx)
    && (forall a, b :: ops.addStateB(a, b).Some? ==> a.idx == b.idx && ops.addStateB(a, b).value.idx == a.idx)
  }

  /** Python truthiness of a correspondence-list slot: None and 0 are falsy. */
  predicate Truthy(x: Option<int>)
  {
    x.Some? && x.value != 0
  }
}
