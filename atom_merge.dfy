/**
 * The atom reconciler of alchemicalitp/state_A_B.py (`_merge_atoms`), as a
 * step function over the loop's state and its run to completion. The class
 * method `StateAB.Alchemistry.MergeAtoms` is the loop itself, proved to
 * compute `AtomRun`.
 */
module AtomMerge {
  import opened Results
  import opened Topologies

  /**
   * The variables of the `_merge_atoms` loop: the two cursors, the running
   * counter, `skip_state_B`, the atoms emitted so far and the two id maps.
   * Cursors are integers because the source may move a cursor past the end
   * of its list.
   */
  datatype AtomState = AtomState(
    aIdx: int,
    bIdx: int,
    current: int,
    skip: seq<int>,
    atoms: seq<Atom>,
    aMap: map<int, int>,
    bMap: map<int, int>)

  /** The state before the first iteration. */
  const START: AtomState := AtomState(0, 0, 0, [], [], map[], map[])

  /** Indexing an atom list: past the end there is no atom (None). */
  function At(atoms: seq<Atom>, i: int): Option<Atom>
  {
    if 0 <= i < |atoms| then Some(atoms[i]) else None
  }

  /** An atom under a cursor whose serial is listed in a correspondence list. */
  predicate Declared(atom: Option<Atom>, list: seq<Option<int>>)
  {
    atom.Some? && Some(atom.value.nr) in list
  }

  /** Python's `list.index`: the first slot that holds `x`. */
  function IndexOf(list: seq<Option<int>>, x: int): (r: Option<nat>)
    ensures r.None? <==> Some(x) !in list
    ensures r.Some? ==> r.value < |list| && list[r.value] == Some(x)
    ensures r.Some? ==> forall k :: 0 <= k < r.value ==> list[k] != Some(x)
  {
    if |list| == 0 then None
    else if list[0] == Some(x) then Some(0)
    else match IndexOf(list[1..], x)
      case None => None
      case Some(k) => Some(k + 1)
  }

  /**
   * `atom_idx2attr` of topology B: the attributes of the atom with a given
   * serial, taken here as the first such atom (None when there is none).
   */
  function AtomBySerial(atoms: seq<Atom>, serial: int): (r: Option<Atom>)
    ensures r.Some? ==> r.value in atoms && r.value.nr == serial
    ensures r.None? ==> forall a :: a in atoms ==> a.nr != serial
  {
    if |atoms| == 0 then None
    else if atoms[0].nr == serial then Some(atoms[0])
    else AtomBySerial(atoms[1..], serial)
  }

  /** Serial numbers equal 1-based positions, as `merge_comment` arranges. */
  ghost predicate WellNumbered(atoms: seq<Atom>)
  {
    forall i :: 0 <= i < |atoms| ==> atoms[i].nr == i + 1
  }

  /** The six fields compared for an undeclared pair of atoms. */
  predicate SameAtom(a: Atom, b: Atom)
  {
    && a.atom == b.atom && a.charge == b.charge && a.mass == b.mass
    && a.residue == b.residue && a.resnr == b.resnr && a.atomType == b.atomType
  }

  /** A declared A atom (its cursor atom `a`) under the A cursor. */
  function DeclaredAStep(
    atomsB: seq<Atom>, topAList: seq<Option<int>>, topBList: seq<Option<int>>,
    s: AtomState, a: Atom, atomB: Option<Atom>): (r: Result<AtomState, MergeError>)
    // the position lookup of :106 and the partner slot must exist
    ensures IndexOf(topAList, s.aIdx + 1).None? ==> r == Err(NotDeclared(s.aIdx + 1))
    ensures r.Err? ==> r.error.NotDeclared? || r.error.NoPartnerSlot? || r.error.NoSuchAtom? || r.error.NoAtomAtCursor?
    // only the A cursor moves, and one atom is appended under the next number
    ensures r.Ok? ==> r.value.aIdx == s.aIdx + 1 && r.value.bIdx == s.bIdx && r.value.current == s.current + 1
    ensures r.Ok? ==> |r.value.atoms| == |s.atoms| + 1 && r.value.atoms[..|s.atoms|] == s.atoms
    // the new atom is A's atom renumbered, keeping its state A, with a state B set
    ensures r.Ok? ==> var x, n := r.value.atoms[|s.atoms|], s.current + 1;
                      && x == a.(nr := n, cgnr := n, typeB := x.typeB, massB := x.massB, chargeB := x.chargeB)
                      && x.typeB.Some? && x.massB.Some? && x.chargeB.Some?
    ensures r.Ok? ==> r.value.aMap == s.aMap[a.nr := s.current + 1]
  {
    match IndexOf(topAList, s.aIdx + 1)
    case None => Err(NotDeclared(s.aIdx + 1))
    case Some(k) =>
      if k >= |topBList| then Err(NoPartnerSlot(k))
      else
        var current := s.current + 1;
        var newAtom := a.(nr := current, cgnr := current);
        match topBList[k]
        case None =>
          Ok(s.(aIdx := s.aIdx + 1, current := current,
                atoms := s.atoms + [newAtom.(typeB := Some(DUM), massB := Some(a.mass), chargeB := Some(0.0))],
                aMap := s.aMap[a.nr := current]))
        case Some(bNr) =>
          // the last alternative is never taken: bNr was read from topBList
          var skip := if bNr in s.skip then s.skip else if Some(bNr) in topBList then s.skip + [bNr] else s.skip;
          var bIdx := if bNr in s.skip then s.bIdx else if Some(bNr) in topBList then s.bIdx else s.bIdx + 1;
          match AtomBySerial(atomsB, bNr)
          case None => Err(NoSuchAtom(bNr))
          case Some(partner) =>
            if atomB.None? then Err(NoAtomAtCursor)
            else
              Ok(AtomState(s.aIdx + 1, bIdx, current, skip,
                           s.atoms + [newAtom.(typeB := Some(partner.atomType), massB := Some(partner.mass),
                                               chargeB := Some(partner.charge))],
                           s.aMap[a.nr := current], s.bMap[bNr := current]))
  }

  /** A declared B atom `b` under the B cursor, the A cursor atom being undeclared. */
  function DeclaredBStep(
    topAList: seq<Option<int>>, topBList: seq<Option<int>>, s: AtomState, b: Atom): (r: Result<AtomState, MergeError>)
    ensures IndexOf(topBList, s.bIdx + 1).None? ==> r == Err(NotDeclared(s.bIdx + 1))
    ensures r.Err? ==> r.error.NotDeclared? || r.error.NoPartnerSlot?
    // only the B cursor moves, and topology A's id map is untouched
    ensures r.Ok? ==> r.value.aIdx == s.aIdx && r.value.bIdx == s.bIdx + 1 && r.value.aMap == s.aMap
    // either B's atom appears with a dummy state A, or nothing is emitted and the position is skipped
    ensures r.Ok? ==> var n := s.current + 1;
              || (&& r.value.current == n && r.value.skip == s.skip
                  && r.value.atoms == s.atoms + [b.(nr := n, cgnr := n, atomType := DUM, charge := 0.0,
                                                    typeB := Some(b.atomType), massB := Some(b.mass),
                                                    chargeB := Some(b.charge))]
                  && r.value.bMap == s.bMap[b.nr := n])
              || (&& r.value.current == s.current && r.value.skip == s.skip + [s.bIdx + 1]
                  && r.value.atoms == s.atoms && r.value.bMap == s.bMap)
  {
    match IndexOf(topBList, s.bIdx + 1)
    case None => Err(NotDeclared(s.bIdx + 1))
    case Some(k) =>
      if k >= |topAList| then Err(NoPartnerSlot(k))
      else if topAList[k].None? then
        var current := s.current + 1;
        var newAtom := b.(nr := current, cgnr := current, typeB := Some(b.atomType), massB := Some(b.mass),
                          chargeB := Some(b.charge), atomType := DUM, charge := 0.0);
        Ok(s.(bIdx := s.bIdx + 1, current := current, atoms := s.atoms + [newAtom], bMap := s.bMap[b.nr := current]))
      else
        Ok(s.(bIdx := s.bIdx + 1, skip := s.skip + [s.bIdx + 1]))
  }

  /** Two undeclared cursor atoms, matched one to one. */
  function PlainStep(s: AtomState, atomA: Option<Atom>, atomB: Option<Atom>): (r: Result<AtomState, MergeError>)
    // linking succeeds exactly for two atoms with the same name and residue number
    ensures r.Ok? <==> && atomA.Some? && atomB.Some?
                       && atomA.value.atom == atomB.value.atom && atomA.value.resnr == atomB.value.resnr
    ensures r.Err? && atomA.Some? && atomB.Some? ==> r.error == CannotLink(atomA.value, atomB.value)
    ensures r.Err? && (atomA.None? || atomB.None?) ==> r.error == NoAtomAtCursor
    // both cursors move; A's atom is renumbered, with B's parameters as state B unless all six fields agree
    ensures r.Ok? ==> var a, b, n := atomA.value, atomB.value, s.current + 1;
              && r.value == AtomState(s.aIdx + 1, s.bIdx + 1, n, s.skip, r.value.atoms,
                                      s.aMap[a.nr := n], s.bMap[b.nr := n])
              && r.value.atoms == s.atoms + [if SameAtom(a, b) then a.(nr := n, cgnr := n)
                                             else a.(nr := n, cgnr := n, typeB := Some(b.atomType),
                                                     massB := Some(b.mass), chargeB := Some(b.charge))]
  {
    if atomA.None? || atomB.None? then Err(NoAtomAtCursor)
    else
      var a := atomA.value;
      var b := atomB.value;
      var current := s.current + 1;
      var newAtom := a.(nr := current, cgnr := current);
      if SameAtom(a, b) then
        Ok(AtomState(s.aIdx + 1, s.bIdx + 1, current, s.skip, s.atoms + [newAtom],
                     s.aMap[a.nr := current], s.bMap[b.nr := current]))
      else if a.atom == b.atom && a.resnr == b.resnr then
        Ok(AtomState(s.aIdx + 1, s.bIdx + 1, current, s.skip,
                     s.atoms + [newAtom.(typeB := Some(b.atomType), massB := Some(b.mass), chargeB := Some(b.charge))],
                     s.aMap[a.nr := current], s.bMap[b.nr := current]))
      else Err(CannotLink(a, b))
  }

  /** Every entry of `m'` is an entry of `m` or maps to `n`, and no key of `m` is lost. */
  predicate MapGrows(m: map<int, int>, m': map<int, int>, n: int)
  {
    && m.Keys <= m'.Keys
    && forall k :: k in m' ==> m'[k] == n || (k in m && m'[k] == m[k])
  }

  /**
   * What one iteration does to the emitted atoms and the id maps: at most
   * one atom is appended, numbered with the incremented counter; every A
   * atom consumed emits one atom and nothing is emitted without consuming;
   * the id maps only gain entries holding the new number, only when an atom
   * is emitted, and a consumed A atom's serial is always mapped.
   */
  ghost predicate Shaped(atomsA: seq<Atom>, s: AtomState, t: AtomState)
    requires 0 <= s.aIdx
  {
    && t.current - s.current == |t.atoms| - |s.atoms| && 0 <= t.current - s.current <= 1
    && t.atoms[..|s.atoms|] == s.atoms
    && (t.current > s.current ==> t.atoms[|s.atoms|].nr == t.current && t.atoms[|s.atoms|].cgnr == t.current)
    && t.aIdx - s.aIdx <= |t.atoms| - |s.atoms| <= (t.aIdx - s.aIdx) + (t.bIdx - s.bIdx)
    && MapGrows(s.aMap, t.aMap, t.current) && MapGrows(s.bMap, t.bMap, t.current)
    && (t.current == s.current ==> t.aMap == s.aMap && t.bMap == s.bMap)
    && (t.aIdx > s.aIdx && s.aIdx < |atomsA| ==> atomsA[s.aIdx].nr in t.aMap && t.aMap[atomsA[s.aIdx].nr] == t.current)
  }

  lemma DeclaredAShaped(
    atomsA: seq<Atom>, atomsB: seq<Atom>, topAList: seq<Option<int>>, topBList: seq<Option<int>>, s: AtomState)
    requires 0 <= s.aIdx < |atomsA| && 0 <= s.bIdx <= |atomsB|
    ensures var r := DeclaredAStep(atomsB, topAList, topBList, s, atomsA[s.aIdx], At(atomsB, s.bIdx));
            r.Ok? ==> r.value.aIdx == s.aIdx + 1 && s.bIdx <= r.value.bIdx <= s.bIdx + 1 && Shaped(atomsA, s, r.value)
  {
  }

  lemma DeclaredBShaped(
    atomsA: seq<Atom>, topAList: seq<Option<int>>, topBList: seq<Option<int>>, s: AtomState, b: Atom)
    requires 0 <= s.aIdx
    ensures var r := DeclaredBStep(topAList, topBList, s, b);
            r.Ok? ==> r.value.aIdx == s.aIdx && r.value.bIdx == s.bIdx + 1 && Shaped(atomsA, s, r.value)
  {
  }

  lemma PlainShaped(atomsA: seq<Atom>, s: AtomState, atomA: Option<Atom>)
    requires 0 <= s.aIdx < |atomsA| && atomA == Some(atomsA[s.aIdx])
    ensures forall atomB :: var r := PlainStep(s, atomA, atomB);
              r.Ok? ==> r.value.aIdx == s.aIdx + 1 && r.value.bIdx == s.bIdx + 1 && Shaped(atomsA, s, r.value)
  {
  }

  /** Every iteration that passes is `Shaped`. */
  lemma StepShaped(
    atomsA: seq<Atom>, atomsB: seq<Atom>, topAList: seq<Option<int>>, topBList: seq<Option<int>>, s: AtomState)
    requires 0 <= s.aIdx <= |atomsA| && 0 <= s.bIdx <= |atomsB|
    requires s.aIdx < |atomsA| || s.bIdx < |atomsB|
    ensures var r := AtomStep(atomsA, atomsB, topAList, topBList, s);
            r.Ok? ==> Shaped(atomsA, s, r.value)
  {
    var atomA := At(atomsA, s.aIdx);
    var atomB := At(atomsB, s.bIdx);
    if Declared(atomA, topAList) {
      DeclaredAShaped(atomsA, atomsB, topAList, topBList, s);
    } else if Declared(atomB, topBList) {
      DeclaredBShaped(atomsA, topAList, topBList, s, atomB.value);
    } else if atomA.Some? {
      PlainShaped(atomsA, s, atomA);
    }
  }

  /** One iteration of the `_merge_atoms` loop. */
  function AtomStep(
    atomsA: seq<Atom>, atomsB: seq<Atom>, topAList: seq<Option<int>>, topBList: seq<Option<int>>,
    s: AtomState): (r: Result<AtomState, MergeError>)
    requires 0 <= s.aIdx <= |atomsA| && 0 <= s.bIdx <= |atomsB|
    requires s.aIdx < |atomsA| || s.bIdx < |atomsB|
    // each cursor moves by at most one, at least one moves, neither passes its end
    ensures r.Ok? ==> s.aIdx <= r.value.aIdx <= s.aIdx + 1 && s.bIdx <= r.value.bIdx <= s.bIdx + 1
    ensures r.Ok? ==> s.aIdx + s.bIdx < r.value.aIdx + r.value.bIdx
    ensures r.Ok? ==> r.value.aIdx <= |atomsA| && r.value.bIdx <= |atomsB|
  {
    var atomA := At(atomsA, s.aIdx);
    var atomB := At(atomsB, s.bIdx);
    if Declared(atomA, topAList) then DeclaredAStep(atomsB, topAList, topBList, s, atomA.value, atomB)
    else if Declared(atomB, topBList) then DeclaredBStep(topAList, topBList, s, atomB.value)
    else PlainStep(s, atomA, atomB)
  }

  /** The `_merge_atoms` loop run from state `s` until both cursors reach their ends. */
  function AtomRun(
    atomsA: seq<Atom>, atomsB: seq<Atom>, topAList: seq<Option<int>>, topBList: seq<Option<int>>,
    s: AtomState): (r: Result<AtomState, MergeError>)
    requires 0 <= s.aIdx <= |atomsA| && 0 <= s.bIdx <= |atomsB|
    ensures r.Ok? ==> r.value.aIdx == |atomsA| && r.value.bIdx == |atomsB|
    decreases |atomsA| - s.aIdx + |atomsB| - s.bIdx
  {
    if s.aIdx < |atomsA| || s.bIdx < |atomsB| then
      match AtomStep(atomsA, atomsB, topAList, topBList, s)
      case Err(e) => Err(e)
      case Ok(t) => AtomRun(atomsA, atomsB, topAList, topBList, t)
    else Ok(s)
  }

  /** One unfolding of the run: a failing iteration ends it, a passing one continues from its state. */
  lemma RunUnfold(
    atomsA: seq<Atom>, atomsB: seq<Atom>, topAList: seq<Option<int>>, topBList: seq<Option<int>>, s: AtomState)
    requires 0 <= s.aIdx <= |atomsA| && 0 <= s.bIdx <= |atomsB|
    requires s.aIdx < |atomsA| || s.bIdx < |atomsB|
    ensures var r := AtomStep(atomsA, atomsB, topAList, topBList, s);
            && (r.Err? ==> AtomRun(atomsA, atomsB, topAList, topBList, s) == Err(r.error))
            && (r.Ok? ==> AtomRun(atomsA, atomsB, topAList, topBList, s)
                            == AtomRun(atomsA, atomsB, topAList, topBList, r.value))
  {
  }

  /** `_merge_atoms` on two topologies: both need an `atoms` section. */
  function AtomsOf(topA: Topology, topB: Topology, topAList: seq<Option<int>>, topBList: seq<Option<int>>)
    : (r: Result<AtomState, MergeError>)
    ensures topA.atoms.None? || topB.atoms.None? ==> r == Err(MissingSection("atoms"))
    ensures r.Ok? ==> var atomsA, atomsB, atoms := topA.atoms.value, topB.atoms.value, r.value.atoms;
              && topA.atoms.Some? && topB.atoms.Some?
              && (forall i :: 0 <= i < |atoms| ==> atoms[i].nr == i + 1 && atoms[i].cgnr == i + 1)
              && (forall i :: 0 <= i < |atomsA| ==> atomsA[i].nr in r.value.aMap)
              && (forall k :: k in r.value.aMap ==> 1 <= r.value.aMap[k] <= |atoms|)
              && (forall k :: k in r.value.bMap ==> 1 <= r.value.bMap[k] <= |atoms|)
              && |atomsA| <= |atoms| <= |atomsA| + |atomsB|
  {
    if topA.atoms.None? || topB.atoms.None? then Err(MissingSection("atoms"))
    else
      MergedAtomsNumbered(topA.atoms.value, topB.atoms.value, topAList, topBList);
      AtomRun(topA.atoms.value, topB.atoms.value, topAList, topBList, START)
  }

  /**
   * What every state reached from START satisfies: atoms numbered 1..n in
   * append order with `nr == cgnr`, id-map values within 1..n, one atom per
   * consumed A atom and at most one per consumed atom, and every consumed A
   * serial mapped.
   */
  ghost predicate Consistent(atomsA: seq<Atom>, s: AtomState)
  {
    && 0 <= s.aIdx <= |atomsA|
    && s.current == |s.atoms|
    && (forall i :: 0 <= i < |s.atoms| ==> s.atoms[i].nr == i + 1 && s.atoms[i].cgnr == i + 1)
    && (forall k :: k in s.aMap ==> 1 <= s.aMap[k] <= s.current)
    && (forall k :: k in s.bMap ==> 1 <= s.bMap[k] <= s.current)
    && s.aIdx <= |s.atoms| <= s.aIdx + s.bIdx
    && (forall i :: 0 <= i < s.aIdx ==> atomsA[i].nr in s.aMap)
  }

  lemma StepKeepsConsistent(
    atomsA: seq<Atom>, atomsB: seq<Atom>, topAList: seq<Option<int>>, topBList: seq<Option<int>>, s: AtomState)
    requires 0 <= s.aIdx <= |atomsA| && 0 <= s.bIdx <= |atomsB|
    requires s.aIdx < |atomsA| || s.bIdx < |atomsB|
    requires Consistent(atomsA, s)
    ensures AtomStep(atomsA, atomsB, topAList, topBList, s).Ok? ==>
              Consistent(atomsA, AtomStep(atomsA, atomsB, topAList, topBList, s).value)
  {
    var r := AtomStep(atomsA, atomsB, topAList, topBList, s);
    StepShaped(atomsA, atomsB, topAList, topBList, s);
    if r.Ok? {
      var t := r.value;
      forall i | 0 <= i < |t.atoms|
        ensures t.atoms[i].nr == i + 1 && t.atoms[i].cgnr == i + 1
      {
        if i < |s.atoms| {
          assert t.atoms[i] == t.atoms[..|s.atoms|][i];
        }
      }
      forall i | 0 <= i < t.aIdx
        ensures atomsA[i].nr in t.aMap
      {
        if i < s.aIdx {
          assert atomsA[i].nr in s.aMap;
        }
      }
    }
  }

  /** Running the loop keeps `Consistent` and ends with both lists consumed. */
  lemma {:induction false} RunKeepsConsistent(
    atomsA: seq<Atom>, atomsB: seq<Atom>, topAList: seq<Option<int>>, topBList: seq<Option<int>>, s: AtomState)
    requires 0 <= s.aIdx <= |atomsA| && 0 <= s.bIdx <= |atomsB|
    requires Consistent(atomsA, s)
    ensures AtomRun(atomsA, atomsB, topAList, topBList, s).Ok? ==>
              Consistent(atomsA, AtomRun(atomsA, atomsB, topAList, topBList, s).value)
    decreases |atomsA| - s.aIdx + |atomsB| - s.bIdx
  {
    if s.aIdx < |atomsA| || s.bIdx < |atomsB| {
      StepKeepsConsistent(atomsA, atomsB, topAList, topBList, s);
      var r := AtomStep(atomsA, atomsB, topAList, topBList, s);
      if r.Ok? {
        RunKeepsConsistent(atomsA, atomsB, topAList, topBList, r.value);
      }
    }
  }

  /**
   * The merged atoms are numbered 1..n contiguously in append order, with
   * charge group equal to serial; every A serial is mapped; every id-map
   * value is a merged serial; and |A| <= n <= |A| + |B|.
   */
  lemma MergedAtomsNumbered(
    atomsA: seq<Atom>, atomsB: seq<Atom>, topAList: seq<Option<int>>, topBList: seq<Option<int>>)
    ensures var r := AtomRun(atomsA, atomsB, topAList, topBList, START);
            r.Ok? ==>
              && (forall i :: 0 <= i < |r.value.atoms| ==>
                    r.value.atoms[i].nr == i + 1 && r.value.atoms[i].cgnr == i + 1)
              && (forall i :: 0 <= i < |atomsA| ==> atomsA[i].nr in r.value.aMap)
              && (forall k :: k in r.value.aMap ==> 1 <= r.value.aMap[k] <= |r.value.atoms|)
              && (forall k :: k in r.value.bMap ==> 1 <= r.value.bMap[k] <= |r.value.atoms|)
              && |atomsA| <= |r.value.atoms| <= |atomsA| + |atomsB|
  {
    RunKeepsConsistent(atomsA, atomsB, topAList, topBList, START);
  }

  /** A declared A atom whose partner slot is None disappears: state B becomes a dummy. */
  lemma DisappearingAtom(
    atomsA: seq<Atom>, atomsB: seq<Atom>, topAList: seq<Option<int>>, topBList: seq<Option<int>>,
    s: AtomState, k: nat)
    requires 0 <= s.aIdx < |atomsA| && 0 <= s.bIdx <= |atomsB|
    requires Some(atomsA[s.aIdx].nr) in topAList
    requires IndexOf(topAList, s.aIdx + 1) == Some(k) && k < |topBList| && topBList[k].None?
    ensures var a, n := atomsA[s.aIdx], s.current + 1;
            AtomStep(atomsA, atomsB, topAList, topBList, s)
              == Ok(s.(aIdx := s.aIdx + 1, current := n,
                       atoms := s.atoms + [a.(nr := n, cgnr := n, typeB := Some(DUM), massB := Some(a.mass),
                                              chargeB := Some(0.0))],
                       aMap := s.aMap[a.nr := n]))
  {
  }

  /**
   * A declared A atom with partner serial `bNr`: state B takes the partner's
   * type, mass and charge, only the A cursor moves, `bNr` is remembered as
   * consumed, and both id maps point at the new atom.
   */
  lemma PairedAtom(
    atomsA: seq<Atom>, atomsB: seq<Atom>, topAList: seq<Option<int>>, topBList: seq<Option<int>>,
    s: AtomState, k: nat, bNr: int, partner: Atom)
    requires 0 <= s.aIdx < |atomsA| && 0 <= s.bIdx < |atomsB|
    requires Some(atomsA[s.aIdx].nr) in topAList
    requires IndexOf(topAList, s.aIdx + 1) == Some(k) && k < |topBList| && topBList[k] == Some(bNr)
    requires AtomBySerial(atomsB, bNr) == Some(partner)
    ensures var a, n := atomsA[s.aIdx], s.current + 1;
            AtomStep(atomsA, atomsB, topAList, topBList, s)
              == Ok(AtomState(s.aIdx + 1, s.bIdx, n, if bNr in s.skip then s.skip else s.skip + [bNr],
                              s.atoms + [a.(nr := n, cgnr := n, typeB := Some(partner.atomType),
                                            massB := Some(partner.mass), chargeB := Some(partner.charge))],
                              s.aMap[a.nr := n], s.bMap[bNr := n]))
  {
  }

  /** A declared B atom whose A slot is None appears: state A becomes a dummy with zero charge, mass kept. */
  lemma AppearingAtom(
    atomsA: seq<Atom>, atomsB: seq<Atom>, topAList: seq<Option<int>>, topBList: seq<Option<int>>,
    s: AtomState, k: nat)
    requires 0 <= s.aIdx <= |atomsA| && 0 <= s.bIdx < |atomsB|
    requires !Declared(At(atomsA, s.aIdx), topAList) && Some(atomsB[s.bIdx].nr) in topBList
    requires IndexOf(topBList, s.bIdx + 1) == Some(k) && k < |topAList| && topAList[k].None?
    ensures var b, n := atomsB[s.bIdx], s.current + 1;
            AtomStep(atomsA, atomsB, topAList, topBList, s)
              == Ok(s.(bIdx := s.bIdx + 1, current := n,
                       atoms := s.atoms + [b.(nr := n, cgnr := n, atomType := DUM, charge := 0.0,
                                              typeB := Some(b.atomType), massB := Some(b.mass),
                                              chargeB := Some(b.charge))],
                       bMap := s.bMap[b.nr := n]))
  {
  }

  /** A declared B atom with an A partner emits nothing; its post-increment position joins `skip`. */
  lemma SkippedAtom(
    atomsA: seq<Atom>, atomsB: seq<Atom>, topAList: seq<Option<int>>, topBList: seq<Option<int>>,
    s: AtomState, k: nat)
    requires 0 <= s.aIdx <= |atomsA| && 0 <= s.bIdx < |atomsB|
    requires !Declared(At(atomsA, s.aIdx), topAList) && Some(atomsB[s.bIdx].nr) in topBList
    requires IndexOf(topBList, s.bIdx + 1) == Some(k) && k < |topAList| && topAList[k].Some?
    ensures AtomStep(atomsA, atomsB, topAList, topBList, s)
              == Ok(s.(bIdx := s.bIdx + 1, skip := s.skip + [s.bIdx + 1]))
  {
  }

  /**
   * Two undeclared atoms: identical in all six fields gives A's atom
   * renumbered; same name and residue number gives B's parameters as state
   * B; anything else is a NameError. Both cursors move by one.
   */
  lemma UndeclaredPair(
    atomsA: seq<Atom>, atomsB: seq<Atom>, topAList: seq<Option<int>>, topBList: seq<Option<int>>, s: AtomState)
    requires 0 <= s.aIdx < |atomsA| && 0 <= s.bIdx < |atomsB|
    requires Some(atomsA[s.aIdx].nr) !in topAList && Some(atomsB[s.bIdx].nr) !in topBList
    ensures var a, b, n := atomsA[s.aIdx], atomsB[s.bIdx], s.current + 1;
            var r := AtomStep(atomsA, atomsB, topAList, topBList, s);
            && (SameAtom(a, b) ==>
                  r == Ok(AtomState(s.aIdx + 1, s.bIdx + 1, n, s.skip, s.atoms + [a.(nr := n, cgnr := n)],
                                    s.aMap[a.nr := n], s.bMap[b.nr := n])))
            && (!SameAtom(a, b) && a.atom == b.atom && a.resnr == b.resnr ==>
                  r == Ok(AtomState(s.aIdx + 1, s.bIdx + 1, n, s.skip,
                                    s.atoms + [a.(nr := n, cgnr := n, typeB := Some(b.atomType), massB := Some(b.mass),
                                                  chargeB := Some(b.charge))],
                                    s.aMap[a.nr := n], s.bMap[b.nr := n])))
            && (a.atom != b.atom || a.resnr != b.resnr ==> r == Err(CannotLink(a, b)))
  {
  }

  /** An undeclared pair with one cursor past its end aborts (an attribute of None). */
  lemma ExhaustedUndeclared(
    atomsA: seq<Atom>, atomsB: seq<Atom>, topAList: seq<Option<int>>, topBList: seq<Option<int>>, s: AtomState)
    requires 0 <= s.aIdx <= |atomsA| && 0 <= s.bIdx <= |atomsB|
    requires s.aIdx < |atomsA| || s.bIdx < |atomsB|
    requires s.aIdx == |atomsA| || s.bIdx == |atomsB|
    requires !Declared(At(atomsA, s.aIdx), topAList) && !Declared(At(atomsB, s.bIdx), topBList)
    ensures AtomStep(atomsA, atomsB, topAList, topBList, s) == Err(NoAtomAtCursor)
  {
  }

  /** With serials equal to positions, lookup by serial is lookup by position. */
  lemma SerialIsPosition(atoms: seq<Atom>, serial: int)
    requires WellNumbered(atoms)
    ensures AtomBySerial(atoms, serial) == At(atoms, serial - 1)
  {
    SerialFrom(atoms, serial, 1);
  }

  /** Lookup by serial in a list numbered consecutively from `first`. */
  lemma {:induction false} SerialFrom(atoms: seq<Atom>, serial: int, first: int)
    requires forall i :: 0 <= i < |atoms| ==> atoms[i].nr == i + first
    ensures AtomBySerial(atoms, serial) == At(atoms, serial - first)
    decreases |atoms|
  {
    if |atoms| > 0 && atoms[0].nr != serial {
      forall i | 0 <= i < |atoms| - 1 ensures atoms[1..][i].nr == i + first + 1 { }
      SerialFrom(atoms[1..], serial, first + 1);
    }
  }

  /** The id map of a self merge: each serial 1..n maps to itself. */
  function Identity(n: int): (m: map<int, int>)
    ensures forall k :: k in m <==> 1 <= k <= n
    ensures forall k :: k in m ==> m[k] == k
    decreases n
  {
    if n <= 0 then map[] else Identity(n - 1)[n := n]
  }

  /** Self merge from an intermediate state. */
  lemma {:induction false} SelfMergeFrom(atoms: seq<Atom>, s: AtomState)
    requires WellNumbered(atoms)
    requires 0 <= s.aIdx <= |atoms| && s.bIdx == s.aIdx && s.current == s.aIdx && |s.atoms| == s.aIdx
    requires forall i :: 0 <= i < s.aIdx ==> s.atoms[i] == atoms[i].(cgnr := i + 1)
    requires s.aMap == Identity(s.aIdx) && s.bMap == Identity(s.aIdx)
    ensures var r := AtomRun(atoms, atoms, [], [], s);
            && r.Ok?
            && |r.value.atoms| == |atoms|
            && (forall i :: 0 <= i < |atoms| ==> r.value.atoms[i] == atoms[i].(cgnr := i + 1))
            && r.value.aMap == Identity(|atoms|) && r.value.bMap == Identity(|atoms|)
    decreases |atoms| - s.aIdx
  {
    if s.aIdx < |atoms| {
      var a := atoms[s.aIdx];
      var n := s.aIdx + 1;
      assert a.nr == n;
      var t := AtomState(n, n, n, s.skip, s.atoms + [a.(cgnr := n)], Identity(n), Identity(n));
      assert s.aMap[a.nr := n] == Identity(n);
      assert a.(nr := n, cgnr := n) == a.(cgnr := n);
      assert AtomStep(atoms, atoms, [], [], s) == Ok(t);
      SelfMergeFrom(atoms, t);
    }
  }

  /**
   * Merging a well-numbered atom list with itself, with empty correspondence
   * lists, reproduces the list (charge groups flattened to serials) and maps
   * every serial to itself in both id maps.
   */
  lemma SelfMerge(atoms: seq<Atom>)
    requires WellNumbered(atoms)
    ensures var r := AtomRun(atoms, atoms, [], [], START);
            && r.Ok?
            && |r.value.atoms| == |atoms|
            && (forall i :: 0 <= i < |atoms| ==> r.value.atoms[i] == atoms[i].(cgnr := i + 1))
            && r.value.aMap == Identity(|atoms|) && r.value.bMap == Identity(|atoms|)
  {
    SelfMergeFrom(atoms, START);
  }

  /**
   * With serials equal to positions, an A atom found in the correspondence
   * list by its serial is also found by the position `_merge_atoms` looks
   * up, so the `list.index` lookup of a declared A atom cannot fail.
   */
  lemma DeclaredAFound(atomsA: seq<Atom>, topAList: seq<Option<int>>, i: int)
    requires WellNumbered(atomsA)
    requires Declared(At(atomsA, i), topAList)
    ensures IndexOf(topAList, i + 1).Some?
    ensures topAList[IndexOf(topAList, i + 1).value] == Some(atomsA[i].nr)
  {
  }

  /**
   * The same for B: with serials equal to positions, a declared B atom is
   * found by the position that `_merge_atoms` looks up.
   */
  lemma DeclaredBFound(atomsB: seq<Atom>, topBList: seq<Option<int>>, i: int)
    requires WellNumbered(atomsB)
    requires Declared(At(atomsB, i), topBList)
    ensures IndexOf(topBList, i + 1).Some?
    ensures topBList[IndexOf(topBList, i + 1).value] == Some(atomsB[i].nr)
  {
  }
}
