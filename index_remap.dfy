/**
 * `_update_top_list` of alchemicalitp/state_A_B.py: a correspondence list
 * rewritten through an id map into merged serials. The loop itself is
 * `StateAB.Alchemistry.UpdateTopList`, proved to compute `RemapList`.
 */
module IndexRemap {
  import opened Results
  import opened Topologies

  /** The list rewritten slot by slot, in the order `_update_top_list` visits it. */
  function RemapList(list: seq<Option<int>>, mapping: map<int, int>): Result<seq<Option<int>>, MergeError>
    decreases |list|
  {
    if list == [] then Ok([])
    else
      var last := list[|list| - 1];
      match RemapList(list[..|list| - 1], mapping)
      case Err(e) => Err(e)
      case Ok(prefix) =>
        if !Truthy(last) then Ok(prefix + [None])
        else if last.value in mapping then Ok(prefix + [Some(mapping[last.value])])
        else Err(MissingMapping(last.value))
  }

  /**
   * The remapped list: each truthy slot becomes its merged serial, each
   * falsy slot (None or 0) becomes None; the first truthy slot missing from
   * the map aborts with a KeyError.
   */
  lemma {:induction false} RemapListMeaning(list: seq<Option<int>>, mapping: map<int, int>)
    ensures var r := RemapList(list, mapping);
            && (r.Ok? <==> forall i :: 0 <= i < |list| && Truthy(list[i]) ==> list[i].value in mapping)
            && (r.Ok? ==> |r.value| == |list|)
            && (r.Ok? ==> forall i :: 0 <= i < |list| ==>
                            r.value[i] == if Truthy(list[i]) then Some(mapping[list[i].value]) else None)
            && (r.Err? ==> r.error == MissingMapping(list[FirstUnmapped(list, mapping)].value))
    decreases |list|
  {
    if list != [] {
      var n := |list| - 1;
      var prefix := list[..n];
      RemapListMeaning(prefix, mapping);
      assert forall i :: 0 <= i < n ==> prefix[i] == list[i];
    }
  }

  /**
   * The position of the first truthy slot missing from the map, or the
   * length of the list when there is none.
   */
  function FirstUnmapped(list: seq<Option<int>>, mapping: map<int, int>): (i: nat)
    ensures i <= |list|
    ensures forall j :: 0 <= j < i ==> !Truthy(list[j]) || list[j].value in mapping
    ensures i < |list| ==> Truthy(list[i]) && list[i].value !in mapping
    decreases |list|
  {
    if list == [] then 0
    else
      var n := |list| - 1;
      var p := FirstUnmapped(list[..n], mapping);
      if p < n then p
      else if Truthy(list[n]) && list[n].value !in mapping then n
      else |list|
  }

  /** An error on a prefix is the error on the whole list. */
  lemma PrefixError(list: seq<Option<int>>, mapping: map<int, int>, n: nat)
    requires n <= |list|
    requires RemapList(list[..n], mapping).Err?
    ensures RemapList(list, mapping) == RemapList(list[..n], mapping)
  {
    RemapListMeaning(list, mapping);
    RemapListMeaning(list[..n], mapping);
    var p := list[..n];
    var i := FirstUnmapped(p, mapping);
    var j := FirstUnmapped(list, mapping);
    assert i < n;
    assert p[i] == list[i];
    assert j <= i;
    assert forall k :: 0 <= k < n ==> p[k] == list[k];
    assert i == j;
  }

  /** Remapping through the identity map of `Truthy` slots returns the list itself. */
  lemma IdentityRemap(list: seq<Option<int>>, mapping: map<int, int>)
    requires forall i :: 0 <= i < |list| && Truthy(list[i]) ==>
               list[i].value in mapping && mapping[list[i].value] == list[i].value
    requires forall i :: 0 <= i < |list| ==> list[i] != Some(0)
    ensures RemapList(list, mapping) == Ok(list)
  {
    RemapListMeaning(list, mapping);
    var r := RemapList(list, mapping);
    assert r.Ok?;
    assert |r.value| == |list|;
    forall i | 0 <= i < |list| ensures r.value[i] == list[i] { }
    assert r.value == list;
  }
}
