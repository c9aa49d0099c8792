/**
 * The debugging view of a lead (`get_lead_structure`): the lead dictionary
 * with the framework's bookkeeping fields deleted one by one.
 */
module LeadStructure {
  import opened Outcomes
  import opened LeadRecord

  /** The keys deleted from the dictionary, in the order the loop visits them. */
  const ExcludedFields: seq<string> := [
    "amended_from", "docstatus", "parent", "parentfield",
    "parenttype", "idx", "owner", "creation", "modified",
    "modified_by", "_user_tags", "__islocal", "__unsaved"]

  /** `del d[key]` when the key is present: every field under `key` goes, the rest keep their order. */
  function Delete(lead: Lead, key: string): (r: Lead)
    ensures forall f :: f in r <==> f in lead && f.key != key
    ensures |r| <= |lead|
  {
    if lead == [] then []
    else if lead[0].key == key then Delete(lead[1..], key)
    else [lead[0]] + Delete(lead[1..], key)
  }

  /** The fields whose keys are not among `keys`, in dictionary order. */
  function Without(lead: Lead, keys: seq<string>): (r: Lead)
    ensures forall f :: f in r <==> f in lead && f.key !in keys
  {
    if lead == [] then []
    else if lead[0].key in keys then Without(lead[1..], keys)
    else [lead[0]] + Without(lead[1..], keys)
  }

  /** Deleting one more key after some others is leaving out the longer list of keys. */
  lemma {:induction false} DeleteAfterWithout(lead: Lead, keys: seq<string>, key: string)
    ensures Delete(Without(lead, keys), key) == Without(lead, keys + [key])
  {
    if lead != [] {
      DeleteAfterWithout(lead[1..], keys, key);
      assert lead[0].key in keys + [key] <==> lead[0].key in keys || lead[0].key == key;
    }
  }

  /** Leaving out no keys leaves the dictionary as it is. */
  lemma {:induction false} WithoutNothing(lead: Lead)
    ensures Without(lead, []) == lead
  {
    if lead != [] {
      WithoutNothing(lead[1..]);
    }
  }

  /** The deletion loop of `get_lead_structure`: each key of `keys` deleted in turn. */
  method DeleteKeys(lead: Lead, keys: seq<string>) returns (r: Lead)
    ensures r == Without(lead, keys)
  {
    WithoutNothing(lead);
    r := lead;
    var i := 0;
    while i < |keys|
      invariant 0 <= i <= |keys|
      invariant r == Without(lead, keys[..i])
    {
      DeleteAfterWithout(lead, keys[..i], keys[i]);
      assert keys[..i] + [keys[i]] == keys[..i + 1];
      r := Delete(r, keys[i]);
      i := i + 1;
    }
    assert keys[..i] == keys;
  }

  /** No excluded key is left, and every other field is kept. */
  lemma StructureFields(lead: Lead)
    ensures forall f :: f in Without(lead, ExcludedFields) <==> f in lead && f.key !in ExcludedFields
  {
  }

  /** `xs` is `ys` with some items left out, the rest in the same order. */
  predicate IsSubsequence(xs: Lead, ys: Lead)
    decreases |ys|
  {
    xs == [] || (ys != [] && ((xs[0] == ys[0] && IsSubsequence(xs[1..], ys[1..])) || IsSubsequence(xs, ys[1..])))
  }

  /** The kept fields stay in dictionary order: the result is a subsequence of the lead. */
  lemma {:induction false} WithoutKeepsOrder(lead: Lead, keys: seq<string>)
    ensures IsSubsequence(Without(lead, keys), lead)
  {
    if lead != [] {
      WithoutKeepsOrder(lead[1..], keys);
      if lead[0].key !in keys {
        assert ([lead[0]] + Without(lead[1..], keys))[1..] == Without(lead[1..], keys);
      }
    }
  }

  datatype StructureReply = StructureFound(lead: Lead) | StructureFailed(message: string)

  /**
   * `get_lead_structure`: the lead with the bookkeeping fields removed, or
   * the failure message when loading the lead raises.
   */
  method GetLeadStructure(loaded: Result<Lead, string>) returns (reply: StructureReply)
    ensures loaded.Err? ==> reply == StructureFailed("Error getting lead structure: " + loaded.error)
    ensures loaded.Ok? ==> reply == StructureFound(Without(loaded.value, ExcludedFields))
  {
    match loaded {
      case Err(e) =>
        reply := StructureFailed("Error getting lead structure: " + e);
      case Ok(lead) =>
        var kept := DeleteKeys(lead, ExcludedFields);
        reply := StructureFound(kept);
    }
  }
}
