/**
  What the flattener promises about the dict it builds for one raw result:
  which keys appear, in which order, holding which tensor with which padding.
  The reference is `Expected`, a table by key that does not depend on the
  order of insertion, and `Collect`, which lists that table's entries in a
  given key order. `FieldsOfCollected` proves the flat dict is the table
  listed in KeyOrder; the lemmas after it draw the consequences.
 */
module FlattenFacts {
  import opened Wrappers
  import opened TensorFields
  import opened Flatten

  /**
    The field each key holds, read off the raw result: the attribute the key
    names, padded as PaddingOf says; None when the part or the attribute is absent.
   */
  function Expected(raw: RawResult, k: FieldKey): (r: Option<TensorField>)
    ensures r.Some? <==> Emitted(raw, k)
    ensures r.Some? ==> r.value.padding == PaddingOf(k)
  {
    var inst := raw.instances;
    var prop := raw.proposals;
    var pan := raw.panopticSeg;
    var pad := PaddingOf(k);
    match k
    case InstancesPredBoxes => if inst.Some? then Wrap(BoxesTensor(inst.value.predBoxes), pad) else None
    case InstancesScores => if inst.Some? then Wrap(inst.value.scores, pad) else None
    case InstancesPredClasses => if inst.Some? then Wrap(inst.value.predClasses, pad) else None
    case InstancesPredMasks => if inst.Some? then Wrap(inst.value.predMasks, pad) else None
    case InstancesPredKeypoints => if inst.Some? then Wrap(inst.value.predKeypoints, pad) else None
    case SemSeg => Wrap(raw.semSeg, pad)
    case ProposalsProposalBoxes => if prop.Some? then Wrap(BoxesTensor(prop.value.proposalBoxes), pad) else None
    case ProposalsObjectnessLogits => if prop.Some? then Wrap(prop.value.objectnessLogits, pad) else None
    case PanopticSeg => if pan.Some? then Some(TensorField(Raw(pan.value.labels), pad)) else None
    case PanopticIds =>
      if pan.Some? then Some(TensorField(Int32Vector(Ids(pan.value.segments)), pad)) else None
    case PanopticIsthings =>
      if pan.Some? then Some(TensorField(BoolVector(IsThings(pan.value.segments)), pad)) else None
    case PanopticCategoryIds =>
      if pan.Some? then Some(TensorField(Int32Vector(CategoryIds(pan.value.segments)), pad)) else None
  }

  /** The table's entries for the keys `ks`, in the order of `ks`. */
  function Collect(ks: seq<FieldKey>, raw: RawResult): Fields
  {
    if ks == [] then [] else EntryIf(ks[0], Expected(raw, ks[0])) + Collect(ks[1..], raw)
  }

  /** The keys of `ks` that `raw` yields, in the order of `ks`. */
  function Selected(ks: seq<FieldKey>, raw: RawResult): seq<FieldKey>
  {
    if ks == [] then [] else (if Emitted(raw, ks[0]) then [ks[0]] else []) + Selected(ks[1..], raw)
  }

  lemma {:induction false} CollectAppend(a: seq<FieldKey>, b: seq<FieldKey>, raw: RawResult)
    ensures Collect(a + b, raw) == Collect(a, raw) + Collect(b, raw)
  {
    if a == [] {
      assert a + b == b;
    } else {
      assert (a + b)[0] == a[0];
      assert (a + b)[1..] == a[1..] + b;
      CollectAppend(a[1..], b, raw);
    }
  }

  /** The entry of a single key, when the table has one. */
  lemma CollectOne(k: FieldKey, raw: RawResult)
    ensures Collect([k], raw) == EntryIf(k, Expected(raw, k))
  {
    assert [k][1..] == [];
  }

  lemma InstancesCollected(raw: RawResult)
    ensures InstancePart(raw.instances)
         == Collect([InstancesPredBoxes, InstancesScores, InstancesPredClasses, InstancesPredMasks, InstancesPredKeypoints], raw)
  {
    var a, b, c, d, e := InstancesPredBoxes, InstancesScores, InstancesPredClasses, InstancesPredMasks, InstancesPredKeypoints;
    assert [a, b, c, d, e] == [a] + [b] + [c] + [d] + [e];
    CollectAppend([a] + [b] + [c] + [d], [e], raw);
    CollectAppend([a] + [b] + [c], [d], raw);
    CollectAppend([a] + [b], [c], raw);
    CollectAppend([a], [b], raw);
    CollectOne(a, raw);
    CollectOne(b, raw);
    CollectOne(c, raw);
    CollectOne(d, raw);
    CollectOne(e, raw);
  }

  lemma ProposalsCollected(raw: RawResult)
    ensures ProposalPart(raw.proposals) == Collect([ProposalsProposalBoxes, ProposalsObjectnessLogits], raw)
  {
    var a, b := ProposalsProposalBoxes, ProposalsObjectnessLogits;
    assert [a, b] == [a] + [b];
    CollectAppend([a], [b], raw);
    CollectOne(a, raw);
    CollectOne(b, raw);
  }

  lemma PanopticCollected(raw: RawResult)
    ensures PanopticPart(raw.panopticSeg)
         == Collect([PanopticSeg, PanopticIds, PanopticIsthings, PanopticCategoryIds], raw)
  {
    var a, b, c, d := PanopticSeg, PanopticIds, PanopticIsthings, PanopticCategoryIds;
    assert [a, b, c, d] == [a] + [b] + [c] + [d];
    CollectAppend([a] + [b] + [c], [d], raw);
    CollectAppend([a] + [b], [c], raw);
    CollectAppend([a], [b], raw);
    assert Collect([a, b, c, d], raw) == Collect([a], raw) + Collect([b], raw) + Collect([c], raw) + Collect([d], raw);
    CollectOne(a, raw);
    CollectOne(b, raw);
    CollectOne(c, raw);
    CollectOne(d, raw);
  }

  /** The flat dict is the reference table listed in KeyOrder. */
  lemma FieldsOfCollected(raw: RawResult)
    ensures FieldsOf(raw) == Collect(KeyOrder, raw)
  {
    var ik := [InstancesPredBoxes, InstancesScores, InstancesPredClasses, InstancesPredMasks, InstancesPredKeypoints];
    var pk := [ProposalsProposalBoxes, ProposalsObjectnessLogits];
    var nk := [PanopticSeg, PanopticIds, PanopticIsthings, PanopticCategoryIds];
    assert KeyOrder == ik + [SemSeg] + pk + nk;
    InstancesCollected(raw);
    ProposalsCollected(raw);
    PanopticCollected(raw);
    CollectOne(SemSeg, raw);
    CollectAppend(ik + [SemSeg] + pk, nk, raw);
    CollectAppend(ik + [SemSeg], pk, raw);
    CollectAppend(ik, [SemSeg], raw);
  }

  /** A dict of at most one entry. */
  lemma EntryIfFacts(k: FieldKey, v: Option<TensorField>, k': FieldKey)
    ensures Keys(EntryIf(k, v)) == if v.Some? then [k] else []
    ensures Get(EntryIf(k, v), k') == if k' == k then v else None
  {
    if v.Some? {
      assert EntryIf(k, v)[1..] == [];
    }
  }

  /** A lookup in the listed table finds the table's entry for a listed key, and nothing else. */
  lemma {:induction false} GetCollect(ks: seq<FieldKey>, raw: RawResult, k: FieldKey)
    ensures Get(Collect(ks, raw), k) == if k in ks then Expected(raw, k) else None
  {
    if ks != [] {
      var head := EntryIf(ks[0], Expected(raw, ks[0]));
      GetAppend(head, Collect(ks[1..], raw), k);
      EntryIfFacts(ks[0], Expected(raw, ks[0]), k);
      GetCollect(ks[1..], raw, k);
      assert k in ks <==> k == ks[0] || k in ks[1..];
    }
  }

  /** The listed table has exactly the keys of `ks` that are emitted, in the order of `ks`. */
  lemma {:induction false} KeysCollect(ks: seq<FieldKey>, raw: RawResult)
    ensures Keys(Collect(ks, raw)) == Selected(ks, raw)
  {
    if ks != [] {
      var head := EntryIf(ks[0], Expected(raw, ks[0]));
      KeysAppend(head, Collect(ks[1..], raw));
      EntryIfFacts(ks[0], Expected(raw, ks[0]), ks[0]);
      KeysCollect(ks[1..], raw);
    }
  }

  lemma {:induction false} SelectedMember(ks: seq<FieldKey>, raw: RawResult, k: FieldKey)
    ensures k in Selected(ks, raw) <==> k in ks && Emitted(raw, k)
  {
    if ks != [] {
      SelectedMember(ks[1..], raw, k);
      assert k in ks <==> k == ks[0] || k in ks[1..];
    }
  }

  /** Filtering keeps the keys apart. */
  lemma {:induction false} SelectedDistinct(ks: seq<FieldKey>, raw: RawResult)
    requires Distinct(ks)
    ensures Distinct(Selected(ks, raw))
  {
    if ks != [] {
      var rest := Selected(ks[1..], raw);
      assert Distinct(ks[1..]) by {
        forall i, j | 0 <= i < j < |ks[1..]|
          ensures ks[1..][i] != ks[1..][j]
        {
          assert ks[i + 1] != ks[j + 1];
        }
      }
      SelectedDistinct(ks[1..], raw);
      SelectedMember(ks[1..], raw, ks[0]);
      assert ks[0] !in ks[1..] by {
        forall i | 0 <= i < |ks[1..]|
          ensures ks[1..][i] != ks[0]
        {
          assert ks[i + 1] != ks[0];
        }
      }
      if Emitted(raw, ks[0]) {
        var s := [ks[0]] + rest;
        forall i, j | 0 <= i < j < |s|
          ensures s[i] != s[j]
        {
          if i == 0 {
            assert s[j] == rest[j - 1];
            assert s[j] in rest;
          } else {
            assert s[i] == rest[i - 1] && s[j] == rest[j - 1];
          }
        }
      } else {
        assert Selected(ks, raw) == rest;
      }
    }
  }

  /** Every entry of the listed table carries its key's padding. */
  lemma {:induction false} CollectPadded(ks: seq<FieldKey>, raw: RawResult)
    ensures forall i :: 0 <= i < |Collect(ks, raw)| ==>
      Collect(ks, raw)[i].field.padding == PaddingOf(Collect(ks, raw)[i].key)
  {
    if ks != [] {
      var head: Fields := EntryIf(ks[0], Expected(raw, ks[0]));
      var rest: Fields := Collect(ks[1..], raw);
      CollectPadded(ks[1..], raw);
      forall i | 0 <= i < |head + rest|
        ensures (head + rest)[i].field.padding == PaddingOf((head + rest)[i].key)
      {
        if i >= |head| {
          assert (head + rest)[i] == rest[i - |head|];
        }
      }
    }
  }

  /** KeyOrder lists every key once. */
  lemma KeyOrderDistinct()
    ensures Distinct(KeyOrder)
  {
    forall i, j | 0 <= i < j < |KeyOrder|
      ensures KeyOrder[i] != KeyOrder[j]
    {
      RankIsPosition(KeyOrder[i]);
      RankIsPosition(KeyOrder[j]);
      assert Rank(KeyOrder[i]) == i && Rank(KeyOrder[j]) == j;
    }
  }

  /**
    The flat dict holds, under every key, exactly the field the reference
    table gives: the key is present exactly when its part and its attribute
    are, and then holds that attribute with the key's padding.
   */
  lemma FieldsOfLookup(raw: RawResult, k: FieldKey)
    ensures Get(FieldsOf(raw), k) == Expected(raw, k)
    ensures k in Keys(FieldsOf(raw)) <==> Emitted(raw, k)
    ensures k in Keys(FieldsOf(raw)) ==> Get(FieldsOf(raw), k).value.padding == PaddingOf(k)
  {
    FieldsOfCollected(raw);
    GetCollect(KeyOrder, raw, k);
    RankIsPosition(k);
  }

  /**
    The keys of the flat dict are the emitted keys in KeyOrder (instances,
    sem_seg, proposals, panoptic_seg), none of them twice.
   */
  lemma FieldsOfKeys(raw: RawResult)
    ensures Keys(FieldsOf(raw)) == Selected(KeyOrder, raw)
    ensures Distinct(Keys(FieldsOf(raw)))
  {
    FieldsOfCollected(raw);
    KeysCollect(KeyOrder, raw);
    KeyOrderDistinct();
    SelectedDistinct(KeyOrder, raw);
  }

  /** Every entry of the flat dict carries the padding its key is given. */
  lemma EveryEntryPadded(raw: RawResult)
    ensures forall i :: 0 <= i < |FieldsOf(raw)| ==>
      FieldsOf(raw)[i].field.padding == PaddingOf(FieldsOf(raw)[i].key)
  {
    FieldsOfCollected(raw);
    CollectPadded(KeyOrder, raw);
  }

  /** A raw result flattens to an empty dict exactly when it yields no key. */
  lemma EmptyExactlyWhenNothingEmitted(raw: RawResult)
    ensures FieldsOf(raw) == [] <==> forall k :: !Emitted(raw, k)
    ensures FieldsOf(RawResult(None, None, None, None)) == []
  {
    if FieldsOf(raw) == [] {
      forall k
        ensures !Emitted(raw, k)
      {
        FieldsOfLookup(raw, k);
      }
    } else {
      FieldsOfLookup(raw, FieldsOf(raw)[0].key);
      assert Keys(FieldsOf(raw))[0] == FieldsOf(raw)[0].key;
    }
  }

  /** `raw` with the attribute (or the "sem_seg" tensor) behind key `k` removed. */
  function Without(raw: RawResult, k: FieldKey): (r: RawResult)
    requires !IsPanoptic(k)
    ensures !Emitted(r, k)
  {
    var inst := raw.instances;
    var prop := raw.proposals;
    match k
    case InstancesPredBoxes =>
      if inst.Some? then raw.(instances := Some(inst.value.(predBoxes := None))) else raw
    case InstancesScores =>
      if inst.Some? then raw.(instances := Some(inst.value.(scores := None))) else raw
    case InstancesPredClasses =>
      if inst.Some? then raw.(instances := Some(inst.value.(predClasses := None))) else raw
    case InstancesPredMasks =>
      if inst.Some? then raw.(instances := Some(inst.value.(predMasks := None))) else raw
    case InstancesPredKeypoints =>
      if inst.Some? then raw.(instances := Some(inst.value.(predKeypoints := None))) else raw
    case SemSeg => raw.(semSeg := None)
    case ProposalsProposalBoxes =>
      if prop.Some? then raw.(proposals := Some(prop.value.(proposalBoxes := None))) else raw
    case ProposalsObjectnessLogits =>
      if prop.Some? then raw.(proposals := Some(prop.value.(objectnessLogits := None))) else raw
  }

  /** The four keys of the "panoptic_seg" part, which are emitted together. */
  predicate IsPanoptic(k: FieldKey)
  {
    k in {PanopticSeg, PanopticIds, PanopticIsthings, PanopticCategoryIds}
  }

  /**
    Each attribute is looked at on its own: a missing one drops its own key
    and changes no other entry.
   */
  lemma MissingAttributeKeepsSiblings(raw: RawResult, k: FieldKey, other: FieldKey)
    requires !IsPanoptic(k) && other != k
    ensures k !in Keys(FieldsOf(Without(raw, k)))
    ensures Get(FieldsOf(Without(raw, k)), other) == Get(FieldsOf(raw), other)
  {
    FieldsOfLookup(Without(raw, k), k);
    FieldsOfLookup(Without(raw, k), other);
    FieldsOfLookup(raw, other);
    ExpectedWithout(raw, k, other);
  }

  /** The table entry of every other key is unaffected by the removal. */
  lemma ExpectedWithout(raw: RawResult, k: FieldKey, other: FieldKey)
    requires !IsPanoptic(k) && other != k
    ensures Expected(Without(raw, k), other) == Expected(raw, other)
  {
  }

  /**
    When the result has "panoptic_seg", all four panoptic keys are present;
    the three vectors have one element per segment, element `i` taken from
    segment `i`.
   */
  lemma PanopticVectors(raw: RawResult)
    requires raw.panopticSeg.Some?
    ensures forall k :: IsPanoptic(k) ==> k in Keys(FieldsOf(raw))
    ensures Get(FieldsOf(raw), PanopticIds).Some? && Get(FieldsOf(raw), PanopticIsthings).Some?
    ensures Get(FieldsOf(raw), PanopticCategoryIds).Some?
    ensures Get(FieldsOf(raw), PanopticSeg) == Some(TensorField(Raw(raw.panopticSeg.value.labels), Some(NegOne)))
    ensures
      var segs := raw.panopticSeg.value.segments;
      var ids := Get(FieldsOf(raw), PanopticIds).value;
      var things := Get(FieldsOf(raw), PanopticIsthings).value;
      var cats := Get(FieldsOf(raw), PanopticCategoryIds).value;
      && ids.tensor.Int32Vector? && |ids.tensor.xs| == |segs|
      && things.tensor.BoolVector? && |things.tensor.bs| == |segs|
      && cats.tensor.Int32Vector? && |cats.tensor.xs| == |segs|
      && (forall i :: 0 <= i < |segs| ==>
            ids.tensor.xs[i] == segs[i].id && things.tensor.bs[i] == segs[i].isthing
            && cats.tensor.xs[i] == segs[i].categoryId)
  {
    FieldsOfLookup(raw, PanopticSeg);
    FieldsOfLookup(raw, PanopticIds);
    FieldsOfLookup(raw, PanopticIsthings);
    FieldsOfLookup(raw, PanopticCategoryIds);
  }
}
