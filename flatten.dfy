/**
  The output flattener: the body of the loop in `DetectronProcessor.__call__`
  (allennlp/data/dataset_readers/dataset_utils/detectron_utils.py:44-89) that
  turns one raw detectron2 result into a flat dict of TensorFields.

  `FieldsOf` says declaratively which entries a raw result yields, in which
  order; `FlattenImage` builds the dict key by key as the source does and is
  proved to yield exactly `FieldsOf`.
 */
module Flatten {
  import opened Wrappers
  import opened TensorFields

  /** A detectron2 `Boxes` object; the flattener reads only its `.tensor`. */
  datatype Boxes = Boxes(tensor: Tensor)

  /** The attributes of an `instances` result that the flattener asks `has`/`get` about. */
  datatype Instances = Instances(
    predBoxes: Option<Boxes>,
    scores: Option<Tensor>,
    predClasses: Option<Tensor>,
    predMasks: Option<Tensor>,
    predKeypoints: Option<Tensor>)

  /** The attributes of a `proposals` result that the flattener asks about. */
  datatype Proposals = Proposals(proposalBoxes: Option<Boxes>, objectnessLogits: Option<Tensor>)

  /** One dict of the panoptic segment list: its "id", "isthing" and "category_id". */
  datatype Segment = Segment(id: int32, isthing: bool, categoryId: int32)

  /** The pair `(segment_ids, dicts)` stored under "panoptic_seg". */
  datatype Panoptic = Panoptic(labels: Tensor, segments: seq<Segment>)

  /** One per-image result of the model; each of its four keys may be absent. */
  datatype RawResult = RawResult(
    instances: Option<Instances>,
    semSeg: Option<Tensor>,
    proposals: Option<Proposals>,
    panopticSeg: Option<Panoptic>)

  /** The keys the flattener can emit; `Name` gives each its dotted string. */
  datatype FieldKey =
    | InstancesPredBoxes | InstancesScores | InstancesPredClasses | InstancesPredMasks
    | InstancesPredKeypoints | SemSeg | ProposalsProposalBoxes | ProposalsObjectnessLogits
    | PanopticSeg | PanopticIds | PanopticIsthings | PanopticCategoryIds

  type Fields = FieldDict<FieldKey>

  function Name(k: FieldKey): string
  {
    match k
    case InstancesPredBoxes => "instances/pred_boxes"
    case InstancesScores => "instances/scores"
    case InstancesPredClasses => "instances/pred_classes"
    case InstancesPredMasks => "instances/pred_masks"
    case InstancesPredKeypoints => "instances/pred_keypoints"
    case SemSeg => "sem_seg"
    case ProposalsProposalBoxes => "proposals/proposal_boxes"
    case ProposalsObjectnessLogits => "proposals/objectness_logits"
    case PanopticSeg => "panoptic_seg"
    case PanopticIds => "panoptic_seg/ids"
    case PanopticIsthings => "panoptic_seg/isthings"
    case PanopticCategoryIds => "panoptic_seg/category_ids"
  }

  /** No two keys share a dotted string, so the flat dict's string keys are as distinct as its FieldKeys. */
  lemma NameInjective()
    ensures forall k1, k2 :: Name(k1) == Name(k2) ==> k1 == k2
  {
  }

  /** Every key, in the order the flattener inserts them. */
  const KeyOrder: seq<FieldKey> := [
    InstancesPredBoxes, InstancesScores, InstancesPredClasses, InstancesPredMasks,
    InstancesPredKeypoints, SemSeg, ProposalsProposalBoxes, ProposalsObjectnessLogits,
    PanopticSeg, PanopticIds, PanopticIsthings, PanopticCategoryIds]

  /** The padding each key is given, as a table; None where no padding_value is passed. */
  function PaddingOf(k: FieldKey): Option<PadTag>
  {
    match k
    case InstancesScores | ProposalsObjectnessLogits => None
    case InstancesPredMasks | PanopticIsthings => Some(False)
    case SemSeg => Some(ZeroReal)
    case _ => Some(NegOne)
  }

  /** Whether a raw result yields key `k`: its part, and the attribute within it, are present. */
  predicate Emitted(raw: RawResult, k: FieldKey)
  {
    match k
    case InstancesPredBoxes => raw.instances.Some? && raw.instances.value.predBoxes.Some?
    case InstancesScores => raw.instances.Some? && raw.instances.value.scores.Some?
    case InstancesPredClasses => raw.instances.Some? && raw.instances.value.predClasses.Some?
    case InstancesPredMasks => raw.instances.Some? && raw.instances.value.predMasks.Some?
    case InstancesPredKeypoints => raw.instances.Some? && raw.instances.value.predKeypoints.Some?
    case SemSeg => raw.semSeg.Some?
    case ProposalsProposalBoxes => raw.proposals.Some? && raw.proposals.value.proposalBoxes.Some?
    case ProposalsObjectnessLogits => raw.proposals.Some? && raw.proposals.value.objectnessLogits.Some?
    case PanopticSeg | PanopticIds | PanopticIsthings | PanopticCategoryIds => raw.panopticSeg.Some?
  }

  /** An entry for `k` if there is a field to store, none otherwise. */
  function EntryIf(k: FieldKey, v: Option<TensorField>): Fields
  {
    if v.Some? then [Entry(k, v.value)] else []
  }

  /** The field for an attribute that may be absent. */
  function Wrap(t: Option<Tensor>, pad: Option<PadTag>): Option<TensorField>
  {
    if t.Some? then Some(TensorField(Raw(t.value), pad)) else None
  }

  /** An entry for `k` if the attribute is present, none otherwise. */
  function Optional(k: FieldKey, t: Option<Tensor>, pad: Option<PadTag>): Fields
  {
    EntryIf(k, Wrap(t, pad))
  }

  function BoxesTensor(b: Option<Boxes>): Option<Tensor>
  {
    if b.Some? then Some(b.value.tensor) else None
  }

  /** Lines 82-84: `[d["id"] for d in dicts]` and its two siblings. */
  function Ids(segs: seq<Segment>): seq<int32>
  {
    seq(|segs|, i requires 0 <= i < |segs| => segs[i].id)
  }

  function IsThings(segs: seq<Segment>): seq<bool>
  {
    seq(|segs|, i requires 0 <= i < |segs| => segs[i].isthing)
  }

  function CategoryIds(segs: seq<Segment>): seq<int32>
  {
    seq(|segs|, i requires 0 <= i < |segs| => segs[i].categoryId)
  }

  function InstanceEntries(inst: Instances): Fields
  {
    Optional(InstancesPredBoxes, BoxesTensor(inst.predBoxes), Some(NegOne))
    + Optional(InstancesScores, inst.scores, None)
    + Optional(InstancesPredClasses, inst.predClasses, Some(NegOne))
    + Optional(InstancesPredMasks, inst.predMasks, Some(False))
    + Optional(InstancesPredKeypoints, inst.predKeypoints, Some(NegOne))
  }

  function ProposalEntries(p: Proposals): Fields
  {
    Optional(ProposalsProposalBoxes, BoxesTensor(p.proposalBoxes), Some(NegOne))
    + Optional(ProposalsObjectnessLogits, p.objectnessLogits, None)
  }

  function PanopticEntries(p: Panoptic): Fields
  {
    [Entry(PanopticSeg, TensorField(Raw(p.labels), Some(NegOne))),
     Entry(PanopticIds, TensorField(Int32Vector(Ids(p.segments)), Some(NegOne))),
     Entry(PanopticIsthings, TensorField(BoolVector(IsThings(p.segments)), Some(False))),
     Entry(PanopticCategoryIds, TensorField(Int32Vector(CategoryIds(p.segments)), Some(NegOne)))]
  }

  /** The entries of the "instances" part, none when the part is absent. */
  function InstancePart(inst: Option<Instances>): Fields
  {
    if inst.Some? then InstanceEntries(inst.value) else []
  }

  /** The entries of the "proposals" part, none when the part is absent. */
  function ProposalPart(p: Option<Proposals>): Fields
  {
    if p.Some? then ProposalEntries(p.value) else []
  }

  /** The entries of the "panoptic_seg" part, none when the part is absent. */
  function PanopticPart(p: Option<Panoptic>): Fields
  {
    if p.Some? then PanopticEntries(p.value) else []
  }

  /** The flat dict one raw result becomes. */
  function FieldsOf(raw: RawResult): Fields
  {
    InstancePart(raw.instances)
    + Optional(SemSeg, raw.semSeg, Some(ZeroReal))
    + ProposalPart(raw.proposals)
    + PanopticPart(raw.panopticSeg)
  }

  /** Lines 45-89: the flat dict for one raw result, built part by part into an empty dict. */
  method FlattenImage(raw: RawResult) returns (fields: Fields)
    ensures fields == FieldsOf(raw)
  {
    fields := [];
    fields := AddInstances(fields, raw.instances);
    fields := AddSemSeg(fields, raw.semSeg);
    fields := AddProposals(fields, raw.proposals);
    fields := AddPanoptic(fields, raw.panopticSeg);
    assert [] + InstancePart(raw.instances) == InstancePart(raw.instances);
  }

  /** Lines 46-65: when the result has "instances", one guarded assignment per attribute. */
  method AddInstances(fields0: Fields, part: Option<Instances>) returns (fields: Fields)
    requires fields0 == []  // line 45: `fields = {}`
    ensures fields == fields0 + InstancePart(part)
    ensures KeysBelow(fields, Rank(SemSeg))
  {
    fields := fields0;
    if part.None? {
      assert fields0 + [] == fields0;
      return;
    }
    var instances := part.value;
    fields := StoreIfPresent(fields, InstancesPredBoxes, BoxesTensor(instances.predBoxes), Some(NegOne));
    fields := StoreIfPresent(fields, InstancesScores, instances.scores, None);
    fields := StoreIfPresent(fields, InstancesPredClasses, instances.predClasses, Some(NegOne));
    fields := StoreIfPresent(fields, InstancesPredMasks, instances.predMasks, Some(False));
    fields := StoreIfPresent(fields, InstancesPredKeypoints, instances.predKeypoints, Some(NegOne));
    ghost var e1, e2, e3 := Optional(InstancesPredBoxes, BoxesTensor(instances.predBoxes), Some(NegOne)),
      Optional(InstancesScores, instances.scores, None), Optional(InstancesPredClasses, instances.predClasses, Some(NegOne));
    ghost var e4, e5 := Optional(InstancesPredMasks, instances.predMasks, Some(False)),
      Optional(InstancesPredKeypoints, instances.predKeypoints, Some(NegOne));
    assert fields == fields0 + e1 + e2 + e3 + e4 + e5;
    assert InstanceEntries(instances) == e1 + e2 + e3 + e4 + e5;
    assert fields0 + e1 + e2 + e3 + e4 + e5 == fields0 + (e1 + e2 + e3 + e4 + e5) by {
      Regroup(fields0, e1, e2, e3, e4, e5);
    }
  }

  /** Lines 66-67: when the result has "sem_seg", store it padded with 0.0. */
  method AddSemSeg(fields0: Fields, semSeg: Option<Tensor>) returns (fields: Fields)
    requires KeysBelow(fields0, Rank(SemSeg))
    ensures fields == fields0 + Optional(SemSeg, semSeg, Some(ZeroReal))
    ensures KeysBelow(fields, Rank(ProposalsProposalBoxes))
  {
    fields := StoreIfPresent(fields0, SemSeg, semSeg, Some(ZeroReal));
  }

  /** Lines 68-77: when the result has "proposals", the two guarded assignments. */
  method AddProposals(fields0: Fields, part: Option<Proposals>) returns (fields: Fields)
    requires KeysBelow(fields0, Rank(ProposalsProposalBoxes))
    ensures fields == fields0 + ProposalPart(part)
    ensures KeysBelow(fields, Rank(PanopticSeg))
  {
    fields := fields0;
    if part.None? {
      assert fields0 + [] == fields0;
      return;
    }
    var proposals := part.value;
    fields := StoreIfPresent(fields, ProposalsProposalBoxes, BoxesTensor(proposals.proposalBoxes), Some(NegOne));
    fields := StoreIfPresent(fields, ProposalsObjectnessLogits, proposals.objectnessLogits, None);
    assert fields == fields0 + ProposalEntries(proposals);
  }

  /**
    `if <attribute present>: fields[k] = TensorField(<attribute>, padding_value=pad)`,
    the shape of every assignment in lines 46-77.
   */
  method StoreIfPresent(fields0: Fields, k: FieldKey, t: Option<Tensor>, pad: Option<PadTag>)
    returns (fields: Fields)
    requires KeysBelow(fields0, Rank(k))
    ensures fields == fields0 + Optional(k, t, pad)
    ensures KeysBelow(fields, Rank(k) + 1)
  {
    fields := fields0;
    if t.Some? {
      fields := SetItem(fields, k, TensorField(Raw(t.value), pad));
    }
    ghost var expected := Step(fields0, fields, k, Wrap(t, pad));
  }

  /**
    Lines 78-87: when the result has "panoptic_seg", the label map and the three
    vectors built from the segment list.
   */
  method AddPanoptic(fields0: Fields, part: Option<Panoptic>) returns (fields: Fields)
    requires KeysBelow(fields0, Rank(PanopticSeg))
    ensures fields == fields0 + PanopticPart(part)
  {
    fields := fields0;
    if part.None? {
      assert fields0 + [] == fields0;
      return;
    }
    var Panoptic(segmentIds, dicts) := part.value;
    var labels := TensorField(Raw(segmentIds), Some(NegOne));
    fields := StoreNew(fields, PanopticSeg, labels);
    var ids := TensorField(Int32Vector(Ids(dicts)), Some(NegOne));
    var isthings := TensorField(BoolVector(IsThings(dicts)), Some(False));
    var categoryIds := TensorField(Int32Vector(CategoryIds(dicts)), Some(NegOne));
    fields := StoreNew(fields, PanopticIds, ids);
    fields := StoreNew(fields, PanopticIsthings, isthings);
    fields := StoreNew(fields, PanopticCategoryIds, categoryIds);
    assert PanopticEntries(part.value)
        == [Entry(PanopticSeg, labels)] + [Entry(PanopticIds, ids)] + [Entry(PanopticIsthings, isthings)]
           + [Entry(PanopticCategoryIds, categoryIds)];
    Regroup4(fields0, [Entry(PanopticSeg, labels)], [Entry(PanopticIds, ids)], [Entry(PanopticIsthings, isthings)],
             [Entry(PanopticCategoryIds, categoryIds)]);
  }

  /** `fields[k] = v` for a key not yet present, which appends the entry. */
  method StoreNew(fields0: Fields, k: FieldKey, v: TensorField) returns (fields: Fields)
    requires KeysBelow(fields0, Rank(k))
    ensures fields == fields0 + [Entry(k, v)]
    ensures KeysBelow(fields, Rank(k) + 1)
  {
    fields := SetItem(fields0, k, v);
    ghost var expected := Step(fields0, fields, k, Some(v));
  }

  lemma Regroup4(a: Fields, b: Fields, c: Fields, d: Fields, e: Fields)
    ensures a + b + c + d + e == a + (b + c + d + e)
  {
  }

  /** Concatenation regrouped, kept out of the callers' contexts. */
  lemma Regroup(a: Fields, b: Fields, c: Fields, d: Fields, e: Fields, f: Fields)
    ensures a + b + c + d + e + f == a + (b + c + d + e + f)
  {
  }

  /** The position of `k` in KeyOrder. */
  function Rank(k: FieldKey): nat
  {
    match k
    case InstancesPredBoxes => 0
    case InstancesScores => 1
    case InstancesPredClasses => 2
    case InstancesPredMasks => 3
    case InstancesPredKeypoints => 4
    case SemSeg => 5
    case ProposalsProposalBoxes => 6
    case ProposalsObjectnessLogits => 7
    case PanopticSeg => 8
    case PanopticIds => 9
    case PanopticIsthings => 10
    case PanopticCategoryIds => 11
  }

  /** Rank is the position in KeyOrder, so ordering by rank is ordering by insertion. */
  lemma RankIsPosition(k: FieldKey)
    ensures Rank(k) < |KeyOrder| && KeyOrder[Rank(k)] == k
  {
  }

  /** Every key of `f` comes before position `n` of KeyOrder. */
  ghost predicate KeysBelow(f: Fields, n: nat)
  {
    forall i :: 0 <= i < |f| ==> Rank(f[i].key) < n
  }

  /** A key later than every present one is not present. */
  lemma {:induction false} LaterKeyAbsent(f: Fields, k: FieldKey)
    requires KeysBelow(f, Rank(k))
    ensures k !in Keys(f)
  {
    if f != [] {
      LaterKeyAbsent(f[1..], k);
    }
  }

  /**
    One proof step of FlattenImage: after the guarded insertion of `k`,
    `fields` is `expected` extended by the entry `v` gives, if any.
   */
  ghost method Step(expected: Fields, fields: Fields, k: FieldKey, v: Option<TensorField>)
    returns (expected': Fields)
    requires KeysBelow(expected, Rank(k))
    requires v.None? ==> fields == expected
    requires v.Some? && k !in Keys(expected) ==> fields == expected + [Entry(k, v.value)]
    ensures expected' == expected + EntryIf(k, v)
    ensures fields == expected' && KeysBelow(expected', Rank(k) + 1)
  {
    expected' := expected + EntryIf(k, v);
    if v.Some? {
      LaterKeyAbsent(expected, k);
    } else {
      assert expected' == expected;
    }
  }
}
