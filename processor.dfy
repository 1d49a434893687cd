/**
  `DetectronProcessor.__call__`
  (allennlp/data/dataset_readers/dataset_utils/detectron_utils.py:33-90): normalise
  every image, run the model once on the whole list, and flatten each raw
  result. The model and the mapper are parameters.
 */
module Processor {
  import opened Wrappers
  import opened Errors
  import opened TensorFields
  import opened ModelInput
  import opened Flatten

  /** The detectron2 model: one raw result per input dict. */
  type Model = seq<Dict> -> seq<RawResult>

  /** The flat dict of every raw result, in order. */
  function FlattenAll(results: seq<RawResult>): (r: seq<Fields>)
    ensures |r| == |results|
    ensures forall i :: 0 <= i < |results| ==> r[i] == FieldsOf(results[i])
  {
    if results == [] then [] else [FieldsOf(results[0])] + FlattenAll(results[1..])
  }

  /** What a call on a list of images returns, or the error it raises. */
  function Process(mapper: Mapper, model: Model, images: seq<Descriptor>): (r: Result<seq<Fields>, Error>)
    ensures r.Ok? <==> NormalizeAll(mapper, images).Ok?
    ensures r.Err? ==> r == Err(NormalizeAll(mapper, images).error)
    ensures r.Ok? ==> r.value == FlattenAll(model(NormalizeAll(mapper, images).value))
  {
    match NormalizeAll(mapper, images)
    case Err(e) => Err(e)
    case Ok(inputs) => Ok(FlattenAll(model(inputs)))
  }

  /** Lines 38-90: a call on a list of images. */
  method Call(mapper: Mapper, model: Model, images: seq<Descriptor>) returns (r: Result<seq<Fields>, Error>)
    ensures r == Process(mapper, model, images)
  {
    var normalized := NormalizeAll(mapper, images);
    if normalized.Err? {
      return Err(normalized.error);
    }
    var results := model(normalized.value);
    var imageFields := FlattenResults(results);
    return Ok(imageFields);
  }

  /** Lines 41-89: the loop that flattens every raw result and appends it. */
  method FlattenResults(results: seq<RawResult>) returns (imageFields: seq<Fields>)
    ensures imageFields == FlattenAll(results)
  {
    imageFields := [];
    for k := 0 to |results|
      invariant |imageFields| == k
      invariant forall i :: 0 <= i < k ==> imageFields[i] == FieldsOf(results[i])
    {
      var fields := FlattenImage(results[k]);
      imageFields := imageFields + [fields];
    }
    assert imageFields == FlattenAll(results);
  }

  /**
    Lines 35-36: a single image is wrapped in a one-element list and the first
    result returned; a model that returns nothing makes the indexing fail.
   */
  method CallOne(mapper: Mapper, model: Model, image: Descriptor) returns (r: Result<Fields, Error>)
    ensures Process(mapper, model, [image]).Err? ==> r == Err(Process(mapper, model, [image]).error)
    ensures Process(mapper, model, [image]).Ok? && Process(mapper, model, [image]).value == [] ==>
      r == Err(IndexOutOfRange)
    ensures Process(mapper, model, [image]).Ok? && Process(mapper, model, [image]).value != [] ==>
      r == Ok(Process(mapper, model, [image]).value[0])
  {
    var all := Call(mapper, model, [image]);
    if all.Err? {
      return Err(all.error);
    }
    if |all.value| == 0 {
      return Err(IndexOutOfRange);
    }
    return Ok(all.value[0]);
  }

  /**
    When the model returns one result per input, as detectron2 models do, a
    successful call returns one flat dict per image, the i-th from the i-th
    image's result.
   */
  lemma OneDictPerImage(mapper: Mapper, model: Model, images: seq<Descriptor>)
    requires forall xs :: |model(xs)| == |xs|
    requires Process(mapper, model, images).Ok?
    ensures |Process(mapper, model, images).value| == |images|
    ensures forall i :: 0 <= i < |images| ==>
      Process(mapper, model, images).value[i]
        == FieldsOf(model(NormalizeAll(mapper, images).value)[i])
  {
  }

  /** An image that fails normalisation stops the call before the model runs. */
  lemma ModelNotRunOnBadInput(mapper: Mapper, m1: Model, m2: Model, images: seq<Descriptor>, i: nat)
    requires i < |images| && ToModelInput(mapper, images[i]).Err?
    ensures Process(mapper, m1, images).Err? && Process(mapper, m1, images) == Process(mapper, m2, images)
  {
  }
}
