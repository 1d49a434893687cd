/**
  The input normaliser, `DetectronProcessor._to_model_input`
  (allennlp/data/dataset_readers/dataset_utils/detectron_utils.py:92-113), and the
  list comprehension that applies it to every image (line 38).

  Python values are modelled by the kinds the normaliser tells apart with
  `isinstance`; everything else is an `Opaque` object.
 */
module ModelInput {
  import opened Wrappers
  import opened Errors
  import opened TensorFields

  /** An `os.PathLike` object; `str()` of it gives `text`. */
  datatype PathLike = PathLike(text: string)

  /** A Python object of none of the kinds below, known only by identity. */
  datatype Opaque = Opaque(id: nat)

  /** A value stored in a model-input dict, or wrapped by ImageWithSize. */
  datatype Value =
    | IntV(i: int)
    | StrV(s: string)
    | TensorV(t: Tensor)
    | PathV(p: PathLike)
    | OtherV(o: Opaque)

  /** A model-input dict such as `{"file_name": ..., "height": ..., "width": ...}`. */
  type Dict = map<string, Value>

  /** One image as a caller may pass it (`SupportedImageFormat`, line 16, and anything else). */
  datatype Descriptor =
      /** `ImageWithSize(image, size)` (lines 11-13) */
    | ImageWithSize(image: Value, size: (int, int))
    | BareTensor(t: Tensor)
    | DictImage(d: Dict)
    | StrImage(s: string)
    | PathImage(p: PathLike)
      /** an object outside `SupportedImageFormat` */
    | Other(o: Opaque)

  /** The external `DatasetMapper`: decodes and preprocesses an image dict. */
  type Mapper = Dict -> Dict

  /**
    Lines 93-109: turn a descriptor into a dict before the mapper is consulted.
    An ImageWithSize around a PathLike fails, because line 95 assigns to a field
    of a NamedTuple.
   */
  function Prepare(d: Descriptor): (r: Result<Dict, Error>)
    // the failures, and only these
    ensures r == Err(ReadOnlyField) <==> d.ImageWithSize? && d.image.PathV?
    ensures r == Err(UnrecognizedFormat) <==> d.ImageWithSize? && (d.image.IntV? || d.image.OtherV?)
    ensures r == Err(NotADict) <==> d.BareTensor? || d.Other?
    ensures r.Err? ==> r.error in {ReadOnlyField, UnrecognizedFormat, NotADict}
    // a dict passes through untouched
    ensures d.DictImage? ==> r == Ok(d.d)
    // every other successful descriptor names its image exactly once, by file name or by tensor
    ensures r.Ok? && !d.DictImage? ==> ("file_name" in r.value <==> "image" !in r.value)
    ensures d.StrImage? ==> r == Ok(map["file_name" := StrV(d.s)])
    ensures d.PathImage? ==> r == Ok(map["file_name" := StrV(d.p.text)])
    // a sized str is filed under "file_name", a sized tensor under "image"
    ensures r.Ok? && d.ImageWithSize? ==>
      ("file_name" in r.value <==> d.image.StrV?) && ("image" in r.value <==> d.image.TensorV?)
    ensures r.Ok? && d.ImageWithSize? && "file_name" in r.value ==> r.value["file_name"] == d.image
    ensures r.Ok? && d.ImageWithSize? && "image" in r.value ==> r.value["image"] == d.image
    // height and width appear exactly for ImageWithSize, taken from size[0] and size[1]
    ensures r.Ok? && !d.DictImage? ==> ("height" in r.value <==> d.ImageWithSize?)
    ensures r.Ok? && !d.DictImage? ==> ("width" in r.value <==> d.ImageWithSize?)
    ensures r.Ok? && d.ImageWithSize? ==>
      r.value["height"] == IntV(d.size.0) && r.value["width"] == IntV(d.size.1)
    ensures r.Ok? && !d.DictImage? ==> r.value.Keys <= {"file_name", "image", "height", "width"}
  {
    match d
    case ImageWithSize(img, size) =>
      if img.PathV? then Err(ReadOnlyField)
      else
        var sized: Dict := map["height" := IntV(size.0), "width" := IntV(size.1)];
        if img.StrV? then Ok(sized["file_name" := img])
        else if img.TensorV? then Ok(sized["image" := img])
        else Err(UnrecognizedFormat)
    case PathImage(p) => Ok(map["file_name" := StrV(p.text)])
    case StrImage(s) => Ok(map["file_name" := StrV(s)])
    case DictImage(m) => Ok(m)
    case BareTensor(_) => Err(NotADict)
    case Other(_) => Err(NotADict)
  }

  /** Line 112: `assert isinstance(image["image"], Tensor)`. */
  function CheckImage(q: Dict): (r: Result<Dict, Error>)
    ensures r.Ok? <==> "image" in q && q["image"].TensorV?
    ensures r.Ok? ==> r.value == q
    ensures r.Err? ==> (r.error == MissingImage <==> "image" !in q)
    ensures r.Err? ==> r.error in {MissingImage, ImageNotTensor}
  {
    if "image" !in q then Err(MissingImage)
    else if !q["image"].TensorV? then Err(ImageNotTensor)
    else Ok(q)
  }

  /** `_to_model_input` (lines 92-113). */
  function ToModelInput(mapper: Mapper, d: Descriptor): (r: Result<Dict, Error>)
    ensures r.Ok? ==> "image" in r.value && r.value["image"].TensorV?
    ensures Prepare(d).Err? ==> r == Prepare(d)
    ensures Prepare(d).Ok? && "image" in Prepare(d).value ==> r == CheckImage(Prepare(d).value)
  {
    match Prepare(d)
    case Err(e) => Err(e)
    case Ok(p) => CheckImage(if "image" in p then p else mapper(p))
  }

  /**
    The mapper is consulted exactly when the prepared dict has no "image":
    otherwise the result does not depend on it, and when it is consulted it
    receives the prepared dict.
   */
  lemma MapperOnlyWithoutImage(m1: Mapper, m2: Mapper, d: Descriptor)
    requires Prepare(d).Ok?
    ensures "image" in Prepare(d).value ==> ToModelInput(m1, d) == ToModelInput(m2, d)
    ensures "image" !in Prepare(d).value ==> ToModelInput(m1, d) == CheckImage(m1(Prepare(d).value))
  {
  }

  /** A bare tensor is accepted by the type of `__call__` but fails the dict assertion. */
  lemma BareTensorRejected(mapper: Mapper, t: Tensor)
    ensures ToModelInput(mapper, BareTensor(t)) == Err(NotADict)
  {
  }

  /** An ImageWithSize around a tensor never reaches the mapper and keeps its size. */
  lemma SizedTensorSkipsMapper(mapper: Mapper, t: Tensor, size: (int, int))
    ensures ToModelInput(mapper, ImageWithSize(TensorV(t), size))
         == Ok(map["height" := IntV(size.0), "width" := IntV(size.1), "image" := TensorV(t)])
  {
  }

  /**
    Line 38: `[self._to_model_input(i) for i in images]`. The first image that
    fails stops the whole list with its error.
   */
  function NormalizeAll(mapper: Mapper, ds: seq<Descriptor>): (r: Result<seq<Dict>, Error>)
    ensures r.Ok? <==> forall i :: 0 <= i < |ds| ==> ToModelInput(mapper, ds[i]).Ok?
    ensures r.Ok? ==> |r.value| == |ds|
    ensures r.Ok? ==> forall i :: 0 <= i < |ds| ==> ToModelInput(mapper, ds[i]) == Ok(r.value[i])
    ensures r.Err? ==> exists i :: 0 <= i < |ds| && ToModelInput(mapper, ds[i]) == Err(r.error) &&
                                  forall j :: 0 <= j < i ==> ToModelInput(mapper, ds[j]).Ok?
  {
    if ds == [] then Ok([])
    else
      match ToModelInput(mapper, ds[0])
      case Err(e) => Err(e)
      case Ok(x) =>
        match NormalizeAll(mapper, ds[1..])
        case Err(e) =>
          ghost var i :| 0 <= i < |ds[1..]| && ToModelInput(mapper, ds[1..][i]) == Err(e)
            && forall j :: 0 <= j < i ==> ToModelInput(mapper, ds[1..][j]).Ok?;
          assert ToModelInput(mapper, ds[i + 1]) == Err(e);
          Err(e)
        case Ok(xs) => Ok([x] + xs)
  }
}
