/**
  The exceptions that DetectronProcessor can raise on its own account
  (allennlp/data/dataset_readers/dataset_utils/detectron_utils.py).
  Exceptions raised inside the detection model or the mapper are not modelled.
 */
module Errors {

  datatype Error =
      /** ValueError "`image` is not in a recognized format." (line 102) */
    | UnrecognizedFormat
      /** AttributeError from assigning `image.image` on the ImageWithSize NamedTuple (line 95) */
    | ReadOnlyField
      /** AssertionError from `assert isinstance(image, dict)` (line 109) */
    | NotADict
      /** KeyError from `image["image"]` when the mapper gave no image (line 112) */
    | MissingImage
      /** AssertionError from `assert isinstance(image["image"], Tensor)` (line 112) */
    | ImageNotTensor
      /** IndexError from `[0]` when the model returns no result for a single image (line 36) */
    | IndexOutOfRange
}
