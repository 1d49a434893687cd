# DetectronProcessor, modelled in Dafny

allennlp's `DetectronProcessor` (in
`allennlp/data/dataset_readers/dataset_utils/detectron_utils.py`) runs a detectron2
model over a batch of images. Each caller-supplied image descriptor is first
normalised into the dict detectron2 expects. The model is run once over the whole
list. Each raw per-image result is then flattened into a dict of allennlp
`TensorField`s, keyed by strings such as `"instances/pred_boxes"`. If the call gets
a single image instead of a list, it wraps it in a one-element list and returns
the first result.

The project has these modules:

- `Wrappers`: `Option` and `Result`.
- `Errors`: the exceptions the processor can raise, one variant each.
- `TensorFields`:
  - tensors as opaque handles;
  - the `int32` value range;
  - the three padding values the flattener uses;
  - `TensorField`;
  - the insertion-ordered Python dict the flattener fills (`Keys`, `Get`, `Put`, and `SetItem` for the statement `d[k] = v`).
- `ModelInput`: `_to_model_input` (`Prepare`, `CheckImage` and `ToModelInput`), and the list comprehension that applies it to every image (`NormalizeAll`).
- `Flatten`:
  - the raw detectron2 result;
  - the twelve output keys (`FieldKey`, with `Name` giving each its dotted string);
  - the declarative flat dict `FieldsOf`;
  - `FlattenImage`, which builds the dict key by key as the loop body does and is proved to produce `FieldsOf`.
- `FlattenFacts`:
  - `Expected`, a per-key reference table saying what each key holds and with which padding;
  - `Collect`, which lists that table's entries in a given key order;
  - the lemmas that tie `FieldsOf` to the table: presence, value, padding, order, the empty result, attribute independence and the panoptic vectors.
- `Processor`:
  - `__call__` on a list (`Process`, specified; `Call` and `FlattenResults`, the loop that builds the list of flat dicts);
  - on a single image (`CallOne`).

The mapper (`DatasetMapper`) and the model are function parameters. All four
quirks of the source below are modelled as the code behaves:

- A bare tensor passes the type annotation but fails `assert isinstance(image, dict)`.
- An `ImageWithSize` whose image is a `PathLike` fails at line 95. The line evidently means to replace the path by its string, but a `NamedTuple`'s fields are read-only, so the assignment raises, and the model follows the code.
- If the mapper returns a dict without `"image"`, the indexing at line 112 fails.
- If the model returns an empty list for a single image, the `[0]` at line 36 fails.

## Model

| member | source | states |
|---|---|---|
| TensorFields.Put | allennlp/data/dataset_readers/dataset_utils/detectron_utils.py:49-87 | The dict after `f[k] = v`: a new key is appended at the end; a present key keeps the dict's key order. |
| TensorFields.SetItem | allennlp/data/dataset_readers/dataset_utils/detectron_utils.py:49-87 | The assignment statement: appends the entry for a new key, otherwise updates in place as Put does. |
| TensorFields.PutGet | allennlp/data/dataset_readers/dataset_utils/detectron_utils.py:49-87 | After `f[k] = v`, looking up k gives v and every other key gives what it gave before. |
| ModelInput.Prepare | allennlp/data/dataset_readers/dataset_utils/detectron_utils.py:93-109 | Fails with the read-only-field error exactly for an ImageWithSize around a PathLike. Fails with ValueError exactly for an ImageWithSize around anything other than a str, PathLike or tensor. Fails the dict assertion exactly for a bare tensor or another object. A dict passes through unchanged. A str or PathLike becomes `{"file_name": s}`. Otherwise height = size[0] and width = size[1]; a wrapped str is stored under file_name and a wrapped tensor under image (each key present exactly for its kind), with no other keys. |
| ModelInput.CheckImage | allennlp/data/dataset_readers/dataset_utils/detectron_utils.py:112 | Succeeds, returning the dict unchanged, exactly when "image" is present and holds a tensor. A missing "image" is the KeyError case. |
| ModelInput.ToModelInput | allennlp/data/dataset_readers/dataset_utils/detectron_utils.py:92-113 | Every successful result holds a tensor under "image". A normalisation error is propagated. A prepared dict that already has "image" is checked without the mapper: returned unchanged if "image" holds a tensor, ImageNotTensor otherwise. |
| ModelInput.MapperOnlyWithoutImage | allennlp/data/dataset_readers/dataset_utils/detectron_utils.py:110-112 | With "image" present the result does not depend on the mapper. Without it, the result is the mapper's output on the prepared dict, checked. |
| ModelInput.BareTensorRejected | allennlp/data/dataset_readers/dataset_utils/detectron_utils.py:109 | A bare tensor always fails the dict assertion. |
| ModelInput.SizedTensorSkipsMapper | allennlp/data/dataset_readers/dataset_utils/detectron_utils.py:93-103 | An ImageWithSize around a tensor becomes exactly `{"height": size[0], "width": size[1], "image": t}`. |
| ModelInput.NormalizeAll | allennlp/data/dataset_readers/dataset_utils/detectron_utils.py:38 | Succeeds exactly when every image normalises, giving one dict per image in order. Otherwise it fails with the error of the first image that fails. |
| Flatten.NameInjective | allennlp/data/dataset_readers/dataset_utils/detectron_utils.py:49-87 | The twelve dotted key strings are pairwise different, so no assignment overwrites another key's entry. |
| Flatten.PaddingOf | allennlp/data/dataset_readers/dataset_utils/detectron_utils.py:49-87 | No contract of its own: the padding table (−1, False, 0.0, or none for scores and objectness_logits); FlattenFacts.Expected and FlattenFacts.EveryEntryPadded state that every emitted entry carries it. |
| Flatten.Emitted | allennlp/data/dataset_readers/dataset_utils/detectron_utils.py:46-87 | No contract of its own: a key is emitted when its part and its attribute are present; FlattenFacts.FieldsOfLookup proves this is exactly when the key is in the flat dict. |
| Flatten.Ids | allennlp/data/dataset_readers/dataset_utils/detectron_utils.py:82 | No contract of its own: the segment ids in segment order; FlattenFacts.PanopticVectors states one element per segment, element i from segment i. |
| Flatten.IsThings | allennlp/data/dataset_readers/dataset_utils/detectron_utils.py:83 | No contract of its own: the isthing flags in segment order; stated by FlattenFacts.PanopticVectors. |
| Flatten.CategoryIds | allennlp/data/dataset_readers/dataset_utils/detectron_utils.py:84 | No contract of its own: the category ids in segment order; stated by FlattenFacts.PanopticVectors. |
| Flatten.FieldsOf | allennlp/data/dataset_readers/dataset_utils/detectron_utils.py:44-89 | No contract of its own: the flat dict as a specification (instance part, then sem_seg, proposals, panoptic); FlattenImage is proved to build it, and FieldsOfLookup, FieldsOfKeys and EveryEntryPadded state its meaning. |
| Flatten.RankIsPosition | allennlp/data/dataset_readers/dataset_utils/detectron_utils.py:46-87 | Each key's rank is its position in KeyOrder, the order in which the loop body inserts the keys. |
| Flatten.FlattenImage | allennlp/data/dataset_readers/dataset_utils/detectron_utils.py:44-89 | Building the dict from an empty one yields exactly FieldsOf of the raw result. |
| Flatten.AddInstances | allennlp/data/dataset_readers/dataset_utils/detectron_utils.py:46-65 | Appends exactly the instance entries, or nothing when "instances" is absent. Every key stays before sem_seg. |
| Flatten.AddSemSeg | allennlp/data/dataset_readers/dataset_utils/detectron_utils.py:66-67 | Appends sem_seg with padding 0.0 when present, and nothing otherwise. |
| Flatten.AddProposals | allennlp/data/dataset_readers/dataset_utils/detectron_utils.py:68-77 | Appends exactly the proposal entries, or nothing when "proposals" is absent. Every key stays before panoptic_seg. |
| Flatten.StoreIfPresent | allennlp/data/dataset_readers/dataset_utils/detectron_utils.py:48-50 | A guarded assignment of a key not yet present appends one entry holding the attribute with the given padding, or leaves the dict unchanged when the attribute is absent. |
| Flatten.StoreNew | allennlp/data/dataset_readers/dataset_utils/detectron_utils.py:80 | Assigning a key that is not yet present appends exactly that entry at the end of the dict. |
| Flatten.AddPanoptic | allennlp/data/dataset_readers/dataset_utils/detectron_utils.py:78-87 | When "panoptic_seg" is present, appends exactly the four panoptic entries (label map, ids, isthings, category_ids), and nothing otherwise. |
| FlattenFacts.Expected | allennlp/data/dataset_readers/dataset_utils/detectron_utils.py:46-87 | The per-key table. A key has a field exactly when its part and its attribute are present, and that field's padding is the key's padding: −1 for boxes, classes, keypoints and panoptic keys; False for masks and isthings; 0.0 for sem_seg; none for scores and objectness_logits. |
| FlattenFacts.FieldsOfLookup | allennlp/data/dataset_readers/dataset_utils/detectron_utils.py:46-87 | Every key of the flat dict holds exactly what the table gives. A key is present exactly when its parent and its attribute are, and it carries the key's padding. |
| FlattenFacts.FieldsOfCollected | allennlp/data/dataset_readers/dataset_utils/detectron_utils.py:44-89 | The flat dict is the reference table listed in KeyOrder: for each key in turn, its entry if it has one. |
| FlattenFacts.FieldsOfKeys | allennlp/data/dataset_readers/dataset_utils/detectron_utils.py:44-87 | The keys of the flat dict are exactly the emitted keys, in KeyOrder (instances, sem_seg, proposals, panoptic_seg), none of them twice. |
| FlattenFacts.EveryEntryPadded | allennlp/data/dataset_readers/dataset_utils/detectron_utils.py:48-87 | Every entry of the flat dict carries the padding of its key. |
| FlattenFacts.EmptyExactlyWhenNothingEmitted | allennlp/data/dataset_readers/dataset_utils/detectron_utils.py:45-89 | The flat dict is empty exactly when no key is emitted. In particular a result with none of the four parts flattens to `{}`. |
| FlattenFacts.MissingAttributeKeepsSiblings | allennlp/data/dataset_readers/dataset_utils/detectron_utils.py:46-77 | Removing one attribute (or sem_seg) removes exactly its own key and changes no other entry. |
| FlattenFacts.PanopticVectors | allennlp/data/dataset_readers/dataset_utils/detectron_utils.py:78-87 | With "panoptic_seg" present, all four panoptic keys are present. The label map has padding −1. ids, isthings and category_ids each have one element per segment, element i taken from segment i. |
| Processor.FlattenAll | allennlp/data/dataset_readers/dataset_utils/detectron_utils.py:41-90 | One flat dict per raw result, same length, the i-th from the i-th result. |
| Processor.FlattenResults | allennlp/data/dataset_readers/dataset_utils/detectron_utils.py:41-89 | The loop returns exactly one flat dict per raw result, in order (FlattenAll). |
| Processor.Process | allennlp/data/dataset_readers/dataset_utils/detectron_utils.py:38-90 | The call succeeds exactly when every image normalises. It then returns the flattened model output on the normalised list; otherwise it returns the first normalisation error. |
| Processor.Call | allennlp/data/dataset_readers/dataset_utils/detectron_utils.py:38-90 | The loop over the model's results returns exactly Process. |
| Processor.CallOne | allennlp/data/dataset_readers/dataset_utils/detectron_utils.py:35-36 | A single image gives element 0 of the result for the one-element list. The list's error is propagated, and an empty result list is an index error. |
| Processor.OneDictPerImage | allennlp/data/dataset_readers/dataset_utils/detectron_utils.py:38-90 | If the model returns one result per input, a successful call returns one flat dict per image, in image order. |
| Processor.ModelNotRunOnBadInput | allennlp/data/dataset_readers/dataset_utils/detectron_utils.py:38-39 | An image that fails normalisation makes the call fail whatever the model does. |

## Left out

- `DetectronProcessor.__init__` (building the mapper and the model from a config and loading weights). The mapper and the model are parameters instead.
- What the mapper and the model compute, and what tensors contain: dtype, shape, device and values are not modelled. A tensor is an opaque handle.
- `torch.no_grad` and device placement. They have no effect on the values modelled.
- `fast_influence.py` and the rest of the repository: those modules are not part of this model.
- Flatten.Segment: segment "id" and "category_id" are typed `int32`, so the model does not say what `torch.tensor(..., dtype=torch.int32)` does with an integer outside that range. Torch versions differ: some wrap, some raise.
- TensorFields.TensorField: a field built without `padding_value` is recorded as having no padding. The default allennlp's `TensorField` then uses is outside this model.
- ModelInput.Dict: model-input dicts are unordered maps, because nothing downstream depends on their key order. The output dict of flattened fields does keep Python's insertion order.
- ModelInput.Prepare: the in-place update of the caller's `ImageWithSize` is not modelled, because it always raises before anything else is observed.
- Exceptions raised inside the mapper or the model (for example `DatasetMapper` failing to read a file at line 111) are not represented: both are total functions. So the "first failing image" of ModelInput.NormalizeAll counts only the processor's own errors (lines 95, 102, 109 and 112).
- Only the kinds of values that `_to_model_input` tells apart with `isinstance` are represented. A dict or list wrapped in an `ImageWithSize` is an `Opaque` object.
