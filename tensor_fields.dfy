/**
  Tensors, allennlp's TensorField and the Python dict that the flattener fills.

  A tensor is an opaque handle: its contents, dtype and device are not modelled.
  The only tensors whose contents matter are the three vectors built from the
  panoptic segment list, which are given their elements explicitly.
 */
module TensorFields {
  import opened Wrappers

  /** A torch tensor, known only by identity. */
  datatype Tensor = Tensor(handle: nat)

  /** The values of a `torch.int32` tensor. */
  newtype int32 = x: int | -0x8000_0000 <= x < 0x8000_0000

  /** The three padding values the flattener passes: -1, False and 0.0. */
  datatype PadTag = NegOne | False | ZeroReal

  /** What a TensorField wraps: a tensor produced by the model, or a vector built from a list. */
  datatype FieldTensor =
    | Raw(t: Tensor)
    | Int32Vector(xs: seq<int32>)
    | BoolVector(bs: seq<bool>)

  /** `TensorField(tensor, padding_value=...)`; `padding` is None when no padding_value is passed. */
  datatype TensorField = TensorField(tensor: FieldTensor, padding: Option<PadTag>)

  /** One key/value pair of a Python dict. */
  datatype Entry<K> = Entry(key: K, field: TensorField)

  /** A Python dict from keys to TensorFields, in insertion order. */
  type FieldDict<K> = seq<Entry<K>>

  /** `list(f.keys())`, in insertion order. */
  function Keys<K>(f: FieldDict<K>): (ks: seq<K>)
    ensures |ks| == |f|
  {
    if f == [] then [] else [f[0].key] + Keys(f[1..])
  }

  /** No key occurs twice, as in every Python dict. */
  predicate Distinct<K(==,!new)>(ks: seq<K>)
  {
    forall i, j :: 0 <= i < j < |ks| ==> ks[i] != ks[j]
  }

  /** `f.get(k)`: the value stored under `k`, if any. */
  function Get<K(==)>(f: FieldDict<K>, k: K): (r: Option<TensorField>)
    ensures r.Some? <==> k in Keys(f)
  {
    if f == [] then None
    else if f[0].key == k then Some(f[0].field)
    else Get(f[1..], k)
  }

  /**
    `f[k] = v`: a key already present keeps its position and gets the new value;
    a new key is appended at the end.
   */
  function Put<K(==,!new)>(f: FieldDict<K>, k: K, v: TensorField): (r: FieldDict<K>)
    ensures k !in Keys(f) ==> r == f + [Entry(k, v)]
    ensures k in Keys(f) ==> Keys(r) == Keys(f)
  {
    if f == [] then [Entry(k, v)]
    else if f[0].key == k then [Entry(k, v)] + f[1..]
    else
      var rest := Put(f[1..], k, v);
      assert ([f[0]] + rest)[1..] == rest;
      [f[0]] + rest
  }

  /**
    The statement `f[k] = v`: a new key is appended; a present key keeps its
    position and only its value changes.
   */
  method SetItem<K(==,!new)>(f: FieldDict<K>, k: K, v: TensorField) returns (r: FieldDict<K>)
    ensures k !in Keys(f) ==> r == f + [Entry(k, v)]
    ensures k in Keys(f) ==> r == Put(f, k, v)
  {
    r := Put(f, k, v);
  }

  /** After `f[k] = v`, `k` maps to `v` and every other key to what it mapped to before. */
  lemma {:induction false} PutGet<K(!new)>(f: FieldDict<K>, k: K, v: TensorField)
    ensures Get(Put(f, k, v), k) == Some(v)
    ensures forall k' :: k' != k ==> Get(Put(f, k, v), k') == Get(f, k')
  {
    if f != [] && f[0].key != k {
      PutGet(f[1..], k, v);
      assert ([f[0]] + Put(f[1..], k, v))[1..] == Put(f[1..], k, v);
    }
  }

  /** Looking a key up in `a + b` finds it in `a` first. */
  lemma {:induction false} GetAppend<K>(a: FieldDict<K>, b: FieldDict<K>, k: K)
    ensures Get(a + b, k) == if k in Keys(a) then Get(a, k) else Get(b, k)
  {
    if a == [] {
      assert a + b == b;
    } else {
      assert (a + b)[0] == a[0];
      assert (a + b)[1..] == a[1..] + b;
      assert Keys(a) == [a[0].key] + Keys(a[1..]);
      if a[0].key != k {
        GetAppend(a[1..], b, k);
      }
    }
  }

  lemma {:induction false} KeysAppend<K>(a: FieldDict<K>, b: FieldDict<K>)
    ensures Keys(a + b) == Keys(a) + Keys(b)
  {
    if a == [] {
      assert a + b == b;
    } else {
      assert (a + b)[1..] == a[1..] + b;
      KeysAppend(a[1..], b);
    }
  }
}
