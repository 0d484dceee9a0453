/**
  Shape-only ("meta") tensors: a shape and an element type, never any data.
  Only what the cost estimators need is modelled: element counts, element
  widths and the `zeros_like` that builds a tensor of the same shape.
 */
module MetaTensor {

  /** The element types a tensor may carry; only their width in bytes matters here. */
  datatype DType =
    | Bool | UInt8 | Int8 | Int16 | Int32 | Int64
    | Float16 | BFloat16 | Float32 | Float64
    | Complex32 | Complex64 | Complex128

  /** Bytes per element, as `element_size()` reports for each dtype. */
  function ElementSize(d: DType): (w: nat)
    ensures 1 <= w <= 16
    ensures w == 8 <==> d == Int64 || d == Float64 || d == Complex64
  {
    match d
    case Bool => 1
    case UInt8 => 1
    case Int8 => 1
    case Int16 => 2
    case Int32 => 4
    case Int64 => 8
    case Float16 => 2
    case BFloat16 => 2
    case Float32 => 4
    case Float64 => 8
    case Complex32 => 4
    case Complex64 => 8
    case Complex128 => 16
  }

  datatype Tensor = Tensor(shape: seq<nat>, dtype: DType)

  /** Number of elements of a tensor of the given shape (1 for a scalar). */
  function Numel(shape: seq<nat>): (n: nat)
    ensures n == 0 <==> exists i :: 0 <= i < |shape| && shape[i] == 0
  {
    if shape == [] then 1
    else
      var rest := Numel(shape[1..]);
      assert forall i :: 0 < i < |shape| ==> shape[i] == shape[1..][i - 1];
      shape[0] * rest
  }

  /** Bytes a tensor occupies: its element count times its element width. */
  function Size(t: Tensor): (s: nat)
    ensures s == 0 <==> Numel(t.shape) == 0
    ensures Numel(t.shape) <= s <= 16 * Numel(t.shape)
  {
    Numel(t.shape) * ElementSize(t.dtype)
  }

  /** `torch.zeros_like(t, dtype=d)`: same shape, the requested element type. */
  function ZerosLike(t: Tensor, d: DType): (r: Tensor)
    ensures r.shape == t.shape && r.dtype == d
    ensures Numel(r.shape) == Numel(t.shape)
    ensures Size(r) == Numel(t.shape) * ElementSize(d)
  {
    Tensor(t.shape, d)
  }

  /** The index buffer of a max-pool is `zeros_like(output, dtype=int64)`: its
      size is eight bytes per output element, whatever the output's own dtype. */
  lemma IndexBufferSize(y: Tensor, d: DType)
    ensures Size(ZerosLike(y, Int64)) == 8 * Numel(y.shape)
    ensures Size(ZerosLike(y, Int64)) == Size(ZerosLike(Tensor(y.shape, d), Int64))
  {
  }

  /** The same tensor with its leading (batch) dimension multiplied by k. */
  function ScaleBatch(t: Tensor, k: nat): (r: Tensor)
    requires |t.shape| > 0
    ensures |r.shape| == |t.shape| && r.dtype == t.dtype
    ensures r.shape[0] == k * t.shape[0] && r.shape[1..] == t.shape[1..]
  {
    Tensor([k * t.shape[0]] + t.shape[1..], t.dtype)
  }

  /** Scaling the batch dimension by k scales the element count and the byte size by k. */
  lemma {:induction false} SizeScalesWithBatch(t: Tensor, k: nat)
    requires |t.shape| > 0
    ensures Numel(ScaleBatch(t, k).shape) == k * Numel(t.shape)
    ensures Size(ScaleBatch(t, k)) == k * Size(t)
  {
    var s := ScaleBatch(t, k).shape;
    var n, rest, w := t.shape[0], Numel(t.shape[1..]), ElementSize(t.dtype);
    assert s[1..] == t.shape[1..];
    assert Numel(s) == (k * n) * rest;
    assert Numel(t.shape) == n * rest;
    assert (k * n) * rest == k * (n * rest);
    assert (k * (n * rest)) * w == k * ((n * rest) * w);
  }
}
