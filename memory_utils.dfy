/** `activation_size`: the bytes held by a tensor or a list of tensors. */
module MemoryUtils {
  import opened MetaTensor

  /** Total bytes of a list of tensors: the sum of their sizes. */
  function ActivationSize(ts: seq<Tensor>): (r: nat)
    ensures ts == [] ==> r == 0
    ensures |ts| == 1 ==> r == Size(ts[0])
    ensures forall i :: 0 <= i < |ts| ==> Size(ts[i]) <= r
  {
    if ts == [] then 0
    else
      var rest := ActivationSize(ts[1..]);
      assert forall i :: 0 < i < |ts| ==> ts[i] == ts[1..][i - 1];
      Size(ts[0]) + rest
  }

  /** The size of a concatenation is the sum of the sizes of its parts. */
  lemma {:induction false} ActivationSizeAppend(a: seq<Tensor>, b: seq<Tensor>)
    ensures ActivationSize(a + b) == ActivationSize(a) + ActivationSize(b)
  {
    if a == [] {
      assert a + b == b;
    } else {
      assert (a + b)[0] == a[0];
      assert (a + b)[1..] == a[1..] + b;
      ActivationSizeAppend(a[1..], b);
    }
  }

  /** A list of three tensors holds the sum of their three sizes. */
  lemma {:induction false} ActivationSizeTriple(a: Tensor, b: Tensor, c: Tensor)
    ensures ActivationSize([a, b, c]) == Size(a) + Size(b) + Size(c)
  {
    assert [a, b, c] == [a] + [b] + [c];
    ActivationSizeAppend([a] + [b], [c]);
    ActivationSizeAppend([a], [b]);
  }
}
