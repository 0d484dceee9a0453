/**
  The FLOP table the estimators consult. Its formulas are not part of this
  model: each entry is an arbitrary function of the input and output tensors.
 */
module OpCount {
  import opened MetaTensor

  /** The four aten primitives whose FLOPs the pooling estimators look up. */
  datatype Primitive =
    | AtenAdaptiveAvgPool2d
    | AtenAdaptiveAvgPool2dBackward
    | AtenMaxPool2dWithIndices
    | AtenMaxPool2dWithIndicesBackward

  /** A FLOP counter: (input tensors, output tensors) to an operation count. */
  type FlopCounter = (seq<Tensor>, seq<Tensor>) -> real

  type FlopMapping = map<Primitive, FlopCounter>
}
