/**
  Cost estimators for the pooling layers: for one operator they give the
  FLOPs of its forward and backward pass, the bytes of activation and
  temporary memory of each pass, and the tensors saved from forward.
 */
module Pooling {
  import opened Wrappers
  import opened MetaTensor
  import opened MemoryUtils
  import opened ShardingStrategy
  import opened OpCount

  /** Why an estimator produced no result. */
  datatype Error =
    | MissingOperand(kind: OperationDataType)  // no operand with that role (StopIteration)
    | UnsupportedPrimitive(op: Primitive)      // no FLOP counter for that primitive (KeyError)

  /** Compute cost, memory cost and the tensors saved from the forward pass. */
  datatype MetaInfo = MetaInfo(
    compute: TrainCycleItem<real>,
    memory: TrainCycleItem<MemoryCost>,
    fwdIn: seq<Tensor>)

  // ---------------------------------------------------------------------
  // Operand lookup: the data of the first operand with a given role

  ghost predicate HasKind(args: seq<OperationData>, kind: OperationDataType) {
    exists i :: 0 <= i < |args| && args[i].kind == kind
  }

  /** Position i holds the first operand of the given role. */
  ghost predicate IsFirst(args: seq<OperationData>, kind: OperationDataType, i: int) {
    && 0 <= i < |args|
    && args[i].kind == kind
    && forall j :: 0 <= j < i ==> args[j].kind != kind
  }

  /** The position of the first operand of the given role, if there is one. */
  function FirstIndexOf(args: seq<OperationData>, kind: OperationDataType): (r: Option<nat>)
    ensures r.None? <==> !HasKind(args, kind)
    ensures r.Some? ==> IsFirst(args, kind, r.value)
  {
    if args == [] then None
    else if args[0].kind == kind then Some(0)
    else
      match FirstIndexOf(args[1..], kind)
      case None =>
        assert forall i :: 0 < i < |args| ==> args[i] == args[1..][i - 1];
        None
      case Some(i) =>
        assert forall j :: 0 < j <= i ==> args[j] == args[1..][j - 1];
        Some(i + 1)
  }

  /** At most one position is the first of a role. */
  lemma FirstIsUnique(args: seq<OperationData>, kind: OperationDataType, i: int, j: int)
    requires IsFirst(args, kind, i) && IsFirst(args, kind, j)
    ensures i == j
  {
  }

  /** The tensor of the first operand of the given role, or MissingOperand. */
  function Operand(args: seq<OperationData>, kind: OperationDataType): (r: Result<Tensor, Error>)
    ensures r.Failure? <==> !HasKind(args, kind)
    ensures r.Failure? ==> r.error == MissingOperand(kind)
    ensures r.Success? ==> exists i :: IsFirst(args, kind, i) && args[i].data == r.value
  {
    match FirstIndexOf(args, kind)
    case None => Failure(MissingOperand(kind))
    case Some(i) => Success(args[i].data)
  }

  // ---------------------------------------------------------------------
  // Compute cost

  /** The table's counter for op applied to the given tensors, failing when
      the table has no entry for op. */
  function Flops(table: FlopMapping, op: Primitive, ins: seq<Tensor>, outs: seq<Tensor>): (r: Result<real, Error>)
    ensures r.Success? <==> op in table
    ensures r.Failure? ==> r.error == UnsupportedPrimitive(op)
    ensures r.Success? ==> r.value == table[op](ins, outs)
  {
    if op in table then Success(table[op](ins, outs)) else Failure(UnsupportedPrimitive(op))
  }

  /** FLOPs of the forward primitive on (input -> output), of the backward
      primitive with the roles swapped (output -> input), and their sum. */
  function ComputeCost(table: FlopMapping, fwdOp: Primitive, bwdOp: Primitive, x: Tensor, y: Tensor)
    : (r: Result<TrainCycleItem<real>, Error>)
    ensures r.Success? <==> fwdOp in table && bwdOp in table
    ensures fwdOp !in table ==> r == Failure(UnsupportedPrimitive(fwdOp))
    ensures fwdOp in table && bwdOp !in table ==> r == Failure(UnsupportedPrimitive(bwdOp))
    ensures r.Success? ==>
      && r.value.fwd == table[fwdOp]([x], [y])
      && r.value.bwd == table[bwdOp]([y], [x])
      && r.value.total == r.value.fwd + r.value.bwd
  {
    var fwd :- Flops(table, fwdOp, [x], [y]);
    var bwd :- Flops(table, bwdOp, [y], [x]);
    Success(TrainCycleItem(fwd, bwd, fwd + bwd))
  }

  // ---------------------------------------------------------------------
  // Memory cost

  /** Adaptive average pooling keeps its output in forward and produces an
      input-sized gradient in backward; it declares no temporary memory. */
  function AvgPoolMemory(x: Tensor, y: Tensor): (m: TrainCycleItem<MemoryCost>)
    ensures m.fwd.activation == Size(y) && m.bwd.activation == Size(x)
    ensures m.total.activation == m.fwd.activation + m.bwd.activation
    ensures m.fwd.temp == 0 && m.bwd.temp == 0 && m.total.temp == 0
  {
    var fwd := MemoryCost(activation := Size(y));
    var bwd := MemoryCost(activation := Size(x));
    TrainCycleItem(fwd, bwd, MemoryCost(activation := fwd.activation + bwd.activation))
  }

  /** Max pooling keeps input, output and an int64 index buffer shaped like
      the output in forward; backward drops the index buffer from the
      activations and reports it as temporary memory instead. */
  function MaxPoolMemory(x: Tensor, y: Tensor): (m: TrainCycleItem<MemoryCost>)
    ensures m.fwd.activation == Size(x) + Size(y) + 8 * Numel(y.shape) && m.fwd.temp == 0
    ensures m.bwd.activation == Size(x) - 8 * Numel(y.shape)
    ensures m.bwd.temp == 8 * Numel(y.shape)
    ensures m.total.activation == m.fwd.activation + m.bwd.activation
    ensures m.total.temp == m.bwd.temp
    // the index buffer cancels out of the total activation
    ensures m.total.activation == 2 * Size(x) + Size(y)
    // the unchecked subtraction stays non-negative exactly when the index
    // buffer is no larger than the input
    ensures m.bwd.activation >= 0 <==> 8 * Numel(y.shape) <= Size(x)
  {
    var index := ZerosLike(y, Int64);
    ActivationSizeTriple(x, y, index);
    var fwd := MemoryCost(activation := ActivationSize([x, y, index]));
    var bwd := MemoryCost(activation := Size(x) - Size(index), temp := Size(index));
    TrainCycleItem(fwd, bwd, MemoryCost(activation := fwd.activation + bwd.activation, temp := bwd.temp))
  }

  /** Pooling with an output as large as the input in elements (a 1x1
      window with stride 1) gives a negative backward activation for every
      dtype narrower than eight bytes. */
  lemma {:induction false} MaxPoolBackwardNegativeWhenNotReduced(x: Tensor, y: Tensor)
    requires ElementSize(x.dtype) < 8 && Numel(x.shape) > 0
    requires Numel(y.shape) == Numel(x.shape)
    ensures MaxPoolMemory(x, y).bwd.activation < 0
  {
    var n, w := Numel(x.shape), ElementSize(x.dtype);
    assert n * w < n * 8;
  }

  /** A concrete case: a float32 input of shape [1, 1, 2, 2] pooled to the
      same shape gives a backward activation of 16 - 32 = -16 bytes. */
  lemma MaxPoolBackwardNegativeExample()
    ensures MaxPoolMemory(Tensor([1, 1, 2, 2], Float32), Tensor([1, 1, 2, 2], Float32)).bwd.activation == -16
  {
  }

  /** Every field of a memory record multiplied by k. */
  function ScaleMemory(m: MemoryCost, k: nat): MemoryCost {
    MemoryCost(k * m.activation, k * m.temp)
  }

  function ScaleCycle(c: TrainCycleItem<MemoryCost>, k: nat): TrainCycleItem<MemoryCost> {
    TrainCycleItem(ScaleMemory(c.fwd, k), ScaleMemory(c.bwd, k), ScaleMemory(c.total, k))
  }

  /** Scaling the batch of both input and output by k scales every
      average-pooling memory figure by k. */
  lemma {:induction false} AvgPoolMemoryScalesWithBatch(x: Tensor, y: Tensor, k: nat)
    requires |x.shape| > 0 && |y.shape| > 0
    ensures AvgPoolMemory(ScaleBatch(x, k), ScaleBatch(y, k)) == ScaleCycle(AvgPoolMemory(x, y), k)
  {
    SizeScalesWithBatch(x, k);
    SizeScalesWithBatch(y, k);
    assert k * (Size(y) + Size(x)) == k * Size(y) + k * Size(x);
  }

  /** Average pooling's forward activation depends on the output alone:
      scaling the output's batch by k scales it by k, whatever the input. */
  lemma {:induction false} AvgPoolForwardScalesWithOutput(x: Tensor, x': Tensor, y: Tensor, k: nat)
    requires |y.shape| > 0
    ensures AvgPoolMemory(x', ScaleBatch(y, k)).fwd.activation == k * AvgPoolMemory(x, y).fwd.activation
  {
    SizeScalesWithBatch(y, k);
  }

  /** Scaling the batch of both input and output by k scales every
      max-pooling memory figure by k, the index buffer included. */
  lemma {:induction false} MaxPoolMemoryScalesWithBatch(x: Tensor, y: Tensor, k: nat)
    requires |x.shape| > 0 && |y.shape| > 0
    ensures MaxPoolMemory(ScaleBatch(x, k), ScaleBatch(y, k)) == ScaleCycle(MaxPoolMemory(x, y), k)
  {
    var x', y' := ScaleBatch(x, k), ScaleBatch(y, k);
    SizeScalesWithBatch(x, k);
    SizeScalesWithBatch(y, k);
    var sx, sy, ny := Size(x), Size(y), Numel(y.shape);
    var m, m' := MaxPoolMemory(x, y), MaxPoolMemory(x', y');
    ScaleDistributes(k, sx, sy, ny);
    assert m'.fwd == ScaleMemory(m.fwd, k);
    assert m'.bwd == ScaleMemory(m.bwd, k);
    assert m'.total == ScaleMemory(m.total, k);
  }

  /** The arithmetic behind MaxPoolMemoryScalesWithBatch. */
  lemma ScaleDistributes(k: int, sx: int, sy: int, ny: int)
    ensures 8 * (k * ny) == k * (8 * ny)
    ensures k * sx + k * sy + 8 * (k * ny) == k * (sx + sy + 8 * ny)
    ensures k * sx - 8 * (k * ny) == k * (sx - 8 * ny)
    ensures 2 * (k * sx) + k * sy == k * (2 * sx + sy)
  {
  }

  // ---------------------------------------------------------------------
  // The two estimators

  /** Cost of an adaptive average pooling (1d, 2d or 3d). */
  function AvgPoolMetaInfo(args: seq<OperationData>, table: FlopMapping): (r: Result<MetaInfo, Error>)
    ensures r.Success? <==>
      HasKind(args, Arg) && HasKind(args, Output)
      && AtenAdaptiveAvgPool2d in table && AtenAdaptiveAvgPool2dBackward in table
    ensures !HasKind(args, Arg) ==> r == Failure(MissingOperand(Arg))
    ensures HasKind(args, Arg) && !HasKind(args, Output) ==> r == Failure(MissingOperand(Output))
    ensures HasKind(args, Arg) && HasKind(args, Output) && AtenAdaptiveAvgPool2d !in table ==>
      r == Failure(UnsupportedPrimitive(AtenAdaptiveAvgPool2d))
    ensures HasKind(args, Arg) && HasKind(args, Output) && AtenAdaptiveAvgPool2d in table && AtenAdaptiveAvgPool2dBackward !in table ==>
      r == Failure(UnsupportedPrimitive(AtenAdaptiveAvgPool2dBackward))
    ensures r.Success? ==>
      var x, y := Operand(args, Arg).value, Operand(args, Output).value;
      && r.value.compute.fwd == table[AtenAdaptiveAvgPool2d]([x], [y])
      && r.value.compute.bwd == table[AtenAdaptiveAvgPool2dBackward]([y], [x])
      && r.value.compute.total == r.value.compute.fwd + r.value.compute.bwd
      && r.value.memory == AvgPoolMemory(x, y)
      && r.value.fwdIn == [x]
  {
    var x :- Operand(args, Arg);
    var y :- Operand(args, Output);
    var compute :- ComputeCost(table, AtenAdaptiveAvgPool2d, AtenAdaptiveAvgPool2dBackward, x, y);
    Success(MetaInfo(compute, AvgPoolMemory(x, y), [x]))
  }

  /** Cost of a max pooling (1d, 2d or 3d). */
  function MaxPoolMetaInfo(args: seq<OperationData>, table: FlopMapping): (r: Result<MetaInfo, Error>)
    ensures r.Success? <==>
      HasKind(args, Arg) && HasKind(args, Output)
      && AtenMaxPool2dWithIndices in table && AtenMaxPool2dWithIndicesBackward in table
    ensures !HasKind(args, Arg) ==> r == Failure(MissingOperand(Arg))
    ensures HasKind(args, Arg) && !HasKind(args, Output) ==> r == Failure(MissingOperand(Output))
    ensures HasKind(args, Arg) && HasKind(args, Output) && AtenMaxPool2dWithIndices !in table ==>
      r == Failure(UnsupportedPrimitive(AtenMaxPool2dWithIndices))
    ensures HasKind(args, Arg) && HasKind(args, Output) && AtenMaxPool2dWithIndices in table && AtenMaxPool2dWithIndicesBackward !in table ==>
      r == Failure(UnsupportedPrimitive(AtenMaxPool2dWithIndicesBackward))
    ensures r.Success? ==>
      var x, y := Operand(args, Arg).value, Operand(args, Output).value;
      && r.value.compute.fwd == table[AtenMaxPool2dWithIndices]([x], [y])
      && r.value.compute.bwd == table[AtenMaxPool2dWithIndicesBackward]([y], [x])
      && r.value.compute.total == r.value.compute.fwd + r.value.compute.bwd
      && r.value.memory == MaxPoolMemory(x, y)
      && r.value.fwdIn == [x]
  {
    var x :- Operand(args, Arg);
    var y :- Operand(args, Output);
    var compute :- ComputeCost(table, AtenMaxPool2dWithIndices, AtenMaxPool2dWithIndicesBackward, x, y);
    Success(MetaInfo(compute, MaxPoolMemory(x, y), [x]))
  }

  /** The input is what both estimators save from forward: the output and
      the index buffer never are. */
  lemma SavedInputIsTheArgument(args: seq<OperationData>, table: FlopMapping, i: int)
    requires IsFirst(args, Arg, i)
    ensures AvgPoolMetaInfo(args, table).Success? ==> AvgPoolMetaInfo(args, table).value.fwdIn == [args[i].data]
    ensures MaxPoolMetaInfo(args, table).Success? ==> MaxPoolMetaInfo(args, table).value.fwdIn == [args[i].data]
  {
    var r := Operand(args, Arg);
    if r.Success? {
      var j :| IsFirst(args, Arg, j) && args[j].data == r.value;
      FirstIsUnique(args, Arg, i, j);
    }
  }

  /** The example of an average pooling from [1, 3, 8, 8] to [1, 3, 4, 4] in float32. */
  lemma AvgPoolExample(table: FlopMapping)
    requires AtenAdaptiveAvgPool2d in table && AtenAdaptiveAvgPool2dBackward in table
    ensures
      var x, y := Tensor([1, 3, 8, 8], Float32), Tensor([1, 3, 4, 4], Float32);
      var r := AvgPoolMetaInfo([OperationData(Arg, x), OperationData(Output, y)], table);
      && r.Success?
      && r.value.memory.fwd.activation == 192
      && r.value.memory.bwd.activation == 768
      && r.value.fwdIn == [x]
  {
    var x, y := Tensor([1, 3, 8, 8], Float32), Tensor([1, 3, 4, 4], Float32);
    var args := [OperationData(Arg, x), OperationData(Output, y)];
    assert IsFirst(args, Arg, 0) && IsFirst(args, Output, 1);
    assert Numel(x.shape) == 192 && Numel(y.shape) == 48;
    assert Size(x) == 768 && Size(y) == 192;
    SavedInputIsTheArgument(args, table, 0);
  }

  /** The same shapes through max pooling: forward keeps 768 + 192 bytes of
      tensors and 16 * 3 * 8 = 384 bytes of indices; backward frees the indices. */
  lemma MaxPoolExample(table: FlopMapping)
    requires AtenMaxPool2dWithIndices in table && AtenMaxPool2dWithIndicesBackward in table
    ensures
      var x, y := Tensor([1, 3, 8, 8], Float32), Tensor([1, 3, 4, 4], Float32);
      var r := MaxPoolMetaInfo([OperationData(Arg, x), OperationData(Output, y)], table);
      && r.Success?
      && r.value.memory.fwd == MemoryCost(1344, 0)
      && r.value.memory.bwd == MemoryCost(384, 384)
      && r.value.memory.total == MemoryCost(1728, 384)
      && r.value.fwdIn == [x]
  {
    var x, y := Tensor([1, 3, 8, 8], Float32), Tensor([1, 3, 4, 4], Float32);
    var args := [OperationData(Arg, x), OperationData(Output, y)];
    assert IsFirst(args, Arg, 0) && IsFirst(args, Output, 1);
    assert Numel(x.shape) == 192 && Numel(y.shape) == 48;
    assert Size(x) == 768 && Size(y) == 192;
    SavedInputIsTheArgument(args, table, 0);
  }

  // ---------------------------------------------------------------------
  // Registration: six layer classes, two estimators

  datatype PoolLayer =
    | AdaptiveAvgPool1d | AdaptiveAvgPool2d | AdaptiveAvgPool3d
    | MaxPool1d | MaxPool2d | MaxPool3d

  predicate IsAvgPool(layer: PoolLayer) {
    layer.AdaptiveAvgPool1d? || layer.AdaptiveAvgPool2d? || layer.AdaptiveAvgPool3d?
  }

  /** The estimator registered for a layer class. */
  function MetaInfoFor(layer: PoolLayer, args: seq<OperationData>, table: FlopMapping): (r: Result<MetaInfo, Error>)
    ensures r.Success? ==> r.value.compute.total == r.value.compute.fwd + r.value.compute.bwd
    ensures r.Success? ==> r.value.memory.total.activation == r.value.memory.fwd.activation + r.value.memory.bwd.activation
    ensures r.Success? ==> |r.value.fwdIn| == 1
    ensures IsAvgPool(layer) ==> r == AvgPoolMetaInfo(args, table)
    ensures !IsAvgPool(layer) ==> r == MaxPoolMetaInfo(args, table)
  {
    if IsAvgPool(layer) then AvgPoolMetaInfo(args, table) else MaxPoolMetaInfo(args, table)
  }

  /** The 1d, 2d and 3d classes of one family get identical estimates: the
      estimators never look at the layer class, and always consult the 2d
      primitives. */
  lemma DimensionDoesNotMatter(l1: PoolLayer, l2: PoolLayer, args: seq<OperationData>, table: FlopMapping)
    requires IsAvgPool(l1) == IsAvgPool(l2)
    ensures MetaInfoFor(l1, args, table) == MetaInfoFor(l2, args, table)
  {
  }
}
