/** The record types the cost estimators read and build. */
module ShardingStrategy {
  import opened MetaTensor

  /** The role an operand plays in an operation. */
  datatype OperationDataType = Input | Arg | Param | Buffer | Output

  /** One operand of an operation: its role and its (meta) tensor. */
  datatype OperationData = OperationData(kind: OperationDataType, data: Tensor)

  /** Memory in bytes: activations kept across the forward/backward boundary
      and temporary buffers freed within one phase (zero unless given). */
  datatype MemoryCost = MemoryCost(activation: int, temp: int := 0)

  /** A cost split into forward pass, backward pass and their total. */
  datatype TrainCycleItem<T> = TrainCycleItem(fwd: T, bwd: T, total: T)
}
