# Pooling cost estimators

A model of the two cost estimators that the auto-parallel planner registers
for pooling layers (`colossalai/auto_parallel/meta_profiler/meta_registry/pooling.py`).
For one layer the estimators give three things:

- the compute cost: FLOPs of the forward pass, of the backward pass, and their total;
- the memory cost: activation and temporary bytes of each pass and in total;
- the tensors that must be saved from the forward pass.

- `avgpool_meta_info` (registered for `AdaptiveAvgPool1d/2d/3d`) is `Pooling.AvgPoolMetaInfo`.
- `maxpool_meta_info` (registered for `MaxPool1d/2d/3d`) is `Pooling.MaxPoolMetaInfo`.

Both are pure functions returning a `Result`. The two ways the source fails
are error values:

- `MissingOperand(kind)`: no ARG or no OUTPUT operand, where `next()` on an empty filter raises StopIteration.
- `UnsupportedPrimitive(op)`: the FLOP table has no entry for a primitive, where the dictionary lookup raises KeyError.

Errors are reported in the source's evaluation order: the ARG lookup, then
OUTPUT, then the forward primitive, then the backward primitive.

Modules:

- `Wrappers`: `Option` and `Result`.
- `MetaTensor`: shape-only tensors. A tensor is a shape and a dtype. `Size` is the element count times the element width in bytes. `ZerosLike` builds the int64 index buffer.
- `MemoryUtils`: `activation_size`, the sum of the sizes of a list of tensors.
- `ShardingStrategy`: operands tagged by role, `MemoryCost` (activation, and temp defaulting to 0), and `TrainCycleItem` (fwd, bwd, total).
- `OpCount`: the FLOP table. It is a map from the four aten primitives to arbitrary counter functions of (input tensors, output tensors).
- `Pooling`: operand lookup, compute and memory cost, the two estimators, and the six-class registration.

Max pooling's backward activation is `size(input) - size(index buffer)`. The
source computes it as an unchecked subtraction (pooling.py:117), so the model
keeps it as an `int`. Nothing in the code keeps the index buffer from being
larger than the input: the buffer takes 8 bytes per output element, whatever
the input's dtype (pooling.py:100). The model proves exactly when the figure is
non-negative (`MaxPoolMemory`). It also shows that it is negative whenever the
input is non-empty, the output has as many elements as the input, and the
input's dtype is narrower than 8 bytes (`MaxPoolBackwardNegativeWhenNotReduced`,
`MaxPoolBackwardNegativeExample`).

Backward FLOPs are counted on ([output], [input]) only. The index buffer is not
passed to the backward counter (pooling.py:96-97, :108).

## Model

| member | source | states |
|---|---|---|
| `Pooling.FirstIndexOf` | colossalai/auto_parallel/meta_profiler/meta_registry/pooling.py:33-34 | None exactly when no operand has the role; otherwise the position of an operand with that role with none before it |
| `Pooling.FirstIsUnique` | colossalai/auto_parallel/meta_profiler/meta_registry/pooling.py:33-34 | the first operand of a role is unique |
| `Pooling.Operand` | colossalai/auto_parallel/meta_profiler/meta_registry/pooling.py:88-89 | fails with MissingOperand(kind) exactly when no operand has the role; otherwise returns the data of the first operand with that role |
| `Pooling.Flops` | colossalai/auto_parallel/meta_profiler/meta_registry/pooling.py:49-50 | succeeds exactly when the table has the primitive, with that counter's value on the given tensors; otherwise UnsupportedPrimitive(op) |
| `Pooling.ComputeCost` | colossalai/auto_parallel/meta_profiler/meta_registry/pooling.py:36-51 | forward FLOPs are the forward counter on ([input], [output]); backward FLOPs are the backward counter with the roles swapped ([output], [input]); total = fwd + bwd; errors name the first missing primitive |
| `Pooling.AvgPoolMemory` | colossalai/auto_parallel/meta_profiler/meta_registry/pooling.py:53-60 | forward activation = size(output), backward activation = size(input), total activation = fwd + bwd; every temp is 0 |
| `Pooling.MaxPoolMemory` | colossalai/auto_parallel/meta_profiler/meta_registry/pooling.py:99-123 | forward activation = size(input) + size(output) + 8·numel(output); backward activation = size(input) − 8·numel(output) with temp 8·numel(output); total = fwd + bwd activation and temp = bwd temp; the index term cancels (total = 2·size(input) + size(output)); backward activation ≥ 0 iff 8·numel(output) ≤ size(input) |
| `Pooling.MaxPoolBackwardNegativeWhenNotReduced` | colossalai/auto_parallel/meta_profiler/meta_registry/pooling.py:117 | any output with as many elements as a non-empty input whose dtype is narrower than 8 bytes gives a negative backward activation |
| `Pooling.MaxPoolBackwardNegativeExample` | colossalai/auto_parallel/meta_profiler/meta_registry/pooling.py:117-118 | float32 [1,1,2,2] pooled to [1,1,2,2]: backward activation is −16 bytes |
| `Pooling.AvgPoolMemoryScalesWithBatch` | colossalai/auto_parallel/meta_profiler/meta_registry/pooling.py:54-58 | scaling the batch of input and output by k scales every average-pooling memory figure by k |
| `Pooling.AvgPoolForwardScalesWithOutput` | colossalai/auto_parallel/meta_profiler/meta_registry/pooling.py:54 | average pooling's forward activation ignores the input and scales by k with the output's batch |
| `Pooling.MaxPoolMemoryScalesWithBatch` | colossalai/auto_parallel/meta_profiler/meta_registry/pooling.py:112-121 | scaling the batch of input and output by k scales every max-pooling memory figure by k, index buffer included |
| `Pooling.AvgPoolMetaInfo` | colossalai/auto_parallel/meta_profiler/meta_registry/pooling.py:17-65 | succeeds iff ARG and OUTPUT operands exist and both adaptive-avg-pool primitives are in the table; each failure names its cause in source order; on success the compute cost is fwd/bwd with swapped roles and the sum, the memory is AvgPoolMemory(input, output), and the saved inputs are exactly [input] |
| `Pooling.MaxPoolMetaInfo` | colossalai/auto_parallel/meta_profiler/meta_registry/pooling.py:71-128 | succeeds iff ARG and OUTPUT operands exist and both max-pool-with-indices primitives are in the table; each failure names its cause in source order; on success the compute cost is fwd/bwd with swapped roles and the sum, the memory is MaxPoolMemory(input, output), and the saved inputs are exactly [input] |
| `Pooling.SavedInputIsTheArgument` | colossalai/auto_parallel/meta_profiler/meta_registry/pooling.py:125-126 | both estimators save exactly the data of the first ARG operand, never the output or the index buffer |
| `Pooling.AvgPoolExample` | colossalai/auto_parallel/meta_profiler/meta_registry/pooling.py:53-63 | float32 [1,3,8,8] to [1,3,4,4]: forward activation 192 bytes, backward 768 bytes, saved inputs [input] |
| `Pooling.MaxPoolExample` | colossalai/auto_parallel/meta_profiler/meta_registry/pooling.py:111-126 | the same shapes through max pooling: forward (1344, 0), backward (384, 384), total (1728, 384), saved inputs [input] |
| `Pooling.MetaInfoFor` | colossalai/auto_parallel/meta_profiler/meta_registry/pooling.py:14-71 | the three adaptive-average classes dispatch to the average-pool estimator and the three max-pool classes to the max-pool estimator; any successful estimate has total FLOPs = fwd + bwd, total activation = fwd + bwd, and one saved tensor |
| `Pooling.DimensionDoesNotMatter` | colossalai/auto_parallel/meta_profiler/meta_registry/pooling.py:14-71 | the 1d, 2d and 3d classes of one family get identical estimates, since each family's estimator ignores which class it was registered for |
| `MetaTensor.ElementSize` | colossalai/auto_parallel/meta_profiler/meta_registry/pooling.py:100 | every modelled dtype is 1 to 16 bytes wide, and exactly the 8-byte ones are int64, float64 and complex64 |
| `MetaTensor.Numel` | colossalai/auto_parallel/meta_profiler/meta_registry/pooling.py:54-55 | the element count of a shape is 0 exactly when some dimension is 0 |
| `MetaTensor.Size` | colossalai/auto_parallel/meta_profiler/meta_registry/pooling.py:117-118 | one tensor's activation_size (element count × element width): 0 exactly when the tensor has no elements, and between 1 and 16 bytes per element |
| `MetaTensor.ZerosLike` | colossalai/auto_parallel/meta_profiler/meta_registry/pooling.py:100 | the zeros-like tensor has the original's shape and element count and the requested element type, so its size is numel × that type's width |
| `MetaTensor.IndexBufferSize` | colossalai/auto_parallel/meta_profiler/meta_registry/pooling.py:100 | the int64 index buffer shaped like the output takes 8·numel(output) bytes, whatever the output's dtype |
| `MetaTensor.SizeScalesWithBatch` | colossalai/auto_parallel/meta_profiler/meta_registry/pooling.py:54-55 | multiplying a tensor's batch dimension by k multiplies its element count and its byte size by k |
| `MemoryUtils.ActivationSize` | colossalai/auto_parallel/meta_profiler/meta_registry/pooling.py:114 | the bytes of a list of tensors: 0 for the empty list, the tensor's size for a one-element list, and never less than the size of any tensor in the list |
| `MemoryUtils.ActivationSizeAppend` | colossalai/auto_parallel/meta_profiler/meta_registry/pooling.py:114 | the activation size of a concatenation of tensor lists is the sum of their activation sizes |
| `MemoryUtils.ActivationSizeTriple` | colossalai/auto_parallel/meta_profiler/meta_registry/pooling.py:114 | activation_size([input, output, index]) is the sum of the three sizes |

## Left out

- The registration decorators and the registry's dispatch are not modelled. They are replaced by a fixed choice of estimator per layer class (`MetaInfoFor`).
- The FLOP formulas live in a module that is not part of this model. Each table entry is an arbitrary function of the (inputs, outputs) tensor lists.
- FLOP counts are Python floats. The model uses `real`, so the rounding of `fwd + bwd` is not modelled.
- The implementation of `activation_size` lives in a module that is not part of this model. `ElementSize`, `Numel` and `Size` model it on one tensor (element count times element width), and `ActivationSize` sums that over a list.
- Only the five operand roles, the element width per dtype and the shape of a tensor are modelled. Operand names, logical shapes, devices and meta-tensor allocation are not.
- Only ten real and integer dtypes and three complex ones (complex32, complex64, complex128) are modelled. Others are not, among them unsigned 16/32/64-bit, 8-bit float and quantized types; this list is not complete. `ElementSize`'s bounds (1 to 16 bytes) and its "exactly 8 bytes" case hold for this list only.
- `MemoryCost` has only activation and temp. The other fields of the real record are never set by these estimators.
- Keyword arguments are ignored by both estimators and are not modelled.
- Other failures are not modelled. These include operand data that is not a tensor and a counter that raises.
