# Verified model of onnxsim's numerical and graph cores

This project models the parts of onnxsim whose correctness rests on algebra, on index arithmetic or on an
order of events, and proves what those parts promise. It is split by the component each file follows.

- **Eigenvectors and the block-affine transform.** `JacobiTheory`, `Jacobi`, `BlockAffine`, `AffineSearch`:
  the cyclic Jacobi solver that works in place on a matrix and a basis, the block-diagonal rotation made of
  its eigenvectors, the three-stage search that chooses a clip ratio, a channel scale and a rotation, and the
  operator chain that undoes them around a quantized layer.
- **Block INT4 weights.** `BlockInt4`, `AwqSearch`: rounding, block scales, clipping, packing in both storage
  layouts, the activation-aware scale search and what it writes back.
- **The split-K kernel.** `PackedWeights`, `SplitKLinear`: the dense meaning of packed weights and the tiled,
  masked kernels that compute with them, every lane of every program in any order.
- **Evaluation.** `PrunedEval`, `BoundLoop`: the reference evaluator that frees values at their last use, and
  the state-threading loop over two alternating buffers under any legal order of buffer reads and writes.
- **Nested bit planes.** `BitPlane`: codes by repeated bisection, reconstruction by bin means.
- **Graph surgery.** `OnnxGraph`, `Naming`, `BiasCorrection`, `BiasCorrector`, `MeasuredBias`, `LayerRewrite`,
  `LayerRewriter`, `ChainedLayer`: a graph as a list of nodes with an evaluator, insertion by adjacent swaps,
  fresh names, spliced corrections, rewritten layers with a running offset, and what the edited graphs compute.
- **Gradients and step graphs.** `StepGraph`, `StepBuilder`, `StepLoop`, `QuadLoss`, `LossKernels`: the numpy
  optimizer loops, the operator graphs emitted to replace them, and the exactness of the computed gradients.
- **Search and graph algorithms.** `Fragmentation`, `GreedySearch`, `NodeGroups`.
- `Sums`, `Arith`, `Common`: finite sums, division facts, optional values.

Reals stand for floating point throughout. `sqrt`, `exp`, `log`, `pow`, the sigmoid, the Adam update and an
executed model are parameters of the members that need them, constrained only by the facts those members state
(a square root squares back; exp and log are inverse; pow is positive on positive bases).

Where the code and its own description part, the model follows the code:

- AWQ's result for a layer no scale improves is described as leaving the layer untouched. The code replaces the
  codes and keeps the stored scale (`onnxsim/awq_entry.cpp:666-690`). `AwqSearch` proves that this leaves the layer
  alone if and only if it came in with the codes of rounding its float weight to nearest, says the same element by
  element, and gives a layer whose weights 7 come out as 9.8.
- Data-movement nodes are described as following the producer of their data input. In a chain fed by a graph
  input the head takes its own first consumer's level (`onnxsim/activation_sensitivity.py:222-227`), so the
  chain can end at two levels. `NodeGroups` gives such a chain and proves when a node follows its producer: under every
  assignment if and only if both take their level from the same compute node, which the graph alone determines.
- One output feeding two state inputs is accepted by `bind_loop` (`onnxsim/backend.py:778`), which rebinds that
  output and leaves a buffer stale. `BoundLoop` requires one output per state input, and proves this necessary.

## Model

| member | source | states |
|---|---|---|
| JacobiTheory.RotateLowersOff | onnxsim/affinequant_entry.cpp:493-517 | each rotation at the computed angle lowers the sum of squares above the diagonal by exactly the square of the annihilated entry |
| JacobiTheory.RotateKeepsCongruent | onnxsim/affinequant_entry.cpp:501-523 | the working matrix stays the transpose of the basis times the input times the basis, for any plane rotation |
| JacobiTheory.RotateKeepsCols | onnxsim/affinequant_entry.cpp:518-523 | a rotation keeps the columns of the basis orthonormal |
| JacobiTheory.RotateKeepsRowDot | onnxsim/affinequant_entry.cpp:518-523 | a rotation keeps every inner product of rows, so the basis stays orthonormal in its rows too |
| JacobiTheory.RotateKeepsTrace | onnxsim/affinequant_entry.cpp:501-504 | a rotation keeps the trace |
| JacobiTheory.RotateKeepsSymmetric | onnxsim/affinequant_entry.cpp:501-517 | a rotation keeps the matrix symmetric |
| JacobiTheory.RotateKeepsFrobenius | onnxsim/affinequant_entry.cpp:501-517 | a rotation keeps the sum of all squares |
| JacobiTheory.FrobeniusSplits | onnxsim/affinequant_entry.cpp:477-483 | for a symmetric matrix all squares are twice those above the diagonal plus the diagonal ones |
| JacobiTheory.RotatedEntries | onnxsim/affinequant_entry.cpp:501-504 | the two pivots move by t times the annihilated entry, which becomes zero: what the loop writes into the pivot block |
| JacobiTheory.RotatedBeside | onnxsim/affinequant_entry.cpp:505-517 | what the loop writes beside the pivots is the full two-sided rotation, and nothing else moves |
| Jacobi.TangentRoot | onnxsim/affinequant_entry.cpp:495-497 | the computed tangent solves t*t + 2*tau*t = 1 and lies in [-1, 1], for both signs of tau |
| Jacobi.Angle | onnxsim/affinequant_entry.cpp:493-499 | the computed cosine and sine are those of the angle that annihilates the pivot |
| Jacobi.RotateKeepsReached | onnxsim/affinequant_entry.cpp:493-524 | one rotation at the computed angle keeps congruence, both orthonormalities, symmetry and trace together, and the squares above the diagonal stay within their first sum |
| Jacobi.RotateInPlace | onnxsim/affinequant_entry.cpp:501-523 | the in-place updates of matrix and basis are exactly one two-sided and one one-sided rotation |
| Jacobi.EliminateInPlace | onnxsim/affinequant_entry.cpp:505-517 | the element loop over the rows beside the pivots leaves the rotated matrix and no entry it read too late |
| Jacobi.RotateBasis | onnxsim/affinequant_entry.cpp:518-523 | the basis columns are rotated in place |
| Jacobi.MeasureOff | onnxsim/affinequant_entry.cpp:477-483 | the convergence test reads the exact sum of squares above the diagonal |
| Jacobi.Sweep | onnxsim/affinequant_entry.cpp:487-525 | a sweep visits every entry above the diagonal in row order, rotates each one that is not negligible and no other, keeps every invariant and never raises the sum above the diagonal |
| Jacobi.SortedOrderSorts | onnxsim/affinequant_entry.cpp:532-539 | the final order is a permutation that sorts the eigenvalues |
| Jacobi.PickKeepsReached | onnxsim/affinequant_entry.cpp:541-552 | permuting eigenpairs keeps every invariant |
| Jacobi.CopyColumns | onnxsim/affinequant_entry.cpp:544-552 | the returned matrix holds the basis columns in sorted order |
| Jacobi.JacobiEigenSymmetric | onnxsim/affinequant_entry.cpp:469-554 | the outcome of whole sweeps, none of them started below 1e-28, stopped below it or after a hundred, and of one sort: ascending eigenvalues on the diagonal of a matrix congruent to the input through the returned orthonormal vectors; fewer than a hundred sweeps mean that less than 1e-28 is left above the diagonal |
| Jacobi.ColumnsAreEigenvectors | onnxsim/affinequant_entry.cpp:469-554 | each returned column is an eigenvector up to a squared residual no larger than what is left above the diagonal |
| Jacobi.ColumnsAreAccurate | onnxsim/affinequant_entry.cpp:484-486 | unless all hundred sweeps were used, each returned column is an eigenvector to within a squared length of 1e-28 |
| BlockAffine.AppendKeepsOrthonormal | onnxsim/affinequant_entry.cpp:558-588 | an orthogonal block placed after an orthogonal matrix gives an orthogonal matrix, for any widths |
| BlockAffine.BlockCov | onnxsim/affinequant_entry.cpp:558-588 | the accumulated block is the covariance of its own columns |
| BlockAffine.BlockDiagonalRotation | onnxsim/affinequant_entry.cpp:558-588 | blocks of the requested width, and a narrower last one, cover all columns; the rotation is orthogonal and every block holds what the solver finds for the covariance of its own columns |
| BlockAffine.ApplyRotation | onnxsim/affinequant_entry.cpp:591-624 | every row is replaced by its coordinates in the rotated basis |
| JacobiTheory.Parseval | onnxsim/affinequant_entry.cpp:591-624 | rotating activations and weights by the same orthogonal matrix keeps every output |
| JacobiTheory.RowsInvert | onnxsim/affinequant_entry.cpp:591-624 | the rotation is undone by its transpose |
| AffineSearch.ChainIsExact | onnxsim/affinequant_entry.cpp:408-439 | center, rotate, divide by the scale, multiply by the rotated and scaled weight, add weight times shift: equals the float layer for all activations, weights, positive scales and rotations |
| AffineSearch.ReconstructionError | onnxsim/affinequant_entry.cpp:408-439 | the scored error is the mean squared error of exactly the layer that will be deployed |
| AffineSearch.ChannelScaleForAlpha | onnxsim/affinequant_entry.cpp:441-457 | scales are positive, stand in the ratios of act^alpha * weight^(alpha - 1), and have geometric mean one: the normalization and nothing else |
| AffineSearch.RatiosAre | onnxsim/affinequant_entry.cpp:446-456 | in numbers: scale i times act_j^alpha * weight_j^(alpha - 1) is the same with i and j exchanged |
| AffineSearch.ColumnMaxAbs | onnxsim/affinequant_entry.cpp:781-793 | the largest magnitude of each column, or the floor where that is larger: a bound some weight reaches |
| AffineSearch.ColumnMeanAbs | onnxsim/affinequant_entry.cpp:781-800 | the mean magnitude of a column, floored above zero |
| AffineSearch.ColumnMean | onnxsim/affinequant_entry.cpp:758-765 | the shift is the column mean of the activations |
| AffineSearch.WeightTimesShift | onnxsim/affinequant_entry.cpp:772-779 | the bias is the weight times the shift |
| AffineSearch.ScaleColumns | onnxsim/affinequant_entry.cpp:800-840 | weights are multiplied by the scale channel by channel |
| AffineSearch.YFromXWt | onnxsim/affinequant_entry.cpp:321-336 | the three loops compute activations times transposed weights |
| AffineSearch.Try | onnxsim/affinequant_entry.cpp:732-877 | quantize the weights a deployment needs and score it: the kept record is honest about its own error |
| AffineSearch.TryAlphas | onnxsim/affinequant_entry.cpp:800-877 | one honest record per alpha, its scale the one the column sizes ask for; the earliest of the start and these that none beats is kept |
| AffineSearch.TurnLayer | onnxsim/affinequant_entry.cpp:820-850 | both operands in the coordinates of the orthogonal rotation made of the eigenvectors of the centered covariance |
| AffineSearch.SearchLayer | onnxsim/affinequant_entry.cpp:732-877 | every clip ratio and every alpha of both scale stages is tried, each as its own deployment; what is kept is the earliest that none beats, so the error never rises above plain round-to-nearest and a transform is kept only when strictly better |
| AffineSearch.TryClips | onnxsim/affinequant_entry.cpp:732-756 | stage one tries ratio 1 and then each further ratio, and keeps the earliest that none beats |
| AffineSearch.HonestUnique | onnxsim/affinequant_entry.cpp:732-877 | a deployment and a clip ratio determine codes, scales and error, so the tried records are the grid points themselves |
| AffineSearch.WinnerCarries | onnxsim/affinequant_entry.cpp:732-877 | chaining stages, each from the winner of those before, keeps the earliest best of all |
| BlockInt4.RoundIsTiesToEven | onnxsim/affinequant_entry.cpp:190-201 | the rounding is roundTiesToEven of section 4.3.1 of IEEE 754-2019: the nearest integer, the even one on a tie, and no other |
| BlockInt4.QuantizeRow | onnxsim/affinequant_entry.cpp:355-386 | per block the scale of its largest magnitude; every code the clamped rounding under its own block scale |
| BlockInt4.QuantizeBlockwiseInt4WithClip | onnxsim/affinequant_entry.cpp:355-386 | every row is quantized on its own, for any clip ratio |
| BlockInt4.QuantizesUnique | onnxsim/affinequant_entry.cpp:355-386 | a weight, a block size and a clip ratio determine the codes and the scales |
| BlockInt4.ScaleIsClippedMax | onnxsim/affinequant_entry.cpp:362-374 | seven scales are the largest magnitude of the block times the clip ratio, or 1e-12 where that is larger |
| BlockInt4.CodeIsNearest | onnxsim/affinequant_entry.cpp:375-384 | each code is its weight over the scale of its own block: the nearest integer, the even one on a tie, stopped at seven on either side |
| BlockInt4.UnclippedError | onnxsim/awq_entry.cpp:210-257 | without clipping no code saturates and every weight is reconstructed within half its scale |
| BlockInt4.ClippedError | onnxsim/affinequant_entry.cpp:355-386 | with clipping the error is at most the larger of half the scale and the excess over seven scales |
| BlockInt4.RowError | onnxsim/affinequant_entry.cpp:355-386 | both bounds for every element of every quantized row |
| BlockInt4.RowErrorIs | onnxsim/affinequant_entry.cpp:355-386 | in numbers: up to seven scales the error is within half a scale, past them it is exactly the distance past them |
| BlockInt4.ExpandAndMultiply | onnxsim/affinequant_entry.cpp:388-400 | the expanded weight of an element is its code times its block scale |
| BlockInt4.PackInt4 | onnxsim/awq_entry.cpp:259-271 | two codes per byte, low nibble first |
| BlockInt4.PackedPairReadsBack | onnxsim/awq_entry.cpp:259-271 | sign-extending a nibble returns the code exactly when the code is in [-8, 8) |
| BlockInt4.PackedReadsBack | onnxsim/adaround_entry.cpp:204-215 | every stored position reads back its code, exactly when the code fits |
| BlockInt4.FlattenCodes | onnxsim/affinequant_entry.cpp:896-915 | codes are flattened in the order of the stored layout |
| BlockInt4.StoredCodeReadsBack | onnxsim/affinequant_entry.cpp:896-915 | packing, then sign-extending the nibbles, returns each code at its stored position in both layouts |
| AwqSearch.ChannelScale | onnxsim/awq_entry.cpp:548-569 | activation-aware scales are positive, stand in the ratios of act^alpha, and have geometric mean one |
| AwqSearch.ScaledIsSound | onnxsim/awq_entry.cpp:586-597 | dividing the activation by the scale needs no shift, rotation or bias to be sound |
| AwqSearch.SearchScale | onnxsim/awq_entry.cpp:503-608 | round-to-nearest and one scale per further alpha are tried, each scored as deployed; the earliest that none beats is kept |
| AwqSearch.CommitMatchesScore | onnxsim/awq_entry.cpp:666-690 | what is written back at an element is what was scored there exactly when a scale won, or the round-to-nearest code of the float weight is zero, or the stored scale is the round-to-nearest one |
| AwqSearch.UntouchedExactlyWhenRoundToNearest | onnxsim/awq_entry.cpp:666-690 | when no scale wins, the layer is left as it was exactly when it came in with the codes that rounding its float weight to nearest gives |
| AwqSearch.KeptExactlyWhen | onnxsim/awq_entry.cpp:666-690 | element by element: the stored weight survives exactly when its code is the round-to-nearest one or its stored scale is zero |
| AwqSearch.ExactLayerBreaks | onnxsim/awq_entry.cpp:666-690 | a layer stored exactly under another scale: for all activations and grids no scale wins and both weights come out 9.8 instead of 7 |
| AwqSearch.PerfectStartWins | onnxsim/awq_entry.cpp:586-608 | a round-to-nearest without error is never beaten |
| PackedWeights.DequantPackedAt | onnxsim/_matmul_nbits_op.py:21-35 | the dense meaning: element kk of row i of dequant_packed is (nibble - zero point) * scale of its group |
| PackedWeights.DequantOfCodes | onnxsim/_matmul_nbits_op.py:21-35 | signed codes packed as code + 8, the even position low, dequantize to code times group scale: packing, then dequantizing, loses nothing |
| PackedWeights.DequantOfValues | onnxsim/_matmul_nbits_op.py:21-35 | with stored zero points, each packed value dequantizes to value minus zero point, times group scale |
| SplitKLinear.CDivCovers | onnxsim/_triton_w4a16.py:169-259 | the tile count covers the extent, and by less than one tile |
| SplitKLinear.TileHoldsGroups | onnxsim/_triton_w4a16.py:172-190 | for every legal group size the tile depth is a multiple of the group and of two |
| SplitKLinear.OddFactor | onnxsim/_triton_w4a16.py:172-174 | a divisor of 128 that leaves an odd quotient is 128 itself |
| SplitKLinear.NibbleLinesUp | onnxsim/_triton_w4a16.py:62-74 | loading bytes k0/2 + t and joining nibbles gives weight k0 + t |
| SplitKLinear.GroupLinesUp | onnxsim/_triton_w4a16.py:75-90 | the group index of k0 + t is that of the tile plus that of the lane |
| SplitKLinear.TileWeightIsDense | onnxsim/_triton_w4a16.py:62-92 | a tile weight is the dense weight, and zero past the depth or past the rows; every unmasked load is in bounds |
| SplitKLinear.TileDotIsPartial | onnxsim/_triton_w4a16.py:53-93 | one tile adds exactly its stretch of products; masked lanes add nothing |
| SplitKLinear.AddTile | onnxsim/_triton_w4a16.py:53-93 | the accumulator after a tile holds the products up to the next tile |
| SplitKLinear.Program | onnxsim/_triton_w4a16.py:28-93 | a program accumulates exactly the products of its own split, for its own outputs |
| SplitKLinear.LanesCoverOutputs | onnxsim/_triton_w4a16.py:43-99 | every output of every split is some lane of some program |
| SplitKLinear.LaneHasOneOutput | onnxsim/_triton_w4a16.py:43-99 | and of only one |
| SplitKLinear.DeliverLane | onnxsim/_triton_w4a16.py:94-99 | a store or an atomic add by one lane changes one output by its part |
| SplitKLinear.RunGrid | onnxsim/_triton_w4a16.py:43-99 | in every order of all lanes of all programs, outputs end up as the sum of their parts |
| SplitKLinear.SumTiles | onnxsim/_triton_w4a16.py:43-93 | consecutive stretches cover each index exactly once |
| SplitKLinear.PartsMakeLinear | onnxsim/_triton_w4a16.py:43-99 | the parts add up to the full product with the dense weight |
| SplitKLinear.ChooseSplit | onnxsim/_triton_w4a16.py:218-226 | the doubling loop ends at the power of two its two conditions determine; the recomputed split never exceeds it and no split is empty |
| SplitKLinear.PlanLaunch | onnxsim/_triton_w4a16.py:182-228 | every launch the dispatch makes has the tile sizes of its range of rows, aligned tiles, covers the depth, and splits it as chosen |
| SplitKLinear.W4Dequant | onnxsim/_triton_w4a16.py:100-166 | the dequantization kernel, in any lane order, writes the dense weight |
| SplitKLinear.DenseLinear | onnxsim/_triton_w4a16.py:180-184 | the long-prefill path multiplies by that dense weight |
| SplitKLinear.W4A16Linear | onnxsim/_triton_w4a16.py:169-259 | for every shape, legal group size and multiprocessor count, on all three paths the result is the product with the dense weight plus bias; an error exactly for illegal group sizes |
| SplitKLinear.LinearOfCodes | onnxsim/_triton_w4a16.py:169-259 | from the codes alone: every output is the sum of activations times code times group scale |
| SplitKLinear.LinearOfValues | onnxsim/_triton_w4a16.py:169-259 | with zero points: every output is the sum of activations times value minus zero point, times group scale |
| PrunedEval.LastUseIndices | onnxsim/backend.py:335-345 | the map holds exactly the consumed names, each with the last node that reads it |
| PrunedEval.WrittenLast | onnxsim/backend.py:384-385 | a written name holds the value paired with its last mention |
| PrunedEval.Unwritten | onnxsim/backend.py:384-385 | any other name keeps what it held |
| PrunedEval.StepKeepsPruned | onnxsim/backend.py:378-391 | writing a node and dropping what it spent keeps agreement with the never-freeing results on everything still needed |
| PrunedEval.RunReferencePruned | onnxsim/backend.py:348-394 | for every node list the outcome is that of an evaluator that never frees anything, missing names included, and the dictionary left is the one that writing and dropping node by node gives |
| PrunedEval.Step | onnxsim/backend.py:384-391 | one node writes its outputs and drops exactly the names it was the last to read and nobody asked for |
| PrunedEval.PrunedFollowsFull | onnxsim/backend.py:348-394 | after every node the pruned run misses a name exactly when the full one does, agrees with it on all it holds, and has dropped only finished names nobody asked for |
| PrunedEval.LiveIsExact | onnxsim/backend.py:386-391 | under write-before-read order the dictionary after each node holds exactly the defined names that are outputs, never read, or read later |
| PrunedEval.StepKeepsTight | onnxsim/backend.py:386-391 | a name is dropped as soon as its last reader has run |
| BoundLoop.SomeSchedule | onnxsim/backend.py:931-940 | every graph has a legal order of reads and writes |
| BoundLoop.ExecCorrect | onnxsim/backend.py:894-940 | under every legal interleaving of buffer reads and writes, each output is computed from the state at the start of the step, and other buffers keep their contents |
| BoundLoop.BindingIsPingPong | onnxsim/backend.py:894-930 | rebinding before each step gives each state tensor two different buffers, in and out |
| BoundLoop.PingPongSeparates | onnxsim/backend.py:783-808 | with one output per state input, no buffer is both read and written in a step |
| BoundLoop.StepIsNext | onnxsim/backend.py:894-951 | one step under any schedule is one application of the pure step function |
| BoundLoop.BoundStepLoop.constructor | onnxsim/backend.py:870-892 | the loop starts in the initial state |
| BoundLoop.BoundStepLoop.BindState | onnxsim/backend.py:894-930 | current buffers are bound as inputs, the others as outputs |
| BoundLoop.BoundStepLoop.Step | onnxsim/backend.py:894-940 | a step flips the slot, advances the state by the step function and returns the other outputs computed from the old state |
| BoundLoop.BoundStepLoop.Run | onnxsim/backend.py:894-951 | after any number of steps under any schedules the state is the step function iterated over the feeds |
| BoundLoop.SharedOutputLeavesStale | onnxsim/backend.py:778-778 | when one output feeds two state inputs, one of the two buffers is never written |
| BoundLoop.SharedOutputBreaks | onnxsim/backend.py:778-778 | so for every such binding some graph and state go wrong under every schedule: one output per state input is necessary |
| BoundLoop.SingleBufferBreaks | onnxsim/backend.py:790-796 | with a single buffer per tensor there is a legal schedule that computes the wrong state |
| BitPlane.NestedBitplaneCodes | onnxsim/any_precision_llm.py:91-110 | the nested loops over bits and bins produce the codes of repeated bisection |
| BitPlane.BisectFromExtremes | onnxsim/any_precision_llm.py:98-110 | alone in its bin an element appends a zero; otherwise a one exactly from the midpoint of the bin extremes on |
| BitPlane.Nested | onnxsim/any_precision_llm.py:142-143 | shifting the deepest codes right gives exactly the codes of fewer bits |
| BitPlane.CodesInRange | onnxsim/any_precision_llm.py:91-110 | codes of b bits lie in [0, 2^b) |
| BitPlane.CodesMonotone | onnxsim/any_precision_llm.py:91-110 | a larger value never gets a smaller code |
| BitPlane.BinSpan | onnxsim/any_precision_llm.py:91-110 | after b bisections a bin spans at most the block range over 2^b |
| BitPlane.HalvedIs | onnxsim/any_precision_llm.py:98-110 | that width times 2^b is the block range |
| BitPlane.ReconstructionBound | onnxsim/any_precision_llm.py:113-131 | every element is reconstructed within that distance |
| BitPlane.DequantizeByBinMean | onnxsim/any_precision_llm.py:113-131 | every element is replaced by the mean of its own bin |
| BitPlane.ResidualOrthogonal | onnxsim/any_precision_llm.py:113-131 | residuals are orthogonal to everything constant on bins |
| BitPlane.TotalVariance | onnxsim/any_precision_llm.py:113-145 | coarse error is fine error plus the spread of the fine means: the law of total variance |
| BitPlane.ErrorNeverRises | onnxsim/any_precision_llm.py:134-145 | materializing more bits never raises the squared error |
| BitPlane.SumConserved | onnxsim/any_precision_llm.py:113-131 | each block keeps its sum |
| BitPlane.QuantizeChannelNested | onnxsim/any_precision_llm.py:134-145 | a row is materialized block by block from its shifted codes |
| Naming.DecimalInjective | onnxsim/bias_correction.py:150-157 | different suffixes are different strings |
| Naming.UniqueName | onnxsim/bias_correction.py:150-157 | the search ends, with the base name or the first free suffixed one, and records it |
| Naming.FirstFreeUnique | onnxsim/bias_correction_entry.cpp:50-58 | every implementation of the search finds the same name |
| Naming.TakenCandidates | onnxsim/bias_correction.py:150-157 | no more candidates can be taken than there are names, so the search ends |
| OnnxGraph.InsertBySwaps | onnxsim/bias_correction_entry.cpp:119-129 | appending and walking a node down by adjacent swaps is inserting it: all other nodes keep their order |
| OnnxGraph.ReplaceIsEdit | onnxsim/affinequant_entry.cpp:997-1100 | replacing a node by a segment that implements an edit of it gives every other name the value it has under that edit, in the whole graph |
| OnnxGraph.ReplaceKeepsOrder | onnxsim/affinequant_entry.cpp:997-1100 | replacing a node by an ordered segment keeps topological order and single assignment, as the Graphs section of the ONNX IR specification asks |
| OnnxGraph.WrittenOnce | onnxsim/affinequant_entry.cpp:997-1100 | in an ordered graph no name is written twice |
| BiasCorrection.SpliceUnique | onnxsim/bias_correction_entry.cpp:75-136 | a splice is determined by graph and correction, so list insertion and swapping give the same graph |
| BiasCorrection.SpliceImplements | onnxsim/bias_correction.py:314-352 | renamed producer plus Add: the old name holds the corrected value, other outputs are as before |
| BiasCorrection.SpliceIsEdit | onnxsim/bias_correction.py:314-352 | one splice is an edit of one output, seen by every consumer |
| BiasCorrection.SplicesCorrect | onnxsim/bias_correction.py:314-352 | a list of splices with distinct outputs corrects each named output and nothing else directly |
| BiasCorrection.IndependentUnchanged | onnxsim/bias_correction.py:314-352 | a tensor not computed from a corrected output keeps its value |
| BiasCorrection.FoundIsApplicable | onnxsim/bias_correction.py:328-339 | in an ordered graph the first producer is the only one |
| BiasCorrection.SpliceKeepsOrder | onnxsim/bias_correction_entry.cpp:119-129 | a splice keeps topological order, single assignment and the record of names |
| BiasCorrector.AllNames | onnxsim/bias_correction_entry.cpp:21-48 | exactly the names of interface, initializers, nodes, inputs and outputs |
| BiasCorrector.FindProducer | onnxsim/bias_correction.py:328-339 | the first node and slot with that output, or none when nothing produces it |
| BiasCorrector.Model.Prepare | onnxsim/bias_correction.py:341-347 | fresh names in the source order, renamed producer, new initializer |
| BiasCorrector.Model.SpliceAddCorrection | onnxsim/bias_correction.py:314-352 | list insertion gives the specified splice, or nothing when there is no producer |
| BiasCorrector.Model.SpliceBySwaps | onnxsim/bias_correction_entry.cpp:83-130 | the swap loop gives the same |
| BiasCorrector.Model.ApplyBiasCorrections | onnxsim/bias_correction_entry.cpp:75-136 | the whole list, one correction after the other |
| BiasCorrector.CorrectedEvaluates | onnxsim/bias_correction.py:314-372 | for any list with distinct outputs: each named output evaluates to its producer plus its correction wherever it is used, tensors that depend on none keep their value, and the graph stays well formed |
| BiasCorrector.CorrectedKeepsWellFormed | onnxsim/bias_correction_entry.cpp:75-136 | every recorded name, topological order and single assignment survive the list |
| BiasCorrector.SomeSpliceFor | onnxsim/bias_correction.py:314-352 | a produced output can always be corrected: the fresh names exist |
| MeasuredBias.Accumulate | onnxsim/bias_correction.py:267-289 | sums and counts hold every error of every batch whose shapes agree, and of no other |
| MeasuredBias.MeasureCorrection | onnxsim/bias_correction.py:284-310 | with the correction added, the quantized outputs of every channel sum to the float ones over all batches that agree in shape; it is withheld exactly when no channel differs by more than the threshold per position |
| MeasuredBias.CorrectionCentres | onnxsim/bias_correction.py:296-299 | with it added the mean error over the calibration data is zero |
| MeasuredBias.CorrectionIsLeastSquares | onnxsim/bias_correction.py:296-299 | any other constant leaves more squared error, by its squared distance once per entry |
| MeasuredBias.CorrectionFitsOutputs | onnxsim/bias_correction.py:284-304 | adding the mean error makes a channel's quantized outputs sum to its float outputs |
| MeasuredBias.CorrectionIsNearest | onnxsim/bias_correction.py:284-304 | and brings them as near to the float outputs as any one number can: every other is farther by its squared distance, once per position |
| LayerRewrite.DrawnUnique | onnxsim/affinequant_entry.cpp:983-996 | the names drawn for a rewrite are determined |
| LayerRewrite.DrawnIsNew | onnxsim/affinequant_entry.cpp:983-996 | drawn names are new to the graph, nonempty and all different |
| LayerRewrite.UntakenNames | onnxsim/affinequant_entry.cpp:983-996 | where none of its base names is taken, a rewrite draws them in order |
| LayerRewrite.ChainBases | onnxsim/affinequant_entry.cpp:983-996 | the base names of a chain, literally |
| LayerRewrite.ScaleBases | onnxsim/awq_entry.cpp:742-765 | the base names of a scaling node, literally |
| LayerRewrite.LayerPlaced | onnxsim/affinequant_entry.cpp:997-1100 | each layer's new nodes stand directly around it, pushed back by exactly the rewrites before it |
| LayerRewrite.OtherPlaced | onnxsim/affinequant_entry.cpp:997-1100 | every other node keeps its relative order |
| LayerRewrite.FrontValue | onnxsim/affinequant_entry.cpp:1003-1066 | Sub, optional MatMul, Mul leave the edited activation under the scaled name and disturb nothing else |
| LayerRewrite.SegmentImplements | onnxsim/affinequant_entry.cpp:1003-1100 | the new nodes with the rewired layer compute the layer on its edited input with its edited output |
| LayerRewrite.SegmentOrdered | onnxsim/affinequant_entry.cpp:1003-1100 | the segment reads only what is available, writes the old output and otherwise only new names |
| LayerRewriter.NodeIndexByOutput | onnxsim/awq_entry.cpp:723-729 | the last node with each first output |
| LayerRewriter.EditableGraph.InsertNodeAt | onnxsim/awq_entry.cpp:372-378 | an empty node appended, swapped down and filled in is an insertion |
| LayerRewriter.EditableGraph.Draw | onnxsim/affinequant_entry.cpp:983-996 | names are drawn one after the other, each avoiding the ones before |
| LayerRewriter.EditableGraph.InsertFront | onnxsim/affinequant_entry.cpp:1003-1066 | two or three nodes in front of the layer, the cursor on it |
| LayerRewriter.EditableGraph.InsertChain | onnxsim/affinequant_entry.cpp:1003-1100 | one layer rewritten where it stands; the reported number of insertions is exact |
| LayerRewriter.EditableGraph.ApplyAffinequant | onnxsim/affinequant_entry.cpp:997-1103 | with the running offset every rewrite lands on its own layer: the result is the position-wise rewrite of the original graph |
| LayerRewriter.EditableGraph.ApplyAwq | onnxsim/awq_entry.cpp:723-768 | likewise with one scaling node per layer, found by its output |
| LayerRewriter.OutputIndex | onnxsim/awq_entry.cpp:723-729 | under single assignment the last node with the output is the layer |
| LayerRewriter.NextOfRun | onnxsim/affinequant_entry.cpp:999-1100 | one more layer rewritten at its original index plus the offset continues the run |
| LayerRewriter.RewrittenKeepsWellFormed | onnxsim/affinequant_entry.cpp:997-1103 | any list of rewrites in node order keeps names recorded, topological order and single assignment |
| LayerRewriter.RewrittenEvaluates | onnxsim/affinequant_entry.cpp:997-1103 | evaluating the rewritten graph is evaluating the original with each rewritten layer edited and no other, also when one feeds another |
| LayerRewriter.LayerEdits | onnxsim/affinequant_entry.cpp:997-1103 | each layer gets exactly its own rewrite's edits |
| LayerRewriter.OtherEditsKept | onnxsim/affinequant_entry.cpp:997-1103 | no other output is edited |
| ChainedLayer.EditIsLayerInput | onnxsim/affinequant_entry.cpp:1003-1066 | read over real tensors, what the layer reads is what the search scored it on |
| ChainedLayer.ChainComputesDeployment | onnxsim/affinequant_entry.cpp:1003-1100 | the rewritten layer outputs, entry by entry, what the reconstruction error was measured on, for any weights |
| ChainedLayer.ChainKeepsFloatLayer | onnxsim/affinequant_entry.cpp:1003-1100 | with unquantized target weights the rewritten layer is the float layer |
| ChainedLayer.RewrittenLayerScores | onnxsim/affinequant_entry.cpp:732-1100 | holding the weights its stored codes and scales stand for, the rewritten layer misses the float layer by exactly the error the search kept it for |
| Fragmentation.ComponentShared | onnxsim/_ep_fragmentation.py:93-106 | members of a component have the same component |
| Fragmentation.IslandsMean | onnxsim/_ep_fragmentation.py:37-54 | zero islands means everything is flagged; at most one means all unflagged nodes are connected |
| Fragmentation.VisitNeighbours | onnxsim/_ep_fragmentation.py:100-104 | unvisited neighbours are marked and pushed, in any order of the set |
| Fragmentation.Search | onnxsim/_ep_fragmentation.py:97-106 | each stack search ends and visits exactly one component |
| Fragmentation.CountIslands | onnxsim/_ep_fragmentation.py:93-106 | the count is the number of connected components of the unflagged nodes |
| Fragmentation.AddRow | onnxsim/_ep_fragmentation.py:66-74 | each named slot enters the list of its name once |
| Fragmentation.OneMoreLink | onnxsim/_ep_fragmentation.py:82-91 | a link with one side flagged is counted, one with neither joins its ends, others do nothing |
| Fragmentation.ForConsumers | onnxsim/_ep_fragmentation.py:81-91 | one producer slot against every consumer slot of the name |
| Fragmentation.Tally | onnxsim/_ep_fragmentation.py:76-91 | over all names, in any order: count and neighbours are those of all links |
| Fragmentation.EstimateFragmentation | onnxsim/_ep_fragmentation.py:57-106 | island count is the number of components, boundary count the number of producer-slot and consumer-slot pairs of different nodes with one side flagged |
| GreedySearch.NodeAtGroupLevel | onnxsim/activation_sensitivity.py:581-582 | a node of exactly one group is at its level |
| GreedySearch.ScoreIs | onnxsim/activation_sensitivity.py:581-584 | a state is scored with every node at the ladder level of its own group and the rest at the cheapest |
| GreedySearch.InsertKeepsRank | onnxsim/activation_sensitivity.py:601-604 | the ranking is by falling sensitivity, then rising cost, and loses no group |
| GreedySearch.RankGroups | onnxsim/activation_sensitivity.py:590-604 | all groups, in rank order, ties in the order given |
| GreedySearch.RankedIs | onnxsim/activation_sensitivity.py:601-604 | the order is by falling sensitivity, then rising cost, then position |
| GreedySearch.SensitivityIsGain | onnxsim/activation_sensitivity.py:590-600 | a sensitivity is how much better the model scores with only this group kept float than with every group at the cheapest level, or at uint8 when that is float |
| GreedySearch.FindOpen | onnxsim/activation_sensitivity.py:609-626 | the first group with room, or none when all are at the top |
| GreedySearch.OpenIsRanked | onnxsim/activation_sensitivity.py:626-626 | when some group has room the scan of the ranking finds one: the pick never fails |
| GreedySearch.Trial | onnxsim/activation_sensitivity.py:614-617 | a trial promotion is scored and undone |
| GreedySearch.BestPromotion | onnxsim/activation_sensitivity.py:612-624 | the first group whose trial no other beats, and positions as before |
| GreedySearch.BestTrialIs | onnxsim/activation_sensitivity.py:612-624 | no open group scores higher, none that scores the same is cheaper, and the first of those is taken |
| GreedySearch.Promote | onnxsim/activation_sensitivity.py:609-628 | one promotion by the rules, one step up the ladder |
| GreedySearch.RunIsShort | onnxsim/activation_sensitivity.py:606-629 | a run has at most groups * (levels - 1) promotions, one step each |
| GreedySearch.ReplayGivesLevels | onnxsim/activation_sensitivity.py:630-642 | replaying the trace gives the final levels: the last entry of a group, or the cheapest level |
| GreedySearch.Climb | onnxsim/activation_sensitivity.py:606-630 | the loop ends with the budget met, no room left or the steps used up |
| GreedySearch.Search | onnxsim/activation_sensitivity.py:517-642 | an error exactly for a bad ladder; otherwise a run by the rules in which every score before the last is below the budget, and a report that matches its replay |
| NodeGroups.GroupByBlock | onnxsim/activation_sensitivity.py:179-200 | every node goes to its block, or to the window named after the first node of its run, in order |
| NodeGroups.ExactlyOneGroup | onnxsim/activation_sensitivity.py:179-200 | with distinct keys each compute node is in exactly one group |
| NodeGroups.WindowIsNarrow | onnxsim/activation_sensitivity.py:183-196 | windows are runs of neighbours without a block, no wider than asked |
| NodeGroups.PropagateLevels | onnxsim/activation_sensitivity.py:214-227 | a movement node ends at the level of the compute node feeding its chain, or else of its first consumer that has one; other levels stay |
| NodeGroups.ChainTakesProducersLevel | onnxsim/activation_sensitivity.py:214-221 | a chain fed by a leveled compute node is at that level all along |
| NodeGroups.SettledAtLeaf | onnxsim/activation_sensitivity.py:214-227 | with all compute nodes leveled, each node ends at the level of one compute node that the graph alone determines |
| NodeGroups.FollowsExactlyWhen | onnxsim/activation_sensitivity.py:214-227 | a movement node ends at its producer's level exactly when the compute nodes of the two are at one level |
| NodeGroups.AlwaysFollowsExactlyWhen | onnxsim/activation_sensitivity.py:214-227 | it follows its producer under every assignment of levels exactly when the two take theirs from the same compute node |
| NodeGroups.InputFedChainMaySplit | onnxsim/activation_sensitivity.py:222-227 | a graph-input-fed chain whose members end at different levels |
| StepGraph.FloorIsFloor | onnxsim/autoround.py:331-361 | truncating cast minus the overshoot mask is floor, for all values that fit the cast, negative ones included |
| StepGraph.HEval | onnxsim/autoround.py:440-448 | the masked graph form of the relaxation and its slope is the clip and where of the numpy loop |
| StepGraph.RelaxationIs | onnxsim/adaround.py:157-163 | the relaxation is the sigmoid stretched to [-0.1, 1.1] and cut to [0, 1], with its slope where it is not cut |
| StepGraph.DiffEval | onnxsim/autoround.py:459-460 | the emitted residual is the numpy one |
| StepGraph.WeightGradEval | onnxsim/autoround.py:459-462 | the emitted weight gradient is the numpy one |
| StepGraph.RegularizerEval | onnxsim/autoround.py:469-477 | the emitted regularizer is the numpy one, and zero under zero weight |
| StepGraph.RegularizerIs | onnxsim/autoround.py:276-281 | the regularizer in numbers, pushing the relaxation away from one half on either side |
| StepGraph.GradVEval | onnxsim/autoround.py:464-478 | the emitted rounding gradient is the numpy one, warm start included, for any bin and scale |
| StepGraph.GatherIsRepeat | onnxsim/autoround.py:435-437 | Gather by block index is numpy repeat |
| StepGraph.ScaleSlopeEval | onnxsim/autoround.py:480-484 | code minus masked ratio is the where of the numpy loop |
| StepGraph.ReshapeIndex | onnxsim/autoround.py:488-493 | the reshaped element (i, b, s) is column b * size + s of row i |
| StepGraph.GradCEval | onnxsim/autoround.py:480-494 | the emitted clip gradient is the numpy one: Reshape and ReduceSum are its block sum |
| StepBuilder.RunIsEval | onnxsim/autoround.py:364-494 | running an emitted node list in order gives the value its terms describe |
| StepBuilder.GraphBuilder.Emit | onnxsim/autoround.py:309-361 | appending a node keeps what all earlier names stand for |
| StepBuilder.GraphBuilder.Floor | onnxsim/autoround.py:331-361 | the emitted nodes stand for the composed floor |
| StepBuilder.GraphBuilder.Relaxation | onnxsim/autoround.py:440-448 | the emitted nodes stand for the relaxation and its slope |
| StepBuilder.GraphBuilder.BuildAutoroundStep | onnxsim/autoround.py:415-494 | the emitted nodes stand for both gradients of the joint search |
| StepBuilder.GraphBuilder.BuildRoundingStep | onnxsim/adaround.py:279-315 | the emitted nodes stand for the gradient of the fixed-scale search |
| StepBuilder.EmittedGradV | onnxsim/autoround.py:415-478 | run on a layer, the emitted joint step gives the numpy loop's rounding gradient at every entry |
| StepBuilder.EmittedGradC | onnxsim/autoround.py:480-494 | run on a layer, the emitted joint step gives the numpy loop's clip gradient for every block |
| StepBuilder.EmittedRoundingGradient | onnxsim/adaround.py:279-315 | run on a layer, the emitted fixed-scale step gives the numpy loop's gradient at every entry |
| StepLoop.SameGradients | onnxsim/autoround.py:255-292 | from agreeing states both gradients agree at every entry |
| StepLoop.LoopsAgree | onnxsim/autoround.py:581-596 | for weights below 2^31 of the smallest scale the clip range allows, the graph loop and the numpy loop are in the same state at every iteration, for all shapes |
| StepGraph.InputsFitAlways | onnxsim/autoround.py:331-361 | such weights fit the INT32 cast whatever the clip parameters become |
| StepLoop.NumpyGradientIsExact | onnxsim/autoround.py:255-275 | the weight gradient of every iteration is the exact one: for every perturbation of the soft weights the mean squared error moves by its inner product with it plus the mean square of the moved outputs |
| StepLoop.RanIsNumpy | onnxsim/autoround.py:524-618 | fed a state the numpy loop agrees with, running the emitted nodes gives both of its gradients |
| StepLoop.JointLoopOnGraph | onnxsim/autoround.py:524-618 | building the step graph once and running its nodes every iteration ends in the state of the numpy loop |
| StepLoop.RoundingLoopsAgree | onnxsim/adaround.py:207-240 | the fixed-scale graph loop follows its numpy loop at every iteration |
| StepLoop.FinalCodeIsAdjacent | onnxsim/adaround_entry.cpp:466-480 | the code is the upper end of the bin exactly when the sigmoid is past one half and the lower end otherwise, in range, and moves the weight by at most one scale |
| StepLoop.BetaMoves | onnxsim/autoround.py:578-592 | the exponent moves in equal steps from its start at the end of the warm start to its end at the last iteration |
| QuadLoss.WeightAdjoint | onnxsim/adaround_entry.cpp:341-355 | the weight-gradient product is the exact adjoint of the layer in its weights |
| QuadLoss.ActivationAdjoint | onnxsim/adaquant_entry.cpp:441-458 | the activation-gradient product is the exact adjoint of the layer in its activations |
| QuadLoss.WeightGradientIsExact | onnxsim/adaround_entry.cpp:419-426 | for every perturbation of the weights the loss moves by its inner product with the computed gradient plus the mean square of the moved outputs |
| QuadLoss.ActivationGradientIsExact | onnxsim/adaquant_entry.cpp:553-588 | the same for every perturbation of the activations |
| QuadLoss.BlockSumIsAdjoint | onnxsim/autoround_entry.cpp:634-646 | summing over blocks is the exact adjoint of broadcasting blocks |
| LossKernels.AtB | onnxsim/adaquant_entry.cpp:423-438 | the loops compute the transposed product |
| LossKernels.AccumulateRow | onnxsim/adaquant_entry.cpp:446-457 | accumulating in place with zero entries skipped gives the row of the product |
| LossKernels.AB | onnxsim/adaquant_entry.cpp:441-458 | all rows of the product |
| LossKernels.BroadcastBlocks | onnxsim/autoround_entry.cpp:527-538 | every column gets the value of its block |
| LossKernels.SumIntoBlocks | onnxsim/autoround_entry.cpp:634-646 | one pass over the columns leaves the sum of each block |
| LossKernels.MeanSquare | onnxsim/autoround_entry.cpp:832-869 | the accumulated loss is the mean squared error |
| LossKernels.KeepBetterOf | onnxsim/autoround.py:175-204 | the outcome is never worse than rounding alone on the same data, and the joint result is kept only when strictly better |

## Left out

- Floating point: rounding, overflow, NaN and the narrowing casts of stored scales and activations.
- `JacobiEigenSymmetric` and `BlockDiagonalRotation` keep their square matrices in two-dimensional arrays; the
  row-major flattening of the source is not modelled, nor is the library sort, which is an insertion order here.
- Convergence rates of the eigensolver and of the Adam loops: the code claims none.
- `W4A16Linear`: a power-of-two constraint of the Triton compiler on tile depths is outside the model, and so are
  the empty extents k = 0, on which the split divides by zero, and n = 0, whose result has no element.
- `RunReferencePruned`: nodes with subgraphs, evaluation contexts and linked attributes are excluded, as the
  source excludes subgraphs before calling it.
- `BoundLoop`: provider checks, device copies, output specifications and the fallback to unbound execution.
- `JointLoop` and `JointLoopOnGraph`: the Adam update and its bias corrections are one shared function of
  parameter, moments, gradient, rate and iteration; the nodes the update and the loss emit come from helpers in
  `onnxsim/qat_graph.py`, which is not part of this model.
- `FloorIsFloor`: says nothing about quotients outside the INT32 range, which the cast leaves undefined; the loop
  theorems bound the weights by the smallest scale the clip range allows, which keeps every quotient inside it.
- `GraphBuilder`: names of emitted nodes are positions, and inputs and initializers are read by name.
- `FinalCodeIsAdjacent`: the relaxation's starting point is not modelled, since no choice of it changes the claim.
- `EstimateFragmentation`: the list of flagged node names in the report.
- `Search`: scores come from an executed model, so the score is a function of the level assignment; the MAC
  estimate that can serve as cost is a parameter.
- `GroupByBlock`: the regular expression that finds a block in a node name is a given block per node; the
  per-node, per-operator and user-given groupings are one-line partitions and are omitted.
- `PropagateLevels`: producers and consumers are given by position instead of by tensor name.
- The fold split of the scorer and the lists of excluded nodes and tensor types built from the levels.
- `ApplyAffinequant` and `ApplyAwq`: rewrites are given in node order, each with its layer's first input as
  activation; finding them, and replacing stored codes and scales by initializer name, is outside these methods.
- `RewrittenLayerScores`: the weight tensor is the one the stored codes and scales stand for; that DequantizeLinear
  computes it from the stored scale layout is not modelled.
- `CorrectedEvaluates`: a requested output that is no name of the graph must not be one that could be drawn for
  a requested output; the code would then correct the made-up tensor.
- `MeasureCorrection`: batches have the same channels and at least one position each.
- Broadcasting of a correction to its channel axis, spatial corrections with their block averages and bilinear
  maps, and the listing of correctable outputs.
- AdaQuant's activation rounding and its clamped zero point: straight-through estimates have no exact derivative
  to compare with.
- Activation-row collection: batches with unexpected types or widths are skipped there and rows are concatenated.
- Candidate matching, attribute and type plumbing, storage formats, endianness, model loading and calibration runs.
- Thin delegating wrappers, dispatch tables, user interface, schemas, build and benchmarks.
- The simplifier's fixed point, the function matcher and the archive formats.
