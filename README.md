# Neural-network, modelled in Dafny

This project models the core of a small Rust neural-network library and its MNIST loader:

- **Matrix algebra** (`matrix.dfy`, module `Matrices`). A matrix is a value with `rows`, `cols` and `data`. The constructors `zeros`, `random` and `From` and the entrywise `map` are functions. `dot`, `transpose`, `+`, `-`, matrix `*` and scalar `*` are methods. Each of those methods fills a zero matrix in nested loops, as the library does, and is proved equal to a pure definition. The fallible ones return a `Result` that is `Err` exactly when the operand shapes do not fit.
- **The network** (`network.dfy`, module `Networks`; pure definitions in `network_spec.dfy`, module `NetworkSpec`). `Network` is a class whose fields mirror the Rust struct. The layer sizes, the activation and the learning rate are `const`, because nothing after `new` reassigns them. Weights, biases and the two recording histories are `var`s that the methods update in place. Each method is proved against the pure definitions:
  - the forward pass and the recorded forward pass;
  - back-propagation, which reads the histories by absolute index from the front;
  - the gradient update;
  - online training (`train`);
  - mini-batch training over overlapping windows (`stohastic_train`);
  - counting exact answers (`test`).
- **The stale-history defect** of mini-batch training (`stale_history.dfy`, module `StaleHistory`): a counterexample, and the evidently intended step with its property.
- **The MNIST IDX loader** (`mnist.dfy`, module `Mnist`). The two files are byte sequences read through advancing cursors. The loader checks both magic numbers and that the two count fields agree. It skips the dimension fields and reads `count` records of 784 image bytes and 1 label byte. Any read past the end fails the whole load.

`outcomes.dfy` holds the `Result` and `Option` types.

Where the library would panic (an index out of range, an `assert!`), the model puts a `requires` on the caller. The MNIST loader is the exception: its two `assert!`s become the `BadMagic` and `CountMismatch` failures, so that unpacking either fails or yields data.

Behaviour of the code worth noting:

- `Network::new` with a single layer does not fail. It builds a network with no weights (`src/libneuralnetwork/network.rs:20`), so the constructor only requires at least one layer. Back-propagation and training require two.
- Seeking past the end of a file succeeds. With a count of 0 the loader reads no record, so an images file of only 8 bytes loads. `Mnist.Decode` fails on a short file only when a record read actually runs past its end.

## Model

| member | source | states |
|---|---|---|
| Matrices.Zeros | src/libneuralnetwork/matrix.rs:14-20 | a rows x cols matrix whose every entry is 0 |
| Matrices.Random | src/libneuralnetwork/matrix.rs:22-33 | a rows x cols matrix whose entry [i][j] is the sampler's draw for (i, j) |
| Matrices.FromRows | src/libneuralnetwork/matrix.rs:79-87 | rows = number of rows given, cols = length of the first row, data kept; well-formed exactly when every row is as long as the first |
| Matrices.Mapped | src/libneuralnetwork/matrix.rs:66-76 | same stored shape and layout, every entry replaced by f of it; well-formed input gives well-formed output |
| Matrices.Dot | src/libneuralnetwork/matrix.rs:35-52 | Err exactly when the shapes differ, carrying both shapes; otherwise the entrywise product |
| Matrices.Transpose | src/libneuralnetwork/matrix.rs:54-64 | the cols x rows matrix with entry [j][i] equal to entry [i][j] |
| Matrices.Add | src/libneuralnetwork/matrix.rs:93-110 | Err exactly when the shapes differ; otherwise the entrywise sum |
| Matrices.Sub | src/libneuralnetwork/matrix.rs:117-134 | Err exactly when the shapes differ; otherwise the entrywise difference |
| Matrices.Mul | src/libneuralnetwork/matrix.rs:141-164 | Err exactly when lhs cols differ from rhs rows; otherwise entry [i][j] is the inner product of row i and column j |
| Matrices.Scale | src/libneuralnetwork/matrix.rs:171-181 | every entry multiplied by the scalar; never fails |
| Matrices.TransposeInvolution | src/libneuralnetwork/matrix.rs:54-64 | transposing twice gives the matrix back |
| Matrices.ProductTranspose | src/libneuralnetwork/matrix.rs:141-164 | the transpose of a product is the product of the transposes in reverse order |
| Matrices.RowColumnRoundTrip | src/libneuralnetwork/network.rs:42-49 | a vector made a 1 x n row and transposed is an n x 1 column of the same entries, and transposing back gives row 0 equal to the vector |
| Matrices.SumZerosLeft | src/libneuralnetwork/network.rs:160-177 | adding to the zero accumulator changes nothing |
| NetworkSpec.FlattenColumn | src/libneuralnetwork/network.rs:42-49 | turning a vector into a column and back gives the vector |
| NetworkSpec.ColumnFlatten | src/libneuralnetwork/network.rs:42-49 | turning a column into a vector and back gives the column |
| NetworkSpec.Predict | src/libneuralnetwork/network.rs:36-50 | the forward pass: the input column propagated through every layer and flattened, one entry per output neuron |
| NetworkSpec.RecordingAt | src/libneuralnetwork/network.rs:58-67 | a recorded pass starts with the input column, pre-activation k is weights times activation k plus bias, and activation k+1 is f of pre-activation k |
| NetworkSpec.RecordingShaped | src/libneuralnetwork/network.rs:58-67 | a single recording is a history back-propagation can read |
| NetworkSpec.AppendShaped | src/libneuralnetwork/network.rs:170-172 | appending a readable history to open histories leaves readable histories |
| NetworkSpec.AppendRecording | src/libneuralnetwork/network.rs:170-172 | appending one recording to open histories leaves readable histories |
| NetworkSpec.RecordingKeepsOpen | src/libneuralnetwork/network.rs:52-70 | open histories stay open when a whole recording pass is appended to them |
| NetworkSpec.Delta | src/libneuralnetwork/network.rs:88-101 | the error signal of transition l, a column of height layers[l+1]: for the output, twice the output error times f' of the LAST pre-activation; below it, the next signal pulled back through the next weights times f' of pre-activation l counted from the FRONT |
| NetworkSpec.Gradients | src/libneuralnetwork/network.rs:72-105 | per transition, the weight gradient (signal times activation l transposed, read from the front) and the bias gradient (the signal), each shaped like its weight or bias |
| NetworkSpec.DeltaReadsFront | src/libneuralnetwork/network.rs:88-98 | each error signal depends only on the front pre-activations and the last one |
| NetworkSpec.GradientsReadFront | src/libneuralnetwork/network.rs:88-101 | back-propagation reads only the front pre-activations, the last pre-activation and the front activations: histories agreeing there give the same gradients |
| NetworkSpec.Updated | src/libneuralnetwork/network.rs:107-115 | every weight and bias minus the rate times its gradient, shapes kept |
| NetworkSpec.OnlineStep | src/libneuralnetwork/network.rs:129-135 | one online step: the update by the gradients of the example back-propagated over its own recording, shapes kept |
| NetworkSpec.Online | src/libneuralnetwork/network.rs:123-137 | the online steps over the examples, first example first, shapes kept |
| NetworkSpec.OnlineState | src/libneuralnetwork/network.rs:123-137 | the state online training ends in: the parameters of Online, and histories holding only the last example's recording under the parameters before its step; unchanged without examples |
| NetworkSpec.OnlineStateAppend | src/libneuralnetwork/network.rs:128-136 | one more example is one more online step, with the histories replaced by that example's recording under the parameters before the step |
| NetworkSpec.OnlineStateConcat | src/libneuralnetwork/network.rs:123-137 | training over two runs ends where training over the second, from the state the first ended in, ends; histories included |
| NetworkSpec.UpdatedEntries | src/libneuralnetwork/network.rs:107-115 | each weight and bias entry moves by the rate times its gradient entry |
| NetworkSpec.OnlineAppend | src/libneuralnetwork/network.rs:128-136 | online training over one more example is one more online step |
| NetworkSpec.OnlineConcat | src/libneuralnetwork/network.rs:123-137 | training over two runs is training over the second from where the first ended |
| NetworkSpec.Repeat | src/libneuralnetwork/network.rs:123 | the repeated schedule is empty exactly when there are no epochs or no examples, and holds only the examples |
| NetworkSpec.OnlineEpoch | src/libneuralnetwork/network.rs:123-137 | one more epoch continues the online steps from where the earlier epochs ended |
| NetworkSpec.NextEpoch | src/libneuralnetwork/network.rs:123-137 | the state reached after e epochs, trained over one more epoch, is the state after e + 1 epochs, histories included |
| NetworkSpec.RepeatOrder | src/libneuralnetwork/network.rs:123-136 | the schedule visits epochs x n examples, step k being example k mod n |
| NetworkSpec.Zip | src/libneuralnetwork/network.rs:147-148 | as many pairs as the shorter input, pair k being (inputs k, outputs k) |
| NetworkSpec.AccumulateExample | src/libneuralnetwork/network.rs:170-177 | the example's recording appended to the histories without clearing, and its gradients, read from the front of the grown histories, added to the sums; the result is readable and shaped |
| NetworkSpec.AccumulateWindow | src/libneuralnetwork/network.rs:158-178 | a whole window accumulated from zero sums onto the running histories with the parameters fixed; histories stay open and sums shaped |
| NetworkSpec.WindowStep | src/libneuralnetwork/network.rs:158-186 | one mini-batch: the window accumulated, then one update by the sums at rate over window length; shapes kept and histories open |
| NetworkSpec.ZerosLike | src/libneuralnetwork/network.rs:160-168 | one zero matrix per weight and per bias, of its shape |
| NetworkSpec.Windows | src/libneuralnetwork/network.rs:156 | n - k + 1 windows (none when n < k), window s being examples s .. s + k |
| NetworkSpec.WindowsFromBatch | src/libneuralnetwork/network.rs:156 | every window has k examples, all from the batch |
| NetworkSpec.ShuffleKeeps | src/libneuralnetwork/network.rs:155 | a shuffle keeps the batch length and the examples fitting |
| NetworkSpec.WindowsWindowable | src/libneuralnetwork/network.rs:156 | every window of a batch that fits is non-empty and fits |
| NetworkSpec.MiniBatchEpochs | src/libneuralnetwork/network.rs:150-187 | epochs keep the parameters shaped and the histories open, and the batch keeps its length |
| NetworkSpec.Round | src/libneuralnetwork/network.rs:203 | an integer within 1/2 of x, halfway cases away from zero |
| NetworkSpec.RoundAll | src/libneuralnetwork/network.rs:203 | every entry rounded |
| NetworkSpec.Passes | src/libneuralnetwork/network.rs:190-211 | the count of exact answers never exceeds the number of examples |
| Networks.Network.constructor | src/libneuralnetwork/network.rs:16-34 | weights[i] of shape layers[i+1] x layers[i] and biases[i] of height layers[i+1], drawn from the sampler; empty histories; the given activation and learning rate |
| Networks.Network.FeedForward | src/libneuralnetwork/network.rs:36-50 | the answer is the prediction of the pure forward pass, one entry per output neuron |
| Networks.Network.WeightedInput | src/libneuralnetwork/network.rs:62 | weights[i] times the activation plus biases[i] |
| Networks.Network.RecordLayer | src/libneuralnetwork/network.rs:62-66 | the next activation, with the pre-activation and the activation appended to their histories |
| Networks.Network.FeedForwardAndRecord | src/libneuralnetwork/network.rs:52-70 | the same answer as the forward pass, and exactly the pass's pre-activations and activations appended to the histories |
| Networks.Network.BackPropagate | src/libneuralnetwork/network.rs:72-105 | the gradients are those defined from the histories, read from the front except for the last pre-activation |
| Networks.Network.UpdateNetwork | src/libneuralnetwork/network.rs:107-115 | the parameters become the update of the old ones by the learning rate; shapes kept |
| Networks.Network.Descend | src/libneuralnetwork/network.rs:180-185 | the parameters become the update of the old ones by the given rate; shapes kept |
| Networks.Network.RecordExample | src/libneuralnetwork/network.rs:129-132 | after clearing and recording, the histories hold exactly the example's recording |
| Networks.Network.LearnFromRecording | src/libneuralnetwork/network.rs:133-135 | back-propagating that recording and updating is one online step |
| Networks.Network.TrainStep | src/libneuralnetwork/network.rs:129-135 | the parameters take one online step; the histories hold the example's recording |
| Networks.Network.TrainEpoch | src/libneuralnetwork/network.rs:128-137 | the state becomes OnlineState over the examples: the online steps in order, and histories holding only the last example's recording made before its step (untouched when there are no examples) |
| Networks.Network.Train | src/libneuralnetwork/network.rs:117-138 | the state becomes OnlineState over the examples repeated epochs times: the parameters take every online step, and the histories hold only the recording of the last example, made with the parameters before its step; untouched when nothing is trained |
| Networks.Network.TrainNextEpoch | src/libneuralnetwork/network.rs:123-137 | one more epoch extends the state reached so far, parameters and histories |
| Networks.Network.ZeroGradients | src/libneuralnetwork/network.rs:160-168 | zero sums shaped like the weights and the biases |
| Networks.Network.RecordAndAccumulate | src/libneuralnetwork/network.rs:170-178 | the example's recording is appended without clearing, and its gradients, read from the front of the grown histories, are added to the sums |
| Networks.Network.AccumulateNext | src/libneuralnetwork/network.rs:170-178 | one more example of the window accumulated |
| Networks.Network.AccumulateMiniBatch | src/libneuralnetwork/network.rs:160-178 | the histories and sums are those of the window accumulated from zero |
| Networks.Network.TrainMiniBatch | src/libneuralnetwork/network.rs:158-186 | state after one window step: the update by the sums, at rate over window length |
| Networks.Network.TrainWindows | src/libneuralnetwork/network.rs:156-186 | one window step per window, in order |
| Networks.Network.StochasticEpoch | src/libneuralnetwork/network.rs:150-187 | one more epoch extends the mini-batch epochs so far |
| Networks.Network.StochasticTrain | src/libneuralnetwork/network.rs:140-188 | the state is that of the mini-batch epochs: shuffle the kept batch, then one step per window |
| Networks.Network.Test | src/libneuralnetwork/network.rs:190-211 | the count of examples answered exactly after rounding, at most the shorter input |
| Networks.OutputError | src/libneuralnetwork/network.rs:88-90 | twice the output error times f' of the last pre-activation |
| Networks.PullBack | src/libneuralnetwork/network.rs:97-98 | the transposed next weights times the error, times f' of the pre-activation |
| Networks.OuterProduct | src/libneuralnetwork/network.rs:93 | the error times the transposed activation |
| Networks.AddInto | src/libneuralnetwork/network.rs:174-177 | the sums with the example's gradients added, layer by layer |
| StaleHistory.StaleAccumulation | src/libneuralnetwork/network.rs:170-172 | after an earlier recording of input 1, the window of example 2 -> 1 sums a weight gradient of -2, built from the stale input |
| StaleHistory.FreshGradients | src/libneuralnetwork/network.rs:129-134 | the fresh recording of 2 -> 1 gives a weight gradient of -4 |
| StaleHistory.StaleWindowWeight | src/libneuralnetwork/network.rs:180-185 | that window step moves the weight from 0 to 2 |
| StaleHistory.OnlineWeight | src/libneuralnetwork/network.rs:107-115 | the online step on the same example moves it to 4 |
| StaleHistory.StaleWindowStep | src/libneuralnetwork/network.rs:170-172 | the window step and the online step on the same single example differ |
| StaleHistory.EmptyHistoryIsFresh | src/libneuralnetwork/network.rs:170-172 | on empty histories the driver as written accumulates exactly the intended gradients |
| StaleHistory.WindowStepFresh | src/libneuralnetwork/network.rs:180-185 | the intended window step: each example back-propagated over its own recording, the sums applied at rate over window length; shapes kept |
| StaleHistory.SingleWindowSums | src/libneuralnetwork/network.rs:160-177 | with fresh recordings, the sums of a one-example window are its gradients |
| StaleHistory.SingleWindowIsOnlineStep | src/libneuralnetwork/network.rs:180-185 | with fresh recordings, a window of one example is exactly one online step |
| Mnist.BigEndian32 | src/mnist_unpacker.rs:31 | four bytes as an unsigned 32-bit number, most significant first, below 2^32 |
| Mnist.DecodeEncoded | src/mnist_unpacker.rs:31 | decoding the big-endian bytes of a 32-bit number gives the number |
| Mnist.EncodeDecoded | src/mnist_unpacker.rs:31 | encoding the number of four bytes gives the bytes |
| Mnist.SameCountSameBytes | src/mnist_unpacker.rs:25-29 | two count fields hold the same number exactly when they are the same bytes |
| Mnist.Decode | src/mnist_unpacker.rs:12-51 | what the loader yields; on success both headers are whole and there are as many images as labels as the count field says, each image 784 bytes |
| Mnist.Unpack | src/mnist_unpacker.rs:12-51 | the loader yields exactly the decoding: failure order, counts, records |
| Mnist.DecodeSucceeds | src/mnist_unpacker.rs:16-47 | success exactly when the magics are 0x803 and 0x801, the counts agree and both files hold every record; then count images of 784 bytes and count labels, image i being bytes 16 + 784 i .. 16 + 784 (i + 1) and label i byte 8 + i |
| Mnist.DecodeFails | src/mnist_unpacker.rs:18-29 | a file under 4 bytes fails as a short read, then a wrong magic as BadMagic, and CountMismatch exactly when both headers are whole and right but the counts differ |
| Mnist.ConcatRecords | src/mnist_unpacker.rs:39-47 | records of 784 bytes laid end to end are cut back apart every 784 bytes |
| Mnist.UnpackWritten | src/mnist_unpacker.rs:12-51 | unpacking the files written for a data set of 784-byte images gives the data set back |

## Left out

- The activation functions (`src/libneuralnetwork/activation.rs`): the sigmoid and its derivative are uninterpreted `real -> real` functions, since nothing about `exp` is usefully provable.
- `src/main.rs` is not part of this model. It only wires up a demo and prints scores.
- Randomness: `Matrix::random` takes its draws from a sampler parameter. `batch.shuffle` is a `shuffle(epoch, batch)` parameter, required only to permute. The sampler's range [-1, 1) is not assumed.
- Floating point: `f64` is `real`. There is no rounding error, NaN or infinity. `f64::round` is exact rounding, with halves going away from zero.
- Integer widths: `usize` counts and the `u16` epoch count are unbounded naturals. A 32-bit count in the loader is decoded exactly.
- Console output (epoch messages, load time) and `Display for DimensionError`: errors carry the two shapes instead of a message.
- File handling: opening files and seeking are modelled as cursors into two in-memory byte sequences. An I/O error other than end of file is not modelled.
- Matrix::from: called on a vector in the network. It is modelled as the 1 x n row of that vector, since matrix.rs only converts a vector of rows.
- Panics: an index out of range or a too-short `training_outputs` become `requires`, which callers must meet.
- Matrix calls in the network: `src/libneuralnetwork/network.rs` as it stands does not compile against `src/libneuralnetwork/matrix.rs`. It applies `*`, `+` and `-` to references and to the `Result`s those operators return (lines 45, 62, 93, 100, 112-113, 175-176, 181-184). It calls `.clone()` on `Matrix`, which derives no `Clone`. It reads the private fields `data`, `rows` and `cols` (lines 49, 69, 165, 168). The model reads each such call as the matrix.rs operation on operands whose shapes make it return `Ok`. The `requires` of `Networks.Network.WeightedInput`, `Networks.Network.BackPropagate` and `Networks.Network.UpdateNetwork` (through `Fits`) guarantee those shapes.
- Networks.Network.StochasticTrain models the code as written, with histories that are never cleared. The intended behaviour is stated only as the pure `StaleHistory.WindowStepFresh`, not as a second driver.
- Mnist.Unpack: allocating `count` empty records up front cannot fail in the model.

## Findings

| source | as written | input that shows it | evidently intended | confidence | as-written member | corrected member |
|---|---|---|---|---|---|---|
| src/libneuralnetwork/network.rs:170-172 | mini-batch training records each example onto histories it never clears, and back-propagation reads activations and hidden pre-activations from the front, so gradients use the first recording made since the histories were last cleared by `train`, or since construction | layers [1, 1], weight and bias 0, identity activation, rate 1, histories holding the recording of input 1, window [2 -> 1]: the weight becomes 2, where an online step gives 4 | each example back-propagated over its own recording, as `train` does by clearing; a one-example window is then one online step | not executed | StaleHistory.StaleWindowStep | StaleHistory.SingleWindowIsOnlineStep |
