/**
 * The network object: its topology, parameters, activation, learning rate and the two
 * recording histories are fields updated in place by its methods. Every method is proved
 * against the pure definitions of module NetworkSpec.
 */
module Networks {
  import opened Matrices
  import opened NetworkSpec
  import opened Outcomes

  class Network {
    const layers: seq<nat>
    var weights: seq<Matrix>
    var biases: seq<Matrix>
    const activation: Activation
    const learningRate: real
    var zHistory: seq<Matrix>
    var activationHistory: seq<Matrix>

    /** Parameters shaped by the topology, and histories back-propagation can read. */
    ghost predicate Valid()
      reads this
    {
      Shaped(layers, Params(weights, biases)) && HistoryOpen(layers, zHistory, activationHistory)
    }

    function Parameters(): Params
      reads this`weights, this`biases
    {
      Params(weights, biases)
    }

    function State(): TrainingState
      reads this
    {
      TrainingState(Params(weights, biases), zHistory, activationHistory)
    }

    /**
     * A network with weights[i] of shape layers[i+1] x layers[i] and biases[i] of height
     * layers[i+1], every entry drawn at random: draw 2i fills weights[i], draw 2i+1 fills
     * biases[i]. The histories start empty.
     */
    constructor (layers: seq<nat>, activation: Activation, learningRate: real, draws: nat -> (nat, nat) -> real)
      requires |layers| >= 1
      ensures Valid()
      ensures this.layers == layers && this.activation == activation && this.learningRate == learningRate
      ensures forall i :: 0 <= i < |layers| - 1 ==>
        weights[i] == Random(layers[i + 1], layers[i], draws(2 * i)) &&
        biases[i] == Random(layers[i + 1], 1, draws(2 * i + 1))
      ensures zHistory == [] && activationHistory == []
    {
      var ws: seq<Matrix> := [];
      var bs: seq<Matrix> := [];
      for i := 0 to |layers| - 1
        invariant |ws| == i && |bs| == i
        invariant forall k :: 0 <= k < i ==>
          ws[k] == Random(layers[k + 1], layers[k], draws(2 * k)) &&
          bs[k] == Random(layers[k + 1], 1, draws(2 * k + 1))
      {
        ws := ws + [Random(layers[i + 1], layers[i], draws(2 * i))];
        bs := bs + [Random(layers[i + 1], 1, draws(2 * i + 1))];
      }
      forall k | 0 <= k < |layers| - 1
        ensures ws[k].Valid() && ws[k].rows == layers[k + 1] && ws[k].cols == layers[k]
        ensures bs[k].Valid() && bs[k].rows == layers[k + 1] && bs[k].cols == 1
      {
        assert ws[k] == Random(layers[k + 1], layers[k], draws(2 * k));
        assert bs[k] == Random(layers[k + 1], 1, draws(2 * k + 1));
      }
      assert Shaped(layers, Params(ws, bs));
      this.layers := layers;
      weights := ws;
      biases := bs;
      this.activation := activation;
      this.learningRate := learningRate;
      zHistory := [];
      activationHistory := [];
    }

    /**
     * The input as a column, pushed through every layer: weights times activation,
     * plus bias, then the activation function. Answers with the last activation.
     */
    method FeedForward(inputs: seq<real>) returns (outputs: seq<real>)
      requires Valid() && |inputs| == layers[0]
      ensures outputs == Predict(layers, Parameters(), activation.forward, inputs)
      ensures |outputs| == layers[|layers| - 1]
    {
      var current := Transpose(FromRows([inputs]));
      for i := 0 to |layers| - 1
        invariant current == Propagate(layers, Parameters(), activation.forward, Column(inputs), i)
      {
        var z := WeightedInput(i, current);
        current := Mapped(z, activation.forward);
      }
      var row := Transpose(current);
      outputs := row.data[0];
    }

    /** The pre-activation of layer transition `i`: weights times `a`, plus bias. */
    method WeightedInput(i: nat, a: Matrix) returns (z: Matrix)
      requires Shaped(layers, Parameters()) && i < |layers| - 1 && IsColumn(a, layers[i])
      ensures z == PreActivation(weights[i], biases[i], a)
    {
      var product := Mul(weights[i], a);
      var sum := Add(product.value, biases[i]);
      z := sum.value;
    }

    /** One layer of a recorded pass: its pre-activation and activation are appended. */
    method RecordLayer(i: nat, a: Matrix) returns (next: Matrix)
      requires Shaped(layers, Parameters()) && i < |layers| - 1 && IsColumn(a, layers[i])
      modifies this`zHistory, this`activationHistory
      ensures next == Mapped(PreActivation(weights[i], biases[i], a), activation.forward)
      ensures zHistory == old(zHistory) + [PreActivation(weights[i], biases[i], a)]
      ensures activationHistory == old(activationHistory) + [next]
    {
      var z := WeightedInput(i, a);
      zHistory := zHistory + [z];
      next := Mapped(z, activation.forward);
      activationHistory := activationHistory + [next];
    }

    /**
     * The forward pass of FeedForward, appending the input column and every activation
     * to the activation history and every pre-activation to the z history.
     */
    method FeedForwardAndRecord(inputs: seq<real>) returns (outputs: seq<real>)
      requires Shaped(layers, Params(weights, biases)) && |inputs| == layers[0]
      modifies this`zHistory, this`activationHistory
      ensures old(Valid()) ==> Valid()
      ensures outputs == Predict(layers, Params(weights, biases), activation.forward, inputs)
      ensures zHistory == old(zHistory) + PreActivations(layers, Params(weights, biases), activation.forward, Column(inputs), |layers| - 1)
      ensures activationHistory ==
        old(activationHistory) + Activations(layers, Params(weights, biases), activation.forward, Column(inputs), |layers| - 1)
    {
      ghost var ls, p, f, x := layers, Params(weights, biases), activation.forward, Column(inputs);
      ghost var z0, a0 := zHistory, activationHistory;
      var n := |layers| - 1;
      ghost var zs, acts := PreActivations(ls, p, f, x, n), Activations(ls, p, f, x, n);
      if n > 0 {
        RecordingAt(ls, p, f, x, n, 0);
      }
      var current := Transpose(FromRows([inputs]));
      activationHistory := activationHistory + [current];
      assert activationHistory == a0 + acts[..1];
      for i := 0 to n
        invariant Params(weights, biases) == p
        invariant current == acts[i]
        invariant zHistory == z0 + zs[..i]
        invariant activationHistory == a0 + acts[..i + 1]
      {
        RecordingAt(ls, p, f, x, n, i);
        current := RecordLayer(i, current);
        AppendNext(z0, zs, i);
        AppendNext(a0, acts, i + 1);
      }
      var row := Transpose(current);
      outputs := row.data[0];
      PrefixWhole(zs);
      PrefixWhole(acts);
      PredictIsLastActivation(ls, p, f, inputs);
      RecordingKeepsOpen(ls, p, f, x, z0, a0);
    }

    /**
     * The weight and bias gradients of the last recording, from the output layer down:
     * twice the output error times f' of the last pre-activation, pulled back through
     * each next weight matrix. Pre-activations below the output and activations are read
     * from the FRONT of the histories.
     */
    method BackPropagate(outputs: seq<real>, expectedOutputs: seq<real>) returns (nablaW: seq<Matrix>, nablaB: seq<Matrix>)
      requires Valid() && HistoryShaped(layers, zHistory, activationHistory)
      requires |expectedOutputs| == layers[|layers| - 1] && |outputs| == |expectedOutputs|
      ensures Params(nablaW, nablaB) == Gradients(layers, Parameters(), activation.derivative, zHistory, activationHistory, outputs, expectedOutputs)
    {
      ghost var g := Gradients(layers, Parameters(), activation.derivative, zHistory, activationHistory, outputs, expectedOutputs);
      nablaW := seq(|weights|, _ => Zeros(0, 0));
      nablaB := seq(|biases|, _ => Zeros(0, 0));
      var error := OutputError(outputs, expectedOutputs, zHistory[|zHistory| - 1], activation.derivative);
      var l := |layers| - 2;
      var gradient := OuterProduct(error, activationHistory[l]);
      nablaW := nablaW[l := gradient];
      nablaB := nablaB[l := error];
      for lRev := l downto 0
        invariant |nablaW| == |nablaB| == l + 1
        invariant error == g.biases[lRev]
        invariant forall k :: lRev <= k <= l ==> nablaW[k] == g.weights[k] && nablaB[k] == g.biases[k]
      {
        error := PullBack(weights[lRev + 1], error, zHistory[lRev], activation.derivative);
        gradient := OuterProduct(error, activationHistory[lRev]);
        nablaW := nablaW[lRev := gradient];
        nablaB := nablaB[lRev := error];
      }
    }

    /** Every weight and bias moved against its gradient, scaled by the learning rate. */
    method UpdateNetwork(nablaW: seq<Matrix>, nablaB: seq<Matrix>)
      requires Valid() && Fits(layers, Parameters(), Params(nablaW, nablaB))
      modifies this`weights, this`biases
      ensures Valid()
      ensures Parameters() == Updated(layers, old(Parameters()), learningRate, Params(nablaW, nablaB))
    {
      Descend(nablaW, nablaB, learningRate);
    }

    /**
     * The update loop shared by `update_network` and the mini-batch driver: every weight
     * and bias moved against its gradient scaled by `rate`, one layer at a time.
     */
    method Descend(nablaW: seq<Matrix>, nablaB: seq<Matrix>, rate: real)
      requires Valid() && Fits(layers, Parameters(), Params(nablaW, nablaB))
      modifies this`weights, this`biases
      ensures Valid()
      ensures Parameters() == Updated(layers, old(Parameters()), rate, Params(nablaW, nablaB))
    {
      ghost var p0 := Parameters();
      ghost var q := Updated(layers, p0, rate, Params(nablaW, nablaB));
      for i := 0 to |layers| - 1
        invariant |weights| == |biases| == |layers| - 1
        invariant forall k :: 0 <= k < i ==> weights[k] == q.weights[k] && biases[k] == q.biases[k]
        invariant forall k :: i <= k < |layers| - 1 ==> weights[k] == p0.weights[k] && biases[k] == p0.biases[k]
      {
        var adjustedW := Scale(nablaW[i], rate);
        var adjustedB := Scale(nablaB[i], rate);
        var w := Sub(weights[i], adjustedW);
        var b := Sub(biases[i], adjustedB);
        weights := weights[i := w.value];
        biases := biases[i := b.value];
      }
      assert weights == q.weights && biases == q.biases;
    }

    /**
     * The start of an online step: clear both histories, then record a forward pass of
     * the input, so the histories hold that one recording and nothing else.
     */
    method RecordExample(inputs: seq<real>) returns (outputs: seq<real>)
      requires Valid() && |layers| >= 2 && |inputs| == layers[0]
      modifies this`zHistory, this`activationHistory
      ensures Valid() && HistoryShaped(layers, zHistory, activationHistory)
      ensures outputs == Predict(layers, Parameters(), activation.forward, inputs)
      ensures zHistory == PreActivations(layers, Parameters(), activation.forward, Column(inputs), |layers| - 1)
      ensures activationHistory == Activations(layers, Parameters(), activation.forward, Column(inputs), |layers| - 1)
    {
      ghost var p, f, x := Parameters(), activation.forward, Column(inputs);
      RecordingShaped(layers, p, f, x);
      zHistory := [];
      activationHistory := [];
      assert Valid();
      outputs := FeedForwardAndRecord(inputs);
      assert [] + PreActivations(layers, p, f, x, |layers| - 1) == zHistory;
      assert [] + Activations(layers, p, f, x, |layers| - 1) == activationHistory;
    }

    /**
     * The end of an online step, once the histories hold just the recording of
     * `inputs` and `outputs` is its prediction: back-propagate the recording against
     * the expected outputs and apply the gradients at once. The histories are left as
     * they are.
     */
    method LearnFromRecording(inputs: seq<real>, expectedOutputs: seq<real>, outputs: seq<real>)
      requires Valid() && |layers| >= 2 && FitsExample(layers, Example(inputs, expectedOutputs))
      requires zHistory == PreActivations(layers, Parameters(), activation.forward, Column(inputs), |layers| - 1)
      requires activationHistory == Activations(layers, Parameters(), activation.forward, Column(inputs), |layers| - 1)
      requires outputs == Predict(layers, Parameters(), activation.forward, inputs)
      modifies this`weights, this`biases
      ensures Valid()
      ensures Parameters() == OnlineStep(layers, activation, learningRate, old(Parameters()), Example(inputs, expectedOutputs))
    {
      OnlineStepFromRecording(layers, activation, learningRate, Parameters(), Example(inputs, expectedOutputs), outputs);
      var nablaW, nablaB := BackPropagate(outputs, expectedOutputs);
      UpdateNetwork(nablaW, nablaB);
    }

    /**
     * One online step, the body of the training loop: record a forward pass of the
     * example on cleared histories, back-propagate it and apply the gradients at once.
     */
    method TrainStep(inputs: seq<real>, expectedOutputs: seq<real>)
      requires Valid() && |layers| >= 2 && FitsExample(layers, Example(inputs, expectedOutputs))
      modifies this`weights, this`biases, this`zHistory, this`activationHistory
      ensures Valid()
      ensures Parameters() == OnlineStep(layers, activation, learningRate, old(Parameters()), Example(inputs, expectedOutputs))
      ensures zHistory == PreActivations(layers, old(Parameters()), activation.forward, Column(inputs), |layers| - 1)
      ensures activationHistory == Activations(layers, old(Parameters()), activation.forward, Column(inputs), |layers| - 1)
    {
      var outputs := RecordExample(inputs);
      LearnFromRecording(inputs, expectedOutputs, outputs);
    }

    /**
     * One epoch of online training, the inner loop of `train`: every example in order is
     * recorded on cleared histories, back-propagated and applied at once, so the histories
     * end holding the last example's recording.
     */
    method TrainEpoch(trainingInputs: seq<seq<real>>, trainingOutputs: seq<seq<real>>)
      requires Valid() && Trainable(layers, trainingInputs, trainingOutputs)
      modifies this`weights, this`biases, this`zHistory, this`activationHistory
      ensures Valid()
      ensures State() == OnlineState(layers, activation, learningRate, old(State()), Zip(trainingInputs, trainingOutputs))
    {
      ghost var s0 := State();
      ghost var examples := Zip(trainingInputs, trainingOutputs);
      assert |examples| == |trainingInputs|;
      for j := 0 to |trainingInputs|
        invariant Valid()
        invariant AllFit(layers, examples[..j])
        invariant State() == OnlineState(layers, activation, learningRate, s0, examples[..j])
      {
        ghost var e := examples[j];
        assert e in examples;
        ghost var before := examples[..j];
        TrainStep(trainingInputs[j], trainingOutputs[j]);
        OnlineStateAppend(layers, activation, learningRate, s0, before, e);
        PrefixNext(examples, j);
      }
      PrefixWhole(examples);
    }

    /**
     * Online training: `epochs` epochs one after the other. The parameters end as the
     * online steps over the examples repeated `epochs` times, and the histories hold the
     * recording of the last example, made before its step.
     */
    method Train(trainingInputs: seq<seq<real>>, trainingOutputs: seq<seq<real>>, epochs: nat)
      requires Valid() && (epochs > 0 ==> Trainable(layers, trainingInputs, trainingOutputs))
      modifies this`weights, this`biases, this`zHistory, this`activationHistory
      ensures Valid()
      ensures State() ==
        OnlineState(layers, activation, learningRate, old(State()), Repeat(Zip(trainingInputs, trainingOutputs), epochs))
    {
      ghost var s0 := State();
      for i := 0 to epochs
        invariant Valid()
        invariant Trained(layers, activation, learningRate, s0, Repeat(Zip(trainingInputs, trainingOutputs), i)) == Some(State())
      {
        TrainNextEpoch(trainingInputs, trainingOutputs, s0, i);
      }
      TrainedState(layers, activation, learningRate, s0, Repeat(Zip(trainingInputs, trainingOutputs), epochs), State());
    }

    /** One more epoch of `train`, continuing the online training of the `done` epochs before it. */
    method TrainNextEpoch(trainingInputs: seq<seq<real>>, trainingOutputs: seq<seq<real>>, ghost s0: TrainingState, ghost done: nat)
      requires Valid() && Trainable(layers, trainingInputs, trainingOutputs)
      requires Trained(layers, activation, learningRate, s0, Repeat(Zip(trainingInputs, trainingOutputs), done)) == Some(State())
      modifies this`weights, this`biases, this`zHistory, this`activationHistory
      ensures Valid()
      ensures Trained(layers, activation, learningRate, s0, Repeat(Zip(trainingInputs, trainingOutputs), done + 1)) == Some(State())
    {
      NextEpoch(layers, activation, learningRate, s0, State(), Zip(trainingInputs, trainingOutputs), done);
      TrainEpoch(trainingInputs, trainingOutputs);
    }

    /** Zero gradient sums shaped like the weights and the biases, pushed one matrix at a time. */
    method ZeroGradients() returns (nablaW: seq<Matrix>, nablaB: seq<Matrix>)
      requires Valid()
      ensures Params(nablaW, nablaB) == ZerosLike(layers, Parameters())
    {
      nablaW := [];
      for i := 0 to |weights|
        invariant |nablaW| == i
        invariant forall k :: 0 <= k < i ==> nablaW[k] == Zeros(weights[k].rows, weights[k].cols)
      {
        nablaW := nablaW + [Zeros(weights[i].rows, weights[i].cols)];
      }
      nablaB := [];
      for i := 0 to |biases|
        invariant |nablaB| == i
        invariant forall k :: 0 <= k < i ==> nablaB[k] == Zeros(biases[k].rows, biases[k].cols)
      {
        nablaB := nablaB + [Zeros(biases[i].rows, biases[i].cols)];
      }
    }

    /**
     * One example of a mini-batch: its forward pass is recorded WITHOUT clearing the
     * histories, back-propagated, and its gradients added to the sums.
     */
    method RecordAndAccumulate(inputs: seq<real>, outputs: seq<real>, nablaW: seq<Matrix>, nablaB: seq<Matrix>)
      returns (sumW: seq<Matrix>, sumB: seq<Matrix>)
      requires Valid() && |layers| >= 2 && FitsExample(layers, Example(inputs, outputs))
      requires Shaped(layers, Params(nablaW, nablaB))
      modifies this`zHistory, this`activationHistory
      ensures Valid()
      ensures Accumulated(zHistory, activationHistory, Params(sumW, sumB)) ==
        AccumulateExample(layers, activation, Parameters(),
                          Accumulated(old(zHistory), old(activationHistory), Params(nablaW, nablaB)), Example(inputs, outputs))
    {
      ghost var r := AccumulateExample(layers, activation, Parameters(),
                                       Accumulated(zHistory, activationHistory, Params(nablaW, nablaB)), Example(inputs, outputs));
      var preOutputs := FeedForwardAndRecord(inputs);
      var preW, preB := BackPropagate(preOutputs, outputs);
      sumW, sumB := AddInto(layers, nablaW, nablaB, preW, preB);
    }

    /**
     * One mini-batch: its gradients summed over the window, then one update scaled by the
     * learning rate over the window length.
     */
    method TrainMiniBatch(window: seq<Example>)
      requires Valid() && |layers| >= 2 && |window| >= 1 && AllFit(layers, window)
      modifies this`weights, this`biases, this`zHistory, this`activationHistory
      ensures Valid()
      ensures State() == WindowStep(layers, activation, learningRate, old(State()), window)
    {
      var nablaW, nablaB := AccumulateMiniBatch(window);
      Descend(nablaW, nablaB, learningRate / |window| as real);
    }

    /**
     * The accumulation loop of a mini-batch: zero sums, then every example of the window
     * recorded onto the histories and its gradients added in.
     */
    method AccumulateMiniBatch(window: seq<Example>) returns (nablaW: seq<Matrix>, nablaB: seq<Matrix>)
      requires Valid() && |layers| >= 2 && AllFit(layers, window)
      modifies this`zHistory, this`activationHistory
      ensures Valid()
      ensures Accumulated(zHistory, activationHistory, Params(nablaW, nablaB)) ==
        AccumulateWindow(layers, activation, Parameters(), old(zHistory), old(activationHistory), window)
      ensures Fits(layers, Parameters(), Params(nablaW, nablaB))
    {
      ghost var p := Parameters();
      ghost var z0, a0 := zHistory, activationHistory;
      nablaW, nablaB := ZeroGradients();
      assert window[..0] == [];
      for m := 0 to |window|
        invariant Valid() && Parameters() == p
        invariant AccumulatedPrefix(layers, activation, p, z0, a0, window, m) ==
          Some(Accumulated(zHistory, activationHistory, Params(nablaW, nablaB)))
      {
        nablaW, nablaB := AccumulateNext(window, m, p, z0, a0, nablaW, nablaB);
      }
      PrefixWhole(window);
      ShapedFits(layers, p, Params(nablaW, nablaB));
    }

    /** One turn of the accumulation loop: example `m` of the window folded into the sums. */
    method AccumulateNext(window: seq<Example>, m: nat, ghost p: Params, ghost z0: seq<Matrix>, ghost a0: seq<Matrix>,
                          nablaW: seq<Matrix>, nablaB: seq<Matrix>) returns (sumW: seq<Matrix>, sumB: seq<Matrix>)
      requires Valid() && Parameters() == p && m < |window|
      requires AccumulatedPrefix(layers, activation, p, z0, a0, window, m) ==
        Some(Accumulated(zHistory, activationHistory, Params(nablaW, nablaB)))
      modifies this`zHistory, this`activationHistory
      ensures Valid()
      ensures AccumulatedPrefix(layers, activation, p, z0, a0, window, m + 1) ==
        Some(Accumulated(zHistory, activationHistory, Params(sumW, sumB)))
    {
      AccumulatedPrefixNext(layers, activation, p, z0, a0, window, m,
                            Accumulated(zHistory, activationHistory, Params(nablaW, nablaB)));
      sumW, sumB := RecordAndAccumulate(window[m].inputs, window[m].outputs, nablaW, nablaB);
    }

    /** One mini-batch step per window, in order. */
    method TrainWindows(windows: seq<seq<Example>>)
      requires Valid() && Windowable(layers, windows) && (|layers| >= 2 || windows == [])
      modifies this`weights, this`biases, this`zHistory, this`activationHistory
      ensures Valid()
      ensures State() == WindowSteps(layers, activation, learningRate, old(State()), windows)
    {
      ghost var s0 := State();
      for w := 0 to |windows|
        invariant Valid()
        invariant Windowable(layers, windows[..w])
        invariant State() == WindowSteps(layers, activation, learningRate, s0, windows[..w])
      {
        WindowStepsNext(layers, activation, learningRate, s0, windows, w);
        TrainMiniBatch(windows[w]);
      }
      PrefixWhole(windows);
    }

    /**
     * Mini-batch training: each epoch, numbered from 1, reshuffles the batch kept from the
     * epoch before with `shuffle` and takes one step per overlapping window of
     * `miniBatchSize` consecutive examples. The histories are never cleared.
     */
    method StochasticTrain(trainingInputs: seq<seq<real>>, trainingOutputs: seq<seq<real>>, epochs: nat,
                           miniBatchSize: nat, shuffle: (nat, seq<Example>) -> seq<Example>)
      requires Valid() && Permutes(shuffle)
      requires epochs > 0 ==> MiniBatchable(layers, Zip(trainingInputs, trainingOutputs), miniBatchSize)
      modifies this`weights, this`biases, this`zHistory, this`activationHistory
      ensures Valid()
      ensures State() == MiniBatchEpochs(layers, activation, learningRate, old(State()),
                                         Zip(trainingInputs, trainingOutputs), shuffle, miniBatchSize, epochs).0
    {
      ghost var s0 := State();
      var batch := Zip(trainingInputs, trainingOutputs);
      ghost var b0 := batch;
      for i := 1 to epochs + 1
        invariant Valid()
        invariant (State(), batch) == MiniBatchEpochs(layers, activation, learningRate, s0, b0, shuffle, miniBatchSize, i - 1)
      {
        batch := StochasticEpoch(i, batch, miniBatchSize, shuffle, s0, b0);
      }
    }

    /** Epoch `i` of mini-batch training, continuing the `i - 1` epochs before it. */
    method StochasticEpoch(i: nat, batch: seq<Example>, miniBatchSize: nat, shuffle: (nat, seq<Example>) -> seq<Example>,
                           ghost s0: TrainingState, ghost b0: seq<Example>)
      returns (shuffled: seq<Example>)
      requires Valid() && Permutes(shuffle) && i >= 1 && MiniBatchable(layers, b0, miniBatchSize)
      requires Shaped(layers, s0.params) && HistoryOpen(layers, s0.zHistory, s0.activationHistory)
      requires (State(), batch) == MiniBatchEpochs(layers, activation, learningRate, s0, b0, shuffle, miniBatchSize, i - 1)
      modifies this`weights, this`biases, this`zHistory, this`activationHistory
      ensures Valid()
      ensures (State(), shuffled) == MiniBatchEpochs(layers, activation, learningRate, s0, b0, shuffle, miniBatchSize, i)
    {
      assert MiniBatchable(layers, batch, miniBatchSize);
      shuffled := shuffle(i, batch);
      ShuffleKeeps(layers, shuffle, i, batch, miniBatchSize);
      WindowsWindowable(layers, shuffled, miniBatchSize);
      var miniBatches := Windows(shuffled, miniBatchSize);
      TrainWindows(miniBatches);
    }

    /**
     * How many pairs of inputs and expected outputs, up to the shorter of the two
     * sequences, the network answers exactly once each output is rounded.
     */
    method Test(inputsSet: seq<seq<real>>, expectedOutputsSet: seq<seq<real>>) returns (passes: nat)
      requires Valid() && AllInputsFit(layers, Zip(inputsSet, expectedOutputsSet))
      ensures passes == Passes(layers, Parameters(), activation.forward, Zip(inputsSet, expectedOutputsSet))
      ensures passes <= |inputsSet| && passes <= |expectedOutputsSet|
    {
      ghost var examples := Zip(inputsSet, expectedOutputsSet);
      var n := if |inputsSet| <= |expectedOutputsSet| then |inputsSet| else |expectedOutputsSet|;
      passes := 0;
      for k := 0 to n
        invariant passes == Passes(layers, Parameters(), activation.forward, examples[..k])
      {
        assert examples[k] in examples;
        var results := FeedForward(inputsSet[k]);
        var clampedResults := RoundAll(results);
        if clampedResults == expectedOutputsSet[k] {
          passes := passes + 1;
        }
        assert examples[..k + 1][..k] == examples[..k];
      }
      assert examples[..n] == examples;
    }
  }

  /** The output layer's error: twice the output error, times f' of the last pre-activation. */
  method OutputError(outputs: seq<real>, expectedOutputs: seq<real>, z: Matrix, df: real -> real) returns (error: Matrix)
    requires |outputs| == |expectedOutputs| && IsColumn(z, |outputs|)
    ensures error == Hadamard(Scaled(Difference(Column(outputs), Column(expectedOutputs)), 2.0), Mapped(z, df))
  {
    var outputsMatrix := Transpose(FromRows([outputs]));
    var expectedMatrix := Transpose(FromRows([expectedOutputs]));
    var difference := Sub(outputsMatrix, expectedMatrix);
    var doubled := Scale(difference.value, 2.0);
    var product := Dot(doubled, Mapped(z, df));
    error := product.value;
  }

  /** One layer down: the transposed weights times the error, times f' of the pre-activation. */
  method PullBack(w: Matrix, error: Matrix, z: Matrix, df: real -> real) returns (next: Matrix)
    requires w.Valid() && IsColumn(error, w.rows) && IsColumn(z, w.cols)
    ensures next == Hadamard(Product(Transposed(w), error), Mapped(z, df))
  {
    var weightsT := Transpose(w);
    var pulled := Mul(weightsT, error);
    var product := Dot(pulled.value, Mapped(z, df));
    next := product.value;
  }

  /** A weight gradient: the layer's error times the transposed activation that fed it. */
  method OuterProduct(error: Matrix, a: Matrix) returns (gradient: Matrix)
    requires error.Valid() && a.Valid() && error.cols == a.cols
    ensures gradient == Product(error, Transposed(a))
  {
    var activationT := Transpose(a);
    var product := Mul(error, activationT);
    gradient := product.value;
  }

  /** Gradient sums with one example's gradients added in, one layer at a time. */
  method AddInto(ghost layers: seq<nat>, nablaW: seq<Matrix>, nablaB: seq<Matrix>, preW: seq<Matrix>, preB: seq<Matrix>)
    returns (sumW: seq<Matrix>, sumB: seq<Matrix>)
    requires Shaped(layers, Params(nablaW, nablaB)) && Shaped(layers, Params(preW, preB))
    ensures Params(sumW, sumB) == AddGradients(layers, Params(nablaW, nablaB), Params(preW, preB))
  {
    ghost var r := AddGradients(layers, Params(nablaW, nablaB), Params(preW, preB));
    sumW, sumB := nablaW, nablaB;
    for j := 0 to |nablaW|
      invariant |sumW| == |sumB| == |nablaW|
      invariant forall k :: 0 <= k < j ==> sumW[k] == r.weights[k] && sumB[k] == r.biases[k]
      invariant forall k :: j <= k < |nablaW| ==> sumW[k] == nablaW[k] && sumB[k] == nablaB[k]
    {
      var w := Add(sumW[j], preW[j]);
      var b := Add(sumB[j], preB[j]);
      sumW := sumW[j := w.value];
      sumB := sumB[j := b.value];
    }
  }

  lemma PrefixNext<T>(s: seq<T>, i: nat)
    requires i < |s|
    ensures s[..i + 1] == s[..i] + [s[i]]
  {
  }

  lemma PrefixWhole<T>(s: seq<T>)
    ensures s[..|s|] == s
  {
  }

  /** Appending the next element of `s` to a prefix of `s` after `a`. */
  lemma AppendNext<T>(a: seq<T>, s: seq<T>, i: nat)
    requires i < |s|
    ensures (a + s[..i]) + [s[i]] == a + s[..i + 1]
  {
    assert s[..i + 1] == s[..i] + [s[i]];
  }
}
