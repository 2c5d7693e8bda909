/**
 * Pure definitions of what the network computes: the forward pass and what it records,
 * the back-propagated gradients as the library reads them from the recorded histories,
 * the gradient step, and the two training schedules. The class in network.dfy is proved
 * against these.
 */
module NetworkSpec {
  import opened Matrices
  import opened Outcomes

  /** An activation function and its derivative, both left uninterpreted. */
  datatype Activation = Activation(forward: real -> real, derivative: real -> real)

  /**
   * One weight matrix and one bias column per layer transition. Gradients have the
   * same structure, so they are values of this type too.
   */
  datatype Params = Params(weights: seq<Matrix>, biases: seq<Matrix>)

  /** A training example: an input vector and the output vector it should produce. */
  datatype Example = Example(inputs: seq<real>, outputs: seq<real>)

  ghost predicate IsColumn(m: Matrix, n: nat) {
    m.Valid() && m.rows == n && m.cols == 1
  }

  /**
   * The topology invariant: L layers, L - 1 weight matrices with `weights[i]` of shape
   * layers[i+1] x layers[i], and L - 1 bias columns with `biases[i]` of height layers[i+1].
   */
  ghost predicate Shaped(layers: seq<nat>, p: Params) {
    && |layers| >= 1
    && |p.weights| == |layers| - 1
    && |p.biases| == |layers| - 1
    && (forall i {:trigger p.weights[i]} :: 0 <= i < |layers| - 1 ==>
          p.weights[i].Valid() && p.weights[i].rows == layers[i + 1] && p.weights[i].cols == layers[i])
    && (forall i {:trigger p.biases[i]} :: 0 <= i < |layers| - 1 ==>
          p.biases[i].Valid() && p.biases[i].rows == layers[i + 1] && p.biases[i].cols == 1)
  }

  /** Gradients that can be subtracted from `p`: one per layer transition, each of its shape. */
  ghost predicate Fits(layers: seq<nat>, p: Params, g: Params)
    requires Shaped(layers, p)
  {
    && |g.weights| >= |layers| - 1
    && |g.biases| >= |layers| - 1
    && (forall i {:trigger g.weights[i]} :: 0 <= i < |layers| - 1 ==> g.weights[i].Valid() && g.weights[i].SameShape(p.weights[i]))
    && (forall i {:trigger g.biases[i]} :: 0 <= i < |layers| - 1 ==> g.biases[i].Valid() && g.biases[i].SameShape(p.biases[i]))
  }

  lemma ShapedFits(layers: seq<nat>, p: Params, g: Params)
    requires Shaped(layers, p) && Shaped(layers, g)
    ensures Fits(layers, p, g)
  {
  }

  ghost predicate FitsExample(layers: seq<nat>, e: Example) {
    |layers| >= 1 && |e.inputs| == layers[0] && |e.outputs| == layers[|layers| - 1]
  }

  ghost predicate AllFit(layers: seq<nat>, examples: seq<Example>) {
    forall e :: e in examples ==> FitsExample(layers, e)
  }

  // ---------------------------------------------------------------------------
  // Forward pass
  // ---------------------------------------------------------------------------

  /** An input vector as a column: the 1 x n row built from it, transposed. */
  function Column(v: seq<real>): (m: Matrix)
    ensures IsColumn(m, |v|)
    ensures forall i :: 0 <= i < |v| ==> m.data[i][0] == v[i]
  {
    Transposed(FromRows([v]))
  }

  /** A column as a vector: the column transposed back to a row, and that row taken. */
  function Flatten(m: Matrix): (v: seq<real>)
    requires m.Valid() && m.cols == 1
    ensures |v| == m.rows
    ensures forall i :: 0 <= i < m.rows ==> v[i] == m.data[i][0]
  {
    Transposed(m).data[0]
  }

  /** Turning a vector into a column and back gives the vector. */
  lemma FlattenColumn(v: seq<real>)
    ensures Flatten(Column(v)) == v
  {
  }

  /** Turning a column into a vector and back gives the column. */
  lemma ColumnFlatten(m: Matrix)
    requires m.Valid() && m.cols == 1
    ensures Column(Flatten(m)) == m
  {
    Extensionality(Column(Flatten(m)), m);
  }

  /** The pre-activation z = w * a + b of one layer. */
  function PreActivation(w: Matrix, b: Matrix, a: Matrix): (z: Matrix)
    requires w.Valid() && b.Valid() && a.Valid() && w.cols == a.rows
    requires b.rows == w.rows && b.cols == a.cols
    ensures z.Valid() && z.rows == w.rows && z.cols == a.cols
  {
    Sum(Product(w, a), b)
  }

  /** The activation reached from the input column `x` after the first `n` layer transitions. */
  function Propagate(layers: seq<nat>, p: Params, f: real -> real, x: Matrix, n: nat): (a: Matrix)
    requires Shaped(layers, p) && IsColumn(x, layers[0]) && n < |layers|
    ensures IsColumn(a, layers[n])
  {
    if n == 0 then x
    else Mapped(PreActivation(p.weights[n - 1], p.biases[n - 1], Propagate(layers, p, f, x, n - 1)), f)
  }

  /** The pre-activations z_0, ..., z_{n-1} met on the way from `x`. */
  function PreActivations(layers: seq<nat>, p: Params, f: real -> real, x: Matrix, n: nat): (zs: seq<Matrix>)
    requires Shaped(layers, p) && IsColumn(x, layers[0]) && n < |layers|
    ensures |zs| == n
    ensures forall k {:trigger zs[k]} :: 0 <= k < n ==> zs[k].Valid() && zs[k].rows == layers[k + 1] && zs[k].cols == 1
  {
    seq(n, k requires 0 <= k < n => PreActivation(p.weights[k], p.biases[k], Propagate(layers, p, f, x, k)))
  }

  /** The activations a_0 = x, a_1, ..., a_n met on the way from `x`. */
  function Activations(layers: seq<nat>, p: Params, f: real -> real, x: Matrix, n: nat): (acts: seq<Matrix>)
    requires Shaped(layers, p) && IsColumn(x, layers[0]) && n < |layers|
    ensures |acts| == n + 1
    ensures forall k {:trigger acts[k]} :: 0 <= k <= n ==> acts[k].Valid() && acts[k].rows == layers[k] && acts[k].cols == 1
  {
    seq(n + 1, k requires 0 <= k <= n => Propagate(layers, p, f, x, k))
  }

  /**
   * What one recording pass leaves behind: the first activation is the input column,
   * pre-activation `k` is computed from activation `k`, and activation `k + 1` is `f`
   * applied to pre-activation `k`.
   */
  lemma RecordingAt(layers: seq<nat>, p: Params, f: real -> real, x: Matrix, n: nat, k: nat)
    requires Shaped(layers, p) && IsColumn(x, layers[0]) && k < n < |layers|
    ensures Activations(layers, p, f, x, n)[0] == x
    ensures PreActivations(layers, p, f, x, n)[k] ==
      PreActivation(p.weights[k], p.biases[k], Activations(layers, p, f, x, n)[k])
    ensures Activations(layers, p, f, x, n)[k + 1] == Mapped(PreActivations(layers, p, f, x, n)[k], f)
  {
    var zs, acts := PreActivations(layers, p, f, x, n), Activations(layers, p, f, x, n);
    assert acts[k] == Propagate(layers, p, f, x, k);
    assert acts[k + 1] == Propagate(layers, p, f, x, k + 1);
    assert zs[k] == PreActivation(p.weights[k], p.biases[k], Propagate(layers, p, f, x, k));
  }

  /** The network's answer to an input vector: the last activation, flattened. */
  function Predict(layers: seq<nat>, p: Params, f: real -> real, inputs: seq<real>): (out: seq<real>)
    requires Shaped(layers, p) && |inputs| == layers[0]
    ensures |out| == layers[|layers| - 1]
  {
    Flatten(Propagate(layers, p, f, Column(inputs), |layers| - 1))
  }

  /** The prediction is the last recorded activation, flattened. */
  lemma PredictIsLastActivation(layers: seq<nat>, p: Params, f: real -> real, inputs: seq<real>)
    requires Shaped(layers, p) && |inputs| == layers[0]
    ensures Predict(layers, p, f, inputs) ==
      Flatten(Activations(layers, p, f, Column(inputs), |layers| - 1)[|layers| - 1])
  {
  }

  // ---------------------------------------------------------------------------
  // Histories and back-propagation
  // ---------------------------------------------------------------------------

  /**
   * What back-propagation needs of the histories, read by absolute index from the
   * front: pre-activations 0 .. L-2 and activations 0 .. L-2 of the layer shapes, and a
   * last pre-activation of the output layer's shape.
   */
  ghost predicate HistoryShaped(layers: seq<nat>, zs: seq<Matrix>, acts: seq<Matrix>) {
    && |layers| >= 2
    && |zs| >= |layers| - 1
    && |acts| >= |layers| - 1
    && (forall l {:trigger zs[l]} :: 0 <= l < |layers| - 1 ==> zs[l].Valid() && zs[l].rows == layers[l + 1] && zs[l].cols == 1)
    && (forall l {:trigger acts[l]} :: 0 <= l < |layers| - 1 ==> acts[l].Valid() && acts[l].rows == layers[l] && acts[l].cols == 1)
    && IsColumn(zs[|zs| - 1], layers[|layers| - 1])
  }

  /**
   * Histories that are empty or hold at least one whole recording (a network of a
   * single layer is never back-propagated, so its histories are unconstrained).
   */
  ghost predicate HistoryOpen(layers: seq<nat>, zs: seq<Matrix>, acts: seq<Matrix>) {
    |layers| < 2 || (zs == [] && acts == []) || HistoryShaped(layers, zs, acts)
  }

  /** One recording pass, on its own, is a history back-propagation can read. */
  lemma RecordingShaped(layers: seq<nat>, p: Params, f: real -> real, x: Matrix)
    requires Shaped(layers, p) && |layers| >= 2 && IsColumn(x, layers[0])
    ensures HistoryShaped(layers, PreActivations(layers, p, f, x, |layers| - 1),
                                  Activations(layers, p, f, x, |layers| - 1))
  {
    var z' := PreActivations(layers, p, f, x, |layers| - 1);
    assert z'[|z'| - 1].rows == layers[|layers| - 1];
  }

  /** Appending a readable history to open histories leaves a readable history. */
  lemma AppendShaped(layers: seq<nat>, zs: seq<Matrix>, acts: seq<Matrix>, z': seq<Matrix>, a': seq<Matrix>)
    requires HistoryOpen(layers, zs, acts) && HistoryShaped(layers, z', a')
    ensures HistoryShaped(layers, zs + z', acts + a')
  {
    if zs == [] && acts == [] {
      assert zs + z' == z' && acts + a' == a';
    } else {
      assert (zs + z')[|zs + z'| - 1] == z'[|z'| - 1];
      forall l | 0 <= l < |layers| - 1
        ensures IsColumn((zs + z')[l], layers[l + 1]) && IsColumn((acts + a')[l], layers[l])
      {
        assert (zs + z')[l] == zs[l] && (acts + a')[l] == acts[l];
      }
    }
  }

  /** Appending one recording to open histories leaves histories back-propagation can read. */
  lemma AppendRecording(layers: seq<nat>, p: Params, f: real -> real, x: Matrix, zs: seq<Matrix>, acts: seq<Matrix>)
    requires Shaped(layers, p) && |layers| >= 2 && IsColumn(x, layers[0])
    requires HistoryOpen(layers, zs, acts)
    ensures HistoryShaped(layers, zs + PreActivations(layers, p, f, x, |layers| - 1),
                                  acts + Activations(layers, p, f, x, |layers| - 1))
  {
    RecordingShaped(layers, p, f, x);
    AppendShaped(layers, zs, acts, PreActivations(layers, p, f, x, |layers| - 1),
                 Activations(layers, p, f, x, |layers| - 1));
  }

  /** Histories stay open when a whole recording is appended to them. */
  lemma RecordingKeepsOpen(layers: seq<nat>, p: Params, f: real -> real, x: Matrix, zs: seq<Matrix>, acts: seq<Matrix>)
    requires Shaped(layers, p) && IsColumn(x, layers[0])
    ensures HistoryOpen(layers, zs, acts) ==>
      HistoryOpen(layers, zs + PreActivations(layers, p, f, x, |layers| - 1),
                          acts + Activations(layers, p, f, x, |layers| - 1))
  {
    if |layers| >= 2 && HistoryOpen(layers, zs, acts) {
      AppendRecording(layers, p, f, x, zs, acts);
    }
  }

  /**
   * The error signal of layer transition `l`. For the output transition it is twice the
   * output error times f' of the LAST recorded pre-activation; below it, it is the next
   * signal pulled back through the next weights, times f' of pre-activation `l` counted
   * from the FRONT of the history.
   */
  function Delta(layers: seq<nat>, p: Params, df: real -> real, zs: seq<Matrix>, acts: seq<Matrix>,
                 outputs: seq<real>, expected: seq<real>, l: nat): (d: Matrix)
    requires Shaped(layers, p) && HistoryShaped(layers, zs, acts)
    requires |outputs| == |expected| == layers[|layers| - 1]
    requires l < |layers| - 1
    ensures IsColumn(d, layers[l + 1])
    decreases |layers| - 2 - l
  {
    if l == |layers| - 2 then
      Hadamard(Scaled(Difference(Column(outputs), Column(expected)), 2.0), Mapped(zs[|zs| - 1], df))
    else
      var next := Delta(layers, p, df, zs, acts, outputs, expected, l + 1);
      Hadamard(Product(Transposed(p.weights[l + 1]), next), Mapped(zs[l], df))
  }

  /** The weight gradient of layer transition `l`: its error signal times activation `l`, transposed. */
  function WeightGradient(layers: seq<nat>, p: Params, df: real -> real, zs: seq<Matrix>, acts: seq<Matrix>,
                          outputs: seq<real>, expected: seq<real>, l: nat): (g: Matrix)
    requires Shaped(layers, p) && HistoryShaped(layers, zs, acts)
    requires |outputs| == |expected| == layers[|layers| - 1]
    requires l < |layers| - 1
    ensures g.Valid() && g.SameShape(p.weights[l])
  {
    Product(Delta(layers, p, df, zs, acts, outputs, expected, l), Transposed(acts[l]))
  }

  /** All weight and bias gradients, as back-propagation computes them from the histories. */
  function Gradients(layers: seq<nat>, p: Params, df: real -> real, zs: seq<Matrix>, acts: seq<Matrix>,
                     outputs: seq<real>, expected: seq<real>): (g: Params)
    requires Shaped(layers, p) && HistoryShaped(layers, zs, acts)
    requires |outputs| == |expected| == layers[|layers| - 1]
    ensures Shaped(layers, g) && Fits(layers, p, g)
  {
    Params(seq(|layers| - 1, l requires 0 <= l < |layers| - 1 => WeightGradient(layers, p, df, zs, acts, outputs, expected, l)),
           seq(|layers| - 1, l requires 0 <= l < |layers| - 1 => Delta(layers, p, df, zs, acts, outputs, expected, l)))
  }

  /**
   * Gradients read only pre-activations 0 .. L-2, the last pre-activation and activations
   * 0 .. L-2: histories that agree there give the same gradients.
   */
  lemma {:induction false} DeltaReadsFront(layers: seq<nat>, p: Params, df: real -> real,
                                           zs: seq<Matrix>, acts: seq<Matrix>, zs': seq<Matrix>, acts': seq<Matrix>,
                                           outputs: seq<real>, expected: seq<real>, l: nat)
    requires Shaped(layers, p) && HistoryShaped(layers, zs, acts) && HistoryShaped(layers, zs', acts')
    requires |outputs| == |expected| == layers[|layers| - 1]
    requires zs[..|layers| - 2] == zs'[..|layers| - 2] && zs[|zs| - 1] == zs'[|zs'| - 1]
    requires l < |layers| - 1
    ensures Delta(layers, p, df, zs, acts, outputs, expected, l) == Delta(layers, p, df, zs', acts', outputs, expected, l)
    decreases |layers| - 2 - l
  {
    if l < |layers| - 2 {
      DeltaReadsFront(layers, p, df, zs, acts, zs', acts', outputs, expected, l + 1);
      assert zs[l] == zs[..|layers| - 2][l] == zs'[l];
    }
  }

  lemma GradientsReadFront(layers: seq<nat>, p: Params, df: real -> real,
                           zs: seq<Matrix>, acts: seq<Matrix>, zs': seq<Matrix>, acts': seq<Matrix>,
                           outputs: seq<real>, expected: seq<real>)
    requires Shaped(layers, p) && HistoryShaped(layers, zs, acts) && HistoryShaped(layers, zs', acts')
    requires |outputs| == |expected| == layers[|layers| - 1]
    requires zs[..|layers| - 2] == zs'[..|layers| - 2] && zs[|zs| - 1] == zs'[|zs'| - 1]
    requires acts[..|layers| - 1] == acts'[..|layers| - 1]
    ensures Gradients(layers, p, df, zs, acts, outputs, expected) == Gradients(layers, p, df, zs', acts', outputs, expected)
  {
    forall l | 0 <= l < |layers| - 1
      ensures WeightGradient(layers, p, df, zs, acts, outputs, expected, l) == WeightGradient(layers, p, df, zs', acts', outputs, expected, l)
      ensures Delta(layers, p, df, zs, acts, outputs, expected, l) == Delta(layers, p, df, zs', acts', outputs, expected, l)
    {
      DeltaReadsFront(layers, p, df, zs, acts, zs', acts', outputs, expected, l);
      assert acts[l] == acts[..|layers| - 1][l] == acts'[l];
    }
  }

  // ---------------------------------------------------------------------------
  // Gradient step and the online schedule
  // ---------------------------------------------------------------------------

  /** Every weight and bias moved against its gradient, scaled by `rate`. */
  function Updated(layers: seq<nat>, p: Params, rate: real, g: Params): (q: Params)
    requires Shaped(layers, p) && Fits(layers, p, g)
    ensures Shaped(layers, q)
  {
    Params(seq(|layers| - 1, i requires 0 <= i < |layers| - 1 => Difference(p.weights[i], Scaled(g.weights[i], rate))),
           seq(|layers| - 1, i requires 0 <= i < |layers| - 1 => Difference(p.biases[i], Scaled(g.biases[i], rate))))
  }

  /** Each weight and bias entry moves by the learning rate times its gradient entry. */
  lemma UpdatedEntries(layers: seq<nat>, p: Params, rate: real, g: Params)
    requires Shaped(layers, p) && Fits(layers, p, g)
    ensures forall i, r, c :: 0 <= i < |layers| - 1 && 0 <= r < layers[i + 1] && 0 <= c < layers[i] ==>
      Updated(layers, p, rate, g).weights[i].data[r][c] == p.weights[i].data[r][c] - rate * g.weights[i].data[r][c]
    ensures forall i, r :: 0 <= i < |layers| - 1 && 0 <= r < layers[i + 1] ==>
      Updated(layers, p, rate, g).biases[i].data[r][0] == p.biases[i].data[r][0] - rate * g.biases[i].data[r][0]
  {
  }

  /** The gradients of one example, back-propagated over a fresh recording of it. */
  function ExampleGradients(layers: seq<nat>, act: Activation, p: Params, e: Example): (g: Params)
    requires Shaped(layers, p) && |layers| >= 2 && FitsExample(layers, e)
    ensures Shaped(layers, g) && Fits(layers, p, g)
  {
    var x := Column(e.inputs);
    var zs := PreActivations(layers, p, act.forward, x, |layers| - 1);
    var acts := Activations(layers, p, act.forward, x, |layers| - 1);
    RecordingShaped(layers, p, act.forward, x);
    Gradients(layers, p, act.derivative, zs, acts, Predict(layers, p, act.forward, e.inputs), e.outputs)
  }

  /** The gradients of one example are those back-propagated from a history holding only its recording. */
  lemma ExampleGradientsFresh(layers: seq<nat>, act: Activation, p: Params, e: Example)
    requires Shaped(layers, p) && |layers| >= 2 && FitsExample(layers, e)
    ensures HistoryShaped(layers, PreActivations(layers, p, act.forward, Column(e.inputs), |layers| - 1),
                                  Activations(layers, p, act.forward, Column(e.inputs), |layers| - 1))
    ensures ExampleGradients(layers, act, p, e) ==
      Gradients(layers, p, act.derivative,
                PreActivations(layers, p, act.forward, Column(e.inputs), |layers| - 1),
                Activations(layers, p, act.forward, Column(e.inputs), |layers| - 1),
                Predict(layers, p, act.forward, e.inputs), e.outputs)
  {
    RecordingShaped(layers, p, act.forward, Column(e.inputs));
  }

  /** One step of online training: record, back-propagate and update on one example. */
  function OnlineStep(layers: seq<nat>, act: Activation, rate: real, p: Params, e: Example): (q: Params)
    requires Shaped(layers, p) && |layers| >= 2 && FitsExample(layers, e)
    ensures Shaped(layers, q)
  {
    Updated(layers, p, rate, ExampleGradients(layers, act, p, e))
  }

  /**
   * An online step is the update by the gradients back-propagated from the fresh
   * recording of the example and the prediction it ends in.
   */
  lemma OnlineStepFromRecording(layers: seq<nat>, act: Activation, rate: real, p: Params, e: Example, outputs: seq<real>)
    requires Shaped(layers, p) && |layers| >= 2 && FitsExample(layers, e)
    requires outputs == Predict(layers, p, act.forward, e.inputs)
    ensures HistoryShaped(layers, PreActivations(layers, p, act.forward, Column(e.inputs), |layers| - 1),
                                  Activations(layers, p, act.forward, Column(e.inputs), |layers| - 1))
    ensures Updated(layers, p, rate,
                    Gradients(layers, p, act.derivative,
                              PreActivations(layers, p, act.forward, Column(e.inputs), |layers| - 1),
                              Activations(layers, p, act.forward, Column(e.inputs), |layers| - 1),
                              outputs, e.outputs)) ==
            OnlineStep(layers, act, rate, p, e)
  {
    ExampleGradientsFresh(layers, act, p, e);
  }

  /** Online steps over `examples` in their order, the first one first. */
  function Online(layers: seq<nat>, act: Activation, rate: real, p: Params, examples: seq<Example>): (q: Params)
    requires Shaped(layers, p) && AllFit(layers, examples)
    requires |layers| >= 2 || examples == []
    ensures Shaped(layers, q)
    decreases |examples|
  {
    if examples == [] then p
    else
      var last := examples[|examples| - 1];
      assert last in examples;
      OnlineStep(layers, act, rate, Online(layers, act, rate, p, examples[..|examples| - 1]), last)
  }

  /** Online training over one more example is one more online step. */
  lemma OnlineAppend(layers: seq<nat>, act: Activation, rate: real, p: Params, examples: seq<Example>, e: Example)
    requires Shaped(layers, p) && |layers| >= 2 && AllFit(layers, examples) && FitsExample(layers, e)
    ensures AllFit(layers, examples + [e])
    ensures Online(layers, act, rate, p, examples + [e]) ==
      OnlineStep(layers, act, rate, Online(layers, act, rate, p, examples), e)
  {
    assert (examples + [e])[..|examples|] == examples;
  }

  /** Online training over two runs of examples is training over the second from where the first ended. */
  lemma {:induction false} OnlineConcat(layers: seq<nat>, act: Activation, rate: real, p: Params, first: seq<Example>, second: seq<Example>)
    requires Shaped(layers, p) && |layers| >= 2 && AllFit(layers, first) && AllFit(layers, second)
    ensures AllFit(layers, first + second)
    ensures Online(layers, act, rate, p, first + second) ==
      Online(layers, act, rate, Online(layers, act, rate, p, first), second)
    decreases |second|
  {
    if second == [] {
      assert first + second == first;
    } else {
      var init, last := second[..|second| - 1], second[|second| - 1];
      SplitLast(first, second);
      AllFitParts(layers, init, last, second);
      OnlineConcat(layers, act, rate, p, first, init);
      OnlineAppend(layers, act, rate, p, first + init, last);
      OnlineAppend(layers, act, rate, Online(layers, act, rate, p, first), init, last);
    }
  }

  /**
   * The state online training from `s` ends in: the parameters of `Online`, and histories
   * holding the recording of the LAST example alone, made with the parameters reached
   * before its step (every step clears the histories before recording). Without examples
   * the state is left as it is.
   */
  function OnlineState(layers: seq<nat>, act: Activation, rate: real, s: TrainingState, examples: seq<Example>): (r: TrainingState)
    requires Shaped(layers, s.params) && AllFit(layers, examples)
    requires |layers| >= 2 || examples == []
    ensures r.params == Online(layers, act, rate, s.params, examples)
    ensures examples == [] ==> r == s
  {
    if examples == [] then s
    else
      var init, last := examples[..|examples| - 1], examples[|examples| - 1];
      assert examples == init + [last];
      AllFitParts(layers, init, last, examples);
      var q := Online(layers, act, rate, s.params, init);
      var x := Column(last.inputs);
      TrainingState(Online(layers, act, rate, s.params, examples),
                    PreActivations(layers, q, act.forward, x, |layers| - 1),
                    Activations(layers, q, act.forward, x, |layers| - 1))
  }

  /**
   * Online training over one more example: one more online step, and histories holding
   * just that example's recording under the parameters before the step.
   */
  lemma OnlineStateAppend(layers: seq<nat>, act: Activation, rate: real, s: TrainingState, examples: seq<Example>, e: Example)
    requires Shaped(layers, s.params) && |layers| >= 2 && AllFit(layers, examples) && FitsExample(layers, e)
    ensures AllFit(layers, examples + [e])
    ensures var q := Online(layers, act, rate, s.params, examples);
      OnlineState(layers, act, rate, s, examples + [e]) ==
        TrainingState(OnlineStep(layers, act, rate, q, e),
                      PreActivations(layers, q, act.forward, Column(e.inputs), |layers| - 1),
                      Activations(layers, q, act.forward, Column(e.inputs), |layers| - 1))
  {
    OnlineAppend(layers, act, rate, s.params, examples, e);
  }

  /** Online training over two runs ends where training over the second, from the end of the first, ends. */
  lemma OnlineStateConcat(layers: seq<nat>, act: Activation, rate: real, s: TrainingState, first: seq<Example>, second: seq<Example>)
    requires Shaped(layers, s.params) && |layers| >= 2 && AllFit(layers, first) && AllFit(layers, second)
    ensures AllFit(layers, first + second)
    ensures OnlineState(layers, act, rate, s, first + second) ==
      OnlineState(layers, act, rate, OnlineState(layers, act, rate, s, first), second)
  {
    OnlineConcat(layers, act, rate, s.params, first, second);
    if second == [] {
      assert first + second == first;
    } else {
      var init, last := second[..|second| - 1], second[|second| - 1];
      SplitLast(first, second);
      AllFitParts(layers, init, last, second);
      OnlineConcat(layers, act, rate, s.params, first, init);
      assert (first + second)[..|first + second| - 1] == first + init;
    }
  }

  /** A non-empty run is its front followed by its last element, also behind a prefix. */
  lemma SplitLast<T>(first: seq<T>, second: seq<T>)
    requires |second| > 0
    ensures second == second[..|second| - 1] + [second[|second| - 1]]
    ensures first + second == (first + second[..|second| - 1]) + [second[|second| - 1]]
  {
  }

  /** The examples of a run that fits all fit one by one. */
  lemma AllFitParts(layers: seq<nat>, init: seq<Example>, last: Example, all: seq<Example>)
    requires all == init + [last] && AllFit(layers, all)
    ensures AllFit(layers, init) && FitsExample(layers, last)
  {
    assert last in all;
    forall e | e in init ensures FitsExample(layers, e) {
      assert e in all;
    }
  }

  /** `epochs` copies of the examples, one after the other. */
  function Repeat(examples: seq<Example>, epochs: nat): (s: seq<Example>)
    ensures forall e :: e in s ==> e in examples
    ensures epochs == 0 || examples == [] <==> s == []
  {
    if epochs == 0 then [] else Repeat(examples, epochs - 1) + examples
  }

  /** One more epoch of online training continues from where the earlier epochs ended. */
  lemma OnlineEpoch(layers: seq<nat>, act: Activation, rate: real, p: Params, examples: seq<Example>, epochs: nat)
    requires Shaped(layers, p) && AllFit(layers, examples) && (|layers| >= 2 || examples == [])
    requires AllFit(layers, Repeat(examples, epochs))
    ensures AllFit(layers, Repeat(examples, epochs + 1))
    ensures Online(layers, act, rate, p, Repeat(examples, epochs + 1)) ==
      Online(layers, act, rate, Online(layers, act, rate, p, Repeat(examples, epochs)), examples)
  {
    assert Repeat(examples, epochs + 1) == Repeat(examples, epochs) + examples;
    if examples == [] {
      assert Repeat(examples, epochs + 1) == Repeat(examples, epochs);
    } else {
      OnlineConcat(layers, act, rate, p, Repeat(examples, epochs), examples);
    }
  }

  /**
   * What online training from state `s` reaches after the examples `done`: the state of
   * `OnlineState` when the parameters fit the layer sizes and every example does, `None`
   * otherwise.
   */
  ghost function Trained(layers: seq<nat>, act: Activation, rate: real, s: TrainingState, done: seq<Example>): Option<TrainingState> {
    if Shaped(layers, s.params) && AllFit(layers, done) && (|layers| >= 2 || done == []) then
      Some(OnlineState(layers, act, rate, s, done))
    else
      None
  }

  /** The state `Trained` reaches is the state online training ends in. */
  lemma TrainedState(layers: seq<nat>, act: Activation, rate: real, s: TrainingState, done: seq<Example>, t: TrainingState)
    requires Trained(layers, act, rate, s, done) == Some(t)
    ensures Shaped(layers, s.params) && AllFit(layers, done) && (|layers| >= 2 || done == [])
    ensures t == OnlineState(layers, act, rate, s, done)
  {
  }

  /** One more epoch of online training extends the training reached after `epochs` epochs. */
  lemma NextEpoch(layers: seq<nat>, act: Activation, rate: real, s: TrainingState, t: TrainingState, examples: seq<Example>, epochs: nat)
    requires Trained(layers, act, rate, s, Repeat(examples, epochs)) == Some(t)
    requires AllFit(layers, examples) && (|layers| >= 2 || examples == [])
    ensures Shaped(layers, t.params)
    ensures Trained(layers, act, rate, s, Repeat(examples, epochs + 1)) == Some(OnlineState(layers, act, rate, t, examples))
  {
    assert Repeat(examples, epochs + 1) == Repeat(examples, epochs) + examples;
    if examples == [] {
      assert Repeat(examples, epochs + 1) == Repeat(examples, epochs);
    } else {
      OnlineStateConcat(layers, act, rate, s, Repeat(examples, epochs), examples);
    }
  }

  /** The repeated schedule visits `epochs` x n examples, step k being example k mod n. */
  lemma {:induction false} RepeatOrder(examples: seq<Example>, epochs: nat)
    ensures |Repeat(examples, epochs)| == epochs * |examples|
    ensures forall k :: 0 <= k < |Repeat(examples, epochs)| ==> Repeat(examples, epochs)[k] == examples[k % |examples|]
  {
    if epochs > 0 {
      RepeatOrder(examples, epochs - 1);
      var n, prev := |examples|, Repeat(examples, epochs - 1);
      assert |prev| == (epochs - 1) * n;
      forall k | 0 <= k < |Repeat(examples, epochs)|
        ensures Repeat(examples, epochs)[k] == examples[k % n]
      {
        if k >= |prev| {
          ModuloOfLastBlock(k, epochs - 1, n);
        }
      }
    }
  }

  lemma ModuloOfLastBlock(k: nat, q: nat, n: nat)
    requires q * n <= k < q * n + n
    ensures k % n == k - q * n
  {
    DivModUnique(k, n, q, k - q * n);
  }

  /** Euclidean division has one quotient and one remainder. */
  lemma DivModUnique(k: int, n: int, q: int, r: int)
    requires n > 0 && 0 <= r < n && k == q * n + r
    ensures k / n == q && k % n == r
  {
    var d, m := k / n, k % n;
    assert k == d * n + m && 0 <= m < n;
    assert (q - d) * n == m - r;
    if q > d {
      MultipleAtLeast(q - d, n);
      assert false;
    } else if q < d {
      MultipleAtLeast(d - q, n);
      assert false;
    }
  }

  lemma MultipleAtLeast(a: int, n: int)
    requires a >= 1 && n > 0
    ensures a * n >= n
  {
  }

  /** What online training needs: an output per input, and every pair of the layer sizes. */
  ghost predicate Trainable(layers: seq<nat>, inputs: seq<seq<real>>, outputs: seq<seq<real>>) {
    |outputs| >= |inputs| && (|inputs| > 0 ==> |layers| >= 2) && AllFit(layers, Zip(inputs, outputs))
  }

  /** Pairs of corresponding inputs and outputs, as many as the shorter sequence has. */
  function Zip(inputs: seq<seq<real>>, outputs: seq<seq<real>>): (ps: seq<Example>)
    ensures |ps| == if |inputs| <= |outputs| then |inputs| else |outputs|
    ensures forall k :: 0 <= k < |ps| ==> ps[k] == Example(inputs[k], outputs[k])
  {
    var n := if |inputs| <= |outputs| then |inputs| else |outputs|;
    seq(n, k requires 0 <= k < n => Example(inputs[k], outputs[k]))
  }

  // ---------------------------------------------------------------------------
  // The mini-batch schedule
  // ---------------------------------------------------------------------------

  /** What a mini-batch accumulates: the (never cleared) histories and the gradient sums. */
  datatype Accumulated = Accumulated(zHistory: seq<Matrix>, activationHistory: seq<Matrix>, nabla: Params)

  /** The state the mini-batch driver carries from window to window. */
  datatype TrainingState = TrainingState(params: Params, zHistory: seq<Matrix>, activationHistory: seq<Matrix>)

  /** Zero matrices shaped like each weight and each bias. */
  function ZerosLike(layers: seq<nat>, p: Params): (z: Params)
    requires Shaped(layers, p)
    ensures Shaped(layers, z)
    ensures forall i :: 0 <= i < |layers| - 1 ==>
      z.weights[i] == Zeros(p.weights[i].rows, p.weights[i].cols) && z.biases[i] == Zeros(p.biases[i].rows, p.biases[i].cols)
  {
    Params(seq(|layers| - 1, i requires 0 <= i < |layers| - 1 => Zeros(p.weights[i].rows, p.weights[i].cols)),
           seq(|layers| - 1, i requires 0 <= i < |layers| - 1 => Zeros(p.biases[i].rows, p.biases[i].cols)))
  }

  /** Gradient sums with one more example's gradients added in. */
  function AddGradients(layers: seq<nat>, acc: Params, g: Params): (r: Params)
    requires Shaped(layers, acc) && Shaped(layers, g)
    ensures Shaped(layers, r)
  {
    Params(seq(|layers| - 1, j requires 0 <= j < |layers| - 1 => Sum(acc.weights[j], g.weights[j])),
           seq(|layers| - 1, j requires 0 <= j < |layers| - 1 => Sum(acc.biases[j], g.biases[j])))
  }

  /**
   * One example of a mini-batch: its recording is APPENDED to the histories, and
   * back-propagation then reads the histories from the front, as the library does.
   */
  function AccumulateExample(layers: seq<nat>, act: Activation, p: Params, acc: Accumulated, e: Example): (r: Accumulated)
    requires Shaped(layers, p) && |layers| >= 2 && FitsExample(layers, e)
    requires HistoryOpen(layers, acc.zHistory, acc.activationHistory) && Shaped(layers, acc.nabla)
    ensures HistoryShaped(layers, r.zHistory, r.activationHistory) && Shaped(layers, r.nabla)
  {
    var x := Column(e.inputs);
    var zs := acc.zHistory + PreActivations(layers, p, act.forward, x, |layers| - 1);
    var acts := acc.activationHistory + Activations(layers, p, act.forward, x, |layers| - 1);
    AppendRecording(layers, p, act.forward, x, acc.zHistory, acc.activationHistory);
    var g := Gradients(layers, p, act.derivative, zs, acts, Predict(layers, p, act.forward, e.inputs), e.outputs);
    Accumulated(zs, acts, AddGradients(layers, acc.nabla, g))
  }

  /** A whole mini-batch, from zero accumulators, with the parameters fixed. */
  function AccumulateWindow(layers: seq<nat>, act: Activation, p: Params, zs: seq<Matrix>, acts: seq<Matrix>,
                            window: seq<Example>): (r: Accumulated)
    requires Shaped(layers, p) && |layers| >= 2 && AllFit(layers, window) && HistoryOpen(layers, zs, acts)
    ensures HistoryOpen(layers, r.zHistory, r.activationHistory) && Shaped(layers, r.nabla)
    decreases |window|
  {
    if window == [] then Accumulated(zs, acts, ZerosLike(layers, p))
    else
      var last := window[|window| - 1];
      assert last in window;
      AccumulateExample(layers, act, p, AccumulateWindow(layers, act, p, zs, acts, window[..|window| - 1]), last)
  }

  /**
   * What a mini-batch has accumulated after its first `m` examples: the sums of
   * `AccumulateWindow` when the arguments fit, `None` otherwise.
   */
  ghost function AccumulatedPrefix(layers: seq<nat>, act: Activation, p: Params, zs: seq<Matrix>, acts: seq<Matrix>,
                                   window: seq<Example>, m: nat): Option<Accumulated> {
    if Shaped(layers, p) && |layers| >= 2 && AllFit(layers, window) && HistoryOpen(layers, zs, acts) && m <= |window| then
      Some(AccumulateWindow(layers, act, p, zs, acts, window[..m]))
    else
      None
  }

  /** A mini-batch accumulated one example further: the next example folded into the sums so far. */
  lemma AccumulatedPrefixNext(layers: seq<nat>, act: Activation, p: Params, zs: seq<Matrix>, acts: seq<Matrix>,
                              window: seq<Example>, m: nat, acc: Accumulated)
    requires AccumulatedPrefix(layers, act, p, zs, acts, window, m) == Some(acc) && m < |window|
    ensures Shaped(layers, p) && |layers| >= 2 && FitsExample(layers, window[m])
    ensures HistoryOpen(layers, acc.zHistory, acc.activationHistory) && Shaped(layers, acc.nabla)
    ensures AccumulatedPrefix(layers, act, p, zs, acts, window, m + 1) == Some(AccumulateExample(layers, act, p, acc, window[m]))
  {
    assert window[m] in window;
    assert window[..m + 1][..m] == window[..m];
  }

  /** One mini-batch: accumulate, then one update scaled by the rate over the window length. */
  function WindowStep(layers: seq<nat>, act: Activation, rate: real, s: TrainingState, window: seq<Example>): (r: TrainingState)
    requires Shaped(layers, s.params) && |layers| >= 2 && HistoryOpen(layers, s.zHistory, s.activationHistory)
    requires |window| >= 1 && AllFit(layers, window)
    ensures Shaped(layers, r.params) && HistoryOpen(layers, r.zHistory, r.activationHistory)
  {
    var acc := AccumulateWindow(layers, act, s.params, s.zHistory, s.activationHistory, window);
    ShapedFits(layers, s.params, acc.nabla);
    TrainingState(Updated(layers, s.params, rate / |window| as real, acc.nabla), acc.zHistory, acc.activationHistory)
  }

  /** The overlapping windows of `k` consecutive examples: none if there are fewer than `k`. */
  function Windows(batch: seq<Example>, k: nat): (ws: seq<seq<Example>>)
    requires k >= 1
    ensures |ws| == if |batch| < k then 0 else |batch| - k + 1
    ensures forall s :: 0 <= s < |ws| ==> ws[s] == batch[s..s + k]
  {
    if |batch| < k then [] else seq(|batch| - k + 1, s requires 0 <= s <= |batch| - k => batch[s..s + k])
  }

  /** Every window has `k` examples, all taken from the batch. */
  lemma WindowsFromBatch(batch: seq<Example>, k: nat)
    requires k >= 1
    ensures forall w :: w in Windows(batch, k) ==> |w| == k && forall e :: e in w ==> e in batch
  {
    forall w | w in Windows(batch, k)
      ensures |w| == k && forall e :: e in w ==> e in batch
    {
      var s :| 0 <= s < |Windows(batch, k)| && Windows(batch, k)[s] == w;
      forall e | e in w ensures e in batch {
        var t :| 0 <= t < k && w[t] == e;
        assert batch[s + t] == e;
      }
    }
  }

  ghost predicate Windowable(layers: seq<nat>, windows: seq<seq<Example>>) {
    forall w :: w in windows ==> |w| >= 1 && AllFit(layers, w)
  }

  /** Mini-batch steps over the windows in order. */
  function WindowSteps(layers: seq<nat>, act: Activation, rate: real, s: TrainingState, windows: seq<seq<Example>>): (r: TrainingState)
    requires Shaped(layers, s.params) && HistoryOpen(layers, s.zHistory, s.activationHistory)
    requires Windowable(layers, windows) && (|layers| >= 2 || windows == [])
    ensures Shaped(layers, r.params) && HistoryOpen(layers, r.zHistory, r.activationHistory)
    decreases |windows|
  {
    if windows == [] then s
    else
      var last := windows[|windows| - 1];
      assert last in windows;
      WindowStep(layers, act, rate, WindowSteps(layers, act, rate, s, windows[..|windows| - 1]), last)
  }

  /** The window steps taken one window further: one more step after the steps so far. */
  lemma WindowStepsNext(layers: seq<nat>, act: Activation, rate: real, s: TrainingState, windows: seq<seq<Example>>, w: nat)
    requires Shaped(layers, s.params) && HistoryOpen(layers, s.zHistory, s.activationHistory)
    requires Windowable(layers, windows) && (|layers| >= 2 || windows == [])
    requires w < |windows|
    ensures |layers| >= 2 && Windowable(layers, windows[..w]) && |windows[w]| >= 1 && AllFit(layers, windows[w])
    ensures WindowSteps(layers, act, rate, s, windows[..w + 1]) ==
      WindowStep(layers, act, rate, WindowSteps(layers, act, rate, s, windows[..w]), windows[w])
  {
    assert windows[w] in windows;
    assert windows[..w + 1][..w] == windows[..w];
  }

  /** `shuffle` only reorders, whatever epoch and batch it is given. */
  ghost predicate Permutes(shuffle: (nat, seq<Example>) -> seq<Example>) {
    forall i, b :: multiset(shuffle(i, b)) == multiset(b)
  }

  /** What the mini-batch driver needs of its arguments, for each epoch it runs. */
  ghost predicate MiniBatchable(layers: seq<nat>, batch: seq<Example>, k: nat) {
    k >= 1 && (|batch| >= k ==> |layers| >= 2 && AllFit(layers, batch))
  }

  lemma ShuffleKeeps(layers: seq<nat>, shuffle: (nat, seq<Example>) -> seq<Example>, i: nat, batch: seq<Example>, k: nat)
    requires Permutes(shuffle) && MiniBatchable(layers, batch, k)
    ensures MiniBatchable(layers, shuffle(i, batch), k) && |shuffle(i, batch)| == |batch|
  {
    var b' := shuffle(i, batch);
    assert multiset(b') == multiset(batch);
    assert |b'| == |multiset(b')| == |multiset(batch)| == |batch|;
    forall e | e in b' ensures e in batch {
      assert e in multiset(b');
    }
  }

  lemma WindowsWindowable(layers: seq<nat>, batch: seq<Example>, k: nat)
    requires MiniBatchable(layers, batch, k)
    ensures Windowable(layers, Windows(batch, k)) && (|layers| >= 2 || Windows(batch, k) == [])
  {
    WindowsFromBatch(batch, k);
  }

  /**
   * The first `epochs` epochs of mini-batch training, numbered from 1: each shuffles the
   * batch kept from the epoch before and takes one step per window. Returns the state and
   * the batch in its last shuffled order.
   */
  function MiniBatchEpochs(layers: seq<nat>, act: Activation, rate: real, s: TrainingState, batch: seq<Example>,
                           shuffle: (nat, seq<Example>) -> seq<Example>, k: nat, epochs: nat): (r: (TrainingState, seq<Example>))
    requires Shaped(layers, s.params) && HistoryOpen(layers, s.zHistory, s.activationHistory)
    requires Permutes(shuffle) && (epochs > 0 ==> MiniBatchable(layers, batch, k))
    ensures Shaped(layers, r.0.params) && HistoryOpen(layers, r.0.zHistory, r.0.activationHistory)
    ensures epochs > 0 ==> MiniBatchable(layers, r.1, k)
    ensures |r.1| == |batch|
  {
    if epochs == 0 then (s, batch)
    else
      var (s', b') := MiniBatchEpochs(layers, act, rate, s, batch, shuffle, k, epochs - 1);
      var b'' := shuffle(epochs, b');
      assert MiniBatchable(layers, b', k) by {
        if epochs - 1 == 0 { assert b' == batch; }
      }
      ShuffleKeeps(layers, shuffle, epochs, b', k);
      WindowsWindowable(layers, b'', k);
      (WindowSteps(layers, act, rate, s', Windows(b'', k)), b'')
  }

  // ---------------------------------------------------------------------------
  // Counting exact answers
  // ---------------------------------------------------------------------------

  /** Rounding to the nearest integer, halfway cases away from zero. */
  function Round(x: real): (r: real)
    ensures r == r.Floor as real
    ensures -0.5 <= r - x <= 0.5
    ensures x >= 0.0 ==> r - x > -0.5
    ensures x < 0.0 ==> r - x < 0.5
  {
    if x >= 0.0 then
      var n := (x + 0.5).Floor;
      assert n as real <= x + 0.5 < n as real + 1.0;
      n as real
    else
      var n := (-x + 0.5).Floor;
      assert n as real <= -x + 0.5 < n as real + 1.0;
      assert (-n) as real == -(n as real);
      -(n as real)
  }

  function RoundAll(v: seq<real>): (r: seq<real>)
    ensures |r| == |v| && forall i :: 0 <= i < |v| ==> r[i] == Round(v[i])
  {
    seq(|v|, i requires 0 <= i < |v| => Round(v[i]))
  }

  ghost predicate AllInputsFit(layers: seq<nat>, examples: seq<Example>) {
    |layers| >= 1 && forall e :: e in examples ==> |e.inputs| == layers[0]
  }

  /** How many of the examples the network answers exactly, once its outputs are rounded. */
  function Passes(layers: seq<nat>, p: Params, f: real -> real, examples: seq<Example>): (n: nat)
    requires Shaped(layers, p) && AllInputsFit(layers, examples)
    ensures n <= |examples|
    decreases |examples|
  {
    if examples == [] then 0
    else
      var last := examples[|examples| - 1];
      assert last in examples;
      Passes(layers, p, f, examples[..|examples| - 1]) +
        (if RoundAll(Predict(layers, p, f, last.inputs)) == last.outputs then 1 else 0)
  }
}
