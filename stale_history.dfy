/**
 * The mini-batch driver records every example of every window onto histories it never
 * clears, while back-propagation reads every pre-activation below the output layer and
 * every activation by absolute index from the FRONT of the histories. From the second
 * recorded example on, the gradients are therefore built from the activations of the
 * first recording made since the histories were last cleared by the online driver, or
 * since construction, rather than from those of the example itself. The online driver
 * clears both histories before each example and does not have this defect.
 *
 * This module exhibits the discrepancy on a one-neuron network, and defines the
 * evidently intended mini-batch step, with each example back-propagated over its own
 * fresh recording, proving that a window of one example is then exactly an online step.
 */
module StaleHistory {
  import opened Matrices
  import opened NetworkSpec

  // ---------------------------------------------------------------------------
  // As written: a window step after an earlier recording
  // ---------------------------------------------------------------------------

  /** A 1 x 1 matrix. */
  function Scalar(x: real): (m: Matrix)
    ensures m.Valid() && m.rows == 1 && m.cols == 1 && m.data[0][0] == x
  {
    Matrix(1, 1, [[x]])
  }

  /** Two layers of one neuron each, weight 0 and bias 0. */
  function Tiny(): (p: Params)
    ensures Shaped([1, 1], p)
  {
    Params([Scalar(0.0)], [Scalar(0.0)])
  }

  /** The identity activation, whose derivative is 1 everywhere. */
  function Identity(): Activation {
    Activation(x => x, x => 1.0)
  }

  /** A valid 1 x 1 matrix is the scalar it holds. */
  lemma IsScalar(m: Matrix)
    requires m.Valid() && m.rows == 1 && m.cols == 1
    ensures m == Scalar(m.data[0][0])
  {
    assert |m.data| == 1 && |m.data[0]| == 1;
    assert m.data[0] == [m.data[0][0]];
  }

  /** Recording input 2 on the tiny network: pre-activation 0, activations 2 and 0, answer 0. */
  lemma TinyRecording()
    ensures PreActivations([1, 1], Tiny(), Identity().forward, Column([2.0]), 1) == [Scalar(0.0)]
    ensures Activations([1, 1], Tiny(), Identity().forward, Column([2.0]), 1) == [Scalar(2.0), Scalar(0.0)]
    ensures Predict([1, 1], Tiny(), Identity().forward, [2.0]) == [0.0]
  {
    var layers, p, f, x := [1, 1], Tiny(), Identity().forward, Column([2.0]);
    IsScalar(x);
    var z := PreActivation(p.weights[0], p.biases[0], x);
    assert Product(p.weights[0], x).data[0][0] == InnerProduct(p.weights[0], x, 0, 0, 1) == 0.0;
    IsScalar(z);
    IsScalar(Mapped(z, f));
    assert Propagate(layers, p, f, x, 1) == Mapped(z, f);
    var zs := PreActivations(layers, p, f, x, 1);
    assert zs[0] == z;
    var acts := Activations(layers, p, f, x, 1);
    assert acts[0] == x && acts[1] == Mapped(z, f);
  }

  /**
   * Back-propagating answer 0 against expected 1 on the tiny network, over histories whose
   * last pre-activation is 0 and whose activation 0 is `v`: the error signal is -2 and the
   * weight gradient -2 v.
   */
  lemma TinyGradients(zs: seq<Matrix>, acts: seq<Matrix>, v: real)
    requires HistoryShaped([1, 1], zs, acts)
    requires zs[|zs| - 1] == Scalar(0.0) && acts[0] == Scalar(v)
    ensures Gradients([1, 1], Tiny(), Identity().derivative, zs, acts, [0.0], [1.0]) ==
      Params([Scalar(-2.0 * v)], [Scalar(-2.0)])
  {
    var layers, p, df := [1, 1], Tiny(), Identity().derivative;
    var d := Delta(layers, p, df, zs, acts, [0.0], [1.0], 0);
    assert d.data[0][0] == -2.0;
    IsScalar(d);
    var w := WeightGradient(layers, p, df, zs, acts, [0.0], [1.0], 0);
    assert w.data[0][0] == InnerProduct(d, Transposed(acts[0]), 0, 0, 1) == -2.0 * v;
    IsScalar(w);
  }

  /** Gradient sums that start from zero are the gradients added in. */
  lemma TinySums(g: Params)
    requires Shaped([1, 1], g)
    ensures AddGradients([1, 1], ZerosLike([1, 1], Tiny()), g) == g
  {
    SumZerosLeft(g.weights[0]);
    SumZerosLeft(g.biases[0]);
    assert AddGradients([1, 1], ZerosLike([1, 1], Tiny()), g).weights == g.weights;
    assert AddGradients([1, 1], ZerosLike([1, 1], Tiny()), g).biases == g.biases;
  }

  /**
   * As written: with the histories holding the recording of input 1, a window of the
   * single example 2 -> 1 sums the weight gradient -2, built from the stale input 1.
   */
  lemma StaleAccumulation()
    ensures HistoryShaped([1, 1], [Scalar(0.0)], [Scalar(1.0), Scalar(0.0)])
    ensures AccumulateWindow([1, 1], Identity(), Tiny(), [Scalar(0.0)], [Scalar(1.0), Scalar(0.0)],
                             [Example([2.0], [1.0])]).nabla == Params([Scalar(-2.0)], [Scalar(-2.0)])
  {
    var layers, act, p, e := [1, 1], Identity(), Tiny(), Example([2.0], [1.0]);
    var zs0, acts0 := [Scalar(0.0)], [Scalar(1.0), Scalar(0.0)];
    TinyRecording();
    var zs := zs0 + [Scalar(0.0)];
    var acts := acts0 + [Scalar(2.0), Scalar(0.0)];
    AppendRecording(layers, p, act.forward, Column(e.inputs), zs0, acts0);
    TinyGradients(zs, acts, 1.0);
    TinySums(Params([Scalar(-2.0)], [Scalar(-2.0)]));
    assert [e][..0] == [];
    assert AccumulateWindow(layers, act, p, zs0, acts0, []) == Accumulated(zs0, acts0, ZerosLike(layers, p));
  }

  /** Intended: the fresh recording of 2 -> 1 gives the weight gradient -4, from the input 2. */
  lemma FreshGradients()
    ensures ExampleGradients([1, 1], Identity(), Tiny(), Example([2.0], [1.0])) == Params([Scalar(-4.0)], [Scalar(-2.0)])
  {
    ExampleGradientsFresh([1, 1], Identity(), Tiny(), Example([2.0], [1.0]));
    TinyRecording();
    TinyGradients([Scalar(0.0)], [Scalar(2.0), Scalar(0.0)], 2.0);
  }

  /** As written: the window step moves the weight from 0 to 0 - 1 * (-2) = 2. */
  lemma StaleWindowWeight()
    ensures HistoryShaped([1, 1], [Scalar(0.0)], [Scalar(1.0), Scalar(0.0)])
    ensures WindowStep([1, 1], Identity(), 1.0,
                       TrainingState(Tiny(), [Scalar(0.0)], [Scalar(1.0), Scalar(0.0)]),
                       [Example([2.0], [1.0])]).params.weights[0].data[0][0] == 2.0
  {
    StaleAccumulation();
    var sums := Params([Scalar(-2.0)], [Scalar(-2.0)]);
    ShapedFits([1, 1], Tiny(), sums);
    assert 1.0 / |[Example([2.0], [1.0])]| as real == 1.0;
    UpdatedEntries([1, 1], Tiny(), 1.0, sums);
  }

  /** Intended: the online step moves the weight from 0 to 0 - 1 * (-4) = 4. */
  lemma OnlineWeight()
    ensures OnlineStep([1, 1], Identity(), 1.0, Tiny(), Example([2.0], [1.0])).weights[0].data[0][0] == 4.0
  {
    FreshGradients();
    var g := Params([Scalar(-4.0)], [Scalar(-2.0)]);
    ShapedFits([1, 1], Tiny(), g);
    UpdatedEntries([1, 1], Tiny(), 1.0, g);
  }

  /**
   * The discrepancy: after an earlier recording of input 1, a mini-batch of the single
   * example 2 -> 1 at learning rate 1 moves the weight to 2, where an online step on the
   * same example moves it to 4.
   */
  lemma StaleWindowStep()
    ensures HistoryShaped([1, 1], [Scalar(0.0)], [Scalar(1.0), Scalar(0.0)])
    ensures WindowStep([1, 1], Identity(), 1.0,
                       TrainingState(Tiny(), [Scalar(0.0)], [Scalar(1.0), Scalar(0.0)]),
                       [Example([2.0], [1.0])]).params !=
            OnlineStep([1, 1], Identity(), 1.0, Tiny(), Example([2.0], [1.0]))
  {
    StaleWindowWeight();
    OnlineWeight();
  }

  // ---------------------------------------------------------------------------
  // Intended: each example back-propagated over its own recording
  // ---------------------------------------------------------------------------

  /** The gradient sums of a window, each example's gradients taken from a fresh recording. */
  function AccumulateWindowFresh(layers: seq<nat>, act: Activation, p: Params, window: seq<Example>): (sums: Params)
    requires Shaped(layers, p) && |layers| >= 2 && AllFit(layers, window)
    ensures Shaped(layers, sums)
    decreases |window|
  {
    if window == [] then ZerosLike(layers, p)
    else
      var last := window[|window| - 1];
      assert last in window;
      AddGradients(layers, AccumulateWindowFresh(layers, act, p, window[..|window| - 1]),
                   ExampleGradients(layers, act, p, last))
  }

  /** The intended mini-batch step: the update by the fresh gradient sums over the window length. */
  function WindowStepFresh(layers: seq<nat>, act: Activation, rate: real, p: Params, window: seq<Example>): (q: Params)
    requires Shaped(layers, p) && |layers| >= 2 && |window| >= 1 && AllFit(layers, window)
    ensures Shaped(layers, q)
  {
    var sums := AccumulateWindowFresh(layers, act, p, window);
    ShapedFits(layers, p, sums);
    Updated(layers, p, rate / |window| as real, sums)
  }

  /** On empty histories the driver as written accumulates exactly the intended gradients. */
  lemma EmptyHistoryIsFresh(layers: seq<nat>, act: Activation, p: Params, nabla: Params, e: Example)
    requires Shaped(layers, p) && |layers| >= 2 && FitsExample(layers, e) && Shaped(layers, nabla)
    ensures AccumulateExample(layers, act, p, Accumulated([], [], nabla), e).nabla ==
      AddGradients(layers, nabla, ExampleGradients(layers, act, p, e))
  {
    var x := Column(e.inputs);
    assert [] + PreActivations(layers, p, act.forward, x, |layers| - 1) == PreActivations(layers, p, act.forward, x, |layers| - 1);
    assert [] + Activations(layers, p, act.forward, x, |layers| - 1) == Activations(layers, p, act.forward, x, |layers| - 1);
    ExampleGradientsFresh(layers, act, p, e);
  }

  /** The fresh sums of a window of one example are that example's gradients. */
  lemma SingleWindowSums(layers: seq<nat>, act: Activation, p: Params, e: Example)
    requires Shaped(layers, p) && |layers| >= 2 && FitsExample(layers, e)
    ensures AccumulateWindowFresh(layers, act, p, [e]) == ExampleGradients(layers, act, p, e)
  {
    var g := ExampleGradients(layers, act, p, e);
    assert [e][..0] == [];
    var zeros := AccumulateWindowFresh(layers, act, p, []);
    var sums := AddGradients(layers, zeros, g);
    assert AccumulateWindowFresh(layers, act, p, [e]) == sums;
    forall j | 0 <= j < |layers| - 1
      ensures sums.weights[j] == g.weights[j] && sums.biases[j] == g.biases[j]
    {
      SumZerosLeft(g.weights[j]);
      SumZerosLeft(g.biases[j]);
    }
    assert sums.weights == g.weights && sums.biases == g.biases;
  }

  /** With fresh recordings, a window of one example is exactly one online step on it. */
  lemma SingleWindowIsOnlineStep(layers: seq<nat>, act: Activation, rate: real, p: Params, e: Example)
    requires Shaped(layers, p) && |layers| >= 2 && FitsExample(layers, e)
    ensures WindowStepFresh(layers, act, rate, p, [e]) == OnlineStep(layers, act, rate, p, e)
  {
    SingleWindowSums(layers, act, p, e);
    assert |[e]| as real == 1.0;
  }
}
