/**
 * The random projection: the weight matrix and bias vector drawn from one
 * seeded stream, and the affine sum a random feature takes the cosine of.
 */
module Projection {

  /** A seeded random stream: draw k is the k-th value nextDouble() returns. */
  type Draws = nat -> real

  /** nextDouble() draws lie in [0, 1). */
  ghost predicate UnitDraws(u: Draws) {
    forall k: nat :: 0.0 <= u(k) < 1.0
  }

  /** The cosine the features use, known only to range over [-1, 1]. */
  ghost predicate CosineRange(cos: real -> real) {
    forall t :: -1.0 <= cos(t) <= 1.0
  }

  /** The parameter drawn at position k of the stream: nextDouble() * 2 - 1. */
  function Uniform(u: Draws, k: nat): real {
    u(k) * 2.0 - 1.0
  }

  /** A weight matrix (one row per component) and a bias per component. */
  datatype Params = Params(weights: seq<seq<real>>, biases: seq<real>)

  /** numComponents rows of numAttribs weights, and numComponents biases. */
  predicate Shaped(p: Params, numComponents: nat, numAttribs: nat) {
    && |p.weights| == numComponents
    && |p.biases| == numComponents
    && forall i :: 0 <= i < numComponents ==> |p.weights[i]| == numAttribs
  }

  /** The n weights of one component, drawn one after another from position k. */
  function DrawRow(u: Draws, k: nat, n: nat): (row: seq<real>)
    ensures |row| == n
    decreases n
  {
    if n == 0 then [] else [Uniform(u, k)] + DrawRow(u, k + 1, n - 1)
  }

  /**
   * The parameters of `count` components with the stream positioned at k:
   * each component takes its numAttribs weights and then its bias before
   * the next component draws anything.
   */
  function DrawComponents(u: Draws, k: nat, count: nat, numAttribs: nat): (p: Params)
    ensures Shaped(p, count, numAttribs)
    decreases count
  {
    if count == 0 then Params([], [])
    else
      var rest := DrawComponents(u, k + numAttribs + 1, count - 1, numAttribs);
      Params([DrawRow(u, k, numAttribs)] + rest.weights, [Uniform(u, k + numAttribs)] + rest.biases)
  }

  /** The parameters drawn from a fresh stream. */
  function Generate(u: Draws, numComponents: nat, numAttribs: nat): Params {
    DrawComponents(u, 0, numComponents, numAttribs)
  }

  lemma {:induction false} DrawRowAt(u: Draws, k: nat, n: nat, j: nat)
    requires j < n
    ensures DrawRow(u, k, n)[j] == Uniform(u, k + j)
    decreases n
  {
    if j > 0 {
      DrawRowAt(u, k + 1, n - 1, j - 1);
    }
  }

  lemma {:induction false} DrawComponentsAt(u: Draws, k: nat, count: nat, numAttribs: nat, i: nat)
    requires i < count
    ensures DrawComponents(u, k, count, numAttribs).biases[i] == Uniform(u, k + i * (numAttribs + 1) + numAttribs)
    ensures forall j :: 0 <= j < numAttribs ==>
      DrawComponents(u, k, count, numAttribs).weights[i][j] == Uniform(u, k + i * (numAttribs + 1) + j)
    decreases count
  {
    var p := DrawComponents(u, k, count, numAttribs);
    if i == 0 {
      forall j | 0 <= j < numAttribs
        ensures p.weights[0][j] == Uniform(u, k + j)
      {
        DrawRowAt(u, k, numAttribs, j);
      }
    } else {
      DrawComponentsAt(u, k + numAttribs + 1, count - 1, numAttribs, i - 1);
      assert (k + numAttribs + 1) + (i - 1) * (numAttribs + 1) == k + i * (numAttribs + 1);
    }
  }

  /**
   * Row-major layout with the bias last in each row: weight[i][j] is draw
   * i*(numAttribs+1)+j and bias[i] is draw i*(numAttribs+1)+numAttribs.
   */
  lemma GenerateLayout(u: Draws, numComponents: nat, numAttribs: nat)
    ensures Shaped(Generate(u, numComponents, numAttribs), numComponents, numAttribs)
    ensures forall i, j :: 0 <= i < numComponents && 0 <= j < numAttribs ==>
      Generate(u, numComponents, numAttribs).weights[i][j] == Uniform(u, i * (numAttribs + 1) + j)
    ensures forall i :: 0 <= i < numComponents ==>
      Generate(u, numComponents, numAttribs).biases[i] == Uniform(u, i * (numAttribs + 1) + numAttribs)
  {
    forall i | 0 <= i < numComponents
      ensures Generate(u, numComponents, numAttribs).biases[i] == Uniform(u, i * (numAttribs + 1) + numAttribs)
      ensures forall j :: 0 <= j < numAttribs ==>
        Generate(u, numComponents, numAttribs).weights[i][j] == Uniform(u, i * (numAttribs + 1) + j)
    {
      DrawComponentsAt(u, 0, numComponents, numAttribs, i);
    }
  }

  /** Given draws in [0, 1), every weight and every bias lies in [-1, 1). */
  lemma GenerateInRange(u: Draws, numComponents: nat, numAttribs: nat)
    requires UnitDraws(u)
    ensures forall i, j :: 0 <= i < numComponents && 0 <= j < numAttribs ==>
      -1.0 <= Generate(u, numComponents, numAttribs).weights[i][j] < 1.0
    ensures forall i :: 0 <= i < numComponents ==>
      -1.0 <= Generate(u, numComponents, numAttribs).biases[i] < 1.0
  {
    var p := Generate(u, numComponents, numAttribs);
    GenerateLayout(u, numComponents, numAttribs);
    forall i, j | 0 <= i < numComponents && 0 <= j < numAttribs
      ensures -1.0 <= p.weights[i][j] < 1.0
    {
      assert 0.0 <= u(i * (numAttribs + 1) + j) < 1.0;
    }
    forall i | 0 <= i < numComponents
      ensures -1.0 <= p.biases[i] < 1.0
    {
      assert 0.0 <= u(i * (numAttribs + 1) + numAttribs) < 1.0;
    }
  }

  /** Every draw the layout uses lies below numComponents * (numAttribs + 1). */
  lemma DrawBelowTotal(i: nat, j: nat, numComponents: nat, numAttribs: nat)
    requires i < numComponents && j <= numAttribs
    ensures i * (numAttribs + 1) + j < numComponents * (numAttribs + 1)
  {
    calc {
      i * (numAttribs + 1) + j;
    <
      i * (numAttribs + 1) + (numAttribs + 1);
    ==
      (i + 1) * (numAttribs + 1);
    <=
      numComponents * (numAttribs + 1);
    }
  }

  /**
   * Reproducibility: the parameters depend only on the first
   * numComponents * (numAttribs + 1) draws, so two streams that agree there
   * (in particular two streams from the same seed) give identical parameters.
   */
  lemma GenerateDependsOnPrefix(u: Draws, v: Draws, numComponents: nat, numAttribs: nat)
    requires forall k: nat :: k < numComponents * (numAttribs + 1) ==> u(k) == v(k)
    ensures Generate(u, numComponents, numAttribs) == Generate(v, numComponents, numAttribs)
  {
    var p := Generate(u, numComponents, numAttribs);
    var q := Generate(v, numComponents, numAttribs);
    GenerateLayout(u, numComponents, numAttribs);
    GenerateLayout(v, numComponents, numAttribs);
    forall i | 0 <= i < numComponents
      ensures p.weights[i] == q.weights[i] && p.biases[i] == q.biases[i]
    {
      forall j | 0 <= j < numAttribs
        ensures p.weights[i][j] == q.weights[i][j]
      {
        DrawBelowTotal(i, j, numComponents, numAttribs);
      }
      DrawBelowTotal(i, numAttribs, numComponents, numAttribs);
    }
  }

  /** Σ_{i<|w|} w[i]·x[i], defined from the front: the mathematical dot product. */
  function Dot(w: seq<real>, x: seq<real>): real
    requires |w| == |x|
    decreases |w|
  {
    if |w| == 0 then 0.0 else w[0] * x[0] + Dot(w[1..], x[1..])
  }

  /**
   * The running sum of the conversion loop: start from the bias and add
   * w[i]·x[i] for i = 0, 1, …, n-1 in turn.
   */
  function Accumulate(bias: real, w: seq<real>, x: seq<real>, n: nat): real
    requires n <= |w| && n <= |x|
    decreases n
  {
    if n == 0 then bias else Accumulate(bias, w, x, n - 1) + w[n - 1] * x[n - 1]
  }

  lemma {:induction false} DotSnoc(w: seq<real>, x: seq<real>, a: real, b: real)
    requires |w| == |x|
    ensures Dot(w + [a], x + [b]) == Dot(w, x) + a * b
    decreases |w|
  {
    if |w| > 0 {
      assert (w + [a])[1..] == w[1..] + [a];
      assert (x + [b])[1..] == x[1..] + [b];
      DotSnoc(w[1..], x[1..], a, b);
    }
  }

  /** The ascending running sum is the bias plus the dot product of the first n entries. */
  lemma {:induction false} AccumulateIsDot(bias: real, w: seq<real>, x: seq<real>, n: nat)
    requires n <= |w| && n <= |x|
    ensures Accumulate(bias, w, x, n) == bias + Dot(w[..n], x[..n])
    decreases n
  {
    if n > 0 {
      AccumulateIsDot(bias, w, x, n - 1);
      assert w[..n] == w[..n - 1] + [w[n - 1]];
      assert x[..n] == x[..n - 1] + [x[n - 1]];
      DotSnoc(w[..n - 1], x[..n - 1], w[n - 1], x[n - 1]);
    }
  }
}
