/** The low-pass filter every sampling module applies to its wheel speeds:
    `moving_avg_filter`, an exponential moving average (EMA) with smoothing
    constant alpha. The three sampling variants carry identical copies of it;
    it is defined once here. Floating point is modelled by `real`. */
module Filter {

  /** `moving_avg_filter(y_prev, y) = alpha*y_prev + (1-alpha)*y`. The new output
      deviates from the new sample by alpha times the old deviation. */
  function MovingAvg(alpha: real, yPrev: real, y: real): (r: real)
    requires 0.0 <= alpha <= 1.0
    ensures r - y == alpha * (yPrev - y)
  {
    assert alpha * (yPrev - y) == alpha * yPrev - alpha * y;
    alpha * yPrev + (1.0 - alpha) * y
  }

  /** The new output lies between the previous output and the new sample. */
  lemma MovingAvgBetween(alpha: real, yPrev: real, y: real)
    requires 0.0 <= alpha <= 1.0
    ensures yPrev <= y ==> yPrev <= MovingAvg(alpha, yPrev, y) <= y
    ensures y <= yPrev ==> y <= MovingAvg(alpha, yPrev, y) <= yPrev
  {
    ShrunkStepBetween(alpha, yPrev, y, MovingAvg(alpha, yPrev, y));
  }

  /** Whatever deviates from `y` by alpha times `yPrev - y` lies between the two. */
  lemma ShrunkStepBetween(alpha: real, yPrev: real, y: real, r: real)
    requires 0.0 <= alpha <= 1.0
    requires r - y == alpha * (yPrev - y)
    ensures yPrev <= y ==> yPrev <= r <= y
    ensures y <= yPrev ==> y <= r <= yPrev
  {
    var d := yPrev - y;
    assert r - y == alpha * d;
    if 0.0 <= d {
      MulMono(d, 0.0, alpha);
      MulMono(d, alpha, 1.0);
      assert 0.0 <= alpha * d <= d;
    } else {
      MulMono(-d, 0.0, alpha);
      MulMono(-d, alpha, 1.0);
      assert alpha * (-d) == -(alpha * d);
      assert d <= alpha * d <= 0.0;
    }
  }

  /** Multiplying by a non-negative factor preserves order. */
  lemma MulMono(p: real, a: real, b: real)
    requires p >= 0.0 && a <= b
    ensures a * p <= b * p
  {
    assert b * p - a * p == (b - a) * p;
  }

  /** alpha = 0: the filter passes the new sample through. */
  lemma AlphaZeroPassesSample(yPrev: real, y: real)
    ensures MovingAvg(0.0, yPrev, y) == y
  {
  }

  /** alpha = 1: the filter keeps its previous output. */
  lemma AlphaOneHoldsOutput(yPrev: real, y: real)
    ensures MovingAvg(1.0, yPrev, y) == yPrev
  {
  }

  /** A sample equal to the current output is a fixed point. */
  lemma ConstantIsFixedPoint(alpha: real, x: real)
    requires 0.0 <= alpha <= 1.0
    ensures MovingAvg(alpha, x, x) == x
  {
  }

  /** The filter output after feeding the samples `xs` in order, starting from `y`. */
  function Run(alpha: real, y: real, xs: seq<real>): real
    requires 0.0 <= alpha <= 1.0
    decreases |xs|
  {
    if xs == [] then y else Run(alpha, MovingAvg(alpha, y, xs[0]), xs[1..])
  }

  /** `n` copies of the sample `x`. */
  function Repeat(x: real, n: nat): (xs: seq<real>)
    ensures |xs| == n && forall i :: 0 <= i < n ==> xs[i] == x
  {
    seq(n, _ => x)
  }

  /** One more sample at the end moves the output once more: the filter is a fold over
      the samples in order. */
  lemma {:induction false} RunSnoc(alpha: real, y: real, xs: seq<real>, x: real)
    requires 0.0 <= alpha <= 1.0
    ensures Run(alpha, y, xs + [x]) == MovingAvg(alpha, Run(alpha, y, xs), x)
    decreases |xs|
  {
    if xs != [] {
      assert (xs + [x])[0] == xs[0] && (xs + [x])[1..] == xs[1..] + [x];
      RunSnoc(alpha, MovingAvg(alpha, y, xs[0]), xs[1..], x);
    } else {
      assert ([] + [x])[1..] == [];
    }
  }

  function Pow(a: real, n: nat): real
  {
    if n == 0 then 1.0 else a * Pow(a, n - 1)
  }

  /** With alpha = 1 the output never moves from its initial value, whatever the samples. */
  lemma {:induction false} AlphaOneNeverChanges(y: real, xs: seq<real>)
    ensures Run(1.0, y, xs) == y
    decreases |xs|
  {
    if xs != [] {
      AlphaOneNeverChanges(MovingAvg(1.0, y, xs[0]), xs[1..]);
    }
  }

  /** With alpha = 0 the output after a tick is that tick's sample. */
  lemma {:induction false} AlphaZeroTracksLatest(y: real, xs: seq<real>)
    requires xs != []
    ensures Run(0.0, y, xs) == xs[|xs| - 1]
    decreases |xs|
  {
    if |xs| > 1 {
      AlphaZeroTracksLatest(MovingAvg(0.0, y, xs[0]), xs[1..]);
    }
  }

  /** Feeding n identical samples x shrinks the deviation from x by alpha^n. */
  lemma {:induction false} ConstantInputDeviation(alpha: real, y: real, xs: seq<real>, x: real)
    requires 0.0 <= alpha <= 1.0
    requires forall i :: 0 <= i < |xs| ==> xs[i] == x
    ensures Run(alpha, y, xs) - x == Pow(alpha, |xs|) * (y - x)
    decreases |xs|
  {
    if xs != [] {
      var y1 := MovingAvg(alpha, y, xs[0]);
      ConstantInputDeviation(alpha, y1, xs[1..], x);
      calc {
        Run(alpha, y, xs) - x;
        Run(alpha, y1, xs[1..]) - x;
        Pow(alpha, |xs| - 1) * (y1 - x);
        Pow(alpha, |xs| - 1) * (alpha * (y - x));
        Pow(alpha, |xs|) * (y - x);
      }
    }
  }

  lemma {:induction false} PowBetweenZeroAndOne(alpha: real, n: nat)
    requires 0.0 <= alpha <= 1.0
    ensures 0.0 <= Pow(alpha, n) <= 1.0
  {
    if n > 0 {
      var p := Pow(alpha, n - 1);
      PowBetweenZeroAndOne(alpha, n - 1);
      assert Pow(alpha, n) == alpha * p;
      MulMono(p, alpha, 1.0);
      MulMono(p, 0.0, alpha);
      assert 0.0 <= alpha * p <= p;
    }
  }

  /** Bernoulli's bound: alpha^n * (1 + n*(1 - alpha)) <= 1. */
  lemma {:induction false} PowBernoulli(alpha: real, n: nat)
    requires 0.0 <= alpha <= 1.0
    ensures Pow(alpha, n) * Bound(alpha, n) <= 1.0
  {
    if n > 0 {
      var d := 1.0 - alpha;
      var m := (n - 1) as real;
      var p := Pow(alpha, n - 1);
      PowBernoulli(alpha, n - 1);
      assert p * (1.0 + m * d) <= 1.0;
      PowBetweenZeroAndOne(alpha, n - 1);
      var x := (1.0 - d) * (1.0 + m * d + d);
      assert x == 1.0 + m * d - m * d * d - d * d;
      assert m * d * d >= 0.0 && d * d >= 0.0 by {
        MulMono(d, 0.0, m * d);
        MulMono(d, 0.0, d);
      }
      MulMono(p, x, 1.0 + m * d);
      assert (n as real) == m + 1.0;
      assert Pow(alpha, n) * Bound(alpha, n) == x * p;
    }
  }

  /** Repeated identical samples converge: after n samples equal to x the output is
      within |y - x| / (1 + n*(1 - alpha)) of x: for alpha < 1 the deviation tends to 0. */
  lemma ConstantInputConverges(alpha: real, y: real, xs: seq<real>, x: real)
    requires 0.0 <= alpha <= 1.0
    requires forall i :: 0 <= i < |xs| ==> xs[i] == x
    ensures Abs(Run(alpha, y, xs) - x) * Bound(alpha, |xs|) <= Abs(y - x)
  {
    ConstantInputDeviation(alpha, y, xs, x);
    DeviationBound(alpha, |xs|, Run(alpha, y, xs), y, x);
  }

  /** A deviation scaled by alpha^n is at most the original one divided by
      1 + n*(1 - alpha). */
  lemma DeviationBound(alpha: real, n: nat, r: real, y: real, x: real)
    requires 0.0 <= alpha <= 1.0
    requires r - x == Pow(alpha, n) * (y - x)
    ensures Abs(r - x) * Bound(alpha, n) <= Abs(y - x)
  {
    PowBernoulli(alpha, n);
    PowBetweenZeroAndOne(alpha, n);
    ShrunkDeviation(r - x, Pow(alpha, n), y - x, Bound(alpha, n));
  }

  /** The factor 1 + n*(1 - alpha) by which n identical samples at least divide the
      deviation. */
  function Bound(alpha: real, n: nat): real
  {
    1.0 + (n as real) * (1.0 - alpha)
  }

  lemma ShrunkDeviation(e: real, p: real, v: real, k: real)
    requires e == p * v && 0.0 <= p && p * k <= 1.0
    ensures Abs(e) * k <= Abs(v)
  {
    AbsScale(p, v);
    MulMono(Abs(v), p * k, 1.0);
    calc {
      Abs(e) * k;
      (p * Abs(v)) * k;
      (p * k) * Abs(v);
    <= 1.0 * Abs(v);
    }
  }

  function Abs(v: real): (r: real)
    ensures r >= 0.0 && (r == v || r == -v)
  {
    if v >= 0.0 then v else -v
  }

  lemma AbsScale(p: real, v: real)
    requires p >= 0.0
    ensures Abs(p * v) == p * Abs(v)
  {
    if v < 0.0 {
      MulMono(p, v, 0.0);
    } else {
      MulMono(p, 0.0, v);
    }
  }
}
