/**
  The optimisers of Minimization.hpp as loops over their own variables,
  each proved to compute the run that `Iterations.Optimize` defines, and
  the `minimize` switch over the algorithm code.

  Each call `data.Alpha(k, x)` is a call of `StepSize`, which runs
  `armijo` with `fuel` halvings under the Armijo rule; when that loop
  would never return, the optimiser returns `LineSearchHangs(k)` instead.
  Each call `data.Grad(x)` is a call of `Gradient`.
*/
module Minimization {
  import opened Wrappers
  import opened Utilities
  import opened Parameters
  import opened Iterations

  // ---------------------------------------------------------------
  // The vector expressions of the loop bodies
  // ---------------------------------------------------------------

  /** The expression x - a·g. */
  method DescentStep(a: real, x: Vec, g: Vec) returns (nextX: Vec)
    requires |g| == |x|
    ensures nextX == Minus(x, Times(a, g))
  {
    var step := Scale(a, g);
    var moved := Subtract(x, step);
    nextX := moved.value;
  }

  /** The expression x + eta·(x - x_prev). */
  method Extrapolate(eta: real, x: Vec, xPrev: Vec) returns (y: Vec)
    requires |xPrev| == |x|
    ensures y == Plus(x, Times(eta, Minus(x, xPrev)))
  {
    var momentum := Subtract(x, xPrev);
    var scaled := Scale(eta, momentum.value);
    var ahead := Add(x, scaled);
    y := ahead.value;
  }

  /** The expression norm2(x - x_prev). */
  method Distance(lib: MathLib, x: Vec, xPrev: Vec) returns (r: real)
    requires |xPrev| == |x|
    ensures r == Norm2(lib, Minus(x, xPrev))
  {
    var difference := Subtract(x, xPrev);
    r := Norm2(lib, difference.value);
  }

  // ---------------------------------------------------------------
  // Gradient descent
  // ---------------------------------------------------------------

  /** `GradientDescent`: k, a, x, x_prev and gradient as in the source. */
  method GradientDescent(lib: MathLib, d: Data, fuel: nat) returns (r: Run)
    requires Admissible(lib, d, GD)
    ensures r == Optimize(lib, d, GD)
  {
    var k: nat := 0;
    var a := d.a0;
    var x := d.x0;
    var xPrev := Zeros(|d.x0|);
    var gradient := Gradient(d, d.x0);
    var converged := Norm2(lib, gradient) < d.eR;
    ghost var run := Optimize(lib, d, GD);
    while !converged
      invariant Shaped(d, GD, State(k, a, x, xPrev, gradient, [], []))
      invariant !converged ==> k <= d.maxIt
      invariant !converged ==> RunFrom(lib, d, GD, State(k, a, x, xPrev, gradient, [], [])) == run
      invariant converged ==> Stopped(State(k, a, x, xPrev, gradient, [], [])) == run
      decreases d.maxIt + 1 - k
    {
      var hangs;
      k, a, x, xPrev, gradient, hangs, converged := GradientDescentPass(lib, d, fuel, k, a, x, xPrev, gradient);
      if hangs {
        return LineSearchHangs(k);
      }
    }
    return Stopped(State(k, a, x, xPrev, gradient, [], []));
  }

  /** The body of the `while` loop of `GradientDescent`: steps against the
      stored gradient.  `hangs` is a call of `Alpha` that never returns. */
  method GradientDescentPass(lib: MathLib, d: Data, fuel: nat, k0: nat, a0: real, x0: Vec, xPrev0: Vec, gradient0: Vec)
    returns (k: nat, a: real, x: Vec, xPrev: Vec, gradient: Vec, hangs: bool, converged: bool)
    requires Admissible(lib, d, GD) && Shaped(d, GD, State(k0, a0, x0, xPrev0, gradient0, [], []))
    ensures k == k0 + 1
    ensures hangs ==> RunFrom(lib, d, GD, State(k0, a0, x0, xPrev0, gradient0, [], [])) == LineSearchHangs(k)
    ensures !hangs ==> Shaped(d, GD, State(k, a, x, xPrev, gradient, [], []))
    ensures !hangs ==>
      RunFrom(lib, d, GD, State(k0, a0, x0, xPrev0, gradient0, [], [])) ==
      if converged then Stopped(State(k, a, x, xPrev, gradient, [], []))
      else RunFrom(lib, d, GD, State(k, a, x, xPrev, gradient, [], []))
    ensures !hangs && !converged ==> k <= d.maxIt
  {
    k, a, x, xPrev, gradient := k0, a0, x0, xPrev0, gradient0;
    k := k + 1;
    xPrev := x;
    x := DescentStep(a, x, gradient);
    var alpha := StepSize(lib, d, k, x, fuel);
    if alpha.None? {
      DescentHangs(lib, d, GD, k0, a0, x0, xPrev0, gradient0, x);
      return k, a, x, xPrev, gradient, true, false;
    }
    a := alpha.value;
    gradient := Gradient(d, x);
    var g := Gradient(d, x);
    var distance := Distance(lib, x, xPrev);
    converged := Norm2(lib, g) < d.eR || distance < d.eS || k > d.maxIt;
    hangs := false;
    DescentPassOfRun(lib, d, GD, k0, a0, x0, xPrev0, gradient0, x, a, gradient);
  }

  // ---------------------------------------------------------------
  // Heavy ball
  // ---------------------------------------------------------------

  /** `HeavyBall`: starts at x0 - a0·Grad(x0) with k = 1. */
  method HeavyBall(lib: MathLib, d: Data, fuel: nat) returns (r: Run)
    requires Admissible(lib, d, HB)
    ensures r == Optimize(lib, d, HB)
  {
    var k: nat := 1;
    var a := d.a0;
    var g0 := Gradient(d, d.x0);
    var x := DescentStep(a, d.x0, g0);
    var xPrev := d.x0;
    var gradient := Gradient(d, x);
    var converged := Norm2(lib, gradient) < d.eR;
    ghost var run := Optimize(lib, d, HB);
    while !converged
      invariant Shaped(d, HB, State(k, a, x, xPrev, gradient, [], []))
      invariant !converged ==> k <= d.maxIt + 1
      invariant !converged ==> RunFrom(lib, d, HB, State(k, a, x, xPrev, gradient, [], [])) == run
      invariant converged ==> Stopped(State(k, a, x, xPrev, gradient, [], [])) == run
      decreases d.maxIt + 1 - k
    {
      var hangs;
      k, a, x, xPrev, gradient, hangs, converged := HeavyBallPass(lib, d, fuel, k, a, x, xPrev, gradient);
      if hangs {
        return LineSearchHangs(k);
      }
    }
    return Stopped(State(k, a, x, xPrev, gradient, [], []));
  }

  /** The body of the `while` loop of `HeavyBall`: adds the momentum
      eta·(x - x_prev), taken after x_prev has been set to x, to the step. */
  method HeavyBallPass(lib: MathLib, d: Data, fuel: nat, k0: nat, a0: real, x0: Vec, xPrev0: Vec, gradient0: Vec)
    returns (k: nat, a: real, x: Vec, xPrev: Vec, gradient: Vec, hangs: bool, converged: bool)
    requires Admissible(lib, d, HB) && Shaped(d, HB, State(k0, a0, x0, xPrev0, gradient0, [], []))
    ensures k == k0 + 1
    ensures hangs ==> RunFrom(lib, d, HB, State(k0, a0, x0, xPrev0, gradient0, [], [])) == LineSearchHangs(k)
    ensures !hangs ==> Shaped(d, HB, State(k, a, x, xPrev, gradient, [], []))
    ensures !hangs ==>
      RunFrom(lib, d, HB, State(k0, a0, x0, xPrev0, gradient0, [], [])) ==
      if converged then Stopped(State(k, a, x, xPrev, gradient, [], []))
      else RunFrom(lib, d, HB, State(k, a, x, xPrev, gradient, [], []))
    ensures !hangs && !converged ==> k <= d.maxIt
  {
    k, a, x, xPrev, gradient := k0, a0, x0, xPrev0, gradient0;
    k := k + 1;
    xPrev := x;
    var ahead := Extrapolate(d.eta, x, xPrev);
    x := DescentStep(a, ahead, gradient);
    var alpha := StepSize(lib, d, k, x, fuel);
    if alpha.None? {
      DescentHangs(lib, d, HB, k0, a0, x0, xPrev0, gradient0, x);
      return k, a, x, xPrev, gradient, true, false;
    }
    a := alpha.value;
    gradient := Gradient(d, x);
    var g := Gradient(d, x);
    var distance := Distance(lib, x, xPrev);
    converged := Norm2(lib, g) < d.eR || distance < d.eS || k > d.maxIt;
    hangs := false;
    DescentPassOfRun(lib, d, HB, k0, a0, x0, xPrev0, gradient0, x, a, gradient);
  }

  // ---------------------------------------------------------------
  // Nesterov
  // ---------------------------------------------------------------

  /** `Nesterov`: starts as `HeavyBall` does. */
  method Nesterov(lib: MathLib, d: Data, fuel: nat) returns (r: Run)
    requires Admissible(lib, d, NESTEROV)
    ensures r == Optimize(lib, d, NESTEROV)
  {
    var k: nat := 1;
    var a := d.a0;
    var g0 := Gradient(d, d.x0);
    var x := DescentStep(a, d.x0, g0);
    var xPrev := d.x0;
    var gradient := Gradient(d, x);
    var converged := Norm2(lib, gradient) < d.eR;
    ghost var run := Optimize(lib, d, NESTEROV);
    while !converged
      invariant Shaped(d, NESTEROV, State(k, a, x, xPrev, gradient, [], []))
      invariant !converged ==> k <= d.maxIt + 1
      invariant !converged ==> RunFrom(lib, d, NESTEROV, State(k, a, x, xPrev, gradient, [], [])) == run
      invariant converged ==> Stopped(State(k, a, x, xPrev, gradient, [], [])) == run
      decreases d.maxIt + 1 - k
    {
      var hangs;
      k, a, x, xPrev, gradient, hangs, converged := NesterovPass(lib, d, fuel, k, a, x, xPrev, gradient);
      if hangs {
        return LineSearchHangs(k);
      }
    }
    return Stopped(State(k, a, x, xPrev, gradient, [], []));
  }

  /** The body of the `while` loop of `Nesterov`: steps from the
      extrapolated point y = x + eta·(x - x_prev) against the gradient
      at y. */
  method NesterovPass(lib: MathLib, d: Data, fuel: nat, k0: nat, a0: real, x0: Vec, xPrev0: Vec, gradient0: Vec)
    returns (k: nat, a: real, x: Vec, xPrev: Vec, gradient: Vec, hangs: bool, converged: bool)
    requires Admissible(lib, d, NESTEROV) && Shaped(d, NESTEROV, State(k0, a0, x0, xPrev0, gradient0, [], []))
    ensures k == k0 + 1
    ensures hangs ==> RunFrom(lib, d, NESTEROV, State(k0, a0, x0, xPrev0, gradient0, [], [])) == LineSearchHangs(k)
    ensures !hangs ==> Shaped(d, NESTEROV, State(k, a, x, xPrev, gradient, [], []))
    ensures !hangs ==>
      RunFrom(lib, d, NESTEROV, State(k0, a0, x0, xPrev0, gradient0, [], [])) ==
      if converged then Stopped(State(k, a, x, xPrev, gradient, [], []))
      else RunFrom(lib, d, NESTEROV, State(k, a, x, xPrev, gradient, [], []))
    ensures !hangs && !converged ==> k <= d.maxIt
  {
    k, a, x, xPrev, gradient := k0, a0, x0, xPrev0, gradient0;
    k := k + 1;
    xPrev := x;
    var y := Extrapolate(d.eta, x, xPrev);
    var gy := Gradient(d, y);
    x := DescentStep(a, y, gy);
    var alpha := StepSize(lib, d, k, x, fuel);
    if alpha.None? {
      DescentHangs(lib, d, NESTEROV, k0, a0, x0, xPrev0, gradient0, x);
      return k, a, x, xPrev, gradient, true, false;
    }
    a := alpha.value;
    gradient := Gradient(d, x);
    var g := Gradient(d, x);
    var distance := Distance(lib, x, xPrev);
    converged := Norm2(lib, g) < d.eR || distance < d.eS || k > d.maxIt;
    hangs := false;
    DescentPassOfRun(lib, d, NESTEROV, k0, a0, x0, xPrev0, gradient0, x, a, gradient);
  }

  // ---------------------------------------------------------------
  // ADAM
  // ---------------------------------------------------------------

  /** `Adam`: k, a, x, x_prev, m, v and gradient as in the source. */
  method Adam(lib: MathLib, d: Data, fuel: nat) returns (r: Run)
    requires Admissible(lib, d, ADAM)
    ensures r == Optimize(lib, d, ADAM)
  {
    var k: nat := 0;
    var a := d.a0;
    var x := d.x0;
    var xPrev := Zeros(|d.x0|);
    var m := Zeros(|d.x0|);
    var v := Zeros(|d.x0|);
    var gradient := Gradient(d, d.x0);
    var converged := Norm2(lib, gradient) < d.eR;
    ghost var run := Optimize(lib, d, ADAM);
    while !converged
      invariant Shaped(d, ADAM, State(k, a, x, xPrev, gradient, m, v))
      invariant !converged ==> k <= d.maxIt
      invariant !converged ==> RunFrom(lib, d, ADAM, State(k, a, x, xPrev, gradient, m, v)) == run
      invariant converged ==> Stopped(State(k, a, x, xPrev, gradient, m, v)) == run
      decreases d.maxIt + 1 - k
    {
      var hangs;
      k, a, x, xPrev, gradient, m, v, hangs, converged := AdamPass(lib, d, fuel, k, a, x, xPrev, gradient, m, v);
      if hangs {
        return LineSearchHangs(k);
      }
    }
    return Stopped(State(k, a, x, xPrev, gradient, m, v));
  }

  /** The body of the `while` loop of `Adam`: the inner loop, then the
      learning rate, the gradient and the stop test, which repeats
      `k > max_it`. */
  method AdamPass(lib: MathLib, d: Data, fuel: nat, k0: nat, a0: real, x0: Vec, xPrev0: Vec, gradient0: Vec, m0: Vec, v0: Vec)
    returns (k: nat, a: real, x: Vec, xPrev: Vec, gradient: Vec, m: Vec, v: Vec, hangs: bool, converged: bool)
    requires Admissible(lib, d, ADAM) && Shaped(d, ADAM, State(k0, a0, x0, xPrev0, gradient0, m0, v0))
    ensures k == k0 + 1
    ensures hangs ==> RunFrom(lib, d, ADAM, State(k0, a0, x0, xPrev0, gradient0, m0, v0)) == LineSearchHangs(k)
    ensures !hangs ==> Shaped(d, ADAM, State(k, a, x, xPrev, gradient, m, v))
    ensures !hangs ==>
      RunFrom(lib, d, ADAM, State(k0, a0, x0, xPrev0, gradient0, m0, v0)) ==
      if converged then Stopped(State(k, a, x, xPrev, gradient, m, v))
      else RunFrom(lib, d, ADAM, State(k, a, x, xPrev, gradient, m, v))
    ensures !hangs && !converged ==> k <= d.maxIt
  {
    k, a, x, xPrev, gradient, m, v := k0, a0, x0, xPrev0, gradient0, m0, v0;
    k := k + 1;
    xPrev := x;
    x, m, v := AdamCoordinatesInPlace(lib, d, k, a, x, m, v, gradient);
    var alpha := StepSize(lib, d, k, x, fuel);
    if alpha.None? {
      AdamHangs(lib, d, k0, a0, x0, xPrev0, gradient0, m0, v0, x, m, v);
      return k, a, x, xPrev, gradient, m, v, true, false;
    }
    a := alpha.value;
    gradient := Gradient(d, x);
    var g := Gradient(d, x);
    var distance := Distance(lib, x, xPrev);
    converged := k > d.maxIt || Norm2(lib, g) < d.eR || distance < d.eS || k > d.maxIt;
    hangs := false;
    AdamPassOfRun(lib, d, k0, a0, x0, xPrev0, gradient0, m0, v0, x, m, v, a, gradient);
  }

  /** ADAM's inner `for` loop: updates m[i], v[i] and x[i] in place, one
      coordinate per pass, as `AdamCoordinate` says. */
  method AdamCoordinatesInPlace(lib: MathLib, d: Data, k: nat, a: real, x0: Vec, m0: Vec, v0: Vec, gradient: Vec)
    returns (x: Vec, m: Vec, v: Vec)
    requires AdamParameters(lib, d) && 1 <= k
    requires |m0| == |x0| && |v0| == |x0| && |gradient| == |x0|
    requires forall j :: 0 <= j < |v0| ==> 0.0 <= v0[j]
    ensures |x| == |x0| && |m| == |x0| && |v| == |x0|
    ensures forall j :: 0 <= j < |x0| ==>
      Coordinate(x[j], m[j], v[j]) == AdamCoordinate(lib, d, k, a, x0[j], m0[j], v0[j], gradient[j])
  {
    x, m, v := x0, m0, v0;
    for i := 0 to |x0|
      invariant |x| == |x0| && |m| == |x0| && |v| == |x0|
      invariant forall j :: 0 <= j < i ==>
        Coordinate(x[j], m[j], v[j]) == AdamCoordinate(lib, d, k, a, x0[j], m0[j], v0[j], gradient[j])
      invariant forall j :: i <= j < |x0| ==> x[j] == x0[j] && m[j] == m0[j] && v[j] == v0[j]
    {
      m := m[i := Average(d.gamma1, m[i], gradient[i])];
      AverageNonNegative(d.gamma2, v[i], Square(gradient[i]));
      v := v[i := Average(d.gamma2, v[i], Square(gradient[i]))];
      var mHat := Unbiased(d.gamma1, m[i], k);
      var vHat := Unbiased(d.gamma2, v[i], k);
      x := x[i := x[i] - a * mHat / (lib.sqrt(vHat) + d.eps)];
    }
  }

  /** What `minimize` returns for an unknown algorithm code: a vector of
      n quiet NaNs, n the dimension of x0. */
  datatype Unknown = NotANumber(n: nat)

  /** `minimize`: the switch from algorithm code to optimiser. */
  method Minimize(lib: MathLib, d: Data, fuel: nat) returns (r: Result<Run, Unknown>)
    requires OptimizerOfCode(d.algorithm).Some? ==> Admissible(lib, d, OptimizerOfCode(d.algorithm).value)
    ensures r.Failure? <==> !(0 <= d.algorithm < 4)
    ensures r.Failure? ==> r.error == NotANumber(|d.x0|)
    ensures r.Success? ==> r.value == Optimize(lib, d, OptimizerOfCode(d.algorithm).value)
  {
    match d.algorithm
    case 0 =>
      var run := GradientDescent(lib, d, fuel);
      r := Success(run);
    case 1 =>
      var run := HeavyBall(lib, d, fuel);
      r := Success(run);
    case 2 =>
      var run := Nesterov(lib, d, fuel);
      r := Success(run);
    case 3 =>
      var run := Adam(lib, d, fuel);
      r := Success(run);
    case _ =>
      r := Failure(NotANumber(|d.x0|));
  }
}
