/**
  What the four loops of Minimization.hpp compute, as functions: the
  state each optimiser starts from, one pass of each loop body, the stop
  test, and the whole run.  The methods of the `Minimization` module are
  proved equal to `Optimize`; the lemmas here say what every run does.
*/
module Iterations {
  import opened Wrappers
  import opened Utilities
  import opened Parameters

  /** The loop variables after k passes.  `m` and `v` are ADAM's moment
      estimates; the other optimisers have none and leave them empty. */
  datatype State = State(k: nat, a: real, x: Vec, xPrev: Vec, gradient: Vec, m: Vec, v: Vec)

  /** How a call of an optimiser ends: `Stopped` in the state whose stop
      test held, or `LineSearchHangs` in pass k, whose `armijo` call never
      returns. */
  datatype Run = Stopped(last: State) | LineSearchHangs(k: nat)

  /** The counter before the first pass: HB and NESTEROV count their start
      point x0 - a0·Grad(x0) as iteration 1. */
  function FirstK(alg: Optimizer): nat
  {
    if alg == HB || alg == NESTEROV then 1 else 0
  }

  function Max(a: nat, b: nat): nat
  {
    if a < b then b else a
  }

  /** The largest counter a run can reach: max_it + 1, or 2 for HB and
      NESTEROV with max_it = 0, which count the step before the loop as
      iteration 1, so that a loop they enter ends its one pass at k = 2. */
  function Cap(d: Data, alg: Optimizer): nat
  {
    Max(d.maxIt, FirstK(alg)) + 1
  }

  /** What ADAM's update needs to be defined: a square root that is one,
      decay factors strictly between 0 and 1, and a positive epsilon. */
  ghost predicate AdamParameters(lib: MathLib, d: Data)
  {
    Sound(lib) && 0.0 < d.gamma1 < 1.0 && 0.0 < d.gamma2 < 1.0 && 0.0 < d.eps
  }

  ghost predicate Admissible(lib: MathLib, d: Data, alg: Optimizer)
  {
    WellDefined(d) && (alg == ADAM ==> AdamParameters(lib, d))
  }

  /** Every vector of the state has the problem's dimension, and ADAM's
      second moments are never negative. */
  predicate Shaped(d: Data, alg: Optimizer, s: State)
  {
    |s.x| == |d.x0| && |s.xPrev| == |d.x0| && |s.gradient| == |d.x0| &&
    (alg == ADAM ==> |s.m| == |d.x0| && |s.v| == |d.x0| && forall j :: 0 <= j < |s.v| ==> 0.0 <= s.v[j])
  }

  /** The variables as initialised before each loop. */
  function Start(d: Data, alg: Optimizer): (s: State)
    requires WellDefined(d)
    ensures Shaped(d, alg, s) && s.k == FirstK(alg) && s.a == d.a0
    ensures s.gradient == Grad(d, s.x)
  {
    var n := |d.x0|;
    match alg
    case GD => State(0, d.a0, d.x0, Zeros(n), Grad(d, d.x0), [], [])
    case HB =>
      var x1 := Minus(d.x0, Times(d.a0, Grad(d, d.x0)));
      State(1, d.a0, x1, d.x0, Grad(d, x1), [], [])
    case NESTEROV =>
      var x1 := Minus(d.x0, Times(d.a0, Grad(d, d.x0)));
      State(1, d.a0, x1, d.x0, Grad(d, x1), [], [])
    case ADAM => State(0, d.a0, d.x0, Zeros(n), Grad(d, d.x0), Zeros(n), Zeros(n))
  }

  // ---------------------------------------------------------------
  // ADAM's per-coordinate update
  // ---------------------------------------------------------------

  /** One step of an exponential moving average: gamma·m + (1 - gamma)·g. */
  function Average(gamma: real, m: real, g: real): real
  {
    gamma * m + (1.0 - gamma) * g
  }

  /** The new x[i], m[i] and v[i] of one pass of ADAM's inner loop. */
  datatype Coordinate = Coordinate(x: real, m: real, v: real)

  /** ADAM's update of coordinate i in pass k: both moments move towards
      the gradient component and its square, are divided by 1 - gamma^k to
      correct their bias towards 0, and x moves against the corrected
      first moment scaled by the root of the corrected second one. */
  function AdamCoordinate(lib: MathLib, d: Data, k: nat, a: real, x: real, m: real, v: real, g: real): (c: Coordinate)
    requires AdamParameters(lib, d) && 1 <= k && 0.0 <= v
    ensures c.m == Average(d.gamma1, m, g)
    ensures c.v == Average(d.gamma2, v, Square(g)) && 0.0 <= c.v
  {
    var m' := Average(d.gamma1, m, g);
    var v' := Average(d.gamma2, v, Square(g));
    AverageNonNegative(d.gamma2, v, Square(g));
    var mHat := Unbiased(d.gamma1, m', k);
    var vHat := Unbiased(d.gamma2, v', k);
    Coordinate(x - a * mHat / (lib.sqrt(vHat) + d.eps), m', v')
  }

  lemma AverageNonNegative(gamma: real, m: real, g: real)
    requires 0.0 < gamma < 1.0 && 0.0 <= m && 0.0 <= g
    ensures 0.0 <= Average(gamma, m, g)
  {
    NonNegativeProduct(gamma, m);
    NonNegativeProduct(1.0 - gamma, g);
  }

  /** The bias correction of a moment in pass k: m / (1 - gamma^k), with
      1 - gamma^k in (0, 1). */
  function Unbiased(gamma: real, m: real, k: nat): (r: real)
    requires 0.0 < gamma < 1.0 && 1 <= k
    ensures 0.0 <= m ==> 0.0 <= r
  {
    PowInUnitInterval(gamma, k);
    var q := 1.0 - Pow(gamma, k);
    QuotientNonNegative(m, q);
    m / q
  }

  lemma QuotientNonNegative(p: real, q: real)
    requires 0.0 < q
    ensures 0.0 <= p ==> 0.0 <= p / q
  {
    if 0.0 <= p {
      assert 0.0 <= p / q;
    }
  }

  /** The inner `for` loop of ADAM, as the sequence of updated coordinates. */
  function AdamCoordinates(lib: MathLib, d: Data, k: nat, a: real, x: Vec, m: Vec, v: Vec, g: Vec): (cs: seq<Coordinate>)
    requires AdamParameters(lib, d) && 1 <= k
    requires |m| == |x| && |v| == |x| && |g| == |x|
    requires forall j :: 0 <= j < |v| ==> 0.0 <= v[j]
    ensures |cs| == |x|
    ensures forall j :: 0 <= j < |x| ==> cs[j] == AdamCoordinate(lib, d, k, a, x[j], m[j], v[j], g[j])
  {
    seq(|x|, j requires 0 <= j < |x| => AdamCoordinate(lib, d, k, a, x[j], m[j], v[j], g[j]))
  }

  /** m after k passes of the average with a constant gradient g, from 0. */
  function AverageAfter(gamma: real, g: real, k: nat): real
  {
    if k == 0 then 0.0 else Average(gamma, AverageAfter(gamma, g, k - 1), g)
  }

  /** After k passes from 0 with a constant gradient g the moment is
      (1 - gamma^k)·g: the weight gamma^k missing from g is what the bias
      correction divides out. */
  lemma {:induction false} AverageOfConstant(gamma: real, g: real, k: nat)
    ensures AverageAfter(gamma, g, k) == (1.0 - Pow(gamma, k)) * g
  {
    if k > 0 {
      AverageOfConstant(gamma, g, k - 1);
      var p := Pow(gamma, k - 1);
      assert gamma * ((1.0 - p) * g) + (1.0 - gamma) * g == (1.0 - gamma * p) * g;
    }
  }

  /** The bias correction is exact on a constant gradient: dividing the
      moment after k >= 1 passes by 1 - gamma^k gives back g. */
  lemma BiasCorrection(gamma: real, g: real, k: nat)
    requires 0.0 < gamma < 1.0 && 1 <= k
    ensures Unbiased(gamma, AverageAfter(gamma, g, k), k) == g
  {
    AverageOfConstant(gamma, g, k);
    PowInUnitInterval(gamma, k);
    var q := 1.0 - Pow(gamma, k);
    assert (q * g) / q == g;
  }

  // ---------------------------------------------------------------
  // One pass of each loop
  // ---------------------------------------------------------------

  /** A loop body up to the update of `a`: the counter, `x_prev` and the
      new point, written operation by operation as in each optimiser. */
  function Move(lib: MathLib, d: Data, alg: Optimizer, s: State): (t: State)
    requires Admissible(lib, d, alg) && Shaped(d, alg, s)
    ensures t.k == s.k + 1 && t.xPrev == s.x && t.a == s.a && t.gradient == s.gradient
    ensures |t.x| == |d.x0|
    ensures alg != ADAM ==> t.m == s.m && t.v == s.v
    ensures alg == ADAM ==> |t.m| == |d.x0| && |t.v| == |d.x0| && forall j :: 0 <= j < |t.v| ==> 0.0 <= t.v[j]
  {
    var k := s.k + 1;
    var xPrev := s.x;
    match alg
    case GD =>
      s.(k := k, xPrev := xPrev, x := Minus(s.x, Times(s.a, s.gradient)))
    case HB =>
      s.(k := k, xPrev := xPrev, x := Minus(Plus(s.x, Times(d.eta, Minus(s.x, xPrev))), Times(s.a, s.gradient)))
    case NESTEROV =>
      var y := Plus(s.x, Times(d.eta, Minus(s.x, xPrev)));
      s.(k := k, xPrev := xPrev, x := Minus(y, Times(s.a, Grad(d, y))))
    case ADAM =>
      var cs := AdamCoordinates(lib, d, k, s.a, s.x, s.m, s.v, s.gradient);
      s.(k := k, xPrev := xPrev,
         x := seq(|cs|, j requires 0 <= j < |cs| => cs[j].x),
         m := seq(|cs|, j requires 0 <= j < |cs| => cs[j].m),
         v := seq(|cs|, j requires 0 <= j < |cs| => cs[j].v))
  }

  /** A whole loop body: `Move`, then the new learning rate and gradient.
      `None` is a pass whose `armijo` never returns. */
  function Advance(lib: MathLib, d: Data, alg: Optimizer, s: State): (r: Option<State>)
    requires Admissible(lib, d, alg) && Shaped(d, alg, s)
    ensures r.Some? ==> Shaped(d, alg, r.value) && r.value.k == s.k + 1 && r.value.xPrev == s.x
    ensures r.Some? ==> r.value.gradient == Grad(d, r.value.x)
    ensures r.None? <==> Alpha(lib, d, s.k + 1, Move(lib, d, alg, s).x).None?
  {
    var t := Move(lib, d, alg, s);
    match Alpha(lib, d, t.k, t.x)
    case None => None
    case Some(a) => Some(t.(a := a, gradient := Grad(d, t.x)))
  }

  /** The two tolerance tests of the stop condition. */
  predicate ToleranceMet(lib: MathLib, d: Data, s: State)
    requires WellDefined(d) && |s.x| == |s.xPrev|
  {
    Norm2(lib, Grad(d, s.x)) < d.eR || Norm2(lib, Minus(s.x, s.xPrev)) < d.eS
  }

  /** The stop condition evaluated at the end of each pass. */
  predicate Converged(lib: MathLib, d: Data, s: State)
    requires WellDefined(d) && |s.x| == |s.xPrev|
  {
    ToleranceMet(lib, d, s) || s.k > d.maxIt
  }

  /** The loop from state s on. */
  function RunFrom(lib: MathLib, d: Data, alg: Optimizer, s: State): Run
    requires Admissible(lib, d, alg) && Shaped(d, alg, s)
    decreases d.maxIt + 1 - s.k
  {
    match Advance(lib, d, alg, s)
    case None => LineSearchHangs(s.k + 1)
    case Some(t) => if Converged(lib, d, t) then Stopped(t) else RunFrom(lib, d, alg, t)
  }

  /** An unfolding lemma of `RunFrom`, one pass of the loop: after a pass
      that reaches t the run stops in t if the stop test holds there, and
      goes on from t if not. */
  lemma PassOfRun(lib: MathLib, d: Data, alg: Optimizer, s: State, t: State)
    requires Admissible(lib, d, alg) && Shaped(d, alg, s)
    requires Advance(lib, d, alg, s) == Some(t)
    ensures Shaped(d, alg, t)
    ensures RunFrom(lib, d, alg, s) == if Converged(lib, d, t) then Stopped(t) else RunFrom(lib, d, alg, t)
  {
  }

  /** An optimiser: the start state, the gradient test before the loop,
      and then the loop. */
  function Optimize(lib: MathLib, d: Data, alg: Optimizer): Run
    requires Admissible(lib, d, alg)
  {
    var s := Start(d, alg);
    if Norm2(lib, s.gradient) < d.eR then Stopped(s) else RunFrom(lib, d, alg, s)
  }

  // ---------------------------------------------------------------
  // What every run does
  // ---------------------------------------------------------------

  /** From a state at or past the first counter, each pass adds 1 to k, so
      the loop stops, or hangs in a line search, after fewer than Cap passes;
      it stops in a state past s whose tolerance test held or whose counter
      is exactly the cap. */
  lemma {:induction false} RunFromBounds(lib: MathLib, d: Data, alg: Optimizer, s: State)
    requires Admissible(lib, d, alg) && Shaped(d, alg, s)
    requires FirstK(alg) <= s.k <= Max(d.maxIt, FirstK(alg))
    ensures RunFrom(lib, d, alg, s).Stopped? ==>
      var t := RunFrom(lib, d, alg, s).last;
      Shaped(d, alg, t) && s.k < t.k <= Cap(d, alg) && (ToleranceMet(lib, d, t) || t.k == Cap(d, alg))
    ensures RunFrom(lib, d, alg, s).LineSearchHangs? ==> s.k < RunFrom(lib, d, alg, s).k <= Cap(d, alg)
    decreases d.maxIt + 1 - s.k
  {
    match Advance(lib, d, alg, s)
    case None =>
    case Some(t) =>
      if !Converged(lib, d, t) {
        RunFromBounds(lib, d, alg, t);
      }
  }

  /** Every run stops, or ends in `LineSearchHangs` within the cap: it
      stops with a counter between the first one and the cap, and when
      neither tolerance test holds the counter is the cap, max_it + 1
      whenever max_it is at least the first counter. */
  lemma IterationCap(lib: MathLib, d: Data, alg: Optimizer)
    requires Admissible(lib, d, alg)
    ensures Optimize(lib, d, alg).Stopped? ==>
      var t := Optimize(lib, d, alg).last;
      Shaped(d, alg, t) && FirstK(alg) <= t.k <= Cap(d, alg) && (ToleranceMet(lib, d, t) || t.k == Cap(d, alg))
    ensures Optimize(lib, d, alg).LineSearchHangs? ==> FirstK(alg) < Optimize(lib, d, alg).k <= Cap(d, alg)
    ensures FirstK(alg) <= d.maxIt ==> Cap(d, alg) == d.maxIt + 1
  {
    var s := Start(d, alg);
    if Norm2(lib, s.gradient) >= d.eR {
      RunFromBounds(lib, d, alg, s);
    }
  }

  /** The loop is entered exactly when the gradient test fails at the start
      point: the run ends in the start state, after no pass, if and only
      if that test holds. */
  lemma ZeroIterations(lib: MathLib, d: Data, alg: Optimizer)
    requires Admissible(lib, d, alg)
    ensures Optimize(lib, d, alg) == Stopped(Start(d, alg)) <==> Norm2(lib, Grad(d, Start(d, alg).x)) < d.eR
    ensures Optimize(lib, d, alg).Stopped? && Optimize(lib, d, alg).last.k == FirstK(alg) <==>
      Norm2(lib, Grad(d, Start(d, alg).x)) < d.eR
  {
    var s := Start(d, alg);
    if Norm2(lib, s.gradient) >= d.eR {
      RunFromBounds(lib, d, alg, s);
    }
  }

  /** An unfolding lemma of `Start` and `Optimize`: gradient descent and
      ADAM start from x0 itself, HB and NESTEROV from x0 - a0·Grad(x0) with
      x0 as the previous point; each tests the gradient at its own start
      point before the loop. */
  lemma StartPoints(lib: MathLib, d: Data, alg: Optimizer)
    requires Admissible(lib, d, alg)
    ensures alg == GD || alg == ADAM ==> Start(d, alg).x == d.x0 && Start(d, alg).k == 0
    ensures alg == HB || alg == NESTEROV ==>
      Start(d, alg).x == Minus(d.x0, Times(d.a0, Grad(d, d.x0))) && Start(d, alg).xPrev == d.x0 && Start(d, alg).k == 1
    ensures Norm2(lib, Grad(d, Start(d, alg).x)) < d.eR ==> Optimize(lib, d, alg) == Stopped(Start(d, alg))
  {
  }

  // ---------------------------------------------------------------
  // The learning rate and gradient held by a state
  // ---------------------------------------------------------------

  /** What `a` and `gradient` hold when a pass begins: the gradient at x,
      and a0 before the first pass or Alpha(k, x) after pass k. */
  ghost predicate Coherent(lib: MathLib, d: Data, alg: Optimizer, s: State)
    requires WellDefined(d) && |s.x| == |d.x0|
  {
    s.gradient == Grad(d, s.x) &&
    if s.k == FirstK(alg) then s.a == d.a0 else Alpha(lib, d, s.k, s.x) == Some(s.a)
  }

  /** A pass of gradient descent moves from x to x - a·Grad(x), where a is
      a0 in the first pass and Alpha(k - 1, x_(k-1)) in pass k; every pass
      of every optimiser leaves a coherent state behind. */
  lemma PassCoherent(lib: MathLib, d: Data, alg: Optimizer, s: State)
    requires Admissible(lib, d, alg) && Shaped(d, alg, s) && FirstK(alg) <= s.k
    requires Coherent(lib, d, alg, s)
    ensures Advance(lib, d, alg, s).Some? ==> Coherent(lib, d, alg, Advance(lib, d, alg, s).value)
    ensures alg == GD && Advance(lib, d, alg, s).Some? ==>
      Advance(lib, d, alg, s).value.x == Minus(s.x, Times(s.a, Grad(d, s.x))) &&
      (s.k == 0 ==> s.a == d.a0) &&
      (s.k > 0 ==> Alpha(lib, d, s.k, s.x) == Some(s.a))
  {
  }

  lemma {:induction false} RunFromCoherent(lib: MathLib, d: Data, alg: Optimizer, s: State)
    requires Admissible(lib, d, alg) && Shaped(d, alg, s) && FirstK(alg) <= s.k
    requires Coherent(lib, d, alg, s)
    ensures RunFrom(lib, d, alg, s).Stopped? ==>
      Shaped(d, alg, RunFrom(lib, d, alg, s).last) && Coherent(lib, d, alg, RunFrom(lib, d, alg, s).last)
    decreases d.maxIt + 1 - s.k
  {
    PassCoherent(lib, d, alg, s);
    match Advance(lib, d, alg, s)
    case None =>
    case Some(t) =>
      if !Converged(lib, d, t) {
        RunFromCoherent(lib, d, alg, t);
      }
  }

  /** The state a run stops in holds the gradient at its point, and the
      learning rate computed for its counter and point. */
  lemma FinalStateCoherent(lib: MathLib, d: Data, alg: Optimizer)
    requires Admissible(lib, d, alg)
    ensures Optimize(lib, d, alg).Stopped? ==>
      Shaped(d, alg, Optimize(lib, d, alg).last) && Coherent(lib, d, alg, Optimize(lib, d, alg).last)
  {
    var s := Start(d, alg);
    if Norm2(lib, s.gradient) >= d.eR {
      RunFromCoherent(lib, d, alg, s);
    }
  }

  // ---------------------------------------------------------------
  // HB and NESTEROV
  // ---------------------------------------------------------------

  /** In HB and NESTEROV `x_prev = x` runs just before the momentum term,
      so eta·(x - x_prev) is the zero vector: a HB pass is a gradient
      descent pass, and so is a NESTEROV pass (whose y is x) whenever the
      stored gradient is the gradient at x. */
  lemma MomentumVanishes(lib: MathLib, d: Data, s: State)
    requires Admissible(lib, d, GD) && Shaped(d, GD, s)
    ensures Move(lib, d, HB, s) == Move(lib, d, GD, s)
    ensures s.gradient == Grad(d, s.x) ==> Move(lib, d, NESTEROV, s) == Move(lib, d, GD, s)
  {
    MomentumOfEqualPoints(s.x, d.eta);
  }

  /** From a state holding the gradient at its point, HB and NESTEROV run
      exactly as gradient descent does. */
  lemma {:induction false} MomentumRunIsGradientDescent(lib: MathLib, d: Data, s: State)
    requires Admissible(lib, d, GD) && Shaped(d, GD, s) && s.gradient == Grad(d, s.x)
    ensures RunFrom(lib, d, HB, s) == RunFrom(lib, d, GD, s)
    ensures RunFrom(lib, d, NESTEROV, s) == RunFrom(lib, d, GD, s)
    decreases d.maxIt + 1 - s.k
  {
    MomentumVanishes(lib, d, s);
    match Advance(lib, d, GD, s)
    case None =>
    case Some(t) =>
      if !Converged(lib, d, t) {
        MomentumRunIsGradientDescent(lib, d, t);
      }
  }

  /** HB and NESTEROV compute the same run, and it is the run of gradient
      descent started from x0 - a0·Grad(x0) with the counter at 1. */
  lemma HeavyBallIsNesterov(lib: MathLib, d: Data)
    requires Admissible(lib, d, GD)
    ensures Optimize(lib, d, HB) == Optimize(lib, d, NESTEROV)
    ensures Optimize(lib, d, HB) ==
      var s := Start(d, HB);
      if Norm2(lib, s.gradient) < d.eR then Stopped(s) else RunFrom(lib, d, GD, s)
  {
    MomentumRunIsGradientDescent(lib, d, Start(d, HB));
  }

  // ---------------------------------------------------------------
  // The line search
  // ---------------------------------------------------------------

  /** Without the Armijo rule every call of `Alpha` returns, so every run
      stops. */
  lemma {:induction false} RunFromStops(lib: MathLib, d: Data, alg: Optimizer, s: State)
    requires Admissible(lib, d, alg) && Shaped(d, alg, s) && Rule(d) != ARMIJO
    ensures RunFrom(lib, d, alg, s).Stopped?
    decreases d.maxIt + 1 - s.k
  {
    match Advance(lib, d, alg, s)
    case None =>
      assert false;
    case Some(t) =>
      if !Converged(lib, d, t) {
        RunFromStops(lib, d, alg, t);
      }
  }

  /** The Armijo rule is refused for HB, NESTEROV and ADAM: when the
      algorithm code names the optimiser that runs, only gradient descent
      can reach a line search that never returns. */
  lemma OnlyGradientDescentSearches(lib: MathLib, d: Data, alg: Optimizer)
    requires Admissible(lib, d, alg)
    requires d.algorithm == OptimizerCode(alg) && alg != GD
    ensures Optimize(lib, d, alg).Stopped?
  {
    var s := Start(d, alg);
    if Norm2(lib, s.gradient) >= d.eR {
      RunFromStops(lib, d, alg, s);
    }
  }

  // ---------------------------------------------------------------
  // ADAM
  // ---------------------------------------------------------------

  /** A pass of ADAM keeps x, m and v of length n and updates every
      coordinate by the moment averages and the bias-corrected step, with
      k >= 1 so that 1 - gamma^k is never 0. */
  lemma AdamUpdate(lib: MathLib, d: Data, s: State)
    requires Admissible(lib, d, ADAM) && Shaped(d, ADAM, s)
    ensures Advance(lib, d, ADAM, s).Some? ==>
      var t := Advance(lib, d, ADAM, s).value;
      |t.x| == |d.x0| && |t.m| == |d.x0| && |t.v| == |d.x0| && 1 <= t.k && t.xPrev == s.x &&
      forall j :: 0 <= j < |d.x0| ==>
        t.m[j] == Average(d.gamma1, s.m[j], s.gradient[j]) &&
        t.v[j] == Average(d.gamma2, s.v[j], Square(s.gradient[j])) &&
        t.x[j] == AdamCoordinate(lib, d, t.k, s.a, s.x[j], s.m[j], s.v[j], s.gradient[j]).x
  {
  }

  // ---------------------------------------------------------------
  // One pass, from the loop variables
  // ---------------------------------------------------------------

  /** A pass of GD, HB or NESTEROV from the loop variables: once the new
      point is the one `Move` computes and the learning rate and gradient
      are `Alpha` and `Grad` there, the run from the old variables stops
      at the new ones or goes on from them. */
  lemma DescentPassOfRun(lib: MathLib, d: Data, alg: Optimizer, k: nat, a: real, x: Vec, xPrev: Vec, gradient: Vec,
                         nextX: Vec, nextA: real, nextGradient: Vec)
    requires Admissible(lib, d, alg) && alg != ADAM && Shaped(d, alg, State(k, a, x, xPrev, gradient, [], []))
    requires nextX == Move(lib, d, alg, State(k, a, x, xPrev, gradient, [], [])).x
    requires Alpha(lib, d, k + 1, nextX) == Some(nextA) && nextGradient == Grad(d, nextX)
    ensures Shaped(d, alg, State(k + 1, nextA, nextX, x, nextGradient, [], []))
    ensures RunFrom(lib, d, alg, State(k, a, x, xPrev, gradient, [], [])) ==
      var t := State(k + 1, nextA, nextX, x, nextGradient, [], []);
      if Converged(lib, d, t) then Stopped(t) else RunFrom(lib, d, alg, t)
  {
    PassOfRun(lib, d, alg, State(k, a, x, xPrev, gradient, [], []), State(k + 1, nextA, nextX, x, nextGradient, [], []));
  }

  /** An unfolding lemma of `RunFrom`: a pass of GD, HB or NESTEROV whose
      line search never returns ends the run. */
  lemma DescentHangs(lib: MathLib, d: Data, alg: Optimizer, k: nat, a: real, x: Vec, xPrev: Vec, gradient: Vec, nextX: Vec)
    requires Admissible(lib, d, alg) && alg != ADAM && Shaped(d, alg, State(k, a, x, xPrev, gradient, [], []))
    requires nextX == Move(lib, d, alg, State(k, a, x, xPrev, gradient, [], [])).x
    requires Alpha(lib, d, k + 1, nextX).None?
    ensures RunFrom(lib, d, alg, State(k, a, x, xPrev, gradient, [], [])) == LineSearchHangs(k + 1)
  {
  }

  /** A pass of ADAM from the loop variables: the inner loop's coordinates,
      assembled into vectors, with the new learning rate and gradient make
      the state the run stops at or goes on from. */
  lemma AdamPassOfRun(lib: MathLib, d: Data, k: nat, a: real, x: Vec, xPrev: Vec, gradient: Vec, m: Vec, v: Vec,
                      nextX: Vec, nextM: Vec, nextV: Vec, nextA: real, nextGradient: Vec)
    requires Admissible(lib, d, ADAM) && Shaped(d, ADAM, State(k, a, x, xPrev, gradient, m, v))
    requires |nextX| == |d.x0| && |nextM| == |d.x0| && |nextV| == |d.x0|
    requires forall j :: 0 <= j < |d.x0| ==>
      Coordinate(nextX[j], nextM[j], nextV[j]) == AdamCoordinate(lib, d, k + 1, a, x[j], m[j], v[j], gradient[j])
    requires Alpha(lib, d, k + 1, nextX) == Some(nextA) && nextGradient == Grad(d, nextX)
    ensures Shaped(d, ADAM, State(k + 1, nextA, nextX, x, nextGradient, nextM, nextV))
    ensures RunFrom(lib, d, ADAM, State(k, a, x, xPrev, gradient, m, v)) ==
      var t := State(k + 1, nextA, nextX, x, nextGradient, nextM, nextV);
      if Converged(lib, d, t) then Stopped(t) else RunFrom(lib, d, ADAM, t)
  {
    var s := State(k, a, x, xPrev, gradient, m, v);
    var t := Move(lib, d, ADAM, s);
    assert t.x == nextX;
    assert t.m == nextM;
    assert t.v == nextV;
    PassOfRun(lib, d, ADAM, s, State(k + 1, nextA, nextX, x, nextGradient, nextM, nextV));
  }

  /** A pass of ADAM whose line search never returns ends the run. */
  lemma AdamHangs(lib: MathLib, d: Data, k: nat, a: real, x: Vec, xPrev: Vec, gradient: Vec, m: Vec, v: Vec,
                  nextX: Vec, nextM: Vec, nextV: Vec)
    requires Admissible(lib, d, ADAM) && Shaped(d, ADAM, State(k, a, x, xPrev, gradient, m, v))
    requires |nextX| == |d.x0| && |nextM| == |d.x0| && |nextV| == |d.x0|
    requires forall j :: 0 <= j < |d.x0| ==>
      Coordinate(nextX[j], nextM[j], nextV[j]) == AdamCoordinate(lib, d, k + 1, a, x[j], m[j], v[j], gradient[j])
    requires Alpha(lib, d, k + 1, nextX).None?
    ensures RunFrom(lib, d, ADAM, State(k, a, x, xPrev, gradient, m, v)) == LineSearchHangs(k + 1)
  {
    var s := State(k, a, x, xPrev, gradient, m, v);
    var t := Move(lib, d, ADAM, s);
    assert t.x == nextX;
    assert Advance(lib, d, ADAM, s).None?;
  }
}
