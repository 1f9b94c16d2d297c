/**
  The parameters of a minimisation (Data.hpp): the `Step` and `Optimizer`
  enumerations with their integer codes, the parsed fields of `Data`, and
  the two policies its constructor selects: the learning rate `Alpha`
  (the switch on `alphaMethod`) and the gradient `Grad` (the test on
  `FiniteDifferences`).

  The JSON file is not read: a `Data` value holds the fields after
  parsing.  The objective and the closed-form gradient, which the source
  builds with muParser, are function-typed fields.  The lambdas stored in
  `Alpha` and `Grad` become the functions `Alpha` and `Grad` of the
  selected policy; the methods `StepSize` and `Gradient` are the calls
  of those lambdas, which run the loops of `armijo` and `gradientFD`.
*/
module Parameters {
  import opened Wrappers
  import opened Utilities

  /** The learning-rate policies. */
  datatype Step = CONST | EXPONENTIAL | INVERSE | ARMIJO

  /** The optimisers. */
  datatype Optimizer = GD | HB | NESTEROV | ADAM

  /** The code of each step policy, the value of its enumerator. */
  function StepCode(s: Step): (c: int)
    ensures 0 <= c < 4
  {
    match s
    case CONST => 0
    case EXPONENTIAL => 1
    case INVERSE => 2
    case ARMIJO => 3
  }

  /** The code of each optimiser, the value of its enumerator. */
  function OptimizerCode(o: Optimizer): (c: int)
    ensures 0 <= c < 4
  {
    match o
    case GD => 0
    case HB => 1
    case NESTEROV => 2
    case ADAM => 3
  }

  /** The step policy a code names, if any. */
  function StepOfCode(c: int): (s: Option<Step>)
    ensures s.Some? <==> 0 <= c < 4
    ensures s.Some? ==> StepCode(s.value) == c
  {
    if c == 0 then Some(CONST)
    else if c == 1 then Some(EXPONENTIAL)
    else if c == 2 then Some(INVERSE)
    else if c == 3 then Some(ARMIJO)
    else None
  }

  /** The optimiser a code names, if any. */
  function OptimizerOfCode(c: int): (o: Option<Optimizer>)
    ensures o.Some? <==> 0 <= c < 4
    ensures o.Some? ==> OptimizerCode(o.value) == c
  {
    if c == 0 then Some(GD)
    else if c == 1 then Some(HB)
    else if c == 2 then Some(NESTEROV)
    else if c == 3 then Some(ADAM)
    else None
  }

  /** Codes and enumerators are in one-to-one correspondence. */
  lemma CodesRoundTrip(s: Step, o: Optimizer, c: int)
    ensures StepOfCode(StepCode(s)) == Some(s)
    ensures OptimizerOfCode(OptimizerCode(o)) == Some(o)
    ensures StepOfCode(c).Some? ==> StepCode(StepOfCode(c).value) == c
    ensures OptimizerOfCode(c).Some? ==> OptimizerCode(OptimizerOfCode(c).value) == c
  {
  }

  /** The fields of `Data` once the JSON file has been parsed.  `sigma` is
      never assigned by the constructor, so it is an arbitrary value. */
  datatype Data = Data(
    x0: Vec,
    eS: real,
    eR: real,
    maxIt: nat,
    sigma: real,
    a0: real,
    mu: real,
    gamma1: real,
    gamma2: real,
    eps: real,
    eta: real,
    algorithm: int,
    finiteDifferences: int,
    hFD: real,
    step: int,
    fun: Vec -> real,
    closedGrad: Vec -> Vec)

  // ---------------------------------------------------------------
  // The learning rate
  // ---------------------------------------------------------------

  /** What the switch on `alphaMethod` leaves behind: the rule stored in
      `Alpha` and the `useDefault` flag. */
  datatype StepPolicy = StepPolicy(rule: Step, useDefault: bool)

  /** The switch on `alphaMethod`.  Codes 0, 1 and 2 select their rule;
      code 3 selects Armijo unless the algorithm code is that of HB,
      NESTEROV or ADAM; those, and every code outside 0..3, set
      `useDefault`, which stores the constant rule. */
  function SelectStep(step: int, algorithm: int): (p: StepPolicy)
    ensures p.useDefault <==>
      !(0 <= step < 4) || (step == StepCode(ARMIJO) && (algorithm == OptimizerCode(HB) || algorithm == OptimizerCode(NESTEROV) || algorithm == OptimizerCode(ADAM)))
    ensures p.useDefault ==> p.rule == CONST
    ensures !p.useDefault ==> StepOfCode(step) == Some(p.rule)
    ensures p.rule == ARMIJO ==> algorithm != OptimizerCode(HB) && algorithm != OptimizerCode(NESTEROV) && algorithm != OptimizerCode(ADAM)
  {
    var useDefault :=
      match step
      case 0 => false
      case 1 => false
      case 2 => false
      case 3 => algorithm == 1 || algorithm == 3 || algorithm == 2
      case _ => true;
    if useDefault then StepPolicy(CONST, true)
    else StepPolicy(StepOfCode(step).value, false)
  }

  /** The rule of a set of parameters. */
  function Rule(d: Data): Step
  {
    SelectStep(d.step, d.algorithm).rule
  }

  // ---------------------------------------------------------------
  // The gradient
  // ---------------------------------------------------------------

  /** The two ways of computing the gradient. */
  datatype GradientSource = FiniteDifferences | ClosedForm

  /** The test on `FiniteDifferences`: only the value 1 selects the
      centred differences. */
  function SelectGradient(code: int): (g: GradientSource)
    ensures g == FiniteDifferences <==> code == 1
  {
    if code == 1 then FiniteDifferences else ClosedForm
  }

  /** What the gradient in use needs: a non-zero step for the centred
      differences, vectors of the problem's dimension for the closed form. */
  ghost predicate GradientWellDefined(d: Data)
  {
    match SelectGradient(d.finiteDifferences)
    case FiniteDifferences => d.hFD != 0.0
    case ClosedForm => forall y: Vec :: |y| == |d.x0| ==> |d.closedGrad(y)| == |y|
  }

  /** What the learning rate in use needs: the inverse decay never divides
      by zero when mu is not negative. */
  predicate StepWellDefined(d: Data)
  {
    Rule(d) == INVERSE ==> 0.0 <= d.mu
  }

  ghost predicate WellDefined(d: Data)
  {
    GradientWellDefined(d) && StepWellDefined(d)
  }

  /** The lambda stored in `Grad`. */
  function Grad(d: Data, x: Vec): (g: Vec)
    requires SelectGradient(d.finiteDifferences) == FiniteDifferences ==> d.hFD != 0.0
    ensures d.finiteDifferences == 1 ==> g == CentredDifferences(d.fun, x, d.hFD)
    ensures d.finiteDifferences != 1 ==> g == d.closedGrad(x)
    ensures GradientWellDefined(d) && |x| == |d.x0| ==> |g| == |x|
  {
    match SelectGradient(d.finiteDifferences)
    case FiniteDifferences => CentredDifferences(d.fun, x, d.hFD)
    case ClosedForm => d.closedGrad(x)
  }

  /** The lambda stored in `Alpha`, at iteration k and point x.  `None` is
      the Armijo loop that never returns. */
  function Alpha(lib: MathLib, d: Data, k: nat, x: Vec): (a: Option<real>)
    requires WellDefined(d) && |x| == |d.x0|
    ensures d.step == 0 ==> a == Some(d.a0)
    ensures d.step == 1 ==> a == Some(ExponentialDecay(lib, d.a0, d.mu, k))
    ensures d.step == 2 ==> a == Some(InverseDecay(d.a0, d.mu, k))
    ensures d.step == 3 && (d.algorithm == 1 || d.algorithm == 2 || d.algorithm == 3) ==> a == Some(d.a0)
    ensures d.step == 3 && !(d.algorithm == 1 || d.algorithm == 2 || d.algorithm == 3) ==>
      (a.None? <==> SufficientDecrease(lib, d.fun, x, Grad(d, x), d.sigma, d.a0))
    ensures !(0 <= d.step < 4) ==> a == Some(d.a0)
    ensures a.Some? && Rule(d) != EXPONENTIAL && Rule(d) != INVERSE ==> a.value == d.a0
    ensures a.None? ==> Rule(d) == ARMIJO
  {
    match Rule(d)
    case CONST => Some(d.a0)
    case EXPONENTIAL => Some(ExponentialDecay(lib, d.a0, d.mu, k))
    case INVERSE => Some(InverseDecay(d.a0, d.mu, k))
    case ARMIJO =>
      if SufficientDecrease(lib, d.fun, x, Grad(d, x), d.sigma, d.a0) then None else Some(d.a0)
  }

  /** a0·exp(-mu·k), the exponential decay. */
  function ExponentialDecay(lib: MathLib, a0: real, mu: real, k: nat): real
  {
    a0 * lib.exp(-mu * (k as real))
  }

  /** a0 / (1 + mu·k), the inverse decay; for mu >= 0 the divisor is at
      least 1, so the rate starts at a0 and never grows past it. */
  function InverseDecay(a0: real, mu: real, k: nat): (a: real)
    requires 0.0 <= mu
    ensures k == 0 ==> a == a0
    ensures 0.0 <= a0 ==> 0.0 <= a <= a0
  {
    NonNegativeProduct(mu, k as real);
    QuotientAtMost(a0, 1.0 + mu * (k as real));
    a0 / (1.0 + mu * (k as real))
  }

  lemma QuotientAtMost(p: real, q: real)
    requires 1.0 <= q
    ensures 0.0 <= p ==> 0.0 <= p / q <= p
  {
    if 0.0 <= p {
      assert p / q * q == p;
    }
  }

  lemma NonNegativeProduct(x: real, y: real)
    requires 0.0 <= x && 0.0 <= y
    ensures 0.0 <= x * y
  {
  }

  /** A call of the `Alpha` lambda.  Under the Armijo rule it runs
      `armijo` with `fuel` halvings; whatever the fuel, `None` comes back
      exactly when that loop never stops. */
  method StepSize(lib: MathLib, d: Data, k: nat, x: Vec, fuel: nat) returns (a: Option<real>)
    requires WellDefined(d) && |x| == |d.x0|
    ensures a == Alpha(lib, d, k, x)
  {
    match Rule(d)
    case CONST =>
      a := Some(d.a0);
    case EXPONENTIAL =>
      a := Some(ExponentialDecay(lib, d.a0, d.mu, k));
    case INVERSE =>
      a := Some(InverseDecay(d.a0, d.mu, k));
    case ARMIJO =>
      var df := (y: Vec) requires SelectGradient(d.finiteDifferences) == FiniteDifferences ==> d.hFD != 0.0 => Grad(d, y);
      assert df(x) == Grad(d, x);
      a := Armijo(lib, x, d.fun, df, d.sigma, d.a0, fuel);
  }

  /** A call of the `Grad` lambda: `gradientFD` or the closed form. */
  method Gradient(d: Data, x: Vec) returns (g: Vec)
    requires SelectGradient(d.finiteDifferences) == FiniteDifferences ==> d.hFD != 0.0
    ensures g == Grad(d, x)
  {
    match SelectGradient(d.finiteDifferences)
    case FiniteDifferences =>
      g := GradientFD(d.fun, x, d.hFD);
    case ClosedForm =>
      g := d.closedGrad(x);
  }
}
