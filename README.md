# A verified model of a first-order minimiser

This project models the core of a small C++ minimiser.
- The minimiser runs one of four first-order methods on a function of n variables: gradient descent (GD), heavy ball (HB), Nesterov, or ADAM.
- The learning rate follows one of four rules: constant, exponential decay, inverse decay, or the Armijo line search.
- The gradient is either a closed form or centred finite differences.

The model is written in Dafny, in five modules:

- `Wrappers` (wrappers.dfy): `Option` and `Result`.
- `Utilities` (utilities.dfy) models Utilities.hpp:
  - the vector operators `+`, `-` and scalar `*` as loops that fill a fresh vector, with the size-mismatch error as a `Failure`;
  - `norm2`, as the square root of the sum of squares;
  - `gradientFD`, as a loop over the coordinates;
  - `armijo`, as its `while` loop.
- `Parameters` (parameters.dfy) models Data.hpp:
  - the `Step` and `Optimizer` enumerations and their codes;
  - the parsed fields of `Data`;
  - the two choices its constructor makes: the learning-rate rule behind `Alpha` and the gradient behind `Grad`;
  - the methods `StepSize` and `Gradient`, which are calls of those two lambdas.
- `Iterations` (iterations.dfy) states, as functions, what the four loops of Minimization.hpp compute:
  - the start state;
  - one pass of each loop body (`Move`, `Advance`);
  - the stop test;
  - the whole run (`RunFrom`, `Optimize`).

  It also proves what every run does.
- `Minimization` (minimization.dfy) models the optimisers:
  - each one as a `while` loop over its own variables `k`, `a`, `x`, `x_prev` and `gradient`, plus `m` and `v` for ADAM;
  - ADAM's inner `for` loop, which updates `m[i]`, `v[i]` and `x[i]` in place;
  - the `minimize` switch.

  Each loop is proved to compute `Optimize`.

How the values are modelled:
- A `double` is a `real`, and a `std::vector<double>` is a `seq<real>`.
- `std::sqrt` and `std::exp` are the fields of a `MathLib` value passed in. `Sound(lib)` is the one fact the proofs use about the square root: it is the non-negative root on the non-negative reals.
- `std::pow(g, 2)` is `Square(g)`, and `std::pow(gamma, k)` with an integer `k` is `Pow(gamma, k)`.
- The objective and the closed-form gradient are function-typed fields of `Data`.
- An optimiser returns a `Run`. This is either `Stopped(last)`, the loop variables when the stop test held (the source returns their `x`), or `LineSearchHangs(k)`, for a pass whose `armijo` call never returns.

What the code does, as opposed to what its comments intend:
- `armijo` tests its inequality at `a0` and never at the halved `ak`. It also halves while sufficient decrease holds rather than while it fails. So the loop runs zero times and returns `a0`, or it never stops. `Armijo` models this with a `fuel` bound on the halvings, and proves that `None` (still running) comes back exactly when the inequality holds at `a0`.
- In HB and Nesterov, `x_prev = x` runs just before the momentum term `eta·(x - x_prev)` is formed, so that term is the zero vector. `HeavyBallIsNesterov` proves that HB and Nesterov compute the same run: gradient descent started from `x0 - a0·Grad(x0)`.
- When the cap stops a loop, the counter is `max_it + 1`, not `max_it`. HB and Nesterov count the step before the loop as iteration 1, so if the loop is entered with `max_it = 0`, its one pass ends at `k = 2`. `IterationCap` states both.
- ADAM's stop test checks `k > max_it` twice (Minimization.hpp:188). This changes nothing, and the model keeps both tests.

## Model

| member | source | states |
|---|---|---|
| Utilities.Add | Utilities.hpp:55-69 | fails exactly when the sizes differ; otherwise the result has the length of v1 and entry i is v1[i] + v2[i] (the reference `Plus`) |
| Utilities.Subtract | Utilities.hpp:71-85 | fails exactly when the sizes differ; otherwise the result has the length of v1 and entry i is v1[i] - v2[i] (the reference `Minus`) |
| Utilities.Scale | Utilities.hpp:87-99 | never fails; the result has the length of v and entry i is scalar·v[i] (the reference `Times`) |
| Utilities.MinusUndoesPlus | Utilities.hpp:55-85 | subtracting v2 undoes adding v2 |
| Utilities.MomentumOfEqualPoints | Minimization.hpp:87-89 | x - x is the zero vector, any multiple of it is zero, and x + eta·(x - x) is x |
| Utilities.SumSquares | Utilities.hpp:25-28 | the inner product of v with itself, accumulated from the left, is never negative |
| Utilities.Norm2 | Utilities.hpp:25-28 | `norm2` is the square root of the sum of squares; for a sound square root it is non-negative and its square is the sum of squares |
| Utilities.SumSquaresZero | Utilities.hpp:25-28 | the sum of squares is 0 if and only if v is the zero vector |
| Utilities.Norm2Zero | Utilities.hpp:25-28 | `norm2` is non-negative and is 0 if and only if v is the zero vector |
| Utilities.Norm2Below | Utilities.hpp:25-28 | `norm2(v) < e` holds if and only if e > 0 and the sum of squares is below e² |
| Utilities.CentredDifferences | Utilities.hpp:32-51 | the centred difference quotients have one component per coordinate of x |
| Utilities.ShiftedCopies | Utilities.hpp:40-44 | the two perturbed copies differ from x only at index i, by +h and by -h, so they are x + h·e_i and x - h·e_i |
| Utilities.GradientFD | Utilities.hpp:32-51 | the gradient has the length of x and component i is (f(x + h·e_i) - f(x - h·e_i)) / (2h) |
| Utilities.SumSquaresUpdate | Utilities.hpp:25-28 | changing entry i from x[i] to t changes the sum of squares by t² - x[i]² |
| Utilities.CentredDifferencesOfSquares | Utilities.hpp:32-51 | on the sum of squares, the finite-difference gradient is exactly 2·x, the true gradient, for any non-zero h |
| Utilities.DifferenceOfSquares | Utilities.hpp:47 | on the sum of squares, component i of the centred difference is 2·x[i] |
| Utilities.PowInUnitInterval | Minimization.hpp:180-181 | for 0 < gamma < 1 and k >= 1, gamma^k lies strictly between 0 and 1, so the bias correction never divides by 0 |
| Utilities.SufficientDecrease | Utilities.hpp:113 | the guard of the `armijo` loop: f(x) - f(x - step·g) >= sigma·step·norm2(g)², taken at step a0 |
| Utilities.Armijo | Utilities.hpp:103-119 | the loop never stops (None for every fuel) exactly when the sufficient-decrease inequality holds at a0; otherwise it returns a0 unchanged |
| Parameters.StepCode | Data.hpp:15-21 | every step rule has a code in 0..3 |
| Parameters.OptimizerCode | Data.hpp:23-29 | every optimiser has a code in 0..3 |
| Parameters.StepOfCode | Data.hpp:15-21 | a code names a step rule exactly when it is in 0..3, and the rule named has that code |
| Parameters.OptimizerOfCode | Data.hpp:23-29 | a code names an optimiser exactly when it is in 0..3, and the optimiser named has that code |
| Parameters.CodesRoundTrip | Data.hpp:15-29 | rules and optimisers correspond one to one with the codes CONST=0, EXPONENTIAL=1, INVERSE=2, ARMIJO=3 and GD=0, HB=1, NESTEROV=2, ADAM=3 |
| Parameters.SelectStep | Data.hpp:113-166 | `useDefault` is set exactly for codes outside 0..3 and for Armijo with HB, NESTEROV or ADAM; the default is the constant rule; otherwise the code's own rule is kept; Armijo is never chosen for HB, NESTEROV or ADAM |
| Parameters.SelectGradient | Data.hpp:174-186 | the finite differences are chosen exactly when the flag is 1 |
| Parameters.Grad | Data.hpp:174-186 | the flag 1 gives the centred differences with step hFD, and every other value gives the closed form; both have the problem's dimension |
| Parameters.Alpha | Data.hpp:115-166 | code 0 gives a0; 1 gives a0·exp(-mu·k); 2 gives a0/(1 + mu·k); 3 with HB, NESTEROV or ADAM gives a0; 3 otherwise is the Armijo call, which hangs exactly when sufficient decrease holds at a0 and otherwise returns a0; any other code gives a0 |
| Parameters.ExponentialDecay | Data.hpp:125-126 | the exponential decay a0·exp(-mu·k) |
| Parameters.InverseDecay | Data.hpp:133-134 | the inverse decay a0/(1 + mu·k): a0 at k = 0, and for mu >= 0 and a0 >= 0 never negative and never above a0 |
| Parameters.StepSize | Data.hpp:118-163 | a call of the stored `Alpha` lambda returns what `Alpha` defines, for every fuel |
| Parameters.Gradient | Data.hpp:176-183 | a call of the stored `Grad` lambda returns what `Grad` defines |
| Iterations.Start | Minimization.hpp:27-30 | each optimiser starts with vectors of dimension n, k at its first value, a = a0, and the gradient at its start point; GD and ADAM start from x0, HB and NESTEROV from x0 - a0·Grad(x0) (lines 74-78, 116-122) |
| Iterations.AdamCoordinate | Minimization.hpp:178-182 | the new first moment is gamma1·m + (1 - gamma1)·g; the new second moment is gamma2·v + (1 - gamma2)·g² and is never negative |
| Iterations.Unbiased | Minimization.hpp:180-181 | the bias-corrected moment m / (1 - gamma^k) is non-negative when m is |
| Iterations.AdamCoordinates | Minimization.hpp:176-183 | the inner loop updates every coordinate, each by `AdamCoordinate` |
| Iterations.AverageOfConstant | Minimization.hpp:178-179 | after k passes from 0 with a constant gradient g, a moment is (1 - gamma^k)·g |
| Iterations.BiasCorrection | Minimization.hpp:180-181 | the bias correction is exact: on a constant gradient, the corrected moment after k >= 1 passes is g itself |
| Iterations.Move | Minimization.hpp:37-41 | a pass adds 1 to k, sets x_prev to x, keeps a and the gradient, and keeps the dimension; ADAM's moments keep their length and v stays non-negative (lines 85-89, 129-135, 173-183) |
| Iterations.Advance | Minimization.hpp:43-44 | after a pass the state has the problem's dimension, k one higher, x_prev the old x and the gradient at the new x; the pass hangs exactly when `Alpha` at the new point hangs |
| Iterations.ToleranceMet | Minimization.hpp:46 | the two tolerance tests: norm2(Grad(x)) < e_r or norm2(x - x_prev) < e_s (lines 94, 140, 188) |
| Iterations.Converged | Minimization.hpp:46 | the stop test: a tolerance test holds or k > max_it (lines 94, 140, 188) |
| Iterations.RunFrom | Minimization.hpp:35-47 | the `while` loop: a pass, then stop in the new state if the stop test holds, go on from it if not, or hang in the line search (lines 83-95, 127-141, 171-189) |
| Iterations.Optimize | Minimization.hpp:27-35 | an optimiser: its start state, the gradient test before the loop, then the loop (lines 74-83, 116-127, 162-171) |
| Iterations.PassOfRun | Minimization.hpp:35-47 | after a pass the run stops if the stop test holds and goes on from the new state if not |
| Iterations.RunFromBounds | Minimization.hpp:35-47 | each pass adds 1 to k, so a run stops or hangs with k between the old k and the cap; when it stops, one of the tolerance tests held or k is exactly the cap |
| Iterations.IterationCap | Minimization.hpp:46 | every run stops, or ends in `LineSearchHangs` with k at most the cap; a run that stops has k between the first value and the cap, and if no tolerance test held then k is the cap, which is max_it + 1 whenever max_it is at least the first k (lines 94, 140, 188) |
| Iterations.ZeroIterations | Minimization.hpp:32-35 | the run ends in the start state, with no pass, if and only if `norm2(Grad(x))` is below e_r at the start point (lines 79, 123, 169) |
| Iterations.StartPoints | Minimization.hpp:74-79 | HB and NESTEROV start from x0 - a0·Grad(x0) with x_prev = x0 and k = 1, and GD and ADAM from x0 with k = 0; each returns its start state when the start gradient is small (lines 116-123) |
| Iterations.PassCoherent | Minimization.hpp:41-44 | a GD pass moves to x - a·Grad(x), where a is a0 in the first pass and Alpha(k, x) after pass k; every pass keeps the gradient at x and the rate of its own counter |
| Iterations.RunFromCoherent | Minimization.hpp:35-47 | coherence of a and the gradient holds in the state where any run stops |
| Iterations.FinalStateCoherent | Minimization.hpp:43-44 | the state an optimiser stops in holds the gradient at its x and the learning rate computed for its counter and x |
| Iterations.MomentumVanishes | Minimization.hpp:87-89 | the momentum term is zero, so an HB pass is a GD pass, and so is a NESTEROV pass (y is x) when the stored gradient is the one at x (lines 131-135) |
| Iterations.MomentumRunIsGradientDescent | Minimization.hpp:83-95 | from a state holding the gradient at its x, HB and NESTEROV run exactly as GD does (lines 127-141) |
| Iterations.HeavyBallIsNesterov | Minimization.hpp:71-153 | HB and NESTEROV compute the same run, namely GD started from x0 - a0·Grad(x0) with k = 1 |
| Iterations.RunFromStops | Data.hpp:115-166 | a run without the Armijo rule never hangs |
| Iterations.OnlyGradientDescentSearches | Data.hpp:139-145 | when the algorithm code names HB, NESTEROV or ADAM, the Armijo rule is refused and that optimiser's run always stops |
| Iterations.AdamUpdate | Minimization.hpp:171-183 | a pass of ADAM keeps x, m and v of length n, runs with k >= 1, and updates every coordinate by the moment averages and the bias-corrected step |
| Iterations.DescentPassOfRun | Minimization.hpp:37-46 | a GD, HB or NESTEROV pass from given loop variables moves to the state whose run is the rest of the old one |
| Iterations.DescentHangs | Minimization.hpp:43 | a GD, HB or NESTEROV pass whose line search never returns ends the run |
| Iterations.AdamPassOfRun | Minimization.hpp:173-188 | an ADAM pass built from the inner loop's coordinates moves to the state whose run is the rest of the old one |
| Iterations.AdamHangs | Minimization.hpp:185 | an ADAM pass whose line search never returns ends the run |
| Minimization.DescentStep | Minimization.hpp:41 | `x - a * gradient` is Minus(x, Times(a, g)) |
| Minimization.Extrapolate | Minimization.hpp:133 | `x + eta * (x - x_prev)` is Plus(x, Times(eta, Minus(x, x_prev))) (also line 89) |
| Minimization.Distance | Minimization.hpp:46 | `norm2(x - x_prev)` is the norm of Minus(x, x_prev) |
| Minimization.GradientDescent | Minimization.hpp:24-65 | the loop computes the run `Optimize` defines for GD |
| Minimization.GradientDescentPass | Minimization.hpp:37-46 | one pass adds 1 to k, keeps the dimensions, and leaves variables whose run is the rest of the old run, or reports the hanging line search |
| Minimization.HeavyBall | Minimization.hpp:71-107 | the loop computes the run `Optimize` defines for HB |
| Minimization.HeavyBallPass | Minimization.hpp:85-94 | one HB pass continues the run as `GradientDescentPass` does for GD |
| Minimization.Nesterov | Minimization.hpp:113-153 | the loop computes the run `Optimize` defines for NESTEROV |
| Minimization.NesterovPass | Minimization.hpp:129-140 | one NESTEROV pass, through y and Grad(y), continues the run as `GradientDescentPass` does for GD |
| Minimization.Adam | Minimization.hpp:159-201 | the loop computes the run `Optimize` defines for ADAM |
| Minimization.AdamPass | Minimization.hpp:173-188 | one ADAM pass continues the run as `GradientDescentPass` does for GD |
| Minimization.AdamCoordinatesInPlace | Minimization.hpp:176-183 | the in-place loop keeps the lengths, and afterwards every x[i], m[i], v[i] is the `AdamCoordinate` of the old values |
| Minimization.Minimize | Minimization.hpp:205-230 | codes 0..3 run GD, HB, NESTEROV or ADAM and return that run; any other code returns the failure value holding n NaNs |

## Left out

- Reading and parsing the JSON file in the `Data` constructor (Data.hpp:68-103). A `Data` value holds the parsed fields, and the defaults of `data.value` are not modelled.
- mu_Sfun.hpp and mu_Vfun.hpp, and the muParser library they wrap, are not part of this model. The objective and the closed-form gradient are arbitrary functions. The closed form is required to return vectors of the problem's dimension (`GradientWellDefined`), in place of the dimension check of mu_Vfun.hpp.
- All console output: `printVector`, the messages of the `Data` constructor, of each optimiser and of `minimize`, and main.cpp. The `k == max_it` test only chooses which message to print. It is false whenever the cap is what stopped the loop, but it changes no result.
- Floating-point arithmetic. Rounding, overflow and NaN propagation are not modelled. `minimize`'s NaN vector is the failure value `NotANumber(n)`.
- The values of `std::sqrt` and `std::exp`. They are the fields of `MathLib`. Nothing is assumed about `exp`. About the square root, `Sound` is assumed by ADAM's proofs and by `Utilities.Norm2`, `Utilities.Norm2Zero` and `Utilities.Norm2Below`.
- Convergence and accuracy: nothing is claimed about how close a run gets to a minimiser.
- Utilities.Armijo: the loop that never stops is modelled with a `fuel` bound on its halvings. `None` stands for "still running".
- Minimization.GradientDescent, Minimization.HeavyBall, Minimization.Nesterov, Minimization.Adam: a hanging line search ends the run as `LineSearchHangs(k)`. The program would never return.
- Parameters.Alpha, Parameters.Grad, Iterations.Optimize, Utilities.GradientFD, Utilities.CentredDifferences: they require conditions that the source does not check. By the model's convention these keep every division away from zero, though they are stronger than that needs (gamma = 0 keeps 1 - gamma^k at 1, and a negative mu makes 1 + mu·k zero only when -1/mu is a whole number):
  - `hFD != 0` for the finite differences;
  - `mu >= 0` for the inverse decay;
  - for ADAM, decay factors strictly between 0 and 1, a positive `eps` and a sound square root.
- Parameters.Data: `sigma` is never assigned by the constructor (Data.hpp:39). It is an unconstrained field.
- Iterations.State: for GD, HB and NESTEROV, `m` and `v` are empty. Nesterov's `y` is a local of its pass instead of a variable of the whole loop, and its value after the loop is never used.
- Minimization.GradientDescentPass, Minimization.HeavyBallPass, Minimization.NesterovPass, Minimization.AdamPass: each loop body is a method that takes the loop variables and returns their new values. In the source the body is inline, but the statements and their order are the same.
- `std::function` and the lambdas capturing `this` (Data.hpp:118-177): the chosen lambda is replaced by the functions `Alpha` and `Grad`, which select their rule from the parsed fields on each call.
