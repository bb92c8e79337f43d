# Inverted-pendulum controllers, modelled in Dafny

This project models the decision and bookkeeping logic of a browser
simulator for an inverted pendulum on a cart. The simulator compares three
controllers:

- a hand-written Mamdani fuzzy inference system (FIS);
- a genetic optimiser that searches for new rule consequents and blend
  weights for that FIS;
- a small neural network trained to imitate the FIS.

There is one module per JavaScript file:

| file | module | what it holds |
|---|---|---|
| wrappers.dfy | `Wrappers` | `Option` (JavaScript `null`, `undefined` and `NaN` all become `None`) and the `x \|\| fallback` idiom on numbers |
| utils.dfy | `Utils` | angle conversion, clamp, mean and standard deviation, linspace, dense matrices as sequences of rows, ReLU, and the stop logic the two training loops share |
| fis.dfy | `Fuzzy` | triangular membership functions, fuzzification, the two nine-rule tables with min/max evaluation, weighted-average defuzzification, the controller |
| pendulum.dfy | `Pendulum` | the `PendulumSimulation` class: state, `reset`, the Euler step with the track clamp, the history capped at 1000 samples, `isStabilized` and the performance metrics |
| genetic.dfy | `Genetic` | individuals, random rules, tournament selection, crossover, mutation, the fitness formula, one generation, and the `GeneticFuzzySystem` class |
| neural.dfy | `Neural` | network allocation and Glorot bounds, the forward pass, softmax, input preparation, output defuzzification, the target vector, one SGD step per sample, epochs, and the `NeuroFuzzySystem` class |

## How the model is built

- **Numbers.** JavaScript numbers are Dafny `real`s. Integer counts are
  `int`, and a `for (i = 0; i < n; i++)` loop runs `Max0(n)` times.
- **Randomness.** Every `Math.random()` is a `Draw`, a real in [0, 1), passed
  in as a parameter. Loops take streams of draws (`nat -> Draw`, or a record
  of streams).
- **`exp` and `sqrt`.** They are function parameters. The proofs assume
  only what they need: `exp` is positive, and `sqrt` maps non-negative
  numbers to non-negative numbers.
- **Mutable objects.** Objects whose methods update fields are classes with
  `modifies` clauses: `PendulumSimulation`, `GeneticFuzzySystem` and
  `NeuroFuzzySystem`.
  - Each method's `ensures` states the new value of every field it may
    change, as a function of the old state or field by field. The two train
    loops state it through the generations or epochs they ran
    (`GenerationsRan`, `Epochs`); the generation counter follows from
    `Valid()`, which ties it to the length of the log.
  - Each class keeps a `Valid()` invariant.
- **Loops.** Loops that fill arrays or accumulate sums are methods. Each is
  proved equal to a specification function, and lemmas state what the
  source promises about that function.
- **Default options.** `||` defaults are modelled exactly: an option of 0 is
  falsy and becomes the default.
- **Errors.** Where the JavaScript throws, the model returns `None` or an
  error outcome:
  - a `TypeError` from reading `hidden[-1]`;
  - a `RangeError` from `new Array(negative)`;
  - reading the best member of an empty population.

## Model

| member | source | states |
|---|---|---|
| Wrappers.OrElse | js/pendulum.js:7-22 | `x \|\| fallback` on a number: a present non-zero value is kept; an absent value and 0 both give the fallback |
| Wrappers.CountOrElse | js/genetic.js:8-11 | the same defaulting on counts; a population size or generation count of 0 becomes the default |
| Utils.DegToRad | js/utils.js:12-14 | conversion to radians keeps the sign: positive iff the degrees are positive, negative iff negative |
| Utils.RadToDeg | js/utils.js:16-18 | conversion to degrees keeps the sign in both directions |
| Utils.DegreesRoundTrip | js/utils.js:12-18 | radToDeg(degToRad(d)) == d |
| Utils.RadiansRoundTrip | js/utils.js:12-18 | degToRad(radToDeg(r)) == r |
| Utils.Clamp | js/utils.js:21-23 | the result never exceeds max; it is at least min when min <= max; it equals the value when the value is in range; it is always one of value, min, max |
| Utils.Random | js/utils.js:36-38 | utils.random(min, max) lies in [min, max) whenever min < max |
| Utils.Pick | js/genetic.js:199-200 | `Math.floor(Math.random() * n)` is an index below n and the floor of draw * n |
| Utils.SumBounds | js/utils.js:93-95 | entries in [lo, hi] give a sum in [n*lo, n*hi] |
| Utils.SumPermutation | js/genetic.js:312 | a reordered array sums to the same total, so the average of the sorted population is that of the population in any order |
| Utils.Mean | js/utils.js:93-95 | the mean is NaN (`None`) exactly for the empty array |
| Utils.MeanWithinBounds | js/utils.js:93-95 | the mean of a non-empty array lies between any lower and upper bound of its entries |
| Utils.Squares | js/pendulum.js:206 | `map(x => x * x)` keeps the length and every square is non-negative |
| Utils.SumNonNegative | js/utils.js:93-95 | non-negative entries have a non-negative sum |
| Utils.MeanOfSquaresNonNegative | js/utils.js:98-102 | the variance term of standardDeviation is never negative |
| Utils.StandardDeviation | js/utils.js:98-102 | NaN (`None`) exactly for the empty array; otherwise non-negative for a square root that is non-negative on non-negative arguments |
| Utils.Linspace | js/utils.js:112-115 | NaN entries (`None`) exactly when num == 1; otherwise num entries, the first is start and the last is end for num >= 2, and consecutive entries differ by the same step |
| Utils.Zeros | js/utils.js:118-120 | a rows x cols matrix of zeros |
| Utils.Ones | js/utils.js:123-125 | a rows x cols matrix of ones |
| Utils.Eye | js/utils.js:128-132 | a size x size matrix with entry 1 on the diagonal and 0 elsewhere |
| Utils.Transpose | js/utils.js:135-137 | undefined (`None`) for an empty matrix, which throws; otherwise a cols x rows matrix with t[j][i] == m[i][j] |
| Utils.TransposeTwice | js/utils.js:135-137 | transposing a non-empty matrix twice gives it back |
| Utils.ProductRow | js/utils.js:141-151 | one row of the product has b's column count |
| Utils.Product | js/utils.js:140-153 | the product has a.length rows and b[0].length columns; entry [i][j] is the sum over k < a[0].length of a[i][k] * b[k][j] |
| Utils.DotColumnWithEye | js/utils.js:128-153 | a row times column j of the identity picks entry j |
| Utils.ProductWithIdentity | js/utils.js:128-153 | multiplying by the identity of matching size changes nothing |
| Utils.MatrixMultiply | js/utils.js:140-153 | the nested loops with a running sum compute exactly Product |
| Utils.Elementwise | js/utils.js:156-177 | the result has a's shape and each entry is a[i][j] + b[i][j], or a[i][j] - b[i][j] |
| Utils.SubtractUndoesAdd | js/utils.js:156-177 | matrixSubtract(matrixAdd(a, b), b) == a |
| Utils.ElementwiseLoop | js/utils.js:156-177 | the nested loops compute Elementwise |
| Utils.MatrixAdd | js/utils.js:156-165 | entry [i][j] is a[i][j] + b[i][j] over a's shape |
| Utils.MatrixSubtract | js/utils.js:168-177 | entry [i][j] is a[i][j] - b[i][j] over a's shape |
| Utils.Relu | js/utils.js:191-193 | relu(x) is non-negative, at least x, and either x or 0 |
| Utils.ReluDerivative | js/utils.js:196-198 | the derivative is 0 or 1, and 1 exactly when x > 0 |
| Utils.RoundsFromCount | js/genetic.js:360-370 | a training loop `i < limit && isTraining` runs at most limit rounds: exactly limit without a stop request, otherwise one more than the index of the first round after which stopTraining was called |
| Fuzzy.TriangularMF | js/fis.js:92-97 | the degree is in [0, 1]; 0 at or left of a; 0 right of c; 1 at the peak b when a < b; positive exactly inside (a, c) for a proper triangle |
| Fuzzy.RatioInUnit | js/fis.js:95-96 | the slopes of the triangle are ratios in [0, 1], equal to 1 only at the peak |
| Fuzzy.InputLabels | js/fis.js:14-50 | the four input variables are described by exactly the labels N, Z and P |
| Fuzzy.ThreeLabels | js/fis.js:14-50 | an input's membership set lists N, Z and P |
| Fuzzy.Fuzzified | js/fis.js:100-106 | the dictionary has exactly the labels of the membership set, and every degree is in [0, 1] |
| Fuzzy.FuzzifiedAt | js/fis.js:100-106 | each label maps to its own function's degree |
| Fuzzy.FuzzifiedThree | js/fis.js:100-106 | for an input the dictionary is {N: degree, Z: degree, P: degree} |
| Fuzzy.Fuzzify | js/fis.js:100-106 | the loop fills exactly Fuzzified |
| Fuzzy.OutputsContain | js/fis.js:109-142 | every rule's consequent appears among the labels the rules produce |
| Fuzzy.OutputsConcluded | js/fis.js:109-142 | every produced label is the consequent of some rule |
| Fuzzy.RuleTables | js/fis.js:63-88 | both rule tables name only input labels and conclude all five output labels |
| Fuzzy.RuleStrengths | js/fis.js:109-142 | the labels present are exactly the rules' consequents, and strengths are in [0, 1] when the input degrees are |
| Fuzzy.StrengthAtMostEntry | js/fis.js:118-124 | every rule's min-strength is at most the entry of its consequent |
| Fuzzy.AccumulateNeverLowers | js/fis.js:122-124 | the `!m[out] \|\| s > m[out]` update never lowers an entry and records at least s |
| Fuzzy.EntryIsSomeStrength | js/fis.js:118-124 | every entry is the strength of some rule with that consequent |
| Fuzzy.RuleStrengthIsMax | js/fis.js:109-142 | each output label holds the maximum, over the rules concluding it, of the minimum of the two antecedent degrees |
| Fuzzy.ApplyRuleTable | js/fis.js:113-126 | one rule loop fills exactly RuleStrengths |
| Fuzzy.ApplyRules | js/fis.js:109-142 | both loops give RuleStrengths of their tables, each with all five output labels |
| Fuzzy.WeightedSumBounds | js/fis.js:145-164 | with non-negative strengths and weight the total weight is non-negative and the weighted sum lies within plus or minus 20 times it |
| Fuzzy.DefuzzifiedBounds | js/fis.js:145-164 | with non-negative strengths and weights the force lies in [-20, 20] |
| Fuzzy.RatioWithin | js/fis.js:163 | a ratio of a sum bounded by plus or minus bound * total is within plus or minus bound |
| Fuzzy.AccumulateWeighted | js/fis.js:150-158 | one accumulation loop adds exactly the weighted sum and the total weight of its dictionary |
| Fuzzy.Defuzzify | js/fis.js:145-164 | defuzzify computes Defuzzified, and returns 0 whenever the total weight is 0 |
| Fuzzy.TablesReadInputs | js/fis.js:63-88 | the antecedents of both tables are input labels |
| Fuzzy.Strengths | js/fis.js:167-186 | fuzzifying two inputs and applying a table gives every consequent label a degree in [0, 1] |
| Fuzzy.ControlForce | js/fis.js:167-186 | the base controller's force always lies in [-20, 20] |
| Fuzzy.CalculateControlForce | js/fis.js:167-186 | the method computes ControlForce and so stays in [-20, 20] |
| Fuzzy.WeightedSumOnlyZ | js/fis.js:53-59 | a dictionary that is non-zero only at Z contributes nothing, since Z's centre is 0 |
| Fuzzy.TablesZeroToZero | js/fis.js:63-88 | in both tables the Z/Z rule concludes Z |
| Fuzzy.RestingStrengths | js/fis.js:109-142 | with every input at rest only Z has a non-zero strength |
| Fuzzy.FuzzifiedAtZero | js/fis.js:14-50 | at 0 each input is Z to degree 1 and N and P to degree 0 |
| Fuzzy.RestingWeightedSum | js/fis.js:145-164 | resting inputs give a zero weighted sum |
| Fuzzy.NothingWeighted | js/fis.js:145-164 | zero weighted sums give a zero force whatever the total weight |
| Fuzzy.RestingForce | js/fis.js:167-186 | with resting inputs and the 0.7/0.3 blend the force is 0 |
| Fuzzy.ControlForceUnfolded | js/fis.js:167-186 | the controller is fuzzify, then applyRules, then defuzzify with weights 0.7 and 0.3 |
| Fuzzy.ControlForceAtRest | js/fis.js:167-186 | at angle = angular velocity = position = velocity = 0 the force is exactly 0 |
| Fuzzy.MembershipFunctionsNamed | js/fis.js:189-198 | `this[type + 'MF']` is undefined (`None`) exactly for a name other than the five variables, and otherwise has distinct labels |
| Fuzzy.Curve | js/fis.js:193-195 | the curve has the range's length and entry k is the degree at range[k] |
| Fuzzy.Curves | js/fis.js:192-196 | one curve per label, each as long as the range and equal to Curve |
| Fuzzy.GetMembershipFunctionValues | js/fis.js:189-198 | `None` (the TypeError) exactly for an unknown variable; otherwise one curve per label, each as long as the range |
| Pendulum.InitialAngle | js/pendulum.js:13 | a present non-zero initial angle is converted to radians; an absent one or 0 gives 5 degrees |
| Pendulum.ZeroInitialAngleBecomesFive | js/pendulum.js:57 | an explicit initial angle of 0 starts the pendulum at 5 degrees, not upright |
| Pendulum.ControlForceFor | js/pendulum.js:79-87 | the force is 0 without a control system, otherwise the controller's answer in degrees |
| Pendulum.OnTrack | js/pendulum.js:115-121 | the position is clamped to the track, and the velocity is zeroed exactly when the cart is at the limit |
| Pendulum.FloorDivision | js/pendulum.js:124 | the floor of x / m places x between two consecutive multiples of m |
| Pendulum.FloorUnique | js/pendulum.js:124 | those multiples determine the floor |
| Pendulum.Truncate | js/pendulum.js:124 | JavaScript's `%` divides rounding toward zero |
| Pendulum.JsRemainder | js/pendulum.js:124 | JavaScript's `x % m` for m > 0 lies in [0, m) for x >= 0 and in (-m, 0] for x < 0: it takes the sign of x |
| Pendulum.WrapAngleAsWritten | js/pendulum.js:124 | the normalisation as written lands in [-PI, PI) only for angles from -PI upward |
| Pendulum.WrapAngleAsWrittenMissesBelowMinusPi | js/pendulum.js:124 | an angle of -4 radians is left at -4, below -PI |
| Pendulum.WrapAngle | js/pendulum.js:123-124 | the corrected normalisation always lands in [-PI, PI) and leaves angles already there alone |
| Pendulum.WrapAnglePeriodic | js/pendulum.js:123-124 | a whole turn more gives the same normalised angle |
| Pendulum.WrapAngleAgreesFromMinusPi | js/pendulum.js:124 | from -PI upward the code as written and the corrected normalisation agree |
| Pendulum.EulerStep | js/pendulum.js:107-121 | the new angular velocity adds angularAcceleration * dt, the angle moves by the new angular velocity times dt, and the cart is clamped to the track with its velocity zeroed at the limit |
| Pendulum.Advance | js/pendulum.js:107-124 | the step with the corrected normalisation: the Euler step's velocities and track clamp, and an angle always in [-PI, PI) |
| Pendulum.AdvanceAsWritten | js/pendulum.js:107-124 | the step as written: the same velocities and clamp, and an angle in [-PI, PI) only when the stepped angle is not below -PI |
| Pendulum.AdvanceAgreesFromMinusPi | js/pendulum.js:112-124 | whenever the stepped angle is not below -PI the step as written and the corrected step are equal |
| Pendulum.AdvanceAsWrittenFallsThroughMinusPi | js/pendulum.js:108-124 | from -3.14 rad at -1 rad/s with no acceleration and dt = 0.01 the code as written stores -3.15, below -PI, while the corrected step wraps to a positive angle |
| Pendulum.AdvanceIsEulerInside | js/pendulum.js:107-124 | inside the track and the angle range the step is the plain Euler step |
| Pendulum.Window | js/pendulum.js:137-146 | the capped column has at most 1000 entries, and it is the whole column when the column is not longer |
| Pendulum.Recorded | js/pendulum.js:129-146 | recording keeps the six columns aligned, grows them by one up to the cap of 1000, and ends them with the new time |
| Pendulum.RecordedIsWindow | js/pendulum.js:129-146 | every column after recording is the last 1000 entries of the old column plus the new value |
| Pendulum.RecordedEndsWithSample | js/pendulum.js:130-135 | the newest row of every column is the sample just recorded |
| Pendulum.WindowSlides | js/pendulum.js:137-146 | evicting the oldest entries step by step is the same as keeping the last 1000 of the whole log |
| Pendulum.SliceFrom | js/pendulum.js:180 | `slice(start)` drops the first start entries, or keeps the last -start entries for a negative start |
| Pendulum.RootMeanSquare | js/pendulum.js:205-208 | NaN (`None`) exactly for an empty history, otherwise non-negative |
| Pendulum.Energy | js/pendulum.js:210-212 | NaN (`None`) exactly for an empty history, otherwise non-negative at a non-negative time |
| Pendulum.FindAtLeast | js/pendulum.js:217 | `findIndex(t => t >= target)` is the first index whose time reaches the target, or -1 (`None`) when none does |
| Pendulum.FirstStableFrom | js/pendulum.js:188-203 | the scan from p returns the least index at or after p that is below 5 degrees and stays within 5 degrees for the next 300 samples, or `None` when no such index exists |
| Pendulum.StabilizationTimeOf | js/pendulum.js:186-203 | null exactly when no index qualifies; otherwise the time of the first qualifying index |
| Pendulum.PerformanceMetrics | js/pendulum.js:185-230 | the metrics of a state: its stabilisation time, the RMS of its angles, mean squared force times time, and the standard deviation of the angles from the first time reaching the stabilisation time, present exactly when a stabilisation time is |
| Pendulum.Initial | js/pendulum.js:5-38 | the constructor's state is valid: time 0, an empty history, not running and no control system |
| Pendulum.ResetState | js/pendulum.js:56-72 | reset gives the constructor's motion, time 0 and an empty history, keeps the physics, dt, the limit, running and the control system, and keeps a valid state valid |
| Pendulum.ResetOfInitial | js/pendulum.js:5-72 | resetting a fresh simulation with its own options changes nothing |
| Pendulum.Moved | js/pendulum.js:79-127 | the motion part of update: time advances by dt, the angle lands in [-PI, PI), the cart stays on the track, and every other field, the history included, is kept |
| Pendulum.WithSample | js/pendulum.js:129-146 | the history part of update: only the history changes; it grows by one up to the cap of 1000, stays aligned, and its newest row holds the angle in degrees and the force used |
| Pendulum.Updated | js/pendulum.js:75-156 | a paused update changes nothing and returns nothing; a running one advances time by dt and returns the new angle, velocities, position, time and the force it used |
| Pendulum.RunningUpdateBookkeeping | js/pendulum.js:75-156 | a running update keeps the state valid, advances time by exactly dt, keeps the physics and control system, and grows the history by one up to the cap |
| Pendulum.RunningUpdateOnTrack | js/pendulum.js:115-124 | after a running update the cart is on the track, stopped at the limit, and the angle is in [-PI, PI) |
| Pendulum.RunningUpdateRecords | js/pendulum.js:129-135 | the newest history row is the new state with the angles in degrees and the force used, which is 0 without a control system |
| Pendulum.UpdateKeepsClockForward | js/pendulum.js:127-130 | with a positive dt, time and every recorded time stay non-negative |
| Pendulum.PendulumSimulation.constructor | js/pendulum.js:5-38 | the new object's fields are the initial state |
| Pendulum.PendulumSimulation.SetControlSystem | js/pendulum.js:41-43 | only the control system changes |
| Pendulum.PendulumSimulation.Start | js/pendulum.js:46-48 | only running changes, to true |
| Pendulum.PendulumSimulation.Pause | js/pendulum.js:51-53 | only running changes, to false |
| Pendulum.PendulumSimulation.Reset | js/pendulum.js:56-72 | the motion is reinitialised, time is 0 and the history is empty; nothing else changes |
| Pendulum.PendulumSimulation.Update | js/pendulum.js:75-156 | the new fields and the returned record are those of Updated |
| Pendulum.PendulumSimulation.Move | js/pendulum.js:79-127 | the fields become Moved of the old state: the force, the Euler step with the clamp, the corrected normalisation and the clock |
| Pendulum.PendulumSimulation.Record | js/pendulum.js:129-146 | the six pushes and the eviction |
| Pendulum.PendulumSimulation.IsStabilized | js/pendulum.js:176-182 | false while the history is shorter than timeWindow / dt; otherwise true exactly when every one of the last floor(timeWindow / dt) angles is within the threshold (the whole history for a window under one sample) |
| Pendulum.PendulumSimulation.StabilizationIndex | js/pendulum.js:188-203 | the nested loops compute FirstStableFrom(angles, 0): the least index below 5 degrees with no angle above 5 degrees in the next 300 samples, or `None` |
| Pendulum.PendulumSimulation.StabilizationTime | js/pendulum.js:186-203 | the loop computes StabilizationTimeOf the history: null exactly when no index qualifies, otherwise the time of the first qualifying index |
| Pendulum.PendulumSimulation.Robustness | js/pendulum.js:214-222 | present exactly when a stabilisation time exists and some recorded time reaches it; then it is the standard deviation of the angles from there on |
| Pendulum.PendulumSimulation.CalculatePerformanceMetrics | js/pendulum.js:185-230 | the method returns PerformanceMetrics of the current state: the first stabilisation time, the RMS error, the energy and the robustness, null exactly when the stabilisation time is null |
| Genetic.Choice | js/genetic.js:64-65 | label k of NB, N, Z, P, PB is chosen exactly by draws in [k/5, (k+1)/5) |
| Genetic.RandomRules | js/genetic.js:59-69 | numRules genes (none for a non-positive count), the i-th being the label chosen by the i-th draw |
| Genetic.GenerateRandomRules | js/genetic.js:59-69 | numRules genes, the i-th chosen by the i-th draw |
| Genetic.RandomIndividual | js/genetic.js:39-52 | a new individual has nine genes per table, weights in [0, 1) and fitness 0 |
| Genetic.RandomPopulation | js/genetic.js:34-56 | populationSize individuals (none for a non-positive size), the i-th built from the i-th draws |
| Genetic.RandomIndividuals | js/genetic.js:34-56 | the population initializePopulation builds: populationSize well-formed individuals (none for a non-positive size), the i-th the random individual of the i-th draws, all unscored |
| Genetic.WithOutputs | js/genetic.js:149-183 | the base tables with an individual's consequents keep their antecedents and take the new outputs |
| Genetic.Consequents | js/fis.js:63-88 | the consequent column of a table |
| Genetic.OwnConsequents | js/genetic.js:157-177 | a table with its own consequents put back is unchanged |
| Genetic.WithOutputsReadsInputs | js/genetic.js:149-183 | new consequents keep a table reading only input labels |
| Genetic.WithOutputsAntecedents | js/genetic.js:149-183 | new consequents keep the antecedent labels present |
| Genetic.ForceFromIndividual | js/genetic.js:140-194 | an individual with non-negative weights yields a force within [-20, 20] |
| Genetic.BaseIndividualIsBaseController | js/genetic.js:140-194 | the individual with the base consequents and weights 0.7/0.3 computes exactly the base FIS force |
| Genetic.CalculateControlForceFromIndividual | js/genetic.js:140-194 | the two rule loops and defuzzify compute ForceFromIndividual |
| Genetic.Select | js/genetic.js:197-207 | the winner is one of the two drawn members, at least as fit as both, and the second on a tie |
| Genetic.CrossoverPoint | js/genetic.js:226 | the crossover point is below the length of a non-empty gene list |
| Genetic.SinglePoint | js/genetic.js:225-233 | the child has the first parent's length, its genes before the point and the second parent's from the point on |
| Genetic.CrossGenes | js/genetic.js:227-233 | the gene loop computes SinglePoint |
| Genetic.Crossover | js/genetic.js:210-250 | the method computes Crossed |
| Genetic.Crossed | js/genetic.js:210-250 | a draw above the rate copies parent 1, fitness included; otherwise the child has fitness 0, the mean weights, parent 1's gene lengths, and in each table parent 1's genes before that table's point and parent 2's from it on |
| Genetic.CrossoverOutcome | js/genetic.js:210-250 | crossing two well-formed parents gives a well-formed child; when crossover happens both points are in 0..8, so gene 8 of each table always comes from parent 2 |
| Genetic.MutatedGenes | js/genetic.js:258-271 | each gene is redrawn or kept according to its own draw |
| Genetic.MutateGenes | js/genetic.js:258-263 | the gene loop over a copy computes MutatedGenes |
| Genetic.Mutate | js/genetic.js:253-283 | the method computes Mutated |
| Genetic.MutatedGene | js/genetic.js:259-262 | a gene changes only on a draw below the rate, and on such a draw it becomes the label chosen by the replacement draw |
| Genetic.MutatedWeight | js/genetic.js:274-280 | a weight changes only on a draw below the rate, to the replacement draw; a weight in [0, 1) stays in [0, 1) |
| Genetic.Mutated | js/genetic.js:253-283 | mutation keeps the gene lengths and the fitness, even when genes change (the stale fitness of the source); only genes whose own draw is below the rate differ; a well-formed individual stays well formed |
| Genetic.NoHitsNoMutation | js/genetic.js:253-283 | without a draw below the rate mutation returns an equal copy |
| Genetic.Penalty | js/genetic.js:110-134 | the denominator of the fitness, with falsy metrics replaced by 45/1000/10/10, is at least 0.001 for non-negative metrics |
| Genetic.Fitness | js/genetic.js:110-134 | 1000 / (10e + 0.01E + s + 5r + 0.001) with falsy metrics replaced by 45/1000/10/10 is positive and at most 1000000 |
| Genetic.FitnessFallsAsPenaltyGrows | js/genetic.js:128-134 | a larger weighted error never gives a larger fitness |
| Genetic.ZeroMetricScoresAsMissing | js/genetic.js:110-119 | a metric of exactly 0 scores as its worst case, the same as a missing one |
| Genetic.UpdateKeepsValid | js/genetic.js:96 | one update keeps a simulation valid and its clock forward |
| Genetic.RunFrom | js/genetic.js:95-103 | the stepping loop on values, stopping after 500 updates or once the angle exceeds 45 degrees: the state stays valid and its clock forward |
| Genetic.RunFromStopsWhenFallen | js/genetic.js:95-103 | RunFrom is the state after some count of updates, at most the steps allowed and at least one when any is allowed; it stops early only on a state past 45 degrees, and no earlier state was past 45 degrees |
| Genetic.EvaluationStart | js/genetic.js:74-92 | the evaluation's simulation, started at 15 degrees with dt 0.02 and the individual as controller, is valid, running and with its clock forward |
| Genetic.Evaluation | js/genetic.js:72-137 | the fitness of an individual, the fitness of the metrics of RunFrom from the evaluation start, is positive and at most 1000000 |
| Genetic.EvaluateIndividual | js/genetic.js:72-137 | the method computes Evaluation: positive and at most 1000000 |
| Genetic.Run | js/genetic.js:94-103 | the stepping loop leaves the simulation in the state RunFrom gives, valid |
| Genetic.MetricsNonNegative | js/genetic.js:106 | the metrics of a simulation whose clock runs forward are never negative |
| Genetic.Rescored | js/genetic.js:299-302 | a member keeps its genes and ends with a positive fitness; a scored member is unchanged |
| Genetic.ScoredPopulation | js/genetic.js:298-303 | the evaluation loop on values: same length, well formed, each member Rescored |
| Genetic.ScoreUnscored | js/genetic.js:298-303 | the loop computes ScoredPopulation: every member with fitness 0 gets exactly Evaluation of itself as its fitness; every member keeps its genes and ends with a positive fitness; scored members are untouched |
| Genetic.Insert | js/genetic.js:306 | insertion adds exactly the one member |
| Genetic.InsertKeepsDescending | js/genetic.js:306 | inserting into a descending population keeps it descending |
| Genetic.InsertKeepsBound | js/genetic.js:306 | inserting keeps every fitness above a common bound |
| Genetic.InsertionSorted | js/genetic.js:306 | the sort by descending fitness: the result is descending and a permutation of the population |
| Genetic.InsertHead | js/genetic.js:306 | a member inserted into a descending population goes first exactly when it is strictly fitter than the current first |
| Genetic.EarliestFittestAppended | js/genetic.js:306 | appending a member keeps the earliest fittest index unless the new member is strictly fitter, in which case it becomes the earliest fittest |
| Genetic.SortedHeadIsEarliestFittest | js/genetic.js:306-309 | the first member after the sort is the earliest member of greatest fitness, as a stable sort gives |
| Genetic.SortByFitness | js/genetic.js:306 | the method computes InsertionSorted: descending and a permutation of the population |
| Genetic.SortedFirstIsFittest | js/genetic.js:306-309 | the first member after the sort is a member and is at least as fit as every member |
| Genetic.Child | js/genetic.js:327-331 | a child of a well-formed population is well formed; without crossover it keeps its first parent's fitness, with crossover its fitness is 0 |
| Genetic.Bred | js/genetic.js:319-334 | the new population has populationSize members (at least one), starts with the elite, and the rest are the children of the i-th draws, all well formed |
| Genetic.Breed | js/genetic.js:319-334 | the refill loop computes Bred |
| Genetic.Fitnesses | js/genetic.js:312 | the fitness column of the population |
| Genetic.PermutationKeepsWellFormed | js/genetic.js:306 | a reordering keeps every member well formed |
| Genetic.SortedScored | js/genetic.js:298-309 | sorting a scored population keeps its size, well-formedness and positive fitnesses, and puts a member at least as fit as every member first |
| Genetic.Ranked | js/genetic.js:298-309 | the population evaluated and sorted: descending, well formed, positive fitnesses, a permutation of the scored population, with the first at least as fit as every scored member |
| Genetic.Rank | js/genetic.js:298-309 | the method computes Ranked: descending, well formed, a permutation of the scored population, its first fitness positive and at least every previously scored fitness |
| Genetic.GenerationRecordOf | js/genetic.js:309-317 | the record of a generation: its number, the first fitness after the sort, and an average that is positive and at most the best |
| Genetic.RecordedAverage | js/genetic.js:312 | the recorded average is the mean fitness of the evaluated population in its order before the sort |
| Genetic.NextPopulation | js/genetic.js:297-337 | one generation on values: populationSize well-formed members (at least one), the ranked first member at their head |
| Genetic.Evolved | js/genetic.js:351-374 | after count generations the population is non-empty and well formed, of populationSize members (at least one) once a generation ran |
| Genetic.EvolvedStep | js/genetic.js:297-337 | no generation leaves the start population; one more generation breeds from the ranked current population with its first member as elite |
| Genetic.Records | js/genetic.js:312-317 | the log after count generations has count records, the k-th numbered k |
| Genetic.GenerationsRanStart | js/genetic.js:352-357 | before any generation train has only built its start population, with an empty log |
| Genetic.GenerationsRanStep | js/genetic.js:297-348 | after one more generation the population is the bred one, the best is the ranked first and the log gains that generation's record |
| Genetic.EliteKeepsBestFitness | js/genetic.js:319-322 | because the elite is kept, the best fitness of the next generation is at least that of this one |
| Genetic.ProgressLogExtended | js/genetic.js:313-317 | appending a record numbered after the log whose best fitness does not drop keeps the log numbered and non-decreasing |
| Genetic.GeneticFuzzySystem.constructor | js/genetic.js:6-31 | options with their `\|\|` defaults, a random population of that size, no best individual, an empty log |
| Genetic.GeneticFuzzySystem.InitializePopulation | js/genetic.js:34-56 | a fresh random population of the configured size; nothing else changes |
| Genetic.GeneticFuzzySystem.RunGeneration | js/genetic.js:297-348 | on an empty population nothing changes (the TypeError); otherwise the best individual is the first of Ranked, the new population is Bred from the ranked population with it as elite, the log gains GenerationRecordOf (number, best, mean), the counter grows by one and the returned record carries the new count; the best is at least as fit as every scored member and the recorded best fitness never drops |
| Genetic.GeneticFuzzySystem.Train | js/genetic.js:351-374 | a fresh population and log; it throws exactly for a non-positive size with generations to run; otherwise it runs as many generations as RoundsRun allows, the population, best individual and log being exactly those of that many generations from the fresh population (GenerationsRan), returns the best individual, whose fitness is the last recorded best, and clears isTraining |
| Genetic.GeneticFuzzySystem.TrainGenerations | js/genetic.js:360-373 | the generation loop of train: from GenerationsRan with an empty log it throws exactly for a non-positive size with generations to run, changing nothing, and otherwise ends in GenerationsRan after RoundsRun generations |
| Genetic.GeneticFuzzySystem.StopTraining | js/genetic.js:377-379 | only isTraining changes, to false |
| Genetic.GeneticFuzzySystem.CalculateControlForce | js/genetic.js:382-391 | without a best individual it is the base FIS force, otherwise the best individual's; always within [-20, 20] |
| Neural.Limit | js/neural.js:80 | the Glorot limit sqrt(6 / (in + out)) is positive |
| Neural.Spread | js/neural.js:81 | `Math.random() * 2 * limit - limit` lies in [-limit, limit) |
| Neural.Glorot | js/neural.js:74-85 | initializeWeights(in, out) is an in x out matrix |
| Neural.GlorotBounds | js/neural.js:74-85 | every initial weight lies in [-limit, limit) |
| Neural.InitializeWeights | js/neural.js:74-85 | the nested loops compute Glorot |
| Neural.InitialBiases | js/neural.js:43 | n biases, each in [-0.1, 0.1) |
| Neural.InitialNetwork | js/neural.js:31-71 | weights1 is 12 x n, hiddenLayers - 1 hidden n x n matrices and bias vectors, weightsOutput n x 5, biasesOutput of length 5 |
| Neural.InitialNetworkBounds | js/neural.js:31-71 | every initial weight is within its layer's Glorot limit and every bias in [-0.1, 0.1) |
| Neural.BuildNetwork | js/neural.js:38-70 | the allocation code builds InitialNetwork |
| Neural.MaxOf | js/neural.js:99 | `Math.max(...arr)` is an entry and bounds every entry |
| Neural.SumDivided | js/neural.js:102 | dividing every entry by a total divides the sum by it |
| Neural.SumPositive | js/neural.js:101 | positive entries have a positive sum |
| Neural.Softmax | js/neural.js:98-103 | for any positive exp, softmax keeps the length, every entry is positive, and the entries sum to 1 |
| Neural.Affine | js/neural.js:124-129 | one layer's z has the layer's size |
| Neural.ReluAll | js/neural.js:131 | each activation is non-negative and either z or 0 |
| Neural.HiddenPass | js/neural.js:118-136 | after count layers both lists have count vectors of n entries, and each activation is the ReLU of its z |
| Neural.HiddenPassStep | js/neural.js:118-136 | one more layer appends that layer's z and its ReLU |
| Neural.Forward | js/neural.js:106-153 | forwardPass throws (`None`) exactly when there are no hidden layers but there are neurons |
| Neural.ForwardShape | js/neural.js:106-153 | hiddenLayers pre- and post-activation vectors of length n, non-negative activations equal to the ReLU of z, and 5 outputs |
| Neural.LayerSums | js/neural.js:120-129 | the nested loops compute Affine |
| Neural.ForwardPass | js/neural.js:106-153 | the method computes Forward |
| Neural.Memberships | js/neural.js:159-171 | the three degrees of one variable, each in [0, 1] |
| Neural.PrepareInputs | js/neural.js:157-174 | 12 inputs, each in [0, 1] |
| Neural.MembershipsInOrder | js/neural.js:165-171 | each variable contributes the degrees of N, Z and P in that order |
| Neural.PreparedInputs | js/neural.js:157-174 | input 3v + m is the degree of variable v for label m, with the variables ordered angle, angular velocity, position, velocity |
| Neural.ConcatenatedTriples | js/neural.js:166-171 | four triples joined list their entries in order |
| Neural.Centroid | js/neural.js:177-197 | 0 when the weights sum to 0; otherwise the force times the sum of weights is the weighted sum of the centres |
| Neural.CenterSumBounds | js/neural.js:179-188 | non-negative weights give a weighted sum within plus or minus 20 times their total |
| Neural.CentroidBounds | js/neural.js:177-197 | non-negative weights defuzzify into [-20, 20] |
| Neural.DefuzzifyOutput | js/neural.js:177-197 | the loop computes Centroid |
| Neural.Scanned | js/neural.js:246-262 | after count centres the two indices are distinct, in range and present from the first and second centre on, with their distances recorded |
| Neural.ScannedNearest | js/neural.js:251-262 | the first index is a nearest centre and the second a nearest among the others |
| Neural.Interpolated | js/neural.js:264-280 | the interpolation step gives five weights |
| Neural.Normalized | js/neural.js:281-287 | the normalisation keeps five weights |
| Neural.TargetVector | js/neural.js:242-287 | the desired output has one entry per output label |
| Neural.CentersApart | js/neural.js:242 | different centres are at least 10 apart |
| Neural.Distance | js/neural.js:252 | the distance from a force to centre j is never negative and is 0 exactly at that centre |
| Neural.NormalizedShape | js/neural.js:281-287 | a vector whose sum exceeds 1e-6 is normalised to sum 1 |
| Neural.InterpolationWeights | js/neural.js:268-272 | the two interpolation weights are non-negative and add up to at least 1 |
| Neural.TargetShape | js/neural.js:242-287 | the target vector sums to 1, is non-negative, and is non-zero only at the two nearest centres |
| Neural.PairShape | js/neural.js:264-287 | interpolating between two distinct centres then normalising gives such a probability vector |
| Neural.NearestBracket | js/neural.js:251-262 | for a force in [-20, 20] the two centres the scan finds are 10 apart and the force lies between them |
| Neural.NearestTwoAdjacent | js/neural.js:251-262 | a nearest and a next-nearest centre of a force in [-20, 20] are 10 apart with distances summing to 10 |
| Neural.InterpolationRoundTrip | js/neural.js:271-272 | the weights abs(F - c2)/10 and abs(F - c1)/10 sum to 1 and recombine the centres into F |
| Neural.TwoWeights | js/neural.js:273-274 | a vector with two weights has their sum and their weighted centres |
| Neural.Divided | js/neural.js:284 | dividing every entry by a non-zero sum gives entries that, times the sum, are the old entries |
| Neural.DividedByOne | js/neural.js:284 | dividing by a sum of 1 changes nothing |
| Neural.PairRoundTrip | js/neural.js:264-287 | interpolating between the neighbouring centres that enclose the force, then normalising and defuzzifying, gives the force back |
| Neural.InterpolatedPair | js/neural.js:265-274 | for centres 10 apart the interpolation places the two weights at the two indices |
| Neural.NormalizedProbability | js/neural.js:281-287 | a vector summing to 1 is left as it is and defuzzifies to its weighted centre sum |
| Neural.TargetRoundTrip | js/neural.js:242-287 | for any force in [-20, 20], defuzzifyOutput of the target vector is the force |
| Neural.NearestCenters | js/neural.js:246-262 | the scan loop computes Scanned over all five centres |
| Neural.Normalize | js/neural.js:282-287 | the normalisation code computes Normalized |
| Neural.BuildTarget | js/neural.js:242-287 | the target code computes TargetVector |
| Neural.SampleFrom | js/neural.js:209-294 | a sample has 12 inputs and 5 desired outputs |
| Neural.SampleTeachesBaseController | js/neural.js:211-287 | a sample's desired output defuzzifies to the base FIS force at the drawn state |
| Neural.MakeSample | js/neural.js:210-294 | one iteration computes SampleFrom |
| Neural.GenerateTrainingData | js/neural.js:200-298 | numSamples samples, the i-th built from the i-th draws |
| Neural.OutputDelta | js/neural.js:345-348 | deltaOutput has the output's length |
| Neural.SquaredErrorSum | js/neural.js:332-335 | the sum of squared errors is non-negative |
| Neural.SampleLoss | js/neural.js:332-336 | the mean squared error of a sample is non-negative |
| Neural.BackDelta | js/neural.js:369-376 | a hidden delta is 0 at every neuron whose z is not positive, and the back-propagated error sum at the others |
| Neural.DeltaAt | js/neural.js:359-381 | the delta of every hidden layer has n entries |
| Neural.Stepped | js/neural.js:405-425 | a gradient step keeps a weight matrix's shape |
| Neural.BiasStepped | js/neural.js:411-413 | a gradient step keeps a bias vector's length |
| Neural.HiddenStepped | js/neural.js:398-426 | the hidden updates keep the shape and leave the output layer alone |
| Neural.HiddenSteppedLayer | js/neural.js:398-426 | each hidden layer's weights and biases take one gradient step along its own delta and the activation feeding it |
| Neural.Backward | js/neural.js:339-426 | the updates of one sample keep the network's shape |
| Neural.Learned | js/neural.js:324-426 | training on a sample throws (`None`) exactly in the failing configurations; otherwise the network keeps its shape and the loss is non-negative |
| Neural.OutputLayerStep | js/neural.js:384-396 | biasesOutput[j] moves by -lr * (output[j] - target[j]) and weightsOutput[i][j] by that times the last hidden activation i |
| Neural.InactiveNeuronKeepsWeights | js/neural.js:369-426 | the weights into and the bias of a hidden neuron whose z is not positive do not change |
| Neural.ZeroDeltaKeepsColumn | js/neural.js:405-425 | a zero delta leaves its weight column and bias unchanged |
| Neural.SquaredError | js/neural.js:332-336 | the loss loop computes SampleLoss |
| Neural.OutputErrors | js/neural.js:345-348 | the delta loop computes OutputDelta |
| Neural.LayerDelta | js/neural.js:369-376 | the nested loops compute BackDelta |
| Neural.Backpropagate | js/neural.js:353-381 | the downward loop computes DeltaAt for every hidden layer |
| Neural.SteppedEntries | js/neural.js:405-425 | each weight moves by -lr * delta[j] * input[i] and each bias by -lr * delta[j] |
| Neural.StepWeights | js/neural.js:406-410 | the weight loops compute Stepped |
| Neural.StepBiases | js/neural.js:411-413 | the bias loop computes BiasStepped |
| Neural.StepLayer | js/neural.js:405-425 | layer 0 updates weights1 and biases1; layer k > 0 updates hiddenWeights[k-1] and hiddenBiases[k-1]; nothing else changes |
| Neural.PartlyStepped | js/neural.js:399-426 | the network part-way through the downward loop keeps its shape |
| Neural.PartlySteppedStart | js/neural.js:399 | before the loop nothing is stepped |
| Neural.PartlySteppedStep | js/neural.js:399-426 | one pass steps exactly the current layer |
| Neural.PartlySteppedDone | js/neural.js:399-426 | after the loop every hidden layer is stepped |
| Neural.StepHiddenLayers | js/neural.js:398-426 | the downward loop computes HiddenStepped |
| Neural.LearnedUnfold | js/neural.js:324-426 | a sample that does not fail runs the forward pass, the deltas and the updates in that order |
| Neural.BackwardUnfold | js/neural.js:339-426 | the updates are the output-layer step followed by the hidden steps |
| Neural.LearnSample | js/neural.js:324-426 | one sample of train computes Learned: `None` exactly when it throws, otherwise a shaped network and a non-negative loss |
| Neural.ReorderedShaped | js/neural.js:319 | the shuffled copy keeps the length and the shape of every sample |
| Neural.EpochFrom | js/neural.js:324-427 | an epoch throws exactly in the failing configurations when samples remain; otherwise the network keeps its shape and every loss is non-negative |
| Neural.EpochFromDone | js/neural.js:324-427 | past the last sample an epoch returns what it was given |
| Neural.Epochs | js/neural.js:315-449 | count epochs throw exactly in the failing configurations; otherwise a shaped network and a log of count records numbered 0, 1, 2, ... with non-negative losses |
| Neural.EpochAfter | js/neural.js:318-438 | one more epoch after a log throws exactly in the failing configurations; otherwise the network stays shaped and the log keeps its records and gains one numbered after them with a non-negative average loss |
| Neural.LogExtended | js/neural.js:430-436 | logging the average loss keeps the log well numbered and non-negative |
| Neural.EpochsStep | js/neural.js:315-449 | one more epoch extends the network and the log by that epoch's result |
| Neural.TrainingData | js/neural.js:307 | 1000 shaped samples |
| Neural.NetworkForce | js/neural.js:463-475 | the network's force is `None` exactly when forwardPass throws, and otherwise lies in [-20, 20] |
| Neural.EpochSample | js/neural.js:324-426 | one pass of the sample loop adds that sample's loss to the total and keeps the loop invariant |
| Neural.RunEpoch | js/neural.js:321-427 | the sample loop computes EpochFrom with the total loss |
| Neural.NextEpoch | js/neural.js:316-436 | one epoch extends Epochs by one, or throws exactly in the failing configurations |
| Neural.NeuroFuzzySystem.constructor | js/neural.js:6-28 | options with their `\|\|` defaults, the initial network, an empty log |
| Neural.NeuroFuzzySystem.InitializeNetwork | js/neural.js:31-71 | a fresh network of the configured shape; nothing else changes |
| Neural.NeuroFuzzySystem.TrainEpoch | js/neural.js:315-436 | the epoch counter is set; on success the network and log are Epochs of one more epoch, on failure they are unchanged |
| Neural.NeuroFuzzySystem.Train | js/neural.js:301-454 | a fresh log; throws exactly when epochs run in a failing configuration; otherwise RoundsRun epochs, a log of that length equal to Epochs of the old network, and isTraining cleared |
| Neural.NeuroFuzzySystem.StopTraining | js/neural.js:458-460 | only isTraining changes, to false |
| Neural.NeuroFuzzySystem.CalculateControlForce | js/neural.js:463-475 | prepareInputs, forwardPass and defuzzifyOutput compute NetworkForce |

## Left out

- Rendering, DOM wiring and charts are not part of this model: js/visualization.js, js/graphs.js and js/main.js. The plotting script relatorio/generate_plots.py is not part of it either.
- Canvas helpers, mapRange, distance, sigmoid, tanh and normalize in js/utils.js are not used by the modelled logic and are not modelled. normalize divides by max - min with no guard.
- utils.randomInt is not modelled. The index draws of the optimiser are `Math.floor(Math.random() * n)` directly and are modelled by `Utils.Pick`.
- `Math.random`, `Math.exp` and `Math.sqrt` are parameters. The proofs use only that a draw is in [0, 1), that exp is positive, and that sqrt is non-negative on non-negative arguments.
- The equations of motion (`Math.sin`/`Math.cos`, js/pendulum.js:93-105) are an abstract `Accelerations` function. The Euler update, the clamp and the clock are modelled as written. The angle normalisation is modelled both as written (`Pendulum.AdvanceAsWritten`) and corrected (`Pendulum.Advance`); the simulation uses the corrected one (see "## Findings" and the lines below).
- Pendulum.Advance: uses the corrected `WrapAngle`, not the truncating `%` of js/pendulum.js:124. `Pendulum.AdvanceAgreesFromMinusPi` proves it equals `Pendulum.AdvanceAsWritten` whenever the stepped angle is not below -PI. `Pendulum.AdvanceAsWrittenFallsThroughMinusPi` shows a step where they differ.
- Pendulum.Moved: built on `Pendulum.Advance`, so it has the same difference from js/pendulum.js:124 below -PI.
- Pendulum.Updated: built on `Pendulum.Moved`, so it has the same difference below -PI.
- Pendulum.RunningUpdateOnTrack: states the angle bound of the corrected normalisation. The code as written keeps it only from -PI upward.
- Pendulum.PendulumSimulation.Update: computes `Pendulum.Updated`, so it has the same difference below -PI.
- Pendulum.PendulumSimulation.Move: computes `Pendulum.Moved`, so it has the same difference below -PI.
- Genetic.RunFrom: built on `Pendulum.Updated`, so an evaluation whose pendulum passes below -PI is not scored as the source scores it. The 45-degree break ends a run once the angle leaves [-45, 45] degrees, so the difference needs a single step that moves the angle by more than 2.3 radians.
- IEEE floating point is not modelled: no rounding, overflow or NaN propagation. The `=== 0` and `1e-6` guards are compared over reals.
- Update in place and aliasing are not modelled. Arrays the JavaScript mutates (network weights, history columns, the population) are `seq` values that the class methods reassign.
  - `cloneIndividual` therefore has no counterpart: a copy is the same value.
  - "Distinct object" claims about crossover copies are not expressible.
- The async `await setTimeout` yields and the `onProgress` callbacks of both train loops are left out. A `stopTraining` call during a yield is modelled as a stop request after that round (`stopRequested`).
- The shuffle comparator `Math.random() - 0.5` is not a well-defined sort order. It is a parameter that only reorders the data (the `Shuffles` predicate).
- Neural.NeuroFuzzySystem.Train: generateTrainingData also builds a simulation and resets it for every sample (js/neural.js:205-222). That simulation's state is never read, so it is omitted. The empty-data guard (js/neural.js:308-312) is dead for 1000 samples and is omitted.
- Neural.SampleLoss: divides by 5, the constant length of the output layer.
- Neural.DefuzzifyOutput: requires at most five outputs, which forwardPass always delivers. Longer arrays would read undefined centres.
- Neural.NeuroFuzzySystem.constructor: requires a non-negative neuronsPerLayer. A negative one makes `new Array` throw a RangeError.
- Genetic.Fitness: requires non-negative metrics, which `Genetic.MetricsNonNegative` proves for every simulation the optimiser runs.
- Genetic.EvaluateIndividual: requires nine genes per table, which every individual the optimiser builds has.
- Fuzzy.GetMembershipFunctionValues: the variable name is a closed set of the five property names plus `Other`. Arbitrary strings are not modelled.
- The getters getState, getHistory, getTrainingHistory, getFitnessHistory, getBestIndividual, getRuleVisualization and getNetworkVisualization only return fields or reshape them for display. getState and getHistory appear as `GetState` and `GetHistory` without contracts of their own.

## Findings

| source | as written | input that shows it | evidently intended | confidence | as-written member | corrected member |
|---|---|---|---|---|---|---|
| js/pendulum.js:124 | `((angle + PI) % (2 * PI)) - PI` with JavaScript's truncating `%` leaves any angle below -PI outside [-PI, PI) | angle = -4 radians: (-4 + PI) % 2PI is about -0.858, minus PI gives -4 again | normalise every angle into [-PI, PI) | not executed | Pendulum.WrapAngleAsWritten, Pendulum.WrapAngleAsWrittenMissesBelowMinusPi, Pendulum.AdvanceAsWritten, Pendulum.AdvanceAsWrittenFallsThroughMinusPi | Pendulum.WrapAngle, Pendulum.Advance |
