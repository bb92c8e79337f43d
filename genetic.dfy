/** The genetic optimiser of the fuzzy controller (js/genetic.js). An
    individual replaces the consequents of the nine pendulum rules and the
    nine cart rules and the two blend weights. The module holds the
    operators on individuals, the fitness formula, one generation and the
    training loop. Every `Math.random()` draw is a parameter. */
module Genetic {
  import opened Wrappers
  import opened Utils
  import opened Fuzzy
  import Pendulum

  // ---------------------------------------------------------------------------
  // Individuals
  // ---------------------------------------------------------------------------

  /** A candidate controller. A fitness of 0 marks an individual that has not
      been evaluated yet. */
  datatype Individual = Individual(
    pendulumRules: seq<Label>,
    cartRules: seq<Label>,
    pendulumWeight: real,
    cartWeight: real,
    fitness: real)

  /** Each rule table has nine rules, so an individual has nine genes per table. */
  const RuleCount: nat := 9

  /** What every individual the optimiser builds satisfies: nine genes per
      table, weights drawn from [0, 1) and a fitness that is never negative. */
  predicate WellFormed(individual: Individual)
  {
    |individual.pendulumRules| == RuleCount && |individual.cartRules| == RuleCount &&
    0.0 <= individual.pendulumWeight < 1.0 && 0.0 <= individual.cartWeight < 1.0 &&
    individual.fitness >= 0.0
  }

  /** The genes, weights and fitness agree except possibly the fitness. */
  predicate SameGenes(a: Individual, b: Individual)
  {
    a.pendulumRules == b.pendulumRules && a.cartRules == b.cartRules &&
    a.pendulumWeight == b.pendulumWeight && a.cartWeight == b.cartWeight
  }

  // ---------------------------------------------------------------------------
  // Random genes
  // ---------------------------------------------------------------------------

  /** `possibleOutputs[Math.floor(Math.random() * 5)]`: each output label
      is chosen by one fifth of [0, 1), in the order NB, N, Z, P, PB. */
  function Choice(d: Draw): (chosen: Label)
    ensures forall k :: 0 <= k < 5 ==>
      (chosen == OutputLabels[k] <==> (k as real) / 5.0 <= d < (k as real + 1.0) / 5.0)
  {
    var i := Pick(d, 5);
    assert forall k :: 0 <= k < 5 ==>
      (OutputLabels[i] == OutputLabels[k] <==> (k as real) / 5.0 <= d < (k as real + 1.0) / 5.0) by {
      forall k | 0 <= k < 5
        ensures OutputLabels[i] == OutputLabels[k] <==> (k as real) / 5.0 <= d < (k as real + 1.0) / 5.0
      {
        if (k as real) / 5.0 <= d < (k as real + 1.0) / 5.0 {
          assert (k as real) <= d * 5.0 < (k as real) + 1.0;
          assert i == k;
        } else {
          assert i != k;
          assert OutputLabels[i] != OutputLabels[k];
        }
      }
    }
    OutputLabels[i]
  }

  /** The genes generateRandomRules builds from the draws. */
  function RandomRules(numRules: nat, draws: nat -> Draw): (rules: seq<Label>)
    ensures |rules| == numRules
    ensures forall i :: 0 <= i < numRules ==> rules[i] == Choice(draws(i))
  {
    seq(numRules, i requires 0 <= i < numRules => Choice(draws(i)))
  }

  /** generateRandomRules: one gene per rule, the i-th chosen by the i-th draw. */
  method GenerateRandomRules(numRules: nat, draws: nat -> Draw) returns (rules: seq<Label>)
    ensures rules == RandomRules(numRules, draws)
    ensures |rules| == numRules
    ensures forall i :: 0 <= i < numRules ==> rules[i] == Choice(draws(i))
  {
    rules := [];
    for i := 0 to numRules
      invariant |rules| == i
      invariant forall k :: 0 <= k < i ==> rules[k] == Choice(draws(k))
    {
      rules := rules + [Choice(draws(i))];
    }
  }

  /** The draws one new individual of initializePopulation consumes. */
  datatype IndividualDraws = IndividualDraws(
    pendulumRules: nat -> Draw, cartRules: nat -> Draw, pendulumWeight: Draw, cartWeight: Draw)

  /** A member of the initial population: random genes and weights, unscored. */
  function RandomIndividual(draws: IndividualDraws): (individual: Individual)
    ensures WellFormed(individual) && individual.fitness == 0.0
  {
    Individual(RandomRules(RuleCount, draws.pendulumRules), RandomRules(RuleCount, draws.cartRules),
               draws.pendulumWeight, draws.cartWeight, 0.0)
  }

  /** The population initializePopulation builds: `size` random individuals,
      none when the size is not positive, all well formed and unscored. */
  function RandomIndividuals(size: int, draws: nat -> IndividualDraws): (population: seq<Individual>)
    ensures |population| == Max0(size) && AllWellFormed(population)
    ensures forall i :: 0 <= i < |population| ==>
      population[i] == RandomIndividual(draws(i)) && population[i].fitness == 0.0
  {
    var population := seq(Max0(size), i requires 0 <= i < Max0(size) => RandomIndividual(draws(i)));
    assert forall i :: 0 <= i < |population| ==> population[i] == RandomIndividual(draws(i));
    population
  }

  /** The loop of initializePopulation. */
  method RandomPopulation(size: int, draws: nat -> IndividualDraws) returns (population: seq<Individual>)
    ensures population == RandomIndividuals(size, draws)
  {
    population := [];
    var i := 0;
    while i < size
      invariant 0 <= i == |population| <= Max0(size)
      invariant forall k :: 0 <= k < i ==> population[k] == RandomIndividual(draws(k))
    {
      var d := draws(i);
      var pendulumRules := GenerateRandomRules(RuleCount, d.pendulumRules);
      var cartRules := GenerateRandomRules(RuleCount, d.cartRules);
      population := population + [Individual(pendulumRules, cartRules, d.pendulumWeight, d.cartWeight, 0.0)];
      i := i + 1;
    }
    assert forall k :: 0 <= k < |population| ==> population[k] == RandomIndividuals(size, draws)[k];
  }

  // ---------------------------------------------------------------------------
  // The controller an individual encodes
  // ---------------------------------------------------------------------------

  /** A base rule table with its consequents replaced. */
  function WithOutputs(rules: seq<Rule>, outputs: seq<Label>): (r: seq<Rule>)
    requires |outputs| == |rules|
    ensures |r| == |rules|
    ensures forall i :: 0 <= i < |rules| ==> r[i].first == rules[i].first && r[i].second == rules[i].second
    ensures forall i :: 0 <= i < |rules| ==> r[i].output == outputs[i]
  {
    seq(|rules|, i requires 0 <= i < |rules| => Rule(rules[i].first, rules[i].second, outputs[i]))
  }

  /** The consequents of a rule table. */
  function Consequents(rules: seq<Rule>): (outputs: seq<Label>)
    ensures |outputs| == |rules|
    ensures forall i :: 0 <= i < |rules| ==> outputs[i] == rules[i].output
  {
    seq(|rules|, i requires 0 <= i < |rules| => rules[i].output)
  }

  /** Putting back a table's own consequents gives the table. */
  lemma OwnConsequents(rules: seq<Rule>)
    ensures WithOutputs(rules, Consequents(rules)) == rules
  {
    var r := WithOutputs(rules, Consequents(rules));
    assert forall i :: 0 <= i < |rules| ==> r[i] == rules[i];
  }

  /** Replacing consequents keeps a table reading only input labels. */
  lemma WithOutputsReadsInputs(rules: seq<Rule>, outputs: seq<Label>)
    requires InputRules(rules) && |outputs| == |rules|
    ensures InputRules(WithOutputs(rules, outputs))
  {
  }

  /** Replacing consequents keeps the antecedents' labels. */
  lemma WithOutputsAntecedents(rules: seq<Rule>, outputs: seq<Label>, first: Degrees, second: Degrees)
    requires Antecedents(rules, first, second) && |outputs| == |rules|
    ensures Antecedents(WithOutputs(rules, outputs), first, second)
  {
  }

  /** calculateControlForceFromIndividual: the base fuzzification and rule
      antecedents, the individual's consequents and blend weights. */
  function ForceFromIndividual(individual: Individual, angle: real, angularVelocity: real, position: real,
                               velocity: real): (force: real)
    requires |individual.pendulumRules| == RuleCount && |individual.cartRules| == RuleCount
    ensures individual.pendulumWeight >= 0.0 && individual.cartWeight >= 0.0 ==> -20.0 <= force <= 20.0
  {
    InputLabels();
    TablesReadInputs();
    WithOutputsReadsInputs(PendulumRules, individual.pendulumRules);
    WithOutputsReadsInputs(CartRules, individual.cartRules);
    var pendulum := Strengths(WithOutputs(PendulumRules, individual.pendulumRules),
                              angle, AngleMF, angularVelocity, AngularVelocityMF);
    var cart := Strengths(WithOutputs(CartRules, individual.cartRules), position, PositionMF, velocity, VelocityMF);
    var force := Defuzzified(pendulum, cart, individual.pendulumWeight, individual.cartWeight);
    assert individual.pendulumWeight >= 0.0 && individual.cartWeight >= 0.0 ==> -20.0 <= force <= 20.0 by {
      if individual.pendulumWeight >= 0.0 && individual.cartWeight >= 0.0 {
        DefuzzifiedBounds(pendulum, cart, individual.pendulumWeight, individual.cartWeight);
      }
    }
    force
  }

  /** The individual that keeps the base consequents and the base weights
      0.7 and 0.3 is the base controller. */
  lemma BaseIndividualIsBaseController(fitness: real, angle: real, angularVelocity: real, position: real,
                                       velocity: real)
    ensures var base := Individual(Consequents(PendulumRules), Consequents(CartRules), 0.7, 0.3, fitness);
      ForceFromIndividual(base, angle, angularVelocity, position, velocity) ==
      ControlForce(angle, angularVelocity, position, velocity)
  {
    OwnConsequents(PendulumRules);
    OwnConsequents(CartRules);
  }

  /** calculateControlForceFromIndividual: fuzzify with the base membership
      functions, run the two rule loops with the individual's consequents and
      defuzzify with its weights. */
  method CalculateControlForceFromIndividual(individual: Individual, angle: real, angularVelocity: real,
                                             position: real, velocity: real) returns (force: real)
    requires |individual.pendulumRules| == RuleCount && |individual.cartRules| == RuleCount
    ensures force == ForceFromIndividual(individual, angle, angularVelocity, position, velocity)
  {
    InputLabels();
    var fuzzifiedAngle := Fuzzify(angle, AngleMF);
    var fuzzifiedAngularVelocity := Fuzzify(angularVelocity, AngularVelocityMF);
    var fuzzifiedPosition := Fuzzify(position, PositionMF);
    var fuzzifiedVelocity := Fuzzify(velocity, VelocityMF);
    RuleTables(fuzzifiedAngle, fuzzifiedAngularVelocity);
    RuleTables(fuzzifiedPosition, fuzzifiedVelocity);
    var pendulumRules := WithOutputs(PendulumRules, individual.pendulumRules);
    var cartRules := WithOutputs(CartRules, individual.cartRules);
    WithOutputsAntecedents(PendulumRules, individual.pendulumRules, fuzzifiedAngle, fuzzifiedAngularVelocity);
    WithOutputsAntecedents(CartRules, individual.cartRules, fuzzifiedPosition, fuzzifiedVelocity);
    var pendulumRuleStrengths := ApplyRuleTable(pendulumRules, fuzzifiedAngle, fuzzifiedAngularVelocity);
    var cartRuleStrengths := ApplyRuleTable(cartRules, fuzzifiedPosition, fuzzifiedVelocity);
    force := Defuzzify(pendulumRuleStrengths, cartRuleStrengths, individual.pendulumWeight, individual.cartWeight);
  }

  // ---------------------------------------------------------------------------
  // Selection, crossover and mutation
  // ---------------------------------------------------------------------------

  /** selectIndividual: a binary tournament between the two drawn members;
      the first wins only when strictly fitter. */
  function Select(population: seq<Individual>, first: Draw, second: Draw): (chosen: Individual)
    requires |population| > 0
    ensures var i, j := Pick(first, |population|), Pick(second, |population|);
      (chosen == population[i] || chosen == population[j]) &&
      chosen.fitness >= population[i].fitness && chosen.fitness >= population[j].fitness &&
      (population[i].fitness == population[j].fitness ==> chosen == population[j])
  {
    var i, j := Pick(first, |population|), Pick(second, |population|);
    if population[i].fitness > population[j].fitness then population[i] else population[j]
  }

  /** The draws one crossover consumes. */
  datatype CrossoverDraws = CrossoverDraws(decision: Draw, pendulumPoint: Draw, cartPoint: Draw)

  /** `Math.floor(Math.random() * length)`, which is 0 for an empty list. */
  function CrossoverPoint(d: Draw, length: nat): (point: nat)
    ensures point <= length && (length > 0 ==> point < length)
  {
    if length == 0 then 0 else Pick(d, length)
  }

  /** Single-point crossover: the first parent's genes before the point, the
      second's from the point on, as long as the first parent's list. */
  function SinglePoint(first: seq<Label>, second: seq<Label>, point: nat): (child: seq<Label>)
    requires point <= |first| <= |second|
    ensures |child| == |first|
    ensures forall i :: 0 <= i < |first| ==> child[i] == if i < point then first[i] else second[i]
  {
    first[..point] + second[point..|first|]
  }

  /** The gene loop of crossover. */
  method CrossGenes(first: seq<Label>, second: seq<Label>, point: nat) returns (child: seq<Label>)
    requires point <= |first| <= |second|
    ensures child == SinglePoint(first, second, point)
  {
    child := [];
    for i := 0 to |first|
      invariant |child| == i
      invariant forall k :: 0 <= k < i ==> child[k] == if k < point then first[k] else second[k]
    {
      if i < point {
        child := child + [first[i]];
      } else {
        child := child + [second[i]];
      }
    }
  }

  /** crossover: with a draw above the rate a copy of the first parent,
      fitness included; otherwise single-point crossover of both gene lists,
      the parents' mean weights and fitness 0. */
  function Crossed(parent1: Individual, parent2: Individual, rate: real, draws: CrossoverDraws): (child: Individual)
    requires |parent1.pendulumRules| <= |parent2.pendulumRules| && |parent1.cartRules| <= |parent2.cartRules|
    ensures draws.decision > rate ==> child == parent1
    ensures draws.decision <= rate ==>
      child.fitness == 0.0 &&
      child.pendulumWeight == (parent1.pendulumWeight + parent2.pendulumWeight) / 2.0 &&
      child.cartWeight == (parent1.cartWeight + parent2.cartWeight) / 2.0
    ensures |child.pendulumRules| == |parent1.pendulumRules| && |child.cartRules| == |parent1.cartRules|
    ensures draws.decision <= rate ==>
      var point := CrossoverPoint(draws.pendulumPoint, |parent1.pendulumRules|);
      forall i :: 0 <= i < |parent1.pendulumRules| ==>
        child.pendulumRules[i] == if i < point then parent1.pendulumRules[i] else parent2.pendulumRules[i]
    ensures draws.decision <= rate ==>
      var point := CrossoverPoint(draws.cartPoint, |parent1.cartRules|);
      forall i :: 0 <= i < |parent1.cartRules| ==>
        child.cartRules[i] == if i < point then parent1.cartRules[i] else parent2.cartRules[i]
  {
    if draws.decision > rate then parent1
    else
      Individual(
        SinglePoint(parent1.pendulumRules, parent2.pendulumRules,
                    CrossoverPoint(draws.pendulumPoint, |parent1.pendulumRules|)),
        SinglePoint(parent1.cartRules, parent2.cartRules, CrossoverPoint(draws.cartPoint, |parent1.cartRules|)),
        (parent1.pendulumWeight + parent2.pendulumWeight) / 2.0,
        (parent1.cartWeight + parent2.cartWeight) / 2.0,
        0.0)
  }

  method Crossover(parent1: Individual, parent2: Individual, rate: real, draws: CrossoverDraws)
    returns (child: Individual)
    requires |parent1.pendulumRules| <= |parent2.pendulumRules| && |parent1.cartRules| <= |parent2.cartRules|
    ensures child == Crossed(parent1, parent2, rate, draws)
  {
    if draws.decision > rate {
      return parent1;
    }
    var pendulumCrossoverPoint := CrossoverPoint(draws.pendulumPoint, |parent1.pendulumRules|);
    var pendulumRules := CrossGenes(parent1.pendulumRules, parent2.pendulumRules, pendulumCrossoverPoint);
    var cartCrossoverPoint := CrossoverPoint(draws.cartPoint, |parent1.cartRules|);
    var cartRules := CrossGenes(parent1.cartRules, parent2.cartRules, cartCrossoverPoint);
    child := Individual(pendulumRules, cartRules, (parent1.pendulumWeight + parent2.pendulumWeight) / 2.0,
                        (parent1.cartWeight + parent2.cartWeight) / 2.0, 0.0);
  }

  /** Crossover of two well-formed parents is well formed, and a crossed
      child switches from the first parent to the second at a point below
      nine, so its last genes always come from the second parent. */
  lemma CrossoverOutcome(parent1: Individual, parent2: Individual, rate: real, draws: CrossoverDraws)
    requires WellFormed(parent1) && WellFormed(parent2)
    ensures var child := Crossed(parent1, parent2, rate, draws);
      WellFormed(child) &&
      (draws.decision <= rate ==>
        CrossoverPoint(draws.pendulumPoint, RuleCount) < RuleCount &&
        CrossoverPoint(draws.cartPoint, RuleCount) < RuleCount &&
        child.pendulumRules[RuleCount - 1] == parent2.pendulumRules[RuleCount - 1] &&
        child.cartRules[RuleCount - 1] == parent2.cartRules[RuleCount - 1])
  {
  }

  /** The two draws one gene or weight consumes: whether it mutates, and the
      replacement. */
  datatype GeneDraws = GeneDraws(decision: Draw, replacement: Draw)

  /** The draws one mutation consumes. */
  datatype MutationDraws = MutationDraws(
    pendulumRules: nat -> GeneDraws, cartRules: nat -> GeneDraws, pendulumWeight: GeneDraws, cartWeight: GeneDraws)

  /** One gene of mutate: it changes only when its draw is below the rate,
      and then to a random label. */
  function MutatedGene(gene: Label, d: GeneDraws, rate: real): (mutated: Label)
    ensures mutated != gene ==> d.decision < rate
    ensures d.decision < rate ==> mutated == Choice(d.replacement)
  {
    if d.decision < rate then Choice(d.replacement) else gene
  }

  function MutatedGenes(genes: seq<Label>, draws: nat -> GeneDraws, rate: real): (mutated: seq<Label>)
    ensures |mutated| == |genes|
    ensures forall i :: 0 <= i < |genes| ==> mutated[i] == MutatedGene(genes[i], draws(i), rate)
  {
    seq(|genes|, i requires 0 <= i < |genes| => MutatedGene(genes[i], draws(i), rate))
  }

  /** One weight of mutate: it changes only when its draw is below the rate,
      and then to a draw in [0, 1), so a weight in [0, 1) stays there. */
  function MutatedWeight(weight: real, d: GeneDraws, rate: real): (mutated: real)
    ensures mutated != weight ==> d.decision < rate
    ensures d.decision < rate ==> mutated == d.replacement
    ensures 0.0 <= weight < 1.0 ==> 0.0 <= mutated < 1.0
  {
    if d.decision < rate then d.replacement else weight
  }

  /** mutate: every gene and weight whose draw is below the rate is redrawn;
      the fitness is copied from the original, so a mutated copy of a scored
      individual is never scored again. */
  function Mutated(individual: Individual, rate: real, draws: MutationDraws): (mutated: Individual)
    ensures mutated.fitness == individual.fitness
    ensures |mutated.pendulumRules| == |individual.pendulumRules| && |mutated.cartRules| == |individual.cartRules|
    ensures forall i :: 0 <= i < |individual.pendulumRules| && mutated.pendulumRules[i] != individual.pendulumRules[i] ==>
      draws.pendulumRules(i).decision < rate
    ensures forall i :: 0 <= i < |individual.cartRules| && mutated.cartRules[i] != individual.cartRules[i] ==>
      draws.cartRules(i).decision < rate
    ensures WellFormed(individual) ==> WellFormed(mutated)
  {
    individual.(pendulumRules := MutatedGenes(individual.pendulumRules, draws.pendulumRules, rate),
                cartRules := MutatedGenes(individual.cartRules, draws.cartRules, rate),
                pendulumWeight := MutatedWeight(individual.pendulumWeight, draws.pendulumWeight, rate),
                cartWeight := MutatedWeight(individual.cartWeight, draws.cartWeight, rate))
  }

  /** One gene loop of mutate, over a copy of the genes. */
  method MutateGenes(genes: seq<Label>, draws: nat -> GeneDraws, rate: real) returns (mutated: seq<Label>)
    ensures mutated == MutatedGenes(genes, draws, rate)
  {
    mutated := genes;
    for i := 0 to |mutated|
      invariant |mutated| == |genes|
      invariant forall k :: 0 <= k < i ==> mutated[k] == MutatedGene(genes[k], draws(k), rate)
      invariant forall k :: i <= k < |genes| ==> mutated[k] == genes[k]
    {
      if draws(i).decision < rate {
        mutated := mutated[i := Choice(draws(i).replacement)];
      }
    }
  }

  method Mutate(individual: Individual, rate: real, draws: MutationDraws) returns (mutated: Individual)
    ensures mutated == Mutated(individual, rate, draws)
  {
    mutated := individual;
    var pendulumRules := MutateGenes(mutated.pendulumRules, draws.pendulumRules, rate);
    var cartRules := MutateGenes(mutated.cartRules, draws.cartRules, rate);
    mutated := mutated.(pendulumRules := pendulumRules, cartRules := cartRules);
    if draws.pendulumWeight.decision < rate {
      mutated := mutated.(pendulumWeight := draws.pendulumWeight.replacement);
    }
    if draws.cartWeight.decision < rate {
      mutated := mutated.(cartWeight := draws.cartWeight.replacement);
    }
  }

  /** Without a draw below the rate mutation returns an equal copy. */
  lemma NoHitsNoMutation(individual: Individual, rate: real, draws: MutationDraws)
    requires forall i :: 0 <= i < |individual.pendulumRules| ==> draws.pendulumRules(i).decision >= rate
    requires forall i :: 0 <= i < |individual.cartRules| ==> draws.cartRules(i).decision >= rate
    requires draws.pendulumWeight.decision >= rate && draws.cartWeight.decision >= rate
    ensures Mutated(individual, rate, draws) == individual
  {
    assert MutatedGenes(individual.pendulumRules, draws.pendulumRules, rate) == individual.pendulumRules;
    assert MutatedGenes(individual.cartRules, draws.cartRules, rate) == individual.cartRules;
  }

  // ---------------------------------------------------------------------------
  // Fitness
  // ---------------------------------------------------------------------------

  /** No metric is negative. */
  predicate NonNegativeMetrics(m: Pendulum.Metrics)
  {
    (m.rootMeanSquaredError.Some? ==> m.rootMeanSquaredError.value >= 0.0) &&
    (m.energyConsumption.Some? ==> m.energyConsumption.value >= 0.0) &&
    (m.stabilizationTime.Some? ==> m.stabilizationTime.value >= 0.0) &&
    (m.robustness.Some? ==> m.robustness.value >= 0.0)
  }

  /** The weighted error of evaluateIndividual: each metric or, when it is
      null, NaN or 0, its worst case (45, 1000, 10 and 10), weighted 10, 0.01,
      1 and 5, plus 0.001. */
  function Penalty(m: Pendulum.Metrics): (penalty: real)
    ensures NonNegativeMetrics(m) ==> penalty >= 0.001
  {
    10.0 * OrElse(m.rootMeanSquaredError, 45.0) +
    0.01 * OrElse(m.energyConsumption, 1000.0) +
    1.0 * OrElse(m.stabilizationTime, 10.0) +
    5.0 * OrElse(m.robustness, 10.0) +
    0.001
  }

  /** fitness = 1000 / penalty: positive and at most 1000 / 0.001. */
  function Fitness(m: Pendulum.Metrics): (fitness: real)
    requires NonNegativeMetrics(m)
    ensures 0.0 < fitness <= 1000000.0
  {
    var penalty := Penalty(m);
    assert penalty >= 0.001;
    assert 1000.0 / penalty <= 1000.0 / 0.001 by {
      assert (1000.0 / penalty) * penalty == 1000.0;
    }
    1000.0 / penalty
  }

  /** A lower penalty never gives a lower fitness. */
  lemma FitnessFallsAsPenaltyGrows(m1: Pendulum.Metrics, m2: Pendulum.Metrics)
    requires NonNegativeMetrics(m1) && NonNegativeMetrics(m2)
    requires Penalty(m1) <= Penalty(m2)
    ensures Fitness(m1) >= Fitness(m2)
  {
    InverseFalls(Penalty(m1), Penalty(m2));
  }

  lemma InverseFalls(p1: real, p2: real)
    requires 0.0 < p1 <= p2
    ensures 1000.0 / p1 >= 1000.0 / p2
  {
    var f1, f2 := 1000.0 / p1, 1000.0 / p2;
    assert f1 * p1 == 1000.0;
    assert f2 * p2 == 1000.0;
    assert f2 * p1 <= f2 * p2 by {
      Pendulum.ProductSign(p2 - p1, f2);
      assert (p2 - p1) * f2 == f2 * p2 - f2 * p1;
    }
    assert (f1 - f2) * p1 == f1 * p1 - f2 * p1;
    Pendulum.ProductSign(f1 - f2, p1);
  }

  /** A metric of 0 is falsy: it scores as its worst case, exactly as a
      missing one. */
  lemma ZeroMetricScoresAsMissing(m: Pendulum.Metrics)
    requires NonNegativeMetrics(m)
    ensures Fitness(m.(rootMeanSquaredError := Some(0.0))) == Fitness(m.(rootMeanSquaredError := None))
    ensures Fitness(m.(energyConsumption := Some(0.0))) == Fitness(m.(energyConsumption := None))
    ensures Fitness(m.(stabilizationTime := Some(0.0))) == Fitness(m.(stabilizationTime := None))
    ensures Fitness(m.(robustness := Some(0.0))) == Fitness(m.(robustness := None))
  {
  }

  /** The options of the evaluation run: 15 degrees, at rest, dt = 0.02. */
  const EvaluationOptions: Pendulum.Options :=
    Pendulum.Options(None, None, None, None, Some(15.0), Some(0.0), Some(0.0), Some(0.0), None, Some(0.02))

  const MaxSteps: nat := 500

  /** The control system evaluateIndividual hands to its simulation. */
  function IndividualController(individual: Individual): Pendulum.Controller
    requires |individual.pendulumRules| == RuleCount && |individual.cartRules| == RuleCount
  {
    (angle: real, angularVelocity: real, position: real, velocity: real) =>
      ForceFromIndividual(individual, angle, angularVelocity, position, velocity)
  }

  /** The pendulum is more than 45 degrees off vertical. */
  predicate Fallen(s: Pendulum.SimState)
  {
    Abs(RadToDeg(s.motion.angle)) > 45.0
  }

  /** `count` calls of update. */
  function Steps(s: Pendulum.SimState, accelerations: Pendulum.Accelerations, count: nat): Pendulum.SimState
    decreases count
  {
    if count == 0 then s else Steps(Pendulum.Updated(s, accelerations).0, accelerations, count - 1)
  }

  /** update keeps a state valid and its clock running forward, whether or
      not the simulation is running. */
  lemma UpdateKeepsValid(s: Pendulum.SimState, accelerations: Pendulum.Accelerations)
    requires Pendulum.ValidState(s)
    ensures Pendulum.ValidState(Pendulum.Updated(s, accelerations).0)
    ensures Pendulum.ClockForward(s) ==> Pendulum.ClockForward(Pendulum.Updated(s, accelerations).0)
  {
    if s.running {
      Pendulum.RunningUpdateBookkeeping(s, accelerations);
    }
    if Pendulum.ClockForward(s) {
      Pendulum.UpdateKeepsClockForward(s, accelerations);
    }
  }

  /** The stepping loop of evaluateIndividual with `remaining` steps left:
      update, then stop once the pendulum has fallen or no step is left. */
  function RunFrom(s: Pendulum.SimState, accelerations: Pendulum.Accelerations, remaining: nat)
    : (r: Pendulum.SimState)
    requires Pendulum.ValidState(s)
    decreases remaining
    ensures Pendulum.ValidState(r)
    ensures Pendulum.ClockForward(s) ==> Pendulum.ClockForward(r)
  {
    if remaining == 0 then s
    else
      var next := Pendulum.Updated(s, accelerations).0;
      UpdateKeepsValid(s, accelerations);
      if Fallen(next) then next else RunFrom(next, accelerations, remaining - 1)
  }

  /** The loop ends after `count` updates: at most `remaining`, at least one
      when any is left, early only when the pendulum has fallen, and never
      past an update after which it had already fallen. */
  ghost predicate StopsAfter(s: Pendulum.SimState, accelerations: Pendulum.Accelerations, remaining: nat, count: nat)
    requires Pendulum.ValidState(s)
  {
    count <= remaining && (remaining > 0 ==> count > 0) &&
    RunFrom(s, accelerations, remaining) == Steps(s, accelerations, count) &&
    (count < remaining ==> Fallen(Steps(s, accelerations, count))) &&
    forall j :: 0 < j < count ==> !Fallen(Steps(s, accelerations, j))
  }

  /** The loop makes at most `remaining` updates, at least one when any is
      left, and stops early exactly at the first update after which the
      pendulum has fallen. */
  lemma {:induction false} RunFromStopsWhenFallen(s: Pendulum.SimState, accelerations: Pendulum.Accelerations,
                                                  remaining: nat)
    requires Pendulum.ValidState(s)
    decreases remaining
    ensures exists count: nat :: StopsAfter(s, accelerations, remaining, count)
  {
    hide Pendulum.Updated;
    if remaining == 0 {
      assert StopsAfter(s, accelerations, remaining, 0);
    } else {
      var next := Pendulum.Updated(s, accelerations).0;
      UpdateKeepsValid(s, accelerations);
      assert Steps(s, accelerations, 1) == next;
      if Fallen(next) {
        assert StopsAfter(s, accelerations, remaining, 1);
      } else {
        RunFromStopsWhenFallen(next, accelerations, remaining - 1);
        var count: nat :| StopsAfter(next, accelerations, remaining - 1, count);
        assert Steps(s, accelerations, count + 1) == Steps(next, accelerations, count);
        forall j | 0 < j < count + 1
          ensures !Fallen(Steps(s, accelerations, j))
        {
          assert Steps(s, accelerations, j) == Steps(next, accelerations, j - 1);
        }
        assert StopsAfter(s, accelerations, remaining, count + 1);
      }
    }
  }

  /** The simulation evaluateIndividual builds: 15 degrees, at rest,
      dt = 0.02, driven by the individual and started. */
  function EvaluationStart(individual: Individual): (s: Pendulum.SimState)
    requires |individual.pendulumRules| == RuleCount && |individual.cartRules| == RuleCount
    ensures Pendulum.ValidState(s) && Pendulum.ClockForward(s) && s.running
  {
    Pendulum.Initial(EvaluationOptions).(controlSystem := Some(IndividualController(individual)), running := true)
  }

  /** The fitness evaluateIndividual computes: the score of the metrics after
      at most 500 steps that stop once the pendulum has fallen. For a square
      root that is never negative it is positive. */
  function Evaluation(individual: Individual, accelerations: Pendulum.Accelerations, sqrt: real -> real)
    : (fitness: real)
    requires |individual.pendulumRules| == RuleCount && |individual.cartRules| == RuleCount
    requires forall y :: y >= 0.0 ==> sqrt(y) >= 0.0
    ensures 0.0 < fitness <= 1000000.0
  {
    var s := RunFrom(EvaluationStart(individual), accelerations, MaxSteps);
    MetricsNonNegative(s, sqrt);
    Fitness(Pendulum.PerformanceMetrics(s, sqrt))
  }

  /** evaluateIndividual: run a simulation driven by the individual for at
      most 500 steps, stopping once the pendulum is more than 45 degrees off,
      and score its metrics. The equations of motion and the square root are
      parameters. */
  method EvaluateIndividual(individual: Individual, accelerations: Pendulum.Accelerations, sqrt: real -> real)
    returns (fitness: real)
    requires |individual.pendulumRules| == RuleCount && |individual.cartRules| == RuleCount
    requires forall y :: y >= 0.0 ==> sqrt(y) >= 0.0
    ensures fitness == Evaluation(individual, accelerations, sqrt)
    ensures 0.0 < fitness <= 1000000.0
  {
    var simulation := new Pendulum.PendulumSimulation(EvaluationOptions);
    var controlSystem := IndividualController(individual);
    simulation.SetControlSystem(controlSystem);
    simulation.Start();
    assert simulation.State() == EvaluationStart(individual);
    Run(simulation, accelerations);
    var metrics := simulation.CalculatePerformanceMetrics(sqrt);
    MetricsNonNegative(simulation.State(), sqrt);
    fitness := Fitness(metrics);
  }

  /** The stepping loop of evaluateIndividual. */
  method Run(simulation: Pendulum.PendulumSimulation, accelerations: Pendulum.Accelerations)
    requires simulation.Valid()
    modifies simulation
    ensures simulation.State() == RunFrom(old(simulation.State()), accelerations, MaxSteps)
    ensures simulation.Valid()
  {
    for i := 0 to MaxSteps
      invariant simulation.Valid()
      invariant RunFrom(simulation.State(), accelerations, MaxSteps - i) ==
                RunFrom(old(simulation.State()), accelerations, MaxSteps)
    {
      var before := simulation.State();
      var _ := simulation.Update(accelerations);
      UpdateKeepsValid(before, accelerations);
      if Abs(RadToDeg(simulation.angle)) > 45.0 {
        assert Fallen(simulation.State());
        break;
      }
    }
  }

  /** The metrics of a simulation whose clock runs forward are never negative
      when the square root is not. */
  lemma MetricsNonNegative(s: Pendulum.SimState, sqrt: real -> real)
    requires Pendulum.ValidState(s) && Pendulum.ClockForward(s)
    requires forall y :: y >= 0.0 ==> sqrt(y) >= 0.0
    ensures NonNegativeMetrics(Pendulum.PerformanceMetrics(s, sqrt))
  {
    var metrics := Pendulum.PerformanceMetrics(s, sqrt);
    if metrics.stabilizationTime.Some? {
      var i: nat :| i < |s.history.time| && Pendulum.FirstStable(s.history.angle, i) &&
        metrics.stabilizationTime.value == s.history.time[i];
    }
  }

  // ---------------------------------------------------------------------------
  // One generation
  // ---------------------------------------------------------------------------

  predicate AllWellFormed(population: seq<Individual>)
  {
    forall i :: 0 <= i < |population| ==> WellFormed(population[i])
  }

  /** A member after the evaluation loop of runGeneration: evaluated when
      its fitness is 0, otherwise as it was. Either way it keeps its genes
      and ends with a positive fitness. */
  function Rescored(individual: Individual, accelerations: Pendulum.Accelerations, sqrt: real -> real)
    : (r: Individual)
    requires WellFormed(individual)
    requires forall y :: y >= 0.0 ==> sqrt(y) >= 0.0
    ensures WellFormed(r) && SameGenes(r, individual) && r.fitness > 0.0
    ensures individual.fitness != 0.0 ==> r == individual
  {
    if individual.fitness == 0.0 then individual.(fitness := Evaluation(individual, accelerations, sqrt))
    else individual
  }

  /** The population after the evaluation loop of runGeneration. */
  function ScoredPopulation(population: seq<Individual>, accelerations: Pendulum.Accelerations, sqrt: real -> real)
    : (scored: seq<Individual>)
    requires AllWellFormed(population)
    requires forall y :: y >= 0.0 ==> sqrt(y) >= 0.0
    ensures |scored| == |population| && AllWellFormed(scored)
    ensures forall i :: 0 <= i < |population| ==> scored[i] == Rescored(population[i], accelerations, sqrt)
  {
    seq(|population|, i requires 0 <= i < |population| => Rescored(population[i], accelerations, sqrt))
  }

  /** The evaluation loop of runGeneration: only individuals with fitness 0
      are evaluated, each with its own simulation; everyone else keeps its
      fitness. Afterwards every fitness is positive. */
  method ScoreUnscored(population: seq<Individual>, accelerations: Pendulum.Accelerations, sqrt: real -> real)
    returns (scored: seq<Individual>)
    requires AllWellFormed(population)
    requires forall y :: y >= 0.0 ==> sqrt(y) >= 0.0
    ensures scored == ScoredPopulation(population, accelerations, sqrt)
    ensures forall i :: 0 <= i < |population| && population[i].fitness == 0.0 ==>
      scored[i] == population[i].(fitness := Evaluation(population[i], accelerations, sqrt))
    ensures forall i :: 0 <= i < |population| ==> SameGenes(scored[i], population[i]) && scored[i].fitness > 0.0
    ensures forall i :: 0 <= i < |population| && population[i].fitness != 0.0 ==> scored[i] == population[i]
  {
    hide Evaluation;
    scored := population;
    for i := 0 to |population|
      invariant |scored| == |population|
      invariant forall k :: 0 <= k < i ==> scored[k] == Rescored(population[k], accelerations, sqrt)
      invariant forall k :: i <= k < |population| ==> scored[k] == population[k]
    {
      if scored[i].fitness == 0.0 {
        var fitness := EvaluateIndividual(scored[i], accelerations, sqrt);
        scored := scored[i := scored[i].(fitness := fitness)];
      }
    }
  }

  /** Fitness never increases along the sequence. */
  predicate Descending(population: seq<Individual>)
  {
    forall i, j :: 0 <= i < j < |population| ==> population[i].fitness >= population[j].fitness
  }

  /** Insert after every member at least as fit. */
  function Insert(sorted: seq<Individual>, x: Individual): (r: seq<Individual>)
    ensures multiset(r) == multiset(sorted) + multiset{x}
  {
    if |sorted| == 0 || sorted[|sorted| - 1].fitness >= x.fitness then sorted + [x]
    else
      var init := sorted[..|sorted| - 1];
      assert sorted == init + [sorted[|sorted| - 1]];
      Insert(init, x) + [sorted[|sorted| - 1]]
  }

  /** Inserting into a descending sequence keeps it descending. */
  lemma {:induction false} InsertKeepsDescending(sorted: seq<Individual>, x: Individual)
    requires Descending(sorted)
    ensures Descending(Insert(sorted, x))
  {
    if !(|sorted| == 0 || sorted[|sorted| - 1].fitness >= x.fitness) {
      var init, last := sorted[..|sorted| - 1], sorted[|sorted| - 1];
      var inserted := Insert(init, x);
      InsertKeepsDescending(init, x);
      InsertKeepsBound(init, x, last.fitness);
      var r := inserted + [last];
      assert forall i, j :: 0 <= i < j < |r| - 1 ==> r[i].fitness >= r[j].fitness;
    }
  }

  /** Inserting a member at least as fit as a bound into members at least as
      fit as it gives members at least as fit as it. */
  lemma {:induction false} InsertKeepsBound(sorted: seq<Individual>, x: Individual, bound: real)
    requires forall k :: 0 <= k < |sorted| ==> sorted[k].fitness >= bound
    requires x.fitness >= bound
    ensures forall k :: 0 <= k < |Insert(sorted, x)| ==> Insert(sorted, x)[k].fitness >= bound
  {
    if !(|sorted| == 0 || sorted[|sorted| - 1].fitness >= x.fitness) {
      InsertKeepsBound(sorted[..|sorted| - 1], x, bound);
    }
  }

  /** The order `sort((a, b) => b.fitness - a.fitness)` leaves: each member
      in turn inserted after every member at least as fit, so that the
      result is descending and a reordering of the population. */
  function InsertionSorted(population: seq<Individual>): (sorted: seq<Individual>)
    ensures Descending(sorted)
    ensures multiset(sorted) == multiset(population)
  {
    if |population| == 0 then []
    else
      var init, last := population[..|population| - 1], population[|population| - 1];
      assert population == init + [last];
      InsertKeepsDescending(InsertionSorted(init), last);
      Insert(InsertionSorted(init), last)
  }

  /** Inserting into a descending sequence puts the new member first exactly
      when it is strictly fitter than the current first member. */
  lemma {:induction false} InsertHead(sorted: seq<Individual>, x: Individual)
    requires Descending(sorted)
    ensures |sorted| > 0 && sorted[0].fitness >= x.fitness ==> Insert(sorted, x)[0] == sorted[0]
    ensures (|sorted| == 0 || sorted[0].fitness < x.fitness) ==> Insert(sorted, x)[0] == x
  {
    if !(|sorted| == 0 || sorted[|sorted| - 1].fitness >= x.fitness) {
      var init := sorted[..|sorted| - 1];
      assert Descending(init);
      InsertHead(init, x);
    }
  }

  /** Member k is the earliest of the fittest members. */
  predicate EarliestFittest(population: seq<Individual>, k: int)
  {
    0 <= k < |population| &&
    (forall j :: 0 <= j < |population| ==> population[k].fitness >= population[j].fitness) &&
    (forall j :: 0 <= j < k ==> population[j].fitness < population[k].fitness)
  }

  /** Appending a member keeps the earliest of the fittest unless the new
      member is strictly fitter, when it becomes the earliest fittest. */
  lemma EarliestFittestAppended(population: seq<Individual>, k: int)
    requires |population| > 1 && EarliestFittest(population[..|population| - 1], k)
    ensures population[k].fitness >= population[|population| - 1].fitness ==> EarliestFittest(population, k)
    ensures population[k].fitness < population[|population| - 1].fitness ==>
      EarliestFittest(population, |population| - 1)
  {
    var init := population[..|population| - 1];
    assert forall j :: 0 <= j < |init| ==> init[j] == population[j];
  }

  /** Among equally fit members the sort keeps the population's order, so
      the member that comes out first is the earliest of the fittest. */
  lemma {:induction false} SortedHeadIsEarliestFittest(population: seq<Individual>)
    requires |population| > 0
    ensures exists k :: EarliestFittest(population, k) && InsertionSorted(population)[0] == population[k]
  {
    var init, last := population[..|population| - 1], population[|population| - 1];
    var sorted := InsertionSorted(init);
    assert InsertionSorted(population) == Insert(sorted, last);
    InsertHead(sorted, last);
    if |init| == 0 {
      assert EarliestFittest(population, 0);
    } else {
      SortedHeadIsEarliestFittest(init);
      var k :| EarliestFittest(init, k) && sorted[0] == init[k];
      assert sorted[0] == population[k];
      EarliestFittestAppended(population, k);
      hide InsertionSorted, Insert, EarliestFittest;
      if sorted[0].fitness >= last.fitness {
        assert InsertionSorted(population)[0] == population[k];
      } else {
        assert InsertionSorted(population)[0] == population[|population| - 1];
      }
    }
  }

  /** The sort of runGeneration, descending by fitness. */
  method SortByFitness(population: seq<Individual>) returns (sorted: seq<Individual>)
    ensures sorted == InsertionSorted(population)
    ensures Descending(sorted)
    ensures multiset(sorted) == multiset(population)
  {
    sorted := [];
    for i := 0 to |population|
      invariant sorted == InsertionSorted(population[..i])
    {
      assert population[..i + 1][..i] == population[..i];
      sorted := Insert(sorted, population[i]);
    }
    assert population[..|population|] == population;
  }

  /** The sorted population's first member is at least as fit as any member. */
  lemma SortedFirstIsFittest(sorted: seq<Individual>, population: seq<Individual>)
    requires Descending(sorted) && multiset(sorted) == multiset(population) && |population| > 0
    ensures |sorted| == |population| && sorted[0] in population
    ensures forall i :: 0 <= i < |population| ==> sorted[0].fitness >= population[i].fitness
  {
    assert |sorted| == |multiset(sorted)| == |population|;
    assert sorted[0] in multiset(population);
    forall i | 0 <= i < |population|
      ensures sorted[0].fitness >= population[i].fitness
    {
      assert population[i] in multiset(sorted);
      var k :| 0 <= k < |sorted| && sorted[k] == population[i];
    }
  }

  /** The draws that produce one child: two tournaments, a crossover and a
      mutation. */
  datatype ChildDraws = ChildDraws(
    first1: Draw, second1: Draw, first2: Draw, second2: Draw, crossover: CrossoverDraws, mutation: MutationDraws)

  /** A child of the new population: the mutated offspring of two tournament
      winners. Children of well-formed parents are well formed. */
  function Child(population: seq<Individual>, crossoverRate: real, mutationRate: real, draws: ChildDraws)
    : (child: Individual)
    requires |population| > 0 && AllWellFormed(population)
    ensures WellFormed(child)
    ensures draws.crossover.decision > crossoverRate ==>
      child.fitness == Select(population, draws.first1, draws.second1).fitness
    ensures draws.crossover.decision <= crossoverRate ==> child.fitness == 0.0
  {
    var parent1 := Select(population, draws.first1, draws.second1);
    var parent2 := Select(population, draws.first2, draws.second2);
    CrossoverOutcome(parent1, parent2, crossoverRate, draws.crossover);
    Mutated(Crossed(parent1, parent2, crossoverRate, draws.crossover), mutationRate, draws.mutation)
  }

  /** The population runGeneration builds: the elite first, then children of
      the sorted population until the configured size, at least the elite. */
  function Bred(sorted: seq<Individual>, elite: Individual, size: int, crossoverRate: real, mutationRate: real,
                draws: nat -> ChildDraws): (next: seq<Individual>)
    requires |sorted| > 0 && AllWellFormed(sorted) && WellFormed(elite)
    ensures |next| == if size > 1 then size else 1
    ensures next[0] == elite && AllWellFormed(next)
    ensures forall i :: 1 <= i < |next| ==> next[i] == Child(sorted, crossoverRate, mutationRate, draws(i - 1))
  {
    var count := (if size > 1 then size else 1) - 1;
    var children := seq(count, i requires 0 <= i < count => Child(sorted, crossoverRate, mutationRate, draws(i)));
    assert forall i :: 0 <= i < count ==> children[i] == Child(sorted, crossoverRate, mutationRate, draws(i));
    assert AllWellFormed(children);
    var next := [elite] + children;
    assert forall i :: 1 <= i < |next| ==> next[i] == children[i - 1];
    next
  }

  /** The refill loop of runGeneration. */
  method Breed(sorted: seq<Individual>, elite: Individual, size: int, crossoverRate: real, mutationRate: real,
               draws: nat -> ChildDraws) returns (next: seq<Individual>)
    requires |sorted| > 0 && AllWellFormed(sorted) && WellFormed(elite)
    ensures next == Bred(sorted, elite, size, crossoverRate, mutationRate, draws)
  {
    next := [elite];
    while |next| < size
      invariant 1 <= |next| <= (if size > 1 then size else 1)
      invariant next[0] == elite
      invariant forall i :: 1 <= i < |next| ==> next[i] == Child(sorted, crossoverRate, mutationRate, draws(i - 1))
      decreases size - |next|
    {
      var d := draws(|next| - 1);
      var parent1 := Select(sorted, d.first1, d.second1);
      var parent2 := Select(sorted, d.first2, d.second2);
      var child := Crossover(parent1, parent2, crossoverRate, d.crossover);
      child := Mutate(child, mutationRate, d.mutation);
      next := next + [child];
    }
  }

  /** The fitness column of a population. */
  function Fitnesses(population: seq<Individual>): (column: seq<real>)
    ensures |column| == |population|
    ensures forall i :: 0 <= i < |population| ==> column[i] == population[i].fitness
  {
    seq(|population|, i requires 0 <= i < |population| => population[i].fitness)
  }

  lemma FitnessesConcat(u: seq<Individual>, v: seq<Individual>)
    ensures Fitnesses(u + v) == Fitnesses(u) + Fitnesses(v)
  {
    assert forall i :: 0 <= i < |u + v| ==> Fitnesses(u + v)[i] == (Fitnesses(u) + Fitnesses(v))[i];
  }

  /** Taking member j out of a population takes its fitness out of the
      fitness column. */
  lemma FitnessesRemoved(b: seq<Individual>, j: nat)
    requires j < |b|
    ensures multiset(b[..j] + b[j + 1..]) == multiset(b) - multiset{b[j]}
    ensures multiset(Fitnesses(b)) == multiset(Fitnesses(b[..j] + b[j + 1..])) + multiset{b[j].fitness}
  {
    var x := b[j];
    assert b == b[..j] + [x] + b[j + 1..];
    FitnessesConcat(b[..j] + [x], b[j + 1..]);
    FitnessesConcat(b[..j], [x]);
    FitnessesConcat(b[..j], b[j + 1..]);
    assert Fitnesses([x]) == [x.fitness];
    var before, after := Fitnesses(b[..j]), Fitnesses(b[j + 1..]);
    hide Fitnesses;
    assert Fitnesses(b) == before + [x.fitness] + after;
    assert Fitnesses(b[..j] + b[j + 1..]) == before + after;
  }

  /** Reordering a population reorders its fitness column the same way. */
  lemma {:induction false} FitnessesPermutation(a: seq<Individual>, b: seq<Individual>)
    requires multiset(a) == multiset(b)
    ensures multiset(Fitnesses(a)) == multiset(Fitnesses(b))
    decreases |a|
  {
    if |a| == 0 {
      assert |b| == |multiset(b)| == 0;
    } else {
      var n := |a| - 1;
      var x := a[n];
      assert a == a[..n] + [x];
      assert x in multiset(b);
      var j :| 0 <= j < |b| && b[j] == x;
      FitnessesRemoved(b, j);
      FitnessesPermutation(a[..n], b[..j] + b[j + 1..]);
      FitnessesConcat(a[..n], [x]);
      assert Fitnesses([x]) == [x.fitness];
    }
  }

  /** Sorting keeps the members, so it keeps them well formed. */
  lemma PermutationKeepsWellFormed(sorted: seq<Individual>, population: seq<Individual>)
    requires multiset(sorted) == multiset(population) && AllWellFormed(population)
    ensures AllWellFormed(sorted)
  {
    forall i | 0 <= i < |sorted|
      ensures WellFormed(sorted[i])
    {
      assert sorted[i] in multiset(population);
      var k :| 0 <= k < |population| && population[k] == sorted[i];
    }
  }

  /** Sorting scored members gives well-formed, positively scored members
      headed by one at least as fit as every member. */
  lemma SortedScored(scored: seq<Individual>)
    requires AllWellFormed(scored)
    requires forall i :: 0 <= i < |scored| ==> scored[i].fitness > 0.0
    ensures var sorted := InsertionSorted(scored);
      |sorted| == |scored| && AllWellFormed(sorted) &&
      (forall i :: 0 <= i < |sorted| ==> sorted[i].fitness > 0.0) &&
      (|scored| > 0 ==> forall i :: 0 <= i < |scored| ==> sorted[0].fitness >= scored[i].fitness)
  {
    var sorted := InsertionSorted(scored);
    assert |sorted| == |multiset(sorted)| == |scored|;
    PermutationKeepsWellFormed(sorted, scored);
    if |scored| > 0 {
      SortedFirstIsFittest(sorted, scored);
      var last := sorted[|sorted| - 1];
      assert last in multiset(scored);
      var k :| 0 <= k < |scored| && scored[k] == last;
    }
  }

  /** The population runGeneration sorts: the re-scored members, most fit
      first, as a reordering of them. Its first member is at least as fit as
      every member, and every fitness is positive. */
  function Ranked(population: seq<Individual>, accelerations: Pendulum.Accelerations, sqrt: real -> real)
    : (sorted: seq<Individual>)
    requires AllWellFormed(population)
    requires forall y :: y >= 0.0 ==> sqrt(y) >= 0.0
    ensures |sorted| == |population| && AllWellFormed(sorted) && Descending(sorted)
    ensures multiset(sorted) == multiset(ScoredPopulation(population, accelerations, sqrt))
    ensures forall i :: 0 <= i < |sorted| ==> sorted[i].fitness > 0.0
    ensures |population| > 0 ==>
      forall i :: 0 <= i < |population| ==>
        sorted[0].fitness >= ScoredPopulation(population, accelerations, sqrt)[i].fitness
  {
    var scored := ScoredPopulation(population, accelerations, sqrt);
    SortedScored(scored);
    InsertionSorted(scored)
  }

  /** The evaluation and the sort of runGeneration. The first member of the
      result is at least as fit as every member that was already scored. */
  method Rank(population: seq<Individual>, accelerations: Pendulum.Accelerations, sqrt: real -> real)
    returns (sorted: seq<Individual>)
    requires |population| > 0 && AllWellFormed(population)
    requires forall y :: y >= 0.0 ==> sqrt(y) >= 0.0
    ensures sorted == Ranked(population, accelerations, sqrt)
    ensures |sorted| == |population| && AllWellFormed(sorted) && Descending(sorted)
    ensures multiset(sorted) == multiset(ScoredPopulation(population, accelerations, sqrt))
    ensures sorted[0].fitness > 0.0
    ensures forall i :: 0 <= i < |population| && population[i].fitness != 0.0 ==>
      sorted[0].fitness >= population[i].fitness
  {
    var scored := ScoreUnscored(population, accelerations, sqrt);
    sorted := SortByFitness(scored);
    assert forall i :: 0 <= i < |population| && population[i].fitness != 0.0 ==> scored[i] == population[i];
  }

  /** What runGeneration records for a population: the best fitness of the
      ranked population and the mean of its fitnesses, which lies between
      the worst and the best and so is positive. */
  function GenerationRecordOf(population: seq<Individual>, generation: int, accelerations: Pendulum.Accelerations,
                              sqrt: real -> real): (r: GenerationRecord)
    requires |population| > 0 && AllWellFormed(population)
    requires forall y :: y >= 0.0 ==> sqrt(y) >= 0.0
    ensures r.generation == generation
    ensures r.bestFitness == Ranked(population, accelerations, sqrt)[0].fitness
    ensures 0.0 < r.averageFitness <= r.bestFitness
  {
    var sorted := Ranked(population, accelerations, sqrt);
    var column := Fitnesses(sorted);
    MeanWithinBounds(column, sorted[|sorted| - 1].fitness, sorted[0].fitness);
    GenerationRecord(generation, sorted[0].fitness, Mean(column).value)
  }

  /** The recorded average is taken after the sort, but it is the mean
      fitness of the population as evaluated, in any order. */
  lemma RecordedAverage(population: seq<Individual>, generation: int, accelerations: Pendulum.Accelerations,
                        sqrt: real -> real)
    requires |population| > 0 && AllWellFormed(population)
    requires forall y :: y >= 0.0 ==> sqrt(y) >= 0.0
    ensures GenerationRecordOf(population, generation, accelerations, sqrt).averageFitness ==
      Mean(Fitnesses(ScoredPopulation(population, accelerations, sqrt))).value
  {
    var scored := ScoredPopulation(population, accelerations, sqrt);
    var sorted := Ranked(population, accelerations, sqrt);
    FitnessesPermutation(sorted, scored);
    SumPermutation(Fitnesses(sorted), Fitnesses(scored));
  }

  /** One generation on values: the next population bred from the ranked
      one, whose first member is the elite. */
  function NextPopulation(population: seq<Individual>, size: int, crossoverRate: real, mutationRate: real,
                          accelerations: Pendulum.Accelerations, sqrt: real -> real, draws: nat -> ChildDraws)
    : (next: seq<Individual>)
    requires |population| > 0 && AllWellFormed(population)
    requires forall y :: y >= 0.0 ==> sqrt(y) >= 0.0
    ensures |next| == (if size > 1 then size else 1) && AllWellFormed(next)
    ensures next[0] == Ranked(population, accelerations, sqrt)[0]
  {
    var sorted := Ranked(population, accelerations, sqrt);
    Bred(sorted, sorted[0], size, crossoverRate, mutationRate, draws)
  }

  /** The population after `count` generations, generation g using the
      draws draws(g). */
  function Evolved(population: seq<Individual>, size: int, crossoverRate: real, mutationRate: real,
                   accelerations: Pendulum.Accelerations, sqrt: real -> real, draws: nat -> nat -> ChildDraws,
                   count: nat): (r: seq<Individual>)
    requires |population| > 0 && AllWellFormed(population)
    requires forall y :: y >= 0.0 ==> sqrt(y) >= 0.0
    decreases count
    ensures |r| > 0 && AllWellFormed(r)
    ensures count > 0 ==> |r| == if size > 1 then size else 1
  {
    if count == 0 then population
    else
      NextPopulation(Evolved(population, size, crossoverRate, mutationRate, accelerations, sqrt, draws, count - 1),
                     size, crossoverRate, mutationRate, accelerations, sqrt, draws(count - 1))
  }

  /** One more generation breeds from the ranked current one. */
  lemma EvolvedStep(population: seq<Individual>, size: int, crossoverRate: real, mutationRate: real,
                    accelerations: Pendulum.Accelerations, sqrt: real -> real, draws: nat -> nat -> ChildDraws,
                    count: nat)
    requires |population| > 0 && AllWellFormed(population)
    requires forall y :: y >= 0.0 ==> sqrt(y) >= 0.0
    ensures var current := Evolved(population, size, crossoverRate, mutationRate, accelerations, sqrt, draws, count);
      var sorted := Ranked(current, accelerations, sqrt);
      Evolved(population, size, crossoverRate, mutationRate, accelerations, sqrt, draws, count + 1) ==
      Bred(sorted, sorted[0], size, crossoverRate, mutationRate, draws(count))
    ensures Evolved(population, size, crossoverRate, mutationRate, accelerations, sqrt, draws, 0) == population
  {
  }

  /** The fitness records of the first `count` generations from
      `population`, record k describing generation k. */
  function Records(population: seq<Individual>, size: int, crossoverRate: real, mutationRate: real,
                   accelerations: Pendulum.Accelerations, sqrt: real -> real, draws: nat -> nat -> ChildDraws,
                   count: nat): (history: seq<GenerationRecord>)
    requires |population| > 0 && AllWellFormed(population)
    requires forall y :: y >= 0.0 ==> sqrt(y) >= 0.0
    ensures |history| == count
    ensures forall k :: 0 <= k < count ==> history[k].generation == k
  {
    if count == 0 then []
    else
      Records(population, size, crossoverRate, mutationRate, accelerations, sqrt, draws, count - 1) +
      [GenerationRecordOf(Evolved(population, size, crossoverRate, mutationRate, accelerations, sqrt, draws, count - 1),
                          count - 1, accelerations, sqrt)]
  }

  /** What train has done after |history| generations from the fresh
      population `start`: the population is the last generation bred, the
      best individual is the top of the one before it, and record k
      describes generation k. */
  ghost predicate GenerationsRan(start: seq<Individual>, population: seq<Individual>, best: Option<Individual>,
                                 history: seq<GenerationRecord>, size: int, crossoverRate: real, mutationRate: real,
                                 accelerations: Pendulum.Accelerations, sqrt: real -> real,
                                 draws: nat -> nat -> ChildDraws)
    requires AllWellFormed(start)
    requires forall y :: y >= 0.0 ==> sqrt(y) >= 0.0
  {
    var rounds := |history|;
    (rounds == 0 ==> population == start) &&
    (rounds > 0 ==>
       |start| > 0 &&
       population == Evolved(start, size, crossoverRate, mutationRate, accelerations, sqrt, draws, rounds) &&
       best == Some(Ranked(Evolved(start, size, crossoverRate, mutationRate, accelerations, sqrt, draws, rounds - 1),
                           accelerations, sqrt)[0]) &&
       history == Records(start, size, crossoverRate, mutationRate, accelerations, sqrt, draws, rounds))
  }

  /** Before any generation train has only built the fresh population. */
  lemma GenerationsRanStart(start: seq<Individual>, best: Option<Individual>, size: int, crossoverRate: real,
                            mutationRate: real, accelerations: Pendulum.Accelerations, sqrt: real -> real,
                            draws: nat -> nat -> ChildDraws)
    requires AllWellFormed(start)
    requires forall y :: y >= 0.0 ==> sqrt(y) >= 0.0
    ensures GenerationsRan(start, start, best, [], size, crossoverRate, mutationRate, accelerations, sqrt, draws)
  {
  }

  /** A generation over a non-empty population extends what train has done
      by one generation. */
  lemma GenerationsRanStep(start: seq<Individual>, population: seq<Individual>, best: Option<Individual>,
                           history: seq<GenerationRecord>, size: int, crossoverRate: real, mutationRate: real,
                           accelerations: Pendulum.Accelerations, sqrt: real -> real, draws: nat -> nat -> ChildDraws)
    requires AllWellFormed(start) && |population| > 0 && AllWellFormed(population)
    requires forall y :: y >= 0.0 ==> sqrt(y) >= 0.0
    requires GenerationsRan(start, population, best, history, size, crossoverRate, mutationRate, accelerations, sqrt,
                            draws)
    ensures var sorted := Ranked(population, accelerations, sqrt);
      GenerationsRan(start, Bred(sorted, sorted[0], size, crossoverRate, mutationRate, draws(|history|)),
                     Some(sorted[0]), history + [GenerationRecordOf(population, |history|, accelerations, sqrt)],
                     size, crossoverRate, mutationRate, accelerations, sqrt, draws)
  {
    hide Ranked, Bred, GenerationRecordOf, NextPopulation;
    var n := |history|;
    EvolvedStep(start, size, crossoverRate, mutationRate, accelerations, sqrt, draws, n);
    assert population == Evolved(start, size, crossoverRate, mutationRate, accelerations, sqrt, draws, n);
    if n > 0 {
      assert history == Records(start, size, crossoverRate, mutationRate, accelerations, sqrt, draws, n);
    }
    assert history + [GenerationRecordOf(population, n, accelerations, sqrt)] ==
      Records(start, size, crossoverRate, mutationRate, accelerations, sqrt, draws, n + 1);
  }

  /** From the second generation on, the best fitness never drops: the elite
      carries its positive fitness into the next population, where it is not
      re-scored. */
  lemma {:induction false} EliteKeepsBestFitness(population: seq<Individual>, size: int, crossoverRate: real,
                                                 mutationRate: real, accelerations: Pendulum.Accelerations,
                                                 sqrt: real -> real, draws: nat -> ChildDraws)
    requires |population| > 0 && AllWellFormed(population)
    requires forall y :: y >= 0.0 ==> sqrt(y) >= 0.0
    ensures var next := NextPopulation(population, size, crossoverRate, mutationRate, accelerations, sqrt, draws);
      GenerationRecordOf(next, 1, accelerations, sqrt).bestFitness >=
      GenerationRecordOf(population, 0, accelerations, sqrt).bestFitness
  {
    var next := NextPopulation(population, size, crossoverRate, mutationRate, accelerations, sqrt, draws);
    var elite := Ranked(population, accelerations, sqrt)[0];
    assert next[0] == elite && elite.fitness > 0.0;
    assert ScoredPopulation(next, accelerations, sqrt)[0] == elite;
  }

  // ---------------------------------------------------------------------------
  // The optimiser object
  // ---------------------------------------------------------------------------

  /** The `options` object of the constructor; an absent field is `None`. */
  datatype GeneticOptions = GeneticOptions(
    populationSize: Option<int>, mutationRate: Option<real>, crossoverRate: Option<real>, generations: Option<int>)

  /** An entry of fitnessHistory, and what runGeneration returns. */
  datatype GenerationRecord = GenerationRecord(generation: int, bestFitness: real, averageFitness: real)

  /** The records are numbered 0, 1, 2, ... and the best fitness never drops. */
  predicate ProgressLog(history: seq<GenerationRecord>)
  {
    (forall k :: 0 <= k < |history| ==> history[k].generation == k) &&
    (forall i, j :: 0 <= i < j < |history| ==> history[i].bestFitness <= history[j].bestFitness)
  }

  /** A record for the next generation that is at least as good as the last
      one extends a progress log. */
  lemma ProgressLogExtended(history: seq<GenerationRecord>, record: GenerationRecord)
    requires ProgressLog(history) && record.generation == |history|
    requires |history| > 0 ==> record.bestFitness >= history[|history| - 1].bestFitness
    ensures ProgressLog(history + [record])
  {
  }

  /** What train ends with: the best individual, or the TypeError thrown by
      a generation over an empty population. */
  datatype TrainOutcome = Finished(best: Option<Individual>) | Threw

  class GeneticFuzzySystem {
    var populationSize: int
    var mutationRate: real
    var crossoverRate: real
    var generations: int
    var population: seq<Individual>
    var bestIndividual: Option<Individual>
    var fitnessHistory: seq<GenerationRecord>
    var isTraining: bool
    var currentGeneration: int

    /** The parameters, which nothing changes after construction. */
    function Settings(): (int, real, real, int)
      reads this
    {
      (populationSize, mutationRate, crossoverRate, generations)
    }

    /** The population has the configured size and well-formed members;
        the generation counter counts the fitness records; and once a
        generation has run, the population starts with the elite, whose
        positive fitness is the last recorded best. */
    predicate Valid()
      reads this
    {
      |population| == Max0(populationSize) && AllWellFormed(population) &&
      (bestIndividual.Some? ==> WellFormed(bestIndividual.value)) &&
      ProgressLog(fitnessHistory) && currentGeneration == |fitnessHistory| &&
      (|fitnessHistory| > 0 ==>
         |population| > 0 && population[0].fitness > 0.0 &&
         population[0].fitness == fitnessHistory[|fitnessHistory| - 1].bestFitness)
    }

    constructor(options: GeneticOptions, draws: nat -> IndividualDraws)
      ensures Valid()
      ensures populationSize == CountOrElse(options.populationSize, 50)
      ensures mutationRate == OrElse(options.mutationRate, 0.1) && crossoverRate == OrElse(options.crossoverRate, 0.8)
      ensures generations == CountOrElse(options.generations, 30)
      ensures population == RandomIndividuals(populationSize, draws)
      ensures bestIndividual.None? && fitnessHistory == [] && !isTraining && currentGeneration == 0
    {
      var size := CountOrElse(options.populationSize, 50);
      populationSize := size;
      mutationRate := OrElse(options.mutationRate, 0.1);
      crossoverRate := OrElse(options.crossoverRate, 0.8);
      generations := CountOrElse(options.generations, 30);
      bestIndividual := None;
      fitnessHistory := [];
      isTraining := false;
      currentGeneration := 0;
      var initial := RandomPopulation(size, draws);
      population := initial;
    }

    /** initializePopulation: a fresh random population of the configured size. */
    method InitializePopulation(draws: nat -> IndividualDraws)
      modifies this
      ensures population == RandomIndividuals(populationSize, draws)
      ensures Settings() == old(Settings()) && bestIndividual == old(bestIndividual)
      ensures fitnessHistory == old(fitnessHistory) && isTraining == old(isTraining)
      ensures currentGeneration == old(currentGeneration)
      ensures old(Valid()) && fitnessHistory == [] ==> Valid()
    {
      population := RandomPopulation(populationSize, draws);
    }

    /** runGeneration. Over an empty population reading the best member
        throws, which leaves everything as it was (`None`). Otherwise the
        unscored members are evaluated, the population is sorted by fitness,
        its first member becomes the best individual and is recorded with
        the mean fitness, and the population is refilled with that elite and
        children bred from the sorted population. */
    method RunGeneration(accelerations: Pendulum.Accelerations, sqrt: real -> real, draws: nat -> ChildDraws)
      returns (result: Option<GenerationRecord>)
      requires Valid()
      requires forall y :: y >= 0.0 ==> sqrt(y) >= 0.0
      modifies this
      ensures Valid() && Settings() == old(Settings()) && isTraining == old(isTraining)
      ensures result.None? <==> |old(population)| == 0
      ensures result.None? ==>
        population == old(population) && bestIndividual == old(bestIndividual) &&
        fitnessHistory == old(fitnessHistory) && currentGeneration == old(currentGeneration)
      ensures result.Some? ==>
        var sorted := Ranked(old(population), accelerations, sqrt);
        bestIndividual == Some(sorted[0]) &&
        population == Bred(sorted, sorted[0], populationSize, crossoverRate, mutationRate, draws) &&
        currentGeneration == old(currentGeneration) + 1 &&
        fitnessHistory ==
          old(fitnessHistory) + [GenerationRecordOf(old(population), old(currentGeneration), accelerations, sqrt)] &&
        result.value == GenerationRecordOf(old(population), currentGeneration, accelerations, sqrt)
      ensures result.Some? ==> forall i :: 0 <= i < |old(population)| && old(population)[i].fitness != 0.0 ==>
        bestIndividual.value.fitness >= old(population)[i].fitness
      ensures result.Some? && |old(fitnessHistory)| > 0 ==>
        result.value.bestFitness >= old(fitnessHistory)[|old(fitnessHistory)| - 1].bestFitness
    {
      hide Ranked, ScoredPopulation, InsertionSorted, Rescored, Evaluation, Bred, RunFrom;
      if |population| == 0 {
        return None;
      }
      var sorted := Rank(population, accelerations, sqrt);
      var best := sorted[0];
      var averageFitness := Mean(Fitnesses(sorted)).value;
      ghost var record := GenerationRecordOf(population, currentGeneration, accelerations, sqrt);
      assert record == GenerationRecord(currentGeneration, best.fitness, averageFitness);
      if |fitnessHistory| > 0 {
        assert ScoredPopulation(population, accelerations, sqrt)[0] == population[0];
      }
      ProgressLogExtended(fitnessHistory, record);
      hide ProgressLog;
      bestIndividual := Some(best);
      fitnessHistory := fitnessHistory + [GenerationRecord(currentGeneration, best.fitness, averageFitness)];
      population := Breed(sorted, best, populationSize, crossoverRate, mutationRate, draws);
      currentGeneration := currentGeneration + 1;
      result := Some(GenerationRecord(currentGeneration, best.fitness, averageFitness));
    }

    /** train: a fresh population and log, then generations until the
        configured number has run or training was stopped during the pause
        after a generation; a throwing generation ends it with `isTraining`
        still set. After g generations the population is the g-th
        generation bred from the fresh one, the best individual is the top
        of the one before it, and record k describes generation k. */
    method Train(accelerations: Pendulum.Accelerations, sqrt: real -> real, initial: nat -> IndividualDraws,
                 draws: nat -> nat -> ChildDraws, stopRequested: nat -> bool) returns (outcome: TrainOutcome)
      requires Valid()
      requires forall y :: y >= 0.0 ==> sqrt(y) >= 0.0
      modifies this
      ensures Valid() && Settings() == old(Settings())
      ensures outcome.Threw? <==> populationSize <= 0 && generations > 0
      ensures outcome.Threw? ==>
        isTraining && fitnessHistory == [] && currentGeneration == 0 &&
        population == [] && bestIndividual == old(bestIndividual)
      ensures outcome.Finished? ==>
        !isTraining && outcome.best == bestIndividual &&
        |fitnessHistory| == RoundsRun(generations, stopRequested)
      ensures outcome.Finished? && |fitnessHistory| > 0 ==>
        bestIndividual.Some? && bestIndividual.value.fitness == fitnessHistory[|fitnessHistory| - 1].bestFitness
      ensures outcome.Finished? ==>
        GenerationsRan(RandomIndividuals(populationSize, initial), population, bestIndividual, fitnessHistory,
                       populationSize, crossoverRate, mutationRate, accelerations, sqrt, draws) &&
        (|fitnessHistory| == 0 ==> bestIndividual == old(bestIndividual))
    {
      hide Ranked, ScoredPopulation, InsertionSorted, Rescored, Evaluation, Bred, RunFrom, GenerationRecordOf;
      hide Evolved, NextPopulation, GenerationsRan;
      isTraining := true;
      currentGeneration := 0;
      fitnessHistory := [];
      InitializePopulation(initial);
      ghost var start := population;
      GenerationsRanStart(start, bestIndividual, populationSize, crossoverRate, mutationRate, accelerations, sqrt,
                          draws);
      outcome := TrainGenerations(accelerations, sqrt, draws, stopRequested, start);
    }

    /** The generation loop of train, from a fresh log and a population
        `start`: it runs generations until the configured number has run or
        training was stopped during the pause after one, and keeps the
        population, best individual and log the generations bred from
        `start`. */
    method TrainGenerations(accelerations: Pendulum.Accelerations, sqrt: real -> real, draws: nat -> nat -> ChildDraws,
                            stopRequested: nat -> bool, ghost start: seq<Individual>) returns (outcome: TrainOutcome)
      requires Valid() && isTraining && fitnessHistory == [] && AllWellFormed(start)
      requires forall y :: y >= 0.0 ==> sqrt(y) >= 0.0
      requires GenerationsRan(start, population, bestIndividual, [], populationSize, crossoverRate, mutationRate,
                              accelerations, sqrt, draws)
      modifies this
      ensures Valid() && Settings() == old(Settings())
      ensures outcome.Threw? <==> populationSize <= 0 && generations > 0
      ensures outcome.Threw? ==>
        isTraining && fitnessHistory == [] && population == old(population) && bestIndividual == old(bestIndividual)
      ensures outcome.Finished? ==>
        !isTraining && outcome.best == bestIndividual &&
        |fitnessHistory| == RoundsRun(generations, stopRequested)
      ensures outcome.Finished? && |fitnessHistory| > 0 ==>
        bestIndividual.Some? && bestIndividual.value.fitness == fitnessHistory[|fitnessHistory| - 1].bestFitness
      ensures outcome.Finished? ==>
        GenerationsRan(start, population, bestIndividual, fitnessHistory,
                       populationSize, crossoverRate, mutationRate, accelerations, sqrt, draws) &&
        (|fitnessHistory| == 0 ==> bestIndividual == old(bestIndividual))
    {
      hide Ranked, ScoredPopulation, InsertionSorted, Rescored, Evaluation, Bred, RunFrom, GenerationRecordOf;
      hide Evolved, NextPopulation, GenerationsRan, ProgressLog;
      var i := 0;
      while i < generations && isTraining
        invariant Valid()
        invariant populationSize == old(populationSize) && generations == old(generations)
        invariant mutationRate == old(mutationRate) && crossoverRate == old(crossoverRate)
        invariant 0 <= i == |fitnessHistory| <= Max0(generations)
        invariant isTraining ==> RoundsFrom(generations, stopRequested, i) == RoundsRun(generations, stopRequested)
        invariant !isTraining ==> i == RoundsRun(generations, stopRequested)
        invariant i > 0 ==> populationSize > 0
        invariant i == 0 ==> isTraining && bestIndividual == old(bestIndividual) && population == old(population)
        invariant AllWellFormed(start)
        invariant |fitnessHistory| > 0 ==>
          bestIndividual.Some? && bestIndividual.value.fitness == fitnessHistory[|fitnessHistory| - 1].bestFitness
        invariant GenerationsRan(start, population, bestIndividual, fitnessHistory, populationSize, crossoverRate,
                                 mutationRate, accelerations, sqrt, draws)
        decreases generations - i
      {
        ghost var before := population;
        ghost var history := fitnessHistory;
        ghost var bestBefore := bestIndividual;
        var result := RunGeneration(accelerations, sqrt, draws(i));
        if result.None? {
          return Threw;
        }
        GenerationsRanStep(start, before, bestBefore, history, populationSize, crossoverRate, mutationRate,
                           accelerations, sqrt, draws);
        if stopRequested(i) {
          StopTraining();
        }
        i := i + 1;
      }
      isTraining := false;
      outcome := Finished(bestIndividual);
    }

    /** stopTraining. */
    method StopTraining()
      modifies this
      ensures !isTraining
      ensures Settings() == old(Settings()) && population == old(population)
      ensures bestIndividual == old(bestIndividual) && fitnessHistory == old(fitnessHistory)
      ensures currentGeneration == old(currentGeneration)
    {
      isTraining := false;
    }

    /** calculateControlForce: the best individual's controller, or the base
        controller before any generation has run. */
    function CalculateControlForce(angle: real, angularVelocity: real, position: real, velocity: real): (force: real)
      reads this
      requires Valid()
      ensures bestIndividual.None? ==> force == ControlForce(angle, angularVelocity, position, velocity)
      ensures bestIndividual.Some? ==>
        force == ForceFromIndividual(bestIndividual.value, angle, angularVelocity, position, velocity)
      ensures -20.0 <= force <= 20.0
    {
      match bestIndividual
      case None => ControlForce(angle, angularVelocity, position, velocity)
      case Some(best) =>
        ForceFromIndividual(best, angle, angularVelocity, position, velocity)
    }
  }
}
