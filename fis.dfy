/** The Mamdani-style fuzzy controller (js/fis.js): triangular membership
    functions, fuzzification into labelled degrees, min/max evaluation of the
    pendulum and cart rule tables and weighted-average defuzzification over
    five singleton output centres. */
module Fuzzy {
  import opened Wrappers

  datatype Label = NB | N | Z | P | PB

  /** The output labels in the order of the output centres. */
  const OutputLabels: seq<Label> := [NB, N, Z, P, PB]

  /** outputCenters. */
  function Center(l: Label): real
  {
    match l
    case NB => -20.0
    case N => -10.0
    case Z => 0.0
    case P => 10.0
    case PB => 20.0
  }

  // ---------------------------------------------------------------------------
  // Membership functions
  // ---------------------------------------------------------------------------

  /** The triangle (a, b, c): rising on (a, b], falling on (b, c]. The branch
      order is the source's, so the degree lies in [0, 1] whatever a, b, c are. */
  function TriangularMF(x: real, a: real, b: real, c: real): (r: real)
    ensures 0.0 <= r <= 1.0
    ensures x <= a ==> r == 0.0
    ensures b <= c && x > c ==> r == 0.0
    ensures a < b && x == b ==> r == 1.0
    ensures a < b < c ==> (r > 0.0 <==> a < x < c)
  {
    if x <= a then 0.0
    else if x <= b then
      RatioInUnit(x - a, b - a);
      (x - a) / (b - a)
    else if x <= c then
      RatioInUnit(c - x, c - b);
      (c - x) / (c - b)
    else 0.0
  }

  lemma RatioInUnit(part: real, whole: real)
    requires 0.0 <= part <= whole && whole > 0.0
    ensures 0.0 <= part / whole <= 1.0
    ensures part / whole == 1.0 <==> part == whole
    ensures part / whole > 0.0 <==> part > 0.0
  {
  }

  datatype Triangle = Triangle(a: real, b: real, c: real)

  function Degree(x: real, t: Triangle): real
  {
    TriangularMF(x, t.a, t.b, t.c)
  }

  /** An object of membership functions: labels in insertion order. */
  type MembershipSet = seq<(Label, Triangle)>

  const AngleMF: MembershipSet :=
    [(N, Triangle(-45.0, -30.0, 0.0)), (Z, Triangle(-15.0, 0.0, 15.0)), (P, Triangle(0.0, 30.0, 45.0))]
  const AngularVelocityMF: MembershipSet :=
    [(N, Triangle(-50.0, -25.0, 0.0)), (Z, Triangle(-15.0, 0.0, 15.0)), (P, Triangle(0.0, 25.0, 50.0))]
  const PositionMF: MembershipSet :=
    [(N, Triangle(-5.0, -2.5, 0.0)), (Z, Triangle(-2.0, 0.0, 2.0)), (P, Triangle(0.0, 2.5, 5.0))]
  const VelocityMF: MembershipSet :=
    [(N, Triangle(-5.0, -2.5, 0.0)), (Z, Triangle(-1.0, 0.0, 1.0)), (P, Triangle(0.0, 2.5, 5.0))]
  const OutputMF: MembershipSet :=
    [(NB, Triangle(-30.0, -20.0, -10.0)), (N, Triangle(-15.0, -10.0, 0.0)), (Z, Triangle(-5.0, 0.0, 5.0)),
     (P, Triangle(0.0, 10.0, 15.0)), (PB, Triangle(10.0, 20.0, 30.0))]

  function Labels(mfs: MembershipSet): set<Label>
  {
    set i | 0 <= i < |mfs| :: mfs[i].0
  }

  predicate DistinctLabels(mfs: MembershipSet)
  {
    forall i, j :: 0 <= i < j < |mfs| ==> mfs[i].0 != mfs[j].0
  }

  const AllLabels: set<Label> := {NB, N, Z, P, PB}

  /** The four input variables use the labels N, Z and P. */
  lemma InputLabels()
    ensures Labels(AngleMF) == {N, Z, P} && Labels(AngularVelocityMF) == {N, Z, P}
    ensures Labels(PositionMF) == {N, Z, P} && Labels(VelocityMF) == {N, Z, P}
  {
    ThreeLabels(AngleMF);
    ThreeLabels(AngularVelocityMF);
    ThreeLabels(PositionMF);
    ThreeLabels(VelocityMF);
  }

  lemma ThreeLabels(mfs: MembershipSet)
    requires |mfs| == 3 && mfs[0].0 == N && mfs[1].0 == Z && mfs[2].0 == P
    ensures Labels(mfs) == {N, Z, P}
  {
    assert mfs[0].0 in Labels(mfs) && mfs[1].0 in Labels(mfs) && mfs[2].0 in Labels(mfs);
  }

  // ---------------------------------------------------------------------------
  // Fuzzification
  // ---------------------------------------------------------------------------

  /** Degrees of membership by label. */
  type Degrees = map<Label, real>

  predicate InUnit(d: Degrees)
  {
    forall l :: l in d ==> 0.0 <= d[l] <= 1.0
  }

  /** The dictionary filled by fuzzify after the given entries. */
  function Fuzzified(value: real, mfs: MembershipSet): (d: Degrees)
    ensures d.Keys == Labels(mfs)
    ensures InUnit(d)
  {
    if |mfs| == 0 then map[]
    else
      var init := mfs[..|mfs| - 1];
      var last := mfs[|mfs| - 1];
      assert Labels(mfs) == Labels(init) + {last.0} by {
        assert forall i :: 0 <= i < |init| ==> init[i] == mfs[i];
      }
      Fuzzified(value, init)[last.0 := Degree(value, last.1)]
  }

  /** With distinct labels every label gets its own function's degree. */
  lemma {:induction false} FuzzifiedAt(value: real, mfs: MembershipSet, i: nat)
    requires DistinctLabels(mfs) && i < |mfs|
    ensures Fuzzified(value, mfs)[mfs[i].0] == Degree(value, mfs[i].1)
  {
    var init := mfs[..|mfs| - 1];
    if i < |mfs| - 1 {
      FuzzifiedAt(value, init, i);
    }
  }

  lemma FuzzifiedThree(value: real, mfs: MembershipSet)
    requires |mfs| == 3
    ensures Fuzzified(value, mfs) ==
      map[mfs[0].0 := Degree(value, mfs[0].1)][mfs[1].0 := Degree(value, mfs[1].1)][mfs[2].0 := Degree(value, mfs[2].1)]
  {
    assert mfs[..2][..1] == mfs[..1];
    assert mfs[..1][..0] == [];
    assert Fuzzified(value, mfs[..1]) == map[mfs[0].0 := Degree(value, mfs[0].1)];
    assert Fuzzified(value, mfs[..2]) == Fuzzified(value, mfs[..1])[mfs[1].0 := Degree(value, mfs[1].1)];
    assert mfs[..3] == mfs;
  }

  method Fuzzify(value: real, mfs: MembershipSet) returns (result: Degrees)
    ensures result == Fuzzified(value, mfs)
  {
    result := map[];
    for i := 0 to |mfs|
      invariant result == Fuzzified(value, mfs[..i])
    {
      assert mfs[..i + 1][..i] == mfs[..i];
      var entry := mfs[i];
      result := result[entry.0 := Degree(value, entry.1)];
    }
    assert mfs[..|mfs|] == mfs;
  }

  // ---------------------------------------------------------------------------
  // Rule evaluation
  // ---------------------------------------------------------------------------

  /** "IF first-variable IS first AND second-variable IS second THEN output". */
  datatype Rule = Rule(first: Label, second: Label, output: Label)

  /** (angle, angularVelocity) -> output. */
  const PendulumRules: seq<Rule> := [
    Rule(N, N, NB), Rule(N, Z, N), Rule(N, P, Z),
    Rule(Z, N, N), Rule(Z, Z, Z), Rule(Z, P, P),
    Rule(P, N, Z), Rule(P, Z, P), Rule(P, P, PB)]

  /** (position, velocity) -> output. */
  const CartRules: seq<Rule> := [
    Rule(N, N, PB), Rule(N, Z, P), Rule(N, P, Z),
    Rule(Z, N, P), Rule(Z, Z, Z), Rule(Z, P, N),
    Rule(P, N, Z), Rule(P, Z, N), Rule(P, P, NB)]

  predicate Antecedents(rules: seq<Rule>, first: Degrees, second: Degrees)
  {
    forall i :: 0 <= i < |rules| ==> rules[i].first in first && rules[i].second in second
  }

  /** The labels the rules conclude. */
  function Outputs(rules: seq<Rule>): set<Label>
  {
    if |rules| == 0 then {} else Outputs(rules[..|rules| - 1]) + {rules[|rules| - 1].output}
  }

  /** Every rule's conclusion is among the outputs. */
  lemma {:induction false} OutputsContain(rules: seq<Rule>, i: nat)
    requires i < |rules|
    ensures rules[i].output in Outputs(rules)
  {
    if i < |rules| - 1 {
      assert rules[..|rules| - 1][i] == rules[i];
      OutputsContain(rules[..|rules| - 1], i);
    }
  }

  /** The outputs are only the rules' conclusions. */
  lemma {:induction false} OutputsConcluded(rules: seq<Rule>, l: Label)
    requires l in Outputs(rules)
    ensures exists i :: 0 <= i < |rules| && rules[i].output == l
  {
    var k := |rules| - 1;
    if rules[k].output != l {
      OutputsConcluded(rules[..k], l);
      var i :| 0 <= i < k && rules[..k][i].output == l;
      assert rules[i].output == l;
    }
  }

  predicate HasInputLabels(d: Degrees)
  {
    N in d && Z in d && P in d
  }

  /** Both tables only name the input labels N, Z and P and conclude every
      output label. */
  lemma RuleTables(first: Degrees, second: Degrees)
    requires HasInputLabels(first) && HasInputLabels(second)
    ensures Antecedents(PendulumRules, first, second) && Antecedents(CartRules, first, second)
    ensures Outputs(PendulumRules) == AllLabels && Outputs(CartRules) == AllLabels
  {
    OutputsContain(PendulumRules, 0); OutputsContain(PendulumRules, 1); OutputsContain(PendulumRules, 2);
    OutputsContain(PendulumRules, 5); OutputsContain(PendulumRules, 8);
    OutputsContain(CartRules, 0); OutputsContain(CartRules, 1); OutputsContain(CartRules, 2);
    OutputsContain(CartRules, 5); OutputsContain(CartRules, 8);
    forall l: Label ensures l in AllLabels {
      assert l.NB? || l.N? || l.Z? || l.P? || l.PB?;
    }
  }

  function Min(x: real, y: real): real
  {
    if x <= y then x else y
  }

  /** The AND of a rule: the smaller of its two antecedent degrees. */
  function Strength(rule: Rule, first: Degrees, second: Degrees): real
    requires rule.first in first && rule.second in second
  {
    Min(first[rule.first], second[rule.second])
  }

  /** `if (!m[out] || s > m[out]) m[out] = s`: an absent entry and an entry
      holding 0 are both falsy, so either is overwritten. */
  function Accumulate(m: Degrees, out: Label, s: real): Degrees
  {
    if out !in m || m[out] == 0.0 || s > m[out] then m[out := s] else m
  }

  /** The dictionary filled by applying the given rules in order. */
  function RuleStrengths(rules: seq<Rule>, first: Degrees, second: Degrees): (m: Degrees)
    requires Antecedents(rules, first, second)
    ensures m.Keys == Outputs(rules)
    ensures InUnit(first) && InUnit(second) ==> InUnit(m)
  {
    if |rules| == 0 then map[]
    else
      var init := rules[..|rules| - 1];
      var last := rules[|rules| - 1];
      Accumulate(RuleStrengths(init, first, second), last.output, Strength(last, first, second))
  }

  predicate NonNegative(d: Degrees)
  {
    forall l :: l in d ==> d[l] >= 0.0
  }

  /** For non-negative degrees every rule's strength is at most the entry of
      its output label. */
  lemma {:induction false} StrengthAtMostEntry(rules: seq<Rule>, first: Degrees, second: Degrees, i: nat)
    requires Antecedents(rules, first, second)
    requires NonNegative(first) && NonNegative(second)
    requires i < |rules|
    ensures rules[i].output in RuleStrengths(rules, first, second)
    ensures Strength(rules[i], first, second) <= RuleStrengths(rules, first, second)[rules[i].output]
  {
    var k := |rules| - 1;
    var init, last := rules[..k], rules[k];
    var before := RuleStrengths(init, first, second);
    var s := Strength(last, first, second);
    assert RuleStrengths(rules, first, second) == Accumulate(before, last.output, s);
    AccumulateNeverLowers(before, last.output, s);
    if i < k {
      assert init[i] == rules[i];
      StrengthAtMostEntry(init, first, second, i);
    }
  }

  /** A non-negative strength never lowers an entry, and the updated label
      holds at least that strength. */
  lemma AccumulateNeverLowers(m: Degrees, out: Label, s: real)
    requires s >= 0.0
    ensures out in Accumulate(m, out, s) && Accumulate(m, out, s)[out] >= s
    ensures forall l :: l in m ==> l in Accumulate(m, out, s) && Accumulate(m, out, s)[l] >= m[l]
  {
  }

  /** Every entry is the strength of some rule concluding its label. */
  lemma {:induction false} EntryIsSomeStrength(rules: seq<Rule>, first: Degrees, second: Degrees, l: Label)
    requires Antecedents(rules, first, second)
    requires l in RuleStrengths(rules, first, second)
    ensures exists i :: (0 <= i < |rules| && rules[i].output == l &&
                         RuleStrengths(rules, first, second)[l] == Strength(rules[i], first, second))
  {
    var k := |rules| - 1;
    var init, last := rules[..k], rules[k];
    var before := RuleStrengths(init, first, second);
    var s := Strength(last, first, second);
    var m := RuleStrengths(rules, first, second);
    assert m == Accumulate(before, last.output, s);
    if last.output == l && (l !in before || before[l] == 0.0 || s > before[l]) {
      assert m[l] == Strength(rules[k], first, second);
    } else {
      assert l in before && m[l] == before[l];
      EntryIsSomeStrength(init, first, second, l);
      var j :| 0 <= j < k && init[j].output == l && before[l] == Strength(init[j], first, second);
      assert rules[j] == init[j];
    }
  }

  /** For non-negative degrees every output label holds the largest strength
      among the rules that conclude it. */
  lemma RuleStrengthIsMax(rules: seq<Rule>, first: Degrees, second: Degrees, l: Label)
    requires Antecedents(rules, first, second)
    requires NonNegative(first) && NonNegative(second)
    requires l in RuleStrengths(rules, first, second)
    ensures forall i :: 0 <= i < |rules| && rules[i].output == l ==>
      Strength(rules[i], first, second) <= RuleStrengths(rules, first, second)[l]
    ensures exists i :: (0 <= i < |rules| && rules[i].output == l &&
                         RuleStrengths(rules, first, second)[l] == Strength(rules[i], first, second))
  {
    forall i | 0 <= i < |rules| && rules[i].output == l
      ensures Strength(rules[i], first, second) <= RuleStrengths(rules, first, second)[l]
    {
      StrengthAtMostEntry(rules, first, second, i);
    }
    EntryIsSomeStrength(rules, first, second, l);
  }

  /** One loop of applyRules. */
  method ApplyRuleTable(rules: seq<Rule>, first: Degrees, second: Degrees) returns (m: Degrees)
    requires Antecedents(rules, first, second)
    ensures m == RuleStrengths(rules, first, second)
  {
    m := map[];
    for i := 0 to |rules|
      invariant m == RuleStrengths(rules[..i], first, second)
    {
      assert rules[..i + 1][..i] == rules[..i];
      var rule := rules[i];
      var s := Min(first[rule.first], second[rule.second]);
      if rule.output !in m || m[rule.output] == 0.0 || s > m[rule.output] {
        m := m[rule.output := s];
      }
    }
    assert rules[..|rules|] == rules;
  }

  method ApplyRules(angle: Degrees, angularVelocity: Degrees, position: Degrees, velocity: Degrees)
    returns (pendulumStrengths: Degrees, cartStrengths: Degrees)
    requires HasInputLabels(angle) && HasInputLabels(angularVelocity)
    requires HasInputLabels(position) && HasInputLabels(velocity)
    ensures pendulumStrengths == RuleStrengths(PendulumRules, angle, angularVelocity)
    ensures cartStrengths == RuleStrengths(CartRules, position, velocity)
    ensures pendulumStrengths.Keys == AllLabels && cartStrengths.Keys == AllLabels
  {
    RuleTables(angle, angularVelocity);
    RuleTables(position, velocity);
    pendulumStrengths := ApplyRuleTable(PendulumRules, angle, angularVelocity);
    cartStrengths := ApplyRuleTable(CartRules, position, velocity);
  }

  // ---------------------------------------------------------------------------
  // Defuzzification
  // ---------------------------------------------------------------------------

  /** Sum of center * strength * weight over the listed labels present in m. */
  function WeightedSum(m: Degrees, weight: real, labels: seq<Label>): real
  {
    if |labels| == 0 then 0.0
    else
      var l := labels[|labels| - 1];
      WeightedSum(m, weight, labels[..|labels| - 1]) + (if l in m then Center(l) * m[l] * weight else 0.0)
  }

  /** Sum of strength * weight over the listed labels present in m. */
  function TotalWeight(m: Degrees, weight: real, labels: seq<Label>): real
  {
    if |labels| == 0 then 0.0
    else
      var l := labels[|labels| - 1];
      TotalWeight(m, weight, labels[..|labels| - 1]) + (if l in m then m[l] * weight else 0.0)
  }

  /** Weighted average of the centres, 0 when nothing fires. */
  function Defuzzified(pendulum: Degrees, cart: Degrees, pendulumWeight: real, cartWeight: real): real
  {
    var weighted := WeightedSum(pendulum, pendulumWeight, OutputLabels) + WeightedSum(cart, cartWeight, OutputLabels);
    var total := TotalWeight(pendulum, pendulumWeight, OutputLabels) + TotalWeight(cart, cartWeight, OutputLabels);
    if total == 0.0 then 0.0 else weighted / total
  }

  lemma {:induction false} WeightedSumBounds(m: Degrees, weight: real, labels: seq<Label>)
    requires NonNegative(m) && weight >= 0.0
    ensures TotalWeight(m, weight, labels) >= 0.0
    ensures -20.0 * TotalWeight(m, weight, labels) <= WeightedSum(m, weight, labels)
                                                   <= 20.0 * TotalWeight(m, weight, labels)
  {
    if |labels| > 0 {
      WeightedSumBounds(m, weight, labels[..|labels| - 1]);
      var l := labels[|labels| - 1];
      if l in m {
        var sw := m[l] * weight;
        assert sw >= 0.0;
        assert Center(l) * m[l] * weight == Center(l) * sw;
      }
    }
  }

  /** The output is a convex combination of centres between -20 and 20. */
  lemma DefuzzifiedBounds(pendulum: Degrees, cart: Degrees, pendulumWeight: real, cartWeight: real)
    requires NonNegative(pendulum) && NonNegative(cart)
    requires pendulumWeight >= 0.0 && cartWeight >= 0.0
    ensures -20.0 <= Defuzzified(pendulum, cart, pendulumWeight, cartWeight) <= 20.0
  {
    WeightedSumBounds(pendulum, pendulumWeight, OutputLabels);
    WeightedSumBounds(cart, cartWeight, OutputLabels);
    var weighted := WeightedSum(pendulum, pendulumWeight, OutputLabels) + WeightedSum(cart, cartWeight, OutputLabels);
    var total := TotalWeight(pendulum, pendulumWeight, OutputLabels) + TotalWeight(cart, cartWeight, OutputLabels);
    if total != 0.0 {
      var tp := TotalWeight(pendulum, pendulumWeight, OutputLabels);
      var tc := TotalWeight(cart, cartWeight, OutputLabels);
      var wp := WeightedSum(pendulum, pendulumWeight, OutputLabels);
      var wc := WeightedSum(cart, cartWeight, OutputLabels);
      assert -20.0 * tp <= wp <= 20.0 * tp;
      assert -20.0 * tc <= wc <= 20.0 * tc;
      assert -20.0 * total <= weighted <= 20.0 * total;
      RatioWithin(weighted, total, 20.0);
    }
  }

  lemma RatioWithin(x: real, total: real, bound: real)
    requires total > 0.0 && -bound * total <= x <= bound * total
    ensures -bound <= x / total <= bound
  {
    assert (x / total) * total == x;
  }

  /** One accumulation loop of defuzzify, over the entries of one dictionary. */
  method AccumulateWeighted(m: Degrees, weight: real, labels: seq<Label>, weightedSum0: real, sumOfWeights0: real)
    returns (weightedSum: real, sumOfWeights: real)
    ensures weightedSum == weightedSum0 + WeightedSum(m, weight, labels)
    ensures sumOfWeights == sumOfWeights0 + TotalWeight(m, weight, labels)
  {
    weightedSum, sumOfWeights := weightedSum0, sumOfWeights0;
    for i := 0 to |labels|
      invariant weightedSum == weightedSum0 + WeightedSum(m, weight, labels[..i])
      invariant sumOfWeights == sumOfWeights0 + TotalWeight(m, weight, labels[..i])
    {
      assert labels[..i + 1][..i] == labels[..i];
      var l := labels[i];
      if l in m {
        weightedSum := weightedSum + Center(l) * m[l] * weight;
        sumOfWeights := sumOfWeights + m[l] * weight;
      }
    }
    assert labels[..|labels|] == labels;
  }

  /** defuzzify: the two accumulation loops and the zero guard. */
  method Defuzzify(pendulum: Degrees, cart: Degrees, pendulumWeight: real, cartWeight: real) returns (force: real)
    ensures force == Defuzzified(pendulum, cart, pendulumWeight, cartWeight)
    ensures TotalWeight(pendulum, pendulumWeight, OutputLabels) + TotalWeight(cart, cartWeight, OutputLabels) == 0.0
      ==> force == 0.0
  {
    var weightedSum, sumOfWeights := AccumulateWeighted(pendulum, pendulumWeight, OutputLabels, 0.0, 0.0);
    weightedSum, sumOfWeights := AccumulateWeighted(cart, cartWeight, OutputLabels, weightedSum, sumOfWeights);
    if sumOfWeights == 0.0 {
      force := 0.0;
    } else {
      force := weightedSum / sumOfWeights;
    }
  }

  // ---------------------------------------------------------------------------
  // The whole controller
  // ---------------------------------------------------------------------------

  /** Rules whose antecedents are input labels. */
  predicate InputRules(rules: seq<Rule>)
  {
    forall i :: 0 <= i < |rules| ==> rules[i].first != NB && rules[i].first != PB &&
                                     rules[i].second != NB && rules[i].second != PB
  }

  lemma TablesReadInputs()
    ensures InputRules(PendulumRules) && InputRules(CartRules)
  {
  }

  /** Fuzzify two inputs and apply a rule table to them. */
  function Strengths(rules: seq<Rule>, first: real, firstMF: MembershipSet, second: real, secondMF: MembershipSet)
    : (m: Degrees)
    requires InputRules(rules) && Labels(firstMF) == {N, Z, P} && Labels(secondMF) == {N, Z, P}
    ensures m.Keys == Outputs(rules) && InUnit(m) && NonNegative(m)
  {
    RuleStrengths(rules, Fuzzified(first, firstMF), Fuzzified(second, secondMF))
  }

  /** The base controller: fuzzify the four inputs, apply both rule tables
      and blend them with weights 0.7 (pendulum) and 0.3 (cart). */
  function ControlForce(angle: real, angularVelocity: real, position: real, velocity: real): (force: real)
    ensures -20.0 <= force <= 20.0
  {
    InputLabels();
    TablesReadInputs();
    var pendulum := Strengths(PendulumRules, angle, AngleMF, angularVelocity, AngularVelocityMF);
    var cart := Strengths(CartRules, position, PositionMF, velocity, VelocityMF);
    DefuzzifiedBounds(pendulum, cart, 0.7, 0.3);
    Defuzzified(pendulum, cart, 0.7, 0.3)
  }

  method CalculateControlForce(angle: real, angularVelocity: real, position: real, velocity: real)
    returns (force: real)
    ensures force == ControlForce(angle, angularVelocity, position, velocity)
    ensures -20.0 <= force <= 20.0
  {
    InputLabels();
    var fuzzifiedAngle := Fuzzify(angle, AngleMF);
    var fuzzifiedAngularVelocity := Fuzzify(angularVelocity, AngularVelocityMF);
    var fuzzifiedPosition := Fuzzify(position, PositionMF);
    var fuzzifiedVelocity := Fuzzify(velocity, VelocityMF);
    var pendulum, cart := ApplyRules(fuzzifiedAngle, fuzzifiedAngularVelocity, fuzzifiedPosition, fuzzifiedVelocity);
    force := Defuzzify(pendulum, cart, 0.7, 0.3);
  }

  /** A dictionary whose only possibly non-zero entry is Z contributes
      nothing to the weighted sum, since Z's centre is 0. */
  lemma {:induction false} WeightedSumOnlyZ(m: Degrees, weight: real, labels: seq<Label>)
    requires forall l :: l in m && l != Z ==> m[l] == 0.0
    ensures WeightedSum(m, weight, labels) == 0.0
  {
    if |labels| > 0 {
      WeightedSumOnlyZ(m, weight, labels[..|labels| - 1]);
    }
  }

  /** The degrees of an input at 0: only Z holds. */
  const Resting: Degrees := map[N := 0.0, Z := 1.0, P := 0.0]

  /** In both tables the one Z/Z rule concludes Z. */
  predicate OnlyZeroConcludesZero(rules: seq<Rule>)
  {
    forall i :: 0 <= i < |rules| && rules[i].output != Z ==> rules[i].first != Z || rules[i].second != Z
  }

  lemma TablesZeroToZero()
    ensures OnlyZeroConcludesZero(PendulumRules) && OnlyZeroConcludesZero(CartRules)
  {
  }

  /** With resting inputs only a Z/Z rule has a non-zero strength. */
  lemma RestingStrengths(rules: seq<Rule>, first: Degrees, second: Degrees, l: Label)
    requires first == Resting && second == Resting
    requires Antecedents(rules, first, second) && OnlyZeroConcludesZero(rules)
    requires l in RuleStrengths(rules, first, second) && l != Z
    ensures RuleStrengths(rules, first, second)[l] == 0.0
  {
    EntryIsSomeStrength(rules, first, second, l);
    var i :| 0 <= i < |rules| && rules[i].output == l &&
      RuleStrengths(rules, first, second)[l] == Strength(rules[i], first, second);
    assert rules[i].first != Z || rules[i].second != Z;
  }

  lemma FuzzifiedAtZero(x: real)
    requires x == 0.0
    ensures Fuzzified(x, AngleMF) == Resting && Fuzzified(x, AngularVelocityMF) == Resting
    ensures Fuzzified(x, PositionMF) == Resting && Fuzzified(x, VelocityMF) == Resting
  {
    FuzzifiedThree(x, AngleMF);
    FuzzifiedThree(x, AngularVelocityMF);
    FuzzifiedThree(x, PositionMF);
    FuzzifiedThree(x, VelocityMF);
  }

  lemma RestingWeightedSum(rules: seq<Rule>, first: Degrees, second: Degrees, weight: real)
    requires first == Resting && second == Resting
    requires Antecedents(rules, first, second) && OnlyZeroConcludesZero(rules)
    ensures WeightedSum(RuleStrengths(rules, first, second), weight, OutputLabels) == 0.0
  {
    var m := RuleStrengths(rules, first, second);
    forall l | l in m && l != Z
      ensures m[l] == 0.0
    {
      RestingStrengths(rules, first, second, l);
    }
    WeightedSumOnlyZ(m, weight, OutputLabels);
  }

  /** Nothing weighted means a zero force, whatever the total. */
  lemma NothingWeighted(pendulum: Degrees, cart: Degrees, pendulumWeight: real, cartWeight: real)
    requires WeightedSum(pendulum, pendulumWeight, OutputLabels) == 0.0
    requires WeightedSum(cart, cartWeight, OutputLabels) == 0.0
    ensures Defuzzified(pendulum, cart, pendulumWeight, cartWeight) == 0.0
  {
  }

  lemma RestingForce(pendulumRules: seq<Rule>, cartRules: seq<Rule>, fa: Degrees, fav: Degrees, fp: Degrees, fv: Degrees)
    requires fa == Resting && fav == Resting && fp == Resting && fv == Resting
    requires Antecedents(pendulumRules, fa, fav) && OnlyZeroConcludesZero(pendulumRules)
    requires Antecedents(cartRules, fp, fv) && OnlyZeroConcludesZero(cartRules)
    ensures Defuzzified(RuleStrengths(pendulumRules, fa, fav), RuleStrengths(cartRules, fp, fv), 0.7, 0.3) == 0.0
  {
    RestingWeightedSum(pendulumRules, fa, fav, 0.7);
    RestingWeightedSum(cartRules, fp, fv, 0.3);
    NothingWeighted(RuleStrengths(pendulumRules, fa, fav), RuleStrengths(cartRules, fp, fv), 0.7, 0.3);
  }

  lemma ControlForceUnfolded(angle: real, angularVelocity: real, position: real, velocity: real)
    ensures Labels(AngleMF) == {N, Z, P} && Labels(AngularVelocityMF) == {N, Z, P}
    ensures Labels(PositionMF) == {N, Z, P} && Labels(VelocityMF) == {N, Z, P}
    ensures InputRules(PendulumRules) && InputRules(CartRules)
    ensures ControlForce(angle, angularVelocity, position, velocity) ==
      Defuzzified(Strengths(PendulumRules, angle, AngleMF, angularVelocity, AngularVelocityMF),
                  Strengths(CartRules, position, PositionMF, velocity, VelocityMF), 0.7, 0.3)
  {
    InputLabels();
    TablesReadInputs();
  }

  /** At the upright, centred, motionless state the force is 0. */
  lemma ControlForceAtRest(angle: real, angularVelocity: real, position: real, velocity: real)
    requires angle == 0.0 && angularVelocity == 0.0 && position == 0.0 && velocity == 0.0
    ensures ControlForce(angle, angularVelocity, position, velocity) == 0.0
  {
    ControlForceUnfolded(angle, angularVelocity, position, velocity);
    FuzzifiedAtZero(angle);
    FuzzifiedAtZero(angularVelocity);
    FuzzifiedAtZero(position);
    FuzzifiedAtZero(velocity);
    var fa, fav := Fuzzified(angle, AngleMF), Fuzzified(angularVelocity, AngularVelocityMF);
    var fp, fv := Fuzzified(position, PositionMF), Fuzzified(velocity, VelocityMF);
    TablesZeroToZero();
    RuleTables(fa, fav);
    RuleTables(fp, fv);
    RestingForce(PendulumRules, CartRules, fa, fav, fp, fv);
  }

  // ---------------------------------------------------------------------------
  // Curves for display
  // ---------------------------------------------------------------------------

  /** The `type` argument of getMembershipFunctionValues: the property
      prefixes of the object that name something ("angle" ... "output", and
      "triangular", which names the method triangularMF), and any other
      string. */
  datatype VariableName = Angle | AngularVelocity | Position | Velocity | Output | Triangular | Other

  /** `this[type + 'MF']`. The method triangularMF is a function object with
      no enumerable entries; any other name is undefined and Object.entries
      throws (`None`). */
  function MembershipFunctionsNamed(name: VariableName): (mfs: Option<MembershipSet>)
    ensures mfs.None? <==> name == Other
    ensures mfs.Some? ==> DistinctLabels(mfs.value)
  {
    match name
    case Angle => Some(AngleMF)
    case AngularVelocity => Some(AngularVelocityMF)
    case Position => Some(PositionMF)
    case Velocity => Some(VelocityMF)
    case Output => Some(OutputMF)
    case Triangular => Some([])
    case Other => None
  }

  /** `range.map(x => triangularMF(x, a, b, c))`. */
  function Curve(range: seq<real>, t: Triangle): (curve: seq<real>)
    ensures |curve| == |range|
    ensures forall k :: 0 <= k < |range| ==> curve[k] == Degree(range[k], t)
  {
    if |range| == 0 then [] else Curve(range[..|range| - 1], t) + [Degree(range[|range| - 1], t)]
  }

  /** The loop of getMembershipFunctionValues: one curve per label. */
  method Curves(mfs: MembershipSet, range: seq<real>) returns (values: map<Label, seq<real>>)
    ensures values.Keys == Labels(mfs)
    ensures forall i :: 0 <= i < |mfs| ==> |values[mfs[i].0]| == |range|
    ensures DistinctLabels(mfs) ==> forall i :: 0 <= i < |mfs| ==> values[mfs[i].0] == Curve(range, mfs[i].1)
  {
    values := map[];
    for i := 0 to |mfs|
      invariant values.Keys == Labels(mfs[..i])
      invariant forall l :: l in values ==> |values[l]| == |range|
      invariant DistinctLabels(mfs) ==> forall p :: 0 <= p < i ==> values[mfs[p].0] == Curve(range, mfs[p].1)
    {
      var entry := mfs[i];
      values := values[entry.0 := Curve(range, entry.1)];
      assert Labels(mfs[..i + 1]) == Labels(mfs[..i]) + {entry.0} by {
        assert forall p :: 0 <= p < i ==> mfs[..i + 1][p] == mfs[..i][p];
      }
    }
    assert mfs[..|mfs|] == mfs;
  }

  method GetMembershipFunctionValues(name: VariableName, range: seq<real>) returns (values: Option<map<Label, seq<real>>>)
    ensures values.Some? <==> MembershipFunctionsNamed(name).Some?
    ensures values.Some? ==> values.value.Keys == Labels(MembershipFunctionsNamed(name).value)
    ensures values.Some? ==> forall l :: l in values.value ==> |values.value[l]| == |range|
    ensures values.Some? ==> var mfs := MembershipFunctionsNamed(name).value;
      forall i :: 0 <= i < |mfs| ==> values.value[mfs[i].0] == Curve(range, mfs[i].1)
  {
    var named := MembershipFunctionsNamed(name);
    if named.None? {
      return None;
    }
    var curves := Curves(named.value, range);
    values := Some(curves);
  }
}
