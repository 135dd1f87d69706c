/**
 * The lookup of one-repetition-maximum (1RM) formulas: three named empirical
 * formulas, each turning a lifted weight and the number of repetitions done
 * with it into an estimate of the heaviest single repetition.
 *
 * JavaScript numbers are modelled as unbounded `real`s: the arithmetic is
 * exact, so rounding, Infinity and NaN do not arise. Repetitions are `real`
 * too, because the reps field is read with `Number(...)` and may hold a
 * fraction.
 */
module Formulas {
  import opened Wrappers

  /** The closed set of formulas the lookup holds. */
  datatype FormulaName = Epley | Brzycki | Lombardi

  /** The keys of the lookup, in the order the selector lists them. */
  const Keys: seq<string> := ["Epley", "Brzycki", "Lombardi"]

  /** The key under which a formula is registered. */
  function NameOf(f: FormulaName): (s: string)
    ensures s in Keys
  {
    match f
    case Epley => "Epley"
    case Brzycki => "Brzycki"
    case Lombardi => "Lombardi"
  }

  /** Looking a name up in the table: the formula it is the key of, if any. */
  function Lookup(name: string): (r: Option<FormulaName>)
    ensures r.Some? <==> name in Keys
    ensures r.Some? ==> NameOf(r.value) == name
  {
    if name == "Epley" then Some(Epley)
    else if name == "Brzycki" then Some(Brzycki)
    else if name == "Lombardi" then Some(Lombardi)
    else None
  }

  /** Every formula is found under its own key, and under no other. */
  lemma LookupNameOf(f: FormulaName, name: string)
    ensures Lookup(NameOf(f)) == Some(f)
    ensures Lookup(name) == Some(f) <==> name == NameOf(f)
  {
  }

  /** The keys name the three formulas, each exactly once. */
  lemma KeysAreTheFormulas()
    ensures Keys == [NameOf(Epley), NameOf(Brzycki), NameOf(Lombardi)]
    ensures forall i, j :: 0 <= i < j < |Keys| ==> Keys[i] != Keys[j]
  {
  }

  /** Epley: the weight grows by one thirtieth for every repetition. */
  function EpleyEstimate(weight: real, reps: real): (r: real)
    ensures reps == 0.0 ==> r == weight
    ensures weight >= 0.0 && reps >= 0.0 ==> r >= weight
  {
    weight * (1.0 + reps / 30.0)
  }

  /**
   * Brzycki: the weight scaled by 36 / (37 - reps). The source does not guard
   * reps == 37, where the division has no value; here that is a precondition.
   */
  function BrzyckiEstimate(weight: real, reps: real): (r: real)
    requires reps != 37.0
    ensures reps == 1.0 ==> r == weight
  {
    weight * (36.0 / (37.0 - reps))
  }

  /**
   * Lombardi: the weight scaled by reps raised to the power 0.1. Real
   * exponentiation is not modelled; the caller supplies it as `tenthPower`,
   * standing for `Math.pow(·, 0.1)`, and nothing is claimed about its values.
   * For negative reps that power has no real value (the source shows NaN),
   * so non-negative reps are a precondition.
   */
  function LombardiEstimate(weight: real, reps: real, tenthPower: real -> real): (r: real)
    requires reps >= 0.0
    ensures weight == 0.0 ==> r == 0.0
  {
    weight * tenthPower(reps)
  }

  /** The estimate of the formula that `f` selects; the other two are not used. */
  function Estimate(f: FormulaName, weight: real, reps: real, tenthPower: real -> real): (r: real)
    requires f == Brzycki ==> reps != 37.0
    requires f == Lombardi ==> reps >= 0.0
    ensures weight == 0.0 ==> r == 0.0
  {
    match f
    case Epley => EpleyEstimate(weight, reps)
    case Brzycki => BrzyckiEstimate(weight, reps)
    case Lombardi => LombardiEstimate(weight, reps, tenthPower)
  }

  /** The literal cases: 100 kg for 5 reps. */
  lemma Examples()
    ensures EpleyEstimate(100.0, 5.0) == 350.0 / 3.0
    ensures BrzyckiEstimate(100.0, 5.0) == 112.5
    ensures EpleyEstimate(100.0, 30.0) == 200.0
  {
  }

  /** Every formula is linear in the weight: scaling the weight scales the estimate. */
  lemma EstimateScalesWithWeight(f: FormulaName, k: real, weight: real, reps: real, tenthPower: real -> real)
    requires f == Brzycki ==> reps != 37.0
    requires f == Lombardi ==> reps >= 0.0
    ensures Estimate(f, k * weight, reps, tenthPower) == k * Estimate(f, weight, reps, tenthPower)
  {
  }

  /** For a non-negative weight, more repetitions never lower the Epley estimate. */
  lemma EpleyMonotoneInReps(weight: real, reps1: real, reps2: real)
    requires weight >= 0.0 && reps1 <= reps2
    ensures EpleyEstimate(weight, reps1) <= EpleyEstimate(weight, reps2)
  {
  }

  /** Sign facts about products, kept apart so that each proof stays linear. */
  lemma ProductSign(a: real, b: real)
    ensures a * b == 0.0 <==> a == 0.0 || b == 0.0
    ensures a > 0.0 && b > 0.0 ==> a * b > 0.0
    ensures a < 0.0 && b > 0.0 ==> a * b < 0.0
  {
  }

  /** Multiplying by a non-negative number keeps an inequality. */
  lemma ScaleMonotone(k: real, a: real, b: real)
    requires k >= 0.0 && a <= b
    ensures k * a <= k * b
  {
  }

  /** Dividing 36 by a larger positive number gives a smaller quotient. */
  lemma BrzyckiFactorAntitone(d1: real, d2: real)
    requires 0.0 < d2 <= d1
    ensures 36.0 / d1 <= 36.0 / d2
  {
  }

  /**
   * Below the pole at 37, more repetitions never lower the Brzycki estimate of
   * a non-negative weight, and from one repetition on it is at least the weight.
   */
  lemma BrzyckiMonotoneInReps(weight: real, reps1: real, reps2: real)
    requires weight >= 0.0 && reps1 <= reps2 < 37.0
    ensures BrzyckiEstimate(weight, reps1) <= BrzyckiEstimate(weight, reps2)
    ensures reps1 >= 1.0 ==> BrzyckiEstimate(weight, reps1) >= weight
  {
    var f1, f2 := 36.0 / (37.0 - reps1), 36.0 / (37.0 - reps2);
    assert BrzyckiEstimate(weight, reps1) <= BrzyckiEstimate(weight, reps2) by {
      BrzyckiFactorAntitone(37.0 - reps1, 37.0 - reps2);
      ScaleMonotone(weight, f1, f2);
    }
    if reps1 >= 1.0 {
      assert BrzyckiEstimate(weight, reps1) >= weight by {
        BrzyckiFactorAntitone(36.0, 37.0 - reps1);
        ScaleMonotone(weight, 36.0 / 36.0, f1);
      }
    }
  }

  /** Past the pole the Brzycki estimate of a positive weight is negative. */
  lemma BrzyckiNegativePastPole(weight: real, reps: real)
    requires weight > 0.0 && reps > 37.0
    ensures BrzyckiEstimate(weight, reps) < 0.0
  {
    assert 36.0 / (37.0 - reps) < 0.0;
  }

  /**
   * The gap between the Epley and Brzycki estimates, in closed form: the
   * weight times (10 - reps)(reps + 3) / (30 (37 - reps)).
   */
  lemma EpleyBrzyckiGap(weight: real, reps: real)
    requires reps != 37.0
    ensures EpleyEstimate(weight, reps) - BrzyckiEstimate(weight, reps)
         == weight * ((10.0 - reps) * (reps + 3.0) / (30.0 * (37.0 - reps)))
  {
  }

  /**
   * Epley and Brzycki agree only at 10 repetitions (and at the meaningless
   * -3); strictly between -3 and 10 repetitions Epley gives the higher
   * estimate, strictly between 10 and the pole at 37 Brzycki does.
   */
  lemma EpleyBrzyckiCrossing(weight: real, reps: real)
    requires weight > 0.0 && reps != 37.0
    ensures EpleyEstimate(weight, reps) == BrzyckiEstimate(weight, reps) <==> reps == 10.0 || reps == -3.0
    ensures -3.0 < reps < 10.0 ==> EpleyEstimate(weight, reps) > BrzyckiEstimate(weight, reps)
    ensures 10.0 < reps < 37.0 ==> EpleyEstimate(weight, reps) < BrzyckiEstimate(weight, reps)
  {
    EpleyBrzyckiGap(weight, reps);
    var d := 37.0 - reps;
    var gap := (10.0 - reps) * (reps + 3.0);
    var q := gap / (30.0 * d);
    ProductSign(10.0 - reps, reps + 3.0);
    ProductSign(weight, q);
    assert q == gap * (1.0 / (30.0 * d));
    ProductSign(gap, 1.0 / (30.0 * d));
    if reps < 37.0 {
      assert 1.0 / (30.0 * d) > 0.0;
    }
    if -3.0 < reps < 10.0 {
      assert q > 0.0;
    } else if 10.0 < reps < 37.0 {
      ProductSign(reps - 10.0, reps + 3.0);
      assert gap < 0.0;
      ProductSign(-gap, 1.0 / (30.0 * d));
      assert q < 0.0;
      ProductSign(-q, weight);
    }
  }
}
