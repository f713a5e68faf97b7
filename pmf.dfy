// ProbabilityMassFunction: items with weights, normalised to percentages so
// that one can be drawn at random. Weights are reals; the drawing itself is
// random and is not part of this model.

module ProbabilityMass {
  import opened Wrappers

  const Percentage: real := 100.0
  /** The slack check_valid_weights allows below a total of 1. */
  const Tolerance: real := 0.000001

  function Sum(s: seq<real>): real {
    if |s| == 0 then 0.0 else s[0] + Sum(s[1..])
  }

  /** Every entry multiplied by c (Eigen's scalar product). */
  function Scale(s: seq<real>, c: real): (r: seq<real>)
    ensures |r| == |s| && forall i :: 0 <= i < |s| ==> r[i] == c * s[i]
  {
    seq(|s|, i requires 0 <= i < |s| => c * s[i])
  }

  lemma {:induction false} SumScale(s: seq<real>, c: real)
    ensures Sum(Scale(s, c)) == c * Sum(s)
    decreases |s|
  {
    if |s| > 0 {
      forall k | 0 <= k < |s| - 1 ensures Scale(s, c)[1..][k] == Scale(s[1..], c)[k] {
        assert Scale(s, c)[1..][k] == Scale(s, c)[k + 1] == c * s[k + 1];
      }
      assert Scale(s, c)[1..] == Scale(s[1..], c);
      SumScale(s[1..], c);
      assert Sum(Scale(s, c)) == c * s[0] + c * Sum(s[1..]);
    }
  }

  lemma {:induction false} SumConstant(n: nat, c: real)
    ensures Sum(seq(n, _ => c)) == n as real * c
  {
    if n > 0 {
      assert seq(n, _ => c)[1..] == seq(n - 1, _ => c);
      SumConstant(n - 1, c);
    }
  }

  // ---- set_default_weights

  /** set_default_weights: n uniform weights of 1/n for n > 0 items; the weights are left alone for none. */
  function DefaultWeights(weights: seq<real>, itemCount: nat): (r: seq<real>)
    ensures itemCount == 0 ==> r == weights
    ensures itemCount > 0 ==> |r| == itemCount && forall i :: 0 <= i < |r| ==> r[i] == 1.0 / itemCount as real
  {
    if itemCount > 0 then seq(itemCount, _ => 1.0 / itemCount as real) else weights
  }

  /** The default weights of a non-empty item list add up to 1. */
  lemma DefaultWeightsSumToOne(weights: seq<real>, itemCount: nat)
    requires itemCount > 0
    ensures Sum(DefaultWeights(weights, itemCount)) == 1.0
  {
    SumConstant(itemCount, 1.0 / itemCount as real);
  }

  // ---- weights_and_items_have_equal_size and check_valid_weights

  /** weights_and_items_have_equal_size: invalid_argument exactly when the sizes differ. */
  function WeightsAndItemsHaveEqualSize<T>(items: seq<T>, weights: seq<real>): (r: Outcome<string>)
    ensures r.Fail? <==> |weights| != |items|
  {
    if |weights| != |items| then Fail("Invalid argument.") else Pass
  }

  /**
   * check_valid_weights(weights, normalize_weights): invalid_argument when
   * normalize_weights is non-empty and either its sum falls more than the
   * tolerance below 1 or some entry of weights is negative.
   */
  function CheckValidWeights(weights: seq<real>, normalizeWeights: seq<real>): Outcome<string> {
    if |normalizeWeights| > 0
       && (1.0 - Sum(normalizeWeights) > Tolerance || exists i :: 0 <= i < |weights| && weights[i] < 0.0)
    then Fail("Invalid argument.")
    else Pass
  }

  // ---- normalize_weights

  /** What normalize_weights leaves behind: the total, the normalised vector and whether it threw. */
  datatype Normalization = Normalization(total: real, normalized: seq<real>, outcome: Outcome<string>)

  /** weights / total, entry by entry; 0.0 where C++ would divide by a zero total. */
  function Divided(weights: seq<real>, total: real): (r: seq<real>)
    ensures |r| == |weights|
  {
    if total == 0.0 then seq(|weights|, _ => 0.0) else Scale(weights, 1.0 / total)
  }

  /**
   * normalize_weights: the total is the sum of the weights; the normalised
   * vector is weights / total, checked with check_valid_weights (its
   * arguments given as normalised, raw) and then scaled to percentages.
   * When the check throws, the vector is left unscaled.
   */
  function NormalizeWeights(weights: seq<real>): (r: Normalization)
    ensures r.total == Sum(weights) && |r.normalized| == |weights|
  {
    var total := Sum(weights);
    var divided := Divided(weights, total);
    var check := CheckValidWeights(divided, weights);
    Normalization(total, if check.Pass? then Scale(divided, Percentage) else divided, check)
  }

  lemma SignOfQuotient(w: real, total: real)
    requires total > 0.0
    ensures (1.0 / total) * w < 0.0 <==> w < 0.0
  {
    assert 1.0 / total > 0.0;
  }

  /** Below the tolerance the check fails whatever the signs. */
  lemma {:induction false} NormalizeRejectsSmallTotal(weights: seq<real>)
    requires |weights| > 0 && Sum(weights) < 1.0 - Tolerance
    ensures NormalizeWeights(weights).outcome.Fail?
  {
    assert 1.0 - Sum(weights) > Tolerance;
  }

  /** With a large enough total the check fails exactly on a negative raw weight. */
  lemma {:induction false} NormalizeChecksSigns(weights: seq<real>)
    requires |weights| > 0 && Sum(weights) >= 1.0 - Tolerance
    ensures NormalizeWeights(weights).outcome.Pass? <==> forall i :: 0 <= i < |weights| ==> weights[i] >= 0.0
  {
    var total := Sum(weights);
    var divided := Divided(weights, total);
    assert divided == Scale(weights, 1.0 / total);
    forall i | 0 <= i < |weights| ensures divided[i] < 0.0 <==> weights[i] < 0.0 {
      SignOfQuotient(weights[i], total);
    }
    assert 1.0 - Sum(weights) <= Tolerance;
  }

  /** The raw weights normalize_weights lets through. */
  predicate Acceptable(weights: seq<real>) {
    |weights| == 0 || (Sum(weights) >= 1.0 - Tolerance && forall i :: 0 <= i < |weights| ==> weights[i] >= 0.0)
  }

  /**
   * normalize_weights accepts exactly the empty vector and the vectors with
   * no negative entry whose sum is at least 1 - 1e-6.
   */
  lemma NormalizeWeightsAccepts(weights: seq<real>)
    ensures NormalizeWeights(weights).outcome.Pass? <==> Acceptable(weights)
  {
    if |weights| > 0 {
      if Sum(weights) < 1.0 - Tolerance {
        NormalizeRejectsSmallTotal(weights);
      } else {
        NormalizeChecksSigns(weights);
      }
    }
  }

  lemma {:induction false} NormalizedEntries(weights: seq<real>, total: real)
    requires total > 0.0
    ensures var n := Scale(Scale(weights, 1.0 / total), Percentage);
      |n| == |weights| && forall i :: 0 <= i < |weights| ==> n[i] * total == Percentage * weights[i]
  {
    var n := Scale(Scale(weights, 1.0 / total), Percentage);
    forall i | 0 <= i < |weights| ensures n[i] * total == Percentage * weights[i] {
      calc {
        n[i] * total;
        (Percentage * ((1.0 / total) * weights[i])) * total;
        Percentage * weights[i] * ((1.0 / total) * total);
      }
    }
  }

  lemma {:induction false} NormalizedSum(weights: seq<real>, total: real)
    requires total > 0.0 && Sum(weights) == total
    ensures Sum(Scale(Scale(weights, 1.0 / total), Percentage)) == Percentage
  {
    SumScale(weights, 1.0 / total);
    SumScale(Scale(weights, 1.0 / total), Percentage);
    assert (1.0 / total) * total == 1.0;
  }

  /** Acceptable weights pass, and their normalised vector is the weights scaled by 1/total and then by 100. */
  lemma NormalizePassForm(weights: seq<real>)
    requires |weights| > 0 && Acceptable(weights)
    ensures NormalizeWeights(weights).outcome.Pass?
    ensures Sum(weights) > 0.0
    ensures NormalizeWeights(weights).normalized == Scale(Scale(weights, 1.0 / Sum(weights)), Percentage)
  {
    NormalizeWeightsAccepts(weights);
  }

  /**
   * For acceptable (so passing) weights every normalised weight is
   * 100·w/total, and together they make 100.
   */
  lemma NormalizeWeightsValues(weights: seq<real>)
    requires |weights| > 0 && Acceptable(weights)
    ensures var r := NormalizeWeights(weights);
      r.total > 0.0
      && (forall i :: 0 <= i < |weights| ==> r.normalized[i] * r.total == Percentage * weights[i])
      && Sum(r.normalized) == Percentage
  {
    NormalizePassForm(weights);
    var total := Sum(weights);
    var n := NormalizeWeights(weights).normalized;
    NormalizedEntries(weights, total);
    NormalizedSum(weights, total);
  }

  /**
   * check_valid_weights is handed the raw weights where it expects the
   * normalised ones, so a raw total below 1 - 1e-6 is refused even though
   * its normalised weights add up to 100: a single weight of 0.5 throws.
   */
  lemma SubUnitTotalRejected()
    ensures NormalizeWeights([0.5]).outcome.Fail?
    ensures Sum(Scale(Divided([0.5], 0.5), Percentage)) == Percentage
  {
    assert Sum([0.5]) == 0.5;
    assert Divided([0.5], 0.5) == [1.0];
    assert Scale([1.0], Percentage) == [100.0];
    assert Sum([100.0]) == 100.0;
  }

  // ---- get_mean_current_weight

  /** get_mean_current_weight: 1.0 with no normalised weights, else total / size. */
  function MeanCurrentWeight(totalWeight: real, normalizedWeights: seq<real>): (r: real)
    ensures |normalizedWeights| == 0 ==> r == 1.0
    ensures |normalizedWeights| > 0 ==> r * |normalizedWeights| as real == totalWeight
  {
    if |normalizedWeights| == 0 then 1.0 else totalWeight / |normalizedWeights| as real
  }

  /** After a normalisation the mean current weight is the average raw weight. */
  lemma MeanIsAverageWeight(weights: seq<real>)
    requires |weights| > 0
    ensures var r := NormalizeWeights(weights);
      MeanCurrentWeight(r.total, r.normalized) == Sum(weights) / |weights| as real
  {
    var r := NormalizeWeights(weights);
    assert r.total == Sum(weights) && |r.normalized| == |weights|;
  }

  // ---- the class

  class ProbabilityMassFunction<T> {
    var items: seq<T>
    var weights: seq<real>
    var totalWeight: real
    var normalizedWeights: seq<real>

    /** ProbabilityMassFunction(): no items, no weights, total 0. */
    constructor ()
      ensures items == [] && weights == [] && totalWeight == 0.0 && normalizedWeights == []
    {
      items := [];
      weights := [];
      totalWeight := 0.0;
      normalizedWeights := [];
    }

    /**
     * ProbabilityMassFunction(items, weights) as written: the items are
     * stored, but weights_ is assigned to itself, so the given weights are
     * dropped and the total is that of the empty vector. No size check.
     */
    constructor WithItems(items: seq<T>, weights: seq<real>)
      ensures this.items == items && this.weights == [] && totalWeight == 0.0 && normalizedWeights == []
    {
      this.items := items;
      this.weights := [];
      totalWeight := Sum([]);
      normalizedWeights := [];
    }

    /** The copy constructor: every field copied. */
    constructor FromCopy(pmf: ProbabilityMassFunction<T>)
      ensures items == pmf.items && weights == pmf.weights
      ensures totalWeight == pmf.totalWeight && normalizedWeights == pmf.normalizedWeights
    {
      items := pmf.items;
      weights := pmf.weights;
      totalWeight := pmf.totalWeight;
      normalizedWeights := pmf.normalizedWeights;
    }

    /**
     * The two-argument constructor as intended: invalid_argument when the
     * sizes differ, otherwise the items and the given weights stored with
     * their total.
     */
    static method Create(items: seq<T>, weights: seq<real>) returns (r: Result<ProbabilityMassFunction<T>, string>)
      ensures r.Failure? <==> |weights| != |items|
      ensures r.Success? ==> fresh(r.value) && r.value.items == items && r.value.weights == weights
                             && r.value.totalWeight == Sum(weights) && r.value.normalizedWeights == []
    {
      var sizes := WeightsAndItemsHaveEqualSize(items, weights);
      if sizes.Fail? {
        return Failure(sizes.error);
      }
      var pmf := new ProbabilityMassFunction<T>.WithItems(items, weights);
      pmf.weights := weights;
      pmf.totalWeight := Sum(weights);
      return Success(pmf);
    }

    /**
     * addItem(item, weight): the item is appended; the new raw weights are
     * the old normalised weights times the old total, then the new weight;
     * they are renormalised, which may throw (after the state is updated).
     */
    method AddItem(newItem: T, newWeight: real) returns (outcome: Outcome<string>)
      modifies this
      ensures items == old(items) + [newItem]
      ensures weights == Scale(old(normalizedWeights), old(totalWeight)) + [newWeight]
      ensures totalWeight == NormalizeWeights(weights).total
      ensures normalizedWeights == NormalizeWeights(weights).normalized
      ensures outcome == NormalizeWeights(weights).outcome
    {
      items := items + [newItem];
      var w := Scale(normalizedWeights, totalWeight) + [newWeight];
      weights := w;
      var n := NormalizeWeights(weights);
      totalWeight := n.total;
      normalizedWeights := n.normalized;
      outcome := n.outcome;
    }

    /** addItem(item): add it with the mean current weight. */
    method AddItemWithDefaultWeight(newItem: T) returns (outcome: Outcome<string>)
      modifies this
      ensures items == old(items) + [newItem]
      ensures weights == Scale(old(normalizedWeights), old(totalWeight)) + [MeanCurrentWeight(old(totalWeight), old(normalizedWeights))]
      ensures totalWeight == NormalizeWeights(weights).total
      ensures normalizedWeights == NormalizeWeights(weights).normalized
      ensures outcome == NormalizeWeights(weights).outcome
    {
      var newWeight := MeanCurrentWeight(totalWeight, normalizedWeights);
      outcome := AddItem(newItem, newWeight);
    }
  }

  /**
   * Because the normalised weights are percentages, the raw weights addItem
   * rebuilds from them are 100 times the raw weights that were normalised.
   */
  lemma {:induction false} RebuiltWeights(normalized: seq<real>, total: real, weights: seq<real>)
    requires |normalized| == |weights|
    requires forall i :: 0 <= i < |weights| ==> normalized[i] * total == Percentage * weights[i]
    ensures Scale(normalized, total) == Scale(weights, Percentage)
  {
    var rebuilt, scaled := Scale(normalized, total), Scale(weights, Percentage);
    forall i | 0 <= i < |weights| ensures rebuilt[i] == scaled[i] {
      assert rebuilt[i] == total * normalized[i];
      assert scaled[i] == Percentage * weights[i];
    }
  }

  lemma AddItemScalesRawWeights(weights: seq<real>)
    requires Acceptable(weights)
    ensures var r := NormalizeWeights(weights);
      Scale(r.normalized, r.total) == Scale(weights, Percentage)
  {
    if |weights| > 0 {
      NormalizeWeightsValues(weights);
      var r := NormalizeWeights(weights);
      RebuiltWeights(r.normalized, r.total, weights);
    }
  }


  /** The first item added to an empty pmf gets weight 1 and all of the mass. */
  lemma FirstItemGetsAllTheMass()
    ensures var w := Scale([], 0.0) + [MeanCurrentWeight(0.0, [])];
      w == [1.0] && NormalizeWeights(w).outcome.Pass? && NormalizeWeights(w).normalized == [Percentage]
  {
    var w := Scale([], 0.0) + [MeanCurrentWeight(0.0, [])];
    assert w == [1.0];
    assert Sum([1.0]) == 1.0;
    assert Divided([1.0], 1.0) == [1.0];
  }

  /** The uneven construction of the tests goes through as written and keeps no weights. */
  method UnevenInitIsAccepted() returns (pmf: ProbabilityMassFunction<int>)
    ensures pmf.items == [1, 2, 3] && pmf.weights == [] && pmf.totalWeight == 0.0
  {
    pmf := new ProbabilityMassFunction<int>.WithItems([1, 2, 3], [1.0]);
  }

  /** The intended constructor refuses that construction. */
  method UnevenInitIsRefused() returns (r: Result<ProbabilityMassFunction<int>, string>)
    ensures r.Failure?
  {
    r := ProbabilityMassFunction<int>.Create([1, 2, 3], [1.0]);
  }
}
