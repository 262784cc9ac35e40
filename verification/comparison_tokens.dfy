/**
 A token estimate embedded in the very view it measures
 (src/tarkka/application/challenge.py, src/tarkka/domain/manifest.py).
 */
module ComparisonTokens {
  import opened PythonText

  /** `estimate_tokens`. */
  function EstimateTokens(text: string): nat {
    if text == [] then 0
    else if (|text| + 3) / 4 < 1 then 1
    else (|text| + 3) / 4
  }

  /** The estimate is the least number of groups of four characters that holds the text. */
  lemma EstimateIsQuarter(text: string)
    ensures EstimateTokens(text) == 0 <==> text == ""
    ensures text != "" ==> 4 * EstimateTokens(text) - 4 < |text| <= 4 * EstimateTokens(text)
  {
    if text != [] {
      assert 4 * EstimateTokens(text) == (|text| + 3) - (|text| + 3) % 4;
    }
  }

  /** The serialized view: everything but the embedded count is fixed. */
  function View(before: string, estimated: nat, after: string): string {
    before + Decimal(estimated) + after
  }

  function Cost(before: string, estimated: nat, after: string): nat {
    EstimateTokens(View(before, estimated, after))
  }

  function Digits(n: nat): (d: nat)
    ensures d >= 1
  {
    if n < 10 then 1 else 1 + Digits(n / 10)
  }

  function Pow10(k: nat): (p: nat)
    ensures p >= 1
  {
    if k == 0 then 1 else 10 * Pow10(k - 1)
  }

  lemma {:induction false} DecimalLength(n: nat)
    ensures |Decimal(n)| == Digits(n)
  {
    if n >= 10 {
      DecimalLength(n / 10);
    }
  }

  /** What one evaluation of the loop computes. */
  lemma {:induction false} CostIs(before: string, estimated: nat, after: string)
    ensures Cost(before, estimated, after) == (|before| + |after| + Digits(estimated) + 3) / 4
  {
    DecimalLength(estimated);
  }

  lemma {:induction false} DigitsBounds(n: nat)
    requires n >= 1
    ensures Pow10(Digits(n) - 1) <= n < Pow10(Digits(n))
  {
    if n >= 10 {
      DigitsBounds(n / 10);
      var p := Pow10(Digits(n / 10) - 1);
      assert Pow10(Digits(n) - 1) == 10 * p;
      assert Pow10(Digits(n)) == 10 * Pow10(Digits(n / 10));
    } else {
      assert Pow10(1) == 10 * Pow10(0);
    }
  }

  lemma {:induction false} PowMonotone(j: nat, k: nat)
    requires j <= k
    ensures Pow10(j) <= Pow10(k)
  {
    if j < k {
      PowMonotone(j, k - 1);
    }
  }

  lemma {:induction false} DigitsMonotone(m: nat, n: nat)
    requires m <= n
    ensures Digits(m) <= Digits(n)
  {
    if m >= 1 && Digits(m) > Digits(n) {
      DigitsBounds(m);
      DigitsBounds(n);
      PowMonotone(Digits(n), Digits(m) - 1);
      assert false;
    }
  }

  lemma {:induction false} DigitsAreFew(k: nat)
    ensures k < Pow10(k)
  {
    if k > 0 {
      DigitsAreFew(k - 1);
    }
  }

  /** Adding at most its own number of digits lengthens a number by at most one digit, and leaves room for one more. */
  lemma OneDigitMore(n: nat, m: nat)
    requires 1 <= n <= m <= n + Digits(n)
    ensures Digits(m) == Digits(n) || (Digits(m) == Digits(n) + 1 && Digits(m + 1) == Digits(m))
  {
    var k := Digits(n);
    DigitsBounds(n);
    DigitsAreFew(k);
    assert Pow10(k + 1) == 10 * Pow10(k);
    assert m + 1 < Pow10(k + 1);
    DigitsMonotone(n, m);
    DigitsMonotone(m, m + 1);
    DigitsBounds(m + 1);
    if Digits(m + 1) > k + 1 {
      PowMonotone(k + 1, Digits(m + 1) - 1);
    }
  }

  /** The successive estimates. */
  function Iterate(before: string, after: string, k: nat): nat {
    if k == 0 then 0 else Cost(before, Iterate(before, after, k - 1), after)
  }

  /** The third estimate no longer changes. */
  lemma {:induction false} ThirdIsStable(before: string, after: string)
    ensures Cost(before, Iterate(before, after, 3), after) == Iterate(before, after, 3)
  {
    hide View, EstimateTokens, Cost, Digits;
    var c := |before| + |after|;
    var e1 := Cost(before, 0, after);
    var e2 := Cost(before, e1, after);
    var e3 := Cost(before, e2, after);
    CostIs(before, 0, after);
    CostIs(before, e1, after);
    CostIs(before, e2, after);
    CostIs(before, e3, after);
    DigitOfZero();
    assert Iterate(before, after, 1) == e1 && Iterate(before, after, 2) == e2 && Iterate(before, after, 3) == e3;
    OneDigitMore(e1, e2);
    if Digits(e2) != Digits(e1) {
      assert e3 == e2 || e3 == e2 + 1;
    }
  }

  lemma DigitOfZero()
    ensures Digits(0) == 1
  {
  }

  /** Estimates never exceed a self-consistent one. */
  lemma {:induction false} BelowFixedPoints(before: string, after: string, k: nat, p: nat)
    requires Cost(before, p, after) == p
    ensures Iterate(before, after, k) <= p
  {
    hide Cost;
    if k > 0 {
      BelowFixedPoints(before, after, k - 1, p);
      CostIs(before, Iterate(before, after, k - 1), after);
      CostIs(before, p, after);
      DigitsMonotone(Iterate(before, after, k - 1), p);
    }
  }

  /** Main result: the loop ends within four evaluations, at the least count that is the cost of the view showing it. */
  method StableComparisonTokens(before: string, after: string) returns (estimated: nat, evaluations: nat)
    ensures estimated == Cost(before, estimated, after)
    ensures forall p: nat :: Cost(before, p, after) == p ==> estimated <= p
    ensures 1 <= evaluations <= 4
  {
    hide Cost;
    ThirdIsStable(before, after);
    forall p: nat, k: nat | Cost(before, p, after) == p ensures Iterate(before, after, k) <= p {
      BelowFixedPoints(before, after, k, p);
    }
    estimated, evaluations := 0, 0;
    while true
      invariant 0 <= evaluations <= 3 && estimated == Iterate(before, after, evaluations)
      decreases 4 - evaluations
    {
      var candidate := EstimateTokens(View(before, estimated, after));
      evaluations := evaluations + 1;
      assert candidate == Iterate(before, after, evaluations) by {
        CostUnfolds(before, estimated, after);
      }
      if candidate == estimated {
        CostUnfolds(before, estimated, after);
        return;
      }
      estimated := candidate;
    }
  }

  lemma CostUnfolds(before: string, estimated: nat, after: string)
    ensures Cost(before, estimated, after) == EstimateTokens(View(before, estimated, after))
  {
  }

  /** The bound is tight: with 399,995 other characters the estimates are 99,999, then 100,000, then 100,001. */
  lemma {:induction false} FourAreNeeded(before: string, after: string)
    requires |before| + |after| == 399995
    ensures Iterate(before, after, 1) == 99999
    ensures Iterate(before, after, 2) == 100000
    ensures Iterate(before, after, 3) == 100001
  {
    hide View, EstimateTokens, Cost;
    CostIs(before, 0, after);
    CostIs(before, 99999, after);
    CostIs(before, 100000, after);
    SixDigits();
    assert Iterate(before, after, 1) == Cost(before, Iterate(before, after, 0), after);
    assert Iterate(before, after, 2) == Cost(before, Iterate(before, after, 1), after);
    assert Iterate(before, after, 3) == Cost(before, Iterate(before, after, 2), after);
  }

  lemma SixDigits()
    ensures Digits(0) == 1 && Digits(99999) == 5 && Digits(100000) == 6
  {
    assert Digits(99) == 2 && Digits(9999) == 4;
    assert Digits(100) == 3 && Digits(10000) == 5;
  }
}
