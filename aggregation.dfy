/**
 * The vote of the five classifiers: one verdict per model, the number of
 * models that predict heart disease, the rounded percentage and the sentence
 * that reports it.
 */
module Aggregation {
  import opened Wrappers
  import opened Dicts
  import opened Numerals

  const High: string := "High Chance of Heart Disease"
  const Low: string := "Low Chance of Heart Disease"
  const MessageSuffix: string := "% chance that you have heart disease"

  /** A fitted classifier: `int(model.predict(X)[0])` on the aligned, transformed row. */
  type Classifier = seq<real> -> int

  /** The text shown for the class one model predicts. */
  function Verdict(predicted: int): (s: string)
    ensures s == High || s == Low
    ensures s == High <==> predicted == 1
  {
    if predicted == 1 then High else Low
  }

  /** The labels the models predict for `x`, in the models' order. */
  function Labels(models: Dict<Classifier>, x: seq<real>): (ls: seq<int>)
    ensures |ls| == |models|
  {
    seq(|models|, i requires 0 <= i < |models| => models[i].1(x))
  }

  function Sum(ls: seq<int>): int {
    if ls == [] then 0 else Sum(ls[..|ls| - 1]) + ls[|ls| - 1]
  }

  /** How many of the labels equal `v`. */
  function Count(ls: seq<int>, v: int): (n: nat)
    ensures n <= |ls|
  {
    if ls == [] then 0 else Count(ls[..|ls| - 1], v) + (if ls[|ls| - 1] == v then 1 else 0)
  }

  predicate Binary(ls: seq<int>) {
    forall i :: 0 <= i < |ls| ==> ls[i] == 0 || ls[i] == 1
  }

  /** With 0/1 labels, the running sum is the number of models that predict heart disease. */
  lemma {:induction false} SumCountsPositives(ls: seq<int>)
    requires Binary(ls)
    ensures Sum(ls) == Count(ls, 1)
    ensures 0 <= Sum(ls) <= |ls|
  {
    if ls != [] {
      var init := ls[..|ls| - 1];
      assert Binary(init) by {
        forall i | 0 <= i < |init| ensures init[i] == 0 || init[i] == 1 {
          assert init[i] == ls[i];
        }
      }
      SumCountsPositives(init);
    }
  }

  lemma SumAppend(ls: seq<int>, p: int)
    ensures Sum(ls + [p]) == Sum(ls) + p
  {
    assert (ls + [p])[..|ls|] == ls;
  }

  lemma LabelsPrefix(models: Dict<Classifier>, x: seq<real>, i: nat)
    requires i < |models|
    ensures Labels(models[..i + 1], x) == Labels(models[..i], x) + [models[i].1(x)]
  {
  }

  /** The i-th model's name has not been seen among the models before it. */
  lemma FreshName(models: Dict<Classifier>, i: nat)
    requires UniqueKeys(models) && i < |models|
    ensures models[i].0 !in Keys(models[..i])
    ensures Keys(models[..i + 1]) == Keys(models[..i]) + [models[i].0]
  {
    var ks := Keys(models[..i]);
    forall j | 0 <= j < i ensures ks[j] != models[i].0 {
      assert Keys(models)[j] != Keys(models)[i];
    }
  }

  /** The dict `detailed`: each model's name with the verdict on its prediction, in the models' order. */
  function Verdicts(models: Dict<Classifier>, x: seq<real>): (d: Dict<string>)
    ensures Keys(d) == Keys(models)
  {
    seq(|models|, i requires 0 <= i < |models| => (models[i].0, Verdict(models[i].1(x))))
  }

  lemma VerdictsPrefix(models: Dict<Classifier>, x: seq<real>, i: nat)
    requires i < |models|
    ensures Verdicts(models[..i + 1], x) == Verdicts(models[..i], x) + [(models[i].0, Verdict(models[i].1(x)))]
  {
    var a, b := Verdicts(models[..i + 1], x), Verdicts(models[..i], x) + [(models[i].0, Verdict(models[i].1(x)))];
    assert |a| == |b|;
    forall j | 0 <= j < |a| ensures a[j] == b[j] {
      if j < i {
        assert models[..i + 1][j] == models[..i][j];
      }
    }
  }

  /**
   * The loop over `models.items()`: each model's verdict is stored under its
   * name in `detailed` (insertion order), and its predicted class is added to `positives`.
   */
  method Aggregate(models: Dict<Classifier>, x: seq<real>) returns (detailed: Dict<string>, positives: int)
    requires UniqueKeys(models)
    ensures detailed == Verdicts(models, x)
    ensures positives == Sum(Labels(models, x))
  {
    detailed := [];
    positives := 0;
    for i := 0 to |models|
      invariant detailed == Verdicts(models[..i], x)
      invariant positives == Sum(Labels(models[..i], x))
    {
      var (name, model) := models[i];
      var p := model(x);
      FreshName(models, i);
      LabelsPrefix(models, x, i);
      SumAppend(Labels(models[..i], x), p);
      VerdictsPrefix(models, x, i);
      SetNew(detailed, name, Verdict(p), Keys(models[..i]));
      detailed := Set(detailed, name, Verdict(p));
      positives := positives + p;
    }
    assert models[..|models|] == models;
  }

  /** A model's verdict is found under its name, and it is the high-risk text exactly when the model predicts 1. */
  lemma VerdictOf(models: Dict<Classifier>, x: seq<real>, i: nat)
    requires UniqueKeys(models) && i < |models|
    ensures Get(Verdicts(models, x), models[i].0) == Some(if models[i].1(x) == 1 then High else Low)
  {
    var d := Verdicts(models, x);
    assert Keys(d)[i] == models[i].0;
    GetAt(d, i);
  }

  /**
   * `n / d` rounded to the nearest integer, ties to the even one: Python's
   * `round` of the exact quotient.
   */
  function RoundHalfEven(n: int, d: int): (k: int)
    requires d > 0
    ensures NearestEven(n, d, k)
  {
    var q, r := n / d, n % d;
    assert n - q * d == r;
    assert n - (q + 1) * d == r - d;
    if 2 * r < d then q
    else if 2 * r > d then q + 1
    else if q % 2 == 0 then q
    else q + 1
  }

  function Abs(x: int): nat {
    if x < 0 then -x else x
  }

  lemma MulAtLeast(t: int, c: int, d: int)
    requires t >= c >= 0 && d > 0
    ensures t * d >= c * d
  {
    assert t * d == c * d + (t - c) * d;
  }

  /** `k` is `n / d` rounded to the nearest integer, ties to the even one. */
  predicate NearestEven(n: int, d: int, k: int)
    requires d > 0
  {
    2 * Abs(n - k * d) <= d && (2 * Abs(n - k * d) == d ==> k % 2 == 0)
  }

  lemma NearestEvenUnique(n: int, d: int, k: int, h: int)
    requires d > 0 && NearestEven(n, d, k) && NearestEven(n, d, h)
    ensures k == h
  {
    var e1, e2 := n - k * d, n - h * d;
    assert (h - k) * d == e1 - e2;
    if h - k >= 2 {
      MulAtLeast(h - k, 2, d);
    } else if k - h >= 2 {
      MulAtLeast(k - h, 2, d);
    } else if h - k == 1 {
      assert false;
    } else if k - h == 1 {
      assert false;
    }
  }

  /** Only one integer is nearest, ties going to the even one: the rounding is determined by its contract. */
  lemma RoundHalfEvenUnique(n: int, d: int, k: int)
    requires d > 0 && NearestEven(n, d, k)
    ensures k == RoundHalfEven(n, d)
  {
    NearestEvenUnique(n, d, k, RoundHalfEven(n, d));
  }

  lemma NearestEvenMonotone(n1: int, n2: int, d: int, k1: int, k2: int)
    requires d > 0 && n1 <= n2 && NearestEven(n1, d, k1) && NearestEven(n2, d, k2)
    ensures k1 <= k2
  {
    if n1 == n2 {
      NearestEvenUnique(n1, d, k1, k2);
    } else if k1 > k2 {
      var e1, e2 := n1 - k1 * d, n2 - k2 * d;
      assert (k1 - k2) * d == n1 - n2 - e1 + e2;
      MulAtLeast(k1 - k2, 1, d);
    }
  }

  /** A larger quotient never rounds lower. */
  lemma RoundHalfEvenMonotone(n1: int, n2: int, d: int)
    requires d > 0 && n1 <= n2
    ensures RoundHalfEven(n1, d) <= RoundHalfEven(n2, d)
  {
    NearestEvenMonotone(n1, n2, d, RoundHalfEven(n1, d), RoundHalfEven(n2, d));
  }

  /** An exact quotient is its own rounding. */
  lemma RoundHalfEvenExact(k: int, d: int)
    requires d > 0
    ensures RoundHalfEven(k * d, d) == k
  {
    RoundHalfEvenUnique(k * d, d, k);
  }

  /** `round(positives / len(models) * 100)`. */
  function Percent(positives: int, total: int): (pct: int)
    requires total > 0
    ensures NearestEven(100 * positives, total, pct)
  {
    RoundHalfEven(100 * positives, total)
  }

  /** Between none and all of the models voting positive, the percentage is between 0 and 100. */
  lemma PercentBounds(positives: int, total: int)
    requires total > 0 && 0 <= positives <= total
    ensures 0 <= Percent(positives, total) <= 100
  {
    RoundHalfEvenExact(0, total);
    RoundHalfEvenExact(100, total);
    RoundHalfEvenMonotone(0, 100 * positives, total);
    RoundHalfEvenMonotone(100 * positives, 100 * total, total);
  }

  /** More positive votes never lower the percentage. */
  lemma PercentMonotone(p1: int, p2: int, total: int)
    requires total > 0 && p1 <= p2
    ensures Percent(p1, total) <= Percent(p2, total)
  {
    RoundHalfEvenMonotone(100 * p1, 100 * p2, total);
  }

  /** With five models each vote is worth exactly 20 points: no rounding happens. */
  lemma PercentOfFive(positives: int)
    ensures Percent(positives, 5) == 20 * positives
  {
    RoundHalfEvenExact(20 * positives, 5);
  }

  /** The sentence that reports the overall percentage. */
  function Message(pct: int): (m: string)
    ensures |m| > |MessageSuffix|
    ensures m[|m| - |MessageSuffix|..] == MessageSuffix
  {
    IntToString(pct) + MessageSuffix
  }

  /** The text in front of the suffix is the percentage printed without leading zeros, and reads back as it. */
  lemma MessageDigits(pct: nat)
    ensures var m := Message(pct); m[..|m| - |MessageSuffix|] == NatToString(pct)
    ensures var m := Message(pct);
            AllDigits(m[..|m| - |MessageSuffix|]) && DigitsValue(m[..|m| - |MessageSuffix|]) == pct
  {
    var m := Message(pct);
    assert m[..|m| - |MessageSuffix|] == NatToString(pct);
    NatToStringValue(pct);
  }

  /** Different percentages give different sentences. */
  lemma MessageInjective(a: nat, b: nat)
    requires Message(a) == Message(b)
    ensures a == b
  {
    MessageDigits(a);
    MessageDigits(b);
  }

  /** The sentence for 60%. */
  lemma MessageSixty()
    ensures Message(60) == "60% chance that you have heart disease"
  {
    SixtyDigits();
    SixtyText();
  }

  lemma SixtyText()
    ensures "60" + MessageSuffix == "60% chance that you have heart disease"
  {
  }

  lemma SixtyDigits()
    ensures IntToString(60) == "60"
  {
    assert DigitChar(6) == '6' && DigitChar(0) == '0';
    assert NatToString(60) == NatToString(6) + [DigitChar(0)];
  }
}
