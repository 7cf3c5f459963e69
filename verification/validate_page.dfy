/**
 * The validation page (src/app/validate/page.tsx): the stub evaluation that
 * marks every rule as passed, the quality score, its three breakdowns and the
 * label shown beside it. Scores are computed in exact rationals; `Math.round`
 * of a non-negative number x is Floor(x + 1/2).
 */
module Validate {
  import opened Wrappers
  import opened Text
  import opened Rules
  import opened Records

  datatype ResultStatus = Pass | Fail | Warning | Pending

  /** A rule with its status replaced by a result status, plus an optional details line. */
  datatype ValidationResult = ValidationResult(
    id: string,
    name: string,
    description: string,
    kind: RuleKind,
    conditions: seq<string>,
    actions: seq<string>,
    priority: Priority,
    status: ResultStatus,
    details: Option<string>)

  /** Every field of the rule other than its status is carried over unchanged. */
  predicate CopiesRule(res: ValidationResult, rule: BusinessRule)
  {
    && res.id == rule.id && res.name == rule.name && res.description == rule.description
    && res.kind == rule.kind && res.conditions == rule.conditions
    && res.actions == rule.actions && res.priority == rule.priority
  }

  function StubResult(rule: BusinessRule, recordCount: nat): ValidationResult
  {
    ValidationResult(
      rule.id, rule.name, rule.description, rule.kind, rule.conditions, rule.actions, rule.priority,
      Pass, Some("Checked " + NatToString(recordCount) + " records for rule: " + rule.name))
  }

  /**
   * `runValidation`: no records (absent or empty) gives no results; otherwise
   * one passing result per rule, in order, whatever the rule's own status.
   */
  function RunValidation(records: Option<seq<Record>>, rules: seq<BusinessRule>): (results: seq<ValidationResult>)
    ensures records.None? || records.value == [] ==> results == []
    ensures records.Some? && records.value != [] ==>
      |results| == |rules|
      && forall i :: 0 <= i < |rules| ==> results[i].status == Pass && CopiesRule(results[i], rules[i])
    ensures records.Some? && records.value != [] ==>
      forall i :: 0 <= i < |rules| ==>
        results[i].details == Some("Checked " + NatToString(|records.value|) + " records for rule: " + rules[i].name)
  {
    if records.None? || records.value == [] then []
    else seq(|rules|, i requires 0 <= i < |rules| => StubResult(rules[i], |records.value|))
  }

  /** What one result adds to the score. */
  function Weight(s: ResultStatus): (w: real)
    ensures 0.0 <= w <= 1.0
    ensures w == 1.0 <==> s == Pass
    ensures w == 0.0 <==> s == Fail
  {
    match s
    case Pass => 1.0
    case Warning => 0.5
    case Pending => 0.25
    case Fail => 0.0
  }

  /** The sum the score loop accumulates, taken from the front. */
  function TotalWeight(results: seq<ValidationResult>): (t: real)
    ensures 0.0 <= t <= |results| as real
  {
    if results == [] then 0.0
    else TotalWeight(results[..|results| - 1]) + Weight(results[|results| - 1].status)
  }

  /** `Math.round(x)`: the nearest integer, halves rounding up. */
  function Round(x: real): (r: int)
    ensures r as real - 0.5 <= x < r as real + 0.5
  {
    (x + 0.5).Floor
  }

  /** round(100 * k / n), and 0 when there is nothing to divide by. */
  function Percent(k: real, n: nat): int
  {
    if n == 0 then 0 else Round(k / n as real * 100.0)
  }

  /** The quality score: round(100 * mean weight), 0 with no results; always within 0..100. */
  function QualityScore(results: seq<ValidationResult>): (score: int)
    ensures 0 <= score <= 100
  {
    var n := |results|;
    if n == 0 then 0
    else
      var t := TotalWeight(results);
      PercentBounds(t, n);
      Percent(t, n)
  }

  /** A ratio between 0 and 1 rounds to a percentage between 0 and 100. */
  lemma PercentBounds(k: real, n: nat)
    requires n > 0 && 0.0 <= k <= n as real
    ensures 0 <= Percent(k, n) <= 100
  {
    var q := k / n as real;
    assert q * n as real == k;
    assert 0.0 <= q <= 1.0;
  }

  /** Rounding a larger ratio never gives a smaller percentage. */
  lemma PercentMonotone(a: real, b: real, n: nat)
    requires 0.0 <= a <= b
    ensures Percent(a, n) <= Percent(b, n)
  {
    if n > 0 {
      var d := n as real;
      assert a / d <= b / d by {
        assert (b / d - a / d) * d == b - a;
      }
    }
  }

  /** `calculateQualityScore`: the weights are summed in a loop, then averaged and rounded. */
  method CalculateQualityScore(results: seq<ValidationResult>) returns (score: int)
    ensures score == QualityScore(results)
    ensures 0 <= score <= 100
  {
    if |results| == 0 {
      return 0;
    }
    var total := 0.0;
    for i := 0 to |results|
      invariant total == TotalWeight(results[..i])
    {
      assert results[..i + 1][..i] == results[..i];
      match results[i].status
      case Pass => total := total + 1.0;
      case Warning => total := total + 0.5;
      case Pending => total := total + 0.25;
      case Fail => total := total + 0.0;
    }
    assert results[..|results|] == results;
    score := Round(total / |results| as real * 100.0);
  }

  /** The weights of a concatenation add up. */
  lemma {:induction false} TotalWeightAppend(a: seq<ValidationResult>, b: seq<ValidationResult>)
    ensures TotalWeight(a + b) == TotalWeight(a) + TotalWeight(b)
  {
    if b == [] {
      assert a + b == a;
    } else {
      var b' := b[..|b| - 1];
      assert (a + b)[..|a + b| - 1] == a + b';
      TotalWeightAppend(a, b');
    }
  }

  /** Taking one result out of the list takes its weight out of the total. */
  lemma RemoveOne(t: seq<ValidationResult>, i: nat)
    requires i < |t|
    ensures TotalWeight(t) == TotalWeight(t[..i] + t[i + 1..]) + Weight(t[i].status)
  {
    var a, b, x := t[..i], t[i + 1..], t[i];
    var xb := [x] + b;
    assert t == a + xb;
    TotalWeightAppend(a, xb);
    TotalWeightAppend([x], b);
    TotalWeightAppend(a, b);
    SingleWeight(x);
    calc {
      TotalWeight(t);
      TotalWeight(a) + TotalWeight(xb);
      TotalWeight(a) + (Weight(x.status) + TotalWeight(b));
      TotalWeight(a + b) + Weight(x.status);
    }
  }

  lemma RemoveOneMultiset(t: seq<ValidationResult>, i: nat)
    requires i < |t|
    ensures multiset(t[..i] + t[i + 1..]) == multiset(t) - multiset{t[i]}
  {
    assert t == t[..i] + [t[i]] + t[i + 1..];
  }

  lemma SingleWeight(r: ValidationResult)
    ensures TotalWeight([r]) == Weight(r.status)
  {
    assert [r][..0] == [];
  }

  /** The total does not depend on the order of the results. */
  lemma {:induction false} TotalWeightPermutation(s: seq<ValidationResult>, t: seq<ValidationResult>)
    requires multiset(s) == multiset(t)
    ensures TotalWeight(s) == TotalWeight(t)
    decreases |s|
  {
    if s != [] {
      var last := s[|s| - 1];
      var s' := s[..|s| - 1];
      assert s == s' + [last];
      assert multiset(s') == multiset(s) - multiset{last};
      assert last in multiset(t);
      var i :| 0 <= i < |t| && t[i] == last;
      RemoveOne(t, i);
      RemoveOneMultiset(t, i);
      TotalWeightPermutation(s', t[..i] + t[i + 1..]);
    } else {
      assert |t| == |multiset(t)| == 0;
    }
  }

  /** Reordering the results leaves the score alone. */
  lemma QualityScorePermutation(s: seq<ValidationResult>, t: seq<ValidationResult>)
    requires multiset(s) == multiset(t)
    ensures QualityScore(s) == QualityScore(t)
  {
    TotalWeightPermutation(s, t);
    assert |s| == |multiset(s)| == |multiset(t)| == |t|;
  }

  /** How many results have a status in `accepted` (the page's `filter(...).length`). */
  function CountIn(results: seq<ValidationResult>, accepted: set<ResultStatus>): (c: nat)
    ensures c <= |results|
  {
    if results == [] then 0
    else CountIn(results[..|results| - 1], accepted) + (if results[|results| - 1].status in accepted then 1 else 0)
  }

  /** Completeness: the share of passing results. */
  function Completeness(results: seq<ValidationResult>): int
  {
    Percent(CountIn(results, {Pass}) as real, |results|)
  }

  /** Accuracy: the share of results that did not fail. */
  function Accuracy(results: seq<ValidationResult>): int
  {
    Percent(CountIn(results, {Pass, Warning, Pending}) as real, |results|)
  }

  /** Consistency: the share of results that passed or only warned. */
  function Consistency(results: seq<ValidationResult>): int
  {
    Percent(CountIn(results, {Pass, Warning}) as real, |results|)
  }

  /** Accepting more statuses never counts fewer results. */
  lemma {:induction false} CountInMonotone(results: seq<ValidationResult>, a: set<ResultStatus>, b: set<ResultStatus>)
    requires a <= b
    ensures CountIn(results, a) <= CountIn(results, b)
  {
    if results != [] {
      CountInMonotone(results[..|results| - 1], a, b);
    }
  }

  /** Each pass adds 1 and nothing else adds more; each non-failure adds at most 1 and failures add 0. */
  lemma {:induction false} TotalWeightBetweenCounts(results: seq<ValidationResult>)
    ensures CountIn(results, {Pass}) as real <= TotalWeight(results)
    ensures TotalWeight(results) <= CountIn(results, {Pass, Warning, Pending}) as real
  {
    if results != [] {
      TotalWeightBetweenCounts(results[..|results| - 1]);
    }
  }

  /** The breakdowns are ordered, and the score lies between completeness and accuracy. */
  lemma BreakdownOrder(results: seq<ValidationResult>)
    ensures Completeness(results) <= Consistency(results) <= Accuracy(results)
    ensures Completeness(results) <= QualityScore(results) <= Accuracy(results)
  {
    var n := |results|;
    CountInMonotone(results, {Pass}, {Pass, Warning});
    CountInMonotone(results, {Pass, Warning}, {Pass, Warning, Pending});
    PercentMonotone(CountIn(results, {Pass}) as real, CountIn(results, {Pass, Warning}) as real, n);
    PercentMonotone(CountIn(results, {Pass, Warning}) as real, CountIn(results, {Pass, Warning, Pending}) as real, n);
    TotalWeightBetweenCounts(results);
    PercentMonotone(CountIn(results, {Pass}) as real, TotalWeight(results), n);
    PercentMonotone(TotalWeight(results), CountIn(results, {Pass, Warning, Pending}) as real, n);
  }

  /** When every result passes the total is the number of results; when every result fails it is 0. */
  lemma {:induction false} TotalWeightUniform(results: seq<ValidationResult>)
    ensures (forall i :: 0 <= i < |results| ==> results[i].status == Pass) ==> TotalWeight(results) == |results| as real
    ensures (forall i :: 0 <= i < |results| ==> results[i].status == Fail) ==> TotalWeight(results) == 0.0
  {
    if results != [] {
      TotalWeightUniform(results[..|results| - 1]);
    }
  }

  /** All passing gives 100, all failing gives 0. */
  lemma ScoreExtremes(results: seq<ValidationResult>)
    requires |results| > 0
    ensures (forall i :: 0 <= i < |results| ==> results[i].status == Pass) ==> QualityScore(results) == 100
    ensures (forall i :: 0 <= i < |results| ==> results[i].status == Fail) ==> QualityScore(results) == 0
  {
    TotalWeightUniform(results);
    var n := |results| as real;
    assert n / n == 1.0;
    assert 0.0 / n == 0.0;
  }

  /** The heading beside the score. */
  function QualityLabel(score: int): string
  {
    if score >= 80 then "Good Quality"
    else if score >= 60 then "Fair Quality"
    else "Needs Improvement"
  }

  /** The sentence under the heading. */
  function QualityAdvice(score: int): string
  {
    if score >= 80 then "Your data meets most quality standards."
    else "Address the failed or warning validations to improve the score."
  }

  /** The label follows the thresholds: 80 and up is good, 60 to 79 fair, below 60 needs improvement; the advice agrees with it. */
  lemma LabelThresholds(score: int)
    ensures QualityLabel(score) == "Good Quality" <==> score >= 80
    ensures QualityLabel(score) == "Fair Quality" <==> 60 <= score < 80
    ensures QualityLabel(score) == "Needs Improvement" <==> score < 60
    ensures QualityAdvice(score) == "Your data meets most quality standards." <==> QualityLabel(score) == "Good Quality"
  {
  }

  /**
   * Every result has exactly one status: the pass, warning, fail and pending
   * counts add up to the total, and "not failed" counts exactly the rest.
   */
  lemma {:induction false} StatusCountsAddUp(results: seq<ValidationResult>)
    ensures CountIn(results, {Pass}) + CountIn(results, {Warning}) + CountIn(results, {Fail})
            + CountIn(results, {Pending}) == |results|
    ensures CountIn(results, {Pass, Warning, Pending}) + CountIn(results, {Fail}) == |results|
  {
    if results != [] {
      var init := results[..|results| - 1];
      var last := results[|results| - 1].status;
      StatusCountsAddUp(init);
      assert CountIn(results, {Pass}) == CountIn(init, {Pass}) + (if last == Pass then 1 else 0);
      assert CountIn(results, {Warning}) == CountIn(init, {Warning}) + (if last == Warning then 1 else 0);
      assert CountIn(results, {Fail}) == CountIn(init, {Fail}) + (if last == Fail then 1 else 0);
      assert CountIn(results, {Pending}) == CountIn(init, {Pending}) + (if last == Pending then 1 else 0);
      assert CountIn(results, {Pass, Warning, Pending}) == CountIn(init, {Pass, Warning, Pending}) + (if last != Fail then 1 else 0);
    }
  }

  /** A status filter that accepts every result's status counts them all. */
  lemma {:induction false} CountInAll(results: seq<ValidationResult>, accepted: set<ResultStatus>)
    requires forall i :: 0 <= i < |results| ==> results[i].status in accepted
    ensures CountIn(results, accepted) == |results|
  {
    if results != [] {
      CountInAll(results[..|results| - 1], accepted);
    }
  }

  lemma PercentFull(n: nat)
    requires n > 0
    ensures Percent(n as real, n) == 100
  {
    assert n as real / n as real == 1.0;
  }

  /**
   * What the stub makes of the page: with records and at least one rule every
   * figure is 100% and the label is "Good Quality"; with no rules everything is
   * 0 and the label is "Needs Improvement".
   */
  lemma StubScores(records: Option<seq<Record>>, rules: seq<BusinessRule>)
    ensures var results := RunValidation(records, rules);
      if results == [] then
        QualityScore(results) == 0 && QualityLabel(QualityScore(results)) == "Needs Improvement"
        && Completeness(results) == 0 && Accuracy(results) == 0 && Consistency(results) == 0
      else
        QualityScore(results) == 100 && QualityLabel(QualityScore(results)) == "Good Quality"
        && Completeness(results) == 100 && Accuracy(results) == 100 && Consistency(results) == 100
  {
    var results := RunValidation(records, rules);
    if results != [] {
      assert forall i :: 0 <= i < |results| ==> results[i].status == Pass;
      ScoreExtremes(results);
      CountInAll(results, {Pass});
      CountInAll(results, {Pass, Warning});
      CountInAll(results, {Pass, Warning, Pending});
      PercentFull(|results|);
    }
  }
}
