/**
 * compareScenarios: every scenario is simulated, its display strings are read
 * back as numbers, and two stable sorts pick the best by risk (lowest
 * percentage) and the best by longevity (longest time). The report keeps the
 * per-scenario metric lines, both names and the trade-off verdict; its prose
 * around them is fixed.
 */
module Comparator {
  import opened Common
  import opened Parameters
  import opened PatternDetector
  import opened RiskSimulator

  /** One metric line: the scenario name with its parsed percentage and minutes. */
  datatype Evaluation = Evaluation(name: string, failurePercent: int, minutes: real)

  /** The two rankings: by risk (ascending percentage) and by longevity (descending minutes). */
  datatype Criterion = ByRisk | ByLongevity

  /** Trade-off verdict: one scenario is best on both, or the two winners are contrasted. */
  datatype TradeOff = BestOnBoth(name: string) | Contrast(safest: string, longest: string)

  datatype Report = Report(metrics: seq<Evaluation>, bestByRisk: string, bestByLongevity: string, tradeOff: TradeOff)

  /** The value a ranking sorts on in ascending order (`a - b` for risk, `b - a` for time). */
  function Key(e: Evaluation, c: Criterion): real
  {
    match c
    case ByRisk => e.failurePercent as real
    case ByLongevity => -e.minutes
  }

  /** A scenario's metric line, read back from its simulation output. */
  function Evaluate(sc: Scenario): Evaluation
  {
    var sim := Simulate(sc.paramList);
    Evaluation(sc.name, sim.failurePercent, sim.minutes)
  }

  predicate SortedBy(s: seq<Evaluation>, c: Criterion)
  {
    forall i, j :: 0 <= i < j < |s| ==> Key(s[i], c) <= Key(s[j], c)
  }

  /**
   * Inserts `x` before the first element whose key is not below its own, so
   * that `x`, coming earlier in the input, stays ahead of its equals.
   */
  function Insert(x: Evaluation, s: seq<Evaluation>, c: Criterion): seq<Evaluation>
  {
    if s == [] || Key(x, c) <= Key(s[0], c) then [x] + s else [s[0]] + Insert(x, s[1..], c)
  }

  /** A stable sort by key: insertion from the back, so earlier elements win ties. */
  function SortBy(s: seq<Evaluation>, c: Criterion): seq<Evaluation>
  {
    if s == [] then [] else Insert(s[0], SortBy(s[1..], c), c)
  }

  /** The earliest position holding the smallest key. */
  function FirstMinIndex(s: seq<Evaluation>, c: Criterion): (i: nat)
    requires |s| > 0
    ensures i < |s|
    ensures forall j :: 0 <= j < |s| ==> Key(s[i], c) <= Key(s[j], c)
    ensures forall j :: 0 <= j < i ==> Key(s[j], c) > Key(s[i], c)
  {
    if |s| == 1 then 0
    else
      var k := FirstMinIndex(s[1..], c) + 1;
      assert forall j :: 1 <= j < |s| ==> s[j] == s[1..][j - 1];
      if Key(s[0], c) <= Key(s[k], c) then 0 else k
  }

  /** Insertion adds exactly one occurrence of `x`. */
  lemma {:induction false} InsertPerm(x: Evaluation, s: seq<Evaluation>, c: Criterion)
    ensures multiset(Insert(x, s, c)) == multiset(s) + multiset{x}
    ensures |Insert(x, s, c)| == |s| + 1
  {
    if s != [] && Key(x, c) > Key(s[0], c) {
      InsertPerm(x, s[1..], c);
      assert s == [s[0]] + s[1..];
    }
  }

  /** Whatever insertion puts in front: `x` when it is not above the old head, the old head otherwise. */
  lemma InsertHead(x: Evaluation, s: seq<Evaluation>, c: Criterion)
    requires |s| > 0
    ensures Insert(x, s, c)[0] == (if Key(x, c) <= Key(s[0], c) then x else s[0])
  {
  }

  /** A sorted list's tail is sorted and bounded below by its head. */
  lemma SortedTail(s: seq<Evaluation>, c: Criterion)
    requires SortedBy(s, c) && |s| > 0
    ensures SortedBy(s[1..], c)
    ensures forall i :: 0 <= i < |s[1..]| ==> Key(s[0], c) <= Key(s[1..][i], c)
  {
    var t := s[1..];
    forall i, j | 0 <= i < j < |t| ensures Key(t[i], c) <= Key(t[j], c) {
      assert t[i] == s[i + 1] && t[j] == s[j + 1];
    }
  }

  /** A lower bound on `x` and on every element of `s` bounds every element after insertion. */
  lemma {:induction false} InsertBound(x: Evaluation, s: seq<Evaluation>, c: Criterion, b: real)
    requires b <= Key(x, c)
    requires forall i :: 0 <= i < |s| ==> b <= Key(s[i], c)
    ensures forall i :: 0 <= i < |Insert(x, s, c)| ==> b <= Key(Insert(x, s, c)[i], c)
  {
    if s != [] && Key(x, c) > Key(s[0], c) {
      var t := s[1..];
      assert forall i :: 0 <= i < |t| ==> t[i] == s[i + 1];
      InsertBound(x, t, c, b);
      var r := Insert(x, t, c);
      assert forall i :: 0 < i < |r| + 1 ==> ([s[0]] + r)[i] == r[i - 1];
    }
  }

  /** Insertion into a sorted list keeps it sorted. */
  lemma {:induction false} InsertSorted(x: Evaluation, s: seq<Evaluation>, c: Criterion)
    requires SortedBy(s, c)
    ensures SortedBy(Insert(x, s, c), c)
  {
    if s == [] {
    } else if Key(x, c) <= Key(s[0], c) {
      var out := [x] + s;
      forall i, j | 0 <= i < j < |out| ensures Key(out[i], c) <= Key(out[j], c) {
        assert out[j] == s[j - 1];
        if i > 0 {
          assert out[i] == s[i - 1];
        }
      }
    } else {
      var t := s[1..];
      SortedTail(s, c);
      InsertSorted(x, t, c);
      InsertBound(x, t, c, Key(s[0], c));
      var r := Insert(x, t, c);
      var out := [s[0]] + r;
      forall i, j | 0 <= i < j < |out| ensures Key(out[i], c) <= Key(out[j], c) {
        assert out[j] == r[j - 1];
        if i > 0 {
          assert out[i] == r[i - 1];
        }
      }
    }
  }

  /** The sort yields a sorted permutation of its input. */
  lemma {:induction false} SortByFacts(s: seq<Evaluation>, c: Criterion)
    ensures SortedBy(SortBy(s, c), c)
    ensures multiset(SortBy(s, c)) == multiset(s)
    ensures |SortBy(s, c)| == |s|
  {
    if s != [] {
      SortByFacts(s[1..], c);
      InsertSorted(s[0], SortBy(s[1..], c), c);
      InsertPerm(s[0], SortBy(s[1..], c), c);
      assert s == [s[0]] + s[1..];
    }
  }

  /** Stability where it matters: the head of the sort is the earliest element with the smallest key. */
  lemma {:induction false} SortByHead(s: seq<Evaluation>, c: Criterion)
    requires |s| > 0
    ensures |SortBy(s, c)| > 0
    ensures SortBy(s, c)[0] == s[FirstMinIndex(s, c)]
  {
    SortByFacts(s, c);
    if |s| > 1 {
      var t := s[1..];
      SortByHead(t, c);
      SortByFacts(t, c);
      InsertHead(s[0], SortBy(t, c), c);
      assert forall j :: 1 <= j < |s| ==> s[j] == t[j - 1];
    }
  }

  /** The ranking step: no report for an empty list, where the source fails on `sortedByRisk[0]`. */
  function Rank(results: seq<Evaluation>): (r: Option<Report>)
    ensures r.Some? <==> |results| > 0
    ensures r.Some? ==> r.value.metrics == results
    ensures r.Some? ==> (r.value.tradeOff.BestOnBoth? <==> r.value.bestByRisk == r.value.bestByLongevity)
  {
    if results == [] then None
    else
      SortByFacts(results, ByRisk);
      SortByFacts(results, ByLongevity);
      var safest := SortBy(results, ByRisk)[0].name;
      var longest := SortBy(results, ByLongevity)[0].name;
      Some(Report(results, safest, longest, if safest == longest then BestOnBoth(safest) else Contrast(safest, longest)))
  }

  /** Every scenario's metric line, in input order. */
  function Evaluations(scenarios: seq<Scenario>): (r: seq<Evaluation>)
    ensures |r| == |scenarios|
    ensures forall k :: 0 <= k < |scenarios| ==> r[k] == Evaluate(scenarios[k])
  {
    seq(|scenarios|, k requires 0 <= k < |scenarios| => Evaluate(scenarios[k]))
  }

  /** compareScenarios as a function of the scenario list. */
  function Compare(scenarios: seq<Scenario>): Option<Report>
  {
    Rank(Evaluations(scenarios))
  }

  /**
   * The imperative comparator: simulate each scenario and append its metric
   * line, then rank the lines and pick the two winners.
   */
  method CompareScenarios(scenarios: seq<Scenario>) returns (r: Option<Report>)
    ensures r == Compare(scenarios)
  {
    var results: seq<Evaluation> := [];
    var i := 0;
    while i < |scenarios|
      invariant 0 <= i <= |scenarios|
      invariant |results| == i
      invariant forall k :: 0 <= k < i ==> results[k] == Evaluate(scenarios[k])
    {
      var sim := SimulateScenario(scenarios[i]);
      results := results + [Evaluation(scenarios[i].name, sim.failurePercent, sim.minutes)];
      i := i + 1;
    }
    assert results == Evaluations(scenarios);
    if |results| == 0 {
      return None;
    }
    SortByFacts(results, ByRisk);
    SortByFacts(results, ByLongevity);
    var sortedByRisk := SortBy(results, ByRisk);
    var sortedByTime := SortBy(results, ByLongevity);
    var safest := sortedByRisk[0].name;
    var longest := sortedByTime[0].name;
    var tradeOff := if safest == longest then BestOnBoth(safest) else Contrast(safest, longest);
    r := Some(Report(results, safest, longest, tradeOff));
  }

  // ---------------------------------------------------------------------------
  // Properties of the comparator

  /** A report exists exactly for a non-empty list, and lists every scenario's metric line in input order. */
  lemma CompareMetrics(scenarios: seq<Scenario>)
    ensures Compare(scenarios).Some? <==> |scenarios| > 0
    ensures |scenarios| > 0 ==> Compare(scenarios).value.metrics == Evaluations(scenarios)
  {
  }

  /** Position `i` holds the lowest percentage, and no earlier position ties it. */
  predicate EarliestSafest(results: seq<Evaluation>, i: int)
  {
    0 <= i < |results| &&
    (forall j :: 0 <= j < |results| ==> results[i].failurePercent <= results[j].failurePercent) &&
    (forall j :: 0 <= j < i ==> results[j].failurePercent > results[i].failurePercent)
  }

  /** Position `i` holds the longest time, and no earlier position ties it. */
  predicate EarliestLongest(results: seq<Evaluation>, i: int)
  {
    0 <= i < |results| &&
    (forall j :: 0 <= j < |results| ==> results[i].minutes >= results[j].minutes) &&
    (forall j :: 0 <= j < i ==> results[j].minutes < results[i].minutes)
  }

  /**
   * Best by risk is the earliest line with the lowest percentage, and best by
   * longevity the earliest with the longest time.
   */
  lemma RankWinners(results: seq<Evaluation>)
    requires |results| > 0
    ensures exists i :: EarliestSafest(results, i) && Rank(results).value.bestByRisk == results[i].name
    ensures exists i :: EarliestLongest(results, i) && Rank(results).value.bestByLongevity == results[i].name
  {
    SortByHead(results, ByRisk);
    SortByHead(results, ByLongevity);
    var a := FirstMinIndex(results, ByRisk);
    var b := FirstMinIndex(results, ByLongevity);
    assert EarliestSafest(results, a) && Rank(results).value.bestByRisk == results[a].name;
    assert EarliestLongest(results, b) && Rank(results).value.bestByLongevity == results[b].name;
  }

  /** The same for whole scenarios, through their simulated metric lines. */
  lemma CompareWinners(scenarios: seq<Scenario>)
    requires |scenarios| > 0
    ensures exists i :: EarliestSafest(Evaluations(scenarios), i) && Compare(scenarios).value.bestByRisk == scenarios[i].name
    ensures exists i :: EarliestLongest(Evaluations(scenarios), i) && Compare(scenarios).value.bestByLongevity == scenarios[i].name
  {
    RankWinners(Evaluations(scenarios));
  }

  /**
   * A lower-risk, longer-lived line wins both rankings against a riskier,
   * shorter-lived one, whichever is listed first.
   */
  lemma DominantWins(a: Evaluation, b: Evaluation)
    requires a.failurePercent < b.failurePercent && a.minutes > b.minutes
    ensures Rank([a, b]).value.bestByRisk == a.name && Rank([a, b]).value.bestByLongevity == a.name
    ensures Rank([b, a]).value.bestByRisk == a.name && Rank([b, a]).value.bestByLongevity == a.name
    ensures Rank([a, b]).value.tradeOff == BestOnBoth(a.name) && Rank([b, a]).value.tradeOff == BestOnBoth(a.name)
  {
    RankWinners([a, b]);
    RankWinners([b, a]);
  }

  /** On a full tie the first line in input order wins both rankings. */
  lemma TieGoesToFirst(a: Evaluation, b: Evaluation)
    requires a.failurePercent == b.failurePercent && a.minutes == b.minutes
    ensures Rank([a, b]).value.bestByRisk == a.name && Rank([a, b]).value.bestByLongevity == a.name
  {
    RankWinners([a, b]);
  }

  /**
   * A scenario whose values average 20 and that fires neither hazard pattern
   * beats a scenario on the overheated-welding pattern in both rankings,
   * whichever of the two is listed first.
   */
  lemma AverageTwentyBeatsWelding(a: Scenario, b: Scenario)
    requires |a.paramList| > 0 && Sum(a.paramList) == 20.0 * (|a.paramList| as real)
    requires !IsOverheatedWelding(ParamMap(a.paramList)) && !IsProcessOverload(ParamMap(a.paramList))
    requires Detect(b.paramList) == Some(OverheatedWelding)
    ensures Compare([a, b]).value.bestByRisk == a.name && Compare([a, b]).value.bestByLongevity == a.name
    ensures Compare([a, b]).value.tradeOff == BestOnBoth(a.name)
    ensures Compare([b, a]).value.bestByRisk == a.name && Compare([b, a]).value.bestByLongevity == a.name
    ensures Compare([b, a]).value.tradeOff == BestOnBoth(a.name)
  {
    MeanTwentyOutcome(a.paramList);
    PayloadTexts();
    assert Evaluations([a, b]) == [Evaluate(a), Evaluate(b)];
    assert Evaluations([b, a]) == [Evaluate(b), Evaluate(a)];
    DominantWins(Evaluate(a), Evaluate(b));
  }
}
