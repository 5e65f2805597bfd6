/**
 * simulateScenario: a detected pattern's fixed payload, or else the default
 * heuristic (mean value, name-based bonuses, clamping) with a remark per
 * parameter. Outputs are kept as the numbers their display strings encode.
 */
module RiskSimulator {
  import opened Common
  import opened Parameters
  import opened PatternDetector

  /** The remark the default analysis attaches to one parameter. */
  datatype Remark = Stress | UnderPerformance | OptimalRange

  datatype RemarkLine = RemarkLine(param: string, value: real, remark: Remark)

  /** The explanation: a detected pattern's fixed text, or the per-parameter analysis. */
  datatype Reason = Premade(pattern: Pattern) | Analysis(lines: seq<RemarkLine>)

  /**
   * The simulation output. `failurePercent` is the integer the "NN%" text
   * spells, `minutes` the one-decimal number the "M.D minutes" text spells.
   */
  datatype SimulationOutput = SimulationOutput(failurePercent: int, minutes: real, reason: Reason)

  /** The sum of the values, accumulated from the first entry to the last. */
  function Sum(entries: seq<ParameterEntry>): real
  {
    if entries == [] then 0.0 else Sum(entries[..|entries| - 1]) + entries[|entries| - 1].value
  }

  /** `entries.some((p) => p.param.toLowerCase().includes(word))` */
  predicate AnyMentions(entries: seq<ParameterEntry>, word: string)
  {
    exists i :: 0 <= i < |entries| && Mentions(entries[i].param, word)
  }

  /** The name-based bonus: 0.1 for a temperature parameter, 0.1 for a vibration parameter. */
  function Adjustment(entries: seq<ParameterEntry>): real
  {
    (if AnyMentions(entries, "temperature") then 0.1 else 0.0) + (if AnyMentions(entries, "vibration") then 0.1 else 0.0)
  }

  /** The cap at 0.95 followed by the floor at 0.05. */
  function ClampProbability(p: real): (r: real)
    ensures 0.05 <= r <= 0.95
    ensures 0.05 <= p <= 0.95 ==> r == p
    ensures p > 0.95 ==> r == 0.95
    ensures p < 0.05 ==> r == 0.05
  {
    var capped := if p > 0.95 then 0.95 else p;
    if capped < 0.05 then 0.05 else capped
  }

  /** The floor at 10 minutes followed by the cap at 60. */
  function ClampTime(t: real): (r: real)
    ensures 10.0 <= r <= 60.0
    ensures 10.0 <= t <= 60.0 ==> r == t
    ensures t < 10.0 ==> r == 10.0
    ensures t > 60.0 ==> r == 60.0
  {
    var floored := if t < 10.0 then 10.0 else t;
    if floored > 60.0 then 60.0 else floored
  }

  /** The default failure probability for a given mean and bonus. */
  function DefaultProbability(mean: real, adjustment: real): real
  {
    ClampProbability(mean / 100.0 + adjustment)
  }

  /** The default time-to-failure for a given mean. */
  function DefaultTime(mean: real): real
  {
    ClampTime(60.0 - mean * 0.5)
  }

  /** `(p * 100).toFixed(0)` read back by `parseInt`: the nearest integer, halves rounded up. */
  function Percent(p: real): int
  {
    (p * 100.0 + 0.5).Floor
  }

  /** `t.toFixed(1)` read back by `parseFloat`: the nearest tenth, halves rounded up. */
  function Tenths(t: real): real
  {
    ((t * 10.0 + 0.5).Floor as real) / 10.0
  }

  /** Above 70 signals stress, below 30 under-performance, anything else is optimal. */
  function RemarkFor(value: real): Remark
  {
    if value > 70.0 then Stress else if value < 30.0 then UnderPerformance else OptimalRange
  }

  /** The analysis lines, one per entry, in entry order. */
  function Remarks(entries: seq<ParameterEntry>): seq<RemarkLine>
  {
    if entries == [] then []
    else
      var last := entries[|entries| - 1];
      Remarks(entries[..|entries| - 1]) + [RemarkLine(last.param, last.value, RemarkFor(last.value))]
  }

  /** The default analysis for a scenario no pattern matched. */
  function DefaultAnalysis(entries: seq<ParameterEntry>): SimulationOutput
    requires |entries| > 0
  {
    var mean := Sum(entries) / (|entries| as real);
    SimulationOutput(Percent(DefaultProbability(mean, Adjustment(entries))), Tenths(DefaultTime(mean)),
      Analysis(Remarks(entries)))
  }

  /** simulateScenario as a function of the scenario's entries. */
  function Simulate(entries: seq<ParameterEntry>): SimulationOutput
  {
    match Detect(entries)
    case Some(p) => SimulationOutput(Percent(p.FailureProbability()), Tenths(p.TimeToFailure()), Premade(p))
    case None =>
      DetectNoneHasEntries(entries);
      DefaultAnalysis(entries)
  }

  /**
   * The imperative simulator: detection first, then the running sum, the
   * bonuses, the two clamps and the remark lines, step by step.
   */
  method SimulateScenario(scenario: Scenario) returns (out: SimulationOutput)
    ensures out == Simulate(scenario.paramList)
  {
    var predefined := CheckForPredefinedScenario(scenario);
    if predefined.Some? {
      var p := predefined.value;
      return SimulationOutput(Percent(p.FailureProbability()), Tenths(p.TimeToFailure()), Premade(p));
    }
    DetectNoneHasEntries(scenario.paramList);
    out := RunDefaultAnalysis(scenario.paramList);
  }

  /** The default branch of the simulator: running sum, bonuses, clamps, then one remark per entry. */
  method RunDefaultAnalysis(entries: seq<ParameterEntry>) returns (out: SimulationOutput)
    requires |entries| > 0
    ensures out == DefaultAnalysis(entries)
  {
    var sum := 0.0;
    var i := 0;
    while i < |entries|
      invariant 0 <= i <= |entries|
      invariant sum == Sum(entries[..i])
    {
      assert entries[..i + 1][..i] == entries[..i];
      sum := sum + entries[i].value;
      i := i + 1;
    }
    assert entries[..i] == entries;
    var avg := sum / (|entries| as real);

    var failureProbability := avg / 100.0;
    var tempAdj := if AnyMentions(entries, "temperature") then 0.1 else 0.0;
    var vibAdj := if AnyMentions(entries, "vibration") then 0.1 else 0.0;
    failureProbability := failureProbability + (tempAdj + vibAdj);
    if failureProbability > 0.95 {
      failureProbability := 0.95;
    }
    if failureProbability < 0.05 {
      failureProbability := 0.05;
    }

    var timeToFailure := 60.0 - avg * 0.5;
    if timeToFailure < 10.0 {
      timeToFailure := 10.0;
    }
    if timeToFailure > 60.0 {
      timeToFailure := 60.0;
    }

    var lines: seq<RemarkLine> := [];
    i := 0;
    while i < |entries|
      invariant 0 <= i <= |entries|
      invariant lines == Remarks(entries[..i])
    {
      var p := entries[i];
      assert entries[..i + 1][..i] == entries[..i];
      lines := lines + [RemarkLine(p.param, p.value, RemarkFor(p.value))];
      i := i + 1;
    }
    assert entries[..i] == entries;
    out := SimulationOutput(Percent(failureProbability), Tenths(timeToFailure), Analysis(lines));
  }

  // ---------------------------------------------------------------------------
  // Properties of the simulator

  /** Percentages of probabilities in [0.05, 0.95] lie in [5, 95]. */
  lemma PercentBounds(p: real)
    requires 0.05 <= p <= 0.95
    ensures 5 <= Percent(p) <= 95
  {
  }

  /** Rounding to a tenth keeps a time inside [10, 60]. */
  lemma TenthsBounds(t: real)
    requires 10.0 <= t <= 60.0
    ensures 10.0 <= Tenths(t) <= 60.0
  {
  }

  /** The authored payloads as the user reads them: 93% / 12.0, 95% / 10.0, 10% / 55.0, 70% / 25.0. */
  lemma PayloadTexts()
    ensures Percent(OverheatedWelding.FailureProbability()) == 93 && Tenths(OverheatedWelding.TimeToFailure()) == 12.0
    ensures Percent(ProcessWideOverload.FailureProbability()) == 95 && Tenths(ProcessWideOverload.TimeToFailure()) == 10.0
    ensures Percent(OptimizedEfficiency.FailureProbability()) == 10 && Tenths(OptimizedEfficiency.TimeToFailure()) == 55.0
    ensures Percent(MixedPerformance.FailureProbability()) == 70 && Tenths(MixedPerformance.TimeToFailure()) == 25.0
  {
  }

  /** The welding example reads "93%" and "12.0 minutes". */
  lemma WeldingExampleOutput(a: ParameterEntry, b: ParameterEntry, c: ParameterEntry)
    requires BareName(a.param) == "welding_temperature" && a.value == 90.0
    requires BareName(b.param) == "ambient_temperature" && b.value == 45.0
    requires BareName(c.param) == "humidity" && c.value == 75.0
    ensures Simulate([a, b, c]) == SimulationOutput(93, 12.0, Premade(OverheatedWelding))
  {
    WeldingExample(a, b, c);
    PayloadTexts();
  }

  /** The overload example reads "95%" and "10.0 minutes". */
  lemma OverloadExampleOutput(a: ParameterEntry, b: ParameterEntry, c: ParameterEntry)
    requires BareName(a.param) == "temperature" && a.value == 95.0
    requires BareName(b.param) == "energy_consumption" && b.value == 85.0
    requires BareName(c.param) == "cycle_time" && c.value == 95.0
    ensures Simulate([a, b, c]) == SimulationOutput(95, 10.0, Premade(ProcessWideOverload))
  {
    OverloadExample(a, b, c);
    PayloadTexts();
  }

  /** An all-50 scenario, whatever its labels, reads "10%" and "55.0 minutes". */
  lemma OptimalExampleOutput(entries: seq<ParameterEntry>)
    requires forall i :: 0 <= i < |entries| ==> entries[i].value == 50.0
    ensures Simulate(entries) == SimulationOutput(10, 55.0, Premade(OptimizedEfficiency))
  {
    ParamMapWithin(entries, 50.0, 50.0);
    var m := ParamMap(entries);
    assert !Exceeds(m, "welding_temperature", 80.0) && !Exceeds(m, "temperature", 90.0);
    assert Detect(entries) == Some(OptimizedEfficiency);
    PayloadTexts();
  }

  /** The mixed example [90, 85, 10, 5] reads "70%" and "25.0 minutes". */
  lemma MixedExampleOutput(a: ParameterEntry, b: ParameterEntry, c: ParameterEntry, d: ParameterEntry)
    requires NoHazardKey(a) && NoHazardKey(b) && NoHazardKey(c) && NoHazardKey(d)
    requires a.value == 90.0 && b.value == 85.0 && c.value == 10.0 && d.value == 5.0
    ensures Simulate([a, b, c, d]) == SimulationOutput(70, 25.0, Premade(MixedPerformance))
  {
    MixedExample(a, b, c, d);
    PayloadTexts();
  }

  /** Whatever the input, the reported risk is 5–95% and the time 10–60 minutes. */
  lemma SimulateBounds(entries: seq<ParameterEntry>)
    ensures 5 <= Simulate(entries).failurePercent <= 95
    ensures 10.0 <= Simulate(entries).minutes <= 60.0
  {
    match Detect(entries)
    case Some(p) => PayloadTexts();
    case None =>
      DetectNoneHasEntries(entries);
      var mean := Sum(entries) / (|entries| as real);
      PercentBounds(DefaultProbability(mean, Adjustment(entries)));
      TenthsBounds(DefaultTime(mean));
  }

  /** A detected pattern's payload is reported unchanged, with its fixed explanation. */
  lemma SimulatePremade(entries: seq<ParameterEntry>, p: Pattern)
    requires Detect(entries) == Some(p)
    ensures Simulate(entries).reason == Premade(p)
    ensures Simulate(entries).failurePercent == Percent(p.FailureProbability())
    ensures Simulate(entries).minutes == p.TimeToFailure()
  {
  }

  /** The default time-to-failure lies in [10, 60] and never grows as the mean grows. */
  lemma DefaultTimeMonotone(a: real, b: real)
    requires a <= b
    ensures 10.0 <= DefaultTime(b) <= DefaultTime(a) <= 60.0
  {
  }

  /** The default probability never shrinks as the mean or the bonus grows. */
  lemma DefaultProbabilityMonotone(a: real, b: real, adjA: real, adjB: real)
    requires a <= b && adjA <= adjB
    ensures 0.05 <= DefaultProbability(a, adjA) <= DefaultProbability(b, adjB) <= 0.95
  {
  }

  /** Which parameter labels occur, ignoring order and repetition. */
  function Labels(entries: seq<ParameterEntry>): set<string>
  {
    set i | 0 <= i < |entries| :: entries[i].param
  }

  /** AnyMentions only asks whether some label mentions the word. */
  lemma AnyMentionsByLabels(entries: seq<ParameterEntry>, word: string)
    ensures AnyMentions(entries, word) <==> exists l :: l in Labels(entries) && Mentions(l, word)
  {
    if exists l :: l in Labels(entries) && Mentions(l, word) {
      var l :| l in Labels(entries) && Mentions(l, word);
      var i :| 0 <= i < |entries| && entries[i].param == l;
      assert Mentions(entries[i].param, word);
    }
  }

  /**
   * Each bonus applies at most once: the bonus is 0, 0.1 or 0.2, and it
   * depends only on which labels occur, not on how often they occur.
   */
  lemma AdjustmentAtMostOnce(a: seq<ParameterEntry>, b: seq<ParameterEntry>)
    requires Labels(a) == Labels(b)
    ensures Adjustment(a) == Adjustment(b)
    ensures Adjustment(a) == 0.0 || Adjustment(a) == 0.1 || Adjustment(a) == 0.2
  {
    AnyMentionsByLabels(a, "temperature");
    AnyMentionsByLabels(b, "temperature");
    AnyMentionsByLabels(a, "vibration");
    AnyMentionsByLabels(b, "vibration");
  }

  /** A list whose values are all `c` sums to `c` times its length. */
  lemma {:induction false} SumOfConstant(entries: seq<ParameterEntry>, c: real)
    requires forall i :: 0 <= i < |entries| ==> entries[i].value == c
    ensures Sum(entries) == c * (|entries| as real)
  {
    if entries != [] {
      SumOfConstant(entries[..|entries| - 1], c);
    }
  }

  /** The default analysis of a list whose values are all `c` works from the mean `c`. */
  lemma DefaultAnalysisOfConstant(entries: seq<ParameterEntry>, c: real)
    requires |entries| > 0
    requires forall i :: 0 <= i < |entries| ==> entries[i].value == c
    ensures DefaultAnalysis(entries).failurePercent == Percent(DefaultProbability(c, Adjustment(entries)))
    ensures DefaultAnalysis(entries).minutes == Tenths(DefaultTime(c))
  {
    SumOfConstant(entries, c);
    assert Sum(entries) / (|entries| as real) == c;
  }

  /** The analysis has one line per entry, carrying that entry's label, value and remark. */
  lemma {:induction false} RemarksAt(entries: seq<ParameterEntry>, i: int)
    requires 0 <= i < |entries|
    ensures |Remarks(entries)| == |entries|
    ensures Remarks(entries)[i] == RemarkLine(entries[i].param, entries[i].value, RemarkFor(entries[i].value))
  {
    var n := |entries| - 1;
    if n > 0 {
      RemarksAt(entries[..n], if i < n then i else 0);
    }
  }

  /** Every value the detector's map holds is the value of some entry, so it shares any bound on them. */
  lemma ParamMapWithin(entries: seq<ParameterEntry>, lo: real, hi: real)
    requires forall i :: 0 <= i < |entries| ==> lo <= entries[i].value <= hi
    ensures forall k :: k in ParamMap(entries) ==> lo <= ParamMap(entries)[k] <= hi
  {
    forall k | k in ParamMap(entries) ensures lo <= ParamMap(entries)[k] <= hi {
      ParamMapLookup(entries, k);
    }
  }

  /** No pattern fires on a non-empty scenario whose values all equal one constant below 40. */
  lemma LowConstantUndetected(entries: seq<ParameterEntry>, c: real)
    requires |entries| > 0 && c < 40.0
    requires forall i :: 0 <= i < |entries| ==> entries[i].value == c
    ensures Detect(entries) == None
  {
    ParamMapWithin(entries, c, c);
    var m := ParamMap(entries);
    assert !Exceeds(m, "welding_temperature", 80.0) && !Exceeds(m, "temperature", 90.0);
    assert entries[0].value == c;
    CountAbovePositive(entries, 80.0);
  }

  /**
   * An all-zero scenario without temperature or vibration parameters hits the
   * probability floor (5%) and the time ceiling (60.0 minutes).
   */
  lemma AllZeroScenario(entries: seq<ParameterEntry>)
    requires |entries| > 0
    requires forall i :: 0 <= i < |entries| ==> entries[i].value == 0.0
    requires Adjustment(entries) == 0.0
    ensures Simulate(entries).failurePercent == 5
    ensures Simulate(entries).minutes == 60.0
  {
    LowConstantUndetected(entries, 0.0);
    DefaultAnalysisOfConstant(entries, 0.0);
  }

  /**
   * An all-20 scenario without temperature or vibration parameters scores
   * 20% and 50.0 minutes.
   */
  lemma AllTwentyScenario(entries: seq<ParameterEntry>)
    requires |entries| > 0
    requires forall i :: 0 <= i < |entries| ==> entries[i].value == 20.0
    requires Adjustment(entries) == 0.0
    ensures Simulate(entries).failurePercent == 20
    ensures Simulate(entries).minutes == 50.0
  {
    LowConstantUndetected(entries, 20.0);
    DefaultAnalysisOfConstant(entries, 20.0);
  }

  /** On a non-empty all-100 scenario that misses the welding pattern only the overload pattern can fire. */
  lemma AllHundredDetect(entries: seq<ParameterEntry>)
    requires |entries| > 0
    requires forall i :: 0 <= i < |entries| ==> entries[i].value == 100.0
    requires !IsOverheatedWelding(ParamMap(entries))
    ensures Detect(entries) == None || Detect(entries) == Some(ProcessWideOverload)
  {
    assert entries[0].value == 100.0;
    CountBelowPositive(entries, 20.0);
  }

  /**
   * An all-100 scenario fires the welding pattern exactly when the welding
   * temperature, ambient temperature and humidity keys are all present, and
   * is then reported at 93% and 12.0 minutes.
   */
  lemma AllHundredWelding(entries: seq<ParameterEntry>)
    requires forall i :: 0 <= i < |entries| ==> entries[i].value == 100.0
    ensures IsOverheatedWelding(ParamMap(entries)) <==>
      "welding_temperature" in ParamMap(entries) && "ambient_temperature" in ParamMap(entries) && "humidity" in ParamMap(entries)
    ensures IsOverheatedWelding(ParamMap(entries)) ==>
      Simulate(entries) == SimulationOutput(93, 12.0, Premade(OverheatedWelding))
  {
    ParamMapWithin(entries, 100.0, 100.0);
    PayloadTexts();
  }

  /**
   * An all-100 scenario that misses the welding pattern is reported at the
   * probability cap (95%) and the time floor (10.0 minutes).
   */
  lemma AllHundredScenario(entries: seq<ParameterEntry>)
    requires |entries| > 0
    requires forall i :: 0 <= i < |entries| ==> entries[i].value == 100.0
    requires !IsOverheatedWelding(ParamMap(entries))
    ensures Simulate(entries).failurePercent == 95
    ensures Simulate(entries).minutes == 10.0
  {
    AllHundredDetect(entries);
    if Detect(entries) == None {
      AllHundredDefault(entries);
    } else {
      PayloadTexts();
    }
  }

  /** At mean 100 the default analysis sits at the probability cap and the time floor. */
  lemma AllHundredDefault(entries: seq<ParameterEntry>)
    requires |entries| > 0
    requires forall i :: 0 <= i < |entries| ==> entries[i].value == 100.0
    ensures DefaultAnalysis(entries).failurePercent == 95
    ensures DefaultAnalysis(entries).minutes == 10.0
  {
    DefaultAnalysisOfConstant(entries, 100.0);
    assert DefaultProbability(100.0, Adjustment(entries)) == 0.95;
    assert DefaultTime(100.0) == 10.0;
  }

  /** A scenario whose values all lie in the optimal band has a mean of at least 40. */
  lemma {:induction false} OptimalSumAtLeast(entries: seq<ParameterEntry>)
    requires IsAllOptimal(entries)
    ensures Sum(entries) >= 40.0 * (|entries| as real)
  {
    if entries != [] {
      var n := |entries| - 1;
      assert IsAllOptimal(entries[..n]) by {
        assert forall i :: 0 <= i < n ==> entries[..n][i] == entries[i];
      }
      OptimalSumAtLeast(entries[..n]);
      assert entries[n].value >= 40.0;
    }
  }

  /** A scenario with mean 20 that fires neither hazard pattern is reported as mixed performance or not at all. */
  lemma MeanTwentyDetect(entries: seq<ParameterEntry>)
    requires |entries| > 0
    requires Sum(entries) == 20.0 * (|entries| as real)
    requires !IsOverheatedWelding(ParamMap(entries)) && !IsProcessOverload(ParamMap(entries))
    ensures Detect(entries) == None || Detect(entries) == Some(MixedPerformance)
  {
    if IsAllOptimal(entries) {
      OptimalSumAtLeast(entries);
    }
  }

  /** The default analysis at mean 20 gives at most 40% (20% plus at most two bonuses) and 50.0 minutes. */
  lemma MeanTwentyDefault(entries: seq<ParameterEntry>)
    requires |entries| > 0
    requires Sum(entries) == 20.0 * (|entries| as real)
    ensures DefaultAnalysis(entries).failurePercent <= 40
    ensures DefaultAnalysis(entries).minutes == 50.0
  {
    var mean := Sum(entries) / (|entries| as real);
    assert mean == 20.0;
    assert DefaultTime(20.0) == 50.0;
    assert Tenths(50.0) == 50.0;
    assert DefaultProbability(20.0, Adjustment(entries)) <= 0.4;
  }

  /**
   * A non-empty scenario with mean 20 that fires neither hazard pattern is
   * reported at a risk of at most 70% and at least 25.0 minutes.
   */
  lemma MeanTwentyOutcome(entries: seq<ParameterEntry>)
    requires |entries| > 0
    requires Sum(entries) == 20.0 * (|entries| as real)
    requires !IsOverheatedWelding(ParamMap(entries)) && !IsProcessOverload(ParamMap(entries))
    ensures Simulate(entries).failurePercent <= 70
    ensures Simulate(entries).minutes >= 25.0
  {
    MeanTwentyDetect(entries);
    if Detect(entries) == None {
      MeanTwentyDefault(entries);
    } else {
      PayloadTexts();
    }
  }
}
