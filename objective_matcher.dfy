/**
 * The optimization page's rule matcher: each baked-in scenario carries a
 * range per objective, and the four slider values select the first scenario
 * whose four ranges all contain them, bounds included.
 */
module ObjectiveMatcher {
  import opened Common

  /** An objective's authored target and its accepted band. */
  datatype ObjectiveRange = ObjectiveRange(target: real, min: real, max: real)

  datatype Objectives = Objectives(
    throughput: ObjectiveRange,
    defectRate: ObjectiveRange,
    energyConsumption: ObjectiveRange,
    costOptimization: ObjectiveRange)

  /** A baked-in scenario; its charts, recommendations and summary prose are display data and not kept. */
  datatype BakedScenario = BakedScenario(id: int, title: string, process: string, parameters: seq<string>, objectives: Objectives)

  const ImprovedEfficiency: BakedScenario := BakedScenario(
    1, "Improved Energy Efficiency and Quality", "cell_prep",
    ["inspection_pass_rate", "temperature", "vibration_level", "energy_consumption"],
    Objectives(
      ObjectiveRange(70.0, 63.0, 77.0),
      ObjectiveRange(3.0, 2.7, 3.3),
      ObjectiveRange(90.0, 81.0, 99.0),
      ObjectiveRange(1000.0, 900.0, 1100.0)))

  const MaximizedThroughput: BakedScenario := BakedScenario(
    2, "Maximized Throughput with Controlled Quality", "welding_machine",
    ["welding_temperature", "joint_strength_index", "ambient_temperature", "humidity", "completion_time"],
    Objectives(
      ObjectiveRange(85.0, 76.5, 93.5),
      ObjectiveRange(3.8, 3.4, 4.2),
      ObjectiveRange(125.0, 113.0, 137.0),
      ObjectiveRange(1350.0, 1215.0, 1485.0)))

  /** The baked-in scenarios, in the order the matcher scans them. */
  const BakedScenarios: seq<BakedScenario> := [ImprovedEfficiency, MaximizedThroughput]

  /** `min <= v && v <= max`. */
  predicate InRange(r: ObjectiveRange, v: real)
  {
    r.min <= v <= r.max
  }

  /** All eight comparisons of the matcher's condition. */
  predicate Matches(o: Objectives, th: real, dr: real, ec: real, cost: real)
  {
    InRange(o.throughput, th) && InRange(o.defectRate, dr) &&
    InRange(o.energyConsumption, ec) && InRange(o.costOptimization, cost)
  }

  /** The `for…of` scan with its early return. */
  function FirstMatch(list: seq<BakedScenario>, th: real, dr: real, ec: real, cost: real): (r: Option<BakedScenario>)
    ensures r.Some? ==> r.value in list && Matches(r.value.objectives, th, dr, ec, cost)
    ensures r.None? ==> forall i :: 0 <= i < |list| ==> !Matches(list[i].objectives, th, dr, ec, cost)
  {
    if list == [] then None
    else if Matches(list[0].objectives, th, dr, ec, cost) then Some(list[0])
    else FirstMatch(list[1..], th, dr, ec, cost)
  }

  /** checkForScenarioMatch. */
  function CheckForScenarioMatch(th: real, dr: real, ec: real, cost: real): (r: Option<BakedScenario>)
    ensures r.Some? ==> r.value in BakedScenarios && Matches(r.value.objectives, th, dr, ec, cost)
    ensures r.None? ==> !Matches(ImprovedEfficiency.objectives, th, dr, ec, cost) && !Matches(MaximizedThroughput.objectives, th, dr, ec, cost)
  {
    assert BakedScenarios[0] == ImprovedEfficiency && BakedScenarios[1] == MaximizedThroughput;
    FirstMatch(BakedScenarios, th, dr, ec, cost)
  }

  /** Entry `i` matches and no earlier entry does. */
  predicate IsFirstMatch(list: seq<BakedScenario>, i: int, th: real, dr: real, ec: real, cost: real)
  {
    0 <= i < |list| && Matches(list[i].objectives, th, dr, ec, cost) &&
    forall j :: 0 <= j < i ==> !Matches(list[j].objectives, th, dr, ec, cost)
  }

  /**
   * The scan returns the first matching entry in list order, and nothing
   * exactly when no entry matches.
   */
  lemma {:induction false} FirstMatchSpec(list: seq<BakedScenario>, th: real, dr: real, ec: real, cost: real)
    ensures FirstMatch(list, th, dr, ec, cost).None? <==>
      forall i :: 0 <= i < |list| ==> !Matches(list[i].objectives, th, dr, ec, cost)
    ensures FirstMatch(list, th, dr, ec, cost).Some? ==>
      exists i :: IsFirstMatch(list, i, th, dr, ec, cost) && list[i] == FirstMatch(list, th, dr, ec, cost).value
  {
    if list != [] {
      var t := list[1..];
      FirstMatchSpec(t, th, dr, ec, cost);
      assert forall i :: 1 <= i < |list| ==> list[i] == t[i - 1];
      if Matches(list[0].objectives, th, dr, ec, cost) {
        assert IsFirstMatch(list, 0, th, dr, ec, cost);
      } else if FirstMatch(t, th, dr, ec, cost).Some? {
        var i :| IsFirstMatch(t, i, th, dr, ec, cost) && t[i] == FirstMatch(t, th, dr, ec, cost).value;
        assert IsFirstMatch(list, i + 1, th, dr, ec, cost);
      }
    }
  }

  /** A match is one of the baked-in scenarios, and all eight comparisons hold for it. */
  lemma MatchIsBakedAndInRange(th: real, dr: real, ec: real, cost: real)
    requires CheckForScenarioMatch(th, dr, ec, cost).Some?
    ensures var s := CheckForScenarioMatch(th, dr, ec, cost).value;
      s in BakedScenarios &&
      s.objectives.throughput.min <= th && th <= s.objectives.throughput.max &&
      s.objectives.defectRate.min <= dr && dr <= s.objectives.defectRate.max &&
      s.objectives.energyConsumption.min <= ec && ec <= s.objectives.energyConsumption.max &&
      s.objectives.costOptimization.min <= cost && cost <= s.objectives.costOptimization.max
  {
    FirstMatchSpec(BakedScenarios, th, dr, ec, cost);
  }

  /** Every authored band holds its target, and every target is its band's midpoint. */
  lemma TargetsInsideRanges()
    ensures forall s :: s in BakedScenarios ==>
      var o := s.objectives;
      InRange(o.throughput, o.throughput.target) && InRange(o.defectRate, o.defectRate.target) &&
      InRange(o.energyConsumption, o.energyConsumption.target) && InRange(o.costOptimization, o.costOptimization.target) &&
      o.throughput.min + o.throughput.max == 2.0 * o.throughput.target &&
      o.defectRate.min + o.defectRate.max == 2.0 * o.defectRate.target &&
      o.energyConsumption.min + o.energyConsumption.max == 2.0 * o.energyConsumption.target &&
      o.costOptimization.min + o.costOptimization.max == 2.0 * o.costOptimization.target
  {
  }

  /** With the two authored entries, the scan reduces to two tests in list order. */
  lemma CheckForScenarioMatchCases(th: real, dr: real, ec: real, cost: real)
    ensures CheckForScenarioMatch(th, dr, ec, cost) ==
      if Matches(ImprovedEfficiency.objectives, th, dr, ec, cost) then Some(ImprovedEfficiency)
      else if Matches(MaximizedThroughput.objectives, th, dr, ec, cost) then Some(MaximizedThroughput)
      else None
  {
    var rest := BakedScenarios[1..];
    assert BakedScenarios[0] == ImprovedEfficiency && rest == [MaximizedThroughput];
    assert rest[0] == MaximizedThroughput && rest[1..] == [];
    assert FirstMatch(rest, th, dr, ec, cost) ==
      if Matches(MaximizedThroughput.objectives, th, dr, ec, cost) then Some(MaximizedThroughput) else None;
  }

  /** Each scenario's own targets select it. */
  lemma TargetsSelectTheirScenario()
    ensures CheckForScenarioMatch(70.0, 3.0, 90.0, 1000.0) == Some(ImprovedEfficiency)
    ensures CheckForScenarioMatch(85.0, 3.8, 125.0, 1350.0) == Some(MaximizedThroughput)
    ensures ImprovedEfficiency.id == 1 && MaximizedThroughput.id == 2
  {
    CheckForScenarioMatchCases(70.0, 3.0, 90.0, 1000.0);
    CheckForScenarioMatchCases(85.0, 3.8, 125.0, 1350.0);
  }

  /** The two defect-rate bands are disjoint, so no input matches both scenarios. */
  lemma NoInputMatchesBoth(th: real, dr: real, ec: real, cost: real)
    ensures !(Matches(ImprovedEfficiency.objectives, th, dr, ec, cost) && Matches(MaximizedThroughput.objectives, th, dr, ec, cost))
  {
  }

  /**
   * Since no input matches both, the list order does not decide the outcome:
   * scanning the entries in reverse gives the same answer.
   */
  lemma OrderIrrelevant(th: real, dr: real, ec: real, cost: real)
    ensures CheckForScenarioMatch(th, dr, ec, cost) == FirstMatch([MaximizedThroughput, ImprovedEfficiency], th, dr, ec, cost)
  {
    NoInputMatchesBoth(th, dr, ec, cost);
    CheckForScenarioMatchCases(th, dr, ec, cost);
    var reversed := [MaximizedThroughput, ImprovedEfficiency];
    var tail := reversed[1..];
    assert tail == [ImprovedEfficiency] && tail[0] == ImprovedEfficiency && tail[1..] == [];
    assert FirstMatch(tail, th, dr, ec, cost) ==
      if Matches(ImprovedEfficiency.objectives, th, dr, ec, cost) then Some(ImprovedEfficiency) else None;
  }

  /** The page's initial slider values (50, 5, 100, 1000) match no scenario. */
  lemma InitialSlidersMatchNothing()
    ensures CheckForScenarioMatch(50.0, 5.0, 100.0, 1000.0) == None
  {
    CheckForScenarioMatchCases(50.0, 5.0, 100.0, 1000.0);
  }
}
