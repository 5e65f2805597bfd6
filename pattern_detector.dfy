/**
 * The predefined pattern detector of the what-if tool: a scenario's entries
 * are reduced to a lookup keyed by bare parameter name, then four hand-authored
 * patterns are tried in a fixed order and the first that holds is reported.
 */
module PatternDetector {
  import opened Common
  import opened Parameters

  /** The four authored patterns; each carries a fixed payload. */
  datatype Pattern = OverheatedWelding | ProcessWideOverload | OptimizedEfficiency | MixedPerformance
  {
    function Name(): string
    {
      match this
      case OverheatedWelding => "Overheated Welding Scenario"
      case ProcessWideOverload => "Process-wide Overload"
      case OptimizedEfficiency => "Optimized Efficiency"
      case MixedPerformance => "Mixed Performance Scenario"
    }

    function FailureProbability(): real
    {
      match this
      case OverheatedWelding => 0.93
      case ProcessWideOverload => 0.95
      case OptimizedEfficiency => 0.10
      case MixedPerformance => 0.70
    }

    /** Minutes. */
    function TimeToFailure(): real
    {
      match this
      case OverheatedWelding => 12.0
      case ProcessWideOverload => 10.0
      case OptimizedEfficiency => 55.0
      case MixedPerformance => 25.0
    }
  }

  /**
   * The lookup the detector builds: entries are written in order under their
   * bare names, so a later entry overwrites an earlier one with the same name.
   */
  function ParamMap(entries: seq<ParameterEntry>): map<string, real>
  {
    if entries == [] then map[]
    else
      var last := entries[|entries| - 1];
      ParamMap(entries[..|entries| - 1])[BareName(last.param) := last.value]
  }

  /**
   * A key is present exactly when some entry has that bare name, and it then
   * holds the value of the LAST such entry.
   */
  lemma {:induction false} ParamMapLookup(entries: seq<ParameterEntry>, k: string)
    ensures k in ParamMap(entries) <==> exists i :: 0 <= i < |entries| && BareName(entries[i].param) == k
    ensures k in ParamMap(entries) ==>
      exists i :: 0 <= i < |entries| && BareName(entries[i].param) == k && ParamMap(entries)[k] == entries[i].value &&
        forall j :: i < j < |entries| ==> BareName(entries[j].param) != k
  {
    if entries != [] {
      var n := |entries| - 1;
      var init := entries[..n];
      ParamMapLookup(init, k);
      assert forall i :: 0 <= i < n ==> init[i] == entries[i];
      if BareName(entries[n].param) == k {
        assert ParamMap(entries)[k] == entries[n].value;
      } else if k in ParamMap(entries) {
        var i :| 0 <= i < |init| && BareName(init[i].param) == k && ParamMap(init)[k] == init[i].value &&
          forall j :: i < j < |init| ==> BareName(init[j].param) != k;
        assert BareName(entries[i].param) == k && ParamMap(entries)[k] == entries[i].value;
      }
    }
  }

  /**
   * `m[k] && m[k] > t`: the key is present, its value is truthy (non-zero)
   * and it exceeds `t`.
   */
  predicate Exceeds(m: map<string, real>, k: string, t: real)
  {
    k in m && m[k] != 0.0 && m[k] > t
  }

  /** For a non-negative threshold the truthiness test adds nothing to the comparison. */
  lemma ExceedsIsComparison(m: map<string, real>, k: string, t: real)
    requires t >= 0.0
    ensures Exceeds(m, k, t) <==> k in m && m[k] > t
  {
  }

  /** Pattern 1: welding temperature above 80, ambient above 40, humidity above 70. */
  predicate IsOverheatedWelding(m: map<string, real>)
  {
    Exceeds(m, "welding_temperature", 80.0) && Exceeds(m, "ambient_temperature", 40.0) && Exceeds(m, "humidity", 70.0)
  }

  /** Pattern 2: temperature above 90, energy consumption above 80, cycle time above 90. */
  predicate IsProcessOverload(m: map<string, real>)
  {
    Exceeds(m, "temperature", 90.0) && Exceeds(m, "energy_consumption", 80.0) && Exceeds(m, "cycle_time", 90.0)
  }

  /** Pattern 3: every entry's value lies in [40, 60] (vacuously true of no entries). */
  predicate IsAllOptimal(entries: seq<ParameterEntry>)
  {
    forall i :: 0 <= i < |entries| ==> 40.0 <= entries[i].value <= 60.0
  }

  /** `entries.filter((p) => p.value > t).length` */
  function CountAbove(entries: seq<ParameterEntry>, t: real): nat
  {
    if entries == [] then 0 else (if entries[0].value > t then 1 else 0) + CountAbove(entries[1..], t)
  }

  /** `entries.filter((p) => p.value < t).length` */
  function CountBelow(entries: seq<ParameterEntry>, t: real): nat
  {
    if entries == [] then 0 else (if entries[0].value < t then 1 else 0) + CountBelow(entries[1..], t)
  }

  /** Pattern 4: at least two values above 80 and at least two below 20. */
  predicate IsMixed(entries: seq<ParameterEntry>)
  {
    CountAbove(entries, 80.0) >= 2 && CountBelow(entries, 20.0) >= 2
  }

  /** checkForPredefinedScenario: the first pattern, in authored order, that holds. */
  function Detect(entries: seq<ParameterEntry>): Option<Pattern>
  {
    var m := ParamMap(entries);
    if IsOverheatedWelding(m) then Some(OverheatedWelding)
    else if IsProcessOverload(m) then Some(ProcessWideOverload)
    else if IsAllOptimal(entries) then Some(OptimizedEfficiency)
    else if IsMixed(entries) then Some(MixedPerformance)
    else None
  }

  /** The imperative detector: the lookup is filled entry by entry, then the patterns are tried. */
  method CheckForPredefinedScenario(scenario: Scenario) returns (r: Option<Pattern>)
    ensures r == Detect(scenario.paramList)
  {
    var entries := scenario.paramList;
    var scenarioParams: map<string, real> := map[];
    var i := 0;
    while i < |entries|
      invariant 0 <= i <= |entries|
      invariant scenarioParams == ParamMap(entries[..i])
    {
      var p := entries[i];
      assert entries[..i + 1][..i] == entries[..i];
      scenarioParams := scenarioParams[BareName(p.param) := p.value];
      i := i + 1;
    }
    assert entries[..i] == entries;
    if IsOverheatedWelding(scenarioParams) {
      return Some(OverheatedWelding);
    }
    if IsProcessOverload(scenarioParams) {
      return Some(ProcessWideOverload);
    }
    if IsAllOptimal(entries) {
      return Some(OptimizedEfficiency);
    }
    if IsMixed(entries) {
      return Some(MixedPerformance);
    }
    return None;
  }

  // ---------------------------------------------------------------------------
  // Properties of the detector

  /** Some value exceeds `t` exactly when the count of such values is positive. */
  lemma {:induction false} CountAbovePositive(entries: seq<ParameterEntry>, t: real)
    ensures CountAbove(entries, t) >= 1 <==> exists i :: 0 <= i < |entries| && entries[i].value > t
  {
    if entries != [] {
      CountAbovePositive(entries[1..], t);
      assert forall i :: 0 < i < |entries| ==> entries[1..][i - 1] == entries[i];
    }
  }

  /** The count of values below `t` is positive exactly when some value lies below it. */
  lemma {:induction false} CountBelowPositive(entries: seq<ParameterEntry>, t: real)
    ensures CountBelow(entries, t) >= 1 <==> exists i :: 0 <= i < |entries| && entries[i].value < t
  {
    if entries != [] {
      CountBelowPositive(entries[1..], t);
      assert forall i :: 0 < i < |entries| ==> entries[1..][i - 1] == entries[i];
    }
  }

  /** "At least two values above t" means two distinct positions hold such values. */
  lemma {:induction false} CountAboveTwo(entries: seq<ParameterEntry>, t: real)
    ensures CountAbove(entries, t) >= 2 <==>
      exists i, j :: 0 <= i < j < |entries| && entries[i].value > t && entries[j].value > t
  {
    if entries != [] {
      var tail := entries[1..];
      CountAboveTwo(tail, t);
      CountAbovePositive(tail, t);
      assert forall i :: 0 < i < |entries| ==> tail[i - 1] == entries[i];
      if exists i, j :: 0 <= i < j < |entries| && entries[i].value > t && entries[j].value > t {
        var i, j :| 0 <= i < j < |entries| && entries[i].value > t && entries[j].value > t;
        if i == 0 {
          assert tail[j - 1].value > t;
        } else {
          assert tail[i - 1].value > t && tail[j - 1].value > t;
        }
      }
      if CountAbove(entries, t) >= 2 {
        if entries[0].value > t {
          var j :| 0 <= j < |tail| && tail[j].value > t;
          assert entries[j + 1].value > t;
        } else {
          var i, j :| 0 <= i < j < |tail| && tail[i].value > t && tail[j].value > t;
          assert entries[i + 1].value > t && entries[j + 1].value > t;
        }
      }
    }
  }

  /** Values inside the optimal band are never above 80, so patterns 3 and 4 never both hold. */
  lemma {:induction false} OptimalExcludesMixed(entries: seq<ParameterEntry>)
    requires IsAllOptimal(entries)
    ensures CountAbove(entries, 80.0) == 0
    ensures !IsMixed(entries)
  {
    if entries != [] {
      assert IsAllOptimal(entries[1..]) by {
        forall i | 0 <= i < |entries[1..]| ensures 40.0 <= entries[1..][i].value <= 60.0 {
          assert entries[1..][i] == entries[i + 1];
        }
      }
      OptimalExcludesMixed(entries[1..]);
    }
  }

  /**
   * A hazard pattern reads a value above 60 from some entry, so neither hazard
   * can hold together with the optimal band.
   */
  lemma HazardExcludesOptimal(entries: seq<ParameterEntry>)
    requires IsOverheatedWelding(ParamMap(entries)) || IsProcessOverload(ParamMap(entries))
    ensures !IsAllOptimal(entries)
  {
    var k := if IsOverheatedWelding(ParamMap(entries)) then "welding_temperature" else "temperature";
    ParamMapLookup(entries, k);
    var i :| 0 <= i < |entries| && BareName(entries[i].param) == k && ParamMap(entries)[k] == entries[i].value;
    assert entries[i].value > 60.0;
  }

  /**
   * Priority: a scenario that meets both the welding pattern and the mixed
   * pattern is reported as welding.
   */
  lemma WeldingPreemptsMixed(entries: seq<ParameterEntry>)
    requires IsOverheatedWelding(ParamMap(entries)) && IsMixed(entries)
    ensures Detect(entries) == Some(OverheatedWelding)
  {
  }

  /** The detector's answer, case by case, as the ordered rule list states it. */
  lemma DetectCases(entries: seq<ParameterEntry>)
    ensures var m := ParamMap(entries);
      && (Detect(entries) == Some(OverheatedWelding) <==> IsOverheatedWelding(m))
      && (Detect(entries) == Some(ProcessWideOverload) <==> !IsOverheatedWelding(m) && IsProcessOverload(m))
      && (Detect(entries) == Some(OptimizedEfficiency) <==>
            !IsOverheatedWelding(m) && !IsProcessOverload(m) && IsAllOptimal(entries))
      && (Detect(entries) == Some(MixedPerformance) <==>
            !IsOverheatedWelding(m) && !IsProcessOverload(m) && IsMixed(entries))
      && (Detect(entries) == None <==>
            !IsOverheatedWelding(m) && !IsProcessOverload(m) && !IsAllOptimal(entries) && !IsMixed(entries))
  {
    if IsAllOptimal(entries) {
      OptimalExcludesMixed(entries);
    }
  }

  /** No entries: the optimal-band test holds vacuously. */
  lemma DetectEmpty()
    ensures Detect([]) == Some(OptimizedEfficiency)
  {
  }

  /** So the fallback path is only ever reached with at least one entry. */
  lemma DetectNoneHasEntries(entries: seq<ParameterEntry>)
    requires Detect(entries) == None
    ensures |entries| > 0
  {
  }

  /** Every payload is a probability with a positive time-to-failure. */
  lemma PayloadBounds(p: Pattern)
    ensures 0.0 <= p.FailureProbability() <= 1.0 && p.TimeToFailure() > 0.0
  {
  }

  /**
   * The welding example: three entries whose bare names are the welding
   * pattern's keys, valued 90, 45 and 75, are reported as welding.
   */
  lemma WeldingExample(a: ParameterEntry, b: ParameterEntry, c: ParameterEntry)
    requires BareName(a.param) == "welding_temperature" && a.value == 90.0
    requires BareName(b.param) == "ambient_temperature" && b.value == 45.0
    requires BareName(c.param) == "humidity" && c.value == 75.0
    ensures Detect([a, b, c]) == Some(OverheatedWelding)
  {
    assert [a, b, c][..2] == [a, b] && [a, b][..1] == [a] && [a][..0] == [];
    assert ParamMap([a]) == map["welding_temperature" := 90.0];
    assert ParamMap([a, b]) == ParamMap([a])["ambient_temperature" := 45.0];
    assert ParamMap([a, b, c]) == ParamMap([a, b])["humidity" := 75.0];
    assert "welding_temperature"[0] != "ambient_temperature"[0] && "welding_temperature"[0] != "humidity"[0];
    assert "ambient_temperature"[0] != "humidity"[0];
  }

  /** The overload example: temperature 95, energy consumption 85, cycle time 95. */
  lemma OverloadExample(a: ParameterEntry, b: ParameterEntry, c: ParameterEntry)
    requires BareName(a.param) == "temperature" && a.value == 95.0
    requires BareName(b.param) == "energy_consumption" && b.value == 85.0
    requires BareName(c.param) == "cycle_time" && c.value == 95.0
    ensures Detect([a, b, c]) == Some(ProcessWideOverload)
  {
    var es := [a, b, c];
    ParamMapLookup(es, "welding_temperature");
    assert es[..2] == [a, b] && [a, b][..1] == [a] && [a][..0] == [];
    assert ParamMap([a]) == map["temperature" := 95.0];
    assert ParamMap([a, b]) == ParamMap([a])["energy_consumption" := 85.0];
    assert ParamMap([a, b, c]) == ParamMap([a, b])["cycle_time" := 95.0];
    assert "temperature"[0] != "energy_consumption"[0] && "temperature"[0] != "cycle_time"[0];
    assert "energy_consumption"[0] != "cycle_time"[0];
  }

  /** Keys none of the hazard patterns reads. */
  predicate NoHazardKey(e: ParameterEntry)
  {
    BareName(e.param) !in {"welding_temperature", "temperature"}
  }

  /** Without hazard keys the two hazard patterns cannot hold. */
  lemma NoHazardKeys(entries: seq<ParameterEntry>)
    requires forall i :: 0 <= i < |entries| ==> NoHazardKey(entries[i])
    ensures !IsOverheatedWelding(ParamMap(entries)) && !IsProcessOverload(ParamMap(entries))
  {
    ParamMapLookup(entries, "welding_temperature");
    ParamMapLookup(entries, "temperature");
  }

  /** The optimal example: any entries all valued 50 and free of hazard keys. */
  lemma OptimalExample(entries: seq<ParameterEntry>)
    requires forall i :: 0 <= i < |entries| ==> NoHazardKey(entries[i]) && entries[i].value == 50.0
    ensures Detect(entries) == Some(OptimizedEfficiency)
  {
    NoHazardKeys(entries);
  }

  /** The mixed example: values 90, 85, 10 and 5 under names no hazard pattern reads. */
  lemma MixedExample(a: ParameterEntry, b: ParameterEntry, c: ParameterEntry, d: ParameterEntry)
    requires NoHazardKey(a) && NoHazardKey(b) && NoHazardKey(c) && NoHazardKey(d)
    requires a.value == 90.0 && b.value == 85.0 && c.value == 10.0 && d.value == 5.0
    ensures Detect([a, b, c, d]) == Some(MixedPerformance)
  {
    var es := [a, b, c, d];
    NoHazardKeys(es);
    assert !IsAllOptimal(es) by { assert es[0].value == 90.0; }
    assert es[1..] == [b, c, d] && [b, c, d][1..] == [c, d] && [c, d][1..] == [d] && [d][1..] == [];
    assert CountAbove([], 80.0) == 0 && CountBelow([], 20.0) == 0;
    assert CountAbove([d], 80.0) == 0 && CountBelow([d], 20.0) == 1;
    assert CountAbove([c, d], 80.0) == 0 && CountBelow([c, d], 20.0) == 2;
    assert CountAbove([b, c, d], 80.0) == 1 && CountBelow([b, c, d], 20.0) == 2;
    assert IsMixed(es);
  }
}
