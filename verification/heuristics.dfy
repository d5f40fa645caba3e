/** The local insight generator for one batch (`generateSupplyChainInsights`,
    routes/logistics.js lines 102-174): dwell time per region, the fastest and the most
    active region, the predicted best region, journey length and efficiency, and the
    decisions that choose the wording of its four texts. */
module Heuristics {
  import opened JsValues
  import opened Seqs
  import opened Extractor

  /** Milliseconds in a day: 1000 * 60 * 60 * 24. */
  const MsPerDay: int := 86400000

  /** Which branch the strategic recommendation takes: name the slowest region
      (when the prediction is the fastest region) or develop the fastest one. */
  datatype Recommendation = ReduceSlower(slowest: Option<string>) | DevelopFastest(fastest: Option<string>)

  /** The values the four texts are built from. Absent regions are JavaScript's `undefined`. */
  datatype SingleInsights = SingleInsights(
    productType: string,
    regionCount: nat,
    journeyDays: real,
    efficiency: real,
    mostActive: Option<string>,
    fastest: Option<string>,
    predicted: Option<string>,
    efficient: bool,
    complexPath: bool,
    predictedForSpeed: bool,
    maintain: bool,
    recommendation: Recommendation)

  // ---------------------------------------------------------------------------------------
  // Dwell time

  /** What one adjacent pair of shipment logs adds to region r. */
  function PairDwell(prev: ShipmentLog, cur: ShipmentLog, r: string): int {
    if prev.location == cur.location && cur.location == r then cur.timestamp - prev.timestamp else 0
  }

  /** Time credited to region r by the adjacent pairs among the first n shipment logs. */
  function Dwell(logs: seq<ShipmentLog>, n: nat, r: string): int
    requires n <= |logs|
  {
    if n < 2 then 0 else Dwell(logs, n - 1, r) + PairDwell(logs[n - 2], logs[n - 1], r)
  }

  /** `regionTimes` once filled: every path region, with its dwell over all shipment logs. */
  function DwellMap(path: seq<string>, logs: seq<ShipmentLog>): map<string, int> {
    map r | r in path :: Dwell(logs, |logs|, r)
  }

  /** `regionFrequency`: every path region with its number of occurrences in the path. */
  function FreqMap(path: seq<string>): map<string, int> {
    map r | r in path :: Count(path, r)
  }

  predicate NonDecreasing(logs: seq<ShipmentLog>) {
    forall i, j :: 0 <= i < j < |logs| ==> logs[i].timestamp <= logs[j].timestamp
  }

  // ---------------------------------------------------------------------------------------
  // Choosing a region from a map, in key order

  predicate KeysIn(keys: seq<string>, m: map<string, int>) {
    forall k :: k in keys ==> k in m
  }

  /** r has the least value, and every key before it has a strictly greater one. */
  predicate FirstMinimal(keys: seq<string>, m: map<string, int>, r: string)
    requires KeysIn(keys, m)
  {
    && r in keys
    && (forall k :: k in keys ==> m[r] <= m[k])
    && (forall j :: 0 <= j < IndexOf(keys, r) ==> m[r] < m[keys[j]])
  }

  /** r has the greatest value, and every key before it has a strictly smaller one. */
  predicate FirstMaximal(keys: seq<string>, m: map<string, int>, r: string)
    requires KeysIn(keys, m)
  {
    && r in keys
    && (forall k :: k in keys ==> m[k] <= m[r])
    && (forall j :: 0 <= j < IndexOf(keys, r) ==> m[keys[j]] < m[r])
  }

  /** Start from the first key and replace the candidate whenever a key has a strictly
      smaller value: the first key of least value. */
  function FirstMin(keys: seq<string>, m: map<string, int>): (r: Option<string>)
    requires KeysIn(keys, m)
    ensures r.None? <==> keys == []
    ensures r.Some? ==> FirstMinimal(keys, m, r.value)
  {
    if keys == [] then None
    else
      var n := |keys| - 1;
      var p := FirstMin(keys[..n], m);
      if p.None? || m[keys[n]] < m[p.value] then
        NewFirstMin(keys, m, p);
        Some(keys[n])
      else
        KeepFirstMin(keys, m, p.value);
        p
  }

  /** Every key is in the prefix or is the last one. */
  lemma LastOrPrefix(keys: seq<string>)
    requires keys != []
    ensures forall k :: k in keys <==> k in keys[..|keys| - 1] || k == keys[|keys| - 1]
  {
    assert keys == keys[..|keys| - 1] + [keys[|keys| - 1]];
  }

  lemma NewFirstMin(keys: seq<string>, m: map<string, int>, p: Option<string>)
    requires keys != [] && KeysIn(keys, m)
    requires p.None? ==> |keys| == 1
    requires p.Some? ==> KeysIn(keys[..|keys| - 1], m) && FirstMinimal(keys[..|keys| - 1], m, p.value)
    requires p.Some? ==> m[keys[|keys| - 1]] < m[p.value]
    ensures FirstMinimal(keys, m, keys[|keys| - 1])
  {
    var n := |keys| - 1;
    LastOrPrefix(keys);
    assert forall j :: 0 <= j < n ==> keys[j] in keys[..n];
  }

  lemma KeepFirstMin(keys: seq<string>, m: map<string, int>, p: string)
    requires keys != [] && KeysIn(keys, m)
    requires KeysIn(keys[..|keys| - 1], m) && FirstMinimal(keys[..|keys| - 1], m, p)
    requires m[p] <= m[keys[|keys| - 1]]
    ensures FirstMinimal(keys, m, p)
  {
    LastOrPrefix(keys);
    IndexOfPrefix(keys, |keys| - 1, p);
  }

  /** Start from the first key and replace the candidate whenever a key has a strictly
      greater value: the first key of greatest value. */
  function FirstMax(keys: seq<string>, m: map<string, int>): (r: Option<string>)
    requires KeysIn(keys, m)
    ensures r.None? <==> keys == []
    ensures r.Some? ==> FirstMaximal(keys, m, r.value)
  {
    if keys == [] then None
    else
      var n := |keys| - 1;
      var p := FirstMax(keys[..n], m);
      if p.None? || m[keys[n]] > m[p.value] then
        NewFirstMax(keys, m, p);
        Some(keys[n])
      else
        KeepFirstMax(keys, m, p.value);
        p
  }

  lemma NewFirstMax(keys: seq<string>, m: map<string, int>, p: Option<string>)
    requires keys != [] && KeysIn(keys, m)
    requires p.None? ==> |keys| == 1
    requires p.Some? ==> KeysIn(keys[..|keys| - 1], m) && FirstMaximal(keys[..|keys| - 1], m, p.value)
    requires p.Some? ==> m[keys[|keys| - 1]] > m[p.value]
    ensures FirstMaximal(keys, m, keys[|keys| - 1])
  {
    var n := |keys| - 1;
    LastOrPrefix(keys);
    assert forall j :: 0 <= j < n ==> keys[j] in keys[..n];
  }

  lemma KeepFirstMax(keys: seq<string>, m: map<string, int>, p: string)
    requires keys != [] && KeysIn(keys, m)
    requires KeysIn(keys[..|keys| - 1], m) && FirstMaximal(keys[..|keys| - 1], m, p)
    requires m[keys[|keys| - 1]] <= m[p]
    ensures FirstMaximal(keys, m, p)
  {
    LastOrPrefix(keys);
    IndexOfPrefix(keys, |keys| - 1, p);
  }

  /** `Math.max(...values)` over the values of the keys. */
  function MaxValue(keys: seq<string>, m: map<string, int>): (v: int)
    requires KeysIn(keys, m) && keys != []
    ensures forall k :: k in keys ==> m[k] <= v
    ensures exists i :: 0 <= i < |keys| && m[keys[i]] == v
  {
    if |keys| == 1 then m[keys[0]]
    else
      var v := MaxValue(keys[1..], m);
      assert forall k :: k in keys ==> k == keys[0] || k in keys[1..];
      if m[keys[0]] >= v then m[keys[0]] else v
  }

  /** `keys.find(k => m[k] === v)` */
  function FindValue(keys: seq<string>, m: map<string, int>, v: int): (r: Option<string>)
    requires KeysIn(keys, m)
    ensures r.None? ==> forall i :: 0 <= i < |keys| ==> m[keys[i]] != v
    ensures r.Some? ==>
      && r.value in keys && m[r.value] == v
      && (forall j :: 0 <= j < IndexOf(keys, r.value) ==> m[keys[j]] != v)
  {
    if keys == [] then None
    else if m[keys[0]] == v then Some(keys[0])
    else
      var r := FindValue(keys[1..], m, v);
      if r.Some? then
        assert IndexOf(keys, r.value) == 1 + IndexOf(keys[1..], r.value);
        r
      else
        r
  }

  /** The slowest region named by the recommendation: the first key whose dwell equals the
      maximum, or `undefined` when there are no regions. */
  function SlowestRegion(keys: seq<string>, m: map<string, int>): (r: Option<string>)
    requires KeysIn(keys, m)
    ensures r.None? <==> keys == []
    ensures r.Some? ==> FirstMaximal(keys, m, r.value)
  {
    if keys == [] then None else FindValue(keys, m, MaxValue(keys, m))
  }

  // ---------------------------------------------------------------------------------------
  // The generator

  /** The prediction: the common region when the fastest and the most active agree,
      otherwise the fastest one if its time is less than half the most active one's. */
  function Predict(fastest: Option<string>, mostActive: Option<string>, times: map<string, int>): (p: Option<string>)
    requires fastest.Some? <==> mostActive.Some?
    requires fastest.Some? ==> fastest.value in times && mostActive.value in times
    ensures p == fastest || p == mostActive
    ensures p == fastest <==>
      fastest == mostActive || 2 * times[fastest.value] < times[mostActive.value]
  {
    if fastest == mostActive then fastest
    else if (times[fastest.value] as real) < (times[mostActive.value] as real) / 2.0 then fastest
    else mostActive
  }

  /** Days per path region, 0 for an empty path. */
  function Efficiency(journeyDays: real, regionCount: nat): real {
    if regionCount > 0 then journeyDays / (regionCount as real) else 0.0
  }

  function JourneyDays(logs: seq<ShipmentLog>): real {
    if |logs| > 1 then (logs[|logs| - 1].timestamp - logs[0].timestamp) as real / (MsPerDay as real)
    else 0.0
  }

  /** Specification of the generator: every value the texts use, computed from the logistics
      data. With a duplicate-free path the key order of both dictionaries is the path. */
  function Insights(data: LogisticsData): SingleInsights {
    var logs, path := data.shipmentLogs, data.regions.path;
    var times := DwellMap(path, logs);
    var fastest := FirstMin(path, times);
    var mostActive := FirstMax(path, FreqMap(path));
    var predicted := Predict(fastest, mostActive, times);
    var journey := JourneyDays(logs);
    var efficiency := Efficiency(journey, |path|);
    SingleInsights(
      data.productType, |path|, journey, efficiency, mostActive, fastest, predicted,
      efficiency < 2.0, |path| > 3, predicted == fastest,
      predicted == Some(data.regions.currentLocation),
      if fastest == predicted then ReduceSlower(SlowestRegion(path, times)) else DevelopFastest(fastest))
  }

  function Min(a: int, b: int): int {
    if a <= b then a else b
  }

  /** First loop of the generator: `regionTimes[region] = regionTimes[region] || 0` for every
      path region, so its keys are the distinct path regions in order and every value is 0. */
  method InitRegionTimes(path: seq<string>) returns (regionTimes: map<string, int>, keys: seq<string>)
    ensures keys == Distinct(path)
    ensures forall r :: r in regionTimes <==> r in path
    ensures forall r :: r in regionTimes ==> regionTimes[r] == 0
  {
    regionTimes, keys := map[], [];
    var j := 0;
    while j < |path|
      invariant 0 <= j <= |path|
      invariant keys == Distinct(path[..j])
      invariant forall r :: r in regionTimes <==> r in path[..j]
      invariant forall r :: r in regionTimes ==> regionTimes[r] == 0
    {
      var region := path[j];
      assert path[..j + 1][..j] == path[..j];
      assert forall r :: r in path[..j + 1] <==> r in path[..j] || r == region;
      regionTimes := regionTimes[region := if region in regionTimes then regionTimes[region] else 0];
      keys := AddToSet(keys, region);
      j := j + 1;
    }
    assert path[..j] == path;
  }

  /** Second loop: for each adjacent pair of shipment logs in one location, add the time
      between them to that location. The result is the dwell map of the path. */
  method AccumulateDwell(path: seq<string>, logs: seq<ShipmentLog>, init: map<string, int>)
    returns (regionTimes: map<string, int>)
    requires forall l :: l in logs ==> l.location in path
    requires forall r :: r in init <==> r in path
    requires forall r :: r in init ==> init[r] == 0
    ensures regionTimes == DwellMap(path, logs)
  {
    regionTimes := init;
    var i := 1;
    while i < |logs|
      invariant 1 <= i
      invariant forall r :: r in regionTimes <==> r in path
      invariant forall r :: r in regionTimes ==> regionTimes[r] == Dwell(logs, Min(i, |logs|), r)
    {
      var cur, prev := logs[i], logs[i - 1];
      if prev.location == cur.location {
        assert cur in logs;
        regionTimes := regionTimes[cur.location := regionTimes[cur.location] + (cur.timestamp - prev.timestamp)];
      }
      i := i + 1;
    }
  }

  /** Third loop: the `forEach` that starts from the first key and keeps the region with
      strictly less time. */
  method ScanFastest(keys: seq<string>, regionTimes: map<string, int>) returns (fastest: Option<string>)
    requires KeysIn(keys, regionTimes)
    ensures fastest == FirstMin(keys, regionTimes)
  {
    fastest := if |keys| > 0 then Some(keys[0]) else None;
    var m := 0;
    while m < |keys|
      invariant 0 <= m <= |keys|
      invariant fastest.Some? <==> keys != []
      invariant m == 0 && keys != [] ==> fastest == Some(keys[0])
      invariant m > 0 ==> fastest == FirstMin(keys[..m], regionTimes)
    {
      assert keys[..m + 1][..m] == keys[..m];
      if regionTimes[keys[m]] < regionTimes[fastest.value] {
        fastest := Some(keys[m]);
      }
      m := m + 1;
    }
    assert keys[..m] == keys;
  }

  /** Fourth loop: `regionFrequency[region] = (regionFrequency[region] || 0) + 1` over the
      path; its keys are the distinct regions in order of first occurrence. */
  method CountFrequencies(path: seq<string>) returns (regionFrequency: map<string, int>, keys: seq<string>)
    ensures keys == Distinct(path)
    ensures regionFrequency == FreqMap(path)
  {
    regionFrequency, keys := map[], [];
    var j := 0;
    while j < |path|
      invariant 0 <= j <= |path|
      invariant keys == Distinct(path[..j])
      invariant forall r :: r in regionFrequency <==> r in path[..j]
      invariant forall r :: r in regionFrequency ==> regionFrequency[r] == Count(path[..j], r)
    {
      var region := path[j];
      assert path[..j + 1][..j] == path[..j];
      assert forall r :: r in path[..j + 1] <==> r in path[..j] || r == region;
      regionFrequency := regionFrequency[region := (if region in regionFrequency then regionFrequency[region] else 0) + 1];
      keys := AddToSet(keys, region);
      j := j + 1;
    }
    assert path[..j] == path;
  }

  /** Fifth loop: the `forEach` that starts from the first key and keeps the region with a
      strictly greater frequency. */
  method ScanMostActive(keys: seq<string>, regionFrequency: map<string, int>) returns (mostActive: Option<string>)
    requires KeysIn(keys, regionFrequency)
    ensures mostActive == FirstMax(keys, regionFrequency)
  {
    mostActive := if |keys| > 0 then Some(keys[0]) else None;
    var m := 0;
    while m < |keys|
      invariant 0 <= m <= |keys|
      invariant mostActive.Some? <==> keys != []
      invariant m == 0 && keys != [] ==> mostActive == Some(keys[0])
      invariant m > 0 ==> mostActive == FirstMax(keys[..m], regionFrequency)
    {
      assert keys[..m + 1][..m] == keys[..m];
      if regionFrequency[keys[m]] > regionFrequency[mostActive.value] {
        mostActive := Some(keys[m]);
      }
      m := m + 1;
    }
    assert keys[..m] == keys;
  }

  /** The generator as the source runs it: the five loops, then the prediction, the journey
      figures and the recommendation. */
  method GenerateSupplyChainInsights(data: LogisticsData) returns (ins: SingleInsights)
    requires LogsOnPath(data)
    ensures ins == Insights(data)
  {
    var logs, path := data.shipmentLogs, data.regions.path;
    var init, keys := InitRegionTimes(path);
    var regionTimes := AccumulateDwell(path, logs, init);
    DistinctNoDup(path);
    var fastest := ScanFastest(keys, regionTimes);
    var regionFrequency, freqKeys := CountFrequencies(path);
    var mostActive := ScanMostActive(freqKeys, regionFrequency);
    var predicted := Predict(fastest, mostActive, regionTimes);
    var totalJourneyTime := JourneyDays(logs);
    var efficiency := Efficiency(totalJourneyTime, |path|);

    var recommendation := if fastest == predicted
      then ReduceSlower(SlowestRegion(keys, regionTimes))
      else DevelopFastest(fastest);
    ins := SingleInsights(
      data.productType, |path|, totalJourneyTime, efficiency, mostActive, fastest, predicted,
      efficiency < 2.0, |path| > 3, predicted == fastest,
      predicted == Some(data.regions.currentLocation), recommendation);
  }

  // ---------------------------------------------------------------------------------------
  // Properties

  /** Only adjacent same-region pairs add dwell: a region never visited twice in a row
      (A, B, A included) has none. */
  lemma {:induction false} DwellNeedsAdjacentPair(logs: seq<ShipmentLog>, n: nat, r: string)
    requires n <= |logs|
    requires forall j :: 1 <= j < n ==> !(logs[j - 1].location == r && logs[j].location == r)
    ensures Dwell(logs, n, r) == 0
  {
    if n >= 2 {
      DwellNeedsAdjacentPair(logs, n - 1, r);
    }
  }

  /** Consecutive logs in one region add up to the time between the first and the last. */
  lemma {:induction false} DwellTelescopes(logs: seq<ShipmentLog>, n: nat, r: string)
    requires 1 <= n <= |logs|
    requires forall j :: 0 <= j < n ==> logs[j].location == r
    ensures Dwell(logs, n, r) == logs[n - 1].timestamp - logs[0].timestamp
  {
    if n >= 2 {
      DwellTelescopes(logs, n - 1, r);
    }
  }

  /** With timestamps in order, a region's dwell is never negative and never exceeds the time
      between the first and the last shipment log. */
  lemma {:induction false} DwellWithinJourney(logs: seq<ShipmentLog>, n: nat, r: string)
    requires 1 <= n <= |logs| && NonDecreasing(logs)
    ensures 0 <= Dwell(logs, n, r) <= logs[n - 1].timestamp - logs[0].timestamp
  {
    if n >= 2 {
      DwellWithinJourney(logs, n - 1, r);
      assert logs[n - 2].timestamp <= logs[n - 1].timestamp;
    }
  }

  /** Frequencies are counted over the deduplicated path, so all of them are 1 and the
      most active region is always the first region of the path. */
  lemma MostActiveIsFirstRegion(data: LogisticsData)
    requires NoDup(data.regions.path) && data.regions.path != []
    ensures Insights(data).mostActive == Some(data.regions.path[0])
  {
    var path := data.regions.path;
    var f := FreqMap(path);
    forall r | r in path
      ensures f[r] == 1
    {
      CountNoDup(path, r);
    }
    var a := FirstMax(path, f);
    assert a.Some? && FirstMaximal(path, f, a.value);
    assert IndexOf(path, a.value) == 0;
  }

  /** The prediction is the fastest or the most active region (the first path region). It
      differs from the first path region only when the fastest region is another one whose
      dwell is less than half of the first region's. Two zero dwells keep the first region. */
  lemma PredictionRule(data: LogisticsData)
    requires NoDup(data.regions.path) && data.regions.path != []
    ensures var ins, path := Insights(data), data.regions.path;
      var times := DwellMap(path, data.shipmentLogs);
      && ins.fastest.Some? && ins.predicted.Some?
      && (ins.predicted == ins.fastest || ins.predicted == Some(path[0]))
      && (ins.predicted != Some(path[0]) <==>
            ins.fastest != Some(path[0]) && 2 * times[ins.fastest.value] < times[path[0]])
  {
    MostActiveIsFirstRegion(data);
  }

  /** A first region without dwell is always the prediction when time runs forward. */
  lemma IdleFirstRegionIsPredicted(data: LogisticsData)
    requires NoDup(data.regions.path) && data.regions.path != []
    requires NonDecreasing(data.shipmentLogs)
    requires Dwell(data.shipmentLogs, |data.shipmentLogs|, data.regions.path[0]) == 0
    ensures Insights(data).predicted == Some(data.regions.path[0])
  {
    var logs := data.shipmentLogs;
    PredictionRule(data);
    var f := Insights(data).fastest.value;
    if |logs| >= 1 {
      DwellWithinJourney(logs, |logs|, f);
    }
  }

  /** The text says "efficient" exactly when fewer than two shipment logs exist or the
      journey took less than two days per path region, in whole milliseconds. */
  lemma EfficiencyThreshold(data: LogisticsData)
    requires LogsOnPath(data)
    ensures var logs, n := data.shipmentLogs, |data.regions.path|;
      Insights(data).efficient <==>
        (|logs| < 2 || logs[|logs| - 1].timestamp - logs[0].timestamp < 2 * MsPerDay * n)
  {
    var logs, n := data.shipmentLogs, |data.regions.path|;
    var ins := Insights(data);
    assert ins.efficient == (Efficiency(JourneyDays(logs), n) < 2.0);
    if |logs| >= 2 {
      assert logs[0] in logs;
      assert n > 0;
      EfficientBelowTwoDays(logs, n);
    } else {
      assert JourneyDays(logs) == 0.0;
      assert n > 0 ==> 0.0 / (n as real) == 0.0;
    }
  }

  lemma EfficientBelowTwoDays(logs: seq<ShipmentLog>, n: nat)
    requires |logs| >= 2 && n > 0
    ensures Efficiency(JourneyDays(logs), n) < 2.0 <==>
      logs[|logs| - 1].timestamp - logs[0].timestamp < 2 * MsPerDay * n
  {
    var d := logs[|logs| - 1].timestamp - logs[0].timestamp;
    assert JourneyDays(logs) == d as real / (MsPerDay as real);
    assert Efficiency(JourneyDays(logs), n) == d as real / (MsPerDay as real) / (n as real);
    PerRegionBelow(d as real, MsPerDay as real, n as real);
    assert 2.0 * (MsPerDay as real) * (n as real) == (2 * MsPerDay * n) as real;
  }

  lemma PerRegionBelow(d: real, day: real, n: real)
    requires day > 0.0 && n > 0.0
    ensures d / day / n < 2.0 <==> d < 2.0 * day * n
  {
    var q := d / day / n;
    assert q * n == d / day;
    assert q * n * day == d;
    assert q * (day * n) == d;
    assert day * n > 0.0;
  }
}
