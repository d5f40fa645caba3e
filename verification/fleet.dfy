/** Insights across every batch (`generateConsolidatedInsights`, routes/logistics.js lines
    343-479): per-region and per-product-type counters gathered in one pass over the batches,
    a score per region, and the summary the route returns when no AI reply is used. */
module Fleet {
  import opened JsValues
  import opened Seqs
  import opened Extractor
  import opened Heuristics
  import opened Ranking

  /** `regionMetrics[region]`. `productTypes` is an insertion-ordered set. The two processing
      time fields are written once as 0 and never updated, so they are not kept. */
  datatype RegionMetrics = RegionMetrics(
    batchCount: nat, shipmentCount: nat, productTypes: seq<string>, isOrigin: nat, isFinal: nat)

  const NewRegion := RegionMetrics(0, 0, [], 0, 0)

  /** `productTypeMetrics[productType]` before averaging; `regions` is an insertion-ordered set. */
  datatype TypeMetrics = TypeMetrics(count: nat, regions: seq<string>, totalTransitTime: real)

  const NewType := TypeMetrics(0, [], 0.0)

  /** The two dictionaries with their key orders. The `allRegions` set receives the same
      regions in the same order as the keys of `regionMetrics`, so `regionOrder` stands for both. */
  datatype Tally = Tally(
    regionOrder: seq<string>,
    regions: map<string, RegionMetrics>,
    typeOrder: seq<string>,
    types: map<string, TypeMetrics>)

  const EmptyTally := Tally([], map[], [], map[])

  /** `regionMetrics[r] || { fresh counters }` */
  function RegionOf(t: Tally, r: string): RegionMetrics {
    if r in t.regions then t.regions[r] else NewRegion
  }

  function TypeOf(t: Tally, ty: string): TypeMetrics {
    if ty in t.types then t.types[ty] else NewType
  }

  // ---------------------------------------------------------------------------------------
  // The pass over the batches, one step at a time

  /** One more batch of type ty. */
  function CountType(t: Tally, ty: string): Tally {
    var m := TypeOf(t, ty);
    t.(typeOrder := AddToSet(t.typeOrder, ty), types := t.types[ty := m.(count := m.count + 1)])
  }

  /** The counters of region r after batch b passed through it once. */
  function Bump(m: RegionMetrics, b: LogisticsData, r: string): RegionMetrics {
    RegionMetrics(
      m.batchCount + 1,
      m.shipmentCount,
      AddToSet(m.productTypes, b.productType),
      m.isOrigin + (if b.regions.origin == r then 1 else 0),
      m.isFinal + (if b.regions.currentLocation == r then 1 else 0))
  }

  /** The body of the inner `regions.path.forEach`. */
  function VisitRegion(t: Tally, b: LogisticsData, r: string): Tally {
    var tm := TypeOf(t, b.productType);
    t.(regionOrder := AddToSet(t.regionOrder, r),
       regions := t.regions[r := Bump(RegionOf(t, r), b, r)],
       types := t.types[b.productType := tm.(regions := AddToSet(tm.regions, r))])
  }

  /** The first n steps of the path loop of batch b. */
  function VisitPath(t: Tally, b: LogisticsData, n: nat): Tally
    requires n <= |b.regions.path|
  {
    if n == 0 then t else VisitRegion(VisitPath(t, b, n - 1), b, b.regions.path[n - 1])
  }

  /** Adds the batch's journey in days to its product type. */
  function AddTransit(t: Tally, b: LogisticsData): Tally {
    var tm := TypeOf(t, b.productType);
    t.(types := t.types[b.productType := tm.(totalTransitTime := tm.totalTransitTime + JourneyDays(b.shipmentLogs))])
  }

  /** The first n steps of `shipmentLogs.forEach(log => regionMetrics[log.location].shipmentCount++)`.
      A location without counters would make the source throw; it never occurs for extracted
      data (every shipment location is on the path) and is skipped here. */
  function CountShipments(t: Tally, logs: seq<ShipmentLog>, n: nat): Tally
    requires n <= |logs|
  {
    if n == 0 then t
    else
      var u := CountShipments(t, logs, n - 1);
      var loc := logs[n - 1].location;
      if loc in u.regions then u.(regions := u.regions[loc := u.regions[loc].(shipmentCount := u.regions[loc].shipmentCount + 1)])
      else u
  }

  /** The body of the outer `batchesData.forEach`. */
  function AddBatch(t: Tally, b: LogisticsData): Tally {
    var v := VisitPath(CountType(t, b.productType), b, |b.regions.path|);
    if |b.shipmentLogs| > 1 then CountShipments(AddTransit(v, b), b.shipmentLogs, |b.shipmentLogs|) else v
  }

  /** The counters after the batches, in order. */
  function TallyOf(bs: seq<LogisticsData>): Tally {
    if bs == [] then EmptyTally else AddBatch(TallyOf(bs[..|bs| - 1]), bs[|bs| - 1])
  }

  predicate AllOnPath(bs: seq<LogisticsData>) {
    forall i :: 0 <= i < |bs| ==> LogsOnPath(bs[i])
  }

  /** The body of the path loop: record the region in the region order and in its type's
      region set, then update its counters. */
  method RecordRegion(t0: Tally, b: LogisticsData, region: string) returns (t: Tally)
    requires b.productType in t0.types
    ensures t == VisitRegion(t0, b, region)
  {
    var ty := b.productType;
    var regionOrder := AddToSet(t0.regionOrder, region);
    var types := t0.types[ty := t0.types[ty].(regions := AddToSet(t0.types[ty].regions, region))];
    var m := if region in t0.regions then t0.regions[region] else NewRegion;
    m := m.(batchCount := m.batchCount + 1);
    m := m.(productTypes := AddToSet(m.productTypes, ty));
    if b.regions.origin == region {
      m := m.(isOrigin := m.isOrigin + 1);
    }
    if b.regions.currentLocation == region {
      m := m.(isFinal := m.isFinal + 1);
    }
    assert m == Bump(RegionOf(t0, region), b, region);
    t := Tally(regionOrder, t0.regions[region := m], t0.typeOrder, types);
  }

  /** The inner path loop for one batch. */
  method VisitPathLoop(t0: Tally, b: LogisticsData) returns (t: Tally)
    requires b.productType in t0.types
    ensures t == VisitPath(t0, b, |b.regions.path|)
  {
    t := t0;
    var j := 0;
    while j < |b.regions.path|
      invariant 0 <= j <= |b.regions.path|
      invariant b.productType in t.types
      invariant t == VisitPath(t0, b, j)
    {
      t := RecordRegion(t, b, b.regions.path[j]);
      j := j + 1;
    }
  }

  /** The shipment loop for one batch: every log's location has counters already. */
  method CountShipmentsLoop(t0: Tally, logs: seq<ShipmentLog>) returns (t: Tally)
    requires forall l :: l in logs ==> l.location in t0.regions
    ensures t == CountShipments(t0, logs, |logs|)
  {
    t := t0;
    var k := 0;
    while k < |logs|
      invariant 0 <= k <= |logs|
      invariant forall r :: r in t0.regions ==> r in t.regions
      invariant t == CountShipments(t0, logs, k)
    {
      var loc := logs[k].location;
      assert logs[k] in logs;
      t := t.(regions := t.regions[loc := t.regions[loc].(shipmentCount := t.regions[loc].shipmentCount + 1)]);
      k := k + 1;
    }
  }

  /** The body of the outer loop: count the batch's type, walk its path and, with more than
      one shipment log, add its journey and count its shipments. */
  method ProcessBatch(t0: Tally, b: LogisticsData) returns (t: Tally)
    requires LogsOnPath(b)
    ensures t == AddBatch(t0, b)
  {
    var ty := b.productType;
    var tm := if ty in t0.types then t0.types[ty] else NewType;
    t := t0.(typeOrder := AddToSet(t0.typeOrder, ty), types := t0.types[ty := tm.(count := tm.count + 1)]);
    ghost var start := t;
    assert start == CountType(t0, ty);
    t := VisitPathLoop(t, b);
    ghost var visited := t;
    var logs := b.shipmentLogs;
    if |logs| > 1 {
      VisitPathKeys(start, b, |b.regions.path|);
      assert b.regions.path[..|b.regions.path|] == b.regions.path;
      VisitPathTypeKeys(start, b, |b.regions.path|);
      var transit := (logs[|logs| - 1].timestamp - logs[0].timestamp) as real / (MsPerDay as real);
      t := t.(types := t.types[ty := t.types[ty].(totalTransitTime := t.types[ty].totalTransitTime + transit)]);
      assert t == AddTransit(visited, b);
      t := CountShipmentsLoop(t, logs);
      assert AddBatch(t0, b) == CountShipments(AddTransit(visited, b), logs, |logs|);
    } else {
      assert AddBatch(t0, b) == visited;
    }
  }

  /** The pass as the source runs it: the outer loop over the batches. */
  method Aggregate(bs: seq<LogisticsData>) returns (t: Tally)
    requires AllOnPath(bs)
    ensures t == TallyOf(bs)
  {
    t := EmptyTally;
    var i := 0;
    while i < |bs|
      invariant 0 <= i <= |bs|
      invariant t == TallyOf(bs[..i])
    {
      t := ProcessBatch(t, bs[i]);
      assert bs[..i + 1][..i] == bs[..i];
      i := i + 1;
    }
    assert bs[..i] == bs;
  }

  // ---------------------------------------------------------------------------------------
  // What the counters count

  /** Every path region of every batch, in batch order. */
  function Paths(bs: seq<LogisticsData>): seq<string> {
    if bs == [] then [] else Paths(bs[..|bs| - 1]) + bs[|bs| - 1].regions.path
  }

  /** The product type of every batch, in batch order. */
  function TypesOf(bs: seq<LogisticsData>): seq<string> {
    seq(|bs|, i requires 0 <= i < |bs| => bs[i].productType)
  }

  /** Number of batches whose path contains r. */
  function BatchesThrough(bs: seq<LogisticsData>, r: string): nat {
    if bs == [] then 0
    else BatchesThrough(bs[..|bs| - 1], r) + (if r in bs[|bs| - 1].regions.path then 1 else 0)
  }

  /** Number of shipment logs located at r. */
  function LogsAt(logs: seq<ShipmentLog>, r: string): nat {
    if logs == [] then 0
    else LogsAt(logs[..|logs| - 1], r) + (if logs[|logs| - 1].location == r then 1 else 0)
  }

  /** Shipment logs at r, over the batches with more than one shipment log. */
  function ShipmentsAt(bs: seq<LogisticsData>, r: string): nat {
    if bs == [] then 0
    else
      var b := bs[|bs| - 1];
      ShipmentsAt(bs[..|bs| - 1], r) + (if |b.shipmentLogs| > 1 then LogsAt(b.shipmentLogs, r) else 0)
  }

  /** Journey days summed over the batches of type ty with more than one shipment log. */
  function TransitOfType(bs: seq<LogisticsData>, ty: string): real {
    if bs == [] then 0.0
    else
      var b := bs[|bs| - 1];
      TransitOfType(bs[..|bs| - 1], ty)
        + (if b.productType == ty && |b.shipmentLogs| > 1 then JourneyDays(b.shipmentLogs) else 0.0)
  }

  /** Counters that can arise: origins, finals and distinct product types never exceed the
      number of batches, and a region that saw a batch saw at least one product type. */
  predicate Consistent(m: RegionMetrics) {
    && m.isOrigin <= m.batchCount
    && m.isFinal <= m.batchCount
    && |m.productTypes| <= m.batchCount
    && (m.batchCount > 0 ==> |m.productTypes| > 0)
    && NoDup(m.productTypes)
  }

  lemma {:induction false} VisitPathKeys(t: Tally, b: LogisticsData, n: nat)
    requires n <= |b.regions.path|
    ensures forall r :: r in VisitPath(t, b, n).regions <==> r in t.regions || r in b.regions.path[..n]
  {
    if n > 0 {
      VisitPathKeys(t, b, n - 1);
      assert b.regions.path[..n] == b.regions.path[..n - 1] + [b.regions.path[n - 1]];
    }
  }

  /** On a duplicate-free path, the path loop bumps each path region exactly once and leaves
      every other region alone. */
  lemma {:induction false} VisitPathRegion(t: Tally, b: LogisticsData, n: nat, r: string)
    requires n <= |b.regions.path| && NoDup(b.regions.path)
    ensures RegionOf(VisitPath(t, b, n), r) ==
      if r in b.regions.path[..n] then Bump(RegionOf(t, r), b, r) else RegionOf(t, r)
  {
    var path := b.regions.path;
    if n > 0 {
      VisitPathRegion(t, b, n - 1, r);
      assert path[..n] == path[..n - 1] + [path[n - 1]];
      if r == path[n - 1] {
        assert r !in path[..n - 1];
      }
    }
  }

  lemma {:induction false} VisitPathTypeKeys(t: Tally, b: LogisticsData, n: nat)
    requires n <= |b.regions.path| && b.productType in t.types
    ensures b.productType in VisitPath(t, b, n).types
  {
    if n > 0 {
      VisitPathTypeKeys(t, b, n - 1);
    }
  }

  /** The path loop adds the path to the region order and leaves the type order alone. */
  lemma {:induction false} VisitPathOrder(t: Tally, b: LogisticsData, n: nat)
    requires n <= |b.regions.path|
    ensures VisitPath(t, b, n).regionOrder == AddAll(t.regionOrder, b.regions.path[..n])
    ensures VisitPath(t, b, n).typeOrder == t.typeOrder
  {
    if n > 0 {
      VisitPathOrder(t, b, n - 1);
      assert b.regions.path[..n][..n - 1] == b.regions.path[..n - 1];
    }
  }

  /** The path loop changes no type's count or transit time. */
  lemma {:induction false} VisitPathType(t: Tally, b: LogisticsData, n: nat, ty: string)
    requires n <= |b.regions.path|
    ensures TypeOf(VisitPath(t, b, n), ty).count == TypeOf(t, ty).count
    ensures TypeOf(VisitPath(t, b, n), ty).totalTransitTime == TypeOf(t, ty).totalTransitTime
  {
    if n > 0 {
      VisitPathType(t, b, n - 1, ty);
    }
  }

  /** The shipment loop leaves the keys and everything but the shipment counts alone. */
  lemma {:induction false} CountShipmentsFrame(t: Tally, logs: seq<ShipmentLog>, n: nat)
    requires n <= |logs|
    ensures var u := CountShipments(t, logs, n);
      && u.regionOrder == t.regionOrder && u.typeOrder == t.typeOrder && u.types == t.types
      && (forall r :: r in u.regions <==> r in t.regions)
  {
    if n > 0 {
      CountShipmentsFrame(t, logs, n - 1);
    }
  }

  /** The shipment loop adds to each region its number of logs, when every log's location
      has counters. */
  lemma {:induction false} CountShipmentsRegion(t: Tally, logs: seq<ShipmentLog>, n: nat, r: string)
    requires n <= |logs|
    requires forall i :: 0 <= i < n ==> logs[i].location in t.regions
    ensures RegionOf(CountShipments(t, logs, n), r) ==
      RegionOf(t, r).(shipmentCount := RegionOf(t, r).shipmentCount + LogsAt(logs[..n], r))
  {
    if n > 0 {
      CountShipmentsRegion(t, logs, n - 1, r);
      CountShipmentsFrame(t, logs, n - 1);
      assert logs[..n][..n - 1] == logs[..n - 1];
    }
  }

  /** One batch's effect on the counters of region r. */
  lemma AddBatchRegion(t: Tally, b: LogisticsData, r: string)
    requires LogsOnPath(b)
    ensures var base := if r in b.regions.path then Bump(RegionOf(t, r), b, r) else RegionOf(t, r);
      RegionOf(AddBatch(t, b), r) ==
        base.(shipmentCount := base.shipmentCount + if |b.shipmentLogs| > 1 then LogsAt(b.shipmentLogs, r) else 0)
  {
    var path, logs := b.regions.path, b.shipmentLogs;
    var c := CountType(t, b.productType);
    assert RegionOf(c, r) == RegionOf(t, r);
    VisitPathRegion(c, b, |path|, r);
    assert path[..|path|] == path;
    if |logs| > 1 {
      var v := VisitPath(c, b, |path|);
      var a := AddTransit(v, b);
      VisitPathKeys(c, b, |path|);
      forall i | 0 <= i < |logs|
        ensures logs[i].location in a.regions
      {
        assert logs[i] in logs;
      }
      CountShipmentsRegion(a, logs, |logs|, r);
      assert logs[..|logs|] == logs;
    }
  }

  /** One batch's effect on the key orders. */
  lemma AddBatchOrder(t: Tally, b: LogisticsData)
    ensures AddBatch(t, b).regionOrder == AddAll(t.regionOrder, b.regions.path)
    ensures AddBatch(t, b).typeOrder == AddToSet(t.typeOrder, b.productType)
  {
    var path, logs := b.regions.path, b.shipmentLogs;
    var c := CountType(t, b.productType);
    VisitPathOrder(c, b, |path|);
    assert path[..|path|] == path;
    if |logs| > 1 {
      CountShipmentsFrame(AddTransit(VisitPath(c, b, |path|), b), logs, |logs|);
    }
  }

  /** One batch's effect on the counters of product type ty. */
  lemma AddBatchType(t: Tally, b: LogisticsData, ty: string)
    ensures TypeOf(AddBatch(t, b), ty).count == TypeOf(t, ty).count + (if ty == b.productType then 1 else 0)
    ensures TypeOf(AddBatch(t, b), ty).totalTransitTime == TypeOf(t, ty).totalTransitTime
      + (if ty == b.productType && |b.shipmentLogs| > 1 then JourneyDays(b.shipmentLogs) else 0.0)
  {
    var path, logs := b.regions.path, b.shipmentLogs;
    var c := CountType(t, b.productType);
    VisitPathType(c, b, |path|, ty);
    if |logs| > 1 {
      CountShipmentsFrame(AddTransit(VisitPath(c, b, |path|), b), logs, |logs|);
    }
  }

  /** Region keys come in first-seen order over all paths. */
  lemma {:induction false} TallyRegionOrder(bs: seq<LogisticsData>)
    ensures TallyOf(bs).regionOrder == Distinct(Paths(bs))
  {
    if bs != [] {
      var n := |bs| - 1;
      var p, b := bs[..n], bs[n];
      TallyRegionOrder(p);
      AddBatchOrder(TallyOf(p), b);
      DistinctAppend(Paths(p), b.regions.path);
    }
  }

  /** Type keys come in first-seen order over the batches. */
  lemma {:induction false} TallyTypeOrder(bs: seq<LogisticsData>)
    ensures TallyOf(bs).typeOrder == Distinct(TypesOf(bs))
  {
    if bs != [] {
      var n := |bs| - 1;
      var p, b := bs[..n], bs[n];
      TallyTypeOrder(p);
      AddBatchOrder(TallyOf(p), b);
      assert TypesOf(bs) == TypesOf(p) + [b.productType];
      assert TypesOf(bs)[..n] == TypesOf(p);
    }
  }

  /** A region's batch count is the number of batches through it, its shipment count the
      number of shipment logs there, and its counters are consistent. */
  lemma {:induction false} TallyRegion(bs: seq<LogisticsData>, r: string)
    requires AllOnPath(bs)
    ensures RegionOf(TallyOf(bs), r).batchCount == BatchesThrough(bs, r)
    ensures RegionOf(TallyOf(bs), r).shipmentCount == ShipmentsAt(bs, r)
    ensures Consistent(RegionOf(TallyOf(bs), r))
  {
    if bs != [] {
      var n := |bs| - 1;
      var p, b := bs[..n], bs[n];
      assert AllOnPath(p);
      assert LogsOnPath(b);
      TallyRegion(p, r);
      AddBatchRegion(TallyOf(p), b, r);
    }
  }

  /** A type's count is its number of batches, and its total transit time the sum of the
      journeys of its batches with more than one shipment log. */
  lemma {:induction false} TallyType(bs: seq<LogisticsData>, ty: string)
    ensures TypeOf(TallyOf(bs), ty).count == Count(TypesOf(bs), ty)
    ensures TypeOf(TallyOf(bs), ty).totalTransitTime == TransitOfType(bs, ty)
  {
    if bs != [] {
      var n := |bs| - 1;
      var p, b := bs[..n], bs[n];
      TallyType(p, ty);
      AddBatchType(TallyOf(p), b, ty);
      assert TypesOf(bs)[..n] == TypesOf(p);
    }
  }
}
