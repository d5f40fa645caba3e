/** The second half of `generateConsolidatedInsights` (routes/logistics.js lines 406-478):
    averages per product type, a score and a ranking of the regions, the most common product
    type, the most connected region, and the summary returned when no AI reply is used. */
module FleetSummary {
  import opened JsValues
  import opened Seqs
  import opened Extractor
  import opened Heuristics
  import opened Ranking
  import opened Fleet

  /** One row of `region_performance`. */
  datatype PerfRow = PerfRow(name: string, score: real, batchesProcessed: nat)

  /** The values of the local summary and of its four texts. */
  datatype FleetInsights = FleetInsights(
    totalBatches: nat,
    uniqueRegions: nat,
    productTypeCount: nat,
    mostCommonProduct: string,
    topRegions: seq<string>,
    mostConnected: string,
    topRegionBatches: nat,
    topRegionProductTypes: Option<nat>,
    topProductCount: nat,
    topProductAverageTransit: real,
    expandOrigin: bool,
    performance: seq<PerfRow>)

  /** What the generator produces: a TypeError when no batch has a region (the most connected
      region is read from an empty list), otherwise the summary. */
  datatype LocalResult = NoRegions | Summary(insights: FleetInsights)

  /** A region's score over n batches: 0.4 per batch, 0.3 per shipment, and up to 0.15 each
      for its shares of origins and of final locations. */
  function Score(m: RegionMetrics, n: nat): (s: real)
    requires n > 0
    ensures s >= 0.4 * (m.batchCount as real) + 0.3 * (m.shipmentCount as real)
    ensures m.isOrigin <= n && m.isFinal <= n ==>
      s <= 0.4 * (m.batchCount as real) + 0.3 * (m.shipmentCount as real) + 0.3
  {
    ShareAtMostOne(m.isOrigin, n);
    ShareAtMostOne(m.isFinal, n);
    (m.batchCount as real) * 0.4 + (m.shipmentCount as real) * 0.3
      + ((m.isOrigin as real) / (n as real)) * 0.15
      + ((m.isFinal as real) / (n as real)) * 0.15
  }

  lemma ShareAtMostOne(k: nat, n: nat)
    requires n > 0
    ensures 0.0 <= (k as real) / (n as real)
    ensures k <= n ==> (k as real) / (n as real) <= 1.0
  {
    var q := (k as real) / (n as real);
    assert q * (n as real) == k as real;
  }

  /** `Math.round(s * 100) / 100`: s to two decimals, halves rounded up. */
  function Round2(s: real): (r: real)
    ensures s - 0.005 < r <= s + 0.005
  {
    var f := (s * 100.0 + 0.5).Floor;
    assert (f as real) <= s * 100.0 + 0.5 < (f as real) + 1.0;
    (f as real) / 100.0
  }

  /** `averageTransitTime`: the mean journey of a type's batches, single-log batches counting 0. */
  function Average(tm: TypeMetrics): real
    requires tm.count > 0
  {
    tm.totalTransitTime / (tm.count as real)
  }

  /** Every product type key has been counted at least once. */
  predicate TypesCounted(t: Tally) {
    forall ty :: ty in t.types ==> t.types[ty].count > 0
  }

  /** The averaging loop over the product types. */
  method ComputeAverages(t: Tally) returns (avg: map<string, real>)
    requires TypesCounted(t)
    requires forall ty :: ty in t.typeOrder ==> ty in t.types
    ensures forall ty :: ty in avg <==> ty in t.typeOrder
    ensures forall ty :: ty in avg ==> avg[ty] == Average(t.types[ty])
  {
    avg := map[];
    var i := 0;
    while i < |t.typeOrder|
      invariant 0 <= i <= |t.typeOrder|
      invariant forall ty :: ty in avg <==> ty in t.typeOrder[..i]
      invariant forall ty :: ty in avg ==> avg[ty] == Average(t.types[ty])
    {
      var prodType := t.typeOrder[i];
      var metrics := t.types[prodType];
      avg := avg[prodType := metrics.totalTransitTime / (metrics.count as real)];
      assert t.typeOrder[..i + 1] == t.typeOrder[..i] + [prodType];
      i := i + 1;
    }
    assert t.typeOrder[..i] == t.typeOrder;
  }

  function ScoreKeys(t: Tally, n: nat): seq<real>
    requires n > 0
  {
    seq(|t.regionOrder|, i requires 0 <= i < |t.regionOrder| => Score(RegionOf(t, t.regionOrder[i]), n))
  }

  /** The regions with their scores, in key order. */
  function ScoreEntries(t: Tally, n: nat): seq<Entry>
    requires n > 0
  {
    Number(t.regionOrder, ScoreKeys(t, n))
  }

  function BatchKeys(t: Tally): seq<real> {
    seq(|t.regionOrder|, i requires 0 <= i < |t.regionOrder| => RegionOf(t, t.regionOrder[i]).batchCount as real)
  }

  /** The regions with their batch counts, in key order. */
  function BatchEntries(t: Tally): seq<Entry> {
    Number(t.regionOrder, BatchKeys(t))
  }

  function TypeKeys(t: Tally): seq<real> {
    seq(|t.typeOrder|, i requires 0 <= i < |t.typeOrder| => TypeOf(t, t.typeOrder[i]).count as real)
  }

  /** The product types with their counts, in key order. */
  function TypeEntries(t: Tally): seq<Entry> {
    Number(t.typeOrder, TypeKeys(t))
  }

  /** The corrected number of product types of a region: the size of its set. */
  function ProductDiversity(m: RegionMetrics): (d: Option<nat>)
    ensures d.Some? && d.value == |m.productTypes|
    ensures Consistent(m) && m.batchCount > 0 ==> 1 <= d.value <= m.batchCount
  {
    Some(|m.productTypes|)
  }

  /** `set.length` as the source writes it: a `Set` has no `length`, so the value is `undefined`. */
  function ProductDiversityAsWritten(m: RegionMetrics): Option<nat> {
    None
  }

  /** What the summary needs of the counters: the type keys agree with their order, every
      type was counted, and a tally with a region has a product type. */
  ghost predicate Ready(t: Tally) {
    && (forall ty :: ty in t.typeOrder <==> ty in t.types)
    && TypesCounted(t)
    && (t.regionOrder != [] ==> t.typeOrder != [])
  }

  /** `regionPerformance.slice(0, 5).map(...)`: name, rounded score and batch count. */
  function PerformanceRows(t: Tally, ranking: seq<Entry>): (rows: seq<PerfRow>)
    ensures |rows| == if |ranking| < 5 then |ranking| else 5
    ensures forall i :: 0 <= i < |rows| ==> rows[i].name == ranking[i].name
  {
    var k := if |ranking| < 5 then |ranking| else 5;
    seq(k, i requires 0 <= i < k => PerfRow(ranking[i].name, Round2(ranking[i].key), RegionOf(t, ranking[i].name).batchCount))
  }

  /** The summary of a tally over n batches. */
  function Summarize(t: Tally, n: nat): FleetInsights
    requires n > 0 && Ready(t) && t.regionOrder != []
  {
    var ranking := SortDesc(ScoreEntries(t, n));
    var topRegions := TopNames(ranking, 3);
    HeadNameIn(t.typeOrder, TypeKeys(t));
    var topProduct := SortDesc(TypeEntries(t))[0].name;
    var mostConnected := SortDesc(BatchEntries(t))[0].name;
    var top := RegionOf(t, topRegions[0]);
    var tm := t.types[topProduct];
    FleetInsights(
      n, |t.regionOrder|, |t.typeOrder|, topProduct, topRegions, mostConnected,
      top.batchCount, ProductDiversity(top), tm.count, Average(tm),
      top.isOrigin > 0, PerformanceRows(t, ranking))
  }

  /** The generated values for the batches, in order. */
  function LocalConsolidated(bs: seq<LogisticsData>): LocalResult {
    var t := TallyOf(bs);
    if t.regionOrder == [] then NoRegions
    else
      TallyNonEmpty(bs);
      TallyReady(bs);
      Summary(Summarize(t, |bs|))
  }

  /** The averaging loop, then the sorts and the summary. */
  method Finish(t: Tally, n: nat) returns (s: FleetInsights)
    requires n > 0 && Ready(t) && t.regionOrder != []
    ensures s == Summarize(t, n)
  {
    var averages := ComputeAverages(t);
    var regionPerformance := SortDesc(ScoreEntries(t, n));
    var topRegions := TopNames(regionPerformance, 3);
    HeadNameIn(t.typeOrder, TypeKeys(t));
    var topProductType := SortDesc(TypeEntries(t))[0].name;
    var mostConnectedRegion := SortDesc(BatchEntries(t))[0].name;
    var top := RegionOf(t, topRegions[0]);
    s := FleetInsights(
      n, |t.regionOrder|, |t.typeOrder|, topProductType, topRegions, mostConnectedRegion,
      top.batchCount, ProductDiversity(top),
      t.types[topProductType].count, averages[topProductType],
      top.isOrigin > 0, PerformanceRows(t, regionPerformance));
  }

  /** The generator as the source runs it. */
  method GenerateConsolidatedInsights(bs: seq<LogisticsData>) returns (r: LocalResult)
    requires AllOnPath(bs)
    ensures r == LocalConsolidated(bs)
  {
    var t := Aggregate(bs);
    if t.regionOrder == [] {
      return NoRegions;
    }
    TallyNonEmpty(bs);
    TallyReady(bs);
    var s := Finish(t, |bs|);
    r := Summary(s);
  }

  // ---------------------------------------------------------------------------------------
  // Facts the generator relies on

  /** With a region there is a batch and a product type. */
  lemma {:induction false} TallyNonEmpty(bs: seq<LogisticsData>)
    requires TallyOf(bs).regionOrder != []
    ensures |bs| > 0
    ensures TallyOf(bs).typeOrder != []
  {
    TallyTypeOrder(bs);
    assert TypesOf(bs)[0] in TypesOf(bs);
  }

  /** The type keys are the types of the batches, each counted at least once. */
  lemma {:induction false} TallyTypeKeys(bs: seq<LogisticsData>)
    ensures forall ty :: ty in TallyOf(bs).typeOrder <==> ty in TallyOf(bs).types
    ensures TypesCounted(TallyOf(bs))
  {
    if bs != [] {
      var n := |bs| - 1;
      var p, b := bs[..n], bs[n];
      TallyTypeKeys(p);
      var t0 := TallyOf(p);
      var t := TallyOf(bs);
      AddBatchOrder(t0, b);
      AddToSetSpec(t0.typeOrder, b.productType);
      forall ty
        ensures ty in t.types <==> ty in t0.types || ty == b.productType
        ensures ty in t.types ==> t.types[ty].count > 0
      {
        AddBatchType(t0, b, ty);
        AddBatchTypeKeys(t0, b, ty);
      }
    }
  }

  /** One batch adds its type, and only it, to the type keys. */
  lemma {:induction false} AddBatchTypeKeys(t: Tally, b: LogisticsData, ty: string)
    ensures ty in AddBatch(t, b).types <==> ty in t.types || ty == b.productType
  {
    var path, logs := b.regions.path, b.shipmentLogs;
    var c := CountType(t, b.productType);
    VisitPathTypeSet(c, b, |path|, ty);
    if |logs| > 1 {
      CountShipmentsFrame(AddTransit(VisitPath(c, b, |path|), b), logs, |logs|);
    }
  }

  lemma {:induction false} VisitPathTypeSet(t: Tally, b: LogisticsData, n: nat, ty: string)
    requires n <= |b.regions.path|
    ensures ty in VisitPath(t, b, n).types <==> ty in t.types || (n > 0 && ty == b.productType)
  {
    if n > 0 {
      VisitPathTypeSet(t, b, n - 1, ty);
    }
  }

  lemma {:induction false} TallyReady(bs: seq<LogisticsData>)
    ensures Ready(TallyOf(bs))
  {
    TallyTypeKeys(bs);
    if TallyOf(bs).regionOrder != [] {
      TallyNonEmpty(bs);
    }
  }

  // ---------------------------------------------------------------------------------------
  // What the summary states about the batches

  /** A sequence has distinct elements exactly when it has elements. */
  lemma {:induction false} DistinctEmpty(xs: seq<string>)
    ensures Distinct(xs) == [] <==> xs == []
  {
    if xs != [] {
      assert xs[0] in Distinct(xs);
    }
  }

  /** The generator fails exactly when no batch has a block; otherwise it counts the batches,
      the distinct regions and the distinct product types, keeps at most three top regions and
      at most five performance rows, the first of which are the top regions. */
  lemma {:induction false} SummaryCounts(bs: seq<LogisticsData>)
    ensures LocalConsolidated(bs).NoRegions? <==> Paths(bs) == []
    ensures LocalConsolidated(bs).Summary? ==>
      var s, u := LocalConsolidated(bs).insights, |Distinct(Paths(bs))|;
      && s.totalBatches == |bs|
      && s.uniqueRegions == u
      && s.productTypeCount == |Distinct(TypesOf(bs))|
      && |s.topRegions| == (if u < 3 then u else 3)
      && |s.performance| == (if u < 5 then u else 5)
      && (forall i :: 0 <= i < |s.topRegions| ==> s.performance[i].name == s.topRegions[i])
  {
    TallyRegionOrder(bs);
    TallyTypeOrder(bs);
    DistinctEmpty(Paths(bs));
  }

  /** The head of the stable descending sort of distinct values of xs, keyed by keys, is a
      value of xs of greatest key, and it is seen in xs before every other value of that key. */
  lemma {:induction false} HeadOfDistinct(xs: seq<string>, keys: seq<real>)
    requires |Distinct(xs)| == |keys| && xs != []
    ensures Distinct(xs) != []
    ensures var names := Distinct(xs); var h := SortDesc(Number(names, keys))[0];
      && h.name in xs
      && (forall i :: 0 <= i < |names| ==> keys[i] <= h.key)
      && h.key == keys[IndexOf(names, h.name)]
      && (forall i :: 0 <= i < |names| && keys[i] == h.key && names[i] != h.name ==>
            IndexOf(xs, h.name) < IndexOf(xs, names[i]))
  {
    var names := Distinct(xs);
    DistinctEmpty(xs);
    HeadIsFirstMax(names, keys);
    var h := SortDesc(Number(names, keys))[0];
    var p := h.pos;
    IndexOfDistinct(names, p);
    forall i | 0 <= i < |names| && keys[i] == h.key && names[i] != h.name
      ensures IndexOf(xs, h.name) < IndexOf(xs, names[i])
    {
      LaterInDistinct(xs, p, i);
    }
  }

  lemma {:induction false} IndexOfDistinct(names: seq<string>, p: nat)
    requires NoDup(names) && p < |names|
    ensures IndexOf(names, names[p]) == p
  {
  }

  lemma {:induction false} LaterInDistinct(xs: seq<string>, p: nat, i: nat)
    requires p < i < |Distinct(xs)|
    ensures IndexOf(xs, Distinct(xs)[p]) < IndexOf(xs, Distinct(xs)[i])
  {
    DistinctFirstOccurrence(xs);
  }

  /** `topRegions`: every top region is a region of the batches, and scores at least as high
      as every region left out of them. */
  lemma {:induction false} TopRegionsOutscore(bs: seq<LogisticsData>)
    requires LocalConsolidated(bs).Summary?
    ensures var s, t, n := LocalConsolidated(bs).insights, TallyOf(bs), |bs|;
      && (forall a :: a in s.topRegions ==> a in Paths(bs))
      && (forall a, r :: a in s.topRegions && r in Paths(bs) && r !in s.topRegions ==>
            Score(RegionOf(t, a), n) >= Score(RegionOf(t, r), n))
  {
    var t, n := TallyOf(bs), |bs|;
    TallyNonEmpty(bs);
    TallyRegionOrder(bs);
    assert LocalConsolidated(bs).insights.topRegions == TopNames(SortDesc(ScoreEntries(t, n)), 3);
    RankingOutscore(t, n);
  }

  /** The first three of the score ranking are regions, each scoring at least as high as any
      region outside them. */
  lemma {:induction false} RankingOutscore(t: Tally, n: nat)
    requires n > 0 && NoDup(t.regionOrder)
    ensures var top := TopNames(SortDesc(ScoreEntries(t, n)), 3);
      && (forall a :: a in top ==> a in t.regionOrder)
      && (forall a, r :: a in top && r in t.regionOrder && r !in top ==>
            Score(RegionOf(t, a), n) >= Score(RegionOf(t, r), n))
  {
    var names, keys := t.regionOrder, ScoreKeys(t, n);
    var top := TopNames(SortDesc(Number(names, keys)), 3);
    TopKOutrank(names, keys, 3);
    forall a | a in top
      ensures a in names
    {
      var x :| 0 <= x < |top| && top[x] == a;
      RankedEntryOrigin(names, keys, x);
    }
    forall a, r | a in top && r in names && r !in top
      ensures Score(RegionOf(t, a), n) >= Score(RegionOf(t, r), n)
    {
      var i, j := IndexOf(names, a), IndexOf(names, r);
      assert keys[i] >= keys[j];
    }
  }

  /** `mostConnectedRegion`: a region through which the most batches pass, the first such
      region to appear in the batches' paths. */
  lemma {:induction false} MostConnectedIsBusiest(bs: seq<LogisticsData>)
    requires AllOnPath(bs) && LocalConsolidated(bs).Summary?
    ensures var m := LocalConsolidated(bs).insights.mostConnected;
      && m in Paths(bs)
      && (forall r :: r in Paths(bs) ==> BatchesThrough(bs, r) <= BatchesThrough(bs, m))
      && (forall r :: r in Paths(bs) && BatchesThrough(bs, r) == BatchesThrough(bs, m) && r != m ==>
            IndexOf(Paths(bs), m) < IndexOf(Paths(bs), r))
  {
    var t := TallyOf(bs);
    TallyNonEmpty(bs);
    TallyRegionOrder(bs);
    var names, keys := t.regionOrder, BatchKeys(t);
    HeadOfDistinct(Paths(bs), keys);
    var m := SortDesc(Number(names, keys))[0].name;
    TallyRegion(bs, m);
    forall r | r in Paths(bs)
      ensures BatchesThrough(bs, r) <= BatchesThrough(bs, m)
      ensures BatchesThrough(bs, r) == BatchesThrough(bs, m) && r != m ==>
        IndexOf(Paths(bs), m) < IndexOf(Paths(bs), r)
    {
      TallyRegion(bs, r);
      var i := IndexOf(names, r);
      assert keys[i] == BatchesThrough(bs, r) as real;
    }
  }

  /** `topProductType`: a product type of the most batches, the first such type in batch
      order, with its count and its mean journey. */
  lemma {:induction false} MostCommonProduct(bs: seq<LogisticsData>)
    requires LocalConsolidated(bs).Summary?
    ensures var s, tys := LocalConsolidated(bs).insights, TypesOf(bs);
      var p := s.mostCommonProduct;
      && p in tys
      && (forall ty :: ty in tys ==> Count(tys, ty) <= Count(tys, p))
      && (forall ty :: ty in tys && Count(tys, ty) == Count(tys, p) && ty != p ==>
            IndexOf(tys, p) < IndexOf(tys, ty))
      && s.topProductCount == Count(tys, p) > 0
      && s.topProductAverageTransit == TransitOfType(bs, p) / (Count(tys, p) as real)
  {
    var t, tys := TallyOf(bs), TypesOf(bs);
    TallyNonEmpty(bs);
    TallyTypeOrder(bs);
    TallyReady(bs);
    DistinctEmpty(tys);
    var names, keys := t.typeOrder, TypeKeys(t);
    HeadOfDistinct(tys, keys);
    var p := SortDesc(Number(names, keys))[0].name;
    TallyType(bs, p);
    forall ty | ty in tys
      ensures Count(tys, ty) <= Count(tys, p)
      ensures Count(tys, ty) == Count(tys, p) && ty != p ==> IndexOf(tys, p) < IndexOf(tys, ty)
    {
      TallyType(bs, ty);
      var i := IndexOf(names, ty);
      assert keys[i] == Count(tys, ty) as real;
    }
  }

  /** The figures quoted for the top region: its batch count, and a number of product types
      between 1 and that count. */
  lemma {:induction false} TopRegionFigures(bs: seq<LogisticsData>)
    requires AllOnPath(bs) && LocalConsolidated(bs).Summary?
    ensures var s := LocalConsolidated(bs).insights;
      && s.topRegions != []
      && s.topRegionBatches == BatchesThrough(bs, s.topRegions[0]) > 0
      && s.topRegionProductTypes.Some?
      && 1 <= s.topRegionProductTypes.value <= s.topRegionBatches
  {
    var t := TallyOf(bs);
    var s := LocalConsolidated(bs).insights;
    SummaryCounts(bs);
    TopRegionsOutscore(bs);
    var a := s.topRegions[0];
    assert a in s.topRegions;
    TallyRegion(bs, a);
    BatchesThroughPositive(bs, a);
  }

  /** The product-type figure of the reason text as written: `productTypes` is a `Set`, whose
      `length` is `undefined`, while the intended figure, the size of the set, is at least one. */
  lemma TopRegionDiversityAsWritten(bs: seq<LogisticsData>)
    requires AllOnPath(bs) && LocalConsolidated(bs).Summary?
    ensures var s, t := LocalConsolidated(bs).insights, TallyOf(bs);
      && s.topRegions != []
      && ProductDiversityAsWritten(RegionOf(t, s.topRegions[0])).None?
      && s.topRegionProductTypes == ProductDiversity(RegionOf(t, s.topRegions[0]))
      && s.topRegionProductTypes.Some? && s.topRegionProductTypes.value >= 1
  {
    TopRegionFigures(bs);
  }

  /** A region on some path has at least one batch through it. */
  lemma {:induction false} BatchesThroughPositive(bs: seq<LogisticsData>, r: string)
    requires r in Paths(bs)
    ensures BatchesThrough(bs, r) > 0
  {
    var n := |bs| - 1;
    if r !in bs[n].regions.path {
      BatchesThroughPositive(bs[..n], r);
    }
  }

  /** `Math.round(x * 100) / 100` never reverses an order. */
  lemma Round2Monotone(a: real, b: real)
    requires a <= b
    ensures Round2(a) <= Round2(b)
  {
    var x, y := a * 100.0 + 0.5, b * 100.0 + 0.5;
    assert x <= y;
    var fa, fb := x.Floor, y.Floor;
    assert (fa as real) <= x && y < (fb as real) + 1.0;
    assert fa <= fb;
  }

  /** The performance rows are ordered by rounded score, largest first, and report each
      region's batch count. */
  lemma {:induction false} PerformanceOrdered(bs: seq<LogisticsData>)
    requires AllOnPath(bs) && LocalConsolidated(bs).Summary?
    ensures var rows := LocalConsolidated(bs).insights.performance;
      && (forall i, j :: 0 <= i < j < |rows| ==> rows[i].score >= rows[j].score)
      && (forall i :: 0 <= i < |rows| ==> rows[i].batchesProcessed == BatchesThrough(bs, rows[i].name))
  {
    var t, n := TallyOf(bs), |bs|;
    TallyNonEmpty(bs);
    var ranking := SortDesc(ScoreEntries(t, n));
    var rows := PerformanceRows(t, ranking);
    assert rows == LocalConsolidated(bs).insights.performance;
    SortDescRanked(ScoreEntries(t, n));
    forall i, j | 0 <= i < j < |rows|
      ensures rows[i].score >= rows[j].score
    {
      assert Before(ranking[i], ranking[j]);
      Round2Monotone(ranking[j].key, ranking[i].key);
    }
    forall i | 0 <= i < |rows|
      ensures rows[i].batchesProcessed == BatchesThrough(bs, rows[i].name)
    {
      TallyRegion(bs, rows[i].name);
    }
  }
}
