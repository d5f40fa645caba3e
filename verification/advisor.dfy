/** The language-model adapters `getAIInsights` (routes/logistics.js lines 181-262) and
    `getAIConsolidatedInsights` (lines 487-579), with the fallbacks around them.

    The request itself is not modelled: the service's answer is a `Reply`, and `JSON.parse`
    is a parameter that yields `None` where it would throw. */
module Advisor {
  import opened JsValues
  import opened Seqs
  import opened Extractor
  import opened Heuristics
  import opened Ranking
  import opened Fleet
  import opened FleetSummary

  /** What the service call produced: a response with `ok` false, an exception (from `fetch`
      or from `response.json()`), or the parsed body. */
  datatype Reply = NotOk | Threw | Body(data: JsVal)

  // ---------------------------------------------------------------------------------------
  // `text.match(/\{[\s\S]*\}/)`

  /** The position of the last c in s. */
  function LastOf(s: string, c: char): (r: Option<nat>)
    ensures r.None? <==> c !in s
    ensures r.Some? ==> r.value < |s| && s[r.value] == c && forall k :: r.value < k < |s| ==> s[k] != c
  {
    if s == [] then None
    else if s[|s| - 1] == c then Some(|s| - 1)
    else LastOf(s[..|s| - 1], c)
  }

  /** s[i..j+1] is a match of the pattern: an opening brace, anything, a closing brace. */
  predicate BracePair(s: string, i: int, j: int) {
    0 <= i < j < |s| && s[i] == '{' && s[j] == '}'
  }

  /** The matched text: from the first `{` to the last `}`, when the latter follows the former. */
  function BraceSpan(s: string): Option<string> {
    match (Find(s, '{'), LastOf(s, '}'))
    case (Some(i), Some(j)) => if i < j then Some(s[i..j + 1]) else None
    case _ => None
  }

  /** The pattern matches exactly when some brace pair exists, and the match is the leftmost,
      longest one: it starts at or before every match and ends at or after every match. */
  lemma BraceSpanSpec(s: string) returns (i: nat, j: nat)
    ensures BraceSpan(s).None? <==> forall a, b :: !BracePair(s, a, b)
    ensures BraceSpan(s).Some? ==>
      && BracePair(s, i, j)
      && BraceSpan(s).value == s[i..j + 1]
      && (forall a, b :: BracePair(s, a, b) ==> i <= a && b <= j)
  {
    var f, l := Find(s, '{'), LastOf(s, '}');
    if f.Some? && l.Some? && f.value < l.value {
      i, j := f.value, l.value;
      assert BracePair(s, i, j);
      forall a, b | BracePair(s, a, b)
        ensures i <= a && b <= j
      {
      }
    } else {
      i, j := 0, 0;
      forall a, b
        ensures !BracePair(s, a, b)
      {
      }
    }
  }

  /** The matched text is a braced substring: it opens with `{` and closes with `}`. */
  lemma BraceSpanBraced(s: string)
    requires BraceSpan(s).Some?
    ensures |BraceSpan(s).value| >= 2
    ensures BraceSpan(s).value[0] == '{'
    ensures BraceSpan(s).value[|BraceSpan(s).value| - 1] == '}'
  {
    var i, j := BraceSpanSpec(s);
  }

  // ---------------------------------------------------------------------------------------
  // Reading the reply

  /** `jsonResponse` after the inner `try` of lines 232-245 (or 531-540): `None` when it is
      `undefined` or when reading it throws (`data[0]` on null, `.match` on a value that is not
      a string, `JSON.parse` on text that is not JSON). */
  function Candidate(data: JsVal, parse: string -> Option<JsVal>): Option<JsVal> {
    if data.JNull? then None
    else
      var first := Index0(data);
      if TruthyOpt(first) && TruthyOpt(Field(first.value, "generated_text")) then
        var text := Field(first.value, "generated_text").value;
        if !text.JStr? then None
        else
          match BraceSpan(text.s)
          case None => None
          case Some(m) => parse(m)
      else if IsObjectType(data) then Some(data)
      else None
  }

  /** `jsonResponse && jsonResponse.insights`: the reply is used only when it has a truthy
      `insights` key, which makes it an object. */
  predicate Usable(doc: Option<JsVal>) {
    doc.Some? && TruthyOpt(Field(doc.value, "insights"))
  }

  /** The reply is used only when the service answered and its reading produced a document
      with a truthy `insights`. */
  predicate Accepted(reply: Reply, parse: string -> Option<JsVal>) {
    reply.Body? && Usable(Candidate(reply.data, parse))
  }

  /** Where the document comes from: when the first element has generated text, only the
      parse of its braced part can be used; otherwise an object or array is taken as it is;
      null, text, numbers and booleans never yield a document. */
  lemma CandidateSources(data: JsVal, parse: string -> Option<JsVal>)
    ensures var first := Index0(data);
      !data.JNull? && TruthyOpt(first) && TruthyOpt(Field(first.value, "generated_text")) &&
      Candidate(data, parse).Some? ==>
        var text := Field(first.value, "generated_text").value;
        && text.JStr? && BraceSpan(text.s).Some?
        && Candidate(data, parse) == parse(BraceSpan(text.s).value)
    ensures var first := Index0(data);
      (data.JArr? || data.JObj?) && !(TruthyOpt(first) && TruthyOpt(Field(first.value, "generated_text"))) ==>
        Candidate(data, parse) == Some(data)
    ensures !(data.JArr? || data.JObj?) ==> Candidate(data, parse).None?
  {
  }

  // ---------------------------------------------------------------------------------------
  // One batch

  datatype SingleOutcome = LocalInsights(insights: SingleInsights) | AIInsights(doc: JsVal)

  /** `getAIInsights`: the document itself when accepted, the local heuristic otherwise. */
  function AIInsightsOutcome(data: LogisticsData, reply: Reply, parse: string -> Option<JsVal>): SingleOutcome {
    match reply
    case NotOk => LocalInsights(Insights(data))
    case Threw => LocalInsights(Insights(data))
    case Body(d) =>
      var c := Candidate(d, parse);
      if c.Some? && TruthyOpt(Field(c.value, "insights")) then AIInsights(c.value)
      else LocalInsights(Insights(data))
  }

  /** A failed call, a thrown error or a reply without truthy `insights` each yields exactly
      the local heuristic; an accepted reply is returned unchanged, and it is an object. */
  lemma AIInsightsFallback(data: LogisticsData, reply: Reply, parse: string -> Option<JsVal>)
    ensures !Accepted(reply, parse) <==> AIInsightsOutcome(data, reply, parse) == LocalInsights(Insights(data))
    ensures Accepted(reply, parse) ==>
      && AIInsightsOutcome(data, reply, parse) == AIInsights(Candidate(reply.data, parse).value)
      && Candidate(reply.data, parse).value.JObj?
  {
  }

  // ---------------------------------------------------------------------------------------
  // The fleet

  function Num(n: nat): JsVal {
    JNum(n as real)
  }

  /** The `summary` object of the merged reply. */
  function SummaryDoc(n: nat, t: Tally): JsVal {
    JObj(map["total_batches" := Num(n), "unique_regions" := Num(|t.regionOrder|),
             "product_types" := Num(|t.typeOrder|)])
  }

  /** One `region_performance` entry; `JSON.stringify` drops a key whose value is `undefined`. */
  function RegionRow(name: string, batches: nat, diversity: Option<nat>): JsVal {
    var fields := map["name" := JStr(name), "batches_processed" := Num(batches)];
    JObj(if diversity.Some? then fields["product_diversity" := Num(diversity.value)] else fields)
  }

  /** `metrics.topRegions.slice(0, 5).map(...)` as written: the three top regions, with
      `productTypes.length` read from a `Set`. */
  function RegionRowsAsWritten(t: Tally, topRegions: seq<string>): seq<JsVal> {
    seq(|topRegions|, i requires 0 <= i < |topRegions| =>
      RegionRow(topRegions[i], RegionOf(t, topRegions[i]).batchCount,
                ProductDiversityAsWritten(RegionOf(t, topRegions[i]))))
  }

  /** The region rows as intended: the five best-ranked regions, with the size of each
      region's set of product types. */
  function RegionRows(t: Tally, performance: seq<PerfRow>): (rows: seq<JsVal>)
    ensures |rows| == |performance|
  {
    seq(|performance|, i requires 0 <= i < |performance| =>
      RegionRow(performance[i].name, RegionOf(t, performance[i].name).batchCount,
                ProductDiversity(RegionOf(t, performance[i].name))))
  }

  /** `{...jsonResponse, summary, region_performance}`: the reply's keys, with the two local
      ones written over it. */
  function Merge(doc: JsVal, summary: JsVal, rows: seq<JsVal>): JsVal
    requires doc.JObj?
  {
    JObj(doc.fields["summary" := summary]["region_performance" := JArr(rows)])
  }

  datatype FleetOutcome = NoRegionsError | LocalFleet(insights: FleetInsights) | AIFleet(doc: JsVal)

  /** `generateConsolidatedInsights` with the service switched on or off: no region is a
      TypeError before the service is asked; an accepted reply is merged with the local
      counters; anything else falls back to the local summary. The merge uses the corrected
      rows of `RegionRows`; the rows the code as written sends are
      `ConsolidatedRowsAsWritten`. */
  function ConsolidatedOutcome(bs: seq<LogisticsData>, useAI: bool, reply: Reply, parse: string -> Option<JsVal>): FleetOutcome {
    match LocalConsolidated(bs)
    case NoRegions => NoRegionsError
    case Summary(s) =>
      if useAI && reply.Body? && Usable(Candidate(reply.data, parse)) then
        var t := TallyOf(bs);
        AIFleet(Merge(Candidate(reply.data, parse).value, SummaryDoc(|bs|, t), RegionRows(t, s.performance)))
      else LocalFleet(s)
  }

  /** The region rows that the merge as written would produce. */
  function ConsolidatedRowsAsWritten(bs: seq<LogisticsData>): seq<JsVal>
    requires LocalConsolidated(bs).Summary?
  {
    RegionRowsAsWritten(TallyOf(bs), LocalConsolidated(bs).insights.topRegions)
  }

  /** Without the service, or with a reply that is not accepted, the fleet answer is the
      local summary; the service is never asked when no batch has a region. */
  lemma {:induction false} ConsolidatedFallback(bs: seq<LogisticsData>, useAI: bool, reply: Reply, parse: string -> Option<JsVal>)
    ensures LocalConsolidated(bs).NoRegions? <==> ConsolidatedOutcome(bs, useAI, reply, parse) == NoRegionsError
    ensures LocalConsolidated(bs).Summary? ==>
      var local := LocalFleet(LocalConsolidated(bs).insights);
      (ConsolidatedOutcome(bs, useAI, reply, parse) == local <==> !(useAI && Accepted(reply, parse)))
  {
  }

  /** The merge keeps every key of the reply but the two it writes. */
  lemma MergeFields(doc: JsVal, summary: JsVal, rows: seq<JsVal>)
    requires doc.JObj?
    ensures forall k :: k != "summary" && k != "region_performance" ==>
      Field(Merge(doc, summary, rows), k) == Field(doc, k)
    ensures Field(Merge(doc, summary, rows), "summary") == Some(summary)
    ensures Field(Merge(doc, summary, rows), "region_performance") == Some(JArr(rows))
  {
  }

  /** Row i of the intended rows reports the local row's name and batch count, and a number
      of product types between 1 and that count. */
  lemma {:induction false} RegionRowFigures(bs: seq<LogisticsData>, i: nat)
    requires AllOnPath(bs) && LocalConsolidated(bs).Summary?
    requires i < |LocalConsolidated(bs).insights.performance|
    ensures var p := LocalConsolidated(bs).insights.performance[i];
      var row := RegionRows(TallyOf(bs), LocalConsolidated(bs).insights.performance)[i];
      && Field(row, "name") == Some(JStr(p.name))
      && Field(row, "batches_processed") == Some(Num(p.batchesProcessed))
      && Field(row, "product_diversity").Some?
      && 1.0 <= Field(row, "product_diversity").value.n <= p.batchesProcessed as real
  {
    var t := TallyOf(bs);
    var perf := LocalConsolidated(bs).insights.performance;
    var p := perf[i];
    PerformanceOrdered(bs);
    assert p.batchesProcessed == BatchesThrough(bs, p.name);
    PerformanceRegion(bs, i);
    TallyRegion(bs, p.name);
    BatchesThroughPositive(bs, p.name);
    var m := RegionOf(t, p.name);
    RegionRowFields(p.name, m.batchCount, ProductDiversity(m));
  }

  /** The keys of a row: its name, its batch count, and its number of product types when
      there is one. */
  lemma RegionRowFields(name: string, batches: nat, diversity: Option<nat>)
    ensures var row := RegionRow(name, batches, diversity);
      && Field(row, "name") == Some(JStr(name))
      && Field(row, "batches_processed") == Some(Num(batches))
      && Field(row, "product_diversity") == if diversity.Some? then Some(Num(diversity.value)) else None
  {
  }

  /** An accepted fleet reply keeps every key of the reply except `summary` and
      `region_performance`, which carry the local counts and the local ranking: the same
      batch, region and type counts as the local summary, and one row per local performance
      row, with the same name and batch count and a number of product types between 1 and
      that count. */
  lemma {:induction false} AIFleetKeepsLocalFigures(bs: seq<LogisticsData>, useAI: bool, reply: Reply, parse: string -> Option<JsVal>)
    requires AllOnPath(bs)
    requires ConsolidatedOutcome(bs, useAI, reply, parse).AIFleet?
    ensures LocalConsolidated(bs).Summary? && Accepted(reply, parse)
    ensures var s, doc := LocalConsolidated(bs).insights, ConsolidatedOutcome(bs, useAI, reply, parse).doc;
      var sent := Candidate(reply.data, parse).value;
      && (forall k :: k != "summary" && k != "region_performance" ==> Field(doc, k) == Field(sent, k))
      && Field(doc, "summary") == Some(JObj(map["total_batches" := Num(s.totalBatches),
           "unique_regions" := Num(s.uniqueRegions), "product_types" := Num(s.productTypeCount)]))
      && Field(doc, "region_performance") == Some(JArr(RegionRows(TallyOf(bs), s.performance)))
      && |RegionRows(TallyOf(bs), s.performance)| == |s.performance|
  {
    var t := TallyOf(bs);
    var s := LocalConsolidated(bs).insights;
    TallyNonEmpty(bs);
    var sent := Candidate(reply.data, parse).value;
    MergeFields(sent, SummaryDoc(|bs|, t), RegionRows(t, s.performance));
  }

  /** Every performance row names a region of the batches. */
  lemma {:induction false} PerformanceRegion(bs: seq<LogisticsData>, i: nat)
    requires LocalConsolidated(bs).Summary? && i < |LocalConsolidated(bs).insights.performance|
    ensures LocalConsolidated(bs).insights.performance[i].name in Paths(bs)
  {
    var t, n := TallyOf(bs), |bs|;
    TallyNonEmpty(bs);
    TallyRegionOrder(bs);
    var ranking := SortDesc(ScoreEntries(t, n));
    assert LocalConsolidated(bs).insights.performance[i].name == ranking[i].name;
    RankedEntryOrigin(t.regionOrder, ScoreKeys(t, n), i);
  }

  /** As written, the merged `region_performance` slices the three top regions, so with four
      or more regions it has three rows where the local ranking has four or five. */
  lemma {:induction false} RegionRowsAsWrittenTruncated(bs: seq<LogisticsData>)
    requires LocalConsolidated(bs).Summary? && |Distinct(Paths(bs))| >= 4
    ensures |ConsolidatedRowsAsWritten(bs)| == 3
    ensures |ConsolidatedRowsAsWritten(bs)| < |LocalConsolidated(bs).insights.performance|
  {
    SummaryCounts(bs);
  }

  /** As written, no row carries `product_diversity`, since a `Set` has no `length`; every
      intended row carries it. */
  lemma ProductDiversityAsWrittenMissing(t: Tally, topRegions: seq<string>, performance: seq<PerfRow>)
    ensures forall i :: 0 <= i < |topRegions| ==>
      Field(RegionRowsAsWritten(t, topRegions)[i], "product_diversity") == None
    ensures forall i :: 0 <= i < |performance| ==>
      Field(RegionRows(t, performance)[i], "product_diversity").Some?
  {
  }
}
