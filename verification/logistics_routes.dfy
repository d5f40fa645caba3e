/** The three handlers of routes/logistics.js: one batch's logistics record, one batch's
    insights, and the fleet summary. The stored batches are a map from `_id` (lookup) or a
    list (`Batch.find({})`); the HTTP status is the `Response` constructor. */
module LogisticsRoutes {
  import opened JsValues
  import opened Seqs
  import opened Ledger
  import opened Extractor
  import opened Heuristics
  import opened Fleet
  import opened FleetSummary
  import opened Advisor

  /** 200 with a body, 404, or 500. */
  datatype Response<T> = Ok(body: T) | NotFound | ServerError

  /** GET /batch/:batchId: the extracted record of a stored batch, 404 for an unknown id.
      The record always satisfies what the heuristics need. */
  function BatchLogistics(batches: map<string, Batch>, id: string): (r: Response<LogisticsData>)
    ensures r.Ok? <==> id in batches
    ensures !r.ServerError?
    ensures r.Ok? ==>
      && LogsOnPath(r.body)
      && r.body.productType == batches[id].productType
      && r.body.regions.origin == batches[id].location
      && |r.body.timestamps| == |batches[id].blocks|
  {
    if id !in batches then NotFound
    else
      ExtractLogsOnPath(batches[id]);
      Ok(Extract(batches[id]))
  }

  /** GET /batch/:batchId/insights as written: line 74 calls `getBatchLogistics`, which no
      file defines, so every request ends in the `catch` of line 91. */
  function BatchInsightsAsWritten(batches: map<string, Batch>, id: string): Response<SingleOutcome> {
    ServerError
  }

  /** The handler as intended: the batch's extracted record, then the service's answer or the
      local heuristic. `useAI` stands for `USE_AI_SERVICE && HUGGINGFACE_API_KEY`. */
  function BatchInsights(batches: map<string, Batch>, id: string, useAI: bool, reply: Reply,
                         parse: string -> Option<JsVal>): (r: Response<SingleOutcome>)
    ensures r.Ok? <==> id in batches
    ensures !r.ServerError?
  {
    match BatchLogistics(batches, id)
    case Ok(data) =>
      if useAI then Ok(AIInsightsOutcome(data, reply, parse)) else Ok(LocalInsights(Insights(data)))
    case _ => NotFound
  }

  /** The insights route as written answers 500 to every request, including one for a stored
      batch, which the intended handler answers with 200. */
  lemma BatchInsightsNeverAnswers(batches: map<string, Batch>, id: string, useAI: bool, reply: Reply,
                                  parse: string -> Option<JsVal>)
    ensures BatchInsightsAsWritten(batches, id) == ServerError
    ensures id in batches ==> BatchInsights(batches, id, useAI, reply, parse).Ok?
  {
  }

  /** For a stored batch, the intended handler answers the local heuristic of its record
      unless the service is on and its reply is accepted, and then the reply itself. */
  lemma BatchInsightsAnswer(batches: map<string, Batch>, id: string, useAI: bool, reply: Reply,
                            parse: string -> Option<JsVal>)
    requires id in batches
    ensures var data := Extract(batches[id]);
      var r := BatchInsights(batches, id, useAI, reply, parse);
      && (!(useAI && Accepted(reply, parse)) <==> r == Ok(LocalInsights(Insights(data))))
      && (useAI && Accepted(reply, parse) ==> r == Ok(AIInsights(Candidate(reply.data, parse).value)))
  {
    AIInsightsFallback(Extract(batches[id]), reply, parse);
  }

  /** `batches.map(...)` of lines 279-319, each batch through the extractor. */
  function ExtractAll(batches: seq<Batch>): (bs: seq<LogisticsData>)
    // These clauses only unfold the comprehension for callers.
    ensures |bs| == |batches|
    ensures forall i :: 0 <= i < |bs| ==> bs[i] == Extract(batches[i])
  {
    seq(|batches|, i requires 0 <= i < |batches| => Extract(batches[i]))
  }

  /** Every extracted record is fit for the fleet generator. */
  lemma ExtractAllOnPath(batches: seq<Batch>)
    ensures AllOnPath(ExtractAll(batches))
  {
    forall i | 0 <= i < |batches|
      ensures LogsOnPath(ExtractAll(batches)[i])
    {
      ExtractLogsOnPath(batches[i]);
    }
  }

  /** No batch of the list has a block. */
  predicate NoBlocks(batches: seq<Batch>) {
    forall i :: 0 <= i < |batches| ==> batches[i].blocks == []
  }

  /** A batch's path is empty exactly when it has no block. */
  lemma PathEmpty(batch: Batch)
    ensures Extract(batch).regions.path == [] <==> batch.blocks == []
  {
    DistinctEmpty(Locations(batch.blocks));
    assert |Locations(batch.blocks)| == |batch.blocks|;
  }

  /** The batches visit no region at all exactly when none of them has a block. */
  lemma {:induction false} NoPathsNoBlocks(batches: seq<Batch>)
    ensures Paths(ExtractAll(batches)) == [] <==> NoBlocks(batches)
  {
    if batches != [] {
      var n := |batches| - 1;
      var bs, pre := ExtractAll(batches), ExtractAll(batches[..n]);
      assert bs[..n] == pre;
      assert Paths(bs) == Paths(pre) + bs[n].regions.path;
      NoPathsNoBlocks(batches[..n]);
      PathEmpty(batches[n]);
      assert NoBlocks(batches) <==> NoBlocks(batches[..n]) && batches[n].blocks == [] by {
        if NoBlocks(batches[..n]) && batches[n].blocks == [] {
          forall i | 0 <= i < |batches|
            ensures batches[i].blocks == []
          {
            if i < n {
              assert batches[..n][i] == batches[i];
            }
          }
        }
      }
    }
  }

  /** GET /insights/summary (lines 269-336): 404 without batches, 500 when no batch has a
      block (the TypeError at line 436), otherwise the fleet answer. An accepted reply carries
      the corrected region rows (see `Advisor.ConsolidatedOutcome`). */
  function InsightsSummary(batches: seq<Batch>, useAI: bool, reply: Reply,
                           parse: string -> Option<JsVal>): (r: Response<FleetOutcome>)
    ensures r.Ok? ==> !r.body.NoRegionsError?
  {
    if batches == [] then NotFound
    else
      match ConsolidatedOutcome(ExtractAll(batches), useAI, reply, parse)
      case NoRegionsError => ServerError
      case outcome => Ok(outcome)
  }

  /** The status of the summary: 404 exactly for no batches, 500 exactly when batches exist
      but none has a block; a 200 answers the local summary unless the service is on and its
      reply is accepted. */
  lemma {:induction false} InsightsSummaryStatus(batches: seq<Batch>, useAI: bool, reply: Reply,
                                                 parse: string -> Option<JsVal>)
    ensures var r := InsightsSummary(batches, useAI, reply, parse);
      && (r.NotFound? <==> batches == [])
      && (r.ServerError? <==> batches != [] && NoBlocks(batches))
    ensures var r, bs := InsightsSummary(batches, useAI, reply, parse), ExtractAll(batches);
      r.Ok? ==>
        && LocalConsolidated(bs).Summary?
        && (r.body == LocalFleet(LocalConsolidated(bs).insights) <==> !(useAI && Accepted(reply, parse)))
  {
    var bs := ExtractAll(batches);
    NoPathsNoBlocks(batches);
    SummaryCounts(bs);
    ConsolidatedFallback(bs, useAI, reply, parse);
  }
}
