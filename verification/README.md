# QRFarm logistics, records and recipe formatting in Dafny

QRFarm keeps farm produce as **batches** and **products**. Each one carries its own list of
**blocks**: a block is a ledger entry with an actor, a location, a timestamp and a free-form
`data` document. This project models four parts of the Express back end in Dafny and proves
properties about them:

- **Logistics** (`routes/logistics.js`).
  - The *extractor* turns a batch's blocks into shipment logs, a timestamp trace and a region
    summary. The region summary holds the origin, the current location and the path, which
    is the distinct locations in first-seen order.
  - The *single-batch heuristic* (`generateSupplyChainInsights`) takes one extracted record
    and picks:
    - the fastest region, by the least accumulated dwell time;
    - the most active region;
    - a predicted region, using the half-threshold rule;
    - an efficiency label.
  - The *fleet aggregator* (`generateConsolidatedInsights`) works over all batches:
    - it keeps per-region and per-product-type counters, in dictionary insertion order;
    - it scores each region and ranks them with a stable descending sort;
    - it reports the top three regions, the most connected region, the most common product
      type and a five-row performance table.
  - The *AI fallback* reads a reply from the text-generation service. It takes the greedy
    `{…}` span out of the reply and keeps the parsed document only when its `insights` key is
    truthy. Otherwise it falls back to the local heuristic. On the fleet side an accepted
    reply is merged with the local counters.
  - The three HTTP handlers over these parts.
- **Batch and product records** (`routes/batches.js`, `routes/products.js`). This is a `Store`
  class over two maps, with four write handlers:
  - create a batch;
  - append a block to a batch, overwriting its status when the block carries one;
  - create a product; the batch must exist, and its quantity goes up by one;
  - append a block to a product.
- **Recipe formatting** (`routes/recipes.js`).
  - Ingredient normalisation: lower-case, strip a trailing whitespace+`fruit`, trim.
  - `formatRecipes`:
    - split the model's text on `/\d\.\s+/`;
    - drop blank pieces;
    - take a title and a description from each piece, by the `/^([^:.]+)[:.](.+)$/` match or
      by splitting on `.`;
    - keep at most two.

Modules and files:

| file | module | contents |
|---|---|---|
| `js_values.dfy` | `JsValues` | JSON values, JavaScript truthiness, `Option` |
| `seqs.dfy` | `Seqs` | insertion-ordered sets (`new Set`), first-occurrence dedup, counting |
| `text.dfy` | `Text` | JavaScript `trim` and its whitespace class |
| `ledger.dfy` | `Ledger` | `Block`, `Batch`, `Product` records |
| `extractor.dfy` | `Extractor` | the extractor |
| `heuristics.dfy` | `Heuristics` | the single-batch heuristic, as loops proved against functions |
| `ranking.dfy` | `Ranking` | the stable descending sort used by `Array.prototype.sort` |
| `fleet.dfy` | `Fleet` | the aggregation pass, as loops proved against a fold |
| `summary.dfy` | `FleetSummary` | scores, rankings and the local fleet summary |
| `advisor.dfy` | `Advisor` | reply parsing, fallback and the merge of an accepted fleet reply |
| `logistics_routes.dfy` | `LogisticsRoutes` | the three logistics handlers |
| `records.dfy` | `Records` | the batch and product write handlers over `Store` |
| `recipes.dfy` | `Recipes` | normalisation and `formatRecipes` |

The block handlers push the request body verbatim (`routes/batches.js:54`,
`routes/products.js:85`). No sequence number or hash is computed or checked, and there is no
`verify`; the model stores blocks exactly as they are sent.

## Model

| member | source | states |
|---|---|---|
| Seqs.Distinct | routes/logistics.js:46 | `[...new Set(xs)]` has no duplicates, holds exactly the values of `xs`, and is no longer than `xs` |
| Seqs.DistinctFirstOccurrence | routes/logistics.js:46 | the values of the deduplicated path appear in the order of their first occurrence in the input |
| Seqs.DistinctAppend | routes/logistics.js:363-368 | deduplicating `xs + ys` equals adding the values of `ys` one by one to the deduplicated `xs` |
| Seqs.DistinctNoDup | routes/logistics.js:46 | deduplicating a list without repeats leaves it unchanged |
| Seqs.CountNoDup | routes/logistics.js:136-138 | a value occurs at most once in a list without repeats |
| Seqs.AddToSetSpec | routes/logistics.js:364-365 | `Set.add` keeps the set duplicate-free, adds exactly the new value, and grows by at most one |
| Text.TrimStart | routes/recipes.js:24 | the result is a suffix whose first character is not whitespace, and everything removed is whitespace |
| Text.TrimEnd | routes/recipes.js:24 | the result is a prefix whose last character is not whitespace, and everything removed is whitespace |
| Text.TrimSpec | routes/recipes.js:24 | `trim()` returns a contiguous slice of its input, empty or with non-whitespace at both ends, with only whitespace cut on either side |
| Text.TrimIdempotent | routes/recipes.js:24 | trimming twice is trimming once |
| Extractor.ActionOf | routes/logistics.js:37 | a block's action is always truthy: `data.action` when that is truthy, `"unknown"` otherwise |
| Extractor.ShipmentLogsConcat | routes/logistics.js:23-31 | the shipment filter distributes over concatenating two block lists |
| Extractor.ShipmentLogsMembers | routes/logistics.js:23-31 | every shipment block gives a log, and every log is the projection of some shipment block |
| Extractor.RegionsSpec | routes/logistics.js:41-47 | the path is the block locations without duplicates, in first-visit order, and contains exactly the locations visited |
| Extractor.CurrentLocationSpec | routes/logistics.js:41-45 | the origin is the batch's location; the current location is the last block's location and lies on the path, or is the origin with an empty path when there are no blocks |
| Extractor.ExtractLogsOnPath | routes/logistics.js:23-47 | every shipment log's location lies on the extracted path |
| Heuristics.FirstMin | routes/logistics.js:126-132 | the scan for the fastest region yields a key of least value, and it comes before every other key of that value; none only for no keys |
| Heuristics.FirstMax | routes/logistics.js:140-145 | the scan for the most active region yields a key of greatest value, and it comes before every other key of that value |
| Heuristics.MaxValue | routes/logistics.js:172 | `Math.max(...Object.values(regionTimes))` bounds every value and is attained |
| Heuristics.FindValue | routes/logistics.js:172 | `find` returns the first key holding the value, or none when no key holds it |
| Heuristics.SlowestRegion | routes/logistics.js:172 | the slower-region hint is the first key of greatest dwell time |
| Heuristics.Predict | routes/logistics.js:149-151 | the prediction is the fastest or the most active region; it is the fastest exactly when the two agree or the fastest dwell is under half the most active one's |
| Heuristics.InitRegionTimes | routes/logistics.js:111-113 | the region-time map has exactly the path's regions as keys, all at zero, with the keys in path order |
| Heuristics.AccumulateDwell | routes/logistics.js:116-124 | the loop over adjacent shipment pairs produces the dwell map of the specification function |
| Heuristics.ScanFastest | routes/logistics.js:126-132 | the loop returns the first minimal key |
| Heuristics.CountFrequencies | routes/logistics.js:135-138 | the frequency loop yields the frequency map, with the keys in first-seen order |
| Heuristics.ScanMostActive | routes/logistics.js:140-145 | the loop returns the first maximal key |
| Heuristics.GenerateSupplyChainInsights | routes/logistics.js:102-174 | the imperative generator computes exactly the insights record of the specification function |
| Heuristics.DwellNeedsAdjacentPair | routes/logistics.js:116-124 | a region with no two adjacent shipment logs accumulates no dwell time, so separate visits are not merged |
| Heuristics.DwellTelescopes | routes/logistics.js:116-124 | when consecutive logs all sit in one region, its dwell time is the last timestamp minus the first |
| Heuristics.DwellWithinJourney | routes/logistics.js:116-124 | with ordered timestamps, a region's dwell time is between zero and the whole journey time |
| Heuristics.MostActiveIsFirstRegion | routes/logistics.js:134-145 | every path region has frequency one, so the most active region is the first region of the path |
| Heuristics.PredictionRule | routes/logistics.js:147-151 | for a non-empty path the prediction is the fastest region when that is the first region or dwells under half as long, and the first region otherwise |
| Heuristics.IdleFirstRegionIsPredicted | routes/logistics.js:126-151 | when the first region has no dwell time, it is the prediction |
| Heuristics.EfficiencyThreshold | routes/logistics.js:153-165 | the efficiency label is "efficient" exactly when there are fewer than two shipment logs, or the journey in milliseconds is under two days per region |
| Heuristics.EfficientBelowTwoDays | routes/logistics.js:154-159 | with two or more logs, efficiency is under 2 exactly when the journey is under `2 * 86400000 * regions` milliseconds |
| Heuristics.PerRegionBelow | routes/logistics.js:155-159 | dividing by days and by regions compares with 2 as the product does |
| Ranking.Insert | routes/logistics.js:425 | an insertion step adds exactly one entry, as a permutation |
| Ranking.SortDesc | routes/logistics.js:425 | the sort is a permutation of its input |
| Ranking.InsertRanked | routes/logistics.js:425 | inserting an entry later than every other keeps the list ranked: descending keys, ties in input order |
| Ranking.SortDescRanked | routes/logistics.js:425 | the sort of entries in input order is ranked, as the stable `sort((a, b) => b.score - a.score)` leaves them |
| Ranking.RankedHead | routes/logistics.js:430-436 | the head of the sort is an input entry of greatest key, earlier than every other entry of that key |
| Ranking.HeadNameIn | routes/logistics.js:435-436 | the head of a non-empty ranking names an input value |
| Ranking.TopDominates | routes/logistics.js:428 | in a ranked list, every entry of the first k has a key at least as large as every entry after them |
| Ranking.RankedEntryOrigin | routes/logistics.js:425 | every sorted entry carries the name and key found at its recorded input position |
| Ranking.RankedEntryPlace | routes/logistics.js:425 | every input entry appears in the sort |
| Ranking.NameInTop | routes/logistics.js:428 | the name of an entry among the first k is among the top names |
| Ranking.TopKOutrank | routes/logistics.js:428 | the top k names are input names, and each has a key at least as large as every name outside them |
| Ranking.HeadIsFirstMax | routes/logistics.js:430-436 | the head of the sort is a name of greatest key, earliest among equals |
| Fleet.RecordRegion | routes/logistics.js:363-389 | the body of the path loop updates the counters exactly as one visit of the region |
| Fleet.VisitPathLoop | routes/logistics.js:363-389 | the path loop over a batch yields the fold over its whole path |
| Fleet.CountShipmentsLoop | routes/logistics.js:400-402 | the shipment loop yields the fold over all logs |
| Fleet.ProcessBatch | routes/logistics.js:350-404 | one iteration of the outer loop adds exactly that batch to the tally |
| Fleet.Aggregate | routes/logistics.js:350-404 | the whole pass over the batches computes the tally of the specification fold |
| Fleet.VisitPathKeys | routes/logistics.js:368-376 | after the path loop, the region keys are the old keys plus the visited regions |
| Fleet.VisitPathRegion | routes/logistics.js:378-388 | each region of the path is bumped once (batch count, product type, origin, final), and other regions are unchanged |
| Fleet.VisitPathTypeKeys | routes/logistics.js:365 | the batch's product type stays a key during the path loop |
| Fleet.VisitPathOrder | routes/logistics.js:363-368 | the region key order grows by the path's regions in order, and the type order is unchanged |
| Fleet.VisitPathType | routes/logistics.js:363-389 | the path loop changes no type's count or transit total |
| Fleet.CountShipmentsFrame | routes/logistics.js:400-402 | the shipment loop changes only shipment counts: the same keys, orders and types |
| Fleet.CountShipmentsRegion | routes/logistics.js:400-402 | a region's shipment count grows by the number of logs at that location |
| Fleet.AddBatchRegion | routes/logistics.js:363-402 | one batch bumps each region of its path once and adds its logs at that region when it has at least two |
| Fleet.AddBatchOrder | routes/logistics.js:354-368 | one batch appends its new regions and its type, if new, to the key orders |
| Fleet.AddBatchType | routes/logistics.js:354-397 | one batch adds one to its type's count and its journey time to its type's transit total when it has two or more logs |
| Fleet.TallyRegionOrder | routes/logistics.js:363-368 | the region key order is the first-occurrence order of all the paths |
| Fleet.TallyTypeOrder | routes/logistics.js:354-360 | the type key order is the first-occurrence order of the batches' product types |
| Fleet.TallyRegion | routes/logistics.js:363-402 | a region's batch count is the number of batches through it, its shipment count is the number of logs there from batches with two or more logs, and its counters are consistent |
| Fleet.TallyType | routes/logistics.js:353-397 | a type's count is the number of its batches, and its transit total is the sum of their journeys with two or more logs |
| FleetSummary.Score | routes/logistics.js:417-419 | a score is at least `0.4·batches + 0.3·shipments`, and at most 0.3 more when the origin and final shares are at most one |
| FleetSummary.ShareAtMostOne | routes/logistics.js:418-419 | `isOrigin / batchesData.length` and `isFinal / batchesData.length` are shares between 0 and 1 |
| FleetSummary.Round2 | routes/logistics.js:475 | `Math.round(s * 100) / 100` is within 0.005 of the score |
| FleetSummary.Round2Monotone | routes/logistics.js:475 | rounding keeps the order of scores |
| FleetSummary.ComputeAverages | routes/logistics.js:407-411 | the averaging loop gives every product type its total transit time divided by its count |
| FleetSummary.ProductDiversity | routes/logistics.js:468 | the intended number of product types of a region is the size of its set, between 1 and its batch count |
| FleetSummary.PerformanceRows | routes/logistics.js:473-477 | the performance table has `min(5, n)` rows, naming the first ranked regions in order |
| FleetSummary.Finish | routes/logistics.js:406-478 | the finishing steps compute the specification summary |
| FleetSummary.GenerateConsolidatedInsights | routes/logistics.js:343-479 | the imperative generator computes the specification result: no regions, or the summary |
| FleetSummary.TallyNonEmpty | routes/logistics.js:350-360 | a tally with a region comes from at least one batch and has a product type |
| FleetSummary.TallyTypeKeys | routes/logistics.js:354-360 | the type key order holds exactly the type keys, each counted at least once |
| FleetSummary.AddBatchTypeKeys | routes/logistics.js:354 | one batch adds its product type to the type keys and nothing else |
| FleetSummary.VisitPathTypeSet | routes/logistics.js:365 | the path loop adds the batch's type to the keys only when the path is not empty |
| FleetSummary.TallyReady | routes/logistics.js:350-404 | after the pass, every region and type key is in its order and the tally is fit to summarise |
| FleetSummary.DistinctEmpty | routes/logistics.js:46 | deduplicating leaves an empty list exactly from an empty one |
| FleetSummary.SummaryCounts | routes/logistics.js:453-460 | no summary exactly when no batch has a region; otherwise the total, region and type counts are those of the batches, with 3 top regions and 5 table rows when there are that many, and the table starting with the top regions |
| FleetSummary.HeadOfDistinct | routes/logistics.js:430-436 | the head of the sort over a deduplicated list is a value of the input with the greatest key, seen in the input before every other value of that key |
| FleetSummary.IndexOfDistinct | routes/logistics.js:46 | in a list without repeats, a value's first index is its position |
| FleetSummary.LaterInDistinct | routes/logistics.js:46 | a later value of the deduplicated list is first seen later in the input |
| FleetSummary.TopRegionsOutscore | routes/logistics.js:414-428 | the top regions are regions of the batches, each scoring at least as high as any region outside them |
| FleetSummary.RankingOutscore | routes/logistics.js:414-428 | the first three names of the score ranking are regions scoring at least as high as the rest |
| FleetSummary.MostConnectedIsBusiest | routes/logistics.js:434-436 | the most connected region has the greatest number of batches, and it is the first seen among ties |
| FleetSummary.MostCommonProduct | routes/logistics.js:429-432 | the most common product type has the greatest count and is first seen among ties; the reported count and average transit time are its own |
| FleetSummary.TopRegionFigures | routes/logistics.js:461-468 | the top region's reported batch count is the number of batches through it, and its intended number of product types (the size of its set) is between 1 and that count |
| FleetSummary.TopRegionDiversityAsWritten | routes/logistics.js:468 | as written, the top region's product-type figure is `undefined`, where the intended figure is the size of its set, at least one |
| FleetSummary.BatchesThroughPositive | routes/logistics.js:379 | a region on some path has at least one batch |
| FleetSummary.PerformanceOrdered | routes/logistics.js:473-477 | table rows have non-increasing rounded scores, and each reports the number of batches through its region |
| Advisor.LastOf | routes/logistics.js:238 | the last index of a character, or none when it is absent |
| Advisor.BraceSpanSpec | routes/logistics.js:238 | the greedy `/\{[\s\S]*\}/` finds nothing exactly when no `{` precedes a `}`; otherwise it runs from the first `{` to the last `}` |
| Advisor.BraceSpanBraced | routes/logistics.js:238 | a match starts with `{`, ends with `}`, and is at least two characters long |
| Advisor.CandidateSources | routes/logistics.js:232-245 | the candidate document is the parsed brace span of `data[0].generated_text` when that is truthy, the reply itself for any other object or array, and none otherwise |
| Advisor.AIInsightsFallback | routes/logistics.js:222-257 | a failed call, a thrown error or a reply without truthy `insights` yields exactly the local heuristic; an accepted reply is returned unchanged, and it is an object |
| Advisor.RegionRows | routes/logistics.js:564-568 | there is one row per table entry |
| Advisor.MergeFields | routes/logistics.js:557-569 | the merge keeps every key of the reply except `summary` and `region_performance`, which it sets |
| Advisor.ConsolidatedFallback | routes/logistics.js:436-451 | the service is never used when no batch has a region; otherwise the answer is the local summary exactly when the service is off or its reply is not accepted |
| Advisor.RegionRowFields | routes/logistics.js:565-567 | a row holds the name, the batch count, and the number of product types when there is one |
| Advisor.RegionRowFigures | routes/logistics.js:564-568 | each intended row reports its region's name and batch count, and a number of product types between 1 and that count |
| Advisor.AIFleetKeepsLocalFigures | routes/logistics.js:556-568 | an accepted fleet reply keeps the service's keys, with the local counts as `summary` and one intended row per local table entry as `region_performance` |
| Advisor.PerformanceRegion | routes/logistics.js:473-474 | every table row names a region of the batches |
| Advisor.RegionRowsAsWrittenTruncated | routes/logistics.js:564 | as written, with four or more regions, the merged reply has 3 rows, fewer than the local table |
| Advisor.ProductDiversityAsWrittenMissing | routes/logistics.js:567 | as written, no row carries `product_diversity`; every intended row does |
| LogisticsRoutes.BatchLogistics | routes/logistics.js:12-61 | 200 exactly for a stored id, otherwise 404 and never 500; the record keeps the batch's type and origin, has one trace entry per block, and its shipment logs lie on its path |
| LogisticsRoutes.BatchInsights | routes/logistics.js:69-95 | the intended insights handler answers 200 exactly for a stored id, otherwise 404, and never 500 |
| LogisticsRoutes.BatchInsightsNeverAnswers | routes/logistics.js:74 | as written, the handler answers 500 to every request; the intended one answers 200 for a stored id |
| LogisticsRoutes.BatchInsightsAnswer | routes/logistics.js:80-89 | for a stored batch, the answer is the local heuristic exactly when the service is off or its reply is not accepted, and the reply otherwise |
| LogisticsRoutes.ExtractAllOnPath | routes/logistics.js:279-319 | every extracted record has its shipment logs on its path |
| LogisticsRoutes.PathEmpty | routes/logistics.js:299-305 | a batch's path is empty exactly when it has no block |
| LogisticsRoutes.NoPathsNoBlocks | routes/logistics.js:299-305 | the batches visit no region exactly when none of them has a block |
| LogisticsRoutes.InsightsSummary | routes/logistics.js:269-336 | a 200 never carries the no-region failure |
| LogisticsRoutes.InsightsSummaryStatus | routes/logistics.js:269-336 | 404 exactly for no batches; 500 exactly when batches exist but none has a block; a 200 is the local summary exactly when the service is off or its reply is not accepted |
| Records.QuantityOrZero | routes/batches.js:36 | `quantity \|\| 0` is the given quantity, or zero when there is none |
| Records.BatchFromRequest | routes/batches.js:30-41 | a batch is built exactly when the id, the type, the harvest date, the location and the staff are present; the quantity defaults to 0 and the blocks to empty |
| Records.ProductFromRequest | routes/products.js:57-65 | a product is built exactly when the id, the batch id, the weight and the size are present; the blocks default to empty |
| Records.StatusUpdate | routes/batches.js:57-59 | a block updates the status exactly when `data` and `data.status` are both truthy, and then to `data.status` |
| Records.WithBatchBlock | routes/batches.js:54-59 | appending puts the block last and overwrites the status only for a status-bearing block; every other field is unchanged |
| Records.WithProductBlock | routes/products.js:85 | appending puts the block last; every other field is unchanged |
| Records.AppendBlocksSpec | routes/batches.js:49-66 | after a run of appends, the chain is the old one followed by the new blocks in order, and the status is that of the latest status-bearing block (last write wins) |
| Records.LatestStatusSplit | routes/batches.js:57-59 | the latest status over a list is the latest over its tail, starting from its head's |
| Records.Store.constructor | routes/batches.js:28-46 | the store starts empty and valid |
| Records.Store.CreateBatch | routes/batches.js:28-46 | 201 exactly for a buildable batch with a new id, which is then stored; otherwise 400 and nothing changes; products are untouched and every record stays under its own id |
| Records.Store.AppendBatchBlock | routes/batches.js:49-66 | 200 exactly for a stored id, which gets the block and any status; otherwise 404 and nothing changes |
| Records.Store.CreateProduct | routes/products.js:50-77 | 404 exactly for a missing or unknown batch id; 201 exactly when the product is buildable with a new id, which is then stored while its batch's quantity goes up by one; otherwise nothing changes, and every product refers to a stored batch |
| Records.Store.AppendProductBlock | routes/products.js:80-91 | 200 exactly for a stored id, which gets the block; otherwise 404 and nothing changes; batches are untouched |
| Recipes.LowerChar | routes/recipes.js:22 | the result is never a capital; a capital becomes the small letter at the same place in the alphabet, and a character is kept exactly when it is not a capital |
| Recipes.Lower | routes/recipes.js:22 | `toLowerCase` keeps the length and leaves no capital in the text |
| Recipes.LowerKeepsLowerCase | routes/recipes.js:22 | a text without capitals is unchanged by `toLowerCase` |
| Recipes.LowerIdempotent | routes/recipes.js:22 | lower-casing twice is lower-casing once |
| Recipes.StripFruit | routes/recipes.js:23 | `/\s+fruit$/` removes the final `fruit` and the whole whitespace run before it, and changes nothing when the text does not end so |
| Recipes.NormalizeTrimmed | routes/recipes.js:22-24 | the normalised ingredient is no longer than the argument, and empty or with non-whitespace at both ends |
| Recipes.TrimAfterTrimEnd | routes/recipes.js:23-24 | trimming after cutting trailing whitespace is plain trimming |
| Recipes.TrimStartSnoc | routes/recipes.js:24 | a trailing whitespace character does not change the trimmed text |
| Recipes.NormalizeDropsFruit | routes/recipes.js:22-24 | an ingredient ending in whitespace and `fruit` normalises to its lower-cased rest, trimmed |
| Recipes.TrailingSpaceKeepsFruit | routes/recipes.js:22-24 | with trailing whitespace after `fruit`, the anchored pattern does not apply, and the ingredient is only lower-cased and trimmed |
| Recipes.SepEnd | routes/recipes.js:91 | a separator at q takes all the whitespace after the digit and dot |
| Recipes.FirstSep | routes/recipes.js:91 | the split finds the leftmost separator from a position, or reports that there is none |
| Recipes.Pieces | routes/recipes.js:91 | `split` always yields at least one piece |
| Recipes.SplitRoundTrip | routes/recipes.js:91 | the pieces interleaved with the separators give back the text, and every separator is digit, dot and whitespace |
| Recipes.InterleaveCons | routes/recipes.js:91 | interleaving a first piece and a first separator puts them in front |
| Recipes.SeparatorSlice | routes/recipes.js:91 | the text a separator match covers is a digit, a dot and whitespace |
| Recipes.ThreeSlices | routes/recipes.js:91 | cutting a text at two points and joining the parts gives it back |
| Recipes.PiecesHaveNoSep | routes/recipes.js:91 | no piece contains a separator |
| Recipes.Filter | routes/recipes.js:91 | the filter never lengthens its input |
| Recipes.FilterMembers | routes/recipes.js:91 | the kept pieces are exactly the pieces that are not blank |
| Recipes.FilterAppend | routes/recipes.js:91 | filtering distributes over concatenation |
| Recipes.FirstMark | routes/recipes.js:96 | the first `:` or `.` from a position, or none |
| Recipes.TitleMatchSpec | routes/recipes.js:96 | the title match succeeds exactly when the regular expression matches at some mark, and then it splits at the first mark |
| Seqs.Find | routes/recipes.js:105 | the first index of a value, or none exactly when it is absent; it locates the first `.` of `split('.')` and the first `{` of the brace match at routes/logistics.js:238 |
| Recipes.SplitChar | routes/recipes.js:105 | `split('.')` always yields at least one part |
| Recipes.JoinSplit | routes/recipes.js:105-108 | `split('.')` followed by `join('.')` gives back the text, and no part contains `.` |
| Recipes.JoinCons | routes/recipes.js:108 | joining a first part puts it and a separator in front |
| Recipes.CutAt | routes/recipes.js:105 | cutting a text around one index and joining the parts gives it back |
| Recipes.NotInTrim | routes/recipes.js:99-107 | trimming adds no character |
| Recipes.FallbackSpec | routes/recipes.js:105-108 | without a title match, the title is the trimmed text before the first `.` and the description the trimmed text after it |
| Recipes.FormatOneTitle | routes/recipes.js:96-109 | a title never contains `.`; with a match it contains no `:` either, and the description is the trimmed rest after the first mark |
| Recipes.FallbackCases | routes/recipes.js:96-109 | a piece starting with a mark, or with a line break after its first mark, never matches and takes the `split('.')` fallback |
| Recipes.FormatRecipes | routes/recipes.js:89-116 | the ingredient is echoed; there are `min(2, n)` recipes over the non-blank pieces, each formatted from its piece |
| Recipes.FormatRecipesFromPieces | routes/recipes.js:89-116 | at most two recipes, each formatted from a non-blank piece of the split text |

## Left out

- HTTP, Express and the JSON responses: each handler is a function or a method. Its status is
  the constructor of `Response` or `Outcome`, and its body is that constructor's value.
- Mongoose persistence: `findById` is a map lookup, `find({})` is a list, and `save` is a map
  update. A save that the schema rejects is the `Rejected` outcome. Schema casting is not
  modelled: a status that is not a string, or a quantity that is not a number.
- The network call to the text-generation service, and `JSON.parse`. The reply is a
  parameter (`Reply`: not ok, thrown, or a body), and so is the parser (`parse`). The
  prompts sent to the service are not modelled.
- `process.env`: `USE_AI_SERVICE && HUGGINGFACE_API_KEY` is the boolean parameter `useAI`.
- `new Date(…).toISOString()` and its failures: timestamps are integers in milliseconds that
  always convert. In the source a block without a timestamp, or with one beyond ±8.64e15,
  makes the conversion at `routes/logistics.js:29`, `:36`, `:289` and `:295` throw. That
  failure path is left out: the per-batch `catch` and the "Could not process" 404 at
  `routes/logistics.js:314-326`, and the 500 of the single-batch handler.
- Block locations and actors: every block is assumed to carry a `location` and an `actor`
  string (`Block.location`, `Block.actor`), although the schemas do not require them
  (`models/Batch.js:7`, `models/Product.js:8`) and the block handlers store the body as sent.
  In the source a block without a location puts `undefined` on the path
  (`routes/logistics.js:46`, `:304`), and the dictionaries key it as the string
  `"undefined"` (`:112`, `:137`, `:368`). The check at `:172` then compares that key with
  the value `undefined`, so a batch whose last block has no location always gets "Shift"; a
  one-block batch without a location gets "Shift" where every one-block batch of the model
  gets "Maintain". The model's path, region counters and predictions are stated only for
  blocks with a location.
- BatchLogistics: "never 500" holds only for timestamps that convert; a block with a missing or
  out-of-range timestamp gives a 500 in the source.
- BatchInsights: "never 500" holds only for timestamps that convert, in the corrected handler;
  its insights agree with the source only when no region is named like an `Object.prototype`
  property.
- InsightsSummaryStatus: the 404/500/200 split holds only for timestamps that convert; a batch
  whose timestamps fail is dropped by the per-batch `catch`, and when all fail the source
  answers 404. It also holds only when no region or product type is named like an
  `Object.prototype` property (`constructor`, `toString`, `__proto__`, …): for such a name
  the source throws a TypeError at `routes/logistics.js:365` or `:380` and answers 500,
  where the model returns a summary.
- InsightsSummary: an accepted reply is merged with the corrected region rows
  (Advisor.RegionRows: up to five rows, each with `product_diversity`); the rows the route
  sends as written are Advisor.ConsolidatedRowsAsWritten (at most three, without
  `product_diversity`, `routes/logistics.js:564-567`).
- ConsolidatedOutcome: the merged document of an accepted reply carries the corrected rows of
  Advisor.RegionRows, not the as-written Advisor.ConsolidatedRowsAsWritten of
  `routes/logistics.js:564-567`.
- `Promise.all` over the batches is a sequential map.
- Floating point: scores, averages and the efficiency are exact reals. `toFixed` is not
  modelled, and neither is `Math.round` on doubles. FleetSummary.Round2 is stated only within
  half a hundredth, not as the IEEE double result.
- The narrative strings (`insights`, `trend_analysis`, `reason`, `strategic_recommendation`)
  are not built. Each model keeps the values they are made from: the fastest, most active,
  predicted and slowest regions; the efficiency; the top regions; the most connected region;
  the most common type and its figures.
- Object keys: dictionaries are maps with an explicit insertion order, starting empty. The
  source keeps them in plain `{}` objects, so the model assumes that no region or type name
  looks like an array index, such as `"12"` (JavaScript would list it first), and that none
  is a property inherited from `Object.prototype`, such as `constructor`, `toString`,
  `valueOf`, `hasOwnProperty` or `__proto__`. For such a name `x[name] || {…}` or
  `x[name] || 0` keeps the inherited value (`routes/logistics.js:112`, `:354`, `:368`): the
  fleet pass then throws on `.add` (`:365`, `:380`), and the single-batch pass adds dwell
  times to a function by string concatenation (`:123`).
- Heuristics.GenerateSupplyChainInsights: its picks agree with the source only when no region
  is named like an `Object.prototype` property (see the line above).
- `toLowerCase` is ASCII only. JavaScript's whitespace class in `trim` and `\s` is the one in
  `Text.IsSpace`.
- The line-terminator rule of `.` in `/^([^:.]+)[:.](.+)$/` is modelled. Unicode case rules
  are not.
- The `GET` list handlers of batches and products and the location aggregation route are not
  modelled. `server.js` and the seed data are not part of this model.
- The recipe route's network branch (`routes/recipes.js:8-87`) is not modelled. Only the
  normalisation at lines 22-24 and `formatRecipes` are.
- No hash, previous-hash or block-id linkage is computed or checked, because the handlers
  store the request body as it is.
- GenerateConsolidatedInsights: its result carries the intended product-type count of the top
  region (the size of its set), where `routes/logistics.js:468` reads `.length` of a `Set` and
  gets `undefined`; the as-written value is FleetSummary.TopRegionDiversityAsWritten.
- Finish: computes the same corrected product-type count as GenerateConsolidatedInsights.
- TopRegionFigures: states the corrected product-type count, not the `undefined` of line 468.
- Records.Store.CreateProduct: a failure of the second `batch.save()` after the product was
  saved is not modelled. The model treats the two saves as one step.
- Fleet.CountShipments: a shipment location without counters would make the source throw.
  The model skips it instead. This cannot happen for extracted records, because every
  shipment location is on the path (Extractor.ExtractLogsOnPath).

## Findings

| source | as written | input that shows it | evidently intended | confidence | as-written member | corrected member |
|---|---|---|---|---|---|---|
| routes/logistics.js:74 | the insights handler calls `getBatchLogistics`, which no file defines, so every request ends in the `catch` with a 500 | any request to `GET /batch/:batchId/insights`, for a stored id too | build the batch's record as the `GET /batch/:batchId` handler does, then answer 404 or the insights | not executed | LogisticsRoutes.BatchInsightsNeverAnswers | LogisticsRoutes.BatchInsights |
| routes/logistics.js:564 | `metrics.topRegions.slice(0, 5)` slices a list of at most three regions, so an accepted fleet reply carries at most 3 performance rows | batches visiting four or more distinct regions, with an accepted service reply | five rows, as the local table has (`regionPerformance.slice(0, 5)`) | not executed | Advisor.RegionRowsAsWrittenTruncated | Advisor.AIFleetKeepsLocalFigures |
| routes/logistics.js:468 | the reason text reads `regionMetrics[topRegions[0]].productTypes.length` on a `Set`, so it quotes `undefined product types` | any batch list with a region, with the service off or its reply not accepted | the number of product types seen in the top region (`productTypes.size`) | not executed | FleetSummary.TopRegionDiversityAsWritten | FleetSummary.TopRegionFigures |
| routes/logistics.js:567 | `productTypes` is still a `Set` here, so `.length` is `undefined` and the `product_diversity` key is dropped from every row | any accepted fleet reply | the number of product types seen in the region (`productTypes.size`) | not executed | Advisor.ProductDiversityAsWrittenMissing | Advisor.RegionRowFigures |
