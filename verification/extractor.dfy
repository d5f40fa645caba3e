/** The logistics view of one batch (routes/logistics.js, lines 23-47, repeated at 283-305):
    its shipment logs, a timestamp trace of every block, and the regions it went through. */
module Extractor {
  import opened JsValues
  import opened Seqs
  import opened Ledger

  datatype ShipmentLog = ShipmentLog(
    blockId: Option<int>, actor: string, location: string, timestamp: int, details: JsVal)

  datatype TimestampEntry = TimestampEntry(blockId: Option<int>, timestamp: int, action: JsVal)

  datatype Regions = Regions(origin: string, currentLocation: string, path: seq<string>)

  datatype LogisticsData = LogisticsData(
    batchId: string,
    productType: string,
    shipmentLogs: seq<ShipmentLog>,
    timestamps: seq<TimestampEntry>,
    regions: Regions)

  /** A block is a shipment when its data is truthy and has type "shipment" or action "transport". */
  predicate IsShipment(b: Block) {
    && b.data.Some? && Truthy(b.data.value)
    && (Field(b.data.value, "type") == Some(JStr("shipment"))
        || Field(b.data.value, "action") == Some(JStr("transport")))
  }

  function ToLog(b: Block): ShipmentLog
    requires IsShipment(b)
  {
    ShipmentLog(b.blockId, b.actor, b.location, b.timestamp, b.data.value)
  }

  /** `blocks.filter(isShipment).map(toLog)` */
  function ShipmentLogs(blocks: seq<Block>): seq<ShipmentLog> {
    if blocks == [] then []
    else (if IsShipment(blocks[0]) then [ToLog(blocks[0])] else []) + ShipmentLogs(blocks[1..])
  }

  /** `block.data?.action || 'unknown'`: the action is never falsy, and it is "unknown"
      whenever the block carries no truthy action. */
  function ActionOf(b: Block): (a: JsVal)
    ensures Truthy(a)
    ensures a == JStr("unknown") || (b.data.Some? && Field(b.data.value, "action") == Some(a))
    ensures !(b.data.Some? && TruthyOpt(Field(b.data.value, "action"))) ==> a == JStr("unknown")
  {
    if b.data.Some? && TruthyOpt(Field(b.data.value, "action"))
    then Field(b.data.value, "action").value
    else JStr("unknown")
  }

  function ToEntry(b: Block): TimestampEntry {
    TimestampEntry(b.blockId, b.timestamp, ActionOf(b))
  }

  /** One trace entry per block, in block order. */
  function Timestamps(blocks: seq<Block>): seq<TimestampEntry> {
    seq(|blocks|, i requires 0 <= i < |blocks| => ToEntry(blocks[i]))
  }

  function Locations(blocks: seq<Block>): seq<string> {
    seq(|blocks|, i requires 0 <= i < |blocks| => blocks[i].location)
  }

  /** `[...new Set(blocks.map(b => b.location))]` */
  function Path(blocks: seq<Block>): seq<string> {
    Distinct(Locations(blocks))
  }

  function CurrentLocation(batch: Batch): string {
    if |batch.blocks| > 0 then batch.blocks[|batch.blocks| - 1].location else batch.location
  }

  function Extract(batch: Batch): LogisticsData {
    LogisticsData(
      batch.id,
      batch.productType,
      ShipmentLogs(batch.blocks),
      Timestamps(batch.blocks),
      Regions(batch.location, CurrentLocation(batch), Path(batch.blocks)))
  }

  /** What the heuristics rely on: a duplicate-free path that holds every shipment location. */
  predicate LogsOnPath(data: LogisticsData) {
    && NoDup(data.regions.path)
    && forall l :: l in data.shipmentLogs ==> l.location in data.regions.path
  }

  /** The shipment filter commutes with concatenation: logs keep block order. */
  lemma {:induction false} ShipmentLogsConcat(a: seq<Block>, b: seq<Block>)
    ensures ShipmentLogs(a + b) == ShipmentLogs(a) + ShipmentLogs(b)
  {
    if a == [] {
      assert a + b == b;
    } else {
      var head := if IsShipment(a[0]) then [ToLog(a[0])] else [];
      assert (a + b)[0] == a[0];
      assert (a + b)[1..] == a[1..] + b;
      ShipmentLogsConcat(a[1..], b);
      calc {
        ShipmentLogs(a + b);
        head + ShipmentLogs(a[1..] + b);
        head + (ShipmentLogs(a[1..]) + ShipmentLogs(b));
        (head + ShipmentLogs(a[1..])) + ShipmentLogs(b);
      }
    }
  }

  /** The shipment logs are exactly the logs of the shipment blocks. */
  lemma {:induction false} ShipmentLogsMembers(blocks: seq<Block>)
    ensures forall i :: 0 <= i < |blocks| && IsShipment(blocks[i]) ==> ToLog(blocks[i]) in ShipmentLogs(blocks)
    ensures forall l :: l in ShipmentLogs(blocks) ==>
      exists i :: 0 <= i < |blocks| && IsShipment(blocks[i]) && ToLog(blocks[i]) == l
  {
    if blocks != [] {
      var tail := blocks[1..];
      ShipmentLogsMembers(tail);
      forall i | 0 < i < |blocks| && IsShipment(blocks[i])
        ensures ToLog(blocks[i]) in ShipmentLogs(blocks)
      {
        assert blocks[i] == tail[i - 1];
      }
      forall l | l in ShipmentLogs(blocks)
        ensures exists i :: 0 <= i < |blocks| && IsShipment(blocks[i]) && ToLog(blocks[i]) == l
      {
        if l !in ShipmentLogs(tail) {
          assert IsShipment(blocks[0]) && ToLog(blocks[0]) == l;
        } else {
          var k :| 0 <= k < |tail| && IsShipment(tail[k]) && ToLog(tail[k]) == l;
          assert blocks[k + 1] == tail[k];
        }
      }
    }
  }

  /** The path holds every block location exactly once, nothing else, in first-occurrence order. */
  lemma RegionsSpec(batch: Batch)
    ensures var p, locs := Extract(batch).regions.path, Locations(batch.blocks);
      && NoDup(p)
      && (forall i :: 0 <= i < |batch.blocks| ==> batch.blocks[i].location in p)
      && (forall r :: r in p ==> r in locs)
      && (forall i, j :: 0 <= i < j < |p| ==> IndexOf(locs, p[i]) < IndexOf(locs, p[j]))
  {
    var locs := Locations(batch.blocks);
    DistinctFirstOccurrence(locs);
    forall i | 0 <= i < |batch.blocks|
      ensures batch.blocks[i].location in Path(batch.blocks)
    {
      assert locs[i] == batch.blocks[i].location;
    }
  }

  /** The current location is the origin exactly for an empty chain; otherwise it is the last
      block's location, and it lies on the path. */
  lemma CurrentLocationSpec(batch: Batch)
    ensures var rg := Extract(batch).regions;
      && rg.origin == batch.location
      && (batch.blocks == [] ==> rg.currentLocation == batch.location && rg.path == [])
      && (batch.blocks != [] ==>
            rg.currentLocation == batch.blocks[|batch.blocks| - 1].location && rg.currentLocation in rg.path)
  {
    RegionsSpec(batch);
  }

  /** Extraction always produces what the heuristics rely on. */
  lemma ExtractLogsOnPath(batch: Batch)
    ensures LogsOnPath(Extract(batch))
  {
    RegionsSpec(batch);
    ShipmentLogsMembers(batch.blocks);
  }
}
