/** The write handlers of routes/batches.js and routes/products.js over an in-memory store:
    creating a batch or a product, and appending a block to either. `findById` is a map
    lookup, `save` a map update; a rejected `save` (a missing required field, a missing or
    duplicate `_id`) is the `Rejected` outcome and leaves the store as it was. */
module Records {
  import opened JsValues
  import opened Ledger

  /** 201, 200, 404 and 400. */
  datatype Outcome = Created | Updated | NotFound | Rejected

  /** The body of POST /batches; an absent key is `None`. */
  datatype BatchRequest = BatchRequest(
    id: Option<string>,
    productType: Option<string>,
    harvestDate: Option<int>,
    location: Option<string>,
    responsibleStaff: Option<string>,
    quantity: Option<int>,
    status: Option<JsVal>,
    notes: Option<string>,
    blocks: Option<seq<Block>>)

  /** The body of POST /products. */
  datatype ProductRequest = ProductRequest(
    id: Option<string>,
    batchId: Option<string>,
    weight: Option<real>,
    size: Option<string>,
    quality: Option<string>,
    additionalNotes: Option<string>,
    blocks: Option<seq<Block>>)

  /** A required string passes validation only when present and non-empty. */
  predicate Present(s: Option<string>) {
    s.Some? && s.value != ""
  }

  /** `req.body.quantity || 0`: absent and zero both give zero. */
  function QuantityOrZero(q: Option<int>): (n: int)
    ensures q.None? ==> n == 0
    ensures q.Some? ==> n == q.value
  {
    if q.Some? && q.value != 0 then q.value else 0
  }

  /** `new Batch({...})` as `save` accepts it: `None` when the id or a required field is
      missing. The quantity defaults to zero and the block list to empty. */
  function BatchFromRequest(req: BatchRequest): (r: Option<Batch>)
    ensures r.Some? <==>
      req.id.Some? && Present(req.productType) && req.harvestDate.Some? && Present(req.location)
      && Present(req.responsibleStaff)
    ensures r.Some? ==>
      && r.value.id == req.id.value
      && r.value.quantity == (if req.quantity.Some? then req.quantity.value else 0)
      && r.value.blocks == (if req.blocks.Some? then req.blocks.value else [])
      && r.value.status == req.status
  {
    if req.id.Some? && Present(req.productType) && req.harvestDate.Some? && Present(req.location)
       && Present(req.responsibleStaff)
    then
      Some(Batch(req.id.value, req.productType.value, req.harvestDate.value, req.location.value,
                 req.responsibleStaff.value, QuantityOrZero(req.quantity), req.status, req.notes,
                 if req.blocks.Some? then req.blocks.value else []))
    else None
  }

  /** `new Product({...})` as `save` accepts it. */
  function ProductFromRequest(req: ProductRequest): (r: Option<Product>)
    ensures r.Some? <==> req.id.Some? && Present(req.batchId) && req.weight.Some? && Present(req.size)
    ensures r.Some? ==>
      && r.value.id == req.id.value
      && r.value.batchId == req.batchId.value
      && r.value.blocks == (if req.blocks.Some? then req.blocks.value else [])
  {
    if req.id.Some? && Present(req.batchId) && req.weight.Some? && Present(req.size) then
      Some(Product(req.id.value, req.batchId.value, req.weight.value, req.size.value, req.quality,
                   req.additionalNotes, if req.blocks.Some? then req.blocks.value else []))
    else None
  }

  /** The new status a block carries: `data.status` when `data` and `data.status` are both
      truthy. */
  function StatusUpdate(block: Block): (s: Option<JsVal>)
    ensures s.Some? ==> Truthy(s.value) && block.data.Some? && Field(block.data.value, "status") == s
    ensures s.None? ==> !(block.data.Some? && TruthyOpt(Field(block.data.value, "status")))
  {
    if block.data.Some? && Truthy(block.data.value) && TruthyOpt(Field(block.data.value, "status"))
    then Field(block.data.value, "status")
    else None
  }

  /** A batch after POST /batches/:id/blocks: the block last, the status overwritten when the
      block carries one, every other field as it was. */
  function WithBatchBlock(b: Batch, block: Block): (r: Batch)
    ensures r.blocks == b.blocks + [block]
    ensures r.status == if StatusUpdate(block).Some? then StatusUpdate(block) else b.status
    ensures r.(blocks := b.blocks, status := b.status) == b
  {
    var s := StatusUpdate(block);
    b.(blocks := b.blocks + [block], status := if s.Some? then s else b.status)
  }

  /** A product after POST /products/:id/blocks: the block last, nothing else changed. */
  function WithProductBlock(p: Product, block: Block): (r: Product)
    ensures r.blocks == p.blocks + [block]
    ensures r.(blocks := p.blocks) == p
  {
    p.(blocks := p.blocks + [block])
  }

  /** Appending several blocks one request at a time. */
  function AppendBlocks(b: Batch, blocks: seq<Block>): Batch
    decreases |blocks|
  {
    if blocks == [] then b else AppendBlocks(WithBatchBlock(b, blocks[0]), blocks[1..])
  }

  /** The status of the last block that carries one, or `init` when none does. */
  function LatestStatus(blocks: seq<Block>, init: Option<JsVal>): Option<JsVal> {
    if blocks == [] then init
    else
      var last := blocks[|blocks| - 1];
      if StatusUpdate(last).Some? then StatusUpdate(last) else LatestStatus(blocks[..|blocks| - 1], init)
  }

  /** After a run of appends the chain is the old chain followed by the new blocks in request
      order, the status is that of the latest block carrying one, and nothing else changed. */
  lemma {:induction false} AppendBlocksSpec(b: Batch, blocks: seq<Block>)
    ensures var r := AppendBlocks(b, blocks);
      && r.blocks == b.blocks + blocks
      && r.status == LatestStatus(blocks, b.status)
      && r.(blocks := b.blocks, status := b.status) == b
    decreases |blocks|
  {
    if blocks != [] {
      var b1 := WithBatchBlock(b, blocks[0]);
      AppendBlocksSpec(b1, blocks[1..]);
      assert b1.blocks + blocks[1..] == b.blocks + blocks;
      LatestStatusSplit(blocks, b.status);
    }
  }

  /** The latest status over a list is the latest over its tail, started from its head's. */
  lemma {:induction false} LatestStatusSplit(blocks: seq<Block>, init: Option<JsVal>)
    requires blocks != []
    ensures var s := StatusUpdate(blocks[0]);
      LatestStatus(blocks, init) == LatestStatus(blocks[1..], if s.Some? then s else init)
    decreases |blocks|
  {
    var n := |blocks| - 1;
    if n > 0 {
      assert blocks[1..][..n - 1] == blocks[..n][1..];
      LatestStatusSplit(blocks[..n], init);
    }
  }

  /** The stored collections. */
  class Store {
    var batches: map<string, Batch>
    var products: map<string, Product>

    /** Every record is stored under its own `_id`, and every product refers to a stored
        batch. */
    ghost predicate Valid()
      reads this
    {
      && (forall k :: k in batches ==> batches[k].id == k)
      && (forall k :: k in products ==> products[k].id == k && products[k].batchId in batches)
    }

    constructor ()
      ensures Valid()
      ensures batches == map[] && products == map[]
    {
      batches := map[];
      products := map[];
    }

    /** POST /batches (routes/batches.js lines 28-46). */
    method CreateBatch(req: BatchRequest) returns (o: Outcome)
      requires Valid()
      modifies this
      ensures Valid()
      ensures products == old(products)
      ensures o == Created <==> BatchFromRequest(req).Some? && req.id.value !in old(batches)
      ensures o == Created ==> batches == old(batches)[req.id.value := BatchFromRequest(req).value]
      ensures o != Created ==> o == Rejected && batches == old(batches)
    {
      var b := BatchFromRequest(req);
      if b.None? || b.value.id in batches {
        return Rejected;
      }
      batches := batches[b.value.id := b.value];
      o := Created;
    }

    /** POST /batches/:id/blocks (routes/batches.js lines 49-66). */
    method AppendBatchBlock(id: string, block: Block) returns (o: Outcome)
      requires Valid()
      modifies this
      ensures Valid()
      ensures products == old(products)
      ensures o == Updated <==> id in old(batches)
      ensures o == Updated ==> batches == old(batches)[id := WithBatchBlock(old(batches)[id], block)]
      ensures o != Updated ==> o == NotFound && batches == old(batches)
    {
      if id !in batches {
        return NotFound;
      }
      batches := batches[id := WithBatchBlock(batches[id], block)];
      o := Updated;
    }

    /** POST /products (routes/products.js lines 50-77): the batch must exist; the product is
        saved, then the batch's quantity goes up by one. */
    method CreateProduct(req: ProductRequest) returns (o: Outcome)
      requires Valid()
      modifies this
      ensures Valid()
      ensures o == NotFound <==> req.batchId.None? || req.batchId.value !in old(batches)
      ensures o == Created <==>
        && req.batchId.Some? && req.batchId.value in old(batches)
        && ProductFromRequest(req).Some? && req.id.value !in old(products)
      ensures o == Created ==>
        var bid := req.batchId.value;
        && products == old(products)[req.id.value := ProductFromRequest(req).value]
        && batches == old(batches)[bid := old(batches)[bid].(quantity := old(batches)[bid].quantity + 1)]
      ensures o != Created ==> o in {NotFound, Rejected} && batches == old(batches) && products == old(products)
    {
      if req.batchId.None? || req.batchId.value !in batches {
        return NotFound;
      }
      var batch := batches[req.batchId.value];
      var p := ProductFromRequest(req);
      if p.None? || p.value.id in products {
        return Rejected;
      }
      products := products[p.value.id := p.value];
      batch := batch.(quantity := batch.quantity + 1);
      batches := batches[batch.id := batch];
      o := Created;
    }

    /** POST /products/:id/blocks (routes/products.js lines 80-91). */
    method AppendProductBlock(id: string, block: Block) returns (o: Outcome)
      requires Valid()
      modifies this
      ensures Valid()
      ensures batches == old(batches)
      ensures o == Updated <==> id in old(products)
      ensures o == Updated ==> products == old(products)[id := WithProductBlock(old(products)[id], block)]
      ensures o != Updated ==> o == NotFound && products == old(products)
    {
      if id !in products {
        return NotFound;
      }
      products := products[id := WithProductBlock(products[id], block)];
      o := Updated;
    }
  }
}
