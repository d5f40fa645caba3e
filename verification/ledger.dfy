/** The stored records: batches and products, each with its own list of blocks.

    The routes never compute or check `prevHash`, `hash` or `blockId`: an appended block is
    the request body, stored as sent. The fields are kept only so that a block is the
    whole stored document. */
module Ledger {
  import opened JsValues

  /** One entry of a batch's or product's `blocks` list. `actorType` exists on product
      blocks only; `timestamp` is a number of milliseconds since the epoch. `actor` and
      `location` are taken to be present, although the schema does not require them. */
  datatype Block = Block(
    blockId: Option<int>,
    timestamp: int,
    actor: string,
    actorType: Option<string>,
    location: string,
    data: Option<JsVal>,
    prevHash: string,
    hash: string)

  /** A harvested lot. `location` is its origin; `status` is overwritten by appended blocks. */
  datatype Batch = Batch(
    id: string,
    productType: string,
    harvestDate: int,
    location: string,
    responsibleStaff: string,
    quantity: int,
    status: Option<JsVal>,
    notes: Option<string>,
    blocks: seq<Block>)

  /** A unit derived from a batch, referring to it by `batchId`. */
  datatype Product = Product(
    id: string,
    batchId: string,
    weight: real,
    size: string,
    quality: Option<string>,
    additionalNotes: Option<string>,
    blocks: seq<Block>)
}
