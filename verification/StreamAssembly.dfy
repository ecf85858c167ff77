/**
  Batch assembly from the data stream (handleReceivedDataStream of aggregator/aggregator.go):
  entries arrive one at a time, blocks and their transactions gather in the aggregator's
  fields, and the end of a batch encodes and stores what has gathered.
*/
module StreamAssembly {
  import opened Wrappers
  import opened Bytes
  import opened Transactions
  import opened BatchV2

  // ---------- the stream ----------

  datatype BatchType = Unspecified | Regular | Forced | Injected | Invalid

  /** What an entry says; None where its data cannot be unmarshalled or decoded. */
  datatype Kind =
    | Bookmark
    | BatchStart(start: Option<(Uint64, BatchType)>)
    | BatchEnd(readable: bool)
    | L2Block(block: Option<(Uint64, ChangeL2BlockHeader)>)
    | Transaction(tx: Option<LegacyTx>, percentage: Uint32)
    | OtherEntry

  /** `encoded` is the entry's own encoding, kept in the batch's data stream. */
  datatype Entry = Entry(kind: Kind, encoded: bytes)

  /** What L1 and the database answer while a batch is stored: the L1 batch data, or a failure. */
  datatype Answers = Failure | Success(l1BatchData: bytes)

  predicate IsBlock(k: Kind) {
    k.L2Block? && k.block.Some?
  }

  predicate IsTx(k: Kind) {
    k.Transaction? && k.tx.Some?
  }

  /** The percentage is cut to a byte. */
  function TxOf(k: Kind): L2TxRaw
    requires IsTx(k)
  {
    Plain(k.tx.value, k.percentage % 256)
  }

  predicate EntryFits(e: Entry) {
    IsTx(e.kind) ==> TxFits(TxOf(e.kind))
  }

  // ---------- what the aggregator holds ----------

  /** A batch handed to AddBatch. */
  datatype StoredBatch = StoredBatch(number: Uint64, batchType: BatchType, batchL2Data: bytes, datastream: bytes)

  /** currentStreamBatchRaw, currentStreamL2Block, currentBatchStreamData, and two fields of currentStreamBatch. */
  datatype Assembly = Assembly(blocks: seq<L2BlockRaw>, open: L2BlockRaw, streamData: bytes,
                               number: Uint64, batchType: BatchType)

  const NoBlock: L2BlockRaw := L2BlockRaw(0, ChangeL2BlockHeader(0, 0), [])

  predicate Fits(a: Assembly) {
    BlocksFit(a.blocks) && TxsFit(a.open.transactions)
  }

  /** The open block joins the batch, if it has a number. */
  function CloseBlock(a: Assembly): Assembly {
    if a.open.blockNumber != 0 then a.(blocks := a.blocks + [a.open]) else a
  }

  /** The accumulators emptied; number and type stay until the next batch starts. */
  function Reset(a: Assembly): Assembly {
    a.(blocks := [], open := NoBlock, streamData := [])
  }

  predicate FromL1(t: BatchType) {
    t == Invalid || t == Injected
  }

  /** The batch data to store; an empty batch cannot be encoded. */
  function L2Data(blocks: seq<L2BlockRaw>, t: BatchType, useL1: bool, l1BatchData: bytes): Option<bytes>
    requires BlocksFit(blocks)
  {
    if FromL1(t) then Some(l1BatchData)
    else if |blocks| == 0 then None
    else Some(if useL1 then l1BatchData else EncodeBlocks(blocks))
  }

  /** How handling an entry ends: the new state with the batch stored, if any, or an error. */
  datatype Outcome =
    | Handled(next: Assembly, stored: Option<StoredBatch>)
    | Failed(next: Assembly)

  function EndBatch(a: Assembly, useL1: bool, answers: Answers): Outcome
    requires Fits(a)
  {
    var c := CloseBlock(a);
    if c.number == 0 then Handled(Reset(c), None)
    else if answers.Failure? then Failed(c)
    else match L2Data(c.blocks, c.batchType, useL1, answers.l1BatchData)
      case None => Failed(c)
      case Some(data) => Handled(Reset(c), Some(StoredBatch(c.number, c.batchType, data, c.streamData)))
  }

  /** One entry; its bytes are kept before it is looked at. */
  function Handle(a: Assembly, e: Entry, useL1: bool, answers: Answers): (r: Outcome)
    requires Fits(a) && EntryFits(e)
    ensures Fits(r.next)
  {
    if e.kind.Bookmark? then Handled(a, None)
    else
      var b := a.(streamData := a.streamData + e.encoded);
      match e.kind
      case BatchStart(None) => Failed(b)
      case BatchStart(Some((number, batchType))) => Handled(b.(number := number, batchType := batchType), None)
      case BatchEnd(false) => Failed(b)
      case BatchEnd(true) => EndBatch(b, useL1, answers)
      case L2Block(None) => Failed(CloseBlock(b))
      case L2Block(Some((number, header))) => Handled(CloseBlock(b).(open := L2BlockRaw(number, header, [])), None)
      case Transaction(None, _) => Failed(b)
      case Transaction(Some(_), _) => Handled(b.(open := WithTx(b.open, TxOf(e.kind))), None)
      case _ => Handled(b, None)
  }

  // ---------- the aggregator ----------

  class Aggregator {
    const useL1BatchData: bool
    var halted: bool
    var currentStreamBatchRaw: seq<L2BlockRaw>
    var currentStreamL2Block: L2BlockRaw
    var currentBatchStreamData: bytes
    var batchNumber: Uint64
    var batchType: BatchType
    var stored: seq<StoredBatch>  // the calls of AddBatch, in order

    function State(): Assembly
      reads this
    {
      Assembly(currentStreamBatchRaw, currentStreamL2Block, currentBatchStreamData, batchNumber, batchType)
    }

    constructor (useL1: bool)
      ensures State() == Fresh && stored == [] && !halted && useL1BatchData == useL1
    {
      useL1BatchData, halted, stored := useL1, false, [];
      currentStreamBatchRaw, currentStreamL2Block, currentBatchStreamData := [], NoBlock, [];
      batchNumber, batchType := 0, Unspecified;
    }

    method HandleReceivedDataStream(entry: Entry, answers: Answers) returns (ok: bool)
      requires Fits(State()) && EntryFits(entry)
      modifies this
      ensures Fits(State()) && halted == old(halted)
      ensures halted ==> ok && State() == old(State()) && stored == old(stored)
      ensures !halted ==>
                var r := Handle(old(State()), entry, useL1BatchData, answers);
                && State() == r.next && ok == r.Handled?
                && stored == old(stored) + if r.Handled? && r.stored.Some? then [r.stored.value] else []
    {
      hide EncodeBlocks, TxFits;
      if halted || entry.kind.Bookmark? {
        return true;
      }
      currentBatchStreamData := currentBatchStreamData + entry.encoded;
      match entry.kind {
        case BatchStart(start) =>
          if start.None? {
            return false;
          }
          batchNumber, batchType := start.value.0, start.value.1;
        case BatchEnd(readable) =>
          if !readable {
            return false;
          }
          ok := EndCurrentBatch(answers);
          return;
        case L2Block(block) =>
          CloseCurrentBlock();
          if block.None? {
            return false;
          }
          currentStreamL2Block := L2BlockRaw(block.value.0, block.value.1, []);
        case Transaction(tx, percentage) =>
          if tx.None? {
            return false;
          }
          currentStreamL2Block := WithTx(currentStreamL2Block, Plain(tx.value, percentage % 256));
          assert State().open == WithTx(old(State()).open, TxOf(entry.kind));
        case _ =>
      }
      return true;
    }

    method EndCurrentBatch(answers: Answers) returns (ok: bool)
      requires Fits(State())
      modifies this
      ensures Fits(State()) && halted == old(halted)
      ensures var r := EndBatch(old(State()), useL1BatchData, answers);
              && State() == r.next && ok == r.Handled?
              && stored == old(stored) + if r.Handled? && r.stored.Some? then [r.stored.value] else []
      // where the stored data comes from: L1 for invalid and injected batches, and when so configured
      ensures old(batchNumber) == 0 ==> ok && stored == old(stored)
      ensures old(batchNumber) != 0 && answers.Failure? ==> !ok && stored == old(stored)
      ensures old(batchNumber) != 0 && answers.Success? && (old(batchType) == Invalid || old(batchType) == Injected) ==>
                ok && stored == old(stored) + [StoredBatch(old(batchNumber), old(batchType), answers.l1BatchData, old(currentBatchStreamData))]
      ensures old(batchNumber) != 0 && answers.Success? && old(batchType) != Invalid && old(batchType) != Injected ==>
                var blocks := CloseBlock(old(State())).blocks;
                && BlocksFit(blocks) && ok == (|blocks| > 0)
                && stored == old(stored)
                             + if |blocks| == 0 then []
                               else [StoredBatch(old(batchNumber), old(batchType),
                                                 if useL1BatchData then answers.l1BatchData else EncodeBlocks(blocks),
                                                 old(currentBatchStreamData))]
    {
      hide EncodeBlocks, BlocksFit;
      CloseCurrentBlock();
      if batchNumber != 0 {
        if answers.Failure? {
          return false;
        }
        var batchL2Data := answers.l1BatchData;
        if !FromL1(batchType) {
          var encoded := EncodeBatchV2(Some(currentStreamBatchRaw));
          if encoded.Err? {
            return false;
          }
          if !useL1BatchData {
            batchL2Data := encoded.value;
          }
        }
        stored := stored + [StoredBatch(batchNumber, batchType, batchL2Data, currentBatchStreamData)];
      }
      ResetAccumulators();
      return true;
    }

    method ResetAccumulators()
      modifies this`currentBatchStreamData, this`currentStreamBatchRaw, this`currentStreamL2Block
      ensures State() == Reset(old(State())) && Fits(State())
    {
      currentBatchStreamData, currentStreamBatchRaw, currentStreamL2Block := [], [], NoBlock;
    }

    method CloseCurrentBlock()
      requires Fits(State())
      modifies this`currentStreamBatchRaw
      ensures State() == CloseBlock(old(State())) && Fits(State())
    {
      if currentStreamL2Block.blockNumber != 0 {
        currentStreamBatchRaw := currentStreamBatchRaw + [currentStreamL2Block];
      }
    }
  }

  const Fresh: Assembly := Assembly([], NoBlock, [], 0, Unspecified)

  // ---------- the simple grouping ----------

  function Kinds(entries: seq<Entry>): (kinds: seq<Kind>)
    ensures |kinds| == |entries|
  {
    seq(|entries|, i requires 0 <= i < |entries| => entries[i].kind)
  }

  /** The transactions before the next block. */
  function TxsAhead(kinds: seq<Kind>): seq<L2TxRaw> {
    if |kinds| == 0 || IsBlock(kinds[0]) then []
    else (if IsTx(kinds[0]) then [TxOf(kinds[0])] else []) + TxsAhead(kinds[1..])
  }

  /** Every block with the transactions up to the next block. */
  function BlocksOf(kinds: seq<Kind>): seq<L2BlockRaw> {
    if |kinds| == 0 then []
    else if IsBlock(kinds[0]) then
      var (number, header) := kinds[0].block.value;
      [L2BlockRaw(number, header, TxsAhead(kinds[1..]))] + BlocksOf(kinds[1..])
    else BlocksOf(kinds[1..])
  }

  /** The blocks that have a number. */
  function Numbered(blocks: seq<L2BlockRaw>): seq<L2BlockRaw> {
    if |blocks| == 0 then []
    else Numbered(blocks[..|blocks| - 1]) + if blocks[|blocks| - 1].blockNumber != 0 then [blocks[|blocks| - 1]] else []
  }

  /** The encodings of the entries, bookmarks left out. */
  function DataOf(entries: seq<Entry>): bytes {
    if |entries| == 0 then []
    else DataOf(entries[..|entries| - 1])
         + if entries[|entries| - 1].kind.Bookmark? then [] else entries[|entries| - 1].encoded
  }

  predicate EndsBatch(k: Kind) {
    k == BatchEnd(true)
  }

  /** The entries since the last end of a batch. */
  function Since(entries: seq<Entry>): seq<Entry> {
    if |entries| == 0 || EndsBatch(entries[|entries| - 1].kind) then []
    else Since(entries[..|entries| - 1]) + [entries[|entries| - 1]]
  }

  /** Number and type of the last batch started. */
  function LastStart(entries: seq<Entry>, initially: (Uint64, BatchType)): (Uint64, BatchType) {
    if |entries| == 0 then initially
    else
      var last := entries[|entries| - 1].kind;
      if last.BatchStart? && last.start.Some? then last.start.value
      else LastStart(entries[..|entries| - 1], initially)
  }
}
