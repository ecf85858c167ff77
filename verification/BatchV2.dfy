/**
  The batch V2 codec (state/encoding_batch_v2.go and DecodeTxs of state/helper.go): a printer
  and two parsers for L2 blocks of legacy transactions.

  The source computes positions in uint64, so the parsers below wrap modulo 2^64 where it does,
  and a slice expression that would be out of range is the error SliceOutOfRange.
*/
module BatchV2 {
  import opened Wrappers
  import opened Bytes
  import opened Rlp
  import opened Transactions

  type Uint32 = n: nat | n < 0x1_0000_0000

  const CHANGE_L2_BLOCK: Byte := 0x0b
  const SIZE_UINT32: nat := 4
  const HEADER_LENGTH: nat := 9

  /** R, S, V and the efficiency percentage. */
  const TRAILER_LENGTH: nat := 66

  /** No Go slice is longer. */
  const MAX_LENGTH: nat := 0x7fff_ffff_ffff_ffff

  datatype ChangeL2BlockHeader = ChangeL2BlockHeader(deltaTimestamp: Uint32, indexL1InfoTree: Uint32)

  datatype L2TxRaw =
    | Plain(tx: LegacyTx, efficiencyPercentage: Byte)
    | AlreadyEncoded(data: bytes, efficiencyPercentage: Byte)

  datatype L2BlockRaw = L2BlockRaw(blockNumber: Uint64, header: ChangeL2BlockHeader, transactions: seq<L2TxRaw>)

  // ---------- the format ----------

  /** The transaction is one RLP can encode: always so for what fits in memory. */
  predicate TxFits(tx: L2TxRaw) {
    tx.Plain? ==> Encodable(TxFields(tx.tx))
  }

  predicate TxsFit(txs: seq<L2TxRaw>) {
    forall i: nat | i < |txs| :: TxFits(txs[i])
  }

  predicate BlocksFit(blocks: seq<L2BlockRaw>) {
    forall i: nat | i < |blocks| :: TxsFit(blocks[i].transactions)
  }

  function EncodeHeader(h: ChangeL2BlockHeader): (e: bytes)
    ensures |e| == HEADER_LENGTH
  {
    [CHANGE_L2_BLOCK] + Fixed(h.deltaTimestamp, SIZE_UINT32) + Fixed(h.indexL1InfoTree, SIZE_UINT32)
  }

  function EncodeTx(tx: L2TxRaw): (e: bytes)
    requires TxFits(tx)
  {
    (if tx.Plain? then PrepareRLPTxData(tx.tx) else tx.data) + [tx.efficiencyPercentage]
  }

  function EncodeTxs(txs: seq<L2TxRaw>): bytes
    requires TxsFit(txs)
  {
    if |txs| == 0 then [] else EncodeTx(txs[0]) + EncodeTxs(txs[1..])
  }

  function EncodeBlocks(blocks: seq<L2BlockRaw>): bytes
    requires BlocksFit(blocks)
  {
    if |blocks| == 0 then []
    else EncodeHeader(blocks[0].header) + EncodeTxs(blocks[0].transactions) + EncodeBlocks(blocks[1..])
  }

  // ---------- the encoder ----------

  /** Encoding from the back: the buffer grows by one transaction or one block at a time. */
  lemma {:induction false} EncodeTxsSnoc(txs: seq<L2TxRaw>, k: nat)
    requires k < |txs| && TxsFit(txs)
    ensures EncodeTxs(txs[..k + 1]) == EncodeTxs(txs[..k]) + EncodeTx(txs[k])
  {
    hide EncodeTx;
    if k == 0 {
      assert txs[..1][1..] == [];
    } else {
      EncodeTxsSnoc(txs[1..], k - 1);
      assert txs[..k + 1][1..] == txs[1..][..k] && txs[..k][1..] == txs[1..][..k - 1];
    }
  }

  lemma {:induction false} EncodeBlocksSnoc(blocks: seq<L2BlockRaw>, k: nat)
    requires k < |blocks| && BlocksFit(blocks)
    ensures EncodeBlocks(blocks[..k + 1])
         == EncodeBlocks(blocks[..k]) + EncodeHeader(blocks[k].header) + EncodeTxs(blocks[k].transactions)
  {
    hide EncodeHeader, EncodeTxs;
    if k == 0 {
      assert blocks[..1][1..] == [];
    } else {
      EncodeBlocksSnoc(blocks[1..], k - 1);
      assert blocks[..k + 1][1..] == blocks[1..][..k] && blocks[..k][1..] == blocks[1..][..k - 1];
    }
  }

  class BatchV2Encoder {
    var batchData: bytes

    constructor ()
      ensures batchData == []
    {
      batchData := [];
    }

    method AddBlockHeader(header: ChangeL2BlockHeader)
      modifies this
      ensures batchData == old(batchData) + EncodeHeader(header)
    {
      batchData := batchData + [CHANGE_L2_BLOCK];
      batchData := batchData + Fixed(header.deltaTimestamp, SIZE_UINT32);
      batchData := batchData + Fixed(header.indexL1InfoTree, SIZE_UINT32);
    }

    method AddTransaction(tx: L2TxRaw)
      requires TxFits(tx)
      modifies this
      ensures batchData == old(batchData) + EncodeTx(tx)
    {
      match tx {
        case AlreadyEncoded(data, _) => batchData := batchData + data;
        case Plain(legacy, _) => batchData := batchData + PrepareRLPTxData(legacy);
      }
      batchData := batchData + [tx.efficiencyPercentage];
    }

    method AddTransactions(txs: seq<L2TxRaw>)
      requires TxsFit(txs)
      modifies this
      ensures batchData == old(batchData) + EncodeTxs(txs)
    {
      hide EncodeTx;
      assert txs[..0] == [];
      for i := 0 to |txs|
        invariant batchData == old(batchData) + EncodeTxs(txs[..i])
      {
        EncodeTxsSnoc(txs, i);
        AddTransaction(txs[i]);
      }
      assert txs[..|txs|] == txs;
    }

    method GetResult() returns (data: bytes)
      ensures data == batchData
    {
      data := batchData;
    }
  }

  /** Encodes a batch; None is the nil batch. */
  method EncodeBatchV2(batch: Option<seq<L2BlockRaw>>) returns (r: Result<bytes, CodecError>)
    requires batch.Some? ==> BlocksFit(batch.value)
    ensures batch.None? || |batch.value| == 0 ==> r == Err(InvalidBatchV2)
    ensures batch.Some? && |batch.value| > 0 ==> r == Ok(EncodeBlocks(batch.value))
  {
    hide EncodeHeader, EncodeTxs;
    if batch.None? || |batch.value| == 0 {
      return Err(InvalidBatchV2);
    }
    var blocks := batch.value;
    var encoder := new BatchV2Encoder();
    assert blocks[..0] == [];
    for i := 0 to |blocks|
      invariant encoder.batchData == EncodeBlocks(blocks[..i])
      invariant fresh(encoder)
    {
      EncodeBlocksSnoc(blocks, i);
      encoder.AddBlockHeader(blocks[i].header);
      encoder.AddTransactions(blocks[i].transactions);
    }
    assert blocks[..|blocks|] == blocks;
    var data := encoder.GetResult();
    return Ok(data);
  }

  // ---------- the parsers, with the source's arithmetic ----------

  /** uint64 arithmetic. */
  function Wrap(n: int): nat {
    n % TWO_64
  }

  lemma WrapOnce(n: nat)
    requires n < 2 * TWO_64
    ensures Wrap(n) == if n < TWO_64 then n else n - TWO_64
  {
  }

  function RlpListLength(data: bytes, offset: nat): Result<nat, CodecError>
    requires offset < |data| <= MAX_LENGTH
  {
    var num := data[offset];
    if num < 0xc0 then Err(InvalidRlp)
    else if num - 0xc0 > 55 then
      var size := num - 0xf7;
      if Wrap(offset + 1 + size) > |data| then Err(InvalidRlp)
      else
        var n := BigEndian(data[offset + 1..offset + 1 + size]);
        Ok(Wrap(Wrap(n + num - 0xf7) + 1))
    else Ok(num - 0xc0 + 1)
  }

  lemma CutInRange(offset: nat, length: nat, dataLength: nat)
    requires offset <= dataLength <= MAX_LENGTH && length < TWO_64
    requires offset <= Wrap(offset + length) <= dataLength
    ensures Wrap(offset + length) == offset + length
    ensures Wrap(offset + length + TRAILER_LENGTH) == offset + length + TRAILER_LENGTH
  {
  }

  /** Reads the transaction whose list takes `length` bytes, once its end is known to be in the data. */
  function CutTx(data: bytes, offset: nat, length: nat, endPos: nat)
    : (r: Result<(nat, L2TxRaw), CodecError>)
    requires offset < |data| <= MAX_LENGTH
    requires length < TWO_64 && endPos == Wrap(offset + length + TRAILER_LENGTH) <= |data|
    ensures r.Ok? ==> r.value.0 == endPos && offset + TRAILER_LENGTH <= endPos
  {
    var dataStart := Wrap(offset + length);
    if endPos < offset || dataStart < offset || dataStart > |data| then Err(SliceOutOfRange)
    else
      CutInRange(offset, length, |data|);
      match DecodeList(data[offset..dataStart])
      case None => Err(RlpDecoding)
      case Some(fields) =>
        var r, s := data[dataStart..dataStart + 32], data[dataStart + 32..dataStart + 64];
        match RlpFieldsToLegacyTx(fields, data[dataStart + 64..dataStart + 65], r, s)
        case Err(e) => Err(e)
        case Ok(tx) => Ok((endPos, Plain(tx, data[dataStart + 65])))
  }

  function DecodeTxRLP(data: bytes, offset: nat): (r: Result<(nat, L2TxRaw), CodecError>)
    requires offset < |data| <= MAX_LENGTH
    ensures r.Ok? ==> offset < r.value.0 <= |data|
  {
    match RlpListLength(data, offset)
    case Err(e) => Err(e)
    case Ok(length) =>
      var endPos := Wrap(offset + length + TRAILER_LENGTH);
      if endPos > |data| then Err(InvalidBatchV2) else CutTx(data, offset, length, endPos)
  }

  function DecodeUint32(data: bytes, pos: nat): Result<(nat, Uint32), CodecError>
    requires pos <= |data|
  {
    if |data| - pos < SIZE_UINT32 then Err(InvalidBatchV2)
    else
      var field := data[pos..pos + SIZE_UINT32];
      BigEndianBound(field);
      assert Pow256(SIZE_UINT32) == 0x1_0000_0000;
      Ok((pos + SIZE_UINT32, BigEndian(field)))
  }

  function DecodeBlockHeader(data: bytes, pos: nat): (r: Result<(nat, L2BlockRaw), CodecError>)
    requires pos <= |data|
    ensures r.Ok? ==> r.value.0 == pos + 8 <= |data|
  {
    match DecodeUint32(data, pos)
    case Err(e) => Err(e)
    case Ok((pos', deltaTimestamp)) =>
      match DecodeUint32(data, pos')
      case Err(e) => Err(e)
      case Ok((pos'', index)) => Ok((pos'', L2BlockRaw(0, ChangeL2BlockHeader(deltaTimestamp, index), [])))
  }

  function Closed(blocks: seq<L2BlockRaw>, current: Option<L2BlockRaw>): seq<L2BlockRaw> {
    if current.Some? then blocks + [current.value] else blocks
  }

  function WithTx(block: L2BlockRaw, tx: L2TxRaw): L2BlockRaw {
    block.(transactions := block.transactions + [tx])
  }

  /** DecodeBatchV2 from a position of its loop on. */
  function DecodeBatchFrom(data: bytes, pos: nat, blocks: seq<L2BlockRaw>, current: Option<L2BlockRaw>)
    : Result<seq<L2BlockRaw>, CodecError>
    requires pos <= |data| <= MAX_LENGTH
    decreases |data| - pos
  {
    if pos == |data| then Ok(Closed(blocks, current))
    else if data[pos] == CHANGE_L2_BLOCK then
      match DecodeBlockHeader(data, pos + 1)
      case Err(e) => Err(e)
      case Ok((pos', block)) => DecodeBatchFrom(data, pos', Closed(blocks, current), Some(block))
    else if current.None? then
      match DecodeTxRLP(data, pos)
      case Ok(_) => Err(DontStartWithChangeL2Block)
      case Err(SliceOutOfRange) => Err(SliceOutOfRange)
      case Err(_) => Err(InvalidBatchV2)
    else
      match DecodeTxRLP(data, pos)
      case Err(e) => Err(e)
      case Ok((pos', tx)) => DecodeBatchFrom(data, pos', blocks, Some(WithTx(current.value, tx)))
  }

  method DecodeBatchV2(data: bytes) returns (r: Result<seq<L2BlockRaw>, CodecError>)
    requires |data| <= MAX_LENGTH
    ensures r == DecodeBatchFrom(data, 0, [], None)
    ensures |data| == 0 ==> r == Ok([])
    // a batch that does not start with a block header is an error: which one tells whether it starts with a transaction
    ensures |data| > 0 && data[0] != 0x0b ==>
              && (r == Err(DontStartWithChangeL2Block) <==> ReadTx(data).Some?)
              && (ReadTx(data).None? ==> r == Err(InvalidBatchV2) || r == Err(SliceOutOfRange))
  {
    WithoutHeader(data);
    hide DecodeBlockHeader, DecodeTxRLP;
    var blocks: seq<L2BlockRaw> := [];
    var currentBlock: Option<L2BlockRaw> := None;
    var pos := 0;
    while pos < |data|
      invariant 0 <= pos <= |data|
      invariant DecodeBatchFrom(data, pos, blocks, currentBlock) == DecodeBatchFrom(data, 0, [], None)
    {
      if data[pos] == CHANGE_L2_BLOCK {
        if currentBlock.Some? {
          blocks := blocks + [currentBlock.value];
        }
        match DecodeBlockHeader(data, pos + 1) {
          case Err(e) => return Err(e);
          case Ok((next, block)) => pos, currentBlock := next, Some(block);
        }
      } else if currentBlock.None? {
        match DecodeTxRLP(data, pos) {
          case Ok(_) => return Err(DontStartWithChangeL2Block);
          case Err(e) => return Err(if e == SliceOutOfRange then e else InvalidBatchV2);
        }
      } else {
        match DecodeTxRLP(data, pos) {
          case Err(e) => return Err(e);
          case Ok((next, tx)) => pos, currentBlock := next, Some(WithTx(currentBlock.value, tx));
        }
      }
    }
    if currentBlock.Some? {
      blocks := blocks + [currentBlock.value];
    }
    return Ok(blocks);
  }

  /** One round of DecodeTxs: the next transaction, an error, or the early return on a cut-off header. */
  datatype TxsRound = Next(pos: nat, tx: L2TxRaw) | Fail(error: CodecError) | CutOff

  function DecodeTxsRound(data: bytes, pos: nat): (r: TxsRound)
    requires pos < |data| <= MAX_LENGTH
    ensures r.Next? ==> pos < r.pos <= |data|
  {
    var num := data[pos];
    if num < 0xc0 then Fail(InvalidData)
    else if num - 0xc0 > 55 then
      if Wrap(pos + 1 + num - 0xf7) > |data| then CutOff
      else
        var n := BigEndian(data[pos + 1..pos + 1 + num - 0xf7]);
        if Wrap(n + num) < 0xf7 then Fail(InvalidData) else TxsRoundOf(data, pos, Wrap(n + num) - 0xf7)
    else TxsRoundOf(data, pos, num - 0xc0)
  }

  function TxsRoundOf(data: bytes, pos: nat, length: nat): (r: TxsRound)
    requires pos < |data| <= MAX_LENGTH && length < TWO_64 - 1
    ensures r.Next? ==> pos < r.pos <= |data|
  {
    var endPos := Wrap(pos + length + TRAILER_LENGTH + 1);
    if endPos > |data| || endPos < pos then Fail(InvalidData)
    else
      match CutTx(data, pos, length + 1, endPos)
      case Err(RlpDecoding) => Fail(InvalidData)
      case Err(e) => Fail(e)
      case Ok((next, tx)) => Next(next, tx)
  }

  /** DecodeTxs from a position of its loop on. A cut-off header yields no error and no transactions. */
  function DecodeTxsFrom(data: bytes, pos: nat, txs: seq<L2TxRaw>): Result<seq<L2TxRaw>, CodecError>
    requires pos <= |data| <= MAX_LENGTH
    decreases |data| - pos
  {
    if pos == |data| then Ok(txs)
    else match DecodeTxsRound(data, pos)
      case Fail(e) => Err(e)
      case CutOff => Ok([])
      case Next(pos', tx) => DecodeTxsFrom(data, pos', txs + [tx])
  }

  method DecodeForcedBatchV2(data: bytes) returns (r: Result<seq<L2TxRaw>, CodecError>)
    requires |data| <= MAX_LENGTH
    ensures r == DecodeTxsFrom(data, 0, [])
  {
    hide DecodeTxsRound;
    var pos := 0;
    var txs: seq<L2TxRaw> := [];
    while pos < |data|
      invariant 0 <= pos <= |data|
      invariant DecodeTxsFrom(data, pos, txs) == DecodeTxsFrom(data, 0, [])
    {
      match DecodeTxsRound(data, pos) {
        case Fail(e) => return Err(e);
        case CutOff => return Ok([]);
        case Next(next, tx) => pos, txs := next, txs + [tx];
      }
    }
    return Ok(txs);
  }

  // ---------- what is parsed, without positions and without wrapping ----------

  /** The length of the list at the start of `rest`, as its header declares it. */
  function ListFrame(rest: bytes): Option<nat> {
    if |rest| == 0 || rest[0] < 0xc0 then None
    else if rest[0] <= 0xf7 then Some(rest[0] - 0xc0 + 1)
    else
      var size := rest[0] - 0xf7;
      if |rest| < 1 + size then None else Some(1 + size + BigEndian(rest[1..1 + size]))
  }

  /** The transaction at the start of `rest`, with the number of bytes it takes. */
  function ReadTx(rest: bytes): (r: Option<(nat, L2TxRaw)>)
    ensures r.Some? ==> 0 < r.value.0 <= |rest| && rest[0] >= 0xc0
  {
    match ListFrame(rest)
    case None => None
    case Some(length) =>
      if |rest| < length + TRAILER_LENGTH then None
      else match DecodeList(rest[..length])
        case None => None
        case Some(fields) =>
          var r, s := rest[length..length + 32], rest[length + 32..length + 64];
          match RlpFieldsToLegacyTx(fields, rest[length + 64..length + 65], r, s)
          case Err(_) => None
          case Ok(tx) => Some((length + TRAILER_LENGTH, Plain(tx, rest[length + 65])))
  }

  /** Transactions up to the end of `rest`. */
  function ReadTxs(rest: bytes): Option<seq<L2TxRaw>>
    decreases |rest|
  {
    if |rest| == 0 then Some([])
    else match ReadTx(rest)
      case None => None
      case Some((n, tx)) =>
        match ReadTxs(rest[n..])
        case None => None
        case Some(txs) => Some([tx] + txs)
  }

  /** Blocks up to the end of `rest`, the first of which is already open. */
  function ReadBlocks(rest: bytes, open: L2BlockRaw): Option<seq<L2BlockRaw>>
    decreases |rest|
  {
    if |rest| == 0 then Some([open])
    else if rest[0] == CHANGE_L2_BLOCK then
      match DecodeBlockHeader(rest, 1)
      case Err(_) => None
      case Ok((_, block)) =>
        match ReadBlocks(rest[HEADER_LENGTH..], block)
        case None => None
        case Some(blocks) => Some([open] + blocks)
    else
      match ReadTx(rest)
      case None => None
      case Some((n, tx)) => ReadBlocks(rest[n..], WithTx(open, tx))
  }

  lemma DecodedListFrame(b: bytes)
    requires DecodeList(b).Some?
    ensures ListFrame(b) == Some(|b|)
  {
  }

  lemma FrameOfPrefix(rest: bytes, k: nat)
    requires k <= |rest| && ListFrame(rest[..k]).Some?
    ensures ListFrame(rest) == ListFrame(rest[..k])
  {
    if rest[0] > 0xf7 {
      var size := rest[0] - 0xf7;
      assert rest[..k][1..1 + size] == rest[1..1 + size];
    }
  }

  /** When the list length the source computed is the declared one, its cut is ReadTx. */
  lemma CutIsReadTx(data: bytes, offset: nat, length: nat, endPos: nat)
    requires offset < |data| <= MAX_LENGTH
    requires length < TWO_64 && endPos == Wrap(offset + length + TRAILER_LENGTH) <= |data|
    requires ListFrame(data[offset..]) == Some(length)
    ensures CutTx(data, offset, length, endPos).Ok? <==> ReadTx(data[offset..]).Some?
    ensures CutTx(data, offset, length, endPos).Ok? ==>
              var (n, tx) := ReadTx(data[offset..]).value;
              CutTx(data, offset, length, endPos).value == (offset + n, tx)
  {
    hide DecodeList, RlpFieldsToLegacyTx, ListFrame;
    var rest := data[offset..];
    if offset + length + TRAILER_LENGTH < TWO_64 {
      var start := offset + length;
      assert Wrap(start) == start && endPos == start + TRAILER_LENGTH;
      assert data[offset..start] == rest[..length];
      assert data[start..start + 32] == rest[length..length + 32];
      assert data[start + 32..start + 64] == rest[length + 32..length + 64];
      assert data[start + 64..start + 65] == rest[length + 64..length + 65];
    } else {
      assert |rest| < length + TRAILER_LENGTH;
      assert CutTx(data, offset, length, endPos).Err?;
    }
  }

  /** A cut that succeeds has found the declared length, wrapped or not. */
  lemma CutFindsFrame(data: bytes, offset: nat, length: nat, endPos: nat)
    requires offset < |data| <= MAX_LENGTH
    requires length < TWO_64 && endPos == Wrap(offset + length + TRAILER_LENGTH) <= |data|
    requires CutTx(data, offset, length, endPos).Ok?
    ensures ListFrame(data[offset..]) == Some(length)
  {
    hide DecodeList, RlpFieldsToLegacyTx, ListFrame;
    var dataStart := Wrap(offset + length);
    assert dataStart == offset + length;
    var list := data[offset..dataStart];
    assert list == data[offset..][..length];
    DecodedListFrame(list);
    FrameOfPrefix(data[offset..], length);
  }

  /** The declared length modulo 2^64 is what RlpListLength computes. */
  lemma LengthIsFrame(data: bytes, offset: nat)
    requires offset < |data| <= MAX_LENGTH
    ensures RlpListLength(data, offset).Ok? <==> ListFrame(data[offset..]).Some?
    ensures RlpListLength(data, offset).Ok? ==>
              RlpListLength(data, offset).value == Wrap(ListFrame(data[offset..]).value)
  {
    hide BigEndian;
    var rest, num := data[offset..], data[offset];
    if num > 0xf7 {
      var size := num - 0xf7;
      assert Wrap(offset + 1 + size) == offset + 1 + size;
      if |rest| >= 1 + size {
        assert rest[1..1 + size] == data[offset + 1..offset + 1 + size];
      }
    }
  }

  /** Whatever the declared length, DecodeTxRLP succeeds exactly where a transaction can be read. */
  lemma DecodeTxIsReadTx(data: bytes, offset: nat)
    requires offset < |data| <= MAX_LENGTH
    ensures DecodeTxRLP(data, offset).Ok? <==> ReadTx(data[offset..]).Some?
    ensures DecodeTxRLP(data, offset).Ok? ==>
              var (n, tx) := ReadTx(data[offset..]).value;
              DecodeTxRLP(data, offset).value == (offset + n, tx)
  {
    hide CutTx, ListFrame, RlpListLength, DecodeList;
    LengthIsFrame(data, offset);
    if RlpListLength(data, offset).Ok? {
      var length := RlpListLength(data, offset).value;
      var endPos := Wrap(offset + length + TRAILER_LENGTH);
      if endPos <= |data| {
        if CutTx(data, offset, length, endPos).Ok? {
          CutFindsFrame(data, offset, length, endPos);
        }
        if ListFrame(data[offset..]) == Some(length) {
          CutIsReadTx(data, offset, length, endPos);
        }
      }
    }
  }

  /** The same for a round of DecodeTxs. */
  lemma RoundIsReadTx(data: bytes, pos: nat)
    requires pos < |data| <= MAX_LENGTH
    ensures DecodeTxsRound(data, pos).Next? <==> ReadTx(data[pos..]).Some?
    ensures DecodeTxsRound(data, pos).Next? ==>
              var (n, tx) := ReadTx(data[pos..]).value;
              DecodeTxsRound(data, pos) == Next(pos + n, tx)
    ensures DecodeTxsRound(data, pos).CutOff? ==> data[pos] > 0xf7
  {
    hide CutTx, RlpListLength, DecodeTxRLP, ReadTx;
    DecodeTxIsReadTx(data, pos);
    RoundIsDecodeTx(data, pos);
  }

  lemma RoundIsDecodeTx(data: bytes, pos: nat)
    requires pos < |data| <= MAX_LENGTH
    ensures DecodeTxsRound(data, pos).Next? <==> DecodeTxRLP(data, pos).Ok?
    ensures DecodeTxsRound(data, pos).Next? ==>
              DecodeTxsRound(data, pos) == Next(DecodeTxRLP(data, pos).value.0, DecodeTxRLP(data, pos).value.1)
  {
    hide CutTx, BigEndian, TxsRoundOf;
    var num := data[pos];
    if 0xc0 <= num <= 0xf7 {
      SameCut(data, pos, num - 0xc0);
    } else if num > 0xf7 && Wrap(pos + 1 + num - 0xf7) <= |data| {
      var n := BigEndian(data[pos + 1..pos + 1 + num - 0xf7]);
      WrapBelow(n + num);
      if Wrap(n + num) < 0xf7 {
        WrappedLengthFails(data, pos, Wrap(n + num - 0xf7));
      } else {
        WrapOnce(Wrap(n + num) - 0xf7 + 1);
        SameCut(data, pos, Wrap(n + num) - 0xf7);
      }
    }
  }

  /** Given the same list length, both parsers cut the same transaction. */
  lemma SameCut(data: bytes, pos: nat, length: nat)
    requires pos < |data| <= MAX_LENGTH && length < TWO_64 - 1
    ensures var endPos := Wrap(pos + (length + 1) + TRAILER_LENGTH);
            TxsRoundOf(data, pos, length)
            == if endPos > |data| || endPos < pos then Fail(InvalidData)
               else match CutTx(data, pos, length + 1, endPos)
                    case Err(RlpDecoding) => Fail(InvalidData)
                    case Err(e) => Fail(e)
                    case Ok((next, tx)) => Next(next, tx)
  {
  }

  /** Subtracting 247 after wrapping, and before. */
  lemma WrapBelow(n: nat)
    ensures Wrap(n - 0xf7) == if Wrap(n) < 0xf7 then Wrap(n) + TWO_64 - 0xf7 else Wrap(n) - 0xf7
  {
  }

  /** A list length within 246 of 2^64 is never found. */
  lemma WrappedLengthFails(data: bytes, offset: nat, length: nat)
    requires offset < |data| <= MAX_LENGTH && TWO_64 - 0xf7 <= length < TWO_64
    ensures var endPos := Wrap(offset + Wrap(length + 1) + TRAILER_LENGTH);
            endPos <= |data| ==> CutTx(data, offset, Wrap(length + 1), endPos).Err?
  {
    hide RlpFieldsToLegacyTx;
    WrapOnce(length + 1);
    WrapOnce(offset + Wrap(length + 1));
    assert DecodeList([]).None?;
    assert data[offset..offset] == [];
  }

  /**
    Whatever a header declares beyond the end of the data, a length that overflows 64 bits
    included, neither parser gets a transaction from it.
  */
  lemma LongLengthFails(data: bytes, offset: nat)
    requires offset < |data| <= MAX_LENGTH
    requires ListFrame(data[offset..]).Some? && ListFrame(data[offset..]).value + TRAILER_LENGTH > |data| - offset
    ensures DecodeTxRLP(data, offset).Err? && DecodeTxsRound(data, offset).Fail?
  {
    hide DecodeTxRLP, DecodeTxsRound;
    DecodeTxIsReadTx(data, offset);
    RoundIsReadTx(data, offset);
    RoundCutsOff(data, offset);
  }

  /** The header of a long list whose length bytes run past the end. */
  predicate HeaderCutOff(rest: bytes) {
    |rest| > 0 && rest[0] > 0xf7 && |rest| < 1 + (rest[0] - 0xf7)
  }

  lemma RoundCutsOff(data: bytes, pos: nat)
    requires pos < |data| <= MAX_LENGTH
    ensures DecodeTxsRound(data, pos).CutOff? <==> HeaderCutOff(data[pos..])
  {
    hide CutTx, BigEndian;
    if data[pos] > 0xf7 {
      WrapOnce(pos + 1 + data[pos] - 0xf7);
    }
  }

  // ---------- the format in full ----------

  /** A block header: 0x0b, then two 32-bit numbers, most significant byte first. */
  lemma HeaderLayout(h: ChangeL2BlockHeader)
    ensures var e := EncodeHeader(h);
            |e| == 9 && e[0] == 0x0b && BigEndian(e[1..5]) == h.deltaTimestamp && BigEndian(e[5..9]) == h.indexL1InfoTree
  {
    Widths();
    BigEndianOfFixed(h.deltaTimestamp, 4);
    BigEndianOfFixed(h.indexL1InfoTree, 4);
    hide BigEndian, Fixed;
    var e := EncodeHeader(h);
    assert e[1..5] == Fixed(h.deltaTimestamp, 4) && e[5..9] == Fixed(h.indexL1InfoTree, 4);
  }

  /** A transaction: the list, R, S, V and the percentage; or the bytes it brought along and the percentage. */
  lemma TxLayout(tx: L2TxRaw)
    requires TxFits(tx)
    ensures var e := EncodeTx(tx);
            && |e| >= 1 && e[|e| - 1] == tx.efficiencyPercentage
            && (tx.AlreadyEncoded? ==> e[..|e| - 1] == tx.data)
            && (tx.Plain? ==> e[..|e| - 1] == PrepareRLPTxData(tx.tx))
  {
    hide PrepareRLPTxData;
  }

  /** A header as it is read: two 32-bit numbers, or an error when fewer than eight bytes are left. */
  lemma HeaderMeaning(data: bytes, pos: nat)
    requires pos <= |data|
    ensures |data| - pos < 8 ==> DecodeBlockHeader(data, pos) == Err(InvalidBatchV2)
    ensures |data| - pos >= 8 ==>
              && BigEndian(data[pos..pos + 4]) < 0x1_0000_0000 && BigEndian(data[pos + 4..pos + 8]) < 0x1_0000_0000
              && DecodeBlockHeader(data, pos)
                 == Ok((pos + 8, L2BlockRaw(0, ChangeL2BlockHeader(BigEndian(data[pos..pos + 4]), BigEndian(data[pos + 4..pos + 8])), [])))
  {
    hide BigEndian;
    if |data| - pos >= 8 {
      BigEndianBound(data[pos..pos + 4]);
      BigEndianBound(data[pos + 4..pos + 8]);
      Widths();
    }
  }

  /** The length of a list with its header, from its first bytes. */
  lemma LengthMeaning(data: bytes, offset: nat)
    requires offset < |data| <= 0x7fff_ffff_ffff_ffff
    ensures data[offset] < 0xc0 ==> RlpListLength(data, offset) == Err(InvalidRlp)
    ensures 0xc0 <= data[offset] <= 0xf7 ==> RlpListLength(data, offset) == Ok(data[offset] - 0xbf)
    ensures data[offset] > 0xf7 ==>
              var start, end := offset + 1, offset + 1 + (data[offset] - 0xf7);
              if end > |data| then RlpListLength(data, offset) == Err(InvalidRlp)
              else
                var n := BigEndian(data[start..end]);
                n < 0xffff_ffff_ffff_ff00 ==> RlpListLength(data, offset) == Ok(end - offset + n)
  {
    hide BigEndian;
    if data[offset] > 0xf7 {
      var end := offset + 1 + (data[offset] - 0xf7);
      WrapOnce(end);
      if end <= |data| {
        var n := BigEndian(data[offset + 1..end]);
        if n < 0xffff_ffff_ffff_ff00 {
          WrapOnce(n + data[offset] - 0xf7);
          WrapOnce(n + data[offset] - 0xf7 + 1);
        }
      }
    }
  }

  /** The declared length, as LengthMeaning has it. */
  lemma FrameMeaning(rest: bytes)
    requires |rest| > 0
    ensures rest[0] < 0xc0 ==> ListFrame(rest).None?
    ensures 0xc0 <= rest[0] <= 0xf7 ==> ListFrame(rest) == Some(rest[0] - 0xc0 + 1)
    ensures rest[0] > 0xf7 && |rest| < 1 + (rest[0] - 0xf7) ==> ListFrame(rest).None?
    ensures rest[0] > 0xf7 && |rest| >= 1 + (rest[0] - 0xf7) ==>
              ListFrame(rest) == Some(1 + (rest[0] - 0xf7) + BigEndian(rest[1..1 + (rest[0] - 0xf7)]))
  {
  }

  /** No block is open before the first header, and nothing is skipped. */
  lemma WithoutHeader(data: bytes)
    requires |data| <= MAX_LENGTH
    ensures var r := DecodeBatchFrom(data, 0, [], None);
            && (|data| == 0 ==> r == Ok([]))
            && (|data| > 0 && data[0] != 0x0b ==>
                  && (r == Err(DontStartWithChangeL2Block) <==> ReadTx(data).Some?)
                  && (ReadTx(data).None? ==> r == Err(InvalidBatchV2) || r == Err(SliceOutOfRange)))
  {
    hide DecodeTxRLP, ReadTx;
    if |data| > 0 {
      DecodeTxIsReadTx(data, 0);
      assert data[0..] == data;
    }
  }

  // ---------- the errors ----------

  /** Which error a transaction that cannot be read gives, short of a declared length of 2^62 or more. */
  lemma TxErrors(data: bytes, offset: nat)
    requires offset < |data| <= MAX_LENGTH
    ensures var rest := data[offset..];
            match ListFrame(rest)
            case None => DecodeTxRLP(data, offset) == Err(InvalidRlp)
            case Some(n) =>
              n < 0x4000_0000_0000_0000 ==>
                if n + 66 > |rest| then DecodeTxRLP(data, offset) == Err(InvalidBatchV2)
                else match DecodeList(rest[..n])
                  case None => DecodeTxRLP(data, offset) == Err(RlpDecoding)
                  case Some(fields) => |fields| < 6 ==> DecodeTxRLP(data, offset) == Err(TxTypeNotSupported)
  {
    hide ListFrame, RlpListLength, DecodeList, CutTx;
    LengthIsFrame(data, offset);
    LengthErrors(data, offset);
    var rest := data[offset..];
    if ListFrame(rest).Some? && ListFrame(rest).value < 0x4000_0000_0000_0000 {
      var n := ListFrame(rest).value;
      WrapOnce(n);
      WrapOnce(offset + n);
      WrapOnce(offset + n + TRAILER_LENGTH);
      if n + 66 <= |rest| {
        CutErrors(data, offset, n);
      }
    }
  }

  lemma LengthErrors(data: bytes, offset: nat)
    requires offset < |data| <= MAX_LENGTH
    ensures RlpListLength(data, offset).Err? ==> RlpListLength(data, offset).error == InvalidRlp
  {
    hide BigEndian;
  }

  lemma CutErrors(data: bytes, offset: nat, n: nat)
    requires offset < |data| <= MAX_LENGTH && offset + n + 66 <= |data|
    requires Wrap(offset + n + TRAILER_LENGTH) == offset + n + TRAILER_LENGTH
    ensures match DecodeList(data[offset..][..n])
            case None => CutTx(data, offset, n, offset + n + TRAILER_LENGTH) == Err(RlpDecoding)
            case Some(fields) =>
              |fields| < 6 ==> CutTx(data, offset, n, offset + n + TRAILER_LENGTH) == Err(TxTypeNotSupported)
  {
    hide DecodeList;
    WrapOnce(offset + n);
    assert data[offset..][..n] == data[offset..offset + n];
  }

  /** The same for a round of DecodeTxs: all but an unsupported list is invalid data. */
  lemma RoundErrors(data: bytes, pos: nat)
    requires pos < |data| <= MAX_LENGTH
    ensures var rest := data[pos..];
            match ListFrame(rest)
            case None => DecodeTxsRound(data, pos) == if HeaderCutOff(rest) then CutOff else Fail(InvalidData)
            case Some(n) =>
              n < 0x4000_0000_0000_0000 ==>
                if n + 66 > |rest| then DecodeTxsRound(data, pos) == Fail(InvalidData)
                else match DecodeList(rest[..n])
                  case None => DecodeTxsRound(data, pos) == Fail(InvalidData)
                  case Some(fields) => |fields| < 6 ==> DecodeTxsRound(data, pos) == Fail(TxTypeNotSupported)
  {
    hide BigEndian, DecodeList, CutTx;
    RoundCutsOff(data, pos);
    var rest := data[pos..];
    if ListFrame(rest).Some? && ListFrame(rest).value < 0x4000_0000_0000_0000 {
      var n := ListFrame(rest).value;
      RoundLength(data, pos, n);
      WrapOnce(pos + n + TRAILER_LENGTH);
      if n + 66 <= |rest| {
        CutErrors(data, pos, n);
      }
    }
  }

  lemma RoundLength(data: bytes, pos: nat, n: nat)
    requires pos < |data| <= MAX_LENGTH && ListFrame(data[pos..]) == Some(n) && n < 0x4000_0000_0000_0000
    ensures n >= 1 && DecodeTxsRound(data, pos) == TxsRoundOf(data, pos, n - 1)
  {
    hide TxsRoundOf, BigEndian;
    if data[pos] > 0xf7 {
      var size := data[pos] - 0xf7;
      assert data[pos..][1..1 + size] == data[pos + 1..pos + 1 + size];
      WrapOnce(pos + 1 + size);
      WrapOnce(n - 1 - size + data[pos]);
    }
  }

  /** The 64-bit arithmetic of DecodeTxRLP, wrapping included: where a slice expression is out of range it is a panic. */
  lemma TxArithmetic(data: bytes, offset: nat, length: nat)
    requires offset < |data| <= MAX_LENGTH && RlpListLength(data, offset) == Ok(length)
    ensures var start, end := (offset + length) % 0x1_0000_0000_0000_0000, (offset + length + 66) % 0x1_0000_0000_0000_0000;
            && (end > |data| ==> DecodeTxRLP(data, offset) == Err(InvalidBatchV2))
            && (end <= |data| && (end < offset || start < offset || start > |data|) ==> DecodeTxRLP(data, offset) == Err(SliceOutOfRange))
  {
    hide RlpListLength, DecodeList;
  }

  /** That of DecodeTxs, which notices an end before the start. */
  lemma RoundArithmetic(data: bytes, pos: nat)
    requires pos < |data| <= MAX_LENGTH && data[pos] > 0xf7 && pos + 1 + (data[pos] - 0xf7) <= |data|
    ensures var n := BigEndian(data[pos + 1..pos + 1 + (data[pos] - 0xf7)]);
            var sum := (n + data[pos]) % 0x1_0000_0000_0000_0000;
            var end := (pos + sum - 0xf7 + 67) % 0x1_0000_0000_0000_0000;
            sum < 0xf7 || end > |data| || end < pos ==> DecodeTxsRound(data, pos) == Fail(InvalidData)
  {
    hide BigEndian, CutTx;
    WrapOnce(pos + 1 + (data[pos] - 0xf7));
  }
}
