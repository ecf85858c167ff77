/** What the batch V2 codec guarantees: framing, the round trip, and agreement of its two parsers. */
module BatchV2Theorems {
  import opened Wrappers
  import opened Bytes
  import opened Rlp
  import opened Transactions
  import opened BatchV2

  // ---------- framing ----------

  /** The header of an encoded list declares exactly its length, whatever follows. */
  lemma FrameOfEncoded(fields: seq<bytes>, suffix: bytes)
    requires Encodable(fields)
    ensures ListFrame(EncodeList(fields) + suffix) == Some(|EncodeList(fields)|)
  {
    hide EncodeItems, BigEndian;
    var items := EncodeItems(fields);
    var h := Header(0xc0, |items|);
    assert EncodeList(fields) + suffix == h + (items + suffix);
    ReadOwnHeader(0xc0, |items|, items + suffix);
  }

  /** RLP framing is self-delimiting: at any offset and before any suffix. */
  lemma FramingIsSelfDelimiting(prefix: bytes, fields: seq<bytes>, suffix: bytes)
    requires Encodable(fields)
    requires |prefix| + |EncodeList(fields)| + |suffix| <= MAX_LENGTH
    ensures |EncodeList(fields)| > 0
    ensures RlpListLength(prefix + EncodeList(fields) + suffix, |prefix|) == Ok(|EncodeList(fields)|)
  {
    hide EncodeList, RlpListLength, ListFrame;
    var list := EncodeList(fields);
    var data := prefix + list + suffix;
    FrameOfEncoded(fields, suffix);
    EncodedListIsNotEmpty(fields);
    assert data[|prefix|..] == list + suffix;
    LengthIsFrame(data, |prefix|);
    WrapOnce(|list|);
  }

  lemma EncodedListIsNotEmpty(fields: seq<bytes>)
    requires Encodable(fields)
    ensures |EncodeList(fields)| > 0
  {
  }

  // ---------- the round trip ----------

  predicate AllPlain(blocks: seq<L2BlockRaw>) {
    forall i: nat | i < |blocks| :: TxsPlain(blocks[i].transactions)
  }

  predicate TxsPlain(txs: seq<L2TxRaw>) {
    forall i: nat | i < |txs| :: txs[i].Plain?
  }

  predicate TxsValid(txs: seq<L2TxRaw>) {
    forall i: nat | i < |txs| :: txs[i].Plain? && ValidV(txs[i].tx.v)
  }

  predicate AllValid(blocks: seq<L2BlockRaw>) {
    forall i: nat | i < |blocks| :: TxsValid(blocks[i].transactions)
  }

  /** A transaction with the V that decoding recovers. */
  function RecoveredTx(tx: L2TxRaw): L2TxRaw {
    if tx.Plain? then Plain(tx.tx.(v := RecoveredV(tx.tx.v)), tx.efficiencyPercentage) else tx
  }

  function RecoveredTxs(txs: seq<L2TxRaw>): (r: seq<L2TxRaw>)
    ensures |r| == |txs|
  {
    seq(|txs|, i requires 0 <= i < |txs| => RecoveredTx(txs[i]))
  }

  /** The block as decoding returns it: block numbers are not part of the format. */
  function RecoveredBlock(block: L2BlockRaw): L2BlockRaw {
    L2BlockRaw(0, block.header, RecoveredTxs(block.transactions))
  }

  function RecoveredBlocks(blocks: seq<L2BlockRaw>): seq<L2BlockRaw> {
    seq(|blocks|, i requires 0 <= i < |blocks| => RecoveredBlock(blocks[i]))
  }

  function WithoutNumbers(blocks: seq<L2BlockRaw>): seq<L2BlockRaw> {
    seq(|blocks|, i requires 0 <= i < |blocks| => blocks[i].(blockNumber := 0))
  }

  /** Reading the parts of a transaction off their concatenation. */
  lemma ReadParts(list: bytes, r: bytes, s: bytes, v: Byte, percentage: Byte, rest: bytes, fields: seq<bytes>)
    requires |r| == |s| == 32
    requires ListFrame(list + (r + s + [v, percentage] + rest)) == Some(|list|)
    requires DecodeList(list) == Some(fields)
    requires RlpFieldsToLegacyTx(fields, [v], r, s).Ok?
    ensures ReadTx(list + (r + s + [v, percentage] + rest))
         == Some((|list| + TRAILER_LENGTH, Plain(RlpFieldsToLegacyTx(fields, [v], r, s).value, percentage)))
  {
    hide ListFrame, DecodeList, RlpFieldsToLegacyTx;
    var n, all := |list|, list + (r + s + [v, percentage] + rest);
    assert all[..n] == list && all[n..n + 32] == r && all[n + 32..n + 64] == s;
    assert all[n + 64..n + 65] == [v] && all[n + 65] == percentage;
  }

  /** One transaction read back, whatever follows it. */
  lemma ReadOwnTx(tx: L2TxRaw, rest: bytes)
    requires tx.Plain? && TxFits(tx)
    ensures ReadTx(EncodeTx(tx) + rest) == Some((|EncodeTx(tx)|, RecoveredTx(tx)))
  {
    hide EncodeList, ListFrame, DecodeList, RlpFieldsToLegacyTx, TxFields, Fixed, ParityV, RecoveredV, ReadTx, Encodable;
    var fields, legacy := TxFields(tx.tx), tx.tx;
    var list, r, s, v := EncodeList(fields), Fixed(legacy.r, 32), Fixed(legacy.s, 32), ParityV(legacy.v);
    var tail := r + s + [v, tx.efficiencyPercentage] + rest;
    assert EncodeTx(tx) == list + r + s + [v] + [tx.efficiencyPercentage];
    assert EncodeTx(tx) + rest == list + tail;
    FrameOfEncoded(fields, tail);
    DecodeIffEncoded(list, fields);
    TxSurvives(legacy);
    ReadParts(list, r, s, v, tx.efficiencyPercentage, rest, fields);
  }

  lemma ReadOwnHeaderBytes(h: ChangeL2BlockHeader, rest: bytes)
    ensures DecodeBlockHeader(EncodeHeader(h) + rest, 1) == Ok((HEADER_LENGTH, L2BlockRaw(0, h, [])))
  {
    hide BigEndian, Fixed;
    var all := EncodeHeader(h) + rest;
    var delta, index := Fixed(h.deltaTimestamp, SIZE_UINT32), Fixed(h.indexL1InfoTree, SIZE_UINT32);
    assert all[1..5] == delta && all[5..9] == index;
    assert Pow256(SIZE_UINT32) == 0x1_0000_0000;
    BigEndianOfFixed(h.deltaTimestamp, SIZE_UINT32);
    BigEndianOfFixed(h.indexL1InfoTree, SIZE_UINT32);
  }

  lemma RecoveredTxsCons(txs: seq<L2TxRaw>)
    ensures |txs| > 0 ==> RecoveredTxs(txs) == [RecoveredTx(txs[0])] + RecoveredTxs(txs[1..])
    ensures |txs| == 0 ==> RecoveredTxs(txs) == []
  {
  }

  lemma ReadBlocksOfTx(all: bytes, tx: L2TxRaw, others: bytes, open: L2BlockRaw)
    requires tx.Plain? && TxFits(tx) && all == EncodeTx(tx) + others
    ensures ReadBlocks(all, open) == ReadBlocks(others, WithTx(open, RecoveredTx(tx)))
  {
    hide ReadTx, EncodeTx, DecodeBlockHeader, RecoveredTx;
    ReadOwnTx(tx, others);
    assert all[|EncodeTx(tx)|..] == others;
  }

  /** The transactions of the open block read back. */
  lemma {:induction false} ReadOwnTxs(txs: seq<L2TxRaw>, rest: bytes, open: L2BlockRaw)
    requires TxsPlain(txs) && TxsFit(txs)
    ensures ReadBlocks(EncodeTxs(txs) + rest, open)
         == ReadBlocks(rest, open.(transactions := open.transactions + RecoveredTxs(txs)))
    decreases |txs|
  {
    hide ReadBlocks, EncodeTx, RecoveredTxs;
    RecoveredTxsCons(txs);
    if |txs| == 0 {
      assert EncodeTxs(txs) + rest == rest;
      assert open.transactions + RecoveredTxs(txs) == open.transactions;
    } else {
      var first, others := EncodeTx(txs[0]), EncodeTxs(txs[1..]) + rest;
      var all := EncodeTxs(txs) + rest;
      assert all == first + others;
      ReadBlocksOfTx(all, txs[0], others, open);
      var next := WithTx(open, RecoveredTx(txs[0]));
      ReadOwnTxs(txs[1..], rest, next);
      assert next.transactions + RecoveredTxs(txs[1..]) == open.transactions + RecoveredTxs(txs);
    }
  }

  lemma {:induction false} ReadOwnBlocks(blocks: seq<L2BlockRaw>, open: L2BlockRaw)
    requires AllPlain(blocks) && BlocksFit(blocks)
    ensures ReadBlocks(EncodeBlocks(blocks), open) == Some([open] + RecoveredBlocks(blocks))
    decreases |blocks|
  {
    hide ReadTx, EncodeTxs, EncodeHeader, DecodeBlockHeader, RecoveredTxs;
    if |blocks| == 0 {
      assert [open] + RecoveredBlocks(blocks) == [open];
    } else {
      var header, body := EncodeHeader(blocks[0].header), EncodeTxs(blocks[0].transactions);
      var others := EncodeBlocks(blocks[1..]);
      var all := EncodeBlocks(blocks);
      assert all == header + (body + others);
      ReadOwnHeaderBytes(blocks[0].header, body + others);
      HeaderStarts(blocks[0].header);
      assert all[HEADER_LENGTH..] == body + others;
      var block := L2BlockRaw(0, blocks[0].header, []);
      ReadOwnTxs(blocks[0].transactions, others, block);
      assert [] + RecoveredTxs(blocks[0].transactions) == RecoveredTxs(blocks[0].transactions);
      ReadOwnBlocks(blocks[1..], RecoveredBlock(blocks[0]));
      assert RecoveredBlocks(blocks) == [RecoveredBlock(blocks[0])] + RecoveredBlocks(blocks[1..]);
    }
  }

  lemma HeaderStarts(h: ChangeL2BlockHeader)
    ensures EncodeHeader(h)[0] == CHANGE_L2_BLOCK
  {
  }

  /** Inside a block, DecodeBatchV2 is ReadBlocks: same blocks, and no result exactly when it errs. */
  lemma {:induction false} DecodeIsReadBlocks(
      data: bytes, pos: nat, rest: bytes, blocks: seq<L2BlockRaw>, open: L2BlockRaw)
    requires pos <= |data| <= MAX_LENGTH && rest == data[pos..]
    ensures DecodeBatchFrom(data, pos, blocks, Some(open)).Ok? <==> ReadBlocks(rest, open).Some?
    ensures ReadBlocks(rest, open).Some? ==>
              DecodeBatchFrom(data, pos, blocks, Some(open)) == Ok(blocks + ReadBlocks(rest, open).value)
    decreases |data| - pos
  {
    hide ReadTx, DecodeTxRLP, DecodeBlockHeader;
    if pos == |data| {
    } else if data[pos] == CHANGE_L2_BLOCK {
      HeaderAtOffset(data, pos);
      if DecodeBlockHeader(data, pos + 1).Ok? {
        var (next, block) := DecodeBlockHeader(data, pos + 1).value;
        assert rest[HEADER_LENGTH..] == data[next..];
        DecodeIsReadBlocks(data, next, rest[HEADER_LENGTH..], blocks + [open], block);
        if ReadBlocks(data[next..], block).Some? {
          var more := ReadBlocks(data[next..], block).value;
          assert blocks + [open] + more == blocks + ([open] + more);
        }
      }
    } else {
      DecodeTxIsReadTx(data, pos);
      if ReadTx(rest).Some? {
        var (n, tx) := ReadTx(rest).value;
        assert rest[n..] == data[pos + n..];
        DecodeIsReadBlocks(data, pos + n, rest[n..], blocks, WithTx(open, tx));
      }
    }
  }

  lemma HeaderAtOffset(data: bytes, pos: nat)
    requires pos < |data|
    ensures DecodeBlockHeader(data, pos + 1).Ok? <==> DecodeBlockHeader(data[pos..], 1).Ok?
    ensures DecodeBlockHeader(data, pos + 1).Ok? ==>
              && DecodeBlockHeader(data, pos + 1).value.0 == pos + HEADER_LENGTH
              && DecodeBlockHeader(data, pos + 1).value.1 == DecodeBlockHeader(data[pos..], 1).value.1
  {
    hide BigEndian;
    if pos + HEADER_LENGTH <= |data| {
      var rest := data[pos..];
      assert rest[1..5] == data[pos + 1..pos + 5] && rest[5..9] == data[pos + 5..pos + 9];
    }
  }

  /** A batch that starts with a header decodes as what follows it, with that block open. */
  lemma DecodeAfterHeader(h: ChangeL2BlockHeader, t: bytes)
    requires HEADER_LENGTH + |t| <= MAX_LENGTH
    ensures DecodeBatchFrom(EncodeHeader(h) + t, 0, [], None)
         == DecodeBatchFrom(EncodeHeader(h) + t, HEADER_LENGTH, [], Some(L2BlockRaw(0, h, [])))
    ensures (EncodeHeader(h) + t)[HEADER_LENGTH..] == t
  {
    hide DecodeBlockHeader, DecodeTxRLP, EncodeHeader;
    HeaderStarts(h);
    ReadOwnHeaderBytes(h, t);
  }

  /** Decoding what was encoded: every block in order, up to the block number and an invalid V. */
  lemma DecodeOfEncode(blocks: seq<L2BlockRaw>)
    requires |blocks| > 0 && AllPlain(blocks) && BlocksFit(blocks)
    requires |EncodeBlocks(blocks)| <= MAX_LENGTH
    ensures DecodeBatchFrom(EncodeBlocks(blocks), 0, [], None) == Ok(RecoveredBlocks(blocks))
  {
    hide EncodeTxs, EncodeHeader, ReadBlocks, DecodeBatchFrom;
    var data := EncodeBlocks(blocks);
    var header := EncodeHeader(blocks[0].header);
    var rest := EncodeTxs(blocks[0].transactions) + EncodeBlocks(blocks[1..]);
    assert data == header + rest;
    DecodeAfterHeader(blocks[0].header, rest);
    var block := L2BlockRaw(0, blocks[0].header, []);
    DecodeIsReadBlocks(data, HEADER_LENGTH, rest, [], block);
    ReadOwnTxs(blocks[0].transactions, EncodeBlocks(blocks[1..]), block);
    assert [] + RecoveredTxs(blocks[0].transactions) == RecoveredTxs(blocks[0].transactions);
    ReadOwnBlocks(blocks[1..], RecoveredBlock(blocks[0]));
    assert RecoveredBlocks(blocks) == [RecoveredBlock(blocks[0])] + RecoveredBlocks(blocks[1..]);
    assert [] + RecoveredBlocks(blocks) == RecoveredBlocks(blocks);
  }

  /**
    Decoding undoes encoding, exactly when every V is one a signature can have: headers,
    transactions and efficiency percentages come back in order, with block number 0.
  */
  lemma DecodeUndoesEncodeIff(blocks: seq<L2BlockRaw>)
    requires |blocks| > 0 && AllPlain(blocks) && BlocksFit(blocks)
    requires |EncodeBlocks(blocks)| <= MAX_LENGTH
    ensures DecodeBatchFrom(EncodeBlocks(blocks), 0, [], None) == Ok(WithoutNumbers(blocks)) <==> AllValid(blocks)
  {
    hide EncodeBlocks, DecodeBatchFrom;
    DecodeOfEncode(blocks);
    if AllValid(blocks) {
      forall i: nat | i < |blocks|
        ensures RecoveredBlocks(blocks)[i] == WithoutNumbers(blocks)[i]
      {
        assert TxsValid(blocks[i].transactions);
        assert RecoveredTxs(blocks[i].transactions) == blocks[i].transactions;
      }
      assert RecoveredBlocks(blocks) == WithoutNumbers(blocks);
    } else {
      var i: nat :| i < |blocks| && !TxsValid(blocks[i].transactions);
      var txs := blocks[i].transactions;
      assert TxsPlain(txs);
      var k: nat :| k < |txs| && !ValidV(txs[k].tx.v);
      assert RecoveredTxs(txs)[k].tx.v != txs[k].tx.v;
      assert RecoveredBlocks(blocks)[i].transactions != WithoutNumbers(blocks)[i].transactions;
    }
  }

  // ---------- any batch ----------

  /** A batch that starts with a block header is read as the grammar says, its first header included. */
  lemma DecodeFromHeader(data: bytes)
    requires HEADER_LENGTH <= |data| <= MAX_LENGTH && data[0] == 0x0b
    ensures BigEndian(data[1..5]) < 0x1_0000_0000 && BigEndian(data[5..9]) < 0x1_0000_0000
    ensures var open := L2BlockRaw(0, ChangeL2BlockHeader(BigEndian(data[1..5]), BigEndian(data[5..9])), []);
            var r := DecodeBatchFrom(data, 0, [], None);
            && (r.Ok? <==> ReadBlocks(data[9..], open).Some?)
            && (r.Ok? ==> r.value == ReadBlocks(data[9..], open).value)
  {
    hide BigEndian, ReadBlocks, DecodeBlockHeader;
    HeaderMeaning(data, 1);
    var open := DecodeBlockHeader(data, 1).value.1;
    DecodeIsReadBlocks(data, HEADER_LENGTH, data[9..], [], open);
    if ReadBlocks(data[9..], open).Some? {
      assert [] + ReadBlocks(data[9..], open).value == ReadBlocks(data[9..], open).value;
    }
  }

  /** A header cut short at the start of a batch. */
  lemma ShortHeaderIsInvalid(data: bytes)
    requires 0 < |data| < HEADER_LENGTH && data[0] == 0x0b
    ensures DecodeBatchFrom(data, 0, [], None) == Err(InvalidBatchV2)
  {
    HeaderMeaning(data, 1);
    hide DecodeBlockHeader;
  }

  /** The error is that of a header cut short, or of the transaction that cannot be read. */
  ghost predicate FailsAt(data: bytes, p: nat, e: CodecError)
    requires |data| <= MAX_LENGTH
  {
    && p < |data|
    && (data[p] == 0x0b ==> |data| - p < 9 && e == InvalidBatchV2)
    && (data[p] != 0x0b ==> DecodeTxRLP(data, p) == Err(e))
  }

  /** Once a block is open, an error is that of some place in the batch that cannot be read. */
  lemma {:induction false} ErrorsHaveAPlace(data: bytes, pos: nat, blocks: seq<L2BlockRaw>, open: L2BlockRaw)
    requires pos <= |data| <= MAX_LENGTH
    ensures var r := DecodeBatchFrom(data, pos, blocks, Some(open));
            r.Err? ==> exists p: nat :: pos <= p && FailsAt(data, p, r.error)
    decreases |data| - pos
  {
    hide DecodeTxRLP, DecodeBlockHeader;
    if pos < |data| {
      if data[pos] == CHANGE_L2_BLOCK {
        HeaderMeaning(data, pos + 1);
        if DecodeBlockHeader(data, pos + 1).Ok? {
          ErrorsHaveAPlace(data, pos + 9, blocks + [open], DecodeBlockHeader(data, pos + 1).value.1);
        } else {
          assert FailsAt(data, pos, InvalidBatchV2);
        }
      } else if DecodeTxRLP(data, pos).Ok? {
        var (next, tx) := DecodeTxRLP(data, pos).value;
        ErrorsHaveAPlace(data, next, blocks, WithTx(open, tx));
      } else {
        assert FailsAt(data, pos, DecodeTxRLP(data, pos).error);
      }
    }
  }

  // ---------- the two parsers ----------

  /** DecodeTxs reads all transactions, errs, or has met a cut-off header and returns none. */
  lemma {:induction false} DecodeTxsIsReadTxs(data: bytes, pos: nat, rest: bytes, txs: seq<L2TxRaw>)
    requires pos <= |data| <= MAX_LENGTH && rest == data[pos..]
    ensures ReadTxs(rest).Some? ==> DecodeTxsFrom(data, pos, txs) == Ok(txs + ReadTxs(rest).value)
    ensures ReadTxs(rest).None? ==> DecodeTxsFrom(data, pos, txs).Err? || DecodeTxsFrom(data, pos, txs) == Ok([])
    decreases |data| - pos
  {
    hide ReadTx, DecodeTxsRound;
    if pos == |data| {
      assert txs + [] == txs;
    } else {
      RoundIsReadTx(data, pos);
      if ReadTx(rest).Some? {
        var (n, tx) := ReadTx(rest).value;
        assert rest[n..] == data[pos + n..];
        DecodeTxsIsReadTxs(data, pos + n, rest[n..], txs + [tx]);
        if ReadTxs(rest[n..]).Some? {
          var more := ReadTxs(rest[n..]).value;
          assert txs + [tx] + more == txs + ([tx] + more);
        }
      }
    }
  }

  /** Reading blocks from an open one gives that block alone exactly when only transactions follow. */
  lemma {:induction false} OneBlockIffOnlyTxs(rest: bytes, open: L2BlockRaw)
    ensures ReadTxs(rest).Some? ==>
              ReadBlocks(rest, open) == Some([open.(transactions := open.transactions + ReadTxs(rest).value)])
    ensures ReadTxs(rest).None? ==> ReadBlocks(rest, open).None? || |ReadBlocks(rest, open).value| >= 2
    decreases |rest|
  {
    hide ReadTx, DecodeBlockHeader;
    if |rest| == 0 {
      assert open.transactions + [] == open.transactions;
    } else if rest[0] == CHANGE_L2_BLOCK {
      if DecodeBlockHeader(rest, 1).Ok? {
        AtLeastOneBlock(rest[HEADER_LENGTH..], DecodeBlockHeader(rest, 1).value.1);
      }
    } else if ReadTx(rest).Some? {
      var (n, tx) := ReadTx(rest).value;
      OneBlockIffOnlyTxs(rest[n..], WithTx(open, tx));
      if ReadTxs(rest[n..]).Some? {
        var more := ReadTxs(rest[n..]).value;
        assert open.transactions + [tx] + more == open.transactions + ([tx] + more);
      }
    }
  }

  lemma {:induction false} AtLeastOneBlock(rest: bytes, open: L2BlockRaw)
    ensures ReadBlocks(rest, open).Some? ==> |ReadBlocks(rest, open).value| >= 1
    decreases |rest|
  {
    hide ReadTx, DecodeBlockHeader;
    if |rest| > 0 && rest[0] != CHANGE_L2_BLOCK && ReadTx(rest).Some? {
      var (n, tx) := ReadTx(rest).value;
      AtLeastOneBlock(rest[n..], WithTx(open, tx));
    }
  }

  /**
    The two parsers agree: a forced batch yields a non-empty list of transactions exactly when
    the same bytes after a block header yield one block with that list. No condition on the
    declared lengths is needed: where they overflow neither parser succeeds.
  */
  lemma ParsersAgree(h: ChangeL2BlockHeader, t: bytes, txs: seq<L2TxRaw>)
    requires HEADER_LENGTH + |t| <= MAX_LENGTH && |txs| > 0
    ensures DecodeTxsFrom(t, 0, []) == Ok(txs)
       <==> DecodeBatchFrom(EncodeHeader(h) + t, 0, [], None) == Ok([L2BlockRaw(0, h, txs)])
  {
    hide DecodeTxsFrom, DecodeBatchFrom, ReadBlocks, ReadTxs, EncodeHeader;
    var open := L2BlockRaw(0, h, []);
    assert t == t[0..];
    DecodeTxsIsReadTxs(t, 0, t, []);
    DecodeAfterHeader(h, t);
    DecodeIsReadBlocks(EncodeHeader(h) + t, HEADER_LENGTH, t, [], open);
    OneBlockIffOnlyTxs(t, open);
    if ReadTxs(t).Some? {
      assert [] + ReadTxs(t).value == ReadTxs(t).value;
    }
    if ReadBlocks(t, open).Some? {
      assert [] + ReadBlocks(t, open).value == ReadBlocks(t, open).value;
    }
  }

  // ---------- where they part ----------

  /** Readable transactions, and then a long list header cut off at the end. */
  predicate EndsCutOff(rest: bytes)
    decreases |rest|
  {
    HeaderCutOff(rest) || (|rest| > 0 && ReadTx(rest).Some? && EndsCutOff(rest[ReadTx(rest).value.0..]))
  }

  lemma {:induction false} SilentFrom(data: bytes, pos: nat, rest: bytes, txs: seq<L2TxRaw>)
    requires pos <= |data| <= MAX_LENGTH && rest == data[pos..]
    ensures EndsCutOff(rest) ==> DecodeTxsFrom(data, pos, txs) == Ok([])
    ensures !EndsCutOff(rest) && |rest| + |txs| > 0 ==> DecodeTxsFrom(data, pos, txs) != Ok([])
    decreases |data| - pos
  {
    hide ReadTx, DecodeTxsRound, HeaderCutOff;
    if pos == |data| {
      NothingIsCutOff(rest);
    } else {
      RoundIsReadTx(data, pos);
      RoundCutsOff(data, pos);
      if ReadTx(rest).Some? {
        var (n, tx) := ReadTx(rest).value;
        assert rest[n..] == data[pos + n..];
        SilentFrom(data, pos + n, rest[n..], txs + [tx]);
      }
    }
  }

  lemma NothingIsCutOff(rest: bytes)
    requires |rest| == 0
    ensures !EndsCutOff(rest)
  {
  }

  /**
    Exactly when DecodeTxs reports neither an error nor a transaction: on no bytes, and on readable
    transactions, all of them lost, followed by a long list header whose length bytes are missing.
  */
  lemma SilentIffCutOff(t: bytes)
    requires |t| <= MAX_LENGTH
    ensures DecodeTxsFrom(t, 0, []) == Ok([]) <==> |t| == 0 || EndsCutOff(t)
  {
    hide DecodeTxsFrom, EndsCutOff;
    assert t == t[0..];
    SilentFrom(t, 0, t, []);
    if |t| == 0 {
      NothingIsDecoded(t);
    }
  }

  lemma NothingIsDecoded(t: bytes)
    requires |t| == 0
    ensures DecodeTxsFrom(t, 0, []) == Ok([])
  {
  }

  lemma {:induction false} CutOffIsUnreadable(rest: bytes)
    requires EndsCutOff(rest)
    ensures ReadTxs(rest).None?
    decreases |rest|
  {
    hide ListFrame;
    if HeaderCutOff(rest) {
      HeaderIsUnreadable(rest);
    } else {
      CutOffIsUnreadable(rest[ReadTx(rest).value.0..]);
    }
  }

  lemma HeaderIsUnreadable(rest: bytes)
    requires HeaderCutOff(rest)
    ensures ReadTx(rest).None?
  {
  }

  /** On the same bytes after a block header DecodeBatchV2 never finds a block of transactions alone. */
  lemma CutOffIsNoBlock(h: ChangeL2BlockHeader, t: bytes, txs: seq<L2TxRaw>)
    requires HEADER_LENGTH + |t| <= MAX_LENGTH && EndsCutOff(t)
    ensures DecodeBatchFrom(EncodeHeader(h) + t, 0, [], None) != Ok([L2BlockRaw(0, h, txs)])
  {
    hide DecodeTxsFrom, DecodeBatchFrom, ReadBlocks, EncodeHeader, ReadTx, EndsCutOff;
    var open := L2BlockRaw(0, h, []);
    CutOffIsUnreadable(t);
    DecodeAfterHeader(h, t);
    DecodeIsReadBlocks(EncodeHeader(h) + t, HEADER_LENGTH, t, [], open);
    OneBlockIffOnlyTxs(t, open);
    if ReadBlocks(t, open).Some? {
      assert [] + ReadBlocks(t, open).value == ReadBlocks(t, open).value;
    }
  }

  /**
    Bytes that are not empty but yield no forced transactions and no error
    never yield a block without transactions.
  */
  lemma EmptyForcedBatchIsNoBlock(h: ChangeL2BlockHeader, t: bytes)
    requires HEADER_LENGTH + |t| <= MAX_LENGTH && DecodeTxsFrom(t, 0, []) == Ok([])
    ensures DecodeBatchFrom(EncodeHeader(h) + t, 0, [], None) == Ok([L2BlockRaw(0, h, [])]) <==> |t| == 0
  {
    hide DecodeTxsFrom, DecodeBatchFrom, ReadBlocks, EncodeHeader, ReadTx;
    var open := L2BlockRaw(0, h, []);
    assert t == t[0..];
    DecodeTxsIsReadTxs(t, 0, t, []);
    DecodeAfterHeader(h, t);
    DecodeIsReadBlocks(EncodeHeader(h) + t, HEADER_LENGTH, t, [], open);
    OneBlockIffOnlyTxs(t, open);
    if ReadBlocks(t, open).Some? {
      assert [] + ReadBlocks(t, open).value == ReadBlocks(t, open).value;
    }
  }

  /** Such bytes exist: a long-list header cut off right after its first byte. */
  lemma CutOffHeaderIsSilent(h: ChangeL2BlockHeader)
    ensures DecodeTxsFrom([0xf8], 0, []) == Ok([])
    ensures DecodeBatchFrom(EncodeHeader(h) + [0xf8], 0, [], None).Err?
  {
  }
}
