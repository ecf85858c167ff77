/**
  Legacy transactions as the batch formats carry them (state/helper.go): an RLP list of the
  unsigned fields, then R, S and a one-byte V, with EIP-155 chain ids folded in and out of V.
*/
module Transactions {
  import opened Wrappers
  import opened Bytes
  import opened Rlp

  type Uint64 = n: nat | n < TWO_64
  type Word256 = n: nat | n < 0x1_0000_0000_0000_0000_0000_0000_0000_0000_0000_0000_0000_0000_0000_0000_0000_0000

  /** A 20-byte address, as the number its bytes spell. */
  type Address = n: nat | n < 0x1_0000_0000_0000_0000_0000_0000_0000_0000_0000_0000

  datatype LegacyTx = LegacyTx(nonce: Uint64, gasPrice: nat, gas: Uint64, to: Option<Address>, value: nat,
                               data: bytes, v: nat, r: Word256, s: Word256)

  datatype CodecError =
    | DontStartWithChangeL2Block
    | InvalidBatchV2
    | InvalidRlp
    | InvalidData
    | RlpDecoding
    | TxTypeNotSupported
    | SliceOutOfRange  // a run-time panic in the source

  const ADDRESS_MODULUS: nat := 0x1_0000_0000_0000_0000_0000_0000_0000_0000_0000_0000

  /** Transaction.ChainId of a legacy transaction: derived from V, in 64 bits when V fits. */
  function ChainId(v: nat): nat {
    if v < TWO_64 then
      if v == 27 || v == 28 then 0 else ((v + TWO_64 - 35) % TWO_64) / 2
    else (v - 35) / 2
  }

  predicate IsPreEIP155Tx(tx: LegacyTx) {
    ChainId(tx.v) % TWO_64 == 0 && (tx.v % TWO_64 == 27 || tx.v % TWO_64 == 28)
  }

  /** V values a signature can have: 27 or 28 before EIP-155, 35 + 2 * chain id + parity since. */
  predicate ValidV(v: nat) {
    v == 27 || v == 28 || v >= 35
  }

  function ToField(to: Option<Address>): bytes {
    match to
    case None => []
    case Some(address) => Fixed(address, 20)
  }

  function TxFields(tx: LegacyTx): seq<bytes> {
    [Minimal(tx.nonce), Minimal(tx.gasPrice), Minimal(tx.gas), ToField(tx.to), Minimal(tx.value), tx.data]
    + if IsPreEIP155Tx(tx) then [] else [Minimal(ChainId(tx.v)), [], []]
  }

  /** The one-byte V of the batch format: 27 plus the parity, which is 1 for even V. */
  function ParityV(v: nat): Byte {
    27 + (1 - v % TWO_64 % 2)
  }

  function PrepareRLPTxData(tx: LegacyTx): bytes
    requires Encodable(TxFields(tx))
  {
    EncodeList(TxFields(tx)) + Fixed(tx.r, 32) + Fixed(tx.s, 32) + [ParityV(tx.v)]
  }

  function RlpFieldsToLegacyTx(fields: seq<bytes>, v: bytes, r: bytes, s: bytes): Result<LegacyTx, CodecError>
    requires |v| == 1 && |r| == |s| == 32
  {
    if |fields| < 6 then Err(TxTypeNotSupported)
    else
      var to := if |fields[3]| == 0 then None else Some(BigEndian(fields[3]) % ADDRESS_MODULUS);
      var txV := if |fields| < 7 then BigEndian(v) else BigEndian(v) - 27 + (2 * BigEndian(fields[6]) + 35);
      WordOf(r);
      WordOf(s);
      SmallV(v);
      Ok(LegacyTx(BigEndian(fields[0]) % TWO_64, BigEndian(fields[1]), BigEndian(fields[2]) % TWO_64, to,
                  BigEndian(fields[4]), fields[5], txV, BigEndian(r), BigEndian(s)))
  }

  lemma SmallV(v: bytes)
    requires |v| == 1
    ensures BigEndian(v) == v[0]
  {
  }

  lemma Pow256Of32()
    ensures Pow256(20) == ADDRESS_MODULUS
    ensures Pow256(32) == 0x1_0000_0000_0000_0000_0000_0000_0000_0000_0000_0000_0000_0000_0000_0000_0000_0000
  {
    assert Pow256(4) == 0x1_0000_0000;
    assert Pow256(8) == 0x1_0000_0000 * 0x1_0000_0000;
    assert Pow256(12) == 0x1_0000_0000 * Pow256(8);
    assert Pow256(16) == 0x1_0000_0000 * Pow256(12);
    assert Pow256(20) == 0x1_0000_0000 * Pow256(16);
    assert Pow256(24) == 0x1_0000_0000 * Pow256(20);
    assert Pow256(28) == 0x1_0000_0000 * Pow256(24);
  }

  lemma WordOf(bs: bytes)
    requires |bs| == 32
    ensures BigEndian(bs) < 0x1_0000_0000_0000_0000_0000_0000_0000_0000_0000_0000_0000_0000_0000_0000_0000_0000
  {
    BigEndianBound(bs);
    Pow256Of32();
  }

  /** The V that comes back: V itself when valid, otherwise V plus 2^64. */
  function RecoveredV(v: nat): nat {
    if ValidV(v) then v else v + TWO_64
  }

  /** EIP-155 arithmetic: the derived chain id and the parity rebuild V. */
  lemma VFromChainId(v: nat)
    ensures v != 27 && v != 28 ==> ParityV(v) - 27 + (2 * ChainId(v) + 35) == RecoveredV(v)
    ensures v == 27 || v == 28 ==> ParityV(v) == v
  {
    assert v % TWO_64 % 2 == v % 2;
    if v < TWO_64 {
      if v < 35 {
        assert (v + TWO_64 - 35) % TWO_64 == v + TWO_64 - 35;
      } else {
        assert (v + TWO_64 - 35) % TWO_64 == v - 35;
      }
    }
  }

  /** Only 27 and 28 are taken for pre-EIP-155 values, whatever the size of V. */
  lemma PreEIP155Iff(tx: LegacyTx)
    ensures IsPreEIP155Tx(tx) <==> tx.v == 27 || tx.v == 28
  {
  }

  /** Each field read back from its own encoding. */
  lemma FieldsReadBack(tx: LegacyTx)
    ensures BigEndian(Minimal(tx.nonce)) == tx.nonce && BigEndian(Minimal(tx.gasPrice)) == tx.gasPrice
    ensures BigEndian(Minimal(tx.gas)) == tx.gas && BigEndian(Minimal(tx.value)) == tx.value
    ensures BigEndian(Minimal(ChainId(tx.v))) == ChainId(tx.v)
    ensures BigEndian(Fixed(tx.r, 32)) == tx.r && BigEndian(Fixed(tx.s, 32)) == tx.s
    ensures tx.to.Some? ==> BigEndian(Fixed(tx.to.value, 20)) == tx.to.value
  {
    BigEndianOfMinimal(tx.nonce);
    BigEndianOfMinimal(tx.gasPrice);
    BigEndianOfMinimal(tx.gas);
    BigEndianOfMinimal(tx.value);
    BigEndianOfMinimal(ChainId(tx.v));
    Pow256Of32();
    BigEndianOfFixed(tx.r, 32);
    BigEndianOfFixed(tx.s, 32);
    if tx.to.Some? {
      BigEndianOfFixed(tx.to.value, 20);
    }
  }

  /** A transaction survives encoding into fields and back, except for an invalid V. */
  lemma TxSurvives(tx: LegacyTx)
    ensures RlpFieldsToLegacyTx(TxFields(tx), [ParityV(tx.v)], Fixed(tx.r, 32), Fixed(tx.s, 32))
         == Ok(tx.(v := RecoveredV(tx.v)))
  {
    hide BigEndian, Minimal, Fixed, ChainId, ParityV;
    FieldsReadBack(tx);
    PreEIP155Iff(tx);
    VFromChainId(tx.v);
    SmallV([ParityV(tx.v)]);
  }

  /** Exactly when: V comes back unchanged if and only if it is a value a signature can have. */
  lemma TxSurvivesIff(tx: LegacyTx)
    ensures RlpFieldsToLegacyTx(TxFields(tx), [ParityV(tx.v)], Fixed(tx.r, 32), Fixed(tx.s, 32)) == Ok(tx)
       <==> ValidV(tx.v)
  {
    TxSurvives(tx);
  }

  // ---------- the fields in full ----------

  /**
    The signing payload: nonce, gas price, gas, recipient, value and data, and from EIP-155 on the
    chain id and two empty strings. Numbers are big-endian without leading zero.
  */
  lemma PayloadLayout(tx: LegacyTx)
    ensures var fields := TxFields(tx);
            && |fields| == (if tx.v == 27 || tx.v == 28 then 6 else 9)
            && BigEndian(fields[0]) == tx.nonce && BigEndian(fields[1]) == tx.gasPrice && BigEndian(fields[2]) == tx.gas
            && (tx.to.None? ==> fields[3] == []) && (tx.to.Some? ==> |fields[3]| == 20 && BigEndian(fields[3]) == tx.to.value)
            && BigEndian(fields[4]) == tx.value && fields[5] == tx.data
            && (|fields| == 9 ==> BigEndian(fields[6]) == ChainId(tx.v) && fields[7] == fields[8] == [])
    ensures forall i | i in {0, 1, 2, 4} && TxFields(tx)[i] != [] :: TxFields(tx)[i][0] != 0
    ensures 35 <= tx.v < 0x1_0000_0000_0000_0000 ==> ChainId(tx.v) == (tx.v - 35) / 2
  {
    PreEIP155Iff(tx);
    FieldsReadBack(tx);
    MinimalHasNoLeadingZero(tx.nonce);
    MinimalHasNoLeadingZero(tx.gasPrice);
    MinimalHasNoLeadingZero(tx.gas);
    MinimalHasNoLeadingZero(tx.value);
    ZeroIsEmpty();
    hide Minimal, IsPreEIP155Tx, BigEndian;
  }

  lemma ZeroIsEmpty()
    ensures forall n: nat :: Minimal(n) == [] <==> n == 0
  {
  }

  /** The trailer: R and S as 32 bytes each, then 27, plus 1 for odd parity. */
  lemma SignedLayout(tx: LegacyTx)
    requires Encodable(TxFields(tx))
    ensures var e, n := PrepareRLPTxData(tx), |EncodeList(TxFields(tx))|;
            && |e| == n + 65 && e[..n] == EncodeList(TxFields(tx))
            && BigEndian(e[n..n + 32]) == tx.r && BigEndian(e[n + 32..n + 64]) == tx.s
            && (tx.v == 27 || tx.v == 28 ==> e[n + 64] == tx.v)
            && (tx.v >= 35 ==> e[n + 64] == 27 + (tx.v - 35) % 2)
  {
    hide TxFields, EncodeList, Encodable, Fixed, BigEndian, ParityV;
    WordsReadBack(tx.r);
    WordsReadBack(tx.s);
    ParityMeaning(tx.v);
    Trailer(EncodeList(TxFields(tx)), Fixed(tx.r, 32), Fixed(tx.s, 32), ParityV(tx.v));
  }

  lemma WordsReadBack(w: Word256)
    ensures BigEndian(Fixed(w, 32)) == w
  {
    Pow256Of32();
    BigEndianOfFixed(w, 32);
  }

  lemma ParityMeaning(v: nat)
    ensures v == 27 || v == 28 ==> ParityV(v) == v
    ensures v >= 35 ==> ParityV(v) == 27 + (v - 35) % 2
  {
    assert v % TWO_64 % 2 == v % 2;
  }

  lemma Trailer(list: bytes, r: bytes, s: bytes, v: Byte)
    requires |r| == |s| == 32
    ensures var e, n := list + r + s + [v], |list|;
            |e| == n + 65 && e[..n] == list && e[n..n + 32] == r && e[n + 32..n + 64] == s && e[n + 64] == v
  {
  }

  /** What any list of at least six strings reads as: numbers are cut to their width, the recipient to its last 20 bytes. */
  lemma ReadFields(fields: seq<bytes>, v: Byte, r: bytes, s: bytes)
    requires |r| == |s| == 32
    ensures var tx := RlpFieldsToLegacyTx(fields, [v], r, s);
            && (|fields| < 6 ==> tx == Err(TxTypeNotSupported))
            && (|fields| >= 6 ==>
                  && tx.Ok? && tx.value.nonce == BigEndian(fields[0]) % 0x1_0000_0000_0000_0000 && tx.value.gasPrice == BigEndian(fields[1])
                  && tx.value.gas == BigEndian(fields[2]) % 0x1_0000_0000_0000_0000
                  && (fields[3] == [] <==> tx.value.to.None?)
                  && (fields[3] != [] ==> tx.value.to == Some(BigEndian(fields[3]) % 0x1_0000_0000_0000_0000_0000_0000_0000_0000_0000_0000))
                  && tx.value.value == BigEndian(fields[4]) && tx.value.data == fields[5]
                  && tx.value.v == (if |fields| == 6 then v else v + 8 + 2 * BigEndian(fields[6]))
                  && tx.value.r == BigEndian(r) && tx.value.s == BigEndian(s))
  {
    SmallV([v]);
    hide BigEndian;
  }
}
