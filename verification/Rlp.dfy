/**
  RLP lists of byte strings: the encoding of Appendix B of the Ethereum Yellow Paper, and the
  strict decoding that the source's RLP library performs into a list of byte strings.
*/
module Rlp {
  import opened Wrappers
  import opened Bytes

  const TWO_64: nat := 0x1_0000_0000_0000_0000

  /** Strings the Yellow Paper can encode: shorter than 2^64 bytes. */
  predicate Short(s: bytes) {
    |s| < TWO_64
  }

  predicate AllShort(fields: seq<bytes>) {
    forall i: nat | i < |fields| :: Short(fields[i])
  }

  /** Header of a payload of the given length; `base` is 0x80 for strings and 0xc0 for lists. */
  function Header(base: Byte, length: nat): bytes
    requires base <= 0xc0 && length < TWO_64
  {
    if length <= 55 then [base + length]
    else
      LengthBytesFit(length);
      [base + 55 + |Minimal(length)|] + Minimal(length)
  }

  lemma LengthBytesFit(length: nat)
    requires length < TWO_64
    ensures |Minimal(length)| <= 8
    ensures length > 0 ==> |Minimal(length)| >= 1
  {
    Pow256Of8();
    MinimalLength(length, 8);
    MinimalLength(length, 0);
  }

  lemma Pow256Of8()
    ensures Pow256(8) == TWO_64
  {
  }

  predicate SelfEncoded(s: bytes) {
    |s| == 1 && s[0] < 0x80
  }

  function EncodeString(s: bytes): (e: bytes)
    requires Short(s)
    ensures |e| > 0
  {
    if SelfEncoded(s) then s else Header(0x80, |s|) + s
  }

  function EncodeItems(fields: seq<bytes>): bytes
    requires AllShort(fields)
  {
    if |fields| == 0 then [] else EncodeString(fields[0]) + EncodeItems(fields[1..])
  }

  /** Lists the Yellow Paper can encode: the payload is shorter than 2^64 bytes. */
  predicate Encodable(fields: seq<bytes>) {
    AllShort(fields) && |EncodeItems(fields)| < TWO_64
  }

  function EncodeList(fields: seq<bytes>): bytes
    requires Encodable(fields)
  {
    Header(0xc0, |EncodeItems(fields)|) + EncodeItems(fields)
  }

  // ---------- decoding ----------

  /** A parsed header: its own length and the length of the payload after it. */
  datatype Head = Head(header: nat, payload: nat)

  /**
    The canonical header at the start of b, for bytes from `base` on: one byte up to 55, then
    up to 8 length bytes without leading zero that spell at least 56.
  */
  function ReadHeader(base: Byte, b: bytes): Option<Head>
    requires |b| > 0 && base <= 0xc0 && base <= b[0] < base + 64
  {
    if b[0] <= base + 55 then Some(Head(1, b[0] - base))
    else
      var n := b[0] - base - 55;
      if |b| < 1 + n || b[1] == 0 || BigEndian(b[1..1 + n]) <= 55 then None
      else Some(Head(1 + n, BigEndian(b[1..1 + n])))
  }

  /** Splits the first string off b; a list header, a non-canonical form or missing data is an error. */
  function DecodeString(b: bytes): (r: Option<(bytes, bytes)>)
    ensures r.Some? ==> |r.value.1| < |b|
  {
    if |b| == 0 || b[0] >= 0xc0 then None
    else if b[0] < 0x80 then Some((b[..1], b[1..]))
    else match ReadHeader(0x80, b)
      case None => None
      case Some(head) =>
        if |b| < head.header + head.payload then None
        else
          var s := b[head.header..head.header + head.payload];
          if SelfEncoded(s) then None else Some((s, b[head.header + head.payload..]))
  }

  function DecodeItems(b: bytes): Option<seq<bytes>>
    decreases |b|
  {
    if |b| == 0 then Some([])
    else match DecodeString(b)
      case None => None
      case Some((s, rest)) =>
        match DecodeItems(rest)
        case None => None
        case Some(fields) => Some([s] + fields)
  }

  /** Decodes exactly one list of strings; trailing bytes are an error. */
  function DecodeList(b: bytes): Option<seq<bytes>> {
    if |b| == 0 || b[0] < 0xc0 then None
    else match ReadHeader(0xc0, b)
      case None => None
      case Some(head) =>
        if |b| != head.header + head.payload then None else DecodeItems(b[head.header..])
  }

  // ---------- decoding and encoding are inverse ----------

  /** Reading a header back, whatever follows it. */
  lemma ReadOwnHeader(base: Byte, length: nat, rest: bytes)
    requires base <= 0xc0 && length < TWO_64
    ensures var h := Header(base, length);
            && |h| > 0 && base <= h[0] < base + 64
            && ReadHeader(base, h + rest) == Some(Head(|h|, length))
  {
    if length > 55 {
      LengthBytesFit(length);
      MinimalHasNoLeadingZero(length);
      BigEndianOfMinimal(length);
      var h := Header(base, length);
      assert (h + rest)[1..|h|] == Minimal(length);
    }
  }

  /** A header that can be read is the canonical one for its payload length. */
  lemma HeaderIsCanonical(base: Byte, b: bytes)
    requires |b| > 0 && base <= 0xc0 && base <= b[0] < base + 64
    requires ReadHeader(base, b).Some?
    ensures var head := ReadHeader(base, b).value;
            && head.payload < TWO_64 && head.header <= |b|
            && b[..head.header] == Header(base, head.payload)
  {
    if b[0] > base + 55 {
      var n := b[0] - base - 55;
      var digits := b[1..1 + n];
      BigEndianBound(digits);
      Pow256Monotone(n, 8);
      Pow256Of8();
      MinimalOfBigEndian(digits);
    }
  }

  lemma {:induction false} Pow256Monotone(a: nat, b: nat)
    requires a <= b
    ensures Pow256(a) <= Pow256(b)
  {
    if a < b {
      Pow256Monotone(a, b - 1);
    }
  }

  lemma DecodeEncodedString(s: bytes, rest: bytes)
    requires Short(s)
    ensures DecodeString(EncodeString(s) + rest) == Some((s, rest))
  {
    hide ReadHeader, Header;
    var b := EncodeString(s) + rest;
    if SelfEncoded(s) {
      assert b[..1] == s && b[1..] == rest;
    } else {
      var h := Header(0x80, |s|);
      assert b == h + (s + rest);
      ReadOwnHeader(0x80, |s|, s + rest);
      assert b[|h|..|h| + |s|] == s && b[|h| + |s|..] == rest;
    }
  }

  lemma EncodeDecodedString(b: bytes)
    requires DecodeString(b).Some?
    ensures var (s, rest) := DecodeString(b).value;
            Short(s) && b == EncodeString(s) + rest
  {
    hide ReadHeader, Header;
    if b[0] >= 0x80 {
      HeaderIsCanonical(0x80, b);
      var head := ReadHeader(0x80, b).value;
      assert b == b[..head.header] + b[head.header..head.header + head.payload] + b[head.header + head.payload..];
    }
  }

  lemma {:induction false} DecodeEncodedItems(fields: seq<bytes>)
    requires AllShort(fields)
    ensures DecodeItems(EncodeItems(fields)) == Some(fields)
  {
    hide EncodeString, DecodeString;
    if |fields| > 0 {
      DecodeEncodedString(fields[0], EncodeItems(fields[1..]));
      DecodeEncodedItems(fields[1..]);
      assert [fields[0]] + fields[1..] == fields;
    }
  }

  lemma {:induction false} EncodeDecodedItems(b: bytes)
    requires DecodeItems(b).Some?
    ensures AllShort(DecodeItems(b).value) && b == EncodeItems(DecodeItems(b).value)
    decreases |b|
  {
    hide EncodeString, DecodeString;
    if |b| > 0 {
      EncodeDecodedString(b);
      var (s, rest) := DecodeString(b).value;
      EncodeDecodedItems(rest);
      var fields := DecodeItems(rest).value;
      assert ([s] + fields)[1..] == fields;
    }
  }

  /** The decoder accepts exactly the encodings, each as the list it encodes. */
  lemma DecodeIffEncoded(b: bytes, fields: seq<bytes>)
    ensures DecodeList(b) == Some(fields) <==> Encodable(fields) && b == EncodeList(fields)
  {
    hide EncodeItems, DecodeItems, ReadHeader, Header;
    if DecodeList(b) == Some(fields) {
      HeaderIsCanonical(0xc0, b);
      var head := ReadHeader(0xc0, b).value;
      EncodeDecodedItems(b[head.header..]);
      assert b == b[..head.header] + b[head.header..];
    }
    if Encodable(fields) && b == EncodeList(fields) {
      var items := EncodeItems(fields);
      ReadOwnHeader(0xc0, |items|, items);
      assert b[|Header(0xc0, |items|)|..] == items;
      DecodeEncodedItems(fields);
    }
  }

  // ---------- the encoding in full ----------

  /** A string below 56 bytes is itself, or follows one byte; a longer one follows its length, most significant byte first. */
  lemma StringEncoding(s: bytes)
    requires |s| < 0x1_0000_0000_0000_0000
    ensures |s| == 1 && s[0] < 128 ==> EncodeString(s) == s
    ensures |s| < 56 && !(|s| == 1 && s[0] < 128) ==> EncodeString(s) == [0x80 + |s|] + s
    ensures |s| >= 56 ==>
              var e, n := EncodeString(s), |EncodeString(s)| - 1 - |s|;
              && 1 <= n <= 8 && e[0] == 0xb7 + n && e[1] != 0 && BigEndian(e[1..1 + n]) == |s| && e[1 + n..] == s
  {
    if |s| >= 56 {
      LengthBytesFit(|s|);
      BigEndianOfMinimal(|s|);
      MinimalHasNoLeadingZero(|s|);
      var e, n := EncodeString(s), |Minimal(|s|)|;
      assert e[1..1 + n] == Minimal(|s|) && e[1 + n..] == s;
    }
  }

  /** A list is a header for the concatenated strings, in the same two forms. */
  lemma ListEncoding(fields: seq<bytes>)
    requires Encodable(fields)
    ensures var payload := EncodeItems(fields);
            && (|payload| < 56 ==> EncodeList(fields) == [0xc0 + |payload|] + payload)
            && (|payload| >= 56 ==>
                  var e, n := EncodeList(fields), |EncodeList(fields)| - 1 - |payload|;
                  && 1 <= n <= 8 && e[0] == 0xf7 + n && e[1] != 0 && BigEndian(e[1..1 + n]) == |payload| && e[1 + n..] == payload)
  {
    var payload := EncodeItems(fields);
    if |payload| >= 56 {
      LengthBytesFit(|payload|);
      BigEndianOfMinimal(|payload|);
      MinimalHasNoLeadingZero(|payload|);
      var e, n := EncodeList(fields), |Minimal(|payload|)|;
      assert e[1..1 + n] == Minimal(|payload|) && e[1 + n..] == payload;
    }
  }

  /** The strings of a list are encoded one after the other. */
  lemma {:induction false} ItemsConcatenate(a: seq<bytes>, b: seq<bytes>)
    requires AllShort(a) && AllShort(b)
    ensures AllShort(a + b) && EncodeItems(a + b) == EncodeItems(a) + EncodeItems(b)
    ensures |a| == 1 ==> EncodeItems(a) == EncodeString(a[0])
    decreases |a|
  {
    hide EncodeString;
    if |a| == 0 {
      assert a + b == b;
    } else {
      ItemsConcatenate(a[1..], b);
      var all := a + b;
      assert all[1..] == a[1..] + b && all[0] == a[0];
      assert EncodeItems(all) == EncodeString(a[0]) + EncodeItems(all[1..]);
      assert EncodeItems(a) == EncodeString(a[0]) + EncodeItems(a[1..]);
    }
  }
}
