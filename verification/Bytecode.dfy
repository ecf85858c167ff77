/**
  The bytecode hash of merkletree/key.go: pad the code, cut it into 56-byte chunks, pack each
  chunk into eight field elements and chain a compression function over them.

  The compression function is Poseidon in the source. Here it is any function from eight
  elements and a four-element capacity to a capacity or an error.
*/
module Bytecode {
  import opened Wrappers
  import opened Bytes

  datatype Capacity = Capacity(c0: nat, c1: nat, c2: nat, c3: nat)

  /** One call to the compression function. */
  datatype Call = Call(elements: seq<nat>, capacity: Capacity)

  type Compression = Call -> Option<Capacity>

  const ELEMENTS_PER_HASH: nat := 8
  const BYTES_PER_ELEMENT: nat := 7
  const CHUNK: nat := 56
  const EMPTY_ELEMENT: bytes := [0, 0, 0, 0, 0, 0, 0]
  const START := Capacity(0, 0, 0, 0)

  // ---------- padding ----------

  /** The least multiple of 56 above n (see PaddedLengthIsLeast). */
  function PaddedLength(n: nat): (length: nat)
    ensures n < length <= n + CHUNK && length % CHUNK == 0
  {
    (n / CHUNK + 1) * CHUNK
  }

  /** The code, a 0x01 byte, zeros up to a multiple of 56, and the top bit of the last byte set. */
  function PaddedByte(code: bytes, i: nat): Byte {
    if i < |code| then code[i]
    else (if i == |code| then 1 else 0) + (if i == PaddedLength(|code|) - 1 then 128 else 0)
  }

  function Padded(code: bytes): (padded: bytes)
    ensures |padded| % CHUNK == 0
  {
    seq(PaddedLength(|code|), i requires i >= 0 => PaddedByte(code, i))
  }

  lemma PaddedLengthIsLeast(n: nat, m: nat)
    requires m > n && m % CHUNK == 0
    ensures PaddedLength(n) <= m
  {
  }

  /** The padding can be removed in one way only. */
  lemma PaddingIsRemovable(a: bytes, b: bytes)
    requires Padded(a) == Padded(b)
    ensures a == b
  {
    if |a| < |b| {
      PaddedEndsDiffer(a, b);
    } else if |b| < |a| {
      PaddedEndsDiffer(b, a);
    } else {
      forall i: nat | i < |a|
        ensures a[i] == b[i]
      {
        assert Padded(a)[i] == a[i] && Padded(b)[i] == b[i];
      }
    }
  }

  /** Where the longer code ends its padding has an odd byte, where the shorter one's is even. */
  lemma PaddedEndsDiffer(a: bytes, b: bytes)
    requires |a| < |b|
    ensures Padded(a) != Padded(b)
  {
    assert Padded(b)[|b|] % 2 == 1;
    if |Padded(a)| == |Padded(b)| {
      assert Padded(a)[|b|] % 2 == 0;
    }
  }

  // ---------- packing ----------

  function LittleEndian(bs: bytes): nat {
    if |bs| == 0 then 0 else bs[0] + 256 * LittleEndian(bs[1..])
  }

  function Reversed(bs: bytes): (r: bytes)
    ensures |r| == |bs|
  {
    if |bs| == 0 then [] else Reversed(bs[1..]) + [bs[0]]
  }

  lemma {:induction false} BigEndianOfReversed(bs: bytes)
    ensures BigEndian(Reversed(bs)) == LittleEndian(bs)
  {
    if |bs| > 0 {
      BigEndianOfReversed(bs[1..]);
      assert Reversed(bs)[..|bs| - 1] == Reversed(bs[1..]);
    }
  }

  lemma {:induction false} LittleEndianIsInjective(a: bytes, b: bytes)
    requires |a| == |b| && LittleEndian(a) == LittleEndian(b)
    ensures a == b
  {
    if |a| > 0 {
      assert a[0] == b[0] by {
        assert LittleEndian(a) % 256 == a[0] && LittleEndian(b) % 256 == b[0];
      }
      LittleEndianIsInjective(a[1..], b[1..]);
      assert a == [a[0]] + a[1..] && b == [b[0]] + b[1..];
    }
  }

  /** The eight elements of a 56-byte chunk, seven bytes each, least significant byte first. */
  function Elements(chunk: bytes): (elements: seq<nat>)
    requires |chunk| == CHUNK
    ensures |elements| == ELEMENTS_PER_HASH
  {
    seq(ELEMENTS_PER_HASH, e requires 0 <= e < ELEMENTS_PER_HASH =>
        LittleEndian(chunk[e * BYTES_PER_ELEMENT..e * BYTES_PER_ELEMENT + BYTES_PER_ELEMENT]))
  }

  /** What is absorbed: consecutive chunks that together are the data, each byte once and in order. */
  function Blocks(data: bytes): (blocks: seq<seq<nat>>)
    requires |data| % CHUNK == 0
    ensures |blocks| == |data| / CHUNK
  {
    if |data| == 0 then [] else [Elements(data[..CHUNK])] + Blocks(data[CHUNK..])
  }

  lemma ElementsAreInjective(a: bytes, b: bytes)
    requires |a| == |b| == CHUNK && Elements(a) == Elements(b)
    ensures a == b
  {
    forall i: nat | i < CHUNK
      ensures a[i] == b[i]
    {
      var e := i / BYTES_PER_ELEMENT;
      var lo := e * BYTES_PER_ELEMENT;
      var x, y := a[lo..lo + BYTES_PER_ELEMENT], b[lo..lo + BYTES_PER_ELEMENT];
      assert LittleEndian(x) == Elements(a)[e] == Elements(b)[e] == LittleEndian(y);
      LittleEndianIsInjective(x, y);
      assert a[i] == x[i - lo] && b[i] == y[i - lo];
    }
  }

  /** Chunking and packing lose nothing: every byte of the data is absorbed, at its place. */
  lemma {:induction false} BlocksAreInjective(a: bytes, b: bytes)
    requires |a| % CHUNK == 0 && |b| % CHUNK == 0 && Blocks(a) == Blocks(b)
    ensures a == b
  {
    assert |a| == |b|;
    if |a| > 0 {
      assert Blocks(a)[0] == Elements(a[..CHUNK]) && Blocks(b)[0] == Elements(b[..CHUNK]);
      ElementsAreInjective(a[..CHUNK], b[..CHUNK]);
      assert Blocks(a)[1..] == Blocks(a[CHUNK..]) && Blocks(b)[1..] == Blocks(b[CHUNK..]);
      BlocksAreInjective(a[CHUNK..], b[CHUNK..]);
      assert a == a[..CHUNK] + a[CHUNK..] && b == b[..CHUNK] + b[CHUNK..];
    }
  }

  lemma {:induction false} BlockAt(data: bytes, i: nat)
    requires |data| % CHUNK == 0 && i < |data| / CHUNK
    ensures i * CHUNK + CHUNK <= |data|
    ensures Blocks(data)[i] == Elements(data[i * CHUNK..i * CHUNK + CHUNK])
  {
    if i > 0 {
      BlockAt(data[CHUNK..], i - 1);
      assert data[CHUNK..][(i - 1) * CHUNK..(i - 1) * CHUNK + CHUNK] == data[i * CHUNK..i * CHUNK + CHUNK];
    }
  }

  // ---------- absorbing ----------

  /** The capacity after the first k blocks; an error of the compression function is final. */
  function After(compress: Compression, blocks: seq<seq<nat>>, k: nat): Option<Capacity>
    requires k <= |blocks|
  {
    if k == 0 then Some(START)
    else match After(compress, blocks, k - 1)
      case None => None
      case Some(capacity) => compress(Call(blocks[k - 1], capacity))
  }

  function HashOf(compress: Compression, code: bytes): Option<Capacity> {
    var blocks := Blocks(Padded(code));
    After(compress, blocks, |blocks|)
  }

  /** The k-th call made while absorbing the blocks. */
  ghost predicate Makes(compress: Compression, blocks: seq<seq<nat>>, k: nat, call: Call) {
    && k < |blocks|
    && call.elements == blocks[k]
    && After(compress, blocks, k) == Some(call.capacity)
  }

  /** No two different calls, one of each run, give the same capacity; none gives back the start. */
  ghost predicate CollisionFree(compress: Compression, xs: seq<seq<nat>>, ys: seq<seq<nat>>) {
    && (forall i: nat, j: nat, x: Call, y: Call |
          Makes(compress, xs, i, x) && Makes(compress, ys, j, y) && compress(x).Some? && compress(x) == compress(y) ::
          x == y)
    && (forall i: nat, x: Call | Makes(compress, xs, i, x) || Makes(compress, ys, i, x) ::
          compress(x) != Some(START))
  }

  /** Equal capacities have equal histories. */
  lemma {:induction false} EqualCapacitiesEqualHistories(
      compress: Compression, xs: seq<seq<nat>>, ys: seq<seq<nat>>, n: nat, m: nat)
    requires CollisionFree(compress, xs, ys)
    requires n <= |xs| && m <= |ys|
    requires After(compress, xs, n).Some? && After(compress, xs, n) == After(compress, ys, m)
    ensures xs[..n] == ys[..m]
  {
    if n > 0 {
      var x := Call(xs[n - 1], After(compress, xs, n - 1).value);
      assert Makes(compress, xs, n - 1, x);
    }
    if m > 0 {
      var y := Call(ys[m - 1], After(compress, ys, m - 1).value);
      assert Makes(compress, ys, m - 1, y);
    }
    if n > 0 && m > 0 {
      EqualCapacitiesEqualHistories(compress, xs, ys, n - 1, m - 1);
      assert xs[..n] == xs[..n - 1] + [xs[n - 1]] && ys[..m] == ys[..m - 1] + [ys[m - 1]];
    }
  }

  /** Distinct codes hash differently unless the two runs exhibit a collision. */
  lemma DistinctCodesDistinctHashes(compress: Compression, a: bytes, b: bytes)
    requires CollisionFree(compress, Blocks(Padded(a)), Blocks(Padded(b)))
    requires HashOf(compress, a).Some? && HashOf(compress, a) == HashOf(compress, b)
    ensures a == b
  {
    var xs, ys := Blocks(Padded(a)), Blocks(Padded(b));
    EqualCapacitiesEqualHistories(compress, xs, ys, |xs|, |ys|);
    assert xs[..|xs|] == xs && ys[..|ys|] == ys;
    BlocksAreInjective(Padded(a), Padded(b));
    PaddingIsRemovable(a, b);
  }

  // ---------- the source's loops ----------

  /** The byte with its top bit set. */
  function WithTopBit(b: Byte): Byte {
    if b < 128 then b + 128 else b
  }

  /** Appends the padding byte by byte. */
  method Pad(code: bytes) returns (padded: bytes)
    ensures padded == Padded(code)
    // the code, the byte 0x01, zeros, and the top bit set in the last byte, at the least multiple of 56
    ensures |padded| % 56 == 0 && |code| < |padded| <= |code| + 56 && padded[..|code|] == code
    ensures padded[|code|] % 128 == 1
    ensures forall i: nat | |code| < i < |padded| - 1 :: padded[i] == 0
    ensures padded[|padded| - 1] == if |padded| - 1 == |code| then 0x81 else 0x80
  {
    padded := code + [1];
    while |padded| % CHUNK != 0
      invariant |code| < |padded| <= PaddedLength(|code|)
      invariant forall i: nat | i < |padded| ::
                  padded[i] == if i < |code| then code[i] else if i == |code| then 1 else 0
      decreases PaddedLength(|code|) - |padded|
    {
      padded := padded + [0];
    }
    PaddedLengthIsLeast(|code|, |padded|);
    var last := |padded| - 1;
    padded := padded[last := WithTopBit(padded[last])];
  }

  lemma {:induction false} ReversedAt(bs: bytes, i: nat)
    requires i < |bs|
    ensures Reversed(bs)[|bs| - 1 - i] == bs[i]
  {
    if i > 0 {
      ReversedAt(bs[1..], i - 1);
    }
  }

  /** The last `counter` places of tmpElem hold, back to front, the bytes of the chunk from `lo` on. */
  ghost predicate Filled(tmpElem: bytes, chunk: bytes, lo: nat, counter: nat) {
    && |tmpElem| == BYTES_PER_ELEMENT
    && counter <= BYTES_PER_ELEMENT
    && lo + counter <= |chunk|
    && forall p: nat | BYTES_PER_ELEMENT - counter <= p < BYTES_PER_ELEMENT ::
         tmpElem[p] == chunk[lo + BYTES_PER_ELEMENT - 1 - p]
  }

  lemma NothingFilled(tmpElem: bytes, chunk: bytes, lo: nat)
    requires |tmpElem| == BYTES_PER_ELEMENT && lo <= |chunk|
    ensures Filled(tmpElem, chunk, lo, 0)
  {
  }

  lemma FillNext(tmpElem: bytes, chunk: bytes, lo: nat, counter: nat)
    requires Filled(tmpElem, chunk, lo, counter) && counter < BYTES_PER_ELEMENT && lo + counter < |chunk|
    ensures |tmpElem| == BYTES_PER_ELEMENT
    ensures Filled(tmpElem[BYTES_PER_ELEMENT - 1 - counter := chunk[lo + counter]], chunk, lo, counter + 1)
  {
  }

  /** Seven bytes written back to front spell, most significant first, element e of the chunk. */
  lemma ElementOf(tmpElem: bytes, chunk: bytes, e: nat, lo: nat)
    requires |chunk| == CHUNK && e < ELEMENTS_PER_HASH && lo == e * BYTES_PER_ELEMENT
    requires Filled(tmpElem, chunk, lo, BYTES_PER_ELEMENT)
    ensures BigEndian(tmpElem) == Elements(chunk)[e]
  {
    hide BigEndian, LittleEndian, Reversed;
    var bs := chunk[lo..lo + BYTES_PER_ELEMENT];
    forall i: nat | i < BYTES_PER_ELEMENT
      ensures tmpElem[i] == Reversed(bs)[i]
    {
      var k := BYTES_PER_ELEMENT - 1 - i;
      ReversedAt(bs, k);
      assert tmpElem[BYTES_PER_ELEMENT - 1 - k] == chunk[lo + k];
    }
    assert tmpElem == Reversed(bs);
    BigEndianOfReversed(bs);
  }

  lemma ElementDone(tmpElem: bytes, chunk: bytes, elements: seq<nat>, lo: nat)
    requires |chunk| == CHUNK && elements <= Elements(chunk)
    requires lo == |elements| * BYTES_PER_ELEMENT && Filled(tmpElem, chunk, lo, BYTES_PER_ELEMENT)
    ensures elements + [BigEndian(tmpElem)] <= Elements(chunk)
  {
    hide BigEndian, Elements;
    assert |elements| < ELEMENTS_PER_HASH;
    ElementOf(tmpElem, chunk, |elements|, lo);
  }

  /** Packs the chunk that starts at `pointer`. The slice taken is one byte longer than the chunk. */
  method PackChunk(code: bytes, pointer: nat) returns (elements: seq<nat>)
    requires pointer + CHUNK <= |code|
    ensures elements == Elements(code[pointer..pointer + CHUNK])
  {
    hide BigEndian, LittleEndian, Filled, Elements;
    var end := if |code| - 1 < pointer + CHUNK then |code| - 1 else pointer + CHUNK;
    var subset := code[pointer..end + 1];
    ghost var chunk := code[pointer..pointer + CHUNK];
    elements := [];
    var tmpElem: bytes := EMPTY_ELEMENT;
    var counter := 0;
    ghost var lo := 0;
    NothingFilled(tmpElem, chunk, lo);
    for j := 0 to CHUNK
      invariant counter < BYTES_PER_ELEMENT && j == lo + counter && lo == |elements| * BYTES_PER_ELEMENT
      invariant Filled(tmpElem, chunk, lo, counter)
      invariant elements <= Elements(chunk)
    {
      var byteToAdd: Byte := 0;
      if j < |subset| {
        byteToAdd := subset[j];
      }
      FillNext(tmpElem, chunk, lo, counter);
      tmpElem := tmpElem[BYTES_PER_ELEMENT - 1 - counter := byteToAdd];
      counter := counter + 1;
      if counter == BYTES_PER_ELEMENT {
        ElementDone(tmpElem, chunk, elements, lo);
        elements := elements + [BigEndian(tmpElem)];
        lo := lo + BYTES_PER_ELEMENT;
        tmpElem := EMPTY_ELEMENT;
        counter := 0;
        NothingFilled(tmpElem, chunk, lo);
      }
    }
  }

  /** HashContractBytecode; None is the error of the compression function. */
  method HashContractBytecode(compress: Compression, code: bytes) returns (r: Option<Capacity>)
    ensures r == HashOf(compress, code)
  {
    var padded := Pad(code);
    ghost var blocks := Blocks(padded);
    var numHashes := |padded| / CHUNK;
    var tmpHash := START;
    var bytesPointer := 0;
    for i := 0 to numHashes
      invariant bytesPointer == i * CHUNK
      invariant After(compress, blocks, i) == Some(tmpHash)
    {
      BlockAt(padded, i);
      var elements := PackChunk(padded, bytesPointer);
      bytesPointer := bytesPointer + CHUNK;
      var next := compress(Call(elements, tmpHash));
      if next.None? {
        ErrorIsFinal(compress, blocks, i + 1, |blocks|);
        return None;
      }
      tmpHash := next.value;
    }
    return Some(tmpHash);
  }

  lemma {:induction false} ErrorIsFinal(compress: Compression, blocks: seq<seq<nat>>, k: nat, n: nat)
    requires k <= n <= |blocks| && After(compress, blocks, k).None?
    ensures After(compress, blocks, n).None?
  {
    if k < n {
      ErrorIsFinal(compress, blocks, k, n - 1);
    }
  }

  // ---------- what is absorbed, in full ----------

  /** Element e of a chunk is the number its seven bytes spell when reversed: the first byte is the least significant. */
  lemma ElementMeaning(chunk: bytes, e: nat)
    requires |chunk| == 56 && e < 8
    ensures |Elements(chunk)| == 8
    ensures Elements(chunk)[e]
         == BigEndian([chunk[7 * e + 6], chunk[7 * e + 5], chunk[7 * e + 4], chunk[7 * e + 3], chunk[7 * e + 2], chunk[7 * e + 1],
                       chunk[7 * e]])
  {
    hide BigEndian, LittleEndian;
    var bs := chunk[7 * e..7 * e + 7];
    BigEndianOfReversed(bs);
    ReversedSeven(bs);
  }

  lemma ReversedSeven(bs: bytes)
    requires |bs| == 7
    ensures Reversed(bs) == [bs[6], bs[5], bs[4], bs[3], bs[2], bs[1], bs[0]]
  {
    hide Reversed;
    forall i: nat | i < 7
      ensures |Reversed(bs)| == 7 && Reversed(bs)[6 - i] == bs[i]
    {
      ReversedAt(bs, i);
    }
    var r := Reversed(bs);
    assert r[6 - 0] == bs[0] && r[6 - 1] == bs[1] && r[6 - 2] == bs[2] && r[6 - 3] == bs[3] && r[6 - 4] == bs[4] && r[6 - 5] == bs[5];
    assert r[6 - 6] == bs[6];
  }

  /** The chain begins with four zeros, and every block is compressed with the capacity before it. */
  lemma ChainMeaning(compress: Compression, blocks: seq<seq<nat>>, k: nat)
    requires k < |blocks|
    ensures After(compress, blocks, 0) == Some(Capacity(0, 0, 0, 0))
    ensures After(compress, blocks, k).Some? ==>
              After(compress, blocks, k + 1) == compress(Call(blocks[k], After(compress, blocks, k).value))
  {
  }

  /** A code shorter than a chunk is one call, on its padding. */
  lemma ShortCodeIsOneCall(compress: Compression, code: bytes)
    requires |code| < 56
    ensures HashOf(compress, code) == compress(Call(Elements(Padded(code)), Capacity(0, 0, 0, 0)))
  {
    hide Elements;
    var data := Padded(code);
    assert |data| == 56 && data[..CHUNK] == data;
    assert Blocks(data) == [Elements(data)] + Blocks(data[CHUNK..]);
    assert Blocks(data[CHUNK..]) == [];
    assert After(compress, Blocks(data), 0) == Some(START);
  }
}
