/** Bytes and the numbers they spell, most significant byte first. */
module Bytes {
  type Byte = b: int | 0 <= b < 256
  type bytes = seq<Byte>

  function Pow256(k: nat): (r: nat)
    ensures r >= 1
  {
    if k == 0 then 1 else 256 * Pow256(k - 1)
  }

  function BigEndian(bs: bytes): nat {
    if |bs| == 0 then 0 else 256 * BigEndian(bs[..|bs| - 1]) + bs[|bs| - 1]
  }

  /** The shortest big-endian form: no leading zero, and nothing at all for 0. */
  function Minimal(n: nat): bytes {
    if n == 0 then [] else Minimal(n / 256) + [n % 256]
  }

  /** The big-endian form in exactly k bytes; higher bytes are dropped. */
  function Fixed(n: nat, k: nat): (bs: bytes)
    ensures |bs| == k
  {
    if k == 0 then [] else Fixed(n / 256, k - 1) + [n % 256]
  }

  lemma {:induction false} BigEndianOfMinimal(n: nat)
    ensures BigEndian(Minimal(n)) == n
  {
    if n > 0 {
      BigEndianOfMinimal(n / 256);
      assert Minimal(n)[..|Minimal(n)| - 1] == Minimal(n / 256);
    }
  }

  lemma {:induction false} MinimalHasNoLeadingZero(n: nat)
    ensures n > 0 ==> |Minimal(n)| > 0 && Minimal(n)[0] != 0
  {
    if n > 0 {
      MinimalHasNoLeadingZero(n / 256);
    }
  }

  lemma {:induction false} MinimalOfBigEndian(bs: bytes)
    requires |bs| > 0 ==> bs[0] != 0
    ensures Minimal(BigEndian(bs)) == bs
  {
    if |bs| > 0 {
      var init := bs[..|bs| - 1];
      MinimalOfBigEndian(init);
      assert BigEndian(bs) == 256 * BigEndian(init) + bs[|bs| - 1];
      assert BigEndian(bs) / 256 == BigEndian(init) && BigEndian(bs) % 256 == bs[|bs| - 1];
      if |init| > 0 {
        PositiveValue(init);
      }
      assert bs == init + [bs[|bs| - 1]];
    }
  }

  lemma {:induction false} PositiveValue(bs: bytes)
    requires |bs| > 0 && bs[0] != 0
    ensures BigEndian(bs) > 0
  {
    if |bs| > 1 {
      PositiveValue(bs[..|bs| - 1]);
    }
  }

  lemma {:induction false} MinimalLength(n: nat, k: nat)
    ensures |Minimal(n)| <= k <==> n < Pow256(k)
  {
    if n > 0 && k > 0 {
      MinimalLength(n / 256, k - 1);
    }
  }

  lemma {:induction false} BigEndianOfFixed(n: nat, k: nat)
    requires n < Pow256(k)
    ensures BigEndian(Fixed(n, k)) == n
  {
    if k > 0 {
      BigEndianOfFixed(n / 256, k - 1);
      assert Fixed(n, k)[..k - 1] == Fixed(n / 256, k - 1);
    }
  }

  lemma {:induction false} BigEndianBound(bs: bytes)
    ensures BigEndian(bs) < Pow256(|bs|)
  {
    if |bs| > 0 {
      BigEndianBound(bs[..|bs| - 1]);
    }
  }

  /** The first byte is the most significant one. */
  lemma {:induction false} FirstByteIsHighest(b: Byte, rest: bytes)
    ensures BigEndian([b] + rest) == b * Pow256(|rest|) + BigEndian(rest)
    decreases |rest|
  {
    if |rest| == 0 {
      assert [b] + rest == [b];
    } else {
      var init := rest[..|rest| - 1];
      FirstByteIsHighest(b, init);
      assert ([b] + rest)[..|rest|] == [b] + init;
      assert b * Pow256(|rest|) == 256 * (b * Pow256(|init|));
    }
  }

  /** Four bytes spell a 32-bit number, eight a 64-bit one. */
  lemma Widths()
    ensures Pow256(4) == 0x1_0000_0000 && Pow256(8) == 0x1_0000_0000_0000_0000
  {
    assert Pow256(8) == 256 * (256 * (256 * (256 * Pow256(4))));
  }
}
