/** Byte strings, uint64 and the big-endian conversions shared by the contract and the nodes. */
module Bytes {
  const U64_LIMIT: int := 0x1_0000_0000_0000_0000

  type u64 = n: int | 0 <= n < 0x1_0000_0000_0000_0000
  type byte = n: int | 0 <= n < 256
  type Bytes = seq<byte>

  datatype Option<+T> = None | Some(value: T)

  /** The bytes of an ASCII literal. */
  function Ascii(s: string): (b: Bytes)
    ensures |b| == |s|
  {
    seq(|s|, i requires 0 <= i < |s| => s[i] as int % 256)
  }

  /** A text and the codes of its characters. */
  lemma Spelled(s: string, codes: Bytes)
    requires |s| == |codes| && forall i | 0 <= i < |s| :: s[i] as int == codes[i]
    ensures Ascii(s) == codes
  {
  }

  function Pow256(k: nat): (p: nat)
    ensures p >= 1
  {
    if k == 0 then 1 else 256 * Pow256(k - 1)
  }

  /** The number a big-endian byte string stands for. */
  function Btoi(b: Bytes): nat {
    if b == [] then 0 else 256 * Btoi(b[..|b| - 1]) + b[|b| - 1]
  }

  /** The `width` low-order bytes of n, most significant first. */
  function BigEndian(n: nat, width: nat): (b: Bytes)
    ensures |b| == width
    decreases width, n
  {
    if width == 0 then [] else BigEndian(n / 256, width - 1) + [n % 256]
  }

  /** `uint64ToBytes`, and `itob` on the chain. */
  function Itob(n: u64): (b: Bytes)
    ensures |b| == 8
  {
    BigEndian(n, 8)
  }

  lemma {:induction false} BtoiBound(b: Bytes)
    ensures Btoi(b) < Pow256(|b|)
  {
    if b != [] {
      BtoiBound(b[..|b| - 1]);
    }
  }

  lemma {:induction false} Pow256Monotone(j: nat, k: nat)
    requires j <= k
    ensures Pow256(j) <= Pow256(k)
  {
    if j < k {
      Pow256Monotone(j, k - 1);
    }
  }

  lemma Pow256At8()
    ensures Pow256(8) == U64_LIMIT
  {
    assert Pow256(2) == 0x1_0000;
    assert Pow256(4) == 0x1_0000_0000;
    assert Pow256(6) == 0x1_0000_0000_0000;
  }

  /** At most eight bytes always fit a uint64. */
  lemma BtoiFitsU64(b: Bytes)
    requires |b| <= 8
    ensures Btoi(b) < U64_LIMIT
  {
    BtoiBound(b);
    Pow256Monotone(|b|, 8);
    Pow256At8();
  }

  lemma {:induction false} BtoiOfBigEndian(n: nat, width: nat)
    requires n < Pow256(width)
    ensures Btoi(BigEndian(n, width)) == n
  {
    if width > 0 {
      var b := BigEndian(n, width);
      assert b[..|b| - 1] == BigEndian(n / 256, width - 1);
      BtoiOfBigEndian(n / 256, width - 1);
    }
  }

  lemma {:induction false} BigEndianOfBtoi(b: Bytes)
    ensures BigEndian(Btoi(b), |b|) == b
  {
    if b != [] {
      var front := b[..|b| - 1];
      BigEndianOfBtoi(front);
      assert Btoi(b) / 256 == Btoi(front) && Btoi(b) % 256 == b[|b| - 1];
    }
  }

  /** Reading back what `itob` wrote. */
  lemma BtoiItob(n: u64)
    ensures Btoi(Itob(n)) == n
  {
    Pow256At8();
    BtoiOfBigEndian(n, 8);
  }

  /** Eight bytes are the encoding of exactly one uint64. */
  lemma ItobBtoi(b: Bytes)
    requires |b| == 8
    ensures Btoi(b) < U64_LIMIT && Itob(Btoi(b)) == b
  {
    BtoiFitsU64(b);
    BigEndianOfBtoi(b);
  }

  lemma ItobInjective(m: u64, n: u64)
    requires Itob(m) == Itob(n)
    ensures m == n
  {
    BtoiItob(m);
    BtoiItob(n);
  }
}
