/** The assumptions about hashing and signing can be met together: here is a cryptography that meets them. */
module IdealCrypto {
  import opened Bytes
  import opened Messages
  import opened Contract
  import opened OffChain
  import opened CooperativeClose
  import opened Payoff

  /** A message's kind and terms in 41 bytes. */
  function Packing(kind: Kind, t: Terms): (b: Bytes)
    ensures |b| == 41
  {
    [if kind == StateUpdate then 1 else 2]
    + Itob(t.port) + Itob(t.app) + Itob(t.alice) + Itob(t.bob) + Itob(t.timestamp)
  }

  lemma PackingInjective(k1: Kind, t1: Terms, k2: Kind, t2: Terms)
    requires Packing(k1, t1) == Packing(k2, t2)
    ensures k1 == k2 && t1 == t2
  {
    hide Itob;
    var p, q := Packing(k1, t1), Packing(k2, t2);
    assert p[0] == q[0];
    assert Itob(t1.port) == p[1..9] && Itob(t2.port) == q[1..9];
    assert Itob(t1.app) == p[9..17] && Itob(t2.app) == q[9..17];
    assert Itob(t1.alice) == p[17..25] && Itob(t2.alice) == q[17..25];
    assert Itob(t1.bob) == p[25..33] && Itob(t2.bob) == q[25..33];
    assert Itob(t1.timestamp) == p[33..41] && Itob(t2.timestamp) == q[33..41];
    ItobInjective(t1.port, t2.port);
    ItobInjective(t1.app, t2.app);
    ItobInjective(t1.alice, t2.alice);
    ItobInjective(t1.bob, t2.bob);
    ItobInjective(t1.timestamp, t2.timestamp);
  }

  const PADDING: Bytes := seq(22, _ => 0)

  /** The digest of a message: the message behind one byte. */
  function Digest(message: Bytes): Bytes {
    [7] + message
  }

  /** A 64-byte signature that shows who signed which digest; `first` is one of the two accounts. */
  function Stamp(first: Bytes, account: Bytes, digest: Bytes): (b: Bytes)
    ensures |b| == 64
  {
    var who: Bytes := [if account == first then 1 else 2];
    var message := if digest == [] || digest[0] != 7 then [] else digest[1..];
    if Decode(StateUpdate, message).Some? then
      who + Packing(StateUpdate, Decode(StateUpdate, message).value) + PADDING
    else if Decode(CloseChannel, message).Some? then
      who + Packing(CloseChannel, Decode(CloseChannel, message).value) + PADDING
    else seq(64, _ => 0)
  }

  /** A signature verifies when it is the key's stamp on the digest. */
  function Stamping(first: Bytes): Crypto {
    Crypto(Digest,
           (account: Bytes, digest: Bytes) => Stamp(first, account, digest),
           (digest: Bytes, sig: Bytes, key: Bytes) => sig == Stamp(first, key, digest))
  }

  lemma StampOf(first: Bytes, account: Bytes, kind: Kind, t: Terms)
    ensures Stamp(first, account, Digest(Encode(kind, t)))
         == [if account == first then 1 else 2] + Packing(kind, t) + PADDING
  {
    hide Packing, Encode;
    DecodeEncode(kind, t);
    assert Digest(Encode(kind, t))[1..] == Encode(kind, t);
    if kind == CloseChannel {
      NotAState(t);
    }
  }

  lemma NotAState(t: Terms)
    ensures Decode(StateUpdate, Encode(CloseChannel, t)).None?
  {
    assert |Encode(CloseChannel, t)| == 74;
  }

  /** For any two accounts there is a cryptography with an injective hash, which changes every message, whose
      signatures over digests verify exactly under their signer's key and over the digest that was signed. */
  lemma IdealExists(a: Bytes, b: Bytes)
    requires a != b && |a| == |b| == 32
    ensures exists c :: Ideal(c, {a, b}) && Injective(c) && forall m :: c.hash(m) != m
  {
    var c := Stamping(a);
    hide Encode, Stamp;
    forall k, l, kind, mode, t, u | k in {a, b} && l in {a, b}
      ensures var digest, signed := c.hash(Encode(kind, t)), c.hash(Encode(mode, u));
              SignatureShape(c.sign(k, signed), l) && c.verify(digest, c.sign(k, signed), l)
              <==> k == l && digest == signed
    {
      StampVerifies(a, b, k, l, kind, mode, t, u);
      EncodeInjective(kind, t, mode, u);
      HashInjective(a);
      assert c.hash(Encode(kind, t)) == c.hash(Encode(mode, u)) <==> Encode(kind, t) == Encode(mode, u);
    }
    assert Ideal(c, {a, b});
    HashInjective(a);
    forall m
      ensures c.hash(m) != m
    {
      assert |c.hash(m)| == |m| + 1;
    }
  }

  lemma HashInjective(first: Bytes)
    ensures Injective(Stamping(first))
  {
    forall m, n | Digest(m) == Digest(n)
      ensures m == n
    {
      assert Digest(m)[1..] == m && Digest(n)[1..] == n;
    }
  }

  lemma StampVerifies(a: Bytes, b: Bytes, k: Bytes, l: Bytes, kind: Kind, mode: Kind, t: Terms, u: Terms)
    requires a != b && |a| == |b| == 32 && k in {a, b} && l in {a, b}
    ensures Verify(Stamping(a), kind, t, Sign(Stamping(a), k, mode, u), l) <==> k == l && kind == mode && t == u
  {
    hide Stamp, Encode, Packing;
    StampOf(a, k, mode, u);
    StampOf(a, l, kind, t);
    var s1, s2 := Stamp(a, k, Digest(Encode(mode, u))), Stamp(a, l, Digest(Encode(kind, t)));
    if s1 == s2 {
      assert s1[0] == s2[0];
      assert s1[1..42] == Packing(mode, u) && s2[1..42] == Packing(kind, t);
      PackingInjective(mode, u, kind, t);
    }
  }
}
