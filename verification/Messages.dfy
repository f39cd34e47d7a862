/** The two signed messages of a channel: state updates and cooperative closes. */
module Messages {
  import opened Bytes

  datatype Kind = StateUpdate | CloseChannel

  /** What a node signs: five uint64 values (the timestamp is the int64 of the log, cast to uint64). */
  datatype Terms = Terms(port: u64, app: u64, alice: u64, bob: u64, timestamp: u64)

  const COMMA: Bytes := [44]

  function Prefix(kind: Kind): (b: Bytes)
    ensures |b| == if kind == StateUpdate then 12 else 13
    ensures b[0] == if kind == StateUpdate then 83 else 67
  {
    match kind
    case StateUpdate => Ascii("STATE_UPDATE")
    case CloseChannel => Ascii("CLOSE_CHANNEL")
  }

  function Suffix(kind: Kind): (b: Bytes)
    ensures |b| == if kind == StateUpdate then 16 else 17
  {
    match kind
    case StateUpdate => Ascii("END_STATE_UPDATE")
    case CloseChannel => Ascii("END_CLOSE_CHANNEL")
  }

  /** The bytes the contract rebuilds from its raw arguments, whatever their lengths. */
  function Assemble(kind: Kind, port: Bytes, app: u64, alice: Bytes, bob: Bytes, timestamp: Bytes): (b: Bytes)
    ensures |b| == |Prefix(kind)| + |port| + |alice| + |bob| + |timestamp| + 12 + |Suffix(kind)|
  {
    Prefix(kind) + port + COMMA + Itob(app) + COMMA + alice + COMMA + bob + COMMA + timestamp + Suffix(kind)
  }

  /** The bytes a node hashes and signs for some terms. */
  function Encode(kind: Kind, t: Terms): Bytes {
    Assemble(kind, Itob(t.port), t.app, Itob(t.alice), Itob(t.bob), Itob(t.timestamp))
  }

  /** Reads terms back; None when the bytes are not a message of this kind. */
  function Decode(kind: Kind, b: Bytes): Option<Terms> {
    var p := |Prefix(kind)|;
    if |b| != p + 44 + |Suffix(kind)| then None
    else
      var t := Terms(Field(b, p), Field(b, p + 9), Field(b, p + 18), Field(b, p + 27), Field(b, p + 36));
      if Encode(kind, t) == b then Some(t) else None
  }

  /** The uint64 in the eight bytes at offset i. */
  function Field(b: Bytes, i: nat): u64
    requires i + 8 <= |b|
  {
    BtoiFitsU64(b[i..i + 8]);
    Btoi(b[i..i + 8])
  }

  /** Where the field f sits in a string that ends with r. */
  lemma Peel(s: Bytes, c: Bytes, f: Bytes, r: Bytes)
    ensures s + c + f + r == s + (c + f + r)
    ensures (s + c + f + r)[..|s|] == s
    ensures (s + c + f + r)[|s| + |c|..|s| + |c| + |f|] == f
  {
  }

  /** Where each argument sits in an assembled message. */
  lemma AssembledParts(kind: Kind, port: Bytes, app: u64, alice: Bytes, bob: Bytes, timestamp: Bytes)
    ensures var b := Assemble(kind, port, app, alice, bob, timestamp);
            var p0 := |Prefix(kind)|;
            var p1 := p0 + |port| + 1;
            var p2 := p1 + 9;
            var p3 := p2 + |alice| + 1;
            var p4 := p3 + |bob| + 1;
            && b[..p0] == Prefix(kind)
            && b[p0..p1 - 1] == port
            && b[p1..p2 - 1] == Itob(app)
            && b[p2..p3 - 1] == alice
            && b[p3..p4 - 1] == bob
            && b[p4..p4 + |timestamp|] == timestamp
  {
    hide Itob, Prefix, Suffix;
    var s1 := Prefix(kind) + port;
    var s2 := s1 + COMMA + Itob(app);
    var s3 := s2 + COMMA + alice;
    var s4 := s3 + COMMA + bob;
    var r4 := COMMA + timestamp + Suffix(kind);
    var r3 := COMMA + bob + r4;
    var r2 := COMMA + alice + r3;
    var r1 := COMMA + Itob(app) + r2;
    Peel(s4, COMMA, timestamp, Suffix(kind));
    Peel(s3, COMMA, bob, r4);
    Peel(s2, COMMA, alice, r3);
    Peel(s1, COMMA, Itob(app), r2);
    Peel(Prefix(kind), [], port, r1);
    assert Prefix(kind) + [] + port == s1;
  }

  /** Decoding undoes encoding for all uint64 five-tuples. */
  lemma DecodeEncode(kind: Kind, t: Terms)
    ensures Decode(kind, Encode(kind, t)) == Some(t)
  {
    AssembledParts(kind, Itob(t.port), t.app, Itob(t.alice), Itob(t.bob), Itob(t.timestamp));
    BtoiItob(t.port);
    BtoiItob(t.app);
    BtoiItob(t.alice);
    BtoiItob(t.bob);
    BtoiItob(t.timestamp);
  }

  /** One signed message has one meaning: a kind and five numbers. */
  lemma EncodeInjective(k1: Kind, t1: Terms, k2: Kind, t2: Terms)
    ensures Encode(k1, t1) == Encode(k2, t2) <==> k1 == k2 && t1 == t2
  {
    if Encode(k1, t1) == Encode(k2, t2) {
      assert |Encode(k1, t1)| == |Prefix(k1)| + 44 + |Suffix(k1)|;
      DecodeEncode(k1, t1);
      DecodeEncode(k2, t2);
    }
  }

  /** With a port of at most eight bytes, and balances and timestamp that `btoi` accepts, the only arguments from
      which the contract rebuilds a signed message are the eight-byte encodings of the numbers that were signed. */
  lemma AssembleUnique(k1: Kind, port: Bytes, app: u64, alice: Bytes, bob: Bytes, timestamp: Bytes, k2: Kind, t: Terms)
    requires |port| <= 8 && |alice| <= 8 && |bob| <= 8 && |timestamp| <= 8
    requires Assemble(k1, port, app, alice, bob, timestamp) == Encode(k2, t)
    ensures k1 == k2 && app == t.app
    ensures port == Itob(t.port) && alice == Itob(t.alice) && bob == Itob(t.bob) && timestamp == Itob(t.timestamp)
  {
    var b := Assemble(k1, port, app, alice, bob, timestamp);
    AssembledParts(k1, port, app, alice, bob, timestamp);
    AssembledParts(k2, Itob(t.port), t.app, Itob(t.alice), Itob(t.bob), Itob(t.timestamp));
    assert k1 == k2 by {
      assert b[..|Prefix(k1)|][0] == b[..|Prefix(k2)|][0];
    }
    assert |port| == 8 && |alice| == 8 && |bob| == 8 && |timestamp| == 8 by {
      assert |b| == |Prefix(k1)| + |port| + |alice| + |bob| + |timestamp| + 12 + |Suffix(k1)|;
      assert |b| == |Prefix(k1)| + 32 + 12 + |Suffix(k1)|;
    }
    ItobInjective(app, t.app);
  }

  // ----- when the arguments are not determined -----

  /** The fields of a message, between prefix and suffix, with their commas. */
  function Fields(port: Bytes, app: Bytes, alice: Bytes, bob: Bytes, timestamp: Bytes): (b: Bytes)
    ensures |b| == |port| + |app| + |alice| + |bob| + |timestamp| + 4
  {
    port + COMMA + app + COMMA + alice + COMMA + bob + COMMA + timestamp
  }

  /** The 44 bytes between prefix and suffix of a signed message. */
  function Body(t: Terms): (b: Bytes)
    ensures |b| == 44
  {
    Fields(Itob(t.port), Itob(t.app), Itob(t.alice), Itob(t.bob), Itob(t.timestamp))
  }

  /** Where a reading cuts a body: after p bytes the application's identifier between commas, then a field of i bytes, a
      comma, a field of j bytes, a comma and the rest. */
  predicate CutAt(b: Bytes, app: u64, p: nat, i: nat, j: nat) {
    && p + 12 + i + j <= |b|
    && b[p] == 44 && b[p + 1..p + 9] == Itob(app) && b[p + 9] == 44
    && b[p + 10 + i] == 44 && b[p + 11 + i + j] == 44
  }

  /** The signed message of these terms can also be read with a port of more than eight bytes, as a message of this
      application whose balances and timestamp `btoi` accepts. A scan of the 44 bytes tells. */
  predicate Ambiguous(t: Terms, app: u64) {
    exists p: nat, i: nat, j: nat ::
      8 < p <= 32 && i <= 8 && j <= 8 && 24 <= p + i + j && CutAt(Body(t), app, p, i, j)
  }

  lemma AssembleFields(kind: Kind, port: Bytes, app: u64, alice: Bytes, bob: Bytes, timestamp: Bytes)
    ensures Assemble(kind, port, app, alice, bob, timestamp)
         == Prefix(kind) + Fields(port, Itob(app), alice, bob, timestamp) + Suffix(kind)
  {
    hide Itob, Prefix, Suffix;
    assert Prefix(kind) + (port + COMMA + Itob(app) + COMMA + alice + COMMA + bob + COMMA + timestamp)
        == Prefix(kind) + port + COMMA + Itob(app) + COMMA + alice + COMMA + bob + COMMA + timestamp;
  }

  // The words around the fields, as ASCII codes.

  /** STATE_UPDATE */
  const STATE_UPDATE: Bytes := [83, 84, 65, 84, 69, 95, 85, 80, 68, 65, 84, 69]

  /** END_STATE_UPDATE */
  const END_STATE_UPDATE: Bytes := [69, 78, 68, 95, 83, 84, 65, 84, 69, 95, 85, 80, 68, 65, 84, 69]

  /** CLOSE_CHANNEL */
  const CLOSE_CHANNEL: Bytes := [67, 76, 79, 83, 69, 95, 67, 72, 65, 78, 78, 69, 76]

  /** END_CLOSE_CHANNEL */
  const END_CLOSE_CHANNEL: Bytes := [69, 78, 68, 95, 67, 76, 79, 83, 69, 95, 67, 72, 65, 78, 78, 69, 76]

  lemma FramesSpelled()
    ensures Prefix(StateUpdate) == STATE_UPDATE && Suffix(StateUpdate) == END_STATE_UPDATE
    ensures Prefix(CloseChannel) == CLOSE_CHANNEL && Suffix(CloseChannel) == END_CLOSE_CHANNEL
  {
    hide Ascii;
    Spelled("STATE_UPDATE", STATE_UPDATE);
    Spelled("END_STATE_UPDATE", END_STATE_UPDATE);
    Spelled("CLOSE_CHANNEL", CLOSE_CHANNEL);
    Spelled("END_CLOSE_CHANNEL", END_CLOSE_CHANNEL);
  }

  /** The bytes of a signed message: its first and last word, and five numbers of eight bytes between commas. */
  lemma SignedBytes(t: Terms)
    ensures var fields := Itob(t.port) + [44] + Itob(t.app) + [44] + Itob(t.alice) + [44] + Itob(t.bob) + [44]
                          + Itob(t.timestamp);
            && Encode(StateUpdate, t) == STATE_UPDATE + fields + END_STATE_UPDATE
            && Encode(CloseChannel, t) == CLOSE_CHANNEL + fields + END_CLOSE_CHANNEL
  {
    hide Itob, Prefix, Suffix, Assemble;
    FramesSpelled();
    AssembleFields(StateUpdate, Itob(t.port), t.app, Itob(t.alice), Itob(t.bob), Itob(t.timestamp));
    AssembleFields(CloseChannel, Itob(t.port), t.app, Itob(t.alice), Itob(t.bob), Itob(t.timestamp));
  }

  /** The fields cut their own bytes. */
  lemma FieldsCut(port: Bytes, app: u64, alice: Bytes, bob: Bytes, timestamp: Bytes)
    ensures CutAt(Fields(port, Itob(app), alice, bob, timestamp), app, |port|, |alice|, |bob|)
  {
    hide Itob;
    var b := Fields(port, Itob(app), alice, bob, timestamp);
    assert b[|port| + 1..|port| + 9] == Itob(app);
  }

  /** Whatever is cut this way is the fields between the cuts. */
  lemma CutFields(b: Bytes, app: u64, p: nat, i: nat, j: nat)
    requires CutAt(b, app, p, i, j)
    ensures b == Fields(b[..p], Itob(app), b[p + 10..p + 10 + i], b[p + 11 + i..p + 11 + i + j], b[p + 12 + i + j..])
  {
    hide Itob;
  }

  lemma Unwrap(front: Bytes, a: Bytes, b: Bytes, back: Bytes)
    requires front + a + back == front + b + back
    ensures a == b
  {
    assert |a| == |b|;
    assert (front + a + back)[|front|..|front| + |a|] == a;
    assert (front + b + back)[|front|..|front| + |b|] == b;
  }

  /** The arguments rebuild the signed message of these terms for this application. */
  predicate Rebuilds(
    kind: Kind, port: Bytes, app: u64, alice: Bytes, bob: Bytes, timestamp: Bytes, t: Terms)
  {
    && |alice| <= 8 && |bob| <= 8 && |timestamp| <= 8
    && Assemble(kind, port, app, alice, bob, timestamp) == Encode(kind, t)
  }

  /** The arguments are the eight-byte encodings of what was signed, for the application it was signed for. */
  predicate AsSigned(port: Bytes, app: u64, alice: Bytes, bob: Bytes, timestamp: Bytes, t: Terms) {
    && app == t.app && port == Itob(t.port)
    && alice == Itob(t.alice) && bob == Itob(t.bob) && timestamp == Itob(t.timestamp)
  }

  lemma RebuildsFields(kind: Kind, port: Bytes, app: u64, alice: Bytes, bob: Bytes, timestamp: Bytes, t: Terms)
    ensures Assemble(kind, port, app, alice, bob, timestamp) == Encode(kind, t)
       <==> Fields(port, Itob(app), alice, bob, timestamp) == Body(t)
  {
    hide Itob, Prefix, Suffix, Assemble, Fields;
    AssembleFields(kind, port, app, alice, bob, timestamp);
    AssembleFields(kind, Itob(t.port), t.app, Itob(t.alice), Itob(t.bob), Itob(t.timestamp));
    if Assemble(kind, port, app, alice, bob, timestamp) == Encode(kind, t) {
      Unwrap(Prefix(kind), Fields(port, Itob(app), alice, bob, timestamp), Body(t), Suffix(kind));
    }
  }

  /** From the signed message of unambiguous terms the contract reads what was signed, whatever the port's length. */
  lemma ClearlyRead(
    kind: Kind, port: Bytes, app: u64, alice: Bytes, bob: Bytes, timestamp: Bytes, t: Terms)
    requires Rebuilds(kind, port, app, alice, bob, timestamp, t) && !Ambiguous(t, app)
    ensures AsSigned(port, app, alice, bob, timestamp, t)
  {
    hide Assemble, Encode, Fields, Itob, CutAt;
    if |port| <= 8 {
      AssembleUnique(kind, port, app, alice, bob, timestamp, kind, t);
    } else {
      RebuildsFields(kind, port, app, alice, bob, timestamp, t);
      FieldsCut(port, app, alice, bob, timestamp);
    }
  }

  /** Exactly the ambiguous terms can be read as something else than what was signed. */
  lemma OtherReading(kind: Kind, t: Terms, app: u64)
    ensures Ambiguous(t, app)
       <==> exists port, alice, bob, timestamp ::
              Rebuilds(kind, port, app, alice, bob, timestamp, t) && !AsSigned(port, app, alice, bob, timestamp, t)
  {
    hide Assemble, Encode, Fields, Itob, CutAt, Body;
    if exists port, alice, bob, timestamp ::
         Rebuilds(kind, port, app, alice, bob, timestamp, t) && !AsSigned(port, app, alice, bob, timestamp, t)
    {
      var port, alice, bob, timestamp :|
        Rebuilds(kind, port, app, alice, bob, timestamp, t) && !AsSigned(port, app, alice, bob, timestamp, t);
      if !Ambiguous(t, app) {
        ClearlyRead(kind, port, app, alice, bob, timestamp, t);
      }
    }
    if Ambiguous(t, app) {
      var p: nat, i: nat, j: nat :|
        8 < p <= 32 && i <= 8 && j <= 8 && 24 <= p + i + j && CutAt(Body(t), app, p, i, j);
      var b := Body(t);
      CutBounds(b, app, p, i, j);
      CutFields(b, app, p, i, j);
      var port, alice := b[..p], b[p + 10..p + 10 + i];
      var bob, timestamp := b[p + 11 + i..p + 11 + i + j], b[p + 12 + i + j..];
      RebuildsFields(kind, port, app, alice, bob, timestamp, t);
      assert Rebuilds(kind, port, app, alice, bob, timestamp, t);
    }
  }

  predicate NoComma(b: Bytes) {
    forall i | 0 <= i < |b| :: b[i] != 44
  }

  /** Terms without a comma's byte in any number are ambiguous for no application but those their balances name. */
  lemma CommaFree(t: Terms, app: u64)
    requires NoComma(Itob(t.port)) && NoComma(Itob(t.app)) && NoComma(Itob(t.alice)) && NoComma(Itob(t.bob))
    requires NoComma(Itob(t.timestamp)) && t.alice != app && t.bob != app
    ensures !Ambiguous(t, app)
  {
    hide Itob;
    var b := Body(t);
    assert b[18..26] == Itob(t.alice) && b[27..35] == Itob(t.bob);
    forall p: nat, i: nat, j: nat | 8 < p <= 32 && CutAt(b, app, p, i, j)
      ensures false
    {
      CommasAt(t, p);
      if Itob(t.alice) == Itob(app) {
        ItobInjective(t.alice, app);
      }
      if Itob(t.bob) == Itob(app) {
        ItobInjective(t.bob, app);
      }
    }
  }

  lemma CommasAt(t: Terms, p: nat)
    requires NoComma(Itob(t.port)) && NoComma(Itob(t.app)) && NoComma(Itob(t.alice)) && NoComma(Itob(t.bob))
    requires NoComma(Itob(t.timestamp)) && p < 44 && Body(t)[p] == 44
    ensures p in {8, 17, 26, 35}
  {
    hide Itob;
    var b := Body(t);
    assert forall q | 0 <= q < 8 :: b[q] == Itob(t.port)[q];
    assert forall q | 9 <= q < 17 :: b[q] == Itob(t.app)[q - 9];
    assert forall q | 18 <= q < 26 :: b[q] == Itob(t.alice)[q - 18];
    assert forall q | 27 <= q < 35 :: b[q] == Itob(t.bob)[q - 27];
    assert forall q | 36 <= q < 44 :: b[q] == Itob(t.timestamp)[q - 36];
  }

  lemma CutBounds(b: Bytes, app: u64, p: nat, i: nat, j: nat)
    requires CutAt(b, app, p, i, j)
    ensures p + 12 + i + j <= |b|
  {
  }

  // ----- what the contract can read -----

  /** The numbers that a call of an application takes from signed bytes. */
  datatype Reading = Reading(alice: u64, bob: u64, timestamp: u64)

  /** These arguments rebuild the signed bytes for the application, and `btoi` gives these numbers. */
  predicate ReadFrom(t: Terms, app: u64, r: Reading, port: Bytes, alice: Bytes, bob: Bytes, timestamp: Bytes) {
    && |alice| <= 8 && |bob| <= 8 && |timestamp| <= 8
    && Fields(port, Itob(app), alice, bob, timestamp) == Body(t)
    && Btoi(alice) == r.alice && Btoi(bob) == r.bob && Btoi(timestamp) == r.timestamp
  }

  /** The application can read the signed terms like this. */
  ghost predicate ReadsAs(t: Terms, app: u64, r: Reading) {
    exists port, alice, bob, timestamp :: ReadFrom(t, app, r, port, alice, bob, timestamp)
  }

  function AsMeant(t: Terms): Reading {
    Reading(t.alice, t.bob, t.timestamp)
  }

  /** Its own application can read the terms as they are meant. */
  lemma PlainReading(t: Terms)
    ensures ReadsAs(t, t.app, AsMeant(t))
  {
    hide Itob, Fields;
    BtoiItob(t.alice);
    BtoiItob(t.bob);
    BtoiItob(t.timestamp);
    assert ReadFrom(t, t.app, AsMeant(t), Itob(t.port), Itob(t.alice), Itob(t.bob), Itob(t.timestamp));
  }

  /** Unambiguous terms are read by their own application only, and only as they are meant. */
  lemma ClearReading(t: Terms, app: u64, r: Reading)
    requires ReadsAs(t, app, r) && !Ambiguous(t, app)
    ensures t.app == app && r == AsMeant(t)
  {
    hide Itob, Fields, Body, Encode, Assemble, Ambiguous;
    var port, alice, bob, timestamp :| ReadFrom(t, app, r, port, alice, bob, timestamp);
    RebuildsFields(StateUpdate, port, app, alice, bob, timestamp, t);
    ClearlyRead(StateUpdate, port, app, alice, bob, timestamp, t);
    BtoiItob(t.alice);
    BtoiItob(t.bob);
    BtoiItob(t.timestamp);
  }
}
