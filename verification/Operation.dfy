/** The byte buffers and transaction groups that the nodes' clients build. */
module Operation {
  import opened Bytes
  import opened Messages
  import opened Contract
  import opened OffChain
  import opened StoredStates
  import GlobalState

  // ----- buffers -----

  /** Each byte of the encoding is one digit of n in base 256. */
  lemma {:induction false} BigEndianAt(n: nat, width: nat, i: nat)
    requires i < width
    ensures BigEndian(n, width)[i] == n / Pow256(width - 1 - i) % 256
    decreases width
  {
    if i < width - 1 {
      BigEndianAt(n / 256, width - 1, i);
      DivideTwice(n, Pow256(width - 2 - i));
    }
  }

  lemma DivideTwice(n: nat, p: nat)
    requires p >= 1
    ensures n / 256 / p == n / (256 * p)
  {
    var q, r := n / 256 / p, n / 256 % p;
    assert n == 256 * (q * p + r) + n % 256;
    assert n == q * (256 * p) + (256 * r + n % 256);
    assert 0 <= 256 * r + n % 256 < 256 * p;
    QuotientUnique(n, 256 * p, q, 256 * r + n % 256);
  }

  lemma QuotientUnique(n: nat, d: nat, q: nat, r: nat)
    requires n == q * d + r && r < d
    ensures n / d == q
  {
    if n / d > q {
      MulMonotone(q + 1, n / d, d);
    } else if n / d < q {
      MulMonotone(n / d + 1, q, d);
    }
  }

  lemma MulMonotone(a: nat, b: nat, d: nat)
    requires a <= b
    ensures a * d <= b * d
  {
  }

  /** `binary.BigEndian.PutUint64`: writes the number into the first eight bytes of the buffer. */
  method PutUint64(b: array<byte>, v: u64)
    requires b.Length >= 8
    modifies b
    ensures b[..8] == Itob(v) && b[8..] == old(b[8..])
  {
    b[0] := v / 0x100_0000_0000_0000 % 256;
    b[1] := v / 0x1_0000_0000_0000 % 256;
    b[2] := v / 0x100_0000_0000 % 256;
    b[3] := v / 0x1_0000_0000 % 256;
    b[4] := v / 0x100_0000 % 256;
    b[5] := v / 0x1_0000 % 256;
    b[6] := v / 0x100 % 256;
    b[7] := v % 256;
    Digits(v);
    hide Itob;
    assert b[..8] == [b[0], b[1], b[2], b[3], b[4], b[5], b[6], b[7]];
  }

  lemma Digits(v: u64)
    ensures Itob(v) == [
      v / 0x100_0000_0000_0000 % 256, v / 0x1_0000_0000_0000 % 256, v / 0x100_0000_0000 % 256, v / 0x1_0000_0000 % 256,
      v / 0x100_0000 % 256, v / 0x1_0000 % 256, v / 0x100 % 256, v % 256]
  {
    forall i: nat | i < 8
      ensures Itob(v)[i] == v / Pow256(7 - i) % 256
    {
      BigEndianAt(v, 8, i);
    }
    Powers();
    hide Itob, Pow256;
  }

  lemma Powers()
    ensures Pow256(0) == 1 && Pow256(1) == 0x100 && Pow256(2) == 0x1_0000 && Pow256(3) == 0x100_0000
    ensures Pow256(4) == 0x1_0000_0000 && Pow256(5) == 0x100_0000_0000 && Pow256(6) == 0x1_0000_0000_0000
    ensures Pow256(7) == 0x100_0000_0000_0000
  {
    assert Pow256(2) == 0x1_0000;
    assert Pow256(4) == 0x1_0000_0000;
    assert Pow256(6) == 0x1_0000_0000_0000;
  }

  method Uint64ToBytes(val: u64) returns (b: Bytes)
    ensures b == Itob(val)
  {
    var buffer := new byte[8];
    PutUint64(buffer, val);
    b := buffer[..8];
  }

  /** The buffer that every signer and verifier grows piece by piece. */
  method BuildMessage(kind: Kind, t: Terms) returns (data: Bytes)
    ensures data == Encode(kind, t)
  {
    hide Itob, Prefix, Suffix;
    data := Prefix(kind);
    var port := Uint64ToBytes(t.port);
    data := data + port;
    data := data + COMMA;
    var app := Uint64ToBytes(t.app);
    data := data + app;
    data := data + COMMA;
    var alice := Uint64ToBytes(t.alice);
    data := data + alice;
    data := data + COMMA;
    var bob := Uint64ToBytes(t.bob);
    data := data + bob;
    data := data + COMMA;
    var timestamp := Uint64ToBytes(t.timestamp);
    data := data + timestamp;
    data := data + Suffix(kind);
  }

  method SignState(c: Crypto, account: Bytes, app: u64, alice: u64, bob: u64, port: u64, timestamp: i64)
    returns (sig: Bytes)
    ensures var t := Terms(port, app, alice, bob, ToU64(timestamp));
            sig == Sign(c, account, StateUpdate, t) == c.sign(account, c.hash(Encode(StateUpdate, t)))
  {
    hide Encode;
    var data := BuildMessage(StateUpdate, Terms(port, app, alice, bob, ToU64(timestamp)));
    sig := c.sign(account, c.hash(data));
  }

  method SignClose(c: Crypto, account: Bytes, app: u64, alice: u64, bob: u64, port: u64, timestamp: i64)
    returns (sig: Bytes)
    ensures var t := Terms(port, app, alice, bob, ToU64(timestamp));
            sig == Sign(c, account, CloseChannel, t) == c.sign(account, c.hash(Encode(CloseChannel, t)))
  {
    hide Encode;
    var data := BuildMessage(CloseChannel, Terms(port, app, alice, bob, ToU64(timestamp)));
    sig := c.sign(account, c.hash(data));
  }

  method VerifyState(c: Crypto, app: u64, alice: u64, bob: u64, port: u64, sig: Bytes, key: Bytes, timestamp: i64)
    returns (ok: bool)
    ensures var t := Terms(port, app, alice, bob, ToU64(timestamp));
            && ok == Verify(c, StateUpdate, t, sig, key)
            && (ok <==> |sig| == 64 && |key| == 32 && c.verify(c.hash(Encode(StateUpdate, t)), sig, key))
  {
    hide Encode;
    var data := BuildMessage(StateUpdate, Terms(port, app, alice, bob, ToU64(timestamp)));
    ok := SignatureShape(sig, key) && c.verify(c.hash(data), sig, key);
  }

  method VerifyClose(c: Crypto, app: u64, alice: u64, bob: u64, port: u64, sig: Bytes, key: Bytes, timestamp: i64)
    returns (ok: bool)
    ensures var t := Terms(port, app, alice, bob, ToU64(timestamp));
            && ok == Verify(c, CloseChannel, t, sig, key)
            && (ok <==> |sig| == 64 && |key| == 32 && c.verify(c.hash(Encode(CloseChannel, t)), sig, key))
  {
    hide Encode;
    var data := BuildMessage(CloseChannel, Terms(port, app, alice, bob, ToU64(timestamp)));
    ok := SignatureShape(sig, key) && c.verify(c.hash(data), sig, key);
  }

  /** What one account signs, another takes for its own key exactly when it is the same account, message kind and
      numbers: signing and verifying meet in the digest. */
  method SignThenVerify(
    c: Crypto, k: Bytes, l: Bytes, kind: Kind, mode: Kind, app: u64, alice: u64, bob: u64, timestamp: i64,
    app1: u64, alice1: u64, bob1: u64, timestamp1: i64) returns (ok: bool)
    requires Ideal(c, {k, l}) && Injective(c)
    ensures ok <==> && k == l && kind == mode && app == app1 && alice == alice1 && bob == bob1
                    && timestamp == timestamp1
  {
    hide Ideal, Injective, Sign, Verify, Encode;
    var sig;
    match kind {
      case StateUpdate => sig := SignState(c, k, app, alice, bob, 4161, timestamp);
      case CloseChannel => sig := SignClose(c, k, app, alice, bob, 4161, timestamp);
    }
    match mode {
      case StateUpdate => ok := VerifyState(c, app1, alice1, bob1, 4161, sig, l, timestamp1);
      case CloseChannel => ok := VerifyClose(c, app1, alice1, bob1, 4161, sig, l, timestamp1);
    }
    VerifiesTerms(c, {k, l}, k, l, mode, kind, TermsOf(app1, alice1, bob1, timestamp1),
                  TermsOf(app, alice, bob, timestamp));
    TimestampCast(timestamp);
    TimestampCast(timestamp1);
  }

  // ----- calls -----

  /** A call of a channel's application, as it is handed to the chain. */
  datatype AppCall = AppCall(app: u64, args: seq<Bytes>, accounts: set<Bytes>, sender: Bytes, groupId: Bytes)

  /** The call that closes with a state, or disputes with it. */
  function ClosingCall(m: Method, app: u64, e: OffState, accounts: set<Bytes>, sender: Bytes): AppCall {
    AppCall(app, Packed(m, e), accounts, sender, [])
  }

  /** The argument list of `InitiateCloseChannel`, `RaiseDispute` and `CooperativeCloseChannel`. */
  method PackArguments(m: Method, port: u64, alice: u64, bob: u64, timestamp: u64, aliceSig: Bytes, bobSig: Bytes)
    returns (args: seq<Bytes>)
    ensures args == [MethodName(m), Itob(port), Itob(alice), Itob(bob), Itob(timestamp), aliceSig, bobSig]
  {
    hide Itob, MethodName;
    var portBytes := new byte[8];
    PutUint64(portBytes, port);
    var aliceBytes := new byte[8];
    PutUint64(aliceBytes, alice);
    var bobBytes := new byte[8];
    PutUint64(bobBytes, bob);
    var timestampBytes := new byte[8];
    PutUint64(timestampBytes, timestamp);
    args := [MethodName(m), portBytes[..8], aliceBytes[..8], bobBytes[..8], timestampBytes[..8], aliceSig, bobSig];
  }

  // ----- the group that pays for the opcodes -----

  const CALL_BUDGET: nat := 700

  /** `math.Ceil(target / 700)`. */
  function BudgetCalls(target: nat): nat {
    (target + CALL_BUDGET - 1) / CALL_BUDGET
  }

  /** The i-th call that only brings its budget. */
  function BudgetCall(app: u64, sender: Bytes, i: nat): AppCall {
    AppCall(app, [MethodName(IncreaseBudget), Ascii(GlobalState.FormatUint(i))], {}, sender, [])
  }

  function BudgetGroup(main: AppCall, n: nat): seq<AppCall> {
    [main] + seq(n, i requires 0 <= i < n => BudgetCall(main.app, main.sender, i))
  }

  /** What is sent for a main call with this target: as many budget calls as 700 goes into the target, rounded up, and
      all of them in the main call's group. */
  ghost predicate SentFor(main: AppCall, target: nat, group: seq<AppCall>) {
    && |group| >= 1 && CALL_BUDGET * (|group| - 1) >= target > CALL_BUDGET * (|group| - 2)
    && exists id ::
         && group[0] == main.(groupId := id)
         && forall i | 0 <= i < |group| - 1 :: group[i + 1] == BudgetCall(main.app, main.sender, i).(groupId := id)
  }

  /** Builds the group around the main call; `groupId` stands for the chain's digest of the ungrouped transactions. */
  method IncreaseBudgetGroup(main: AppCall, target: nat, groupId: seq<AppCall> -> Bytes) returns (group: seq<AppCall>)
    ensures SentFor(main, target, group)
    ensures forall i | 0 <= i < |group| :: group[i].groupId == groupId(BudgetGroup(main, |group| - 1))
  {
    hide MethodName, Ascii, GlobalState.FormatUint;
    var n := BudgetCalls(target);
    var unsigned: seq<AppCall> := [];
    for i := 0 to n
      invariant unsigned == seq(i, k requires 0 <= k < i => BudgetCall(main.app, main.sender, k))
    {
      unsigned := unsigned + [BudgetCall(main.app, main.sender, i)];
    }
    var id := groupId([main] + unsigned);
    group := [main.(groupId := id)];
    for i := 0 to n
      invariant |group| == i + 1
      invariant group[0] == main.(groupId := id)
      invariant forall k | 0 <= k < i :: group[k + 1] == BudgetCall(main.app, main.sender, k).(groupId := id)
      invariant forall k | 0 <= k <= i :: group[k].groupId == id
    {
      group := group + [unsigned[i].(groupId := id)];
    }
    assert |group| - 1 == n && id == groupId(BudgetGroup(main, n));
  }

  lemma AsciiDigits(s: string, t: string)
    requires forall i | 0 <= i < |s| :: '0' <= s[i] <= '9'
    requires forall i | 0 <= i < |t| :: '0' <= t[i] <= '9'
    requires Ascii(s) == Ascii(t)
    ensures s == t
  {
    forall i | 0 <= i < |s|
      ensures s[i] == t[i]
    {
      assert Ascii(s)[i] == s[i] as int && Ascii(t)[i] == t[i] as int;
    }
  }

  /** The counter keeps the budget calls of a group apart, so the chain takes each of them once. */
  lemma BudgetCallsDiffer(app: u64, sender: Bytes, i: nat, j: nat)
    ensures BudgetCall(app, sender, i) == BudgetCall(app, sender, j) <==> i == j
  {
    if BudgetCall(app, sender, i) == BudgetCall(app, sender, j) {
      assert BudgetCall(app, sender, i).args[1] == BudgetCall(app, sender, j).args[1];
      GlobalState.FormatDecimal(i);
      GlobalState.FormatDecimal(j);
      AsciiDigits(GlobalState.FormatUint(i), GlobalState.FormatUint(j));
      GlobalState.ParseFormat(i);
      GlobalState.ParseFormat(j);
    }
  }
}
