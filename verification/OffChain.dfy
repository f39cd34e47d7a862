/** The off-chain half: Go's integers, the signed states of a log and the balance test of a payment. */
module OffChain {
  import opened Bytes
  import opened Messages
  import opened Contract

  // ----- Go's integers -----

  const I64_LIMIT: int := 0x8000_0000_0000_0000

  type i64 = n: int | -0x8000_0000_0000_0000 <= n < 0x8000_0000_0000_0000

  /** The conversion int64(n). */
  function ToI64(n: u64): i64 {
    if n < I64_LIMIT then n else n - U64_LIMIT
  }

  /** The conversion uint64(n). */
  function ToU64(n: i64): u64 {
    if n >= 0 then n else n + U64_LIMIT
  }

  /** The result of uint64 arithmetic. */
  function WrapU(n: int): u64 {
    n % U64_LIMIT
  }

  /** The result of int64 arithmetic. */
  function WrapI(n: int): i64 {
    ToI64(WrapU(n))
  }

  // ----- the test of a payment -----

  /** What the receiver computes from the last balances and the proposed ones. */
  predicate BalancesMove(lastOther: u64, newOther: u64, lastMine: u64, newMine: u64) {
    var otherDiff := WrapI(ToI64(lastOther) - ToI64(newOther));
    var myDiff := WrapI(ToI64(lastMine) - ToI64(newMine));
    otherDiff > 0 && myDiff == WrapI(-1 * otherDiff)
  }

  /** The proposal moves d from the other party to me, modulo 2^64. */
  ghost predicate Moves(d: int, lastOther: u64, newOther: u64, lastMine: u64, newMine: u64) {
    1 <= d < I64_LIMIT && newOther == WrapU(lastOther - d) && newMine == WrapU(lastMine + d)
  }

  /** A wrapped difference is the difference up to 2^64. */
  lemma WrapDiff(a: u64, b: u64)
    ensures var r := WrapI(ToI64(a) - ToI64(b));
            r == a - b || r == a - b + U64_LIMIT || r == a - b - U64_LIMIT
  {
  }

  lemma WrapNear(n: int)
    requires -U64_LIMIT <= n < 2 * U64_LIMIT
    ensures WrapU(n) == if n < 0 then n + U64_LIMIT else if n < U64_LIMIT then n else n - U64_LIMIT
  {
  }

  /** The int64 difference of two numbers that are d apart, modulo 2^64, is d. */
  lemma DiffApart(n: u64, m: u64, d: int)
    requires -I64_LIMIT < d < I64_LIMIT && (m == n - d || m == n - d + U64_LIMIT || m == n - d - U64_LIMIT)
    ensures WrapI(ToI64(n) - ToI64(m)) == d
  {
    hide WrapI;
    WrapDiff(n, m);
  }

  lemma MovesAccepted(d: int, lastOther: u64, newOther: u64, lastMine: u64, newMine: u64)
    requires Moves(d, lastOther, newOther, lastMine, newMine)
    ensures WrapI(ToI64(lastOther) - ToI64(newOther)) == d
    ensures BalancesMove(lastOther, newOther, lastMine, newMine)
  {
    hide WrapU, WrapI, ToI64;
    WrapNear(lastOther - d);
    WrapNear(lastMine + d);
    DiffApart(lastOther, newOther, d);
    DiffApart(lastMine, newMine, -d);
    WrapNegation(d);
  }

  lemma WrapNegation(d: int)
    requires 1 <= d < I64_LIMIT
    ensures WrapI(-1 * d) == -d
  {
  }

  /** The test accepts exactly the proposals that move some amount between 1 and 2^63 - 1, modulo 2^64. */
  lemma BalancesMoveMeaning(lastOther: u64, newOther: u64, lastMine: u64, newMine: u64)
    ensures BalancesMove(lastOther, newOther, lastMine, newMine)
       <==> exists d :: Moves(d, lastOther, newOther, lastMine, newMine)
  {
    forall d | Moves(d, lastOther, newOther, lastMine, newMine)
      ensures BalancesMove(lastOther, newOther, lastMine, newMine)
    {
      MovesAccepted(d, lastOther, newOther, lastMine, newMine);
    }
    if BalancesMove(lastOther, newOther, lastMine, newMine) {
      hide WrapU, WrapI;
      var d := WrapI(ToI64(lastOther) - ToI64(newOther));
      WrapDiff(lastOther, newOther);
      WrapDiff(lastMine, newMine);
      WrapNegation(d);
      WrapNear(lastOther - d);
      WrapNear(lastMine + d);
      assert Moves(d, lastOther, newOther, lastMine, newMine);
    }
  }

  /** So the sum is kept modulo 2^64; it is kept exactly when the other party had the amount and mine does not wrap. */
  lemma BalancesMoveSum(d: int, lastOther: u64, newOther: u64, lastMine: u64, newMine: u64)
    requires Moves(d, lastOther, newOther, lastMine, newMine)
    ensures WrapU(newOther + newMine) == WrapU(lastOther + lastMine)
    ensures newOther + newMine == lastOther + lastMine
       <==> (d <= lastOther <==> lastMine + d < U64_LIMIT)
    ensures d <= lastOther && lastMine < I64_LIMIT ==> newMine == lastMine + d && newOther == lastOther - d
    ensures lastMine < I64_LIMIT ==> newMine > lastMine
  {
  }

  // ----- signed states and logs -----

  const PORT: u64 := 4161

  /** What a node remembers of a channel's application. */
  datatype Info = Info(
    app: u64, alice: Bytes, bob: Bytes, aliceOnChain: u64, bobOnChain: u64,
    deposit: u64, penalty: u64, window: u64)

  /** A state of the channel off chain; an opening state has no signatures. */
  datatype OffState = OffState(
    timestamp: i64, alice: u64, bob: u64, aliceSig: Bytes, bobSig: Bytes, port: u64, app: u64)

  type Log = map<i64, OffState>

  /** The state a channel opens with: the balances on the chain, unsigned. */
  function OpeningState(info: Info, now: i64): OffState {
    OffState(now, info.aliceOnChain, info.bobOnChain, [], [], PORT, info.app)
  }

  function TermsOf(app: u64, alice: u64, bob: u64, timestamp: i64): Terms {
    Terms(PORT, app, alice, bob, ToU64(timestamp))
  }

  /** `SignState` and `SignClose`. */
  function Sign(c: Crypto, account: Bytes, kind: Kind, t: Terms): Bytes {
    c.sign(account, c.hash(Encode(kind, t)))
  }

  /** `VerifyState` and `VerifyClose`; Ed25519 refuses any other shape. */
  predicate Verify(c: Crypto, kind: Kind, t: Terms, sig: Bytes, key: Bytes) {
    SignatureShape(sig, key) && c.verify(c.hash(Encode(kind, t)), sig, key)
  }

  /** The account's signatures over the digests of this kind's messages have the right shape and verify under its own
      key. */
  ghost predicate Signs(c: Crypto, account: Bytes, kind: Kind) {
    forall t ::
      var digest := c.hash(Encode(kind, t));
      SignatureShape(c.sign(account, digest), account) && c.verify(digest, c.sign(account, digest), account)
  }

  /** Under this key none of the account's signatures over a message of the first kind verifies for the second. */
  ghost predicate NeverFor(c: Crypto, account: Bytes, kind: Kind, mode: Kind, key: Bytes) {
    forall t ::
      var sig := c.sign(account, c.hash(Encode(kind, t)));
      !(SignatureShape(sig, key) && c.verify(c.hash(Encode(mode, t)), sig, key))
  }

  /** Among these accounts a signature over the digest of a message verifies exactly under its signer's key and over
      that digest. */
  ghost predicate Ideal(c: Crypto, accounts: set<Bytes>) {
    forall k, l, kind, mode, t, u | k in accounts && l in accounts ::
      var digest, signed := c.hash(Encode(kind, t)), c.hash(Encode(mode, u));
      SignatureShape(c.sign(k, signed), l) && c.verify(digest, c.sign(k, signed), l) <==> k == l && digest == signed
  }

  /** What the nodes sign is the digest, and what they verify is a signature over the digest. */
  lemma SignVerify(c: Crypto, account: Bytes, kind: Kind)
    requires Signs(c, account, kind)
    ensures forall t :: Verify(c, kind, t, Sign(c, account, kind, t), account)
  {
    hide Encode;
  }

  lemma SignNeverVerifies(c: Crypto, account: Bytes, kind: Kind, mode: Kind, key: Bytes)
    requires NeverFor(c, account, kind, mode, key)
    ensures forall t :: !Verify(c, mode, t, Sign(c, account, kind, t), key)
  {
    hide Encode;
  }

  /** With an injective hash a signature verifies for its kind of message and its terms only, because messages encode
      both. */
  lemma VerifiesTerms(c: Crypto, accounts: set<Bytes>, k: Bytes, l: Bytes, kind: Kind, mode: Kind, t: Terms, u: Terms)
    requires Ideal(c, accounts) && Injective(c) && k in accounts && l in accounts
    ensures Verify(c, kind, t, Sign(c, k, mode, u), l) <==> k == l && kind == mode && t == u
  {
    hide Encode;
    EncodeInjective(kind, t, mode, u);
    assert c.hash(Encode(kind, t)) == c.hash(Encode(mode, u)) <==> Encode(kind, t) == Encode(mode, u);
  }

  lemma VerifiesOwn(c: Crypto, accounts: set<Bytes>, k: Bytes, kind: Kind, t: Terms)
    requires Ideal(c, accounts) && k in accounts
    ensures Verify(c, kind, t, Sign(c, k, kind, t), k)
  {
    hide Encode;
    assert c.hash(Encode(kind, t)) == c.hash(Encode(kind, t));
  }

  /** t is the log's greatest timestamp; only positive ones are found. */
  ghost predicate IsLatest(log: Log, t: i64) {
    t in log && t > 0 && forall u | u in log :: u <= t
  }

  ghost function Latest(log: Log): (e: Option<OffState>)
    ensures e.Some? <==> exists t :: IsLatest(log, t)
    ensures forall t :: IsLatest(log, t) ==> e == Some(log[t])
  {
    if t :| IsLatest(log, t) then Some(log[t]) else None
  }

  /** Every entry is filed under its own timestamp. */
  ghost predicate Filed(log: Log) {
    forall t | t in log :: log[t].timestamp == t
  }

  /** A proposal to pay: both new balances, the time of the new state and the payer's signature. */
  datatype PayRequest = PayRequest(from: Bytes, alice: u64, bob: u64, timestamp: u64, signature: Bytes)

  /** The answer; Lost is a response that never arrives. */
  datatype Response = Approve(signature: Bytes) | Refuse | Lost

  /** A party's own balance and the other's. */
  function Mine(me: Bytes, info: Info, alice: u64, bob: u64): u64 {
    if info.alice == me then alice else bob
  }

  function Other(me: Bytes, info: Info, alice: u64, bob: u64): u64 {
    if info.alice == me then bob else alice
  }

  /** The proposal is good for the receiver: it pays, leaves the payer the penalty, and is newer. */
  predicate Beneficial(me: Bytes, info: Info, last: OffState, r: PayRequest) {
    && BalancesMove(Other(me, info, last.alice, last.bob), Other(me, info, r.alice, r.bob),
                    Mine(me, info, last.alice, last.bob), Mine(me, info, r.alice, r.bob))
    && Other(me, info, r.alice, r.bob) >= info.penalty
    && last.timestamp < ToI64(r.timestamp)
  }

  predicate Acceptable(c: Crypto, me: Bytes, info: Info, last: OffState, r: PayRequest) {
    && Beneficial(me, info, last, r)
    && Verify(c, StateUpdate, TermsOf(info.app, r.alice, r.bob, ToI64(r.timestamp)), r.signature, r.from)
  }

  /** The state the receiver signs and keeps. */
  function Received(c: Crypto, me: Bytes, info: Info, r: PayRequest): OffState {
    var t := ToI64(r.timestamp);
    var mine := Sign(c, me, StateUpdate, TermsOf(info.app, r.alice, r.bob, t));
    if info.alice == me then OffState(t, r.alice, r.bob, mine, r.signature, PORT, info.app)
    else OffState(t, r.alice, r.bob, r.signature, mine, PORT, info.app)
  }

  /** The payer's proposal; nothing compares the amount with its balance. */
  function Proposal(c: Crypto, me: Bytes, info: Info, last: OffState, amount: u64, now: i64): PayRequest {
    var myNew := WrapU(Mine(me, info, last.alice, last.bob) - amount);
    var otherNew := WrapU(Other(me, info, last.alice, last.bob) + amount);
    var alice := if info.alice == me then myNew else otherNew;
    var bob := if info.alice == me then otherNew else myNew;
    PayRequest(me, alice, bob, ToU64(now), Sign(c, me, StateUpdate, TermsOf(info.app, alice, bob, now)))
  }

  /** The state the payer keeps once the partner has signed: its own signature always goes in Alice's place. */
  function Kept(info: Info, r: PayRequest, partnerSig: Bytes): OffState {
    OffState(ToI64(r.timestamp), r.alice, r.bob, r.signature, partnerSig, PORT, info.app)
  }

  lemma TimestampCast(t: i64)
    ensures ToI64(ToU64(t)) == t
  {
  }

  /** A state with a newer time becomes the log's latest. */
  lemma NewerIsLatest(log: Log, e: OffState)
    requires Filed(log) && Latest(log).Some? && Latest(log).value.timestamp < e.timestamp
    ensures Filed(log[e.timestamp := e]) && Latest(log[e.timestamp := e]) == Some(e) && e.timestamp > 0
  {
    var t :| IsLatest(log, t);
    assert IsLatest(log[e.timestamp := e], e.timestamp);
  }

  // ----- receiver safety -----

  /** An accepted request becomes the latest state of the log, whatever the log and the request were. */
  lemma AcceptedIsLatest(c: Crypto, me: Bytes, info: Info, log: Log, r: PayRequest)
    requires Filed(log) && Latest(log).Some? && Acceptable(c, me, info, Latest(log).value, r)
    ensures var e := Received(c, me, info, r);
            Filed(log[e.timestamp := e]) && Latest(log[e.timestamp := e]) == Some(e)
  {
    NewerIsLatest(log, Received(c, me, info, r));
  }

  /** From a balance below 2^63 an accepted request makes the receiver strictly richer. */
  lemma AcceptedGains(c: Crypto, me: Bytes, info: Info, last: OffState, r: PayRequest)
    requires Acceptable(c, me, info, last, r) && Mine(me, info, last.alice, last.bob) < I64_LIMIT
    ensures Mine(me, info, r.alice, r.bob) > Mine(me, info, last.alice, last.bob)
  {
    var lo, no := Other(me, info, last.alice, last.bob), Other(me, info, r.alice, r.bob);
    var lm, nm := Mine(me, info, last.alice, last.bob), Mine(me, info, r.alice, r.bob);
    BalancesMoveMeaning(lo, no, lm, nm);
    var d :| Moves(d, lo, no, lm, nm);
    BalancesMoveSum(d, lo, no, lm, nm);
  }

  /** The log after any sequence of requests from the partner. */
  ghost function ReceiveAll(c: Crypto, me: Bytes, info: Info, log: Log, rs: seq<PayRequest>): Log
    decreases |rs|
  {
    if rs == [] then log
    else ReceiveAll(c, me, info, ReceiveOne(c, me, info, log, rs[0]), rs[1..])
  }

  ghost function ReceiveOne(c: Crypto, me: Bytes, info: Info, log: Log, r: PayRequest): Log {
    if Latest(log).Some? && Acceptable(c, me, info, Latest(log).value, r) then
      var e := Received(c, me, info, r);
      log[e.timestamp := e]
    else log
  }

  /** My balance in the latest state; 0 when there is none. */
  ghost function MyLatest(me: Bytes, info: Info, log: Log): u64 {
    if Latest(log).None? then 0 else Mine(me, info, Latest(log).value.alice, Latest(log).value.bob)
  }

  /** No sequence of requests, honest or not, lowers the receiver's latest balance, as long as it stays below 2^63. */
  lemma {:induction false} ReceivingNeverLoses(c: Crypto, me: Bytes, info: Info, log: Log, rs: seq<PayRequest>)
    requires Filed(log) && Latest(log).Some?
    requires forall n | 0 <= n < |rs| :: MyLatest(me, info, ReceiveAll(c, me, info, log, rs[..n])) < I64_LIMIT
    ensures Filed(ReceiveAll(c, me, info, log, rs)) && Latest(ReceiveAll(c, me, info, log, rs)).Some?
    ensures MyLatest(me, info, ReceiveAll(c, me, info, log, rs)) >= MyLatest(me, info, log)
    decreases |rs|
  {
    if rs != [] {
      var r, log1 := rs[0], ReceiveOne(c, me, info, log, rs[0]);
      assert rs[..0] == [];
      if Acceptable(c, me, info, Latest(log).value, r) {
        AcceptedIsLatest(c, me, info, log, r);
        AcceptedGains(c, me, info, Latest(log).value, r);
      }
      forall n | 0 <= n < |rs[1..]|
        ensures MyLatest(me, info, ReceiveAll(c, me, info, log1, rs[1..][..n])) < I64_LIMIT
      {
        assert rs[..n + 1][1..] == rs[1..][..n];
      }
      ReceivingNeverLoses(c, me, info, log1, rs[1..]);
    }
  }
}
