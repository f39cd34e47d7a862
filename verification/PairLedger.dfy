/** Two honest nodes paying each other keep the two accounts of a simple transfer ledger. */
module PairLedger {
  import opened Bytes
  import opened Messages
  import opened Contract
  import opened OffChain

  /** Alice's log of the channel and Bob's. */
  datatype Pair = Pair(alice: Log, bob: Log)

  datatype ChannelPayment = ChannelPayment(byAlice: bool, amount: u64, now: i64)

  /** The channel as both nodes know it; the two accounts differ. */
  ghost predicate Channel(info: Info) {
    info.alice != info.bob
  }

  function Payer(info: Info, p: ChannelPayment): Bytes {
    if p.byAlice then info.alice else info.bob
  }

  function Payee(info: Info, p: ChannelPayment): Bytes {
    if p.byAlice then info.bob else info.alice
  }

  /** A whole payment: proposed, accepted by the payee, answered, verified and kept; None when it is not accepted. */
  ghost function Complete(c: Crypto, info: Info, s: Pair, p: ChannelPayment): Option<Pair> {
    var payerLog := if p.byAlice then s.alice else s.bob;
    var payeeLog := if p.byAlice then s.bob else s.alice;
    if Latest(payerLog).None? || Latest(payeeLog).None? then None
    else
      var r := Proposal(c, Payer(info, p), info, Latest(payerLog).value, p.amount, p.now);
      var t := TermsOf(info.app, r.alice, r.bob, ToI64(r.timestamp));
      var answer := Sign(c, Payee(info, p), StateUpdate, t);
      if !Acceptable(c, Payee(info, p), info, Latest(payeeLog).value, r) then None
      else if !Verify(c, StateUpdate, t, answer, Payee(info, p)) then None
      else
        var kept, received := Kept(info, r, answer), Received(c, Payee(info, p), info, r);
        var payerLog1 := payerLog[kept.timestamp := kept];
        var payeeLog1 := payeeLog[received.timestamp := received];
        Some(if p.byAlice then Pair(payerLog1, payeeLog1) else Pair(payeeLog1, payerLog1))
  }

  ghost function CompleteAll(c: Crypto, info: Info, s: Pair, ps: seq<ChannelPayment>): Option<Pair>
    decreases |ps|
  {
    if ps == [] then Some(s)
    else
      match Complete(c, info, s, ps[0])
      case None => None
      case Some(s1) => CompleteAll(c, info, s1, ps[1..])
  }

  // ----- the ledger -----

  /** Two accounts. */
  datatype Split = Split(alice: nat, bob: nat)

  function Pay(b: Split, p: ChannelPayment): Split
    requires p.amount <= if p.byAlice then b.alice else b.bob
  {
    if p.byAlice then Split(b.alice - p.amount, b.bob + p.amount) else Split(b.alice + p.amount, b.bob - p.amount)
  }

  /** The payer has the amount. */
  predicate Affordable(b: Split, p: ChannelPayment) {
    p.amount <= if p.byAlice then b.alice else b.bob
  }

  predicate AllAffordable(b: Split, ps: seq<ChannelPayment>)
    decreases |ps|
  {
    ps == [] || (Affordable(b, ps[0]) && AllAffordable(Pay(b, ps[0]), ps[1..]))
  }

  function PayAll(b: Split, ps: seq<ChannelPayment>): Split
    requires AllAffordable(b, ps)
    decreases |ps|
  {
    if ps == [] then b else PayAll(Pay(b, ps[0]), ps[1..])
  }

  /** The amount is a positive int64, and what is left to the payer covers the penalty. */
  predicate Spares(penalty: nat, b: Split, p: ChannelPayment) {
    1 <= p.amount < I64_LIMIT && p.amount + penalty <= if p.byAlice then b.alice else b.bob
  }

  predicate AllSpare(penalty: nat, b: Split, ps: seq<ChannelPayment>)
    requires AllAffordable(b, ps)
    decreases |ps|
  {
    ps == [] || (Spares(penalty, b, ps[0]) && AllSpare(penalty, Pay(b, ps[0]), ps[1..]))
  }

  /** Later payments carry later times, all after t. */
  predicate ClocksAfter(t: i64, ps: seq<ChannelPayment>)
    decreases |ps|
  {
    ps == [] || (t < ps[0].now && ClocksAfter(ps[0].now, ps[1..]))
  }

  /** The latest state of a log has these balances and is not newer than t. */
  ghost predicate ShowsSplit(log: Log, b: Split, t: i64) {
    && Filed(log) && Latest(log).Some?
    && Latest(log).value.alice == b.alice && Latest(log).value.bob == b.bob
    && Latest(log).value.timestamp <= t
  }

  ghost predicate Agree(s: Pair, b: Split, t: i64) {
    ShowsSplit(s.alice, b, t) && ShowsSplit(s.bob, b, t)
  }

  /** Both logs as they are after the opening, each with its node's time. */
  ghost function Opened(info: Info, aliceNow: i64, bobNow: i64): Pair {
    Pair(map[aliceNow := OpeningState(info, aliceNow)], map[bobNow := OpeningState(info, bobNow)])
  }

  function Later(t: i64, u: i64): i64 {
    if t < u then u else t
  }

  /** Between nodes that agree on the balances, a payment completes exactly when its amount is a positive int64, what it
      leaves the payer modulo 2^64 covers the penalty, and its time is newer than the payee's latest state. */
  lemma CompletesWhen(c: Crypto, info: Info, s: Pair, b: Split, t: i64, p: ChannelPayment)
    requires Channel(info) && Signs(c, info.alice, StateUpdate) && Signs(c, info.bob, StateUpdate) && Agree(s, b, t)
    ensures var left := WrapU((if p.byAlice then b.alice else b.bob) - p.amount);
            var payee := if p.byAlice then s.bob else s.alice;
            Complete(c, info, s, p).Some?
            <==> 1 <= p.amount < I64_LIMIT && left >= info.penalty && Latest(payee).value.timestamp < p.now
  {
    hide Verify, Latest, WrapU, BalancesMove, Signs, Proposal, Sign, TermsOf, Filed, Acceptable;
    var payerLog := if p.byAlice then s.alice else s.bob;
    var payeeLog := if p.byAlice then s.bob else s.alice;
    AcceptedWhen(c, info, b, Latest(payerLog).value, Latest(payeeLog).value, p);
    SignVerify(c, Payee(info, p), StateUpdate);
  }

  /** The same of the payee's test, between latest states with these balances. */
  lemma AcceptedWhen(c: Crypto, info: Info, b: Split, last: OffState, seen: OffState, p: ChannelPayment)
    requires Channel(info) && Signs(c, Payer(info, p), StateUpdate)
    requires last.alice == seen.alice == b.alice && last.bob == seen.bob == b.bob
    ensures var left := WrapU((if p.byAlice then b.alice else b.bob) - p.amount);
            Acceptable(c, Payee(info, p), info, seen, Proposal(c, Payer(info, p), info, last, p.amount, p.now))
            <==> 1 <= p.amount < I64_LIMIT && left >= info.penalty && seen.timestamp < p.now
  {
    hide Verify, WrapU, BalancesMove, Signs, Sign, TermsOf;
    SignVerify(c, Payer(info, p), StateUpdate);
    TimestampCast(p.now);
    var payerHad, payeeHad: u64 := if p.byAlice then b.alice else b.bob, if p.byAlice then b.bob else b.alice;
    ProposalMoves(payerHad, payeeHad, p.amount);
  }

  /** The balances of a proposal pass the payee's test exactly when the amount is a positive int64. */
  lemma ProposalMoves(payer: u64, payee: u64, amount: u64)
    ensures BalancesMove(payer, WrapU(payer - amount), payee, WrapU(payee + amount)) <==> 1 <= amount < I64_LIMIT
  {
    hide BalancesMove;
    BalancesMoveMeaning(payer, WrapU(payer - amount), payee, WrapU(payee + amount));
    if 1 <= amount < I64_LIMIT {
      assert Moves(amount, payer, WrapU(payer - amount), payee, WrapU(payee + amount));
    }
    if BalancesMove(payer, WrapU(payer - amount), payee, WrapU(payee + amount)) {
      var d :| Moves(d, payer, WrapU(payer - amount), payee, WrapU(payee + amount));
      SameMove(payer, d, amount);
    }
  }

  lemma SameMove(n: u64, d: int, amount: u64)
    requires 1 <= d < I64_LIMIT && WrapU(n - d) == WrapU(n - amount)
    ensures d == amount
  {
    WrapNear(n - d);
    WrapNear(n - amount);
  }

  /** The log's latest state has these balances and this time. */
  ghost predicate LatestIs(log: Log, alice: u64, bob: u64, t: i64) {
    && Filed(log) && Latest(log).Some?
    && Latest(log).value.alice == alice && Latest(log).value.bob == bob && Latest(log).value.timestamp == t
  }

  /** After a completed payment the proposal's balances are the latest in both logs. */
  lemma CompleteLatest(c: Crypto, info: Info, s: Pair, p: ChannelPayment)
    requires Filed(s.alice) && Filed(s.bob) && Complete(c, info, s, p).Some?
    requires Latest(if p.byAlice then s.alice else s.bob).value.timestamp < p.now
    ensures var last := Latest(if p.byAlice then s.alice else s.bob).value;
            var r := Proposal(c, Payer(info, p), info, last, p.amount, p.now);
            var s1 := Complete(c, info, s, p).value;
            LatestIs(s1.alice, r.alice, r.bob, p.now) && LatestIs(s1.bob, r.alice, r.bob, p.now)
  {
    hide Verify, Latest, Filed, WrapI, BalancesMove, WrapU;
    var payerLog := if p.byAlice then s.alice else s.bob;
    var payeeLog := if p.byAlice then s.bob else s.alice;
    var r := Proposal(c, Payer(info, p), info, Latest(payerLog).value, p.amount, p.now);
    TimestampCast(p.now);
    var answer := Sign(c, Payee(info, p), StateUpdate, TermsOf(info.app, r.alice, r.bob, ToI64(r.timestamp)));
    NewerIsLatest(payerLog, Kept(info, r, answer));
    NewerIsLatest(payeeLog, Received(c, Payee(info, p), info, r));
  }

  /** What a proposal moves between two different accounts. */
  lemma ProposalBalances(c: Crypto, info: Info, b: Split, last: OffState, p: ChannelPayment)
    requires Channel(info) && last.alice == b.alice && last.bob == b.bob
    requires p.amount < I64_LIMIT && b.alice + b.bob < U64_LIMIT
    ensures var r := Proposal(c, Payer(info, p), info, last, p.amount, p.now);
            if p.amount <= (if p.byAlice then b.alice else b.bob) then
              r.alice == Pay(b, p).alice && r.bob == Pay(b, p).bob
            else
              b.alice + b.bob < I64_LIMIT ==> r.alice + r.bob == b.alice + b.bob + U64_LIMIT
  {
    hide WrapU, Sign;
    Transferred(last.alice, last.bob, p.amount);
    Transferred(last.bob, last.alice, p.amount);
  }

  /** Moving an amount below 2^63 between two balances: exact when the payer has it, else one 2^64 too much. */
  lemma Transferred(payer: u64, payee: u64, amount: u64)
    requires amount < I64_LIMIT && payer + payee < U64_LIMIT
    ensures amount <= payer ==> WrapU(payer - amount) == payer - amount && WrapU(payee + amount) == payee + amount
    ensures amount > payer ==> WrapU(payer - amount) == payer - amount + U64_LIMIT
    ensures payer + payee < I64_LIMIT ==> WrapU(payee + amount) == payee + amount
  {
    WrapNear(payer - amount);
    WrapNear(payee + amount);
  }

  /** Both latest states have this time. */
  ghost predicate EndAt(s: Pair, t: i64) {
    && Latest(s.alice).Some? && Latest(s.bob).Some?
    && Latest(s.alice).value.timestamp == Latest(s.bob).value.timestamp == t
  }

  /** One affordable payment between agreeing nodes completes exactly when it spares the penalty; then they agree on the
      ledger's new balances, at its time. */
  lemma AgreementStep(c: Crypto, info: Info, s: Pair, b: Split, t: i64, p: ChannelPayment)
    requires Channel(info) && Signs(c, info.alice, StateUpdate) && Signs(c, info.bob, StateUpdate) && Agree(s, b, t)
    requires Affordable(b, p) && b.alice + b.bob < U64_LIMIT && t < p.now
    ensures Complete(c, info, s, p).Some? <==> Spares(info.penalty, b, p)
    ensures Complete(c, info, s, p).Some? ==>
              Agree(Complete(c, info, s, p).value, Pay(b, p), p.now) && EndAt(Complete(c, info, s, p).value, p.now)
  {
    hide Complete, Signs, Latest, WrapU, Proposal, Filed;
    CompletesWhen(c, info, s, b, t, p);
    WrapNear((if p.byAlice then b.alice else b.bob) - p.amount);
    if Complete(c, info, s, p).Some? {
      CompleteLatest(c, info, s, p);
      ProposalBalances(c, info, b, Latest(if p.byAlice then s.alice else s.bob).value, p);
    }
  }

  /** A sequence of affordable payments in either direction, with increasing times, completes exactly when each of them
      spares the penalty; afterwards both nodes' latest states have the same time and the balances of the ledger. */
  lemma {:induction false} Agreement(c: Crypto, info: Info, s: Pair, b: Split, t: i64, ps: seq<ChannelPayment>)
    requires Channel(info) && Signs(c, info.alice, StateUpdate) && Signs(c, info.bob, StateUpdate) && Agree(s, b, t)
    requires b.alice + b.bob < U64_LIMIT && AllAffordable(b, ps) && ClocksAfter(t, ps)
    ensures CompleteAll(c, info, s, ps).Some? <==> AllSpare(info.penalty, b, ps)
    ensures CompleteAll(c, info, s, ps).Some? ==>
              var s1, last := CompleteAll(c, info, s, ps).value, if ps == [] then t else ps[|ps| - 1].now;
              Agree(s1, PayAll(b, ps), last) && (ps != [] ==> EndAt(s1, last))
    decreases |ps|
  {
    if ps != [] {
      hide Complete, Agree, Signs, Latest, Channel, LatestIs, Spares, EndAt;
      AgreementStep(c, info, s, b, t, ps[0]);
      if Complete(c, info, s, ps[0]).Some? {
        var s1 := Complete(c, info, s, ps[0]).value;
        Agreement(c, info, s1, Pay(b, ps[0]), ps[0].now, ps[1..]);
        if |ps| > 1 {
          assert ps[1..][|ps| - 2] == ps[|ps| - 1];
        }
      }
    }
  }

  predicate BobPaid(ps: seq<ChannelPayment>) {
    exists i :: 0 <= i < |ps| && !ps[i].byAlice
  }

  /** The ledger's money stays; payments that spare the penalty leave it with Alice, and with Bob once he has paid. */
  lemma {:induction false} SparedReserve(penalty: nat, b: Split, ps: seq<ChannelPayment>)
    requires AllAffordable(b, ps) && AllSpare(penalty, b, ps) && b.alice >= penalty
    ensures var b1 := PayAll(b, ps);
            && b1.alice + b1.bob == b.alice + b.bob
            && b1.alice >= penalty
            && (b.bob >= penalty || BobPaid(ps) ==> b1.bob >= penalty)
    decreases |ps|
  {
    if ps != [] {
      SparedReserve(penalty, Pay(b, ps[0]), ps[1..]);
      if i :| 0 <= i < |ps| && !ps[i].byAlice {
        if i > 0 {
          assert !ps[1..][i - 1].byAlice;
        }
      }
    }
  }

  /** The state has the channel's money, the penalty on Alice's side, and on Bob's too once he has paid. */
  ghost predicate Reserved(penalty: nat, total: nat, bobPaid: bool, e: OffState) {
    e.alice + e.bob == total && e.alice >= penalty && (bobPaid ==> e.bob >= penalty)
  }

  /** The receivers' tests keep the reserve where nothing is lost: whatever affordable payments complete, the latest
      states of both logs hold the money of the channel, Alice's balance covers the penalty, and Bob's does from his
      first completed payment on. */
  lemma CompletedReserve(c: Crypto, info: Info, s: Pair, b: Split, t: i64, ps: seq<ChannelPayment>)
    requires Channel(info) && Signs(c, info.alice, StateUpdate) && Signs(c, info.bob, StateUpdate) && Agree(s, b, t)
    requires b.alice + b.bob < U64_LIMIT && AllAffordable(b, ps) && ClocksAfter(t, ps)
    requires b.alice >= info.penalty && CompleteAll(c, info, s, ps).Some?
    ensures var s1, paid := CompleteAll(c, info, s, ps).value, b.bob >= info.penalty || BobPaid(ps);
            && Latest(s1.alice).Some? && Latest(s1.bob).Some?
            && Reserved(info.penalty, b.alice + b.bob, paid, Latest(s1.alice).value)
            && Reserved(info.penalty, b.alice + b.bob, paid, Latest(s1.bob).value)
  {
    hide CompleteAll, Signs, Latest, ClocksAfter, Channel, AllSpare, PayAll, AllAffordable, BobPaid, Filed;
    Agreement(c, info, s, b, t, ps);
    SparedReserve(info.penalty, b, ps);
  }

  /** A payment the payer cannot afford still completes, because the difference wraps to a large number; the new
      balances add up to the money in the channel exactly when the payment was affordable. */
  lemma UnaffordableCompletes(c: Crypto, info: Info, s: Pair, b: Split, t: i64, p: ChannelPayment)
    requires Channel(info) && Signs(c, info.alice, StateUpdate) && Signs(c, info.bob, StateUpdate) && Agree(s, b, t)
    requires t < p.now && 1 <= p.amount < I64_LIMIT && b.alice + b.bob < I64_LIMIT && info.penalty < I64_LIMIT
    ensures p.amount > (if p.byAlice then b.alice else b.bob) ==> Complete(c, info, s, p).Some?
    ensures Complete(c, info, s, p).Some? ==>
              var e := Latest(Complete(c, info, s, p).value.alice);
              e.Some? && (e.value.alice + e.value.bob == b.alice + b.bob
                          <==> p.amount <= if p.byAlice then b.alice else b.bob)
  {
    hide Complete, Signs, Latest, WrapU, Proposal, Filed;
    CompletesWhen(c, info, s, b, t, p);
    WrapNear((if p.byAlice then b.alice else b.bob) - p.amount);
    if Complete(c, info, s, p).Some? {
      CompleteLatest(c, info, s, p);
      ProposalBalances(c, info, b, Latest(if p.byAlice then s.alice else s.bob).value, p);
    }
  }
}
