/** Two honest nodes whose messages may be lost or refused: what their logs keep though they need not agree any more. */
module LossyPair {
  import opened Bytes
  import opened Messages
  import opened Contract
  import opened OffChain
  import opened PairLedger

  /** What becomes of a payment's two messages. */
  datatype Fate = Delivered | AnswerLost | RequestLost

  datatype Attempt = Attempt(p: ChannelPayment, fate: Fate)

  function PayerLog(s: Pair, p: ChannelPayment): Log {
    if p.byAlice then s.alice else s.bob
  }

  function PayeeLog(s: Pair, p: ChannelPayment): Log {
    if p.byAlice then s.bob else s.alice
  }

  function WithLogs(p: ChannelPayment, payer: Log, payee: Log): Pair {
    if p.byAlice then Pair(payer, payee) else Pair(payee, payer)
  }

  /** The request, from the payer's latest state. */
  ghost function Asked(c: Crypto, info: Info, s: Pair, p: ChannelPayment): PayRequest
    requires Latest(PayerLog(s, p)).Some?
  {
    Proposal(c, Payer(info, p), info, Latest(PayerLog(s, p)).value, p.amount, p.now)
  }

  /** The request arrives, and the payee accepts it. */
  ghost predicate Accepted(c: Crypto, info: Info, s: Pair, a: Attempt) {
    && Latest(PayerLog(s, a.p)).Some? && Latest(PayeeLog(s, a.p)).Some? && !a.fate.RequestLost?
    && Acceptable(c, Payee(info, a.p), info, Latest(PayeeLog(s, a.p)).value, Asked(c, info, s, a.p))
  }

  /** The payer keeps its state only on a verified answer that arrives. */
  ghost predicate Answered(c: Crypto, info: Info, a: Attempt, r: PayRequest) {
    var t := TermsOf(info.app, r.alice, r.bob, ToI64(r.timestamp));
    a.fate.Delivered? && Verify(c, StateUpdate, t, Sign(c, Payee(info, a.p), StateUpdate, t), Payee(info, a.p))
  }

  /** Both logs after the attempt, refused and lost ones included. */
  ghost function Attempted(c: Crypto, info: Info, s: Pair, a: Attempt): Pair {
    if !Accepted(c, info, s, a) then s
    else
      var r := Asked(c, info, s, a.p);
      var t := TermsOf(info.app, r.alice, r.bob, ToI64(r.timestamp));
      var answer := Sign(c, Payee(info, a.p), StateUpdate, t);
      var kept, received := Kept(info, r, answer), Received(c, Payee(info, a.p), info, r);
      WithLogs(a.p,
               if Answered(c, info, a, r) then PayerLog(s, a.p)[kept.timestamp := kept] else PayerLog(s, a.p),
               PayeeLog(s, a.p)[received.timestamp := received])
  }

  ghost function AttemptAll(c: Crypto, info: Info, s: Pair, attempts: seq<Attempt>): Pair
    decreases |attempts|
  {
    if attempts == [] then s else AttemptAll(c, info, Attempted(c, info, s, attempts[0]), attempts[1..])
  }

  /** The payer has the amount in its own latest state, and its clock runs ahead of it. */
  ghost predicate Sensible(info: Info, s: Pair, p: ChannelPayment) {
    && Latest(PayerLog(s, p)).Some?
    && var last := Latest(PayerLog(s, p)).value;
       p.amount <= (if p.byAlice then last.alice else last.bob) && last.timestamp < p.now
  }

  ghost predicate AllSensible(c: Crypto, info: Info, s: Pair, attempts: seq<Attempt>)
    decreases |attempts|
  {
    attempts == []
    || (Sensible(info, s, attempts[0].p) && AllSensible(c, info, Attempted(c, info, s, attempts[0]), attempts[1..]))
  }

  /** Alice's node accepts a payment of Bob's somewhere in the run. */
  ghost predicate BobPays(c: Crypto, info: Info, s: Pair, attempts: seq<Attempt>)
    decreases |attempts|
  {
    attempts != []
    && ((!attempts[0].p.byAlice && Accepted(c, info, s, attempts[0]))
        || BobPays(c, info, Attempted(c, info, s, attempts[0]), attempts[1..]))
  }

  /** A payment that completes is an attempt with nothing lost. */
  lemma CompletedIsAttempt(c: Crypto, info: Info, s: Pair, p: ChannelPayment)
    ensures Complete(c, info, s, p).Some? ==>
              Attempted(c, info, s, Attempt(p, Delivered)) == Complete(c, info, s, p).value
  {
    hide Verify, Sign, Latest, Proposal, Beneficial;
  }

  // ----- the reserve -----

  /** The log's latest state holds the channel's money and the reserve. */
  ghost predicate LogReserved(penalty: nat, total: nat, bobPaid: bool, log: Log) {
    Filed(log) && Latest(log).Some? && Reserved(penalty, total, bobPaid, Latest(log).value)
  }

  ghost predicate BothReserved(info: Info, total: nat, bobPaid: bool, s: Pair) {
    LogReserved(info.penalty, total, bobPaid, s.alice) && LogReserved(info.penalty, total, bobPaid, s.bob)
  }

  /** What an accepted request of a payer that has the amount says. */
  lemma AcceptedReserved(
      c: Crypto, info: Info, total: nat, bobPaid: bool, last: OffState, seen: OffState, p: ChannelPayment)
    requires Channel(info) && total < I64_LIMIT
    requires Reserved(info.penalty, total, bobPaid, last) && Reserved(info.penalty, total, bobPaid, seen)
    requires p.amount <= if p.byAlice then last.alice else last.bob
    requires Acceptable(c, Payee(info, p), info, seen, Proposal(c, Payer(info, p), info, last, p.amount, p.now))
    ensures var r := Proposal(c, Payer(info, p), info, last, p.amount, p.now);
            && r.alice + r.bob == total && r.alice >= info.penalty
            && (bobPaid || !p.byAlice ==> r.bob >= info.penalty)
  {
    hide Verify, Sign, WrapU, BalancesMove;
    var r := Proposal(c, Payer(info, p), info, last, p.amount, p.now);
    WrapNear((if p.byAlice then last.alice else last.bob) - p.amount);
    WrapNear((if p.byAlice then last.bob else last.alice) + p.amount);
    AcceptedGains(c, Payee(info, p), info, seen, r);
  }

  /** What the payer of an accepted request already had. */
  lemma PayerReserved(c: Crypto, info: Info, total: nat, bobPaid: bool, last: OffState, p: ChannelPayment)
    requires Channel(info) && Reserved(info.penalty, total, bobPaid, last) && total < I64_LIMIT
    requires p.amount <= if p.byAlice then last.alice else last.bob
    requires !p.byAlice ==> Proposal(c, Payer(info, p), info, last, p.amount, p.now).bob >= info.penalty
    ensures Reserved(info.penalty, total, bobPaid || !p.byAlice, last)
  {
    hide Sign, WrapU;
    WrapNear((if p.byAlice then last.alice else last.bob) - p.amount);
  }

  lemma AttemptReserved(c: Crypto, info: Info, total: nat, bobPaid: bool, s: Pair, a: Attempt)
    requires Channel(info) && total < I64_LIMIT && BothReserved(info, total, bobPaid, s) && Sensible(info, s, a.p)
    ensures BothReserved(info, total, bobPaid || (!a.p.byAlice && Accepted(c, info, s, a)), Attempted(c, info, s, a))
  {
    hide Verify, Sign, Latest, Filed, Proposal, Acceptable;
    if Accepted(c, info, s, a) {
      var last, seen := Latest(PayerLog(s, a.p)).value, Latest(PayeeLog(s, a.p)).value;
      var r := Asked(c, info, s, a.p);
      AcceptedReserved(c, info, total, bobPaid, last, seen, a.p);
      PayerReserved(c, info, total, bobPaid, last, a.p);
      AskedTimes(c, info, last, seen, a.p);
      var t := TermsOf(info.app, r.alice, r.bob, ToI64(r.timestamp));
      NewerIsLatest(PayerLog(s, a.p), Kept(info, r, Sign(c, Payee(info, a.p), StateUpdate, t)));
      NewerIsLatest(PayeeLog(s, a.p), Received(c, Payee(info, a.p), info, r));
    }
  }

  lemma AskedTimes(c: Crypto, info: Info, last: OffState, seen: OffState, p: ChannelPayment)
    ensures var r := Proposal(c, Payer(info, p), info, last, p.amount, p.now);
            && ToI64(r.timestamp) == p.now
            && (Acceptable(c, Payee(info, p), info, seen, r) ==> seen.timestamp < p.now)
  {
    hide Verify, Sign, WrapU, BalancesMove;
    TimestampCast(p.now);
  }

  /** The receivers' tests keep the reserve through any attempts, whatever is refused or lost: the latest states of
      both logs hold the money of the channel, Alice's balance covers the penalty, and Bob's does from the first
      payment of his that Alice's node accepts. */
  lemma {:induction false} ReserveKept(
    c: Crypto, info: Info, total: nat, bobPaid: bool, s: Pair, attempts: seq<Attempt>)
    requires Channel(info) && total < I64_LIMIT && BothReserved(info, total, bobPaid, s)
    requires AllSensible(c, info, s, attempts)
    ensures BothReserved(info, total, bobPaid || BobPays(c, info, s, attempts), AttemptAll(c, info, s, attempts))
    decreases |attempts|
  {
    if attempts != [] {
      hide BothReserved, Attempted, Sensible, Accepted, Channel;
      AttemptReserved(c, info, total, bobPaid, s, attempts[0]);
      ReserveKept(c, info, total, bobPaid || (!attempts[0].p.byAlice && Accepted(c, info, s, attempts[0])),
                  Attempted(c, info, s, attempts[0]), attempts[1..]);
    }
  }
}
