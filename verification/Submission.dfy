/** From the calls that nodes hand out to what the chain runs. */
module Submission {
  import opened Bytes
  import opened Messages
  import opened Contract
  import opened Ledger
  import opened Chain
  import opened Closing
  import opened Payout
  import opened OffChain
  import opened StoredStates
  import opened CooperativeClose
  import opened Payoff
  import opened Liveness
  import opened Operation

  /** The i-th call of a group of calls, as the chain sees it; none of them is a payment. */
  function CallAt(c: Crypto, group: seq<AppCall>, i: nat): Ctx
    requires i < |group|
  {
    var txns := seq(|group|, k requires 0 <= k < |group| => GroupTxn(group[k].sender, OtherType, 0, []));
    Ctx(c, 0, group[i].app, [], false, NoOp, group[i].sender, group[i].args, group[i].accounts, txns, i)
  }

  /** The target of the clients' initiations, disputes and cooperative closes: one hash and two signature checks. */
  const TARGET: nat := 3930

  lemma SentCall(c: Crypto, m: Method, app: u64, e: OffState, accounts: set<Bytes>, sender: Bytes, group: seq<AppCall>)
    requires SentFor(ClosingCall(m, app, e, accounts, sender), TARGET, group)
    ensures var x := CallAt(c, group, 0);
            && ValidCtx(x) && x.groupIndex == 0 && x.onCompletion == NoOp
            && x.sender == sender && x.args == Packed(m, e) && x.accounts == accounts
  {
    hide Packed;
    PackedArgs(CallAt(c, group, 0).(args := Packed(m, e)), e, m);
  }

  /** The party's own initiation, sent by its node, is the one the payoff theorem speaks of. */
  lemma SentInitiation(c: Crypto, p: Party, group: seq<AppCall>)
    requires SentFor(ClosingCall(InitiateCall, p.info.app, p.newest, {}, p.me), TARGET, group)
    ensures CallAt(c, group, 0).sender == p.me && CallAt(c, group, 0).args == Packed(InitiateCall, p.newest)
  {
    SentCall(c, InitiateCall, p.info.app, p.newest, {}, p.me, group);
  }

  /** A dispute raised by the party's watchtower, sent by its node, is the one of the theorem's pass. */
  lemma SentDispute(c: Crypto, chain: Chain, p: Party, group: seq<AppCall>)
    requires SentFor(ClosingCall(DisputeCall, p.info.app, p.newest, {}, p.me), TARGET, group)
    requires Balance(chain.ledger, p.me) >= MIN_TXN_FEE
    ensures DisputeOfNewest(chain, p, CallAt(c, group, 0))
  {
    hide Packed;
    SentCall(c, DisputeCall, p.info.app, p.newest, {}, p.me, group);
  }

  /** A cooperative close that a node hands out for an agreed state pays both parties when it is sent: the deposit is in
      escrow, and no closing is under way. */
  lemma SentClosePays(w: World, c: Chain, info: Info, e: OffState, sender: Bytes, group: seq<AppCall>)
    requires SentFor(ClosingCall(CooperativeCall, info.app, e, {info.alice, info.bob}, sender), TARGET, group)
    requires sender in {info.alice, info.bob} && w.app == info.app
    requires Closable(e) && Ready(w.crypto, info, e, CloseChannel)
    requires WellTyped(c.globals) && Alice(c.globals) == info.alice && Bob(c.globals) == info.bob
    requires Num(c.globals, Timeout) == 0 && e.alice + e.bob == Num(c.globals, TotalDeposit)
    requires ThreeAccounts(w, c.globals)
    requires Balance(c.ledger, sender) >= MIN_TXN_FEE && Balance(c.ledger, w.escrow) == Num(c.globals, TotalDeposit)
    ensures var x := CallAt(w.crypto, group, 0);
            && LedgerAtCall(w, c, x).Some? && Result(w, c, x).Some?
            && var l, l1 := LedgerAtCall(w, c, x).value, Result(w, c, x).value.ledger;
               && Balance(l1, info.alice) == Balance(l, info.alice) + e.alice - MIN_TXN_FEE
               && Balance(l1, info.bob) == Balance(l, info.bob) + e.bob - MIN_TXN_FEE
               && Balance(l1, w.escrow) == 0
  {
    hide WellTyped, Packed, Ready, LedgerAtCall, Result, Balance, CallAt;
    SentCall(w.crypto, CooperativeCall, info.app, e, {info.alice, info.bob}, sender, group);
    ClosePaysOut(w, c, CallAt(w.crypto, group, 0), info, e);
  }

  /** The finalization that a node hands out, alone in its group, pays both parties exactly when the timeout has passed
      and both balances can be paid. */
  lemma SentFinalize(w: World, c: Chain, info: Info, me: Bytes)
    requires WellTyped(c.globals) && Alice(c.globals) == info.alice && Bob(c.globals) == info.bob
    requires me in {info.alice, info.bob} && ThreeAccounts(w, c.globals) && |info.alice| == |info.bob| == 32
    requires Balance(c.ledger, me) >= MIN_TXN_FEE
    ensures var counterparty := if me == info.alice then info.bob else info.alice;
            var call := AppCall(info.app, [MethodName(FinalizeCall)], {me, counterparty}, me, []);
            var x := CallAt(w.crypto, [call], 0);
            && FinalizesWith(w, c, x)
            && (PaysOut(w, c, Submit(x)) <==> c.round > Num(c.globals, Timeout) && Coverable(w, c))
  {
    hide WellTyped, MethodName, PaysOut, Coverable;
    var counterparty := if me == info.alice then info.bob else info.alice;
    var call := AppCall(info.app, [MethodName(FinalizeCall)], {me, counterparty}, me, []);
    FinalizePays(w, c, CallAt(w.crypto, [call], 0));
  }
}
