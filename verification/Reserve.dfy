/** The penalty reserve: why a dispute with a state of the ledger can always take the penalty. */
module Reserve {
  import opened Bytes
  import opened Messages
  import opened Contract
  import opened OffChain
  import opened StoredStates
  import opened PairLedger
  import opened LossyPair
  import opened GlobalState
  import Chain

  /** An accepted funding puts the whole deposit, more than penalty and fee, on Alice's side; Bob's side stays. */
  lemma FundingCoversPenalty(x: Ctx, g: Globals)
    requires ValidCtx(x) && WellTyped(g) && Fund(x, g).Approved?
    ensures var g1 := Fund(x, g).globals;
            && WellTyped(g1) && Num(g1, LatestAlice) == Num(g1, TotalDeposit)
            && Num(g1, LatestAlice) > Num(g1, PenaltyReserve) + MIN_TXN_FEE
            && Num(g1, LatestBob) == Num(g, LatestBob)
  {
  }

  lemma OpenedReserved(info: Info, aliceNow: i64, bobNow: i64)
    requires aliceNow > 0 && bobNow > 0 && info.aliceOnChain + info.bobOnChain == info.deposit
    requires info.aliceOnChain >= info.penalty
    ensures BothReserved(info, info.deposit, false, Opened(info, aliceNow, bobNow))
  {
    assert IsLatest(Opened(info, aliceNow, bobNow).alice, aliceNow);
    assert IsLatest(Opened(info, aliceNow, bobNow).bob, bobNow);
  }

  /** The life of a channel so far: both nodes know it as its first accepted funding left it and opened their logs
      with it, and these attempts to pay, completed, refused or lost, of amounts their payers had, left the logs s. */
  ghost predicate Funded(
    c: Crypto, fund: Ctx, g0: Globals, info: Info, aliceNow: i64, bobNow: i64, attempts: seq<Attempt>, s: Pair)
  {
    && ValidCtx(fund) && WellTyped(g0) && Num(g0, LatestBob) == 0 && Fund(fund, g0).Approved?
    && WellTyped(Fund(fund, g0).globals) && info == InfoOf(info.app, Fund(fund, g0).globals)
    && Channel(info) && info.deposit < I64_LIMIT && aliceNow > 0 && bobNow > 0
    && AllSensible(c, info, Opened(info, aliceNow, bobNow), attempts)
    && s == AttemptAll(c, info, Opened(info, aliceNow, bobNow), attempts)
  }

  /** From the funding on, whatever is lost, the latest states of both logs hold the deposit and the reserve. */
  lemma FundedReserve(
    c: Crypto, fund: Ctx, g0: Globals, info: Info, aliceNow: i64, bobNow: i64, attempts: seq<Attempt>, s: Pair)
    requires Funded(c, fund, g0, info, aliceNow, bobNow, attempts, s)
    ensures var paid := BobPays(c, info, Opened(info, aliceNow, bobNow), attempts);
            && Latest(s.alice).Some? && Reserved(info.penalty, info.deposit, paid, Latest(s.alice).value)
            && Latest(s.bob).Some? && Reserved(info.penalty, info.deposit, paid, Latest(s.bob).value)
  {
    hide Latest, AttemptAll, AllSensible, BobPays, Opened, WellTyped, Reserved;
    FundingCoversPenalty(fund, g0);
    OpenedReserved(info, aliceNow, bobNow);
    ReserveKept(c, info, info.deposit, false, Opened(info, aliceNow, bobNow), attempts);
  }

  /** Bob is charged only when he initiated; he can be once Alice's node has accepted a payment of his. */
  ghost predicate CanBeCharged(g: Globals, bobPaid: bool) {
    ClosingInitiator in g && (g[ClosingInitiator] == B(Ascii("alice")) || bobPaid)
  }

  /** The global state shows this split and time. */
  ghost predicate ShowsState(g: Globals, alice: int, bob: int, timestamp: int) {
    WellTyped(g) && Num(g, LatestAlice) == alice && Num(g, LatestBob) == bob && Num(g, LatestTimestamp) == timestamp
  }

  /** What the penalty adds to Alice's side: she pays it when she initiated. */
  ghost function AliceShift(g: Globals, penalty: int): int
    requires ClosingInitiator in g
  {
    if g[ClosingInitiator] == B(Ascii("alice")) then -penalty else penalty
  }

  /** Where e was newer than what g showed, g1 shows it, moved by the penalty against the initiator. */
  ghost predicate Charged(g: Globals, penalty: nat, e: OffState, g1: Globals) {
    && WellTyped(g) && ClosingInitiator in g
    && var shift := AliceShift(g, penalty);
       Num(g, LatestTimestamp) < ToU64(e.timestamp)
       ==> ShowsState(g1, e.alice + shift, e.bob - shift, ToU64(e.timestamp))
  }

  /** A dispute call with the state e, on the channel's own terms. */
  ghost predicate DisputesWith(x: Ctx, g: Globals, info: Info, e: OffState, kind: Kind) {
    && ValidCtx(x) && SameChannel(x, g, info) && x.args == Packed(DisputeCall, e) && Ready(x.crypto, info, e, kind)
    && Num(g, PenaltyReserve) == info.penalty && Num(g, TotalDeposit) == info.deposit
  }

  /** In the life of a channel from its funding on, a dispute with the latest state of either log is never rejected
      for want of the penalty; if that state is newer, the initiator ends up with exactly the penalty less than the
      state says, and the other side with the penalty more. */
  lemma DisputePayable(
    fund: Ctx, g0: Globals, info: Info, aliceNow: i64, bobNow: i64, attempts: seq<Attempt>, s: Pair,
    x: Ctx, g: Globals, kind: Kind, e: OffState)
    requires Funded(x.crypto, fund, g0, info, aliceNow, bobNow, attempts, s)
    requires Some(e) in {Latest(s.alice), Latest(s.bob)}
    requires WellTyped(g) && DisputesWith(x, g, info, e, kind)
    requires CanBeCharged(g, BobPays(x.crypto, info, Opened(info, aliceNow, bobNow), attempts))
    ensures Dispute(x, g, kind).Approved? && Charged(g, info.penalty, e, Dispute(x, g, kind).globals)
  {
    hide Packed, Ready, SplitHolds, SplitComputes, Ascii, WellTyped, Funded, BobPays, Latest, Opened;
    FundedReserve(x.crypto, fund, g0, info, aliceNow, bobNow, attempts, s);
    PackedArgs(x, e, DisputeCall);
    PackedSplit(x, g, info, e, DisputeCall, kind);
    PackedRebuilds(x, info, e, DisputeCall, kind);
    DisputeShifts(x, g, kind);
  }

  /** What a dispute that passes its tests does, when the initiator's side covers the penalty. */
  lemma DisputeShifts(x: Ctx, g: Globals, kind: Kind)
    requires ValidCtx(x) && WellTyped(g) && SplitComputes(x, g) && SplitHolds(x, g, kind) && IsUint(x.args[4])
    requires ClosingInitiator in g
    requires Uint(x.args[2]) + Uint(x.args[3]) < U64_LIMIT
    requires Num(g, PenaltyReserve) <=
             if g[ClosingInitiator] == B(Ascii("alice")) then Uint(x.args[2]) else Uint(x.args[3])
    ensures Dispute(x, g, kind).Approved?
    ensures Num(g, LatestTimestamp) < Uint(x.args[4]) ==>
              var shift := AliceShift(g, Num(g, PenaltyReserve));
              ShowsState(Dispute(x, g, kind).globals, Uint(x.args[2]) + shift, Uint(x.args[3]) - shift, Uint(x.args[4]))
  {
    hide SplitHolds, SplitComputes, Ascii;
    if Dispute(x, g, kind).Approved? {
      Chain.DisputeFrame(x, g, kind);
    }
  }
}
