/** Which words lead where: who may say them, what they can move, and who sends them. */
module Dispatch {
  import opened Bytes
  import opened Messages
  import opened Contract
  import opened OffChain
  import opened StoredStates
  import opened Operation

  /** Alice's payment to the escrow in the transaction before, of more than penalty and fee, is the deposit. */
  ghost predicate Funds(x: Ctx, g: Globals, g1: Globals)
    requires ValidCtx(x) && WellTyped(g)
  {
    && x.groupIndex >= 1
    && var payment := x.group[x.groupIndex - 1];
       && payment == GroupTxn(Alice(g), Pay, payment.amount, x.escrow)
       && payment.amount > Num(g, PenaltyReserve) + MIN_TXN_FEE
       && Read(g1, TotalDeposit) == Read(g1, LatestAlice) == U(payment.amount)
  }

  /** Who may do what: only Alice funds, only she and Bob close, and money leaves with two words only. */
  lemma WhoMayCall(x: Ctx, g: Globals, kind: Kind)
    requires ValidCtx(x) && WellTyped(g) && Call(x, g, kind).Approved?
    ensures x.onCompletion == NoOp && x.args != []
    ensures x.args[0] in {FUND, INCREASE_BUDGET, INITIATE, DISPUTE, FINALIZE, COOPERATIVE}
    ensures x.args[0] == FUND ==> x.sender == Alice(g) && Funds(x, g, Call(x, g, kind).globals)
    ensures x.args[0] in {INITIATE, COOPERATIVE} ==> x.sender in {Alice(g), Bob(g)}
    ensures Call(x, g, kind).payouts != [] ==> x.args[0] in {FINALIZE, COOPERATIVE}
    ensures Call(x, g, kind).globals != g ==> x.args[0] in {FUND, INITIATE, DISPUTE, COOPERATIVE}
  {
    hide MethodName, WellTyped, SplitHolds, SplitComputes, Ascii, Payable;
    MethodsSpelled();
    DisputePaysNothing(x, g, kind);
  }

  /** The words that the clients send for a stored state, for a finalization and for a budget call. */
  lemma WordsSent(e: OffState, app: u64, sender: Bytes, i: nat)
    ensures Packed(InitiateCall, e)[0] == INITIATE && Packed(DisputeCall, e)[0] == DISPUTE
    ensures Packed(CooperativeCall, e)[0] == COOPERATIVE && MethodName(FinalizeCall) == FINALIZE
    ensures BudgetCall(app, sender, i).args[0] == INCREASE_BUDGET
  {
    hide MethodName;
    MethodsSpelled();
  }
}
