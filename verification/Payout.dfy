/** The money of a closing: who gets what, and that it happens once. */
module Payout {
  import opened Bytes
  import opened Messages
  import opened Contract
  import opened Ledger
  import opened Chain
  import opened ChainProperties
  import opened Closing

  /** Alice, Bob and the escrow have three different accounts. */
  predicate ThreeAccounts(w: World, g: Globals)
    requires WellTyped(g)
  {
    Alice(g) != Bob(g) && w.escrow != Alice(g) && w.escrow != Bob(g)
  }

  /** The ledger when the call's inner payments start: its group's payments and its fee are done. */
  function LedgerAtCall(w: World, c: Chain, x: Ctx): Option<Ledger> {
    if !ValidCtx(x) then None
    else
      match PayGroup(c.ledger, x.group[..x.groupIndex])
      case None => None
      case Some(l) => Transfer(l, x.sender, x.sender, 0, MIN_TXN_FEE)
  }

  /** Bob gets b less the fee, Alice a less the fee and what the escrow held beyond both, the escrow is empty. */
  ghost predicate Paid(w: World, g: Globals, l: Ledger, l1: Ledger, a: nat, b: nat)
    requires WellTyped(g)
  {
    var held := Balance(l, w.escrow);
    && held >= a + b
    && Balance(l1, Bob(g)) == Balance(l, Bob(g)) + b - MIN_TXN_FEE
    && Balance(l1, Alice(g)) == Balance(l, Alice(g)) + a - MIN_TXN_FEE + (held - a - b)
    && Balance(l1, w.escrow) == 0
    && l1.fees == l.fees + 2 * MIN_TXN_FEE
  }

  lemma PayoutStep(w: World, c: Chain, a: Action)
    requires WellTyped(c.globals) && PaysOut(w, c, a)
    ensures LedgerAtCall(w, c, a.x).Some?
    ensures var g := Step(w, c, a).globals;
            && SameTerms(c.globals, g)
            && PayOut(At(w, c, a.x), g).Approved?
            && Settle(LedgerAtCall(w, c, a.x).value, w.escrow, PayOut(At(w, c, a.x), g).payouts)
               == Some(Step(w, c, a).ledger)
  {
    hide WellTyped, SplitHolds, SplitComputes, SignatureShape, Payable, Transfer, PayGroup, Settle;
    var x := At(w, c, a.x);
    CallFrame(x, c.globals, w.kind);
    PayoutIsPayOut(x, c.globals, w.kind);
  }

  lemma PayoutIsPayOut(x: Ctx, g: Globals, kind: Kind)
    requires ValidCtx(x) && WellTyped(g) && Call(x, g, kind).Approved? && Call(x, g, kind).payouts != []
    requires WellTyped(Call(x, g, kind).globals)
    ensures PayOut(x, Call(x, g, kind).globals) == Call(x, g, kind)
  {
    hide SplitHolds, SplitComputes, SignatureShape, Payable, Ascii;
  }

  /** Every payout empties the escrow into the two parties' accounts by the latest balances. */
  lemma PayoutPays(w: World, c: Chain, a: Action)
    requires WellTyped(c.globals) && PaysOut(w, c, a) && ThreeAccounts(w, c.globals)
    ensures LedgerAtCall(w, c, a.x).Some?
    ensures var c1 := Step(w, c, a);
            Paid(w, c.globals, LedgerAtCall(w, c, a.x).value, c1.ledger,
                 Num(c1.globals, LatestAlice), Num(c1.globals, LatestBob))
  {
    hide WellTyped, Step, Settle, PayOut, LedgerAtCall;
    PayoutStep(w, c, a);
    PayoutAmounts(LedgerAtCall(w, c, a.x).value, w.escrow, At(w, c, a.x), Step(w, c, a).globals);
  }

  /** With the deposit in escrow and balances that split it, nothing remains beyond the two balances. */
  lemma ExactPayout(w: World, c: Chain, a: Action)
    requires WellTyped(c.globals) && PaysOut(w, c, a) && ThreeAccounts(w, c.globals) && Balanced(c.globals)
    requires LedgerAtCall(w, c, a.x).Some?
            && Balance(LedgerAtCall(w, c, a.x).value, w.escrow) == Num(c.globals, TotalDeposit)
    ensures var l, c1 := LedgerAtCall(w, c, a.x).value, Step(w, c, a);
            && Balance(c1.ledger, Bob(c.globals))
               == Balance(l, Bob(c.globals)) + Num(c1.globals, LatestBob) - MIN_TXN_FEE
            && Balance(c1.ledger, Alice(c.globals))
               == Balance(l, Alice(c.globals)) + Num(c1.globals, LatestAlice) - MIN_TXN_FEE
            && Balance(c1.ledger, w.escrow) == 0
  {
    hide WellTyped, Settle, PayOut, LedgerAtCall, Balance, Dispute, Initiate, Cooperative, Finalize, Fund, MethodName;
    PayoutPays(w, c, a);
    var x := At(w, c, a.x);
    CallBalance(x, c.globals, w.kind);
    FundPaysNothing(x, c.globals);
  }

  lemma FundPaysNothing(x: Ctx, g: Globals)
    requires ValidCtx(x) && WellTyped(g)
    ensures Fund(x, g).Approved? ==> Fund(x, g).payouts == []
  {
  }

  // ----- only once -----

  /** The action brings money into the escrow. */
  predicate Feeds(w: World, a: Action) {
    || (a.Send? && a.to == w.escrow)
    || (a.Submit?
        && exists i :: 0 <= i < |a.x.group| && a.x.group[i].txnType == Pay && a.x.group[i].receiver == w.escrow)
  }

  lemma {:induction false} GroupLeavesEmpty(w: World, l: Ledger, group: seq<GroupTxn>)
    requires PayGroup(l, group).Some? && Balance(l, w.escrow) == 0
    requires forall i :: 0 <= i < |group| && group[i].txnType == Pay ==> group[i].receiver != w.escrow
    ensures Balance(PayGroup(l, group).value, w.escrow) == 0
    decreases |group|
  {
    if group != [] {
      var l1 := if group[0].txnType != Pay then l
                else Transfer(l, group[0].sender, group[0].receiver, group[0].amount, MIN_TXN_FEE).value;
      GroupLeavesEmpty(w, l1, group[1..]);
    }
  }

  lemma EmptyStep(w: World, c: Chain, a: Action)
    requires WellTyped(c.globals) && Balance(c.ledger, w.escrow) == 0 && !Feeds(w, a)
    ensures !PaysOut(w, c, a)
    ensures Balance(Step(w, c, a).ledger, w.escrow) == 0
  {
    hide WellTyped, Call, Perform;
    if a.Submit? && Result(w, c, a.x).Some? {
      var x := At(w, c, a.x);
      GroupLeavesEmpty(w, c.ledger, a.x.group[..a.x.groupIndex]);
      var l := LedgerAtCall(w, c, a.x).value;
      assert Balance(l, w.escrow) == 0;
      var payouts := Call(x, c.globals, w.kind).payouts;
      if payouts != [] {
        FirstPaymentFails(l, w.escrow, payouts);
      }
    }
  }

  lemma FirstPaymentFails(l: Ledger, escrow: Bytes, payouts: seq<Payment>)
    requires payouts != [] && Balance(l, escrow) == 0
    ensures Settle(l, escrow, payouts).None?
  {
  }

  predicate NonePaysOut(w: World, c: Chain, acts: seq<Action>)
    requires WellTyped(c.globals)
    decreases |acts|
  {
    acts == [] || (!PaysOut(w, c, acts[0]) && NonePaysOut(w, Step(w, c, acts[0]), acts[1..]))
  }

  /** After a payout no further payout succeeds until someone sends the escrow money again. */
  lemma NoSecondPayout(w: World, c: Chain, a: Action, acts: seq<Action>)
    requires WellTyped(c.globals) && PaysOut(w, c, a) && ThreeAccounts(w, c.globals)
    requires forall i :: 0 <= i < |acts| ==> !Feeds(w, acts[i])
    ensures NonePaysOut(w, Step(w, c, a), acts)
  {
    PayoutPays(w, c, a);
    StaysEmpty(w, Step(w, c, a), acts);
  }

  lemma {:induction false} StaysEmpty(w: World, c: Chain, acts: seq<Action>)
    requires WellTyped(c.globals) && Balance(c.ledger, w.escrow) == 0
    requires forall i :: 0 <= i < |acts| ==> !Feeds(w, acts[i])
    ensures NonePaysOut(w, c, acts)
    decreases |acts|
  {
    if acts != [] {
      hide WellTyped, PaysOut, Step, Feeds;
      EmptyStep(w, c, acts[0]);
      StaysEmpty(w, Step(w, c, acts[0]), acts[1..]);
    }
  }
}
