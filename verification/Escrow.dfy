/** The escrow application as the contract's code runs it: reads, writes and panics, in its order. */
module Escrow {
  import opened Bytes
  import opened Messages
  import opened Contract

  /** What a call did to the stored state, against the transition function. */
  ghost predicate Did(o: Outcome, approved: bool, before: Globals, after: Globals, payouts: seq<Payment>) {
    match o
    case Rejected => !approved && after == before && payouts == []
    case Approved(g, p) => approved && after == g && payouts == p
  }

  class App {
    var global: Globals

    constructor ()
      ensures global == map[]
    {
      global := map[];
    }

    method GlobalPut(k: Key, v: Value)
      modifies this
      ensures global == old(global)[k := v]
    {
      global := global[k := v];
    }

    /** A panic undoes every write of the call. */
    method Rollback(saved: Globals)
      modifies this
      ensures global == saved
    {
      global := saved;
    }

    method OnCreate(x: Ctx) returns (approved: bool)
      requires global == map[]
      modifies this
      ensures Did(Create(x), approved, old(global), global, [])
    {
      if |x.args| != 3 {
        return false;
      }
      GlobalPut(AliceAddress, B(x.sender));
      GlobalPut(BobAddress, B(x.args[0]));
      if !IsUint(x.args[1]) {
        Rollback(map[]);
        return false;
      }
      GlobalPut(PenaltyReserve, U(Uint(x.args[1])));
      if !IsUint(x.args[2]) {
        Rollback(map[]);
        return false;
      }
      GlobalPut(DisputeWindow, U(Uint(x.args[2])));
      return true;
    }

    method OnFunding(x: Ctx) returns (approved: bool)
      requires ValidCtx(x) && WellTyped(global)
      modifies this
      ensures Did(Fund(x, old(global)), approved, old(global), global, [])
    {
      if x.groupIndex < 1 || Num(global, PenaltyReserve) + MIN_TXN_FEE >= U64_LIMIT {
        return false;
      }
      var funding := x.group[x.groupIndex - 1];
      if !(funding.sender == x.sender
           && funding.sender == Alice(global)
           && funding.txnType == Pay
           && funding.amount > Num(global, PenaltyReserve) + MIN_TXN_FEE
           && funding.receiver == x.escrow) {
        return false;
      }
      GlobalPut(LatestAlice, U(funding.amount));
      GlobalPut(TotalDeposit, U(funding.amount));
      return true;
    }

    /** Both signatures over the message of this kind, and the sum of the balances; None is a panic. */
    method CheckSplit(x: Ctx, kind: Kind) returns (holds: Option<bool>)
      requires WellTyped(global)
      ensures holds == if SplitComputes(x, global) then Some(SplitHolds(x, global, kind)) else None
    {
      if |x.args| < 7 {
        return None;
      }
      var data := Prefix(kind) + x.args[1] + COMMA + Itob(x.app) + COMMA + x.args[2] + COMMA + x.args[3] + COMMA
                  + x.args[4] + Suffix(kind);
      var digest := x.crypto.hash(data);
      if !SignatureShape(x.args[5], Alice(global)) {
        return None;
      }
      var byAlice := x.crypto.verify(digest, x.args[5], Alice(global));
      if !SignatureShape(x.args[6], Bob(global)) {
        return None;
      }
      var byBob := x.crypto.verify(digest, x.args[6], Bob(global));
      if !IsUint(x.args[2]) || !IsUint(x.args[3]) || Uint(x.args[2]) + Uint(x.args[3]) >= U64_LIMIT {
        return None;
      }
      return Some(byAlice && byBob && Uint(x.args[2]) + Uint(x.args[3]) == Num(global, TotalDeposit));
    }

    method StoreSplit(x: Ctx) returns (ok: bool)
      requires |x.args| >= 5 && IsUint(x.args[2]) && IsUint(x.args[3])
      modifies this
      ensures ok == IsUint(x.args[4])
      ensures global == if ok then WithSplit(x, old(global)) else old(global)
    {
      if !IsUint(x.args[4]) {
        return false;
      }
      GlobalPut(LatestTimestamp, U(Uint(x.args[4])));
      GlobalPut(LatestAlice, U(Uint(x.args[2])));
      GlobalPut(LatestBob, U(Uint(x.args[3])));
      return true;
    }

    method OnInitiateChannelClosing(x: Ctx) returns (approved: bool)
      requires ValidCtx(x) && WellTyped(global)
      modifies this
      ensures Did(Initiate(x, old(global)), approved, old(global), global, [])
    {
      hide SplitHolds, Ascii;
      var saved := global;
      if x.sender != Alice(global) && x.sender != Bob(global) {
        return false;
      }
      var holds := CheckSplit(x, StateUpdate);
      if holds.None? {
        return false;
      }
      if holds.value {
        var deadline := x.round + Num(global, DisputeWindow);
        if x.sender == Alice(global) {
          GlobalPut(ClosingInitiator, B(Ascii("alice")));
        } else {
          GlobalPut(ClosingInitiator, B(Ascii("bob")));
        }
        if deadline >= U64_LIMIT {
          Rollback(saved);
          return false;
        }
        GlobalPut(Timeout, U(deadline));
        var stored := StoreSplit(x);
        if !stored {
          Rollback(saved);
          return false;
        }
      }
      return true;
    }

    /** Moves an amount from one balance to another; on a panic the caller rolls back. */
    method MoveFunds(from: Key, to: Key, amount: u64) returns (ok: bool)
      requires WellTyped(global) && !IsAddressKey(from) && !IsAddressKey(to)
      requires amount == Num(global, PenaltyReserve)
      modifies this
      ensures match Rebalance(old(global), from, to)
              case Rejected => !ok
              case Approved(g, _) => ok && global == g
    {
      if Num(global, from) < amount {
        return false;
      }
      GlobalPut(from, U(Num(global, from) - amount));
      var balance := Read(global, to).num;
      if balance + amount >= U64_LIMIT {
        return false;
      }
      GlobalPut(to, U(balance + amount));
      return true;
    }

    method OnRaiseDispute(x: Ctx, kind: Kind) returns (approved: bool)
      requires ValidCtx(x) && WellTyped(global)
      modifies this
      ensures Did(Dispute(x, old(global), kind), approved, old(global), global, [])
    {
      hide SplitHolds, Ascii;
      var saved := global;
      var holds := CheckSplit(x, kind);
      if holds.None? || !IsUint(x.args[4]) {
        return false;
      }
      if holds.value && Num(global, LatestTimestamp) < Uint(x.args[4]) {
        var _ := StoreSplit(x);
        if Read(global, ClosingInitiator).U? {
          Rollback(saved);
          return false;
        }
        var ok;
        if Read(global, ClosingInitiator) == B(Ascii("alice")) {
          ok := MoveFunds(LatestAlice, LatestBob, Num(global, PenaltyReserve));
        } else {
          ok := MoveFunds(LatestBob, LatestAlice, Num(global, PenaltyReserve));
        }
        if !ok {
          Rollback(saved);
          return false;
        }
      }
      return true;
    }

    /** The inner transaction group of `closeAccountTo`; None is a panic. */
    method CloseAccountTo(x: Ctx, beneficiary: Bytes) returns (payouts: Option<seq<Payment>>)
      requires WellTyped(global) && beneficiary == Alice(global)
      ensures payouts == match PayOut(x, global)
                         case Rejected => None
                         case Approved(_, p) => Some(p)
      ensures var reachable := x.accounts + {x.sender, x.escrow};
              payouts.Some? <==>
                && Num(global, LatestAlice) >= 1000 && Num(global, LatestBob) >= 1000
                && |Alice(global)| == 32 && |Bob(global)| == 32
                && Alice(global) in reachable && Bob(global) in reachable
    {
      var sent: seq<Payment> := [];
      if Num(global, LatestBob) < MIN_TXN_FEE || !Payable(x, Bob(global)) {
        return None;
      }
      sent := sent + [Payment(Num(global, LatestBob) - MIN_TXN_FEE, Bob(global), None)];
      if Num(global, LatestAlice) < MIN_TXN_FEE || !Payable(x, Alice(global)) {
        return None;
      }
      sent := sent + [Payment(Num(global, LatestAlice) - MIN_TXN_FEE, Alice(global), Some(beneficiary))];
      assert sent == PayOut(x, global).payouts;
      return Some(sent);
    }

    method OnCooperativeClose(x: Ctx) returns (approved: bool, payouts: seq<Payment>)
      requires ValidCtx(x) && WellTyped(global)
      modifies this
      ensures Did(Cooperative(x, old(global)), approved, old(global), global, payouts)
    {
      var saved := global;
      if x.sender != Alice(global) && x.sender != Bob(global) {
        return false, [];
      }
      if Num(global, Timeout) != 0 {
        return false, [];
      }
      var holds := CheckSplit(x, CloseChannel);
      if holds.None? {
        return false, [];
      }
      if holds.value {
        var stored := StoreSplit(x);
        if !stored {
          return false, [];
        }
        var sent := CloseAccountTo(x, Alice(global));
        if sent.None? {
          Rollback(saved);
          return false, [];
        }
        return true, sent.value;
      }
      return true, [];
    }

    method OnFinalizeChannelClosing(x: Ctx) returns (approved: bool, payouts: seq<Payment>)
      requires ValidCtx(x) && WellTyped(global)
      ensures Did(Finalize(x, global), approved, global, global, payouts)
    {
      if x.round > Num(global, Timeout) {
        var sent := CloseAccountTo(x, Alice(global));
        if sent.None? {
          return false, [];
        }
        return true, sent.value;
      }
      return true, [];
    }

    method OnCall(x: Ctx, kind: Kind) returns (approved: bool, payouts: seq<Payment>)
      requires ValidCtx(x) && WellTyped(global)
      modifies this
      ensures Did(Call(x, old(global), kind), approved, old(global), global, payouts)
      ensures Did(Meant(x, old(global), kind), approved, old(global), global, payouts)
    {
      hide MethodName, Call, WellTyped, Fund, Initiate, Dispute, Cooperative;
      CallIsMeant(x, global, kind);
      approved, payouts := false, [];
      if x.onCompletion != NoOp || x.args == [] {
        return;
      }
      var word := x.args[0];
      if word == FUND {
        approved := OnFunding(x);
      } else if word == INCREASE_BUDGET {
        approved := true;
      } else if word == INITIATE {
        approved := OnInitiateChannelClosing(x);
      } else if word == DISPUTE {
        approved := OnRaiseDispute(x, kind);
      } else if word == FINALIZE {
        approved, payouts := OnFinalizeChannelClosing(x);
      } else if word == COOPERATIVE {
        approved, payouts := OnCooperativeClose(x);
      }
    }
  }
}
