/** When a closing can be brought to its payout, and by whom. */
module Liveness {
  import opened Bytes
  import opened Messages
  import opened Contract
  import opened Ledger
  import opened Chain
  import opened ChainProperties
  import opened Closing
  import opened Payout
  import opened OffChain
  import opened StoredStates
  import opened Payoff

  /** The finalize call of a client: alone in its group or first, with both parties' accounts and its fee at hand. */
  ghost predicate FinalizesWith(w: World, c: Chain, x: Ctx)
    requires WellTyped(c.globals)
  {
    && ValidCtx(x) && x.groupIndex == 0 && x.onCompletion == NoOp && x.args == [MethodName(FinalizeCall)]
    && x.sender != w.escrow && Balance(c.ledger, x.sender) >= MIN_TXN_FEE
    && |Alice(c.globals)| == 32 && |Bob(c.globals)| == 32
    && Alice(c.globals) in x.accounts + {x.sender} && Bob(c.globals) in x.accounts + {x.sender}
  }

  /** Both sides can pay for their inner payment, and the escrow holds both balances. */
  predicate Coverable(w: World, c: Chain)
    requires WellTyped(c.globals)
  {
    && Num(c.globals, LatestAlice) >= MIN_TXN_FEE && Num(c.globals, LatestBob) >= MIN_TXN_FEE
    && Balance(c.ledger, w.escrow) >= Num(c.globals, LatestAlice) + Num(c.globals, LatestBob)
  }

  /** A client's finalize call pays out exactly when the timeout has passed, both balances cover their fee, and the
      escrow holds both of them. */
  lemma FinalizePays(w: World, c: Chain, x: Ctx)
    requires WellTyped(c.globals) && ThreeAccounts(w, c.globals) && FinalizesWith(w, c, x)
    ensures PaysOut(w, c, Submit(x)) <==> c.round > Num(c.globals, Timeout) && Coverable(w, c)
  {
    hide WellTyped, Settle, MethodName, PayOut, Transfer;
    var y := At(w, c, x);
    FinalizeNamed(x);
    assert x.group[..x.groupIndex] == [];
    FeeFromSender(c.ledger, x.sender, w.escrow);
    PayOutCoverable(y, c.globals);
    if y.round > Num(c.globals, Timeout) && PayOut(y, c.globals).Approved? {
      PayoutAmounts(LedgerAtCall(w, c, x).value, w.escrow, y, c.globals);
    }
  }

  lemma FinalizeNamed(x: Ctx)
    requires x.args == [MethodName(FinalizeCall)]
    ensures MethodOf(x) == Some(FinalizeCall)
  {
    hide MethodName;
    MethodNamesDistinct();
  }

  lemma FeeFromSender(l: Ledger, sender: Bytes, escrow: Bytes)
    requires sender != escrow && Balance(l, sender) >= MIN_TXN_FEE
    ensures Transfer(l, sender, sender, 0, MIN_TXN_FEE).Some?
    ensures Balance(Transfer(l, sender, sender, 0, MIN_TXN_FEE).value, escrow) == Balance(l, escrow)
  {
  }

  lemma PayOutCoverable(x: Ctx, g: Globals)
    requires WellTyped(g) && |Alice(g)| == 32 && |Bob(g)| == 32
    requires Alice(g) in x.accounts + {x.sender} && Bob(g) in x.accounts + {x.sender}
    ensures PayOut(x, g).Approved? <==> Num(g, LatestAlice) >= MIN_TXN_FEE && Num(g, LatestBob) >= MIN_TXN_FEE
    ensures PayOut(x, g).Approved? ==> PayOut(x, g).globals == g && PayOut(x, g).payouts != []
  {
  }

  // ----- waiting -----

  function Ticks(n: nat): seq<Action> {
    seq(n, _ => Tick)
  }

  lemma {:induction false} TicksRun(w: World, c: Chain, n: nat)
    requires WellTyped(c.globals) && c.round + n < U64_LIMIT
    ensures Run(w, c, Ticks(n)) == c.(round := c.round + n)
    decreases n
  {
    if n > 0 {
      hide WellTyped;
      assert Ticks(n)[1..] == Ticks(n - 1);
      TicksRun(w, c.(round := c.round + 1), n - 1);
    }
  }

  /** Waiting until the timeout has passed, the payout of a coverable closing succeeds; of any other it never does,
      as long as nothing but rounds goes by. */
  lemma WaitAndFinalize(w: World, c: Chain, x: Ctx, n: nat)
    requires WellTyped(c.globals) && ThreeAccounts(w, c.globals) && FinalizesWith(w, c, x) && c.round + n < U64_LIMIT
    ensures PaysOut(w, Run(w, c, Ticks(n)), Submit(x)) <==> c.round + n > Num(c.globals, Timeout) && Coverable(w, c)
  {
    hide WellTyped, Run, PaysOut;
    TicksRun(w, c, n);
    FinalizePays(w, c.(round := c.round + n), x);
  }

  // ----- the honest party -----

  /** Over a closing on track in which the partner was penalised, with the deposit in escrow, the honest party can
      have its payout if and only if its own side covers a fee and its partner's signed balance covers the penalty
      and a fee: a partner left with less than that cannot be paid, and then neither can the honest party. */
  lemma PenalisedPayout(w: World, c: Chain, p: Party, s: Standing, x: Ctx, n: nat)
    requires Tracks(w, c, p, s) && Based(w, p) && s.disputed
    requires Read(c.globals, ClosingInitiator) != B(PartyName(p))
    requires ThreeAccounts(w, c.globals) && FinalizesWith(w, c, x)
    requires c.round + n < U64_LIMIT && c.round + n > Num(c.globals, Timeout)
    requires Balance(c.ledger, w.escrow) == Num(c.globals, TotalDeposit)
    ensures PaysOut(w, Run(w, c, Ticks(n)), Submit(x))
       <==> && Mine(p.me, p.info, s.alice, s.bob) + p.info.penalty >= MIN_TXN_FEE
            && Other(p.me, p.info, s.alice, s.bob) >= p.info.penalty + MIN_TXN_FEE
  {
    hide WellTyped, Run, PaysOut, Ready, FinalizesWith, Ascii, Stands;
    WaitAndFinalize(w, c, x, n);
    InitiatorNames(c.globals);
  }

  lemma {:induction false} TicksAreFair(w: World, c: Chain, p: Party, n: nat)
    requires WellTyped(c.globals) && c.round + n < U64_LIMIT
    ensures Fair(w, c, p, Ticks(n)) && DisputeCount(w, c, Ticks(n)) == 0
    decreases n
  {
    if n > 0 {
      hide WellTyped;
      assert Ticks(n)[1..] == Ticks(n - 1);
      TicksAreFair(w, c.(round := c.round + 1), p, n - 1);
    }
  }

  /** The honest party needs nobody's help: after one accepted initiation by its partner, whatever anyone then does
      with what was signed, and a pass of its watchtower, it waits until the timeout has passed and finalizes
      itself; if the closing is coverable this pays out, and its account gains at least its floor less the fees of
      its call and its payout. */
  lemma HonestCollects(w: World, c: Chain, p: Party, m: nat, init: Action, before: seq<Action>, passed: Chain,
                       x: Ctx, n: nat)
    requires Watched(w, c, p, m, init, before, passed)
    requires WellTyped(passed.globals) && ThreeAccounts(w, passed.globals)
    requires FinalizesWith(w, passed, x) && x.sender == p.me && Coverable(w, passed)
    requires passed.round + n < U64_LIMIT && passed.round + n > Num(passed.globals, Timeout)
    ensures var c1 := Run(w, passed, Ticks(n));
            PaysOut(w, c1, Submit(x))
            && Balance(Step(w, c1, Submit(x)).ledger, p.me) + 2 * MIN_TXN_FEE >= Balance(passed.ledger, p.me) + m
  {
    hide WellTyped, Step, Run, Fair, PaysOut, LedgerAtCall, Coverable, Watched, Ticks;
    TicksAreFair(w, passed, p, n);
    WaitAndFinalize(w, passed, x, n);
    HonestPayoff(w, c, p, m, init, before, passed, Ticks(n), Submit(x));
    TicksRun(w, passed, n);
    OwnFee(w, Run(w, passed, Ticks(n)), x);
  }

  /** At the call its sender has paid just the call's fee. */
  lemma OwnFee(w: World, c: Chain, x: Ctx)
    requires ValidCtx(x) && x.groupIndex == 0 && LedgerAtCall(w, c, x).Some?
    ensures Balance(LedgerAtCall(w, c, x).value, x.sender) == Balance(c.ledger, x.sender) - MIN_TXN_FEE
  {
    assert x.group[..0] == [];
  }
}
