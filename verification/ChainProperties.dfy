/** What holds in every run of the chain. */
module ChainProperties {
  import opened Bytes
  import opened Messages
  import opened Contract
  import opened Ledger
  import opened Chain

  // ----- conservation -----

  lemma {:induction false} PayGroupKeepsTotal(l: Ledger, group: seq<GroupTxn>)
    requires PayGroup(l, group).Some?
    ensures Total(PayGroup(l, group).value) == Total(l)
    decreases |group|
  {
    if group != [] {
      if group[0].txnType != Pay {
        PayGroupKeepsTotal(l, group[1..]);
      } else {
        TransferKeepsTotal(l, group[0].sender, group[0].receiver, group[0].amount, MIN_TXN_FEE);
        var l1 := Transfer(l, group[0].sender, group[0].receiver, group[0].amount, MIN_TXN_FEE).value;
        PayGroupKeepsTotal(l1, group[1..]);
      }
    }
  }

  lemma StepKeepsTotal(w: World, c: Chain, a: Action)
    requires WellTyped(c.globals)
    ensures Total(Step(w, c, a).ledger) == Total(c.ledger)
  {
    hide WellTyped, Call, Total;
    if a.Send? && Transfer(c.ledger, a.from, a.to, a.amount, MIN_TXN_FEE).Some? {
      TransferKeepsTotal(c.ledger, a.from, a.to, a.amount, MIN_TXN_FEE);
    }
    if a.Submit? && Result(w, c, a.x).Some? {
      var x := a.x;
      PayGroupKeepsTotal(c.ledger, x.group[..x.groupIndex]);
      var l1 := PayGroup(c.ledger, x.group[..x.groupIndex]).value;
      TransferKeepsTotal(l1, x.sender, x.sender, 0, MIN_TXN_FEE);
      var l2 := Transfer(l1, x.sender, x.sender, 0, MIN_TXN_FEE).value;
      SettleKeepsTotal(l2, w.escrow, Call(At(w, c, x), c.globals, w.kind).payouts);
    }
  }

  /** In every run all balances and fees add up to what they were. */
  lemma {:induction false} RunKeepsTotal(w: World, c: Chain, acts: seq<Action>)
    requires WellTyped(c.globals)
    ensures Total(Run(w, c, acts).ledger) == Total(c.ledger)
    decreases |acts|
  {
    if acts != [] {
      StepKeepsTotal(w, c, acts[0]);
      RunKeepsTotal(w, Step(w, c, acts[0]), acts[1..]);
    }
  }

  /** The action is a call of this method that succeeds. */
  predicate Succeeds(w: World, c: Chain, a: Action, m: Method)
    requires WellTyped(c.globals)
  {
    a.Submit? && MethodOf(a.x) == Some(m) && Result(w, c, a.x).Some?
  }

  /** The fee of a call at the head of its group is at hand. */
  predicate Affords(c: Chain, x: Ctx) {
    ValidCtx(x) && x.groupIndex == 0 && x.onCompletion == NoOp && Balance(c.ledger, x.sender) >= MIN_TXN_FEE
  }

  /** A call at the head of its group that is approved without inner payments succeeds and costs its sender the fee. */
  lemma SingleCall(w: World, c: Chain, x: Ctx, m: Method)
    requires WellTyped(c.globals) && Affords(c, x) && MethodOf(x) == Some(m)
    requires var o := Perform(m, At(w, c, x), c.globals, w.kind); o.Approved? && o.payouts == []
    ensures Succeeds(w, c, Submit(x), m)
    ensures var l := Result(w, c, x).value.ledger;
            && Balance(l, x.sender) == Balance(c.ledger, x.sender) - MIN_TXN_FEE
            && (forall who | who != x.sender :: Balance(l, who) == Balance(c.ledger, who))
    ensures Result(w, c, x).value.globals == Perform(m, At(w, c, x), c.globals, w.kind).globals
    ensures Result(w, c, x).value.round == c.round
  {
    hide WellTyped, Perform, MethodName;
    assert x.group[..0] == [];
  }

  // ----- the latest balances split the deposit -----

  predicate Balanced(g: Globals)
    requires WellTyped(g)
  {
    Num(g, LatestAlice) + Num(g, LatestBob) == Num(g, TotalDeposit)
  }

  /** How many calls of a method succeed in a run. */
  function Count(w: World, c: Chain, acts: seq<Action>, m: Method): nat
    requires WellTyped(c.globals)
    decreases |acts|
  {
    if acts == [] then 0
    else (if Succeeds(w, c, acts[0], m) then 1 else 0) + Count(w, Step(w, c, acts[0]), acts[1..], m)
  }

  /** Every accepted call but funding keeps the balance, and funding keeps it exactly when Bob's side is empty. */
  lemma CallBalance(x: Ctx, g: Globals, kind: Kind)
    requires ValidCtx(x) && WellTyped(g) && Balanced(g) && Call(x, g, kind).Approved?
    ensures WellTyped(Call(x, g, kind).globals)
    ensures Balanced(Call(x, g, kind).globals) <==> MethodOf(x) != Some(FundCall) || Num(g, LatestBob) == 0
    ensures MethodOf(x) != Some(FundCall) ==> Num(Call(x, g, kind).globals, TotalDeposit) == Num(g, TotalDeposit)
  {
    hide Payable, SignatureShape, Ascii;
    CallFrame(x, g, kind);
    match MethodOf(x).value
    case DisputeCall => DisputeBalance(x, g, kind);
    case InitiateCall => InitiateBalance(x, g);
    case CooperativeCall => CooperativeBalance(x, g);
    case _ =>
  }

  lemma DisputeBalance(x: Ctx, g: Globals, kind: Kind)
    requires ValidCtx(x) && WellTyped(g) && Balanced(g) && Dispute(x, g, kind).Approved?
    requires WellTyped(Dispute(x, g, kind).globals)
    ensures Balanced(Dispute(x, g, kind).globals)
    ensures Num(Dispute(x, g, kind).globals, TotalDeposit) == Num(g, TotalDeposit)
  {
    hide SignatureShape, Ascii;
  }

  lemma InitiateBalance(x: Ctx, g: Globals)
    requires ValidCtx(x) && WellTyped(g) && Balanced(g) && Initiate(x, g).Approved?
    requires WellTyped(Initiate(x, g).globals)
    ensures Balanced(Initiate(x, g).globals)
    ensures Num(Initiate(x, g).globals, TotalDeposit) == Num(g, TotalDeposit)
  {
    hide SignatureShape, Ascii;
  }

  lemma CooperativeBalance(x: Ctx, g: Globals)
    requires ValidCtx(x) && WellTyped(g) && Balanced(g) && Cooperative(x, g).Approved?
    requires WellTyped(Cooperative(x, g).globals)
    ensures Balanced(Cooperative(x, g).globals)
    ensures Num(Cooperative(x, g).globals, TotalDeposit) == Num(g, TotalDeposit)
  {
    hide SignatureShape, Ascii, Payable;
  }

  /** In every run with at most one accepted funding, whatever else anyone calls, the balances split the deposit. */
  lemma BalanceInvariant(w: World, c: Chain, x: Ctx, acts: seq<Action>)
    requires Create(x).Approved? && c.globals == Create(x).globals
    requires Count(w, c, acts, FundCall) <= 1
    ensures Balanced(Run(w, c, acts).globals)
  {
    BalanceRun(w, c, acts);
  }

  lemma {:induction false} BalanceRun(w: World, c: Chain, acts: seq<Action>)
    requires WellTyped(c.globals) && Balanced(c.globals)
    requires Count(w, c, acts, FundCall) <= if Num(c.globals, TotalDeposit) == 0 then 1 else 0
    ensures Balanced(Run(w, c, acts).globals)
    decreases |acts|
  {
    if acts != [] {
      hide WellTyped, Step, Balanced, Succeeds;
      BalanceStep(w, c, acts[0]);
      BalanceRun(w, Step(w, c, acts[0]), acts[1..]);
    }
  }

  lemma BalanceStep(w: World, c: Chain, a: Action)
    requires WellTyped(c.globals) && Balanced(c.globals)
    requires Succeeds(w, c, a, FundCall) ==> Num(c.globals, TotalDeposit) == 0
    ensures Balanced(Step(w, c, a).globals)
    ensures !Succeeds(w, c, a, FundCall) ==> Num(Step(w, c, a).globals, TotalDeposit) == Num(c.globals, TotalDeposit)
  {
    hide WellTyped, Call;
    if a.Submit? && Result(w, c, a.x).Some? {
      CallBalance(At(w, c, a.x), c.globals, w.kind);
    }
  }
}
