/** The opcode budget: the group a client builds always carries enough of it for the main call. */
module Budget {
  import opened Bytes
  import opened Messages
  import opened Contract
  import opened Teal
  import opened Program
  import opened Steps
  import opened Refinement
  import opened OffChain
  import opened StoredStates
  import opened Operation
  import opened Submission
  import Chain

  /** A later call of the created application. */
  ghost predicate Later(x: Ctx) {
    ValidCtx(x) && !x.creating && x.app != 0
  }

  /** What the compiled program does with a call on the global state g. */
  ghost function RunOf(x: Ctx, g: Globals): Verdict
    requires ValidCtx(x)
  {
    Run(JUMPS, Text, BlockMain(), x, M(g, Empty, 0))
  }

  /** A call that only brings budget. */
  ghost predicate OnlyBudget(x: Ctx) {
    Later(x) && x.onCompletion == NoOp && |x.args| >= 1 && x.args[0] == MethodName(IncreaseBudget)
  }

  const BUDGET_CALL_COST: nat := 26

  /** Such a call approves, changes and pays nothing, and costs 26. */
  lemma BudgetCallCost(x: Ctx, g: Globals)
    requires OnlyBudget(x) && WellTyped(g)
    ensures Agrees(RunOf(x, g), Approved(g, []), BUDGET_CALL_COST)
  {
    hide Run, Text, MethodName, WellTyped, BlockL7, BlockL32;
    TextOfReturns();
    TextOfL7();
    Chain.MethodNamesDistinct();
    RunMain(x, g);
    var c4 := OnOutcome(DeleteApplication, L6, Err);
    var c3 := OnOutcome(NoOp, L7, c4);
    var c2 := OnOutcome(CloseOut, L33, c3);
    RunOnOutcome(JUMPS, UpdateApplication, L34, c2, x, g, 4);
    RunOnOutcome(JUMPS, CloseOut, L33, c3, x, g, 8);
    RunOnOutcome(JUMPS, NoOp, L7, c4, x, g, 12);
    BudgetMethod(x, g);
    RunApprove(JUMPS - 2, Text, x, g, Empty, 24);
  }

  lemma BudgetMethod(x: Ctx, g: Globals)
    requires OnlyBudget(x)
    ensures Run(JUMPS - 1, Text, BlockL7(), x, M(g, Empty, 16)) == Run(JUMPS - 2, Text, Text(L31), x, M(g, Empty, 24))
  {
    hide Run, Text, MethodName;
    Chain.MethodNamesDistinct();
    var c6 := OnMethod(CooperativeCall, L14, Err);
    var c5 := OnMethod(FinalizeCall, L17, c6);
    var c4 := OnMethod(DisputeCall, L20, c5);
    var c3 := OnMethod(InitiateCall, L25, c4);
    var c2 := OnMethod(IncreaseBudget, L31, c3);
    RunOnMethod(JUMPS - 1, FundCall, L32, c2, x, g, 16);
    RunOnMethod(JUMPS - 1, IncreaseBudget, L31, c3, x, g, 20);
  }

  /** What an approved call spends. */
  ghost function Spends(x: Ctx, g: Globals): nat
    requires ValidCtx(x)
  {
    match RunOf(x, g)
    case Halted(_, m) => m.cost
    case Panicked(_) => 0
  }

  ghost function SpendAll(xs: seq<Ctx>, g: Globals): nat
    requires forall x | x in xs :: OnlyBudget(x)
    decreases |xs|
  {
    if xs == [] then 0
    else
      assert xs[0] in xs && OnlyBudget(xs[0]);
      Spends(xs[0], g) + SpendAll(xs[1..], g)
  }

  lemma {:induction false} BudgetCallsSpend(xs: seq<Ctx>, g: Globals)
    requires WellTyped(g) && forall x | x in xs :: OnlyBudget(x)
    ensures SpendAll(xs, g) <= BUDGET_CALL_COST * |xs|
    decreases |xs|
  {
    if xs != [] {
      hide RunOf, OnlyBudget, WellTyped;
      BudgetCallCost(xs[0], g);
      BudgetCallsSpend(xs[1..], g);
    }
  }

  /** The calls of a group as the chain runs them. */
  ghost function CallsOf(w: Chain.World, c: Chain.Chain, group: seq<AppCall>): (xs: seq<Ctx>)
  {
    seq(|group|, i requires 0 <= i < |group| => Chain.At(w, c, CallAt(w.crypto, group, i)))
  }

  /** Whatever the main call, every other call of the group that a client sends is approved on every state, changes
      nothing and pays nothing. */
  lemma CompanionApproved(w: Chain.World, c: Chain.Chain, main: AppCall, group: seq<AppCall>, i: nat, g: Globals)
    requires SentFor(main, TARGET, group) && 1 <= i < |group| && w.app != 0 && WellTyped(g)
    ensures var x := CallsOf(w, c, group)[i];
            OnlyBudget(x) && Call(x, g, w.kind) == Approved(g, []) && Call(x, g, CloseChannel) == Approved(g, [])
  {
    hide MethodName, WellTyped, Ascii, GlobalState.FormatUint;
    Chain.MethodNamesDistinct();
    assert group[i - 1 + 1].args == BudgetCall(main.app, main.sender, i - 1).args;
  }

  /** The group that a client sends for its closing calls fits its budget: an approved main call of any kind and
      the other calls of the group spend together at most what the group may spend, though the program hashes the
      message twice. */
  lemma GroupWithinBudget(w: Chain.World, c: Chain.Chain, main: AppCall, group: seq<AppCall>, g: Globals)
    requires SentFor(main, TARGET, group) && w.app != 0 && WellTyped(g)
    requires ValidCtx(CallsOf(w, c, group)[0]) && Call(CallsOf(w, c, group)[0], g, CloseChannel).Approved?
    ensures var xs := CallsOf(w, c, group);
            && |xs| == 7 && WellTyped(Call(xs[0], g, CloseChannel).globals)
            && (forall x | x in xs[1..] :: OnlyBudget(x))
            && Spends(xs[0], g) + SpendAll(xs[1..], Call(xs[0], g, CloseChannel).globals) <= CALL_BUDGET * |xs|
  {
    hide RunOf, Call, OnlyBudget, WellTyped, BudgetCall;
    var xs := CallsOf(w, c, group);
    MainCost(xs[0], g);
    Chain.CallFrame(xs[0], g, CloseChannel);
    forall x | x in xs[1..]
      ensures OnlyBudget(x)
    {
      var i :| 0 <= i < |xs| - 1 && xs[1..][i] == x;
      CompanionApproved(w, c, main, group, i + 1, g);
    }
    BudgetCallsSpend(xs[1..], Call(xs[0], g, CloseChannel).globals);
  }

  lemma MainCost(main: Ctx, g: Globals)
    requires Later(main) && WellTyped(g)
    ensures Spends(main, g) <= MAX_COST
  {
    hide Call, WellTyped, Run, BlockMain;
    CallRefines(main, g);
  }
}
