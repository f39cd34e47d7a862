/** Creating and funding a channel's application: what its two transactions make of the numbers a node remembers. */
module Opening {
  import opened Bytes
  import opened Messages
  import opened Contract
  import opened Ledger
  import opened Chain
  import opened OffChain
  import opened Operation
  import opened GlobalState

  /** The arguments of `CreatePaymentApp`: the partner's address, then both parameters in eight bytes. */
  method CreateArguments(partner: Bytes, penalty: u64, window: u64) returns (args: seq<Bytes>)
    ensures args == [partner, Itob(penalty), Itob(window)]
  {
    hide Itob;
    var penaltyBytes := new byte[8];
    PutUint64(penaltyBytes, penalty);
    var windowBytes := new byte[8];
    PutUint64(windowBytes, window);
    args := [partner, penaltyBytes[..8], windowBytes[..8]];
  }

  /** The creating call, with those arguments. */
  ghost predicate Creates(x: Ctx, me: Bytes, partner: Bytes, penalty: u64, window: u64) {
    x.sender == me && x.args == [partner, Itob(penalty), Itob(window)]
  }

  /** The group of `SetupPaymentApp`: the payment of the funding to the application's account, then the call. */
  function FundingGroup(c: Crypto, app: u64, escrow: Bytes, me: Bytes, funding: u64): Ctx {
    Ctx(c, 0, app, escrow, false, NoOp, me, [FUND], {},
        [GroupTxn(me, Pay, funding, escrow), GroupTxn(me, OtherType, 0, [])], 1)
  }

  /** The created application knows both parties and both parameters. */
  lemma CreatedAsAsked(x: Ctx, me: Bytes, partner: Bytes, penalty: u64, window: u64)
    requires Creates(x, me, partner, penalty, window)
    ensures Create(x).Approved? && WellTyped(Create(x).globals) && Create(x).payouts == []
    ensures var g := Create(x).globals;
            && Alice(g) == me && Bob(g) == partner
            && Num(g, PenaltyReserve) == penalty && Num(g, DisputeWindow) == window
            && Num(g, LatestAlice) == Num(g, LatestBob) == Num(g, TotalDeposit) == Num(g, Timeout) == 0
  {
    hide Itob;
    BtoiItob(penalty);
    BtoiItob(window);
  }

  /** The accounts as the funding needs them. */
  ghost predicate CanFund(w: World, l: Ledger, me: Bytes, funding: u64) {
    me != w.escrow && Balance(l, me) >= funding + 2 * MIN_TXN_FEE
  }

  /** A creating call is accepted exactly for three arguments, the second and third of at most eight bytes. */
  lemma CreatedWhen(x: Ctx)
    ensures Create(x).Approved?
       <==> exists partner, penalty, window ::
              x.args == [partner, penalty, window] && |penalty| <= 8 && |window| <= 8
  {
    if Create(x).Approved? {
      assert x.args == [x.args[0], x.args[1], x.args[2]];
    }
  }

  /** On a state in which Bob has nothing the funding call is accepted exactly for more than penalty and fee, and the
      state it leaves is what the node remembers. */
  lemma FundedAsAsked(x: Ctx, g: Globals, funding: u64)
    requires ValidCtx(x) && WellTyped(g) && x.sender == Alice(g) && x.groupIndex == 1
    requires x.group[0] == GroupTxn(Alice(g), Pay, funding, x.escrow) && Num(g, LatestBob) == 0
    ensures Fund(x, g).Approved? <==> funding > Num(g, PenaltyReserve) + MIN_TXN_FEE
    ensures Fund(x, g).Approved? ==>
              && Fund(x, g).payouts == [] && WellTyped(Fund(x, g).globals)
              && InfoOf(x.app, Fund(x, g).globals)
                 == Info(x.app, Alice(g), Bob(g), funding, 0, funding, Num(g, PenaltyReserve), Num(g, DisputeWindow))
  {
  }

  /** The payment and the fee of the call, one after the other. */
  lemma PaidBefore(w: World, l: Ledger, me: Bytes, funding: u64)
    requires CanFund(w, l, me, funding)
    ensures var group := FundingGroup(w.crypto, w.app, w.escrow, me, funding).group;
            && PayGroup(l, group[..1]).Some?
            && var l1 := PayGroup(l, group[..1]).value;
               && Transfer(l1, me, me, 0, MIN_TXN_FEE).Some?
               && var l2 := Transfer(l1, me, me, 0, MIN_TXN_FEE).value;
                  && Balance(l2, w.escrow) == Balance(l, w.escrow) + funding
                  && Balance(l2, me) == Balance(l, me) - funding - 2 * MIN_TXN_FEE
  {
    var group := FundingGroup(w.crypto, w.app, w.escrow, me, funding).group;
    assert group[..1] == [group[0]] && group[..1][1..] == [];
  }

  /** From the creating call on: the funding group goes through exactly when the funding is more than penalty and fee.
      Then the application's state is what the node remembers of its channel, and the funding has moved from the
      node's account into the escrow. */
  lemma OpenedAsRemembered(
    w: World, l: Ledger, round: u64, x: Ctx, me: Bytes, partner: Bytes, penalty: u64, window: u64, funding: u64)
    requires Creates(x, me, partner, penalty, window) && CanFund(w, l, me, funding)
    ensures WellTyped(Create(x).globals)
    ensures var group := FundingGroup(w.crypto, w.app, w.escrow, me, funding);
            var funded := Result(w, Chain(Create(x).globals, l, round), group);
            && (funded.Some? <==> funding > penalty + MIN_TXN_FEE)
            && (funded.Some? ==>
                  && WellTyped(funded.value.globals)
                  && InfoOf(w.app, funded.value.globals)
                     == Info(w.app, me, partner, funding, 0, funding, penalty, window)
                  && Balance(funded.value.ledger, w.escrow) == Balance(l, w.escrow) + funding
                  && Balance(funded.value.ledger, me) == Balance(l, me) - funding - 2 * MIN_TXN_FEE)
  {
    hide WellTyped, Itob, MethodName, Create, Call, Fund, PayGroup, Transfer, Balance, InfoOf, Num, Read;
    CreatedAsAsked(x, me, partner, penalty, window);
    MethodsSpelled();
    var g := Create(x).globals;
    var y := FundingGroup(w.crypto, w.app, w.escrow, me, funding);
    var z := At(w, Chain(g, l, round), y);
    CallIsMeant(z, g, w.kind);
    FundedAsAsked(z, g, funding);
    PaidBefore(w, l, me, funding);
  }
}
