/** The chain a channel lives on: its application, the ledger and the rounds, moved by anyone's transactions. */
module Chain {
  import opened Bytes
  import opened Messages
  import opened Contract
  import opened Ledger

  /** What never changes: cryptography, the application's id and account, the message kind its disputes check. */
  datatype World = World(crypto: Crypto, app: u64, escrow: Bytes, kind: Kind)

  datatype Chain = Chain(globals: Globals, ledger: Ledger, round: u64)

  /** A new round, a payment, or a group with a call of the application. */
  datatype Action =
    | Tick
    | Send(from: Bytes, to: Bytes, amount: u64)
    | Submit(x: Ctx)

  /** The call as this chain runs it now. */
  function At(w: World, c: Chain, x: Ctx): Ctx {
    x.(crypto := w.crypto, app := w.app, escrow := w.escrow, round := c.round, creating := false)
  }

  /** The payments that come before the call in its group. */
  function PayGroup(l: Ledger, group: seq<GroupTxn>): Option<Ledger>
    decreases |group|
  {
    if group == [] then Some(l)
    else if group[0].txnType != Pay then PayGroup(l, group[1..])
    else
      match Transfer(l, group[0].sender, group[0].receiver, group[0].amount, MIN_TXN_FEE)
      case None => None
      case Some(l1) => PayGroup(l1, group[1..])
  }

  /** The chain after a group, if every part of it succeeds. */
  function Result(w: World, c: Chain, x: Ctx): Option<Chain>
    requires WellTyped(c.globals)
  {
    if !ValidCtx(x) then None
    else
      match PayGroup(c.ledger, x.group[..x.groupIndex])
      case None => None
      case Some(l1) =>
        match Transfer(l1, x.sender, x.sender, 0, MIN_TXN_FEE)
        case None => None
        case Some(l2) =>
          match Call(At(w, c, x), c.globals, w.kind)
          case Rejected => None
          case Approved(g, payouts) =>
            match Settle(l2, w.escrow, payouts)
            case None => None
            case Some(l3) => Some(Chain(g, l3, c.round))
  }

  /** One action; a group that fails changes nothing. */
  function Step(w: World, c: Chain, a: Action): (c1: Chain)
    requires WellTyped(c.globals)
    ensures WellTyped(c1.globals)
  {
    match a
    case Tick => if c.round + 1 < U64_LIMIT then c.(round := c.round + 1) else c
    case Send(from, to, amount) =>
      (match Transfer(c.ledger, from, to, amount, MIN_TXN_FEE)
       case None => c
       case Some(l) => c.(ledger := l))
    case Submit(x) =>
      (match Result(w, c, x)
       case None => c
       case Some(c1) => CallFrame(At(w, c, x), c.globals, w.kind); c1)
  }

  function Run(w: World, c: Chain, acts: seq<Action>): (c1: Chain)
    requires WellTyped(c.globals)
    ensures WellTyped(c1.globals)
    decreases |acts|
  {
    if acts == [] then c else Run(w, Step(w, c, acts[0]), acts[1..])
  }

  // ----- what every call keeps -----

  lemma MethodNamesDistinct()
    ensures forall m, n :: MethodName(m) == MethodName(n) ==> m == n
  {
    assert |MethodName(FundCall)| == 4 && |MethodName(IncreaseBudget)| == 14 && |MethodName(DisputeCall)| == 12;
    assert |MethodName(InitiateCall)| == 22 && |MethodName(FinalizeCall)| == 22 && |MethodName(CooperativeCall)| == 16;
    assert MethodName(InitiateCall)[0] == 105 && MethodName(FinalizeCall)[0] == 102;
  }

  /** The participants and parameters fixed at creation. */
  ghost predicate SameTerms(g: Globals, g1: Globals)
    requires WellTyped(g) && WellTyped(g1)
  {
    && Alice(g1) == Alice(g) && Bob(g1) == Bob(g)
    && Num(g1, PenaltyReserve) == Num(g, PenaltyReserve)
    && Num(g1, DisputeWindow) == Num(g, DisputeWindow)
  }

  lemma CallFrame(x: Ctx, g: Globals, kind: Kind)
    requires ValidCtx(x) && WellTyped(g) && Call(x, g, kind).Approved?
    ensures WellTyped(Call(x, g, kind).globals) && SameTerms(g, Call(x, g, kind).globals)
  {
    hide SplitHolds, SplitComputes, Payable;
    match MethodOf(x).value
    case FundCall =>
    case IncreaseBudget =>
    case InitiateCall => InitiateFrame(x, g);
    case DisputeCall => DisputeFrame(x, g, kind);
    case FinalizeCall =>
    case CooperativeCall => CooperativeFrame(x, g);
  }

  lemma InitiateFrame(x: Ctx, g: Globals)
    requires ValidCtx(x) && WellTyped(g) && Initiate(x, g).Approved?
    ensures WellTyped(Initiate(x, g).globals) && SameTerms(g, Initiate(x, g).globals)
  {
    hide SplitHolds, Ascii;
  }

  lemma DisputeFrame(x: Ctx, g: Globals, kind: Kind)
    requires ValidCtx(x) && WellTyped(g) && Dispute(x, g, kind).Approved?
    ensures WellTyped(Dispute(x, g, kind).globals) && SameTerms(g, Dispute(x, g, kind).globals)
  {
    hide SplitHolds, Ascii;
  }

  lemma CooperativeFrame(x: Ctx, g: Globals)
    requires ValidCtx(x) && WellTyped(g) && Cooperative(x, g).Approved?
    ensures WellTyped(Cooperative(x, g).globals) && SameTerms(g, Cooperative(x, g).globals)
  {
    hide SplitHolds, Ascii, Payable;
  }
}
