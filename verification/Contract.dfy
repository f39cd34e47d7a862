/** The escrow contract as a transition function over its global state. */
module Contract {
  import opened Bytes
  import opened Messages

  const MIN_TXN_FEE: u64 := 1000

  /** The keys of the global state. */
  datatype Key =
    | AliceAddress | BobAddress | PenaltyReserve | DisputeWindow | Timeout
    | ClosingInitiator | LatestAlice | LatestBob | LatestTimestamp | TotalDeposit

  /** An AVM value. */
  datatype Value = U(num: u64) | B(bytes: Bytes)

  type Globals = map<Key, Value>

  /** SHA3-256, Ed25519 signing (key, digest) and Ed25519 verification (digest, signature, key). */
  datatype Crypto = Crypto(
    hash: Bytes -> Bytes,
    sign: (Bytes, Bytes) -> Bytes,
    verify: (Bytes, Bytes, Bytes) -> bool)

  ghost predicate Injective(c: Crypto) {
    forall a, b :: c.hash(a) == c.hash(b) ==> a == b
  }

  datatype OnCompletion = NoOp | OptIn | CloseOut | ClearState | UpdateApplication | DeleteApplication

  datatype TxnType = Pay | OtherType

  datatype GroupTxn = GroupTxn(sender: Bytes, txnType: TxnType, amount: u64, receiver: Bytes)

  /** One application call: the transaction, its group and what the chain supplies. */
  datatype Ctx = Ctx(
    crypto: Crypto,
    round: u64,
    app: u64,                // id of the application being run
    escrow: Bytes,           // its account
    creating: bool,          // txn ApplicationID is 0
    onCompletion: OnCompletion,
    sender: Bytes,
    args: seq<Bytes>,
    accounts: set<Bytes>,    // addresses the call makes available to inner transactions
    group: seq<GroupTxn>,
    groupIndex: nat)

  /** An inner payment; a remainder address closes the escrow account. */
  datatype Payment = Payment(amount: u64, receiver: Bytes, closeTo: Option<Bytes>)

  datatype Outcome = Rejected | Approved(globals: Globals, payouts: seq<Payment>)

  predicate ValidCtx(x: Ctx) {
    x.groupIndex < |x.group| < U64_LIMIT && |x.args| < U64_LIMIT
  }

  /** Reading a missing key gives 0. */
  function Read(g: Globals, k: Key): Value {
    if k in g then g[k] else U(0)
  }

  predicate IsAddressKey(k: Key) {
    k == AliceAddress || k == BobAddress || k == ClosingInitiator
  }

  /** A created application: both addresses and parameters are there and every value has its key's type. */
  predicate WellTyped(g: Globals) {
    && AliceAddress in g && BobAddress in g && PenaltyReserve in g && DisputeWindow in g
    && (forall k | k in g :: g[k].B? <==> IsAddressKey(k))
    && (ClosingInitiator in g ==> g[ClosingInitiator] == B(Ascii("alice")) || g[ClosingInitiator] == B(Ascii("bob")))
  }

  function Num(g: Globals, k: Key): u64
    requires WellTyped(g) && !IsAddressKey(k)
  {
    Read(g, k).num
  }

  function Alice(g: Globals): Bytes
    requires WellTyped(g)
  {
    g[AliceAddress].bytes
  }

  function Bob(g: Globals): Bytes
    requires WellTyped(g)
  {
    g[BobAddress].bytes
  }

  /** `Btoi` on the chain: only up to eight bytes. */
  predicate IsUint(b: Bytes) {
    |b| <= 8
  }

  function Uint(b: Bytes): u64
    requires IsUint(b)
  {
    BtoiFitsU64(b);
    Btoi(b)
  }

  // ----- initialization and funding -----

  function Create(x: Ctx): (o: Outcome)
    ensures o.Approved? ==> WellTyped(o.globals)
  {
    if |x.args| == 3 && IsUint(x.args[1]) && IsUint(x.args[2]) then
      Approved(map[AliceAddress := B(x.sender), BobAddress := B(x.args[0]),
                   PenaltyReserve := U(Uint(x.args[1])), DisputeWindow := U(Uint(x.args[2]))], [])
    else Rejected
  }

  /** Alice's payment to the escrow in the transaction before this one, worth more than penalty and fee. */
  predicate IsFunding(x: Ctx, g: Globals)
    requires ValidCtx(x) && WellTyped(g)
  {
    && x.groupIndex >= 1
    && var f := x.group[x.groupIndex - 1];
       && f.sender == x.sender
       && f.sender == Alice(g)
       && f.txnType == Pay
       && f.amount > Num(g, PenaltyReserve) + MIN_TXN_FEE
       && f.receiver == x.escrow
       && Num(g, PenaltyReserve) + MIN_TXN_FEE < U64_LIMIT
  }

  function Fund(x: Ctx, g: Globals): Outcome
    requires ValidCtx(x) && WellTyped(g)
  {
    if IsFunding(x, g) then
      var amount := x.group[x.groupIndex - 1].amount;
      Approved(g[LatestAlice := U(amount)][TotalDeposit := U(amount)], [])
    else Rejected
  }

  // ----- the doubly signed split of the deposit in arguments 1 to 6 -----

  /** `Ed25519Verify_Bare` takes a 64-byte signature and a 32-byte key. */
  predicate SignatureShape(sig: Bytes, key: Bytes) {
    |sig| == 64 && |key| == 32
  }

  function SignedMessage(x: Ctx, kind: Kind): Bytes
    requires |x.args| >= 7
  {
    Assemble(kind, x.args[1], x.app, x.args[2], x.args[3], x.args[4])
  }

  /** Both signatures and the two balances have a shape the AVM computes with; without it the strict condition
      panics. */
  predicate SplitComputes(x: Ctx, g: Globals)
    requires WellTyped(g)
  {
    && |x.args| >= 7
    && SignatureShape(x.args[5], Alice(g))
    && SignatureShape(x.args[6], Bob(g))
    && IsUint(x.args[2]) && IsUint(x.args[3])
    && Uint(x.args[2]) + Uint(x.args[3]) < U64_LIMIT
  }

  /** Alice and Bob both signed the arguments, and the balances split the deposit. */
  predicate SplitHolds(x: Ctx, g: Globals, kind: Kind)
    requires WellTyped(g) && SplitComputes(x, g)
  {
    var digest := x.crypto.hash(SignedMessage(x, kind));
    && x.crypto.verify(digest, x.args[5], Alice(g))
    && x.crypto.verify(digest, x.args[6], Bob(g))
    && Uint(x.args[2]) + Uint(x.args[3]) == Num(g, TotalDeposit)
  }

  /** Takes the balances and timestamp of the arguments as the latest ones. */
  function WithSplit(x: Ctx, g: Globals): Globals
    requires |x.args| >= 5 && IsUint(x.args[2]) && IsUint(x.args[3]) && IsUint(x.args[4])
  {
    g[LatestTimestamp := U(Uint(x.args[4]))][LatestAlice := U(Uint(x.args[2]))][LatestBob := U(Uint(x.args[3]))]
  }

  /** The split's numbers can be read back, and the participants and the penalty are the same. */
  lemma WithSplitReads(x: Ctx, g: Globals)
    requires WellTyped(g) && |x.args| >= 5 && IsUint(x.args[2]) && IsUint(x.args[3]) && IsUint(x.args[4])
    ensures WellTyped(WithSplit(x, g))
    ensures Alice(WithSplit(x, g)) == Alice(g) && Bob(WithSplit(x, g)) == Bob(g)
    ensures Num(WithSplit(x, g), PenaltyReserve) == Num(g, PenaltyReserve)
    ensures Num(WithSplit(x, g), LatestTimestamp) == Uint(x.args[4])
    ensures Num(WithSplit(x, g), LatestAlice) == Uint(x.args[2]) && Num(WithSplit(x, g), LatestBob) == Uint(x.args[3])
  {
  }

  predicate FromParty(x: Ctx, g: Globals)
    requires WellTyped(g)
  {
    x.sender == Alice(g) || x.sender == Bob(g)
  }

  // ----- closing -----

  function Initiate(x: Ctx, g: Globals): Outcome
    requires WellTyped(g)
  {
    if !FromParty(x, g) || !SplitComputes(x, g) then Rejected
    else if !SplitHolds(x, g, StateUpdate) then Approved(g, [])
    else if !IsUint(x.args[4]) || x.round + Num(g, DisputeWindow) >= U64_LIMIT then Rejected
    else
      var g1 := g[ClosingInitiator := B(if x.sender == Alice(g) then Ascii("alice") else Ascii("bob"))];
      Approved(WithSplit(x, g1[Timeout := U(x.round + Num(g, DisputeWindow))]), [])
  }

  /** Moves the penalty from one party's latest balance to the other's. */
  function Rebalance(g: Globals, from: Key, to: Key): Outcome
    requires WellTyped(g) && !IsAddressKey(from) && !IsAddressKey(to)
  {
    var p := Num(g, PenaltyReserve);
    if Num(g, from) < p then Rejected
    else
      var g1 := g[from := U(Num(g, from) - p)];
      if Num(g1, to) + p >= U64_LIMIT then Rejected
      else Approved(g1[to := U(Num(g1, to) + p)], [])
  }

  /** `kind` is the message a dispute's signatures are checked against. */
  function Dispute(x: Ctx, g: Globals, kind: Kind): Outcome
    requires WellTyped(g)
  {
    if !SplitComputes(x, g) || !IsUint(x.args[4]) then Rejected
    else if !SplitHolds(x, g, kind) || Num(g, LatestTimestamp) >= Uint(x.args[4]) then Approved(g, [])
    else if ClosingInitiator !in g then Rejected // compares the number 0 with "alice"
    else if g[ClosingInitiator] == B(Ascii("alice")) then Rebalance(WithSplit(x, g), LatestAlice, LatestBob)
    else Rebalance(WithSplit(x, g), LatestBob, LatestAlice)
  }

  /** `itxn_field` takes only addresses the call made available. */
  predicate Payable(x: Ctx, address: Bytes) {
    |address| == 32 && address in x.accounts + {x.sender, x.escrow}
  }

  /** Pays both parties their latest balance less the fee; what is left in the escrow goes to Alice. */
  function PayOut(x: Ctx, g: Globals): Outcome
    requires WellTyped(g)
  {
    if Num(g, LatestBob) < MIN_TXN_FEE || Num(g, LatestAlice) < MIN_TXN_FEE then Rejected
    else if !Payable(x, Bob(g)) || !Payable(x, Alice(g)) then Rejected
    else Approved(g, [Payment(Num(g, LatestBob) - MIN_TXN_FEE, Bob(g), None),
                      Payment(Num(g, LatestAlice) - MIN_TXN_FEE, Alice(g), Some(Alice(g)))])
  }

  function Cooperative(x: Ctx, g: Globals): Outcome
    requires WellTyped(g)
  {
    if !FromParty(x, g) || Num(g, Timeout) != 0 || !SplitComputes(x, g) then Rejected
    else if !SplitHolds(x, g, CloseChannel) then Approved(g, [])
    else if !IsUint(x.args[4]) then Rejected
    else PayOut(x, WithSplit(x, g))
  }

  function Finalize(x: Ctx, g: Globals): Outcome
    requires WellTyped(g)
  {
    if x.round > Num(g, Timeout) then PayOut(x, g) else Approved(g, [])
  }

  // ----- dispatch -----

  datatype Method = FundCall | IncreaseBudget | InitiateCall | DisputeCall | FinalizeCall | CooperativeCall

  function MethodName(m: Method): Bytes {
    match m
    case FundCall => Ascii("fund")
    case IncreaseBudget => Ascii("increaseBudget")
    case InitiateCall => Ascii("initiateChannelClosing")
    case DisputeCall => Ascii("raiseDispute")
    case FinalizeCall => Ascii("finalizeChannelClosing")
    case CooperativeCall => Ascii("cooperativeClose")
  }

  /** The method a call names: the first match, in the program's order. */
  function MethodOf(x: Ctx): Option<Method> {
    if |x.args| == 0 then None
    else if x.args[0] == MethodName(FundCall) then Some(FundCall)
    else if x.args[0] == MethodName(IncreaseBudget) then Some(IncreaseBudget)
    else if x.args[0] == MethodName(InitiateCall) then Some(InitiateCall)
    else if x.args[0] == MethodName(DisputeCall) then Some(DisputeCall)
    else if x.args[0] == MethodName(FinalizeCall) then Some(FinalizeCall)
    else if x.args[0] == MethodName(CooperativeCall) then Some(CooperativeCall)
    else None
  }

  /** What a call of a method does; `kind` is the message kind its disputes check. */
  function Perform(m: Method, x: Ctx, g: Globals, kind: Kind): Outcome
    requires ValidCtx(x) && WellTyped(g)
  {
    match m
    case FundCall => Fund(x, g)
    case IncreaseBudget => Approved(g, [])
    case InitiateCall => Initiate(x, g)
    case DisputeCall => Dispute(x, g, kind)
    case FinalizeCall => Finalize(x, g)
    case CooperativeCall => Cooperative(x, g)
  }

  /** A call of the created application. */
  function Call(x: Ctx, g: Globals, kind: Kind): Outcome
    requires ValidCtx(x) && WellTyped(g)
  {
    if x.onCompletion != NoOp || MethodOf(x).None? then Rejected
    else Perform(MethodOf(x).value, x, g, kind)
  }

  // ----- the words of a call -----

  // The words that the program compares the first argument with, as ASCII codes.

  /** fund */
  const FUND: Bytes := [102, 117, 110, 100]

  /** increaseBudget */
  const INCREASE_BUDGET: Bytes := [105, 110, 99, 114, 101, 97, 115, 101, 66, 117, 100, 103, 101, 116]

  /** initiateChannelClosing */
  const INITIATE: Bytes := [
    105, 110, 105, 116, 105, 97, 116, 101, 67, 104, 97, 110, 110, 101, 108, 67, 108, 111, 115, 105, 110, 103]

  /** raiseDispute */
  const DISPUTE: Bytes := [114, 97, 105, 115, 101, 68, 105, 115, 112, 117, 116, 101]

  /** finalizeChannelClosing */
  const FINALIZE: Bytes := [
    102, 105, 110, 97, 108, 105, 122, 101, 67, 104, 97, 110, 110, 101, 108, 67, 108, 111, 115, 105, 110, 103]

  /** cooperativeClose */
  const COOPERATIVE: Bytes := [99, 111, 111, 112, 101, 114, 97, 116, 105, 118, 101, 67, 108, 111, 115, 101]

  lemma MethodsSpelled()
    ensures MethodName(FundCall) == FUND && MethodName(IncreaseBudget) == INCREASE_BUDGET
    ensures MethodName(InitiateCall) == INITIATE && MethodName(DisputeCall) == DISPUTE
    ensures MethodName(FinalizeCall) == FINALIZE && MethodName(CooperativeCall) == COOPERATIVE
  {
    hide Ascii;
    Spelled("fund", FUND);
    Spelled("increaseBudget", INCREASE_BUDGET);
    Spelled("initiateChannelClosing", INITIATE);
    Spelled("raiseDispute", DISPUTE);
    Spelled("finalizeChannelClosing", FINALIZE);
    Spelled("cooperativeClose", COOPERATIVE);
  }

  /** What a call does, by the word it carries. */
  function Meant(x: Ctx, g: Globals, kind: Kind): Outcome
    requires ValidCtx(x) && WellTyped(g)
  {
    if x.onCompletion != NoOp || x.args == [] then Rejected
    else if x.args[0] == FUND then Fund(x, g)
    else if x.args[0] == INCREASE_BUDGET then Approved(g, [])
    else if x.args[0] == INITIATE then Initiate(x, g)
    else if x.args[0] == DISPUTE then Dispute(x, g, kind)
    else if x.args[0] == FINALIZE then
      if x.round > Num(g, Timeout) then PayOut(x, g) else Approved(g, [])
    else if x.args[0] == COOPERATIVE then Cooperative(x, g)
    else Rejected
  }

  /** The transition function takes every word as it is meant, and rejects every other. */
  lemma CallIsMeant(x: Ctx, g: Globals, kind: Kind)
    requires ValidCtx(x) && WellTyped(g)
    ensures Call(x, g, kind) == Meant(x, g, kind)
  {
    hide MethodName, WellTyped, Fund, Initiate, Dispute, Cooperative, PayOut;
    MethodsSpelled();
  }
}
