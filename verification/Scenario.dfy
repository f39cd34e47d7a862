/** One channel, one cheating attempt and one watchtower pass that meet every assumption of the payoff theorems. */
module Scenario {
  import opened Bytes
  import opened Messages
  import opened Contract
  import opened Ledger
  import opened Chain
  import opened ChainProperties
  import opened Closing
  import opened Payout
  import opened OffChain
  import opened StoredStates
  import opened Payoff
  import opened Liveness
  import opened IdealCrypto
  import opened PayoffLimits
  import opened Operation
  import opened Storage

  function AliceKey(): Bytes {
    seq(32, _ => 1)
  }

  function BobKey(): Bytes {
    seq(32, _ => 2)
  }

  function EscrowKey(): Bytes {
    seq(32, _ => 3)
  }

  const APP: u64 := 7

  function Signing(): Crypto {
    Stamping(AliceKey())
  }

  function Setting(): World {
    World(Signing(), APP, EscrowKey(), StateUpdate)
  }

  function Known(): Info {
    Info(APP, AliceKey(), BobKey(), 10_000, 0, 10_000, 100, 10)
  }

  function SignatureOf(account: Bytes, t: Terms): Bytes {
    Sign(Signing(), account, StateUpdate, t)
  }

  /** A state signed by both. */
  function SignedState(t: i64, alice: u64, bob: u64): OffState {
    OffState(t, alice, bob, SignatureOf(AliceKey(), TermsOf(APP, alice, bob, t)),
             SignatureOf(BobKey(), TermsOf(APP, alice, bob, t)), PORT, APP)
  }

  /** Bob once had 6000; then he paid 2000 to Alice. */
  function Stale(): OffState {
    SignedState(1, 4_000, 6_000)
  }

  function Newest(): OffState {
    SignedState(2, 6_000, 4_000)
  }

  function HonestAlice(): Party {
    Party(AliceKey(), Known(), Newest(),
          {(StateUpdate, TermsOf(APP, 4_000, 6_000, 1)), (StateUpdate, TermsOf(APP, 6_000, 4_000, 2))})
  }

  function OpenedGlobals(): Globals {
    map[AliceAddress := B(AliceKey()), BobAddress := B(BobKey()), PenaltyReserve := U(100), DisputeWindow := U(10),
        LatestAlice := U(10_000), TotalDeposit := U(10_000)]
  }

  function OpenedChain(): Chain {
    Chain(OpenedGlobals(), Ledger(map[AliceKey() := 50_000, BobKey() := 50_000, EscrowKey() := 10_000], 0), 5)
  }

  /** A call of the application, alone in its group. */
  function CallBy(sender: Bytes, args: seq<Bytes>): Ctx {
    Ctx(Signing(), 0, APP, EscrowKey(), false, NoOp, sender, args, {AliceKey(), BobKey()},
        [GroupTxn(sender, OtherType, 0, sender)], 0)
  }

  function Cheat(): Action {
    Submit(CallBy(BobKey(), Packed(InitiateCall, Stale())))
  }

  function DisputeByAlice(): Ctx {
    CallBy(AliceKey(), Packed(DisputeCall, Newest()))
  }

  function FinalizeByAlice(): Ctx {
    CallBy(AliceKey(), [MethodName(FinalizeCall)])
  }

  lemma ThreeKeys()
    ensures |AliceKey()| == 32 && |BobKey()| == 32
    ensures AliceKey() != BobKey() && EscrowKey() != AliceKey() && EscrowKey() != BobKey()
  {
    assert AliceKey()[0] == 1 && BobKey()[0] == 2 && EscrowKey()[0] == 3;
  }

  lemma SignedReady(t: i64, alice: u64, bob: u64)
    ensures Ready(Signing(), Known(), SignedState(t, alice, bob), StateUpdate)
  {
    hide Verify, Sign, TermsOf, Stamping;
    ThreeKeys();
    var terms := TermsOf(APP, alice, bob, t);
    StampVerifies(AliceKey(), BobKey(), AliceKey(), AliceKey(), StateUpdate, StateUpdate, terms, terms);
    StampVerifies(AliceKey(), BobKey(), BobKey(), BobKey(), StateUpdate, StateUpdate, terms, terms);
  }

  lemma OpenedTyped()
    ensures WellTyped(OpenedGlobals())
  {
    hide AliceKey, BobKey;
  }

  lemma OpenedMirrors()
    ensures WellTyped(OpenedGlobals()) && ThreeAccounts(Setting(), OpenedGlobals())
    ensures Read(OpenedGlobals(), TotalDeposit) == U(10_000) && Read(OpenedGlobals(), DisputeWindow) == U(10)
    ensures Mirrors(OpenedGlobals(), HonestAlice())
  {
    hide WellTyped, AliceKey, BobKey, EscrowKey, Newest;
    ThreeKeys();
    OpenedTyped();
  }

  /** A number of two bytes has no comma's byte unless one of the two is it. */
  lemma SmallNoComma(n: u64)
    requires n < 0x1_0000 && n / 256 != 44 && n % 256 != 44
    ensures NoComma(Itob(n))
  {
    Digits(n);
    hide Itob;
    assert n / 0x100 % 256 == n / 256;
  }

  lemma SmallNumbers()
    ensures NoComma(Itob(PORT)) && NoComma(Itob(APP)) && NoComma(Itob(1)) && NoComma(Itob(2))
    ensures NoComma(Itob(4_000)) && NoComma(Itob(6_000))
  {
    hide Itob, NoComma;
    SmallNoComma(PORT);
    SmallNoComma(APP);
    SmallNoComma(1);
    SmallNoComma(2);
    SmallNoComma(4_000);
    SmallNoComma(6_000);
  }

  /** What application 7 can read from all that Alice signed. */
  lemma AliceSigned(r: Reading)
    requires Signed(HonestAlice(), StateUpdate, 10_000, r)
    ensures r in {Reading(4_000, 6_000, 1), Reading(6_000, 4_000, 2)}
  {
    hide Itob, Ambiguous, NoComma, ReadsAs;
    SmallNumbers();
    CommaFree(TermsOf(APP, 4_000, 6_000, 1), APP);
    CommaFree(TermsOf(APP, 6_000, 4_000, 2), APP);
    var t :| (StateUpdate, t) in HonestAlice().signed && ReadsAs(t, APP, r);
    ClearReading(t, APP, r);
  }

  lemma AliceIsHonest()
    ensures Honest(Setting(), HonestAlice(), 10_000) && Based(Setting(), HonestAlice())
    ensures Serviceable(Setting(), HonestAlice(), 10_000) && Floor(Setting(), HonestAlice(), 10_000, 6_000)
  {
    hide Ready, Sign, Signed;
    ThreeKeys();
    SignedReady(2, 6_000, 4_000);
    forall r | Signed(HonestAlice(), StateUpdate, 10_000, r)
      ensures r in {Reading(4_000, 6_000, 1), Reading(6_000, 4_000, 2)}
    {
      AliceSigned(r);
    }
  }

  /** Bob's initiation with any ready state that splits the deposit is accepted. */
  lemma BobInitiates(c: Chain, e: OffState)
    requires WellTyped(c.globals) && e.alice + e.bob == Num(c.globals, TotalDeposit)
    requires c.round + Num(c.globals, DisputeWindow) < U64_LIMIT && Balance(c.ledger, BobKey()) >= MIN_TXN_FEE
    requires Mirrors(c.globals, HonestAlice()) && Ready(Signing(), Known(), e, StateUpdate)
    ensures var a := Submit(CallBy(BobKey(), Packed(InitiateCall, e)));
            var c1 := Step(Setting(), c, a);
            && Initiates(Setting(), c, a)
            && TakenOver(c1.globals, e, c.round + Num(c.globals, DisputeWindow), Ascii("bob"))
            && Balance(c1.ledger, EscrowKey()) == Balance(c.ledger, EscrowKey())
            && Balance(c1.ledger, AliceKey()) == Balance(c.ledger, AliceKey())
            && c1.round == c.round
  {
    hide WellTyped, Packed, Ready, SplitComputes, SplitHolds, MethodName, Initiate, Ascii, Result;
    hide AliceKey, BobKey, EscrowKey, Signing, Newest;
    ThreeKeys();
    var x := CallBy(BobKey(), Packed(InitiateCall, e));
    var y := At(Setting(), c, x);
    InitiateNamed(x, e);
    PackedArgs(x, e, InitiateCall);
    InitiationTakes(y, c.globals, Known(), e);
    PackedSplit(y, c.globals, Known(), e, InitiateCall, StateUpdate);
    SingleCall(Setting(), c, x, InitiateCall);
  }

  /** So is the one with the stale state. */
  lemma CheatSucceeds()
    ensures WellTyped(OpenedGlobals()) && Initiates(Setting(), OpenedChain(), Cheat())
    ensures var c1 := Step(Setting(), OpenedChain(), Cheat());
            && TakenOver(c1.globals, Stale(), 15, Ascii("bob"))
            && Balance(c1.ledger, EscrowKey()) == 10_000 && Balance(c1.ledger, AliceKey()) == 50_000 && c1.round == 5
  {
    hide WellTyped, Packed, Ready, Initiates, TakenOver, Step, Ascii, AliceKey, BobKey, EscrowKey, Signing, SignatureOf;
    hide OpenedGlobals, CallBy, Mirrors;
    ThreeKeys();
    OpenedMirrors();
    SignedReady(1, 4_000, 6_000);
    BobInitiates(OpenedChain(), Stale());
  }

  lemma InitiateNamed(x: Ctx, e: OffState)
    requires x.args == Packed(InitiateCall, e)
    ensures MethodOf(x) == Some(InitiateCall)
  {
    hide MethodName;
    MethodNamesDistinct();
  }

  /** Bob's call carries nothing but what Alice signed. */
  lemma CheatUnforged()
    ensures Unforged(Setting(), OpenedChain(), HonestAlice(), Cheat())
  {
    hide Packed, Stamping, Sign, Encode, TermsOf;
    ThreeKeys();
    var x := At(Setting(), OpenedChain(), Cheat().x);
    PackedArgs(x, Stale(), InitiateCall);
    forall kind | Signing().verify(Signing().hash(SignedMessage(x, kind)), x.args[5], AliceKey())
      ensures exists k, t :: (k, t) in HonestAlice().signed
                             && Signing().hash(SignedMessage(x, kind)) == Signing().hash(Encode(k, t))
    {
      PackedRebuilds(x, Known(), Stale(), InitiateCall, kind);
      var t := TermsOf(APP, 4_000, 6_000, 1);
      StampVerifies(AliceKey(), BobKey(), AliceKey(), AliceKey(), kind, StateUpdate, t, t);
      StampShape(t, AliceKey());
      assert kind == StateUpdate;
      assert (StateUpdate, t) in HonestAlice().signed;
    }
  }

  lemma StampShape(t: Terms, account: Bytes)
    requires |account| == 32
    ensures SignatureShape(Sign(Signing(), account, StateUpdate, t), account)
  {
  }

  /** The chain after the pass: Alice can finalize, and both balances can be paid. */
  ghost predicate Collectable(c: Chain) {
    && WellTyped(c.globals) && ThreeAccounts(Setting(), c.globals)
    && FinalizesWith(Setting(), c, FinalizeByAlice()) && Coverable(Setting(), c)
    && c.round == 5 && Num(c.globals, Timeout) == 15
  }

  /** The chain before the pass: it shows Alice 4000 instead of 6000. */
  ghost predicate Cheated(c: Chain) {
    && Mirrors(c.globals, HonestAlice()) && Read(c.globals, LatestAlice) == U(4_000)
    && Read(c.globals, TotalDeposit) == U(10_000) && Read(c.globals, Timeout) == U(15)
    && Balance(c.ledger, EscrowKey()) == 10_000 && Balance(c.ledger, AliceKey()) == 50_000 && c.round == 5
  }

  /** The dispute costs Alice the fee and leaves the escrow's money and the timeout. */
  lemma DisputeLedger(c: Chain)
    requires Cheated(c) && Disputes(Setting(), c, Submit(DisputeByAlice()))
    ensures var passed := Step(Setting(), c, Submit(DisputeByAlice()));
            && Balance(passed.ledger, EscrowKey()) == 10_000 && Balance(passed.ledger, AliceKey()) == 49_000
            && passed.round == 5
  {
    hide WellTyped, Packed, Shows, Ascii, MethodName, Dispute, SplitHolds, SplitComputes, Result, Newest, Signing;
    hide AliceKey, BobKey, EscrowKey;
    ThreeKeys();
    var x := DisputeByAlice();
    SucceedsStep(Setting(), c, Submit(x), DisputeCall);
    DisputePaysNothing(At(Setting(), c, x), c.globals, StateUpdate);
    SingleCall(Setting(), c, x, DisputeCall);
  }

  /** The balances split the deposit and both cover a fee. */
  ghost predicate BothCovered(g: Globals)
    requires WellTyped(g)
  {
    var alice, bob := Num(g, LatestAlice), Num(g, LatestBob);
    alice + bob == 10_000 && alice >= 1_000 && bob >= 1_000
  }

  /** What the dispute leaves of the balances, whoever initiated. */
  lemma DisputeBalances(c: Chain)
    requires Cheated(c) && Disputes(Setting(), c, Submit(DisputeByAlice()))
    ensures BothCovered(Step(Setting(), c, Submit(DisputeByAlice())).globals)
    ensures Num(Step(Setting(), c, Submit(DisputeByAlice())).globals, Timeout) == 15
    ensures Mirrors(Step(Setting(), c, Submit(DisputeByAlice())).globals, HonestAlice())
  {
    hide WellTyped, Packed, Step, Result, Ascii, MethodName, Signing, SignatureOf, Initiates, Disputes;
    hide AliceKey, BobKey, EscrowKey, Succeeds;
    var x, a := DisputeByAlice(), Submit(DisputeByAlice());
    MirrorsStep(Setting(), c, HonestAlice(), a);
    DisputeStep(Setting(), c, a);
    PackedRebuilds(At(Setting(), c, x), Known(), Newest(), DisputeCall, StateUpdate);
    TimeoutStep(Setting(), c, a);
    DisputeIsNoInitiation(c, a);
  }

  lemma DisputeIsNoInitiation(c: Chain, a: Action)
    requires WellTyped(c.globals) && Disputes(Setting(), c, a)
    ensures !Initiates(Setting(), c, a)
  {
    hide WellTyped, Result, SplitHolds, SplitComputes, MethodName;
  }

  /** What the dispute leaves can be collected. */
  lemma AfterDispute(c: Chain)
    requires Cheated(c) && Disputes(Setting(), c, Submit(DisputeByAlice()))
    ensures Collectable(Step(Setting(), c, Submit(DisputeByAlice())))
  {
    hide WellTyped, Step, MethodName, Cheated, Disputes, AliceKey;
    hide BobKey, EscrowKey, Signing, SignatureOf, DisputeByAlice;
    ThreeKeys();
    DisputeLedger(c);
    DisputeBalances(c);
  }

  lemma StaleIsReplaced(c1: Chain, s: Standing)
    requires WellTyped(c1.globals) && Shows(c1.globals, s) && TakenOver(c1.globals, Stale(), 15, Ascii("bob"))
    ensures !Lasting(Setting(), HonestAlice(), 10_000, s.timestamp)
    ensures Read(c1.globals, ClosingInitiator) != B(PartyName(HonestAlice()))
  {
    hide WellTyped, SignatureOf, AliceKey, BobKey, Signing, Ascii;
    AliceIsHonest();
    TimestampShown(c1.globals, s);
    NamesDiffer();
  }

  lemma TracksMirrors(c1: Chain, s: Standing)
    requires Tracks(Setting(), c1, HonestAlice(), s)
    ensures Mirrors(c1.globals, HonestAlice()) && Shows(c1.globals, s)
  {
    hide WellTyped, Shows, Stands;
  }

  lemma HashIsInjective()
    ensures Injective(Signing())
  {
    HashInjective(AliceKey());
  }

  lemma CheatIsBobs()
    ensures Cheat().x.sender == BobKey() && HonestAlice().me == AliceKey() && Setting().crypto == Signing()
  {
  }

  lemma StaleIsCheated(c1: Chain)
    requires TakenOver(c1.globals, Stale(), 15, Ascii("bob")) && Mirrors(c1.globals, HonestAlice())
    requires Read(c1.globals, TotalDeposit) == U(10_000)
    requires Balance(c1.ledger, EscrowKey()) == 10_000 && Balance(c1.ledger, AliceKey()) == 50_000 && c1.round == 5
    ensures Cheated(c1)
  {
    hide WellTyped, Ascii, SignatureOf, AliceKey, BobKey, EscrowKey, Signing;
    TypedReads(c1.globals);
  }

  lemma ShownTooLittle(c1: Chain)
    requires Cheated(c1)
    ensures MyOnChain(HonestAlice(), c1.globals) < MyNewest(HonestAlice())
  {
    hide WellTyped, SignatureOf;
  }

  lemma DisputeIsOfNewest(c1: Chain)
    requires Cheated(c1)
    ensures DisputeOfNewest(c1, HonestAlice(), DisputeByAlice())
  {
    hide WellTyped, Newest, AliceKey, BobKey, EscrowKey, Signing, Mirrors, MethodName;
    PackedArgs(DisputeByAlice(), Newest(), DisputeCall);
  }

  /** The assumptions of the payoff theorems hold together: after Bob's stale initiation and one pass of Alice's
      watchtower the closing is as the theorems want it, and Alice can collect. */
  lemma PayoffHappens()
    ensures exists passed ::
              Watched(Setting(), OpenedChain(), HonestAlice(), 6_000, Cheat(), [], passed) && Collectable(passed)
  {
    hide WellTyped, Packed, Ready, Step, Initiates, Ascii, Unforged, Stamping, Honest, Collectable, Injective;
    hide AliceKey, BobKey, EscrowKey, Signing, SignatureOf, OpenedGlobals, CallBy, Disputes, Tracks, TakenOver;
    ThreeKeys();
    OpenedMirrors();
    AliceIsHonest();
    CheatSucceeds();
    CheatUnforged();
    HashIsInjective();
    CheatIsBobs();
    var c1 := Step(Setting(), OpenedChain(), Cheat());
    var s := InitiationTracks(Setting(), OpenedChain(), HonestAlice(), Cheat());
    TracksMirrors(c1, s);
    assert Read(c1.globals, TotalDeposit) == U(10_000) by {
      TypedReads(c1.globals);
    }
    StaleIsCheated(c1);
    ShownTooLittle(c1);
    DisputeIsOfNewest(c1);
    StaleIsReplaced(c1, s);
    DisputeLands(Setting(), c1, HonestAlice(), s, DisputeByAlice());
    AfterDispute(c1);
    var passed := Step(Setting(), c1, Submit(DisputeByAlice()));
    assert Watched(Setting(), OpenedChain(), HonestAlice(), 6_000, Cheat(), [], passed);
  }
}
