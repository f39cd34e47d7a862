/** Newest states that are of no use in a dispute: three concrete channels in which the partner's old state stands. */
module Unserviceable {
  import opened Bytes
  import opened Messages
  import opened Contract
  import opened Ledger
  import opened Chain
  import opened ChainProperties
  import opened Closing
  import opened OffChain
  import opened StoredStates
  import opened Storage
  import opened Payoff
  import opened PayoffLimits
  import opened CompiledPayoff
  import opened Payout
  import opened IdealCrypto
  import opened Scenario

  /** A signed state and the call with which a party initiates with it. */
  function InitiateBy(sender: Bytes, e: OffState): Ctx {
    CallBy(sender, Packed(InitiateCall, e))
  }

  /** The scenario's channel in a world whose disputes check messages of this kind. */
  function SettingWith(kind: Kind): World {
    Setting().(kind := kind)
  }

  /** A party of the scenario's channel. */
  ghost predicate InScenario(p: Party) {
    p.info == Known() && p.me in {AliceKey(), BobKey()}
  }

  lemma PartnerAttacks(kind: Kind, p: Party, sender: Bytes, t: i64, alice: u64, bob: u64)
    requires InScenario(p) && sender in {AliceKey(), BobKey()} && sender != p.me && alice + bob == 10_000 && t >= 0
    ensures var x := InitiateBy(sender, SignedState(t, alice, bob));
            && Attack(SettingWith(kind), OpenedChain(), p, x, TermsOf(APP, alice, bob, t))
            && IsUint(x.args[2]) && IsUint(x.args[3]) && IsUint(x.args[4])
            && Uint(x.args[2]) == alice && Uint(x.args[3]) == bob && Uint(x.args[4]) == t
  {
    hide WellTyped, Verify, Sign, Stamping, Itob, MethodName, AliceKey, BobKey, EscrowKey, OpenedGlobals;
    ThreeKeys();
    OpenedMirrors();
    var e, x := SignedState(t, alice, bob), InitiateBy(sender, SignedState(t, alice, bob));
    PackedArgs(x, e, InitiateCall);
    SignedReady(t, alice, bob);
    PlainArguments(SettingWith(kind), p, x, TermsOf(APP, alice, bob, t));
    OpenedAffords(x);
  }

  lemma OpenedAffords(x: Ctx)
    requires x.groupIndex == 0 && |x.group| == 1 && |x.args| == 7 && x.onCompletion == NoOp
    requires x.sender in {AliceKey(), BobKey()}
    ensures Affords(OpenedChain(), x)
  {
    hide AliceKey, BobKey, EscrowKey, OpenedGlobals;
    ThreeKeys();
  }

  /** Against a party whose newest state is of no use, any old signed split stands, whatever its watchtower does. */
  lemma OldStateStands(kind: Kind, p: Party, sender: Bytes, t: i64, alice: u64, bob: u64, passed: Chain)
    requires InScenario(p) && sender in {AliceKey(), BobKey()} && sender != p.me && alice + bob == 10_000 && t >= 0
    requires !Serviceable(SettingWith(kind), p, 10_000)
    ensures var a := Submit(InitiateBy(sender, SignedState(t, alice, bob)));
            && WellTyped(OpenedGlobals()) && Initiates(SettingWith(kind), OpenedChain(), a)
            && (WatchPass(SettingWith(kind), Step(SettingWith(kind), OpenedChain(), a), passed, p) ==>
                  && WellTyped(passed.globals)
                  && MyOnChain(p, passed.globals) == Mine(p.me, p.info, alice, bob))
  {
    hide WellTyped, Attack, SettingWith, SignedState, InitiateBy, Initiates, Step, WatchPass, Serviceable, Known;
    hide OpenedGlobals, AliceKey, BobKey;
    OpenedMirrors();
    OpenedDeposit();
    PartnerAttacks(kind, p, sender, t, alice, bob);
    var x := InitiateBy(sender, SignedState(t, alice, bob));
    LimitReached(SettingWith(kind), OpenedChain(), p, x, TermsOf(APP, alice, bob, t), passed);
  }

  lemma OpenedDeposit()
    ensures WellTyped(OpenedGlobals()) && Num(OpenedChain().globals, TotalDeposit) == 10_000
  {
    hide WellTyped, AliceKey, BobKey, EscrowKey;
    OpenedMirrors();
    TypedReads(OpenedGlobals());
  }

  // ----- a request for more than the payer has -----

  const HUGE: u64 := 0xFFFF_FFFF_FFFF_FFFF - 995_999

  /** Bob, with 4000, asks Alice to accept 1000000. */
  function Overpayment(): PayRequest {
    PayRequest(BobKey(), 1_006_000, HUGE, 3, SignatureOf(BobKey(), TermsOf(APP, 1_006_000, HUGE, 3)))
  }

  function Overpaid(): OffState {
    Received(Signing(), AliceKey(), Known(), Overpayment())
  }

  function AliceOverpaid(): Party {
    Party(AliceKey(), Known(), Overpaid(), HonestAlice().signed + {(StateUpdate, TermsOfState(Known(), Overpaid()))})
  }

  lemma OverpaymentMoves()
    ensures BalancesMove(4_000, HUGE, 6_000, 1_006_000)
  {
    assert Moves(1_000_000, 4_000, HUGE, 6_000, 1_006_000);
    hide BalancesMove;
    BalancesMoveMeaning(4_000, HUGE, 6_000, 1_006_000);
  }

  lemma OverpaymentAccepted()
    ensures Acceptable(Signing(), AliceKey(), Known(), Newest(), Overpayment())
    ensures Ready(Signing(), Known(), Overpaid(), StateUpdate)
  {
    hide Verify, Sign, Stamping, BalancesMove, TermsOf;
    ThreeKeys();
    OverpaymentMoves();
    var t := TermsOf(APP, 1_006_000, HUGE, 3);
    StampVerifies(AliceKey(), BobKey(), AliceKey(), AliceKey(), StateUpdate, StateUpdate, t, t);
    StampVerifies(AliceKey(), BobKey(), BobKey(), BobKey(), StateUpdate, StateUpdate, t, t);
  }

  /** Alice's node accepts the request, and what it stores is signed by both and does not split the deposit. Bob
      then closes with the stale state, and Alice's watchtower, whatever it does, leaves her 4000 of the 6000 she
      had before. */
  lemma OverpaymentStands(passed: Chain)
    ensures Acceptable(Signing(), AliceKey(), Known(), Newest(), Overpayment())
    ensures Ready(Signing(), Known(), Overpaid(), StateUpdate) && Honest(Setting(), AliceOverpaid(), 10_000)
    ensures !Serviceable(Setting(), AliceOverpaid(), 10_000)
    ensures WellTyped(OpenedGlobals()) && Initiates(Setting(), OpenedChain(), Cheat())
    ensures WatchPass(Setting(), Step(Setting(), OpenedChain(), Cheat()), passed, AliceOverpaid()) ==>
              WellTyped(passed.globals) && MyOnChain(AliceOverpaid(), passed.globals) == 4_000
  {
    hide WellTyped, Ready, Signing, SignatureOf, Initiates, Step, WatchPass, OpenedGlobals, AliceKey, BobKey, EscrowKey;
    hide Acceptable, OpenedChain;
    ThreeKeys();
    OverpaymentAccepted();
    OverpaidBalances();
    OldStateStands(StateUpdate, AliceOverpaid(), BobKey(), 1, 4_000, 6_000, passed);
    assert SettingWith(StateUpdate) == Setting();
  }

  lemma OverpaidBalances()
    ensures Overpaid().alice == 1_006_000 && Overpaid().bob == HUGE
  {
    hide Sign, Stamping, AliceKey, BobKey;
  }

  // ----- a payment that Bob completed himself -----

  /** Bob pays 1000 of his 6000, and Alice answers with her signature. */
  function BobsProposal(): PayRequest {
    Proposal(Signing(), BobKey(), Known(), SignedState(2, 4_000, 6_000), 1_000, 3)
  }

  function BobsPayment(): OffState {
    Kept(Known(), BobsProposal(), SignatureOf(AliceKey(), TermsOf(APP, 5_000, 5_000, 3)))
  }

  function BobAfterPaying(): Party {
    Party(BobKey(), Known(), BobsPayment(),
          {(StateUpdate, TermsOf(APP, 8_000, 2_000, 1)), (StateUpdate, TermsOf(APP, 4_000, 6_000, 2)),
           (StateUpdate, TermsOf(APP, 5_000, 5_000, 3))})
  }

  lemma BobsBalances()
    ensures BobsPayment().alice == 5_000 && BobsPayment().bob == 5_000 && BobsPayment().timestamp == 3
    ensures BobsPayment().aliceSig == Sign(Signing(), BobKey(), StateUpdate, TermsOf(APP, 5_000, 5_000, 3))
  {
    hide Sign, AliceKey, BobKey, Signing;
    ThreeKeys();
  }

  lemma BobsPaymentUseless()
    ensures !Ready(Signing(), Known(), BobsPayment(), StateUpdate)
  {
    hide Verify, Sign, Stamping, BobsPayment, TermsOf, AliceKey, BobKey;
    ThreeKeys();
    BobsBalances();
    var t := TermsOf(APP, 5_000, 5_000, 3);
    StampVerifies(AliceKey(), BobKey(), BobKey(), AliceKey(), StateUpdate, StateUpdate, t, t);
  }

  /** What Bob keeps of a payment he completed is not ready. Alice then closes with a state in which he had 2000,
      and his watchtower, whatever it does, leaves him that instead of 5000. */
  lemma BobsPaymentStands(passed: Chain)
    ensures !Serviceable(Setting(), BobAfterPaying(), 10_000) && Honest(Setting(), BobAfterPaying(), 10_000)
    ensures MyNewest(BobAfterPaying()) == 5_000
    ensures var a := Submit(InitiateBy(AliceKey(), SignedState(1, 8_000, 2_000)));
            && WellTyped(OpenedGlobals()) && Initiates(Setting(), OpenedChain(), a)
            && (WatchPass(Setting(), Step(Setting(), OpenedChain(), a), passed, BobAfterPaying()) ==>
                  WellTyped(passed.globals) && MyOnChain(BobAfterPaying(), passed.globals) == 2_000)
  {
    hide WellTyped, Ready, Signing, SignatureOf, Initiates, Step, WatchPass, OpenedGlobals, AliceKey, BobKey, EscrowKey;
    hide OpenedChain, BobsPayment, SignedState, InitiateBy;
    ThreeKeys();
    BobsPaymentUseless();
    BobsBalances();
    OldStateStands(StateUpdate, BobAfterPaying(), AliceKey(), 1, 8_000, 2_000, passed);
    assert SettingWith(StateUpdate) == Setting();
  }

  // ----- the compiled program -----

  /** As compiled, disputes check close messages, and the same cheating that `Scenario.PayoffHappens` undoes stands:
      after any pass of Alice's watchtower the chain shows her 4000 instead of 6000. */
  lemma CompiledCheatStands(passed: Chain)
    ensures var w := SettingWith(CloseChannel);
            && Honest(w, HonestAlice(), 10_000) && MyNewest(HonestAlice()) == 6_000
            && WellTyped(OpenedGlobals()) && Initiates(w, OpenedChain(), Cheat())
            && (WatchPass(w, Step(w, OpenedChain(), Cheat()), passed, HonestAlice()) ==>
                  WellTyped(passed.globals) && MyOnChain(HonestAlice(), passed.globals) == 4_000)
  {
    hide WellTyped, Ready, Signing, SignatureOf, Initiates, Step, WatchPass, OpenedGlobals, AliceKey, BobKey, EscrowKey;
    hide OpenedChain;
    ThreeKeys();
    NewestIsNoClose();
    OldStateStands(CloseChannel, HonestAlice(), BobKey(), 1, 4_000, 6_000, passed);
  }

  lemma NewestIsNoClose()
    ensures !Ready(Signing(), Known(), Newest(), CloseChannel)
  {
    hide Verify, Sign, Stamping, TermsOf, AliceKey, BobKey;
    ThreeKeys();
    var t := TermsOf(APP, 6_000, 4_000, 2);
    StampVerifies(AliceKey(), BobKey(), AliceKey(), AliceKey(), CloseChannel, StateUpdate, t, t);
  }

  /** The assumptions of the compiled payoff hold too. */
  lemma CompiledBegins()
    ensures Begins(SettingWith(CloseChannel), OpenedChain(), HonestAlice(), Cheat()) && SignsNoClose(HonestAlice())
  {
    hide WellTyped, Ready, Signing, SignatureOf, Initiates, Step, OpenedGlobals, AliceKey, BobKey, EscrowKey;
    hide Unforged, CallBy, Mirrors, Injective, ThreeAccounts;
    ThreeKeys();
    OpenedMirrors();
    SameAccounts();
    CheatUnforged();
    SameUnforged();
    HashIsInjective();
    CheatIsBobs();
    CompiledCheatStands(OpenedChain());
    OpenedDeposit();
  }

  lemma SameAccounts()
    requires WellTyped(OpenedGlobals()) && ThreeAccounts(Setting(), OpenedGlobals())
    ensures ThreeAccounts(SettingWith(CloseChannel), OpenedGlobals())
  {
  }

  lemma SameUnforged()
    requires Unforged(Setting(), OpenedChain(), HonestAlice(), Cheat())
    ensures Unforged(SettingWith(CloseChannel), OpenedChain(), HonestAlice(), Cheat())
  {
    hide CallBy, Packed, HonestAlice, Encode;
    var x := Cheat().x;
    assert At(SettingWith(CloseChannel), OpenedChain(), x) == At(Setting(), OpenedChain(), x);
    forall kind | |x.args| >= 7
      ensures var digest := Setting().crypto.hash(SignedMessage(At(Setting(), OpenedChain(), x), kind));
              Setting().crypto.verify(digest, x.args[MySlot(HonestAlice())], HonestAlice().me)
              ==> exists k, t :: (k, t) in HonestAlice().signed && digest == Setting().crypto.hash(Encode(k, t))
    {
    }
  }

  /** As compiled, nothing that anyone does with what Alice signed, her watchtower's disputes included, moves the
      4000 that the chain shows her after Bob's stale initiation. */
  lemma CompiledRunStands(acts: seq<Action>)
    requires WellTyped(OpenedGlobals())
    requires var w := SettingWith(CloseChannel); Fair(w, Step(w, OpenedChain(), Cheat()), HonestAlice(), acts)
    ensures var w := SettingWith(CloseChannel);
            MyOnChain(HonestAlice(), Run(w, Step(w, OpenedChain(), Cheat()), acts).globals) == 4_000
  {
    hide WellTyped, Fair, Run, Step, Initiates, OpenedGlobals, AliceKey, BobKey, Begins, HonestAlice, Cheat;
    hide MyOnChain, DisputeCount, SignsNoClose, EscrowKey, Signing;
    var w := SettingWith(CloseChannel);
    CompiledBegins();
    CompiledStays(w, OpenedChain(), HonestAlice(), Cheat(), acts);
    CheatShows(CloseChannel);
  }

  lemma CheatShows(kind: Kind)
    ensures WellTyped(OpenedGlobals())
    ensures MyOnChain(HonestAlice(), Step(SettingWith(kind), OpenedChain(), Cheat()).globals) == 4_000
  {
    hide WellTyped, Attack, Initiates, Step, OpenedGlobals, AliceKey, BobKey, Signing;
    OpenedMirrors();
    ThreeKeys();
    PartnerAttacks(kind, HonestAlice(), BobKey(), 1, 4_000, 6_000);
    AttackAccepted(SettingWith(kind), OpenedChain(), HonestAlice(), Cheat().x, TermsOf(APP, 4_000, 6_000, 1));
  }
}
