/** A state signed for one application and read by another: the concrete case in which a second channel costs a
    party. */
module Misread {
  import opened Bytes
  import opened Messages
  import opened Contract
  import opened Ledger
  import opened Chain
  import opened ChainProperties
  import opened Closing
  import opened OffChain
  import opened StoredStates
  import opened Payoff
  import opened PayoffLimits
  import opened Operation
  import opened CooperativeClose
  import opened IdealCrypto
  import opened Scenario

  const OTHER_APP: u64 := 8

  const LARGE: u64 := 0x0000_03E8_2C00_2328

  /** What Alice also signed, for a channel of application 8: 7 for its Alice, a large balance for its Bob, at time
      3. */
  function Elsewhere(): Terms {
    Terms(PORT, OTHER_APP, APP, LARGE, 3)
  }

  function AliceWithTwoChannels(): Party {
    HonestAlice().(signed := HonestAlice().signed + {(StateUpdate, Elsewhere())})
  }

  /** Application 7's reading of it: a port of 17 bytes, 1000 for Alice, 9000 for Bob, time 3. */
  function LongPort(): Bytes {
    Itob(PORT) + COMMA + Itob(OTHER_APP)
  }

  function ReadAlice(): Bytes {
    [0, 0, 3, 0xE8]
  }

  function ReadBob(): Bytes {
    [0, 0x23, 0x28]
  }

  function MisreadCall(): Ctx {
    CallBy(BobKey(), [MethodName(InitiateCall), LongPort(), ReadAlice(), ReadBob(), Itob(3),
                      SignatureOf(AliceKey(), Elsewhere()), SignatureOf(BobKey(), Elsewhere())])
  }

  lemma LargeBytes()
    ensures Itob(LARGE) == ReadAlice() + COMMA + ReadBob()
  {
    Digits(LARGE);
    hide Itob;
  }

  lemma ReadNumbers()
    ensures IsUint(ReadAlice()) && IsUint(ReadBob()) && Uint(ReadAlice()) == 1_000 && Uint(ReadBob()) == 9_000
  {
    assert Btoi([0, 0, 3, 0xE8]) == 1_000 by {
      assert Btoi([0, 0]) == 0;
      assert [0, 0, 3, 0xE8][..3] == [0, 0, 3] && [0, 0, 3][..2] == [0, 0];
    }
    assert Btoi([0, 0x23, 0x28]) == 9_000 by {
      assert Btoi([0]) == 0;
      assert [0, 0x23, 0x28][..2] == [0, 0x23] && [0, 0x23][..1] == [0];
    }
  }

  /** For either kind the arguments rebuild the bytes of the message signed for application 8. */
  lemma MisreadRebuilds(kind: Kind)
    ensures Rebuilds(kind, LongPort(), APP, ReadAlice(), ReadBob(), Itob(3), Elsewhere())
  {
    hide Assemble, Encode;
    LargeBytes();
    SameFields();
    RebuildsFields(kind, LongPort(), APP, ReadAlice(), ReadBob(), Itob(3), Elsewhere());
  }

  lemma SameFields()
    requires Itob(LARGE) == ReadAlice() + COMMA + ReadBob()
    ensures Fields(LongPort(), Itob(APP), ReadAlice(), ReadBob(), Itob(3)) == Body(Elsewhere())
  {
    hide Itob;
  }

  /** So the terms are ambiguous, by the exact test. */
  lemma ElsewhereAmbiguous()
    ensures Ambiguous(Elsewhere(), APP)
  {
    hide Rebuilds, Ambiguous;
    MisreadRebuilds(StateUpdate);
    assert |LongPort()| == 17;
    assert !AsSigned(LongPort(), APP, ReadAlice(), ReadBob(), Itob(3), Elsewhere());
    OtherReading(StateUpdate, Elsewhere(), APP);
  }

  lemma MisreadCarries()
    ensures Carries(Setting(), AliceWithTwoChannels(), MisreadCall(), Elsewhere())
  {
    hide Verify, Sign, Stamping, Itob, Rebuilds, MethodName;
    ThreeKeys();
    MisreadRebuilds(StateUpdate);
    StampVerifies(AliceKey(), BobKey(), AliceKey(), AliceKey(), StateUpdate, StateUpdate, Elsewhere(), Elsewhere());
    StampVerifies(AliceKey(), BobKey(), BobKey(), BobKey(), StateUpdate, StateUpdate, Elsewhere(), Elsewhere());
  }

  /** Nothing in Bob's call is forged. */
  lemma MisreadUnforged()
    ensures Unforged(Setting(), OpenedChain(), AliceWithTwoChannels(), Submit(MisreadCall()))
  {
    hide Stamping, Sign, Encode, Itob, Assemble, MethodName;
    ThreeKeys();
    var x, t := At(Setting(), OpenedChain(), MisreadCall()), Elsewhere();
    forall kind | Signing().verify(Signing().hash(SignedMessage(x, kind)), x.args[5], AliceKey())
      ensures exists k, u :: (k, u) in AliceWithTwoChannels().signed
                             && Signing().hash(SignedMessage(x, kind)) == Signing().hash(Encode(k, u))
    {
      MisreadRebuilds(kind);
      StampVerifies(AliceKey(), BobKey(), AliceKey(), AliceKey(), kind, StateUpdate, t, t);
      StampShape(t, AliceKey());
      assert kind == StateUpdate;
      assert (StateUpdate, t) in AliceWithTwoChannels().signed;
    }
  }

  lemma MisreadAttack()
    ensures Attack(Setting(), OpenedChain(), AliceWithTwoChannels(), MisreadCall(), Elsewhere())
    ensures IsUint(MisreadCall().args[4])
    ensures Lasting(Setting(), AliceWithTwoChannels(), 10_000, Uint(MisreadCall().args[4]))
    ensures Uint(MisreadCall().args[2]) == 1_000 && Uint(MisreadCall().args[3]) == 9_000
  {
    hide WellTyped, Ready, Ambiguous, Carries, AliceKey, BobKey, EscrowKey, Signing, SignatureOf, MethodName, Itob;
    hide ReadAlice, ReadBob, LongPort;
    ThreeKeys();
    OpenedMirrors();
    AliceIsHonest();
    MisreadCarries();
    ReadNumbers();
    BtoiItob(3);
  }

  /** The reading counts in Alice's floor. */
  lemma MisreadFloor(m: nat)
    requires Floor(Setting(), AliceWithTwoChannels(), 10_000, m)
    ensures m <= 1_000
  {
    hide Itob, Fields, Body, Ready, MisreadCall;
    LargeBytes();
    SameFields();
    ReadNumbers();
    BtoiItob(3);
    var r := Reading(1_000, 9_000, 3);
    assert ReadFrom(Elsewhere(), APP, r, LongPort(), ReadAlice(), ReadBob(), Itob(3));
    assert (StateUpdate, Elsewhere()) in AliceWithTwoChannels().signed;
    assert Signed(AliceWithTwoChannels(), StateUpdate, 10_000, r);
  }

  /** Alice's newest state serves, and nothing is forged, yet Bob's initiation is accepted, and whatever a pass of
      Alice's watchtower does, the chain shows her 1000 instead of 6000. */
  lemma MisreadStands(passed: Chain)
    ensures Honest(Setting(), AliceWithTwoChannels(), 10_000) && Injective(Setting().crypto)
    ensures Serviceable(Setting(), AliceWithTwoChannels(), 10_000)
    ensures Unforged(Setting(), OpenedChain(), AliceWithTwoChannels(), Submit(MisreadCall()))
    ensures Ambiguous(Elsewhere(), APP)
    ensures WellTyped(OpenedGlobals()) && Initiates(Setting(), OpenedChain(), Submit(MisreadCall()))
    ensures var c1 := Step(Setting(), OpenedChain(), Submit(MisreadCall()));
            WatchPass(Setting(), c1, passed, AliceWithTwoChannels()) ==>
              && WellTyped(passed.globals)
              && MyOnChain(AliceWithTwoChannels(), passed.globals) == 1_000 < MyNewest(AliceWithTwoChannels()) == 6_000
  {
    hide WellTyped, Ready, Ambiguous, Attack, AliceKey, BobKey, EscrowKey, Signing, SignatureOf, MethodName, Itob;
    hide Initiates, Step, WatchPass, Unforged, OpenedGlobals, MisreadCall, Lasting, Injective;
    OpenedMirrors();
    AliceIsHonest();
    HashIsInjective();
    CheatIsBobs();
    ElsewhereAmbiguous();
    MisreadUnforged();
    MisreadAttack();
    LimitReached(Setting(), OpenedChain(), AliceWithTwoChannels(), MisreadCall(), Elsewhere(), passed);
  }
}
