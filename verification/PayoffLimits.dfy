/** The limits of an honest party's protection: what its partner can bring the chain to show, and keep. */
module PayoffLimits {
  import opened Bytes
  import opened Messages
  import opened Contract
  import opened Ledger
  import opened Chain
  import opened ChainProperties
  import opened Closing
  import opened OffChain
  import opened StoredStates
  import opened Payoff

  /** The call's arguments rebuild the state message of these terms and carry both parties' signatures over it. */
  ghost predicate Carries(w: World, p: Party, x: Ctx, t: Terms) {
    && |x.args| == 7 && x.args[0] == MethodName(InitiateCall)
    && Rebuilds(StateUpdate, x.args[1], w.app, x.args[2], x.args[3], x.args[4], t)
    && Verify(w.crypto, StateUpdate, t, x.args[5], p.info.alice)
    && Verify(w.crypto, StateUpdate, t, x.args[6], p.info.bob)
  }

  /** Arguments packed as every client packs them carry the terms, and are read as they were meant. */
  lemma PlainArguments(w: World, p: Party, x: Ctx, t: Terms)
    requires |x.args| == 7 && t.app == w.app
    requires x.args[..5] == [MethodName(InitiateCall), Itob(t.port), Itob(t.alice), Itob(t.bob), Itob(t.timestamp)]
    requires Verify(w.crypto, StateUpdate, t, x.args[5], p.info.alice)
    requires Verify(w.crypto, StateUpdate, t, x.args[6], p.info.bob)
    ensures Carries(w, p, x, t) && IsUint(x.args[2]) && IsUint(x.args[3]) && IsUint(x.args[4])
    ensures Uint(x.args[2]) == t.alice && Uint(x.args[3]) == t.bob && Uint(x.args[4]) == t.timestamp
  {
    hide Itob, Verify, MethodName;
    assert forall i | 0 <= i < 5 :: x.args[i] == x.args[..5][i];
    BtoiItob(t.alice);
    BtoiItob(t.bob);
    BtoiItob(t.timestamp);
  }

  /** The partner initiates with them, though the terms may be read otherwise than they were meant. */
  ghost predicate Attack(w: World, c: Chain, p: Party, x: Ctx, t: Terms) {
    && Mirrors(c.globals, p) && Based(w, p)
    && Affords(c, x) && x.sender in {p.info.alice, p.info.bob} && x.sender != p.me && Carries(w, p, x, t)
    && Uint(x.args[2]) + Uint(x.args[3]) == Num(c.globals, TotalDeposit)
    && c.round >= 1 && c.round + Num(c.globals, DisputeWindow) < U64_LIMIT
  }

  lemma AttackArgs(w: World, c: Chain, p: Party, x: Ctx, t: Terms)
    requires Attack(w, c, p, x, t)
    ensures WellTyped(c.globals) && |x.args| == 7 && IsUint(x.args[2]) && IsUint(x.args[3]) && IsUint(x.args[4])
    ensures MethodOf(x) == Some(InitiateCall) && ValidCtx(x)
  {
    hide WellTyped, MethodName, Encode, Assemble;
    MethodNamesDistinct();
  }

  lemma AttackHolds(w: World, c: Chain, p: Party, x: Ctx, t: Terms)
    requires Attack(w, c, p, x, t) && WellTyped(c.globals)
    ensures SplitComputes(At(w, c, x), c.globals) && SplitHolds(At(w, c, x), c.globals, StateUpdate)
  {
    hide WellTyped, MethodName, Encode, Assemble;
  }

  /** The partner's closing with the arguments' numbers. */
  ghost predicate ShowsAttack(g: Globals, p: Party, x: Ctx) {
    && Mirrors(g, p) && |x.args| == 7 && IsUint(x.args[2]) && IsUint(x.args[3]) && IsUint(x.args[4])
    && Num(g, LatestAlice) == Uint(x.args[2]) && Num(g, LatestBob) == Uint(x.args[3])
    && Num(g, LatestTimestamp) == Uint(x.args[4]) && Read(g, ClosingInitiator) != B(PartyName(p))
  }

  /** Such an initiation is accepted, and the chain shows the split as the contract reads it. */
  lemma AttackAccepted(w: World, c: Chain, p: Party, x: Ctx, t: Terms)
    requires Attack(w, c, p, x, t)
    ensures WellTyped(c.globals) && Initiates(w, c, Submit(x))
    ensures Num(Step(w, c, Submit(x)).globals, TotalDeposit) == Num(c.globals, TotalDeposit)
    ensures ShowsAttack(Step(w, c, Submit(x)).globals, p, x)
  {
    hide WellTyped, MethodName, Rebuilds, SplitComputes, SplitHolds, Step, Result;
    hide Shows, Ascii, Verify, Balanced, Ready;
    AttackArgs(w, c, p, x, t);
    AttackHolds(w, c, p, x, t);
    var a := Submit(x);
    AttackApproved(At(w, c, x), c.globals);
    SingleCall(w, c, x, InitiateCall);
    MirrorsStep(w, c, p, a);
    InitiateStep(w, c, a);
    InitiationGlobals(w, c, a);
    NamesDiffer();
    StandingIs(Step(w, c, a).globals, Standing(Uint(x.args[2]), Uint(x.args[3]), Uint(x.args[4]), false));
  }

  lemma StandingIs(g: Globals, s: Standing)
    requires WellTyped(g) && Shows(g, s) && !s.disputed
    ensures Num(g, LatestAlice) == s.alice && Num(g, LatestBob) == s.bob && Num(g, LatestTimestamp) == s.timestamp
  {
  }

  lemma AttackApproved(x: Ctx, g: Globals)
    requires WellTyped(g) && FromParty(x, g) && SplitComputes(x, g) && SplitHolds(x, g, StateUpdate)
    requires IsUint(x.args[4]) && x.round + Num(g, DisputeWindow) < U64_LIMIT
    ensures Initiate(x, g).Approved? && Initiate(x, g).payouts == []
  {
    hide SplitHolds, Ascii;
  }

  /** A standing split that the newest state cannot replace stays, whatever a pass of the party's watchtower does:
      the floor of the payoff theorem is reached, for either kind of message that disputes may check. */
  lemma LimitReached(w: World, c: Chain, p: Party, x: Ctx, t: Terms, passed: Chain)
    requires Attack(w, c, p, x, t) && WellTyped(c.globals) && IsUint(x.args[4])
    requires Lasting(w, p, Num(c.globals, TotalDeposit), Uint(x.args[4]))
    ensures Initiates(w, c, Submit(x))
    ensures WatchPass(w, Step(w, c, Submit(x)), passed, p) ==>
              && WellTyped(passed.globals)
              && MyOnChain(p, passed.globals) == Mine(p.me, p.info, Uint(x.args[2]), Uint(x.args[3]))
  {
    hide WellTyped, MethodName, Carries, Step, Result, Ascii, Ready, Initiates, Dispute, Packed, Lasting;
    AttackAccepted(w, c, p, x, t);
    var c1 := Step(w, c, Submit(x));
    if WatchPass(w, c1, passed, p) && MyOnChain(p, c1.globals) < MyNewest(p) {
      var y :| DisputeOfNewest(c1, p, y) && passed == Step(w, c1, Submit(y));
      NewestIdle(w, At(w, c1, y), c1.globals, p);
      DisputeNamed(y, p.newest);
      IdleDispute(w, c1, y);
    }
  }

  /** A dispute with the newest state has no effect on a split that it cannot replace. */
  lemma NewestIdle(w: World, x: Ctx, g: Globals, p: Party)
    requires ValidCtx(x) && SameChannel(x, g, p.info) && x.args == Packed(DisputeCall, p.newest) && Based(w, p)
    requires Num(g, PenaltyReserve) == p.info.penalty && x.crypto == w.crypto
    requires Lasting(w, p, Num(g, TotalDeposit), Num(g, LatestTimestamp))
    requires Read(g, ClosingInitiator) != B(PartyName(p)) || !Serviceable(w, p, Num(g, TotalDeposit))
    ensures Dispute(x, g, w.kind) in {Rejected, Approved(g, [])}
  {
    hide WellTyped, Packed, Ready, Ascii, SplitHolds, SplitComputes;
    DisputeTakes(x, g, p.info, p.newest, w.kind);
    DisputePaysNothing(x, g, w.kind);
    if ClosingInitiator in g {
      InitiatorNames(g);
    }
  }
}
