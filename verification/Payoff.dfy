/** An honest party gets its newest balance, whatever its partner does while the channel closes. */
module Payoff {
  import opened Bytes
  import opened Messages
  import opened Contract
  import opened Ledger
  import opened Chain
  import opened ChainProperties
  import opened Closing
  import opened Payout
  import opened OffChain
  import opened StoredStates

  /** The channel seen by one honest party: its newest state, and every message it ever signed, in whatever channel. */
  datatype Party = Party(me: Bytes, info: Info, newest: OffState, signed: set<(Kind, Terms)>)

  function TermsOfState(info: Info, e: OffState): Terms {
    TermsOf(info.app, e.alice, e.bob, e.timestamp)
  }

  /** The party is one of two different ones in this world's channel. */
  ghost predicate Based(w: World, p: Party) {
    p.info.alice != p.info.bob && p.me in {p.info.alice, p.info.bob} && w.app == p.info.app
  }

  /** The newest state is of use in a dispute: both signatures are right for the message that disputes check, and it
      splits the deposit. */
  predicate Serviceable(w: World, p: Party, deposit: u64) {
    Ready(w.crypto, p.info, p.newest, w.kind) && p.newest.alice + p.newest.bob == deposit
  }

  /** An honest party has signed what its newest state says, where that is of use at all. */
  ghost predicate Honest(w: World, p: Party, deposit: u64) {
    Based(w, p) && (Serviceable(w, p, deposit) ==> (w.kind, TermsOfState(p.info, p.newest)) in p.signed)
  }

  /** The application can read these numbers, a split of the deposit, from something the party signed, for whatever
      channel it was meant. */
  ghost predicate Signed(p: Party, kind: Kind, deposit: u64, r: Reading) {
    r.alice + r.bob == deposit && exists t :: (kind, t) in p.signed && ReadsAs(t, p.info.app, r)
  }

  function MyNewest(p: Party): u64 {
    Mine(p.me, p.info, p.newest.alice, p.newest.bob)
  }

  function TheirNewest(p: Party): u64 {
    Other(p.me, p.info, p.newest.alice, p.newest.bob)
  }

  function MyShare(p: Party, r: Reading): u64 {
    Mine(p.me, p.info, r.alice, r.bob)
  }

  /** The newest state cannot replace one of this time by a dispute: it is not newer, does not leave the partner the
      penalty, or is of no use. */
  predicate Lasting(w: World, p: Party, deposit: u64, timestamp: u64) {
    || timestamp >= ToU64(p.newest.timestamp)
    || TheirNewest(p) < p.info.penalty
    || !Serviceable(w, p, deposit)
  }

  /** What the newest state gives the party, and what it gets from every signed split that the newest one cannot
      replace, is at least m: from one its partner initiated with, its share; from one its partner disputed with,
      the penalty more. */
  ghost predicate Floor(w: World, p: Party, deposit: u64, m: nat) {
    && (Serviceable(w, p, deposit) ==> m <= MyNewest(p))
    && (forall r | Signed(p, StateUpdate, deposit, r) && Lasting(w, p, deposit, r.timestamp) :: m <= MyShare(p, r))
    && (forall r | Signed(p, w.kind, deposit, r) && Lasting(w, p, deposit, r.timestamp) ::
          m <= MyShare(p, r) + p.info.penalty)
  }

  /** The place of the party's signature among the arguments. */
  function MySlot(p: Party): nat {
    if p.me == p.info.alice then 5 else 6
  }

  /** A call's signature by the party verifies only over a digest of something it signed. */
  ghost predicate Unforged(w: World, c: Chain, p: Party, a: Action) {
    a.Submit? && |a.x.args| >= 7 ==>
      forall kind ::
        var digest := w.crypto.hash(SignedMessage(At(w, c, a.x), kind));
        w.crypto.verify(digest, a.x.args[MySlot(p)], p.me)
        ==> exists k, t :: (k, t) in p.signed && digest == w.crypto.hash(Encode(k, t))
  }

  /** Every action of the run keeps to what the party signed; nobody funds or initiates again. */
  ghost predicate Fair(w: World, c: Chain, p: Party, acts: seq<Action>)
    requires WellTyped(c.globals)
    decreases |acts|
  {
    acts == []
    || (&& Unforged(w, c, p, acts[0])
        && !Succeeds(w, c, acts[0], FundCall) && !Initiates(w, c, acts[0])
        && Fair(w, Step(w, c, acts[0]), p, acts[1..]))
  }

  function MyOnChain(p: Party, g: Globals): u64
    requires WellTyped(g)
  {
    if p.me == p.info.alice then Num(g, LatestAlice) else Num(g, LatestBob)
  }

  /** The global state belongs to the party's channel. */
  ghost predicate Mirrors(g: Globals, p: Party) {
    && WellTyped(g) && Alice(g) == p.info.alice && Bob(g) == p.info.bob && Num(g, PenaltyReserve) == p.info.penalty
  }

  /** Who initiated, as the contract stores it. */
  function PartyName(p: Party): Bytes {
    if p.me == p.info.alice then Ascii("alice") else Ascii("bob")
  }

  function ReadingOf(s: Standing): Reading {
    Reading(s.alice, s.bob, s.timestamp)
  }

  /** The standing split is one that the party signed, in a message of the kind that its way onto the chain checks. */
  ghost predicate Stands(w: World, p: Party, deposit: u64, s: Standing) {
    Signed(p, if s.disputed then w.kind else StateUpdate, deposit, ReadingOf(s))
  }

  /** The invariant of a closing: a split the party signed stands, and if the party itself initiated, it is its
      newest state, or a newer one that came by a dispute. */
  ghost predicate Tracks(w: World, c: Chain, p: Party, s: Standing) {
    && Mirrors(c.globals, p) && Shows(c.globals, s) && Balanced(c.globals)
    && c.round >= 1 && Num(c.globals, Timeout) != 0
    && Stands(w, p, Num(c.globals, TotalDeposit), s)
    && (Read(c.globals, ClosingInitiator) == B(PartyName(p)) ==>
          if s.disputed then s.timestamp > ToU64(p.newest.timestamp)
          else s == Standing(p.newest.alice, p.newest.bob, ToU64(p.newest.timestamp), false))
  }

  /** A split that the contract takes was signed by the party, whatever arguments carry it. */
  lemma TakenWasSigned(w: World, c: Chain, p: Party, a: Action, kind: Kind)
    requires WellTyped(c.globals) && Mirrors(c.globals, p) && Injective(w.crypto)
    requires Unforged(w, c, p, a) && Based(w, p)
    requires a.Submit? && SplitComputes(At(w, c, a.x), c.globals) && IsUint(a.x.args[4])
    requires SplitHolds(At(w, c, a.x), c.globals, kind)
    ensures Signed(p, kind, Num(c.globals, TotalDeposit),
                   Reading(Uint(a.x.args[2]), Uint(a.x.args[3]), Uint(a.x.args[4])))
  {
    hide WellTyped, Encode, Assemble, Shows, ReadsAs;
    var x := At(w, c, a.x);
    var m := SignedMessage(x, kind);
    var k, t :| (k, t) in p.signed && w.crypto.hash(m) == w.crypto.hash(Encode(k, t));
    assert m == Encode(k, t);
    SameKind(x, kind, k, t);
    Decoded(x, kind, t);
  }

  lemma SameKind(x: Ctx, kind: Kind, k: Kind, t: Terms)
    requires |x.args| >= 7 && SignedMessage(x, kind) == Encode(k, t)
    ensures k == kind
  {
    var m := SignedMessage(x, kind);
    AssembledParts(kind, x.args[1], x.app, x.args[2], x.args[3], x.args[4]);
    AssembledParts(k, Itob(t.port), t.app, Itob(t.alice), Itob(t.bob), Itob(t.timestamp));
    hide Assemble, Itob;
    assert m[..|Prefix(kind)|][0] == m[..|Prefix(k)|][0];
  }

  lemma Decoded(x: Ctx, kind: Kind, t: Terms)
    requires |x.args| >= 7 && IsUint(x.args[2]) && IsUint(x.args[3]) && IsUint(x.args[4])
    requires SignedMessage(x, kind) == Encode(kind, t)
    ensures ReadsAs(t, x.app, Reading(Uint(x.args[2]), Uint(x.args[3]), Uint(x.args[4])))
  {
    hide Assemble, Encode, Fields, Body, Itob;
    RebuildsFields(kind, x.args[1], x.app, x.args[2], x.args[3], x.args[4], t);
    var r := Reading(Uint(x.args[2]), Uint(x.args[3]), Uint(x.args[4]));
    assert ReadFrom(t, x.app, r, x.args[1], x.args[2], x.args[3], x.args[4]);
  }

  lemma MirrorsStep(w: World, c: Chain, p: Party, a: Action)
    requires Mirrors(c.globals, p)
    ensures Mirrors(Step(w, c, a).globals, p)
  {
    hide WellTyped, Call;
    if a.Submit? && Result(w, c, a.x).Some? {
      CallFrame(At(w, c, a.x), c.globals, w.kind);
    }
  }

  /** Only an initiation writes who initiated. */
  lemma InitiatorStep(w: World, c: Chain, a: Action)
    requires WellTyped(c.globals) && !Initiates(w, c, a) && Num(c.globals, Timeout) != 0
    ensures Read(Step(w, c, a).globals, ClosingInitiator) == Read(c.globals, ClosingInitiator)
  {
    hide SplitHolds, SplitComputes, Fund, Dispute, Finalize, Cooperative, WellTyped, MethodName;
    if a.Submit? && Result(w, c, a.x).Some? {
      SameInitiator(At(w, c, a.x), c.globals, w.kind);
    }
  }

  lemma SameInitiator(x: Ctx, g: Globals, kind: Kind)
    requires ValidCtx(x) && WellTyped(g) && Call(x, g, kind).Approved? && Num(g, Timeout) != 0
    requires MethodOf(x) == Some(InitiateCall) && SplitComputes(x, g) ==> !SplitHolds(x, g, StateUpdate)
    ensures Read(Call(x, g, kind).globals, ClosingInitiator) == Read(g, ClosingInitiator)
  {
    hide SplitHolds, SignatureShape, Ascii, Payable, MethodName;
  }

  lemma TracksStep(w: World, c: Chain, p: Party, s: Standing, a: Action)
    requires Injective(w.crypto) && Tracks(w, c, p, s)
    requires Based(w, p) && Unforged(w, c, p, a)
    requires !Succeeds(w, c, a, FundCall) && !Initiates(w, c, a)
    ensures Tracks(w, Step(w, c, a), p, StandingAfter(w, c, a, s))
    ensures Num(Step(w, c, a).globals, TotalDeposit) == Num(c.globals, TotalDeposit)
    ensures !Disputes(w, c, a) ==> Step(w, c, a).globals == c.globals && StandingAfter(w, c, a, s) == s
    ensures StandingAfter(w, c, a, s).disputed <==> s.disputed || Disputes(w, c, a)
  {
    hide WellTyped, Initiates, Step, Shows, Unforged, Balanced, SplitHolds, SplitComputes, Ascii, Signed;
    MirrorsStep(w, c, p, a);
    StandingStep(w, c, a, s);
    BalanceStep(w, c, a);
    TimeoutStep(w, c, a);
    InitiatorStep(w, c, a);
    if Disputes(w, c, a) {
      TakenWasSigned(w, c, p, a, w.kind);
      TimestampShown(c.globals, s);
    } else {
      QuietStep(w, c, a);
    }
  }

  lemma TimestampShown(g: Globals, s: Standing)
    requires WellTyped(g) && Shows(g, s)
    ensures Num(g, LatestTimestamp) == s.timestamp
  {
  }

  lemma {:induction false} TracksRun(w: World, c: Chain, p: Party, s: Standing, acts: seq<Action>)
    requires Injective(w.crypto) && Tracks(w, c, p, s)
    requires Based(w, p) && Fair(w, c, p, acts)
    ensures Tracks(w, Run(w, c, acts), p, StandingRun(w, c, acts, s))
    ensures Num(Run(w, c, acts).globals, TotalDeposit) == Num(c.globals, TotalDeposit)
    ensures Read(Run(w, c, acts).globals, ClosingInitiator) == Read(c.globals, ClosingInitiator)
    ensures DisputeCount(w, c, acts) == 0 ==> Run(w, c, acts).globals == c.globals && StandingRun(w, c, acts, s) == s
    ensures StandingRun(w, c, acts, s).disputed <==> s.disputed || DisputeCount(w, c, acts) > 0
    decreases |acts|
  {
    if acts != [] {
      hide Tracks, Based, Unforged, Step, Disputes, Initiates, Succeeds, StandingAfter;
      TracksTimeout(w, c, p, s);
      InitiatorStep(w, c, acts[0]);
      TracksStep(w, c, p, s, acts[0]);
      TracksRun(w, Step(w, c, acts[0]), p, StandingAfter(w, c, acts[0], s), acts[1..]);
    }
  }

  lemma TracksTimeout(w: World, c: Chain, p: Party, s: Standing)
    requires Tracks(w, c, p, s)
    ensures WellTyped(c.globals) && Num(c.globals, Timeout) != 0
  {
    hide WellTyped;
  }

  /** The closing call of the watchtower: the newest state, nothing before it in the group, and the fee at hand. */
  ghost predicate DisputeOfNewest(c: Chain, p: Party, x: Ctx) {
    && ValidCtx(x) && x.groupIndex == 0 && x.onCompletion == NoOp && x.sender == p.me
    && x.args == Packed(DisputeCall, p.newest) && Balance(c.ledger, p.me) >= MIN_TXN_FEE
  }

  /** What one watchtower pass does to the chain: nothing when the shown balance is good enough, else a dispute. */
  ghost predicate WatchPass(w: World, c: Chain, c1: Chain, p: Party)
    requires WellTyped(c.globals)
  {
    if MyOnChain(p, c.globals) >= MyNewest(p) then c1 == c
    else exists x :: DisputeOfNewest(c, p, x) && c1 == Step(w, c, Submit(x))
  }

  lemma InitiatorNames(g: Globals)
    requires WellTyped(g) && ClosingInitiator in g
    ensures g[ClosingInitiator] == B(Ascii("alice")) || g[ClosingInitiator] == B(Ascii("bob"))
    ensures Ascii("alice") != Ascii("bob")
  {
    NamesDiffer();
  }

  /** The newest state replaces an older one against a partner who initiated and can pay the penalty. */
  lemma NewestDispute(w: World, x: Ctx, g: Globals, p: Party)
    requires Mirrors(g, p) && x.app == p.info.app && x.args == Packed(DisputeCall, p.newest) && Based(w, p)
    requires x.crypto == w.crypto && !Lasting(w, p, Num(g, TotalDeposit), Num(g, LatestTimestamp))
    requires ClosingInitiator in g && g[ClosingInitiator] != B(PartyName(p))
    ensures SplitComputes(x, g) && SplitHolds(x, g, w.kind) && IsUint(x.args[4])
    ensures Uint(x.args[4]) == ToU64(p.newest.timestamp)
    ensures Dispute(x, g, w.kind).Approved? && Dispute(x, g, w.kind).payouts == []
  {
    hide Packed, Ready, SplitHolds, SplitComputes, Ascii, WellTyped;
    PackedArgs(x, p.newest, DisputeCall);
    PackedSplit(x, g, p.info, p.newest, DisputeCall, w.kind);
    PackedRebuilds(x, p.info, p.newest, DisputeCall, w.kind);
    InitiatorNames(g);
    WithSplitReads(x, g);
  }

  /** The group with that dispute succeeds on the chain. */
  lemma DisputeLands(w: World, c: Chain, p: Party, s: Standing, x: Ctx)
    requires Tracks(w, c, p, s) && Based(w, p)
    requires Read(c.globals, ClosingInitiator) != B(PartyName(p))
    requires !Lasting(w, p, Num(c.globals, TotalDeposit), s.timestamp) && DisputeOfNewest(c, p, x)
    ensures Disputes(w, c, Submit(x))
  {
    hide WellTyped, Ready, Packed, SplitComputes, SplitHolds, Dispute, Balanced, MethodName, Stands, Ascii;
    TimestampShown(c.globals, s);
    InitiatorShown(c.globals, s);
    NewestDispute(w, At(w, c, x), c.globals, p);
    DisputeNamed(x, p.newest);
    assert x.group[..0] == [];
  }

  /** A dispute with the newest state succeeds only when that state is of use. */
  lemma DisputeServes(w: World, c: Chain, p: Party, x: Ctx)
    requires Mirrors(c.globals, p) && Based(w, p) && DisputeOfNewest(c, p, x) && Disputes(w, c, Submit(x))
    ensures Serviceable(w, p, Num(c.globals, TotalDeposit))
  {
    hide WellTyped, Ready, Packed, SplitComputes, SplitHolds, Result, MethodName;
    PackedSplit(At(w, c, x), c.globals, p.info, p.newest, DisputeCall, w.kind);
  }

  lemma InitiatorShown(g: Globals, s: Standing)
    requires WellTyped(g) && Shows(g, s)
    ensures ClosingInitiator in g && g[ClosingInitiator] == Read(g, ClosingInitiator)
  {
    hide WellTyped, Ascii;
  }

  /** A dispute that the contract rejects or approves without effect leaves the global state. */
  lemma IdleDispute(w: World, c: Chain, x: Ctx)
    requires WellTyped(c.globals) && ValidCtx(x) && MethodOf(x) == Some(DisputeCall)
    requires Dispute(At(w, c, x), c.globals, w.kind) in {Rejected, Approved(c.globals, [])}
    ensures Step(w, c, Submit(x)).globals == c.globals
  {
    hide WellTyped, Dispute, MethodName;
  }

  lemma DisputeNamed(x: Ctx, e: OffState)
    requires x.args == Packed(DisputeCall, e)
    ensures MethodOf(x) == Some(DisputeCall)
  {
    hide MethodName;
    MethodNamesDistinct();
  }

  /** The call is a dispute with the newest state, so nothing else happens by it. */
  lemma OnlyDisputes(w: World, c: Chain, p: Party, x: Ctx)
    requires WellTyped(c.globals) && DisputeOfNewest(c, p, x) && w.app == p.info.app
    ensures !Initiates(w, c, Submit(x)) && !Succeeds(w, c, Submit(x), FundCall)
    ensures |x.args| == 7 && IsUint(x.args[2]) && IsUint(x.args[3]) && IsUint(x.args[4])
    ensures Uint(x.args[2]) == p.newest.alice && Uint(x.args[3]) == p.newest.bob
    ensures Uint(x.args[4]) == ToU64(p.newest.timestamp)
  {
    hide WellTyped, Packed, SplitComputes, SplitHolds, Result, MethodName;
    DisputeNamed(x, p.newest);
    PackedArgs(x, p.newest, DisputeCall);
    PackedRebuilds(At(w, c, x), p.info, p.newest, DisputeCall, StateUpdate);
  }

  /** A pass of the watchtower either changes nothing or puts the newest state in the place of an older one. */
  lemma PassTracks(w: World, c: Chain, c1: Chain, p: Party, s: Standing) returns (s1: Standing)
    requires Tracks(w, c, p, s) && Honest(w, p, Num(c.globals, TotalDeposit))
    requires WatchPass(w, c, c1, p)
    ensures Tracks(w, c1, p, s1) && Num(c1.globals, TotalDeposit) == Num(c.globals, TotalDeposit)
    ensures Read(c1.globals, ClosingInitiator) == Read(c.globals, ClosingInitiator)
    ensures if s1 == s then c1.globals == c.globals
            else s1 == Standing(p.newest.alice, p.newest.bob, ToU64(p.newest.timestamp), true)
                 && s.timestamp < s1.timestamp && Serviceable(w, p, Num(c.globals, TotalDeposit))
    ensures (MyOnChain(p, c.globals) < MyNewest(p) && Read(c.globals, ClosingInitiator) != B(PartyName(p))
             && !Lasting(w, p, Num(c.globals, TotalDeposit), s.timestamp)) ==> s1 != s
  {
    hide WellTyped, Ready, Disputes, Initiates, Succeeds, Step, Balanced, Shows, Ascii, Stands, Signed;
    s1 := s;
    if MyOnChain(p, c.globals) < MyNewest(p) {
      var x :| DisputeOfNewest(c, p, x) && c1 == Step(w, c, Submit(x));
      var a := Submit(x);
      OnlyDisputes(w, c, p, x);
      StandingStep(w, c, a, s);
      MirrorsStep(w, c, p, a);
      BalanceStep(w, c, a);
      TimeoutStep(w, c, a);
      InitiatorStep(w, c, a);
      s1 := StandingAfter(w, c, a, s);
      if Read(c.globals, ClosingInitiator) != B(PartyName(p))
         && !Lasting(w, p, Num(c.globals, TotalDeposit), s.timestamp)
      {
        DisputeLands(w, c, p, s, x);
      }
      if !Disputes(w, c, a) {
        QuietStep(w, c, a);
      } else {
        DisputeIsNewer(w, c, a, s);
        DisputeServes(w, c, p, x);
        NewestStands(w, p, Num(c.globals, TotalDeposit), s1);
      }
    }
  }

  lemma DisputeIsNewer(w: World, c: Chain, a: Action, s: Standing)
    requires WellTyped(c.globals) && Shows(c.globals, s) && Disputes(w, c, a)
    ensures IsUint(a.x.args[4]) && s.timestamp < Uint(a.x.args[4])
  {
    hide WellTyped, Result, SplitComputes, SplitHolds, MethodName;
    TimestampShown(c.globals, s);
  }

  lemma NewestStands(w: World, p: Party, deposit: u64, s: Standing)
    requires Honest(w, p, deposit) && Serviceable(w, p, deposit)
    requires s == Standing(p.newest.alice, p.newest.bob, ToU64(p.newest.timestamp), true)
    ensures Stands(w, p, deposit, s)
  {
    hide Ready, ReadsAs;
    PlainReading(TermsOfState(p.info, p.newest));
  }

  /** After a watchtower pass in a closing that the partner initiated, the party's shown balance is at least its
      floor, and the closing stays on track. */
  lemma PassProtects(w: World, c: Chain, c1: Chain, p: Party, s: Standing, m: nat) returns (s1: Standing)
    requires Tracks(w, c, p, s) && Honest(w, p, Num(c.globals, TotalDeposit))
    requires Read(c.globals, ClosingInitiator) != B(PartyName(p)) && Floor(w, p, Num(c.globals, TotalDeposit), m)
    requires WatchPass(w, c, c1, p)
    ensures Tracks(w, c1, p, s1) && Num(c1.globals, TotalDeposit) == Num(c.globals, TotalDeposit)
    ensures MyOnChain(p, c1.globals) >= m
  {
    hide WellTyped, Ready, Step, Balanced, Shows, Ascii, WatchPass, Signed;
    s1 := PassTracks(w, c, c1, p, s);
    StandingShown(c1, p, s1);
    if s1 == s && Lasting(w, p, Num(c.globals, TotalDeposit), s.timestamp) {
      var kind := if s.disputed then w.kind else StateUpdate;
      assert Signed(p, kind, Num(c.globals, TotalDeposit), ReadingOf(s));
      assert MyShare(p, ReadingOf(s)) == Mine(p.me, p.info, s.alice, s.bob);
    }
  }

  /** What the chain shows the party of the standing split: one penalty less if it initiated and was disputed, one
      more if its partner was, else just its share. */
  lemma StandingShown(c: Chain, p: Party, s: Standing)
    requires Mirrors(c.globals, p) && Shows(c.globals, s) && p.info.alice != p.info.bob
    requires p.me in {p.info.alice, p.info.bob}
    ensures var share := Mine(p.me, p.info, s.alice, s.bob);
            MyOnChain(p, c.globals)
            == if !s.disputed then share
               else if Read(c.globals, ClosingInitiator) == B(PartyName(p)) then share - p.info.penalty
               else share + p.info.penalty
  {
    hide Ascii;
    InitiatorNames(c.globals);
  }

  /** An accepted initiation puts the closing on track; the party itself initiates only with its newest state. */
  lemma InitiationTracks(w: World, c: Chain, p: Party, init: Action) returns (s: Standing)
    requires Injective(w.crypto) && Mirrors(c.globals, p) && c.round >= 1
    requires Based(w, p) && Initiates(w, c, init) && Unforged(w, c, p, init)
    requires init.x.sender == p.me ==> init.x.args == Packed(InitiateCall, p.newest)
    ensures Tracks(w, Step(w, c, init), p, s) && !s.disputed
    ensures Num(Step(w, c, init).globals, TotalDeposit) == Num(c.globals, TotalDeposit)
    ensures Read(Step(w, c, init).globals, ClosingInitiator) == B(PartyName(p)) <==> init.x.sender == p.me
  {
    hide WellTyped, Ready, Step, Shows, Ascii, SplitHolds, SignatureShape, Balanced, Signed;
    InitiateStep(w, c, init);
    s := Standing(Uint(init.x.args[2]), Uint(init.x.args[3]), Uint(init.x.args[4]), false);
    TakenWasSigned(w, c, p, init, StateUpdate);
    MirrorsStep(w, c, p, init);
    TimeoutStep(w, c, init);
    InitiationGlobals(w, c, init);
    NamesDiffer();
    if init.x.sender == p.me {
      PackedRebuilds(At(w, c, init.x), p.info, p.newest, InitiateCall, StateUpdate);
    }
  }

  lemma NamesDiffer()
    ensures Ascii("alice") != Ascii("bob")
  {
    assert |Ascii("alice")| == 5 && |Ascii("bob")| == 3;
  }

  lemma InitiationGlobals(w: World, c: Chain, init: Action)
    requires WellTyped(c.globals) && Initiates(w, c, init)
    ensures var g1 := Step(w, c, init).globals;
            && Balanced(g1) && Num(g1, TotalDeposit) == Num(c.globals, TotalDeposit)
            && Read(g1, ClosingInitiator)
               == B(if init.x.sender == Alice(c.globals) then Ascii("alice") else Ascii("bob"))
    ensures init.x.sender == Alice(c.globals) || init.x.sender == Bob(c.globals)
  {
    hide Step, Result, MethodName, SignatureShape, Ascii;
    SucceedsStep(w, c, init, InitiateCall);
    SplitBalances(At(w, c, init.x), c.globals);
  }

  lemma SplitBalances(x: Ctx, g: Globals)
    requires ValidCtx(x) && WellTyped(g) && SplitComputes(x, g)
    requires SplitHolds(x, g, StateUpdate) && Initiate(x, g).Approved?
    requires WellTyped(Initiate(x, g).globals)
    ensures Balanced(Initiate(x, g).globals)
    ensures Num(Initiate(x, g).globals, TotalDeposit) == Num(g, TotalDeposit)
    ensures Read(Initiate(x, g).globals, ClosingInitiator)
         == B(if x.sender == Alice(g) then Ascii("alice") else Ascii("bob"))
  {
    hide SignatureShape, Ascii;
  }

  /** A channel of an honest party before its closing, and an accepted initiation, if the party's own, then with its
      newest state. */
  ghost predicate Begins(w: World, c: Chain, p: Party, init: Action) {
    && Injective(w.crypto)
    && Mirrors(c.globals, p) && ThreeAccounts(w, c.globals) && c.round >= 1
    && Honest(w, p, Num(c.globals, TotalDeposit))
    && Initiates(w, c, init) && Unforged(w, c, p, init)
    && (init.x.sender == p.me ==> init.x.args == Packed(InitiateCall, p.newest))
  }

  /** Anything anyone does with what was signed, then a pass of the party's watchtower. */
  ghost predicate PassAfter(w: World, c: Chain, p: Party, before: seq<Action>, passed: Chain)
    requires WellTyped(c.globals)
  {
    Fair(w, c, p, before) && WatchPass(w, Run(w, c, before), passed, p)
  }

  /** A closing up to the watchtower's pass, for a party with the floor m: the partner's initiation, then anything
      anyone does with what was signed, then the pass. */
  ghost predicate Watched(w: World, c: Chain, p: Party, m: nat, init: Action, before: seq<Action>, passed: Chain) {
    && WellTyped(c.globals) && Begins(w, c, p, init) && init.x.sender != p.me
    && Floor(w, p, Num(c.globals, TotalDeposit), m)
    && PassAfter(w, Step(w, c, init), p, before, passed)
  }

  /** One accepted initiation by the partner; then anything anyone does with what was signed; then a pass of the
      party's watchtower; then anything but further newer disputes; then a payout: the party's account receives at
      least its floor less the fee, which is its newest balance unless it signed a state that the newest one cannot
      replace. */
  lemma HonestPayoff(w: World, c: Chain, p: Party, m: nat, init: Action, before: seq<Action>, passed: Chain,
                     after: seq<Action>, fin: Action)
    requires Watched(w, c, p, m, init, before, passed)
    requires WellTyped(passed.globals) && Fair(w, passed, p, after) && DisputeCount(w, passed, after) == 0
    requires PaysOut(w, Run(w, passed, after), fin)
    ensures var c1 := Run(w, passed, after);
            && LedgerAtCall(w, c1, fin.x).Some?
            && Balance(Step(w, c1, fin).ledger, p.me) + MIN_TXN_FEE
               >= Balance(LedgerAtCall(w, c1, fin.x).value, p.me) + m
  {
    hide WellTyped, Ready, Step, Run, Fair, Initiates, Disputes;
    hide Unforged, PaysOut, Shows, Balanced, LedgerAtCall, Balance;
    hide Floor, WatchPass, Stands, Ascii;
    var s := InitiationTracks(w, c, p, init);
    var c0 := Step(w, c, init);
    TracksRun(w, c0, p, s, before);
    var s1 := PassProtects(w, Run(w, c0, before), passed, p, StandingRun(w, c0, before, s), m);
    TracksRun(w, passed, p, s1, after);
    var c1 := Run(w, passed, after);
    FinalPays(w, c1, p, fin);
  }

  /** The party's own closing: without a newer dispute it is paid its newest balance; with one, its share of a newer
      split it had signed, less exactly one penalty. So it loses the penalty only when it initiated although it had
      signed a newer split. */
  lemma OwnClosing(w: World, c: Chain, p: Party, init: Action, acts: seq<Action>, fin: Action)
    requires Begins(w, c, p, init) && init.x.sender == p.me
    requires Fair(w, Step(w, c, init), p, acts) && PaysOut(w, Run(w, Step(w, c, init), acts), fin)
    ensures var c1 := Run(w, Step(w, c, init), acts);
            && LedgerAtCall(w, c1, fin.x).Some?
            && Balance(Step(w, c1, fin).ledger, p.me) + MIN_TXN_FEE
               >= Balance(LedgerAtCall(w, c1, fin.x).value, p.me) + MyOnChain(p, c1.globals)
            && if DisputeCount(w, Step(w, c, init), acts) == 0 then MyOnChain(p, c1.globals) == MyNewest(p)
               else exists r :: Signed(p, w.kind, Num(c.globals, TotalDeposit), r)
                                && r.timestamp > ToU64(p.newest.timestamp)
                                && MyOnChain(p, c1.globals) == MyShare(p, r) - p.info.penalty
  {
    hide WellTyped, Ready, Step, Run, Fair, Initiates, Disputes, Unforged, PaysOut, Shows, Balanced;
    hide LedgerAtCall, Balance, Signed, Ascii;
    var s := InitiationTracks(w, c, p, init);
    var c0 := Step(w, c, init);
    TracksRun(w, c0, p, s, acts);
    var c1, s1 := Run(w, c0, acts), StandingRun(w, c0, acts, s);
    StandingShown(c1, p, s1);
    FinalPays(w, c1, p, fin);
    if DisputeCount(w, c0, acts) > 0 {
      assert Signed(p, w.kind, Num(c.globals, TotalDeposit), ReadingOf(s1));
      assert MyOnChain(p, c1.globals) == MyShare(p, ReadingOf(s1)) - p.info.penalty;
    }
  }

  lemma FinalPays(w: World, c: Chain, p: Party, fin: Action)
    requires Mirrors(c.globals, p) && ThreeAccounts(w, c.globals) && p.me in {p.info.alice, p.info.bob}
    requires Num(c.globals, Timeout) != 0 && PaysOut(w, c, fin)
    ensures LedgerAtCall(w, c, fin.x).Some?
    ensures Balance(Step(w, c, fin).ledger, p.me) + MIN_TXN_FEE
            >= Balance(LedgerAtCall(w, c, fin.x).value, p.me) + MyOnChain(p, c.globals)
  {
    hide WellTyped, LedgerAtCall, Balance, SplitHolds, SplitComputes, Ascii, Step, Payable;
    PayoutPays(w, c, fin);
    FinalKeeps(w, c, fin);
  }

  lemma FinalKeeps(w: World, c: Chain, fin: Action)
    requires WellTyped(c.globals) && Num(c.globals, Timeout) != 0 && PaysOut(w, c, fin)
    ensures Step(w, c, fin).globals == c.globals
  {
    hide WellTyped, SplitHolds, SplitComputes, Ascii, Payable;
    PaymentNeedsTimeout(w, c, fin);
  }
}
