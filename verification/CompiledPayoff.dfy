/** The payoff of the program as it is compiled, which checks disputes as close messages. */
module CompiledPayoff {
  import opened Bytes
  import opened Messages
  import opened Contract
  import opened Ledger
  import opened Chain
  import opened ChainProperties
  import opened Closing
  import opened Payout
  import opened OffChain
  import opened StoredStates
  import opened Payoff
  import opened PayoffLimits

  /** The initiator's side of a disputed split is one penalty less, the other one penalty more. */
  function Charge(p: Party, byMe: bool): int {
    var penalty: int := p.info.penalty;
    if byMe then -penalty else penalty
  }

  /** At any point of a closing, by whichever side, the chain shows the party its share of the split it began with,
      if no newer dispute succeeded, and else its share of a split it signed in a message that disputes check, less
      or more the penalty. */
  lemma ClosingOutcome(w: World, c: Chain, p: Party, init: Action, acts: seq<Action>)
    requires Begins(w, c, p, init) && Fair(w, Step(w, c, init), p, acts)
    ensures var c0 := Step(w, c, init);
            var c1 := Run(w, c0, acts);
            if DisputeCount(w, c0, acts) == 0 then c1.globals == c0.globals
            else exists r :: Signed(p, w.kind, Num(c.globals, TotalDeposit), r)
                             && MyOnChain(p, c1.globals) == MyShare(p, r) + Charge(p, init.x.sender == p.me)
  {
    hide WellTyped, Ready, Step, Run, Fair, Initiates, Disputes, Unforged, Shows, Balanced, Signed, Ascii;
    var s := InitiationTracks(w, c, p, init);
    var c0 := Step(w, c, init);
    TracksRun(w, c0, p, s, acts);
    var c1, s1 := Run(w, c0, acts), StandingRun(w, c0, acts, s);
    StandingShown(c1, p, s1);
    if DisputeCount(w, c0, acts) > 0 {
      assert Signed(p, w.kind, Num(c.globals, TotalDeposit), ReadingOf(s1));
      assert MyShare(p, ReadingOf(s1)) == Mine(p.me, p.info, s1.alice, s1.bob);
    }
  }

  /** The party signed no close message. */
  ghost predicate SignsNoClose(p: Party) {
    forall t :: (CloseChannel, t) !in p.signed
  }

  /** As compiled, for a party that signed no close message, no dispute of the closing ever succeeds, and the global
      state stays what the initiation made it. */
  lemma CompiledStays(w: World, c: Chain, p: Party, init: Action, acts: seq<Action>)
    requires w.kind == CloseChannel && SignsNoClose(p) && Begins(w, c, p, init) && Fair(w, Step(w, c, init), p, acts)
    ensures DisputeCount(w, Step(w, c, init), acts) == 0
    ensures Run(w, Step(w, c, init), acts).globals == Step(w, c, init).globals
  {
    hide Begins, Fair, Step, Run, DisputeCount, MyOnChain, ReadsAs;
    BeginsTyped(w, c, p, init);
    ClosingOutcome(w, c, p, init, acts);
  }

  lemma BeginsTyped(w: World, c: Chain, p: Party, init: Action)
    requires Begins(w, c, p, init)
    ensures WellTyped(c.globals)
  {
    hide WellTyped;
  }

  /** So at the payout, after whatever anyone does with what was signed, watchtower passes among it, such a party
      receives at least its newest balance less the fee if and only if the initiation already gave it that much. */
  lemma CompiledPayoff(w: World, c: Chain, p: Party, init: Action, acts: seq<Action>, fin: Action)
    requires w.kind == CloseChannel && SignsNoClose(p) && Begins(w, c, p, init) && Fair(w, Step(w, c, init), p, acts)
    requires PaysOut(w, Run(w, Step(w, c, init), acts), fin)
    requires var l := LedgerAtCall(w, Run(w, Step(w, c, init), acts), fin.x);
             WellTyped(c.globals) && l.Some? && Balance(l.value, w.escrow) == Num(c.globals, TotalDeposit)
    ensures var c0, c1 := Step(w, c, init), Run(w, Step(w, c, init), acts);
            var before := Balance(LedgerAtCall(w, c1, fin.x).value, p.me);
            var after := Balance(Step(w, c1, fin).ledger, p.me);
            && after + MIN_TXN_FEE == before + MyOnChain(p, c0.globals)
            && (after + MIN_TXN_FEE >= before + MyNewest(p) <==> MyOnChain(p, c0.globals) >= MyNewest(p))
  {
    hide WellTyped, Step, Run, Fair, PaysOut, LedgerAtCall, Balance, Signed, SignsNoClose, Initiates, Unforged, Ascii;
    CompiledStays(w, c, p, init, acts);
    ClosingKeeps(w, c, p, init);
    var c1 := Run(w, Step(w, c, init), acts);
    FinalKeeps(w, c1, fin);
    ExactPayout(w, c1, fin);
  }

  lemma ClosingKeeps(w: World, c: Chain, p: Party, init: Action)
    requires Begins(w, c, p, init)
    ensures var g := Step(w, c, init).globals;
            && WellTyped(c.globals) && Mirrors(g, p) && Balanced(g) && Num(g, Timeout) != 0 && ThreeAccounts(w, g)
            && Num(g, TotalDeposit) == Num(c.globals, TotalDeposit) && Based(w, p)
  {
    hide WellTyped, Step, Initiates, Unforged, Shows, Stands, Ascii, Balanced;
    var s := InitiationTracks(w, c, p, init);
  }

  /** As compiled, no pass of any watchtower changes what the chain shows, unless the signatures of its newest state
      are close signatures too. */
  lemma CompiledPassIdle(w: World, c: Chain, passed: Chain, p: Party)
    requires Mirrors(c.globals, p) && Based(w, p)
    requires !Ready(w.crypto, p.info, p.newest, w.kind) && WatchPass(w, c, passed, p)
    ensures passed.globals == c.globals
  {
    hide WellTyped, Packed, Ready, Step, Dispute, Ascii;
    if MyOnChain(p, c.globals) < MyNewest(p) {
      var x :| DisputeOfNewest(c, p, x) && passed == Step(w, c, Submit(x));
      NewestIdle(w, At(w, c, x), c.globals, p);
      DisputeNamed(x, p.newest);
      IdleDispute(w, c, x);
    }
  }
}
