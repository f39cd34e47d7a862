/** The closing of a channel over whole runs: its window, its disputes and its payout. */
module Closing {
  import opened Bytes
  import opened Messages
  import opened Contract
  import opened Ledger
  import opened Chain
  import opened ChainProperties

  // ----- phases -----

  /** An accepted initiation: the call succeeds and its signed split is taken over. */
  predicate Initiates(w: World, c: Chain, a: Action)
    requires WellTyped(c.globals)
  {
    && Succeeds(w, c, a, InitiateCall)
    && ValidCtx(a.x)
    && Initiate(At(w, c, a.x), c.globals).Approved?
    && SplitComputes(At(w, c, a.x), c.globals)
    && SplitHolds(At(w, c, a.x), c.globals, StateUpdate)
  }

  predicate NoneInitiates(w: World, c: Chain, acts: seq<Action>)
    requires WellTyped(c.globals)
    decreases |acts|
  {
    acts == [] || (!Initiates(w, c, acts[0]) && NoneInitiates(w, Step(w, c, acts[0]), acts[1..]))
  }

  /** Only an accepted initiation touches the timeout, and sets it to the end of the dispute window. */
  lemma TimeoutStep(w: World, c: Chain, a: Action)
    requires WellTyped(c.globals)
    ensures Num(Step(w, c, a).globals, Timeout)
         == if Initiates(w, c, a) then c.round + Num(c.globals, DisputeWindow) else Num(c.globals, Timeout)
    ensures Step(w, c, a).round >= c.round
    ensures Num(Step(w, c, a).globals, DisputeWindow) == Num(c.globals, DisputeWindow)
  {
    hide WellTyped, SplitHolds, SignatureShape, Ascii, Payable;
    if a.Submit? && Result(w, c, a.x).Some? {
      var x := At(w, c, a.x);
      CallFrame(x, c.globals, w.kind);
      CallTimeout(x, c.globals, w.kind);
    }
  }

  lemma CallTimeout(x: Ctx, g: Globals, kind: Kind)
    requires ValidCtx(x) && WellTyped(g) && Call(x, g, kind).Approved? && WellTyped(Call(x, g, kind).globals)
    ensures Num(Call(x, g, kind).globals, Timeout)
         == if MethodOf(x) == Some(InitiateCall) && SplitHolds(x, g, StateUpdate) then x.round + Num(g, DisputeWindow)
            else Num(g, Timeout)
  {
    hide SplitHolds, SignatureShape, Ascii, Payable;
  }

  lemma {:induction false} TimeoutRun(w: World, c: Chain, acts: seq<Action>, start: nat)
    requires WellTyped(c.globals) && start <= c.round
    requires Num(c.globals, Timeout) >= start + Num(c.globals, DisputeWindow)
    ensures var c1 := Run(w, c, acts);
            && c1.round >= start
            && Num(c1.globals, DisputeWindow) == Num(c.globals, DisputeWindow)
            && Num(c1.globals, Timeout) >= start + Num(c.globals, DisputeWindow)
            && (NoneInitiates(w, c, acts) ==> Num(c1.globals, Timeout) == Num(c.globals, Timeout))
    decreases |acts|
  {
    if acts != [] {
      hide WellTyped, Initiates, Step;
      TimeoutStep(w, c, acts[0]);
      TimeoutRun(w, Step(w, c, acts[0]), acts[1..], start);
    }
  }

  /** The channel pays out in this action. */
  predicate PaysOut(w: World, c: Chain, a: Action)
    requires WellTyped(c.globals)
  {
    && a.Submit? && Result(w, c, a.x).Some? && ValidCtx(a.x)
    && Call(At(w, c, a.x), c.globals, w.kind).Approved?
    && Call(At(w, c, a.x), c.globals, w.kind).payouts != []
  }

  /** After an accepted initiation, whatever follows: no cooperative close succeeds any more, and a payout happens only
      after the initiation's round plus the dispute window; after further initiations, plus that of the last one. */
  lemma ClosingPhase(w: World, c: Chain, init: Action, post: seq<Action>, a: Action)
    requires WellTyped(c.globals) && c.round >= 1 && Initiates(w, c, init)
    ensures var c1 := Run(w, Step(w, c, init), post);
            && Num(c1.globals, Timeout) != 0
            && !Succeeds(w, c1, a, CooperativeCall)
            && (PaysOut(w, c1, a) ==> MethodOf(a.x) == Some(FinalizeCall)
                                      && c1.round > c.round + Num(c.globals, DisputeWindow))
            && (NoneInitiates(w, Step(w, c, init), post)
                ==> Num(c1.globals, Timeout) == c.round + Num(c.globals, DisputeWindow))
  {
    hide WellTyped, Initiates, Step, Run, NoneInitiates;
    TimeoutStep(w, c, init);
    TimeoutRun(w, Step(w, c, init), post, c.round);
    PaymentNeedsTimeout(w, Run(w, Step(w, c, init), post), a);
  }

  lemma PaymentNeedsTimeout(w: World, c: Chain, a: Action)
    requires WellTyped(c.globals) && Num(c.globals, Timeout) != 0
    ensures !Succeeds(w, c, a, CooperativeCall)
    ensures PaysOut(w, c, a) ==> MethodOf(a.x) == Some(FinalizeCall) && c.round > Num(c.globals, Timeout)
  {
    hide WellTyped, SplitHolds, SignatureShape, Ascii, Payable;
  }

  // ----- disputes -----

  /** A dispute that succeeds with a newer signed split. */
  predicate Disputes(w: World, c: Chain, a: Action)
    requires WellTyped(c.globals)
  {
    && Succeeds(w, c, a, DisputeCall)
    && ValidCtx(a.x)
    && SplitComputes(At(w, c, a.x), c.globals) && IsUint(a.x.args[4])
    && SplitHolds(At(w, c, a.x), c.globals, w.kind)
    && Num(c.globals, LatestTimestamp) < Uint(a.x.args[4])
  }

  /** The signed split that stands, and whether it came by a dispute. */
  datatype Standing = Standing(alice: u64, bob: u64, timestamp: u64, disputed: bool)

  function StandingAfter(w: World, c: Chain, a: Action, s: Standing): Standing
    requires WellTyped(c.globals)
  {
    if Disputes(w, c, a) then Standing(Uint(a.x.args[2]), Uint(a.x.args[3]), Uint(a.x.args[4]), true)
    else if Initiates(w, c, a) && IsUint(a.x.args[4]) then
      Standing(Uint(a.x.args[2]), Uint(a.x.args[3]), Uint(a.x.args[4]), false)
    else s
  }

  function StandingRun(w: World, c: Chain, acts: seq<Action>, s: Standing): Standing
    requires WellTyped(c.globals)
    decreases |acts|
  {
    if acts == [] then s
    else StandingRun(w, Step(w, c, acts[0]), acts[1..], StandingAfter(w, c, acts[0], s))
  }

  /** The global state shows the standing split, moved once by the penalty against the initiator if it was disputed. */
  ghost predicate Shows(g: Globals, s: Standing)
    requires WellTyped(g)
  {
    var p := Num(g, PenaltyReserve);
    var byAlice := Read(g, ClosingInitiator) == B(Ascii("alice"));
    && ClosingInitiator in g
    && Num(g, LatestTimestamp) == s.timestamp
    && (if !s.disputed then Num(g, LatestAlice) == s.alice && Num(g, LatestBob) == s.bob
        else if byAlice then Num(g, LatestAlice) + p == s.alice && Num(g, LatestBob) == s.bob + p
        else Num(g, LatestAlice) == s.alice + p && Num(g, LatestBob) + p == s.bob)
  }

  lemma DisputeShows(x: Ctx, g: Globals, kind: Kind)
    requires ValidCtx(x) && WellTyped(g) && SplitComputes(x, g) && IsUint(x.args[4]) && SplitHolds(x, g, kind)
    requires Num(g, LatestTimestamp) < Uint(x.args[4]) && Dispute(x, g, kind).Approved?
    requires WellTyped(Dispute(x, g, kind).globals)
    ensures Shows(Dispute(x, g, kind).globals,
                  Standing(Uint(x.args[2]), Uint(x.args[3]), Uint(x.args[4]), true))
  {
    hide SplitHolds, SignatureShape, Ascii;
  }

  lemma InitiateShows(x: Ctx, g: Globals)
    requires ValidCtx(x) && WellTyped(g) && SplitComputes(x, g) && SplitHolds(x, g, StateUpdate)
    requires Initiate(x, g).Approved? && WellTyped(Initiate(x, g).globals)
    ensures IsUint(x.args[4])
    ensures Shows(Initiate(x, g).globals, Standing(Uint(x.args[2]), Uint(x.args[3]), Uint(x.args[4]), false))
  {
    hide SplitHolds, SignatureShape, Ascii;
  }

  lemma SucceedsStep(w: World, c: Chain, a: Action, m: Method)
    requires WellTyped(c.globals) && Succeeds(w, c, a, m)
    ensures ValidCtx(a.x) && Perform(m, At(w, c, a.x), c.globals, w.kind).Approved?
    ensures Step(w, c, a).globals == Perform(m, At(w, c, a.x), c.globals, w.kind).globals
  {
    hide WellTyped, Fund, Initiate, Dispute, Finalize, Cooperative, MethodName;
  }

  lemma DisputeStep(w: World, c: Chain, a: Action)
    requires WellTyped(c.globals) && Disputes(w, c, a)
    ensures Shows(Step(w, c, a).globals, Standing(Uint(a.x.args[2]), Uint(a.x.args[3]), Uint(a.x.args[4]), true))
  {
    hide WellTyped, SplitHolds, SplitComputes, Dispute, Step, Shows, Result, MethodName, SameTerms;
    SucceedsStep(w, c, a, DisputeCall);
    DisputeFrame(At(w, c, a.x), c.globals, w.kind);
    DisputeShows(At(w, c, a.x), c.globals, w.kind);
  }

  lemma InitiateStep(w: World, c: Chain, a: Action)
    requires WellTyped(c.globals) && Initiates(w, c, a)
    ensures IsUint(a.x.args[4])
    ensures Shows(Step(w, c, a).globals, Standing(Uint(a.x.args[2]), Uint(a.x.args[3]), Uint(a.x.args[4]), false))
  {
    hide WellTyped, SplitHolds, SplitComputes, Initiate, Step, Shows, Result, MethodName, SameTerms;
    SucceedsStep(w, c, a, InitiateCall);
    InitiateFrame(At(w, c, a.x), c.globals);
    InitiateShows(At(w, c, a.x), c.globals);
  }

  lemma StandingStep(w: World, c: Chain, a: Action, s: Standing)
    requires WellTyped(c.globals) && Shows(c.globals, s) && Num(c.globals, Timeout) != 0
    requires !Succeeds(w, c, a, FundCall)
    ensures Shows(Step(w, c, a).globals, StandingAfter(w, c, a, s))
  {
    hide WellTyped, Initiates, Disputes, Step, Shows;
    if Disputes(w, c, a) {
      DisputeStep(w, c, a);
    } else if Initiates(w, c, a) {
      InitiateStep(w, c, a);
    } else {
      QuietStep(w, c, a);
    }
  }

  /** Nothing but fundings, initiations, newer disputes and cooperative closes writes the global state. */
  lemma QuietStep(w: World, c: Chain, a: Action)
    requires WellTyped(c.globals) && Num(c.globals, Timeout) != 0
    requires !Succeeds(w, c, a, FundCall) && !Initiates(w, c, a) && !Disputes(w, c, a)
    ensures Step(w, c, a).globals == c.globals
  {
    hide WellTyped, SplitHolds, SignatureShape, Ascii, Payable;
  }

  /** After an accepted initiation, any further initiations and any number of disputes, the latest balances are the last
      signed split that succeeded, moved by the penalty at most once. */
  lemma PenalisedOnce(w: World, c: Chain, init: Action, post: seq<Action>)
    requires WellTyped(c.globals) && c.round >= 1 && Initiates(w, c, init)
    requires Count(w, Step(w, c, init), post, FundCall) == 0
    ensures IsUint(init.x.args[4])
    ensures var s := Standing(Uint(init.x.args[2]), Uint(init.x.args[3]), Uint(init.x.args[4]), false);
            var c1 := Step(w, c, init);
            Shows(Run(w, c1, post).globals, StandingRun(w, c1, post, s))
  {
    hide WellTyped, Step, Shows, Run, Result;
    InitiateStep(w, c, init);
    TimeoutStep(w, c, init);
    StandingOverRun(w, Step(w, c, init), post,
                    Standing(Uint(init.x.args[2]), Uint(init.x.args[3]), Uint(init.x.args[4]), false));
  }

  lemma {:induction false} StandingOverRun(w: World, c: Chain, acts: seq<Action>, s: Standing)
    requires WellTyped(c.globals) && c.round >= 1 && Num(c.globals, Timeout) != 0 && Shows(c.globals, s)
    requires Count(w, c, acts, FundCall) == 0
    ensures Shows(Run(w, c, acts).globals, StandingRun(w, c, acts, s))
    decreases |acts|
  {
    if acts != [] {
      hide WellTyped, Initiates, Disputes, Step, Shows;
      StandingStep(w, c, acts[0], s);
      TimeoutStep(w, c, acts[0]);
      StandingOverRun(w, Step(w, c, acts[0]), acts[1..], StandingAfter(w, c, acts[0], s));
    }
  }

  // ----- disputes end -----

  function DisputeCount(w: World, c: Chain, acts: seq<Action>): nat
    requires WellTyped(c.globals)
    decreases |acts|
  {
    if acts == [] then 0
    else (if Disputes(w, c, acts[0]) then 1 else 0) + DisputeCount(w, Step(w, c, acts[0]), acts[1..])
  }

  /** Every newer dispute of the run carries one of these timestamps. */
  ghost predicate DisputesAmong(w: World, c: Chain, acts: seq<Action>, signed: set<u64>)
    requires WellTyped(c.globals)
    decreases |acts|
  {
    acts == []
    || ((Disputes(w, c, acts[0]) ==> Uint(acts[0].x.args[4]) in signed)
        && DisputesAmong(w, Step(w, c, acts[0]), acts[1..], signed))
  }

  ghost function Above(signed: set<u64>, t: u64): set<u64> {
    set s | s in signed && s > t
  }

  /** A newer dispute uses up a signed timestamp: fewer are left above the latest one. */
  lemma DisputeProgress(w: World, c: Chain, a: Action, signed: set<u64>)
    requires WellTyped(c.globals) && Disputes(w, c, a) && Uint(a.x.args[4]) in signed
    ensures Num(Step(w, c, a).globals, LatestTimestamp) == Uint(a.x.args[4]) > Num(c.globals, LatestTimestamp)
    ensures |Above(signed, Num(Step(w, c, a).globals, LatestTimestamp))|
            < |Above(signed, Num(c.globals, LatestTimestamp))|
  {
    hide WellTyped, Step, Result, Above;
    DisputeStep(w, c, a);
    var t := Uint(a.x.args[4]);
    Shrink(signed, Num(c.globals, LatestTimestamp), t);
  }

  lemma Shrink(signed: set<u64>, s: u64, t: u64)
    requires s < t && t in signed
    ensures |Above(signed, t)| < |Above(signed, s)|
  {
    var above, fewer := Above(signed, s), Above(signed, t);
    assert t in above && fewer <= above - {t};
    Smaller(fewer, above - {t});
    assert |above - {t}| == |above| - 1;
  }

  lemma {:induction false} Smaller(a: set<u64>, b: set<u64>)
    requires a <= b
    ensures |a| <= |b|
  {
    if a != {} {
      var t :| t in a;
      Smaller(a - {t}, b - {t});
    }
  }

  /** Until someone initiates again, there are at most as many newer disputes as signed timestamps above the latest. */
  lemma {:induction false} DisputesEnd(w: World, c: Chain, acts: seq<Action>, signed: set<u64>)
    requires WellTyped(c.globals) && c.round >= 1 && Num(c.globals, Timeout) != 0
    requires NoneInitiates(w, c, acts) && DisputesAmong(w, c, acts, signed)
    ensures DisputeCount(w, c, acts) <= |Above(signed, Num(c.globals, LatestTimestamp))|
    decreases |acts|
  {
    if acts != [] {
      hide WellTyped, Initiates, Disputes, Step, Above;
      var a, c1 := acts[0], Step(w, c, acts[0]);
      TimeoutStep(w, c, a);
      DisputesEnd(w, c1, acts[1..], signed);
      if Disputes(w, c, a) {
        DisputeProgress(w, c, a, signed);
      } else {
        TimestampStep(w, c, a);
      }
    }
  }

  lemma TimestampStep(w: World, c: Chain, a: Action)
    requires WellTyped(c.globals) && Num(c.globals, Timeout) != 0 && !Initiates(w, c, a) && !Disputes(w, c, a)
    ensures Num(Step(w, c, a).globals, LatestTimestamp) == Num(c.globals, LatestTimestamp)
  {
    if !Succeeds(w, c, a, FundCall) {
      QuietStep(w, c, a);
    }
  }
}
