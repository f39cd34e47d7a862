/** From a node's opening of a channel to its account's balance after the closing. */
module LifePayoff {
  import opened Bytes
  import opened Messages
  import opened Contract
  import opened Ledger
  import opened Chain
  import opened ChainProperties
  import opened Closing
  import opened Payout
  import opened OffChain
  import opened StoredStates
  import opened Payoff
  import opened History

  /** The life of a node in a channel of this world, from the opening at `now` through these events. */
  ghost predicate Lived(
    w: World, me: Bytes, info: Info, now: i64, es: seq<Event>, elsewhere: set<(Kind, Terms)>, l: Life)
  {
    && Side(me, info) && now > 0 && w.app == info.app && w.kind == StateUpdate
    && SignsStates(w.crypto, me, info) && Injective(w.crypto)
    && AllOrderly(w.crypto, me, info, Opening(info, now), es)
    && l == LiveAll(w.crypto, me, info, Opening(info, now), es) && Apart(info, l, elsewhere)
  }

  /** What the node can tell from its log is at least m: its latest state is ready, gives it no more than the
      deposit and its partner the penalty, and neither that state nor a newer payment that came to nothing gives it
      less than m. */
  ghost predicate Worth(w: World, me: Bytes, info: Info, l: Life, m: nat) {
    && Latest(l.log).Some? && LatestServes(w, me, info, l)
    && var latest := Latest(l.log).value;
       && Other(me, info, latest.alice, latest.bob) >= info.penalty
       && m <= Mine(me, info, latest.alice, latest.bob) && LostLeave(me, info, l, latest, m)
  }

  lemma LivedParty(
    w: World, me: Bytes, info: Info, now: i64, es: seq<Event>, elsewhere: set<(Kind, Terms)>, l: Life, m: nat)
    requires Lived(w, me, info, now, es, elsewhere, l) && Worth(w, me, info, l, m)
    ensures Latest(l.log).Some?
    ensures var p := PartyOf(me, info, l, elsewhere);
            Honest(w, p, info.deposit) && Floor(w, p, info.deposit, m)
  {
    hide LiveAll, AllOrderly, Opening, Apart, Ready, Verify, Floor, Side, Latest;
    LifeIsHonest(w, me, info, now, es, elsewhere);
    LivedSound(w, me, info, now, es, elsewhere, l);
    LifeFloor(w, me, info, l, elsewhere, m);
  }

  lemma LivedSound(
    w: World, me: Bytes, info: Info, now: i64, es: seq<Event>, elsewhere: set<(Kind, Terms)>, l: Life)
    requires Lived(w, me, info, now, es, elsewhere, l)
    ensures Sound(w.crypto, me, info, l)
  {
    hide LiveAll, AllOrderly, Apart, Verify, Side, Sound;
    OpeningSound(w.crypto, me, info, now);
    LiveAllSound(w.crypto, me, info, Opening(info, now), es);
  }

  /** The partner closes the channel of a node with that life: an accepted initiation, whatever anyone does with
      what was signed, and a pass of the node's watchtower. */
  ghost predicate ClosedOn(w: World, c: Chain, p: Party, init: Action, before: seq<Action>, passed: Chain) {
    && Mirrors(c.globals, p) && ThreeAccounts(w, c.globals) && c.round >= 1
    && Num(c.globals, TotalDeposit) == p.info.deposit
    && Initiates(w, c, init) && Unforged(w, c, p, init) && init.x.sender != p.me
    && PassAfter(w, Step(w, c, init), p, before, passed)
  }

  /** A node that lived through any events, with whatever requests, lost answers and other channels, is paid at
      least what it can tell from its log, less one fee, when its partner closes and its watchtower has had its
      pass. */
  lemma NodeIsPaid(
    w: World, me: Bytes, info: Info, now: i64, es: seq<Event>, elsewhere: set<(Kind, Terms)>, l: Life, m: nat,
    c: Chain, init: Action, before: seq<Action>, passed: Chain, after: seq<Action>, fin: Action)
    requires Lived(w, me, info, now, es, elsewhere, l) && Worth(w, me, info, l, m)
    requires ClosedOn(w, c, PartyOf(me, info, l, elsewhere), init, before, passed) && WellTyped(passed.globals)
    requires Fair(w, passed, PartyOf(me, info, l, elsewhere), after) && DisputeCount(w, passed, after) == 0
    requires PaysOut(w, Run(w, passed, after), fin)
    ensures var c1 := Run(w, passed, after);
            && LedgerAtCall(w, c1, fin.x).Some?
            && Balance(Step(w, c1, fin).ledger, me) + MIN_TXN_FEE
               >= Balance(LedgerAtCall(w, c1, fin.x).value, me) + m
  {
    hide WellTyped, Step, Run, Fair, Initiates, Unforged, PaysOut, LedgerAtCall, Balance, PassAfter, Floor, Honest;
    hide Worth, LiveAll, AllOrderly, Apart, Side, SignsStates;
    LivedParty(w, me, info, now, es, elsewhere, l, m);
    HonestPayoff(w, c, PartyOf(me, info, l, elsewhere), m, init, before, passed, after, fin);
  }
}
