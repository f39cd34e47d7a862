/** Everything an honest node signs over its life in one channel, and what its latest state is worth. */
module History {
  import opened Bytes
  import opened Messages
  import opened Contract
  import opened Chain
  import opened OffChain
  import opened StoredStates
  import opened CooperativeClose
  import opened Payoff

  /** What happens at a node: a request to pay, a payment of its own that is answered with a signature, one whose
      answer is lost or a refusal, a request to close, or its own proposal to close. */
  datatype Event =
    | Request(r: PayRequest)
    | Pays(amount: u64, now: i64, answer: Bytes)
    | PaysLost(amount: u64, now: i64)
    | AnswersClose(sig: Bytes)
    | ProposesClose

  /** The log, all signed terms, those of its payments that came to nothing, and the times of those it completed. */
  datatype Life = Life(log: Log, signed: set<(Kind, Terms)>, lost: set<Terms>, paid: set<i64>)

  /** The node's side of the channel, between two different accounts, whose balances on the chain split the deposit. */
  ghost predicate Side(me: Bytes, info: Info) {
    info.alice != info.bob && me in {info.alice, info.bob} && info.aliceOnChain + info.bobOnChain == info.deposit
  }

  function Partner(me: Bytes, info: Info): Bytes {
    if me == info.alice then info.bob else info.alice
  }

  ghost function Opening(info: Info, now: i64): Life {
    Life(map[now := OpeningState(info, now)], {}, {}, {})
  }

  /** The terms a proposal puts under the payer's signature. */
  function ProposedTerms(info: Info, r: PayRequest): Terms {
    TermsOf(info.app, r.alice, r.bob, ToI64(r.timestamp))
  }

  ghost function Live(c: Crypto, me: Bytes, info: Info, l: Life, e: Event): Life
    requires Latest(l.log).Some?
  {
    var last := Latest(l.log).value;
    match e
    case Request(r) =>
      if r.from != Partner(me, info) || !Acceptable(c, me, info, last, r) then l
      else
        var entry := Received(c, me, info, r);
        l.(log := l.log[entry.timestamp := entry], signed := l.signed + {(StateUpdate, ProposedTerms(info, r))},
           paid := l.paid - {entry.timestamp})
    case Pays(amount, now, answer) =>
      var r := Proposal(c, me, info, last, amount, now);
      var signed := l.signed + {(StateUpdate, ProposedTerms(info, r))};
      if Verify(c, StateUpdate, ProposedTerms(info, r), answer, Partner(me, info)) then
        Life(l.log[now := Kept(info, r, answer)], signed, l.lost, l.paid + {now})
      else l.(signed := signed, lost := l.lost + {ProposedTerms(info, r)})
    case PaysLost(amount, now) =>
      var r := Proposal(c, me, info, last, amount, now);
      l.(signed := l.signed + {(StateUpdate, ProposedTerms(info, r))}, lost := l.lost + {ProposedTerms(info, r)})
    case AnswersClose(sig) =>
      if Verify(c, CloseChannel, CloseTerms(info, last), sig, Partner(me, info)) then
        l.(signed := l.signed + {(CloseChannel, CloseTerms(info, last))})
      else l
    case ProposesClose =>
      if Closable(last) then l.(signed := l.signed + {(CloseChannel, CloseTerms(info, last))}) else l
  }

  /** The node's clock runs ahead of its latest state whenever it pays. */
  ghost predicate Orderly(l: Life, e: Event) {
    Latest(l.log).Some?
    && match e
       case Request(_) => true
       case Pays(_, now, _) => now > Latest(l.log).value.timestamp
       case PaysLost(_, now) => now > Latest(l.log).value.timestamp
       case AnswersClose(_) => true
       case ProposesClose => true
  }

  ghost predicate AllOrderly(c: Crypto, me: Bytes, info: Info, l: Life, es: seq<Event>)
    decreases |es|
  {
    es == [] || (Orderly(l, es[0]) && AllOrderly(c, me, info, Live(c, me, info, l, es[0]), es[1..]))
  }

  ghost function LiveAll(c: Crypto, me: Bytes, info: Info, l: Life, es: seq<Event>): Life
    requires AllOrderly(c, me, info, l, es)
    decreases |es|
  {
    if es == [] then l else LiveAll(c, me, info, Live(c, me, info, l, es[0]), es[1..])
  }

  // ----- what every life keeps -----

  /** The entry is the one the log opened with. */
  ghost predicate IsOpening(info: Info, e: OffState) {
    e == OpeningState(info, e.timestamp)
  }

  /** Every entry is the opening, or ready for the chain, or a payment that Bob completed. */
  ghost predicate Usable(c: Crypto, me: Bytes, info: Info, l: Life) {
    forall t | t in l.log ::
      IsOpening(info, l.log[t]) || Ready(c, info, l.log[t], StateUpdate) || (t in l.paid && me != info.alice)
  }

  /** A signed state is the latest one, or older, or one of a payment that came to nothing. */
  ghost predicate Superseded(l: Life, info: Info, latest: OffState, t: Terms) {
    t == TermsOfState(info, latest) || t.timestamp < ToU64(latest.timestamp) || t in l.lost
  }

  ghost predicate AllSuperseded(info: Info, l: Life, latest: OffState) {
    && (forall t | (StateUpdate, t) in l.signed :: t.app == info.app && Superseded(l, info, latest, t))
    && (forall t | t in l.lost :: (StateUpdate, t) in l.signed)
    && (IsOpening(info, latest) || (StateUpdate, TermsOfState(info, latest)) in l.signed)
  }

  /** Every entry but the opening carries the node's own signature over its state. */
  ghost predicate OwnSigned(c: Crypto, me: Bytes, info: Info, l: Life) {
    forall t | t in l.log ::
      IsOpening(info, l.log[t])
      || Sign(c, me, StateUpdate, TermsOfState(info, l.log[t])) in {l.log[t].aliceSig, l.log[t].bobSig}
  }

  /** What every life keeps; of the latest balances only that they add up to the deposit modulo 2^64. */
  ghost predicate Sound(c: Crypto, me: Bytes, info: Info, l: Life) {
    && Filed(l.log) && Latest(l.log).Some?
    && var latest := Latest(l.log).value;
       && latest.timestamp > 0 && WrapU(latest.alice + latest.bob) == info.deposit
       && Usable(c, me, info, l) && AllSuperseded(info, l, latest) && OwnSigned(c, me, info, l)
  }

  /** Balances that add up modulo 2^64 add up exactly if and only if either of them is at most the sum. */
  lemma SplitTest(alice: u64, bob: u64, deposit: u64)
    requires WrapU(alice + bob) == deposit
    ensures alice + bob == deposit <==> alice <= deposit
    ensures alice + bob == deposit <==> bob <= deposit
  {
    WrapNear(alice + bob);
  }

  // ----- one event -----

  /** An accepted request keeps the sum modulo 2^64. It keeps a sum exactly when it lowers the payer's balance; from
      a sum below 2^63, only then. */
  lemma RequestKeepsSum(c: Crypto, me: Bytes, info: Info, last: OffState, r: PayRequest)
    requires Acceptable(c, me, info, last, r)
    ensures WrapU(r.alice + r.bob) == WrapU(last.alice + last.bob)
    ensures var lower := Other(me, info, r.alice, r.bob) <= Other(me, info, last.alice, last.bob);
            && (lower && last.alice + last.bob < U64_LIMIT ==> r.alice + r.bob == last.alice + last.bob)
            && (!lower && last.alice + last.bob < I64_LIMIT ==> r.alice + r.bob == last.alice + last.bob + U64_LIMIT)
  {
    hide Verify, BalancesMove, WrapU;
    var lo, no := Other(me, info, last.alice, last.bob), Other(me, info, r.alice, r.bob);
    var lm, nm := Mine(me, info, last.alice, last.bob), Mine(me, info, r.alice, r.bob);
    BalancesMoveMeaning(lo, no, lm, nm);
    var d: int :| Moves(d, lo, no, lm, nm);
    Moved(d, lo, no, lm, nm);
  }

  lemma Moved(d: int, lo: u64, no: u64, lm: u64, nm: u64)
    requires Moves(d, lo, no, lm, nm)
    ensures WrapU(no + nm) == WrapU(lo + lm)
    ensures no <= lo && lo + lm < U64_LIMIT ==> no + nm == lo + lm
    ensures no > lo && lo + lm < I64_LIMIT ==> no + nm == lo + lm + U64_LIMIT
  {
    BalancesMoveSum(d, lo, no, lm, nm);
    WrapNear(lo - d);
    WrapNear(lm + d);
  }

  /** A proposal keeps the sum modulo 2^64. It keeps a sum, and moves the amount, when the payer has it; an amount
      below 2^63 that the payer does not have breaks a sum below 2^63. */
  lemma ProposalMovesAmount(c: Crypto, me: Bytes, info: Info, last: OffState, amount: u64, now: i64)
    ensures var r := Proposal(c, me, info, last, amount, now);
            && WrapU(r.alice + r.bob) == WrapU(last.alice + last.bob)
            && (last.alice + last.bob < U64_LIMIT && amount <= Mine(me, info, last.alice, last.bob) ==>
                  && Mine(me, info, r.alice, r.bob) == Mine(me, info, last.alice, last.bob) - amount
                  && Other(me, info, r.alice, r.bob) == Other(me, info, last.alice, last.bob) + amount)
            && (last.alice + last.bob < I64_LIMIT && Mine(me, info, last.alice, last.bob) < amount < I64_LIMIT ==>
                  r.alice + r.bob == last.alice + last.bob + U64_LIMIT)
  {
    hide Sign, WrapU;
    Paid(Mine(me, info, last.alice, last.bob), Other(me, info, last.alice, last.bob), amount);
  }

  lemma Paid(payer: u64, payee: u64, amount: u64)
    ensures var left, more := WrapU(payer - amount), WrapU(payee + amount);
            && WrapU(left + more) == WrapU(payer + payee)
            && (payer + payee < U64_LIMIT && amount <= payer ==> left == payer - amount && more == payee + amount)
            && (payer + payee < I64_LIMIT && payer < amount < I64_LIMIT ==> left + more == payer + payee + U64_LIMIT)
  {
    WrapNear(payer - amount);
    WrapNear(payee + amount);
    WrapNear(payer + payee);
    WrapNear(WrapU(payer - amount) + WrapU(payee + amount));
  }

  /** What Alice keeps of her own payment is ready for the chain. */
  lemma AliceKeepsReady(c: Crypto, info: Info, last: OffState, amount: u64, now: i64, answer: Bytes)
    requires Signs(c, info.alice, StateUpdate)
    requires var t := ProposedTerms(info, Proposal(c, info.alice, info, last, amount, now));
             Verify(c, StateUpdate, t, answer, info.bob)
    ensures Ready(c, info, Kept(info, Proposal(c, info.alice, info, last, amount, now), answer), StateUpdate)
  {
    hide Verify, Sign, TermsOf, WrapU, Signs;
    TimestampCast(now);
    SignVerify(c, info.alice, StateUpdate);
  }

  lemma RequestSound(c: Crypto, me: Bytes, info: Info, l: Life, r: PayRequest)
    requires Side(me, info) && Sound(c, me, info, l) && Orderly(l, Request(r))
    requires Signs(c, me, StateUpdate)
    ensures Sound(c, me, info, Live(c, me, info, l, Request(r)))
  {
    hide Verify, Sign, Latest, Filed, BalancesMove, WrapU, Signs;
    var last := Latest(l.log).value;
    if r.from == Partner(me, info) && Acceptable(c, me, info, last, r) {
      var e := Received(c, me, info, r);
      NewerIsLatest(l.log, e);
      ReceivedReady(c, me, info, last, r);
      RequestKeepsSum(c, me, info, last, r);
      ReceivedSigned(c, me, info, r);
    }
  }

  /** Both kinds of entry carry the node's own signature. */
  lemma ReceivedSigned(c: Crypto, me: Bytes, info: Info, r: PayRequest)
    ensures var e := Received(c, me, info, r);
            Sign(c, me, StateUpdate, TermsOfState(info, e)) in {e.aliceSig, e.bobSig}
  {
  }

  lemma KeptSigned(c: Crypto, me: Bytes, info: Info, last: OffState, amount: u64, now: i64, answer: Bytes)
    ensures var e := Kept(info, Proposal(c, me, info, last, amount, now), answer);
            Sign(c, me, StateUpdate, TermsOfState(info, e)) == e.aliceSig
  {
    hide Sign, WrapU;
    TimestampCast(now);
  }

  lemma PaysSound(c: Crypto, me: Bytes, info: Info, l: Life, amount: u64, now: i64, answer: Bytes)
    requires Side(me, info) && Sound(c, me, info, l) && Orderly(l, Pays(amount, now, answer))
    requires Signs(c, me, StateUpdate)
    ensures Sound(c, me, info, Live(c, me, info, l, Pays(amount, now, answer)))
  {
    hide Verify, Sign, Latest, Filed, BalancesMove, WrapU, Ready, Signs;
    var last := Latest(l.log).value;
    var r := Proposal(c, me, info, last, amount, now);
    TimestampCast(now);
    ProposalMovesAmount(c, me, info, last, amount, now);
    NewerIsLatest(l.log, Kept(info, r, answer));
    KeptSigned(c, me, info, last, amount, now, answer);
    if me == info.alice && Verify(c, StateUpdate, ProposedTerms(info, r), answer, info.bob) {
      AliceKeepsReady(c, info, last, amount, now, answer);
    }
  }

  /** Every event of an orderly life keeps it sound. */
  lemma LiveSound(c: Crypto, me: Bytes, info: Info, l: Life, e: Event)
    requires Side(me, info) && Sound(c, me, info, l) && Orderly(l, e)
    requires Signs(c, me, StateUpdate)
    ensures Sound(c, me, info, Live(c, me, info, l, e))
  {
    hide Verify, Sign, Latest, Filed, BalancesMove, WrapU, Ready, Signs;
    match e
    case Request(r) => RequestSound(c, me, info, l, r);
    case Pays(amount, now, answer) => PaysSound(c, me, info, l, amount, now, answer);
    case PaysLost(amount, now) => TimestampCast(now);
    case AnswersClose(_) =>
    case ProposesClose =>
  }

  lemma {:induction false} LiveAllSound(c: Crypto, me: Bytes, info: Info, l: Life, es: seq<Event>)
    requires Side(me, info) && Sound(c, me, info, l) && AllOrderly(c, me, info, l, es)
    requires Signs(c, me, StateUpdate)
    ensures Sound(c, me, info, LiveAll(c, me, info, l, es))
    decreases |es|
  {
    if es != [] {
      hide Sound, Live, Verify, Orderly, Signs;
      LiveSound(c, me, info, l, es[0]);
      LiveAllSound(c, me, info, Live(c, me, info, l, es[0]), es[1..]);
    }
  }

  lemma OpeningSound(c: Crypto, me: Bytes, info: Info, now: i64)
    requires Side(me, info) && now > 0
    ensures Sound(c, me, info, Opening(info, now))
  {
    assert IsLatest(Opening(info, now).log, now);
  }

  // ----- what the life is worth -----

  /** The party of the payoff theorem after such a life, which also signed these terms in other channels. */
  ghost function PartyOf(me: Bytes, info: Info, l: Life, elsewhere: set<(Kind, Terms)>): Party
    requires Latest(l.log).Some?
  {
    Party(me, info, Latest(l.log).value, l.signed + elsewhere)
  }

  /** The node's state signatures verify under its own key, and none of them is also a close signature. */
  ghost predicate SignsStates(c: Crypto, me: Bytes, info: Info) {
    && Signs(c, me, StateUpdate)
    && NeverFor(c, me, StateUpdate, CloseChannel, info.alice) && NeverFor(c, me, StateUpdate, CloseChannel, info.bob)
  }

  lemma OpeningNeverReady(c: Crypto, info: Info, e: OffState, kind: Kind)
    requires IsOpening(info, e)
    ensures !Ready(c, info, e, kind)
  {
  }

  /** The latest state can be used in a dispute. */
  ghost predicate LatestServes(w: World, me: Bytes, info: Info, l: Life)
    requires Latest(l.log).Some?
  {
    && w.kind == StateUpdate
    && Ready(w.crypto, info, Latest(l.log).value, StateUpdate)
    && Mine(me, info, Latest(l.log).value.alice, Latest(l.log).value.bob) <= info.deposit
  }

  /** After any life from the opening on, with whatever requests and lost answers, the node is honest in the sense
      of the payoff theorem. Its latest state is of use in a dispute if and only if disputes check state messages,
      the state is ready, and the node's own balance in it is at most the deposit; it is ready unless it is the
      opening or a payment that Bob himself completed. */
  lemma LifeIsHonest(w: World, me: Bytes, info: Info, now: i64, es: seq<Event>, elsewhere: set<(Kind, Terms)>)
    requires Side(me, info) && now > 0 && AllOrderly(w.crypto, me, info, Opening(info, now), es) && w.app == info.app
    requires SignsStates(w.crypto, me, info)
    ensures var l := LiveAll(w.crypto, me, info, Opening(info, now), es);
            Latest(l.log).Some?
            && var latest, p := Latest(l.log).value, PartyOf(me, info, l, elsewhere);
               && Honest(w, p, info.deposit)
               && (Serviceable(w, p, info.deposit) <==> LatestServes(w, me, info, l))
               && (IsOpening(info, latest) ==> !Ready(w.crypto, info, latest, StateUpdate))
               && (!IsOpening(info, latest) && (me == info.alice || latest.timestamp !in l.paid)
                   ==> Ready(w.crypto, info, latest, StateUpdate))
  {
    hide Live, Verify, Ready, AllOrderly, LiveAll, Side;
    OpeningSound(w.crypto, me, info, now);
    LiveAllSound(w.crypto, me, info, Opening(info, now), es);
    SoundIsHonest(w, me, info, LiveAll(w.crypto, me, info, Opening(info, now), es), elsewhere);
  }

  lemma SoundIsHonest(w: World, me: Bytes, info: Info, l: Life, elsewhere: set<(Kind, Terms)>)
    requires Side(me, info) && Sound(w.crypto, me, info, l) && w.app == info.app && SignsStates(w.crypto, me, info)
    ensures var latest, p := Latest(l.log).value, PartyOf(me, info, l, elsewhere);
            && Honest(w, p, info.deposit)
            && (Serviceable(w, p, info.deposit) <==> LatestServes(w, me, info, l))
            && (IsOpening(info, latest) ==> !Ready(w.crypto, info, latest, StateUpdate))
            && (!IsOpening(info, latest) && (me == info.alice || latest.timestamp !in l.paid)
                ==> Ready(w.crypto, info, latest, StateUpdate))
  {
    hide Verify, Ready, AllSuperseded, OwnSigned, SignsStates, WrapU;
    var latest := Latest(l.log).value;
    LatestFiled(l.log);
    LatestSigned(info, l, latest);
    assert w.kind == StateUpdate || w.kind == CloseChannel;
    SplitTest(latest.alice, latest.bob, info.deposit);
    if IsOpening(info, latest) {
      OpeningNeverReady(w.crypto, info, latest, StateUpdate);
      OpeningNeverReady(w.crypto, info, latest, CloseChannel);
    } else {
      NeverClosing(w.crypto, me, info, l, latest);
    }
  }

  lemma NeverClosing(c: Crypto, me: Bytes, info: Info, l: Life, e: OffState)
    requires SignsStates(c, me, info) && OwnSigned(c, me, info, l) && !IsOpening(info, e)
    requires e.timestamp in l.log && l.log[e.timestamp] == e
    ensures !Ready(c, info, e, CloseChannel)
  {
    hide Verify, Sign, NeverFor;
    var t := TermsOfState(info, e);
    SignNeverVerifies(c, me, StateUpdate, CloseChannel, info.alice);
    SignNeverVerifies(c, me, StateUpdate, CloseChannel, info.bob);
    assert Sign(c, me, StateUpdate, t) in {e.aliceSig, e.bobSig};
  }

  lemma LatestFiled(log: Log)
    requires Filed(log) && Latest(log).Some?
    ensures Latest(log).value.timestamp in log && log[Latest(log).value.timestamp] == Latest(log).value
  {
    var t :| IsLatest(log, t);
  }

  lemma LatestSigned(info: Info, l: Life, latest: OffState)
    requires AllSuperseded(info, l, latest)
    ensures IsOpening(info, latest) || (StateUpdate, TermsOfState(info, latest)) in l.signed
  {
  }

  // ----- the floor of a life -----

  /** The other channels have other applications, and no state the node signed anywhere can be read as another state
      here. */
  ghost predicate Apart(info: Info, l: Life, elsewhere: set<(Kind, Terms)>) {
    && (forall k, t | (k, t) in elsewhere :: t.app != info.app)
    && (forall t | (StateUpdate, t) in l.signed + elsewhere :: !Ambiguous(t, info.app))
  }

  /** Then what the contract can read is what the node signed in this channel. */
  lemma SignedAsMeant(me: Bytes, info: Info, l: Life, elsewhere: set<(Kind, Terms)>, latest: OffState, r: Reading)
    requires AllSuperseded(info, l, latest) && Apart(info, l, elsewhere)
    ensures Signed(Party(me, info, latest, l.signed + elsewhere), StateUpdate, info.deposit, r)
       <==> r.alice + r.bob == info.deposit && exists t :: (StateUpdate, t) in l.signed && r == AsMeant(t)
  {
    hide Ambiguous, ReadsAs, Superseded;
    var p := Party(me, info, latest, l.signed + elsewhere);
    if Signed(p, StateUpdate, info.deposit, r) {
      var t :| (StateUpdate, t) in p.signed && ReadsAs(t, info.app, r);
      ClearReading(t, info.app, r);
      assert (StateUpdate, t) in l.signed;
    }
    if t :| (StateUpdate, t) in l.signed && r == AsMeant(t) {
      PlainReading(t);
      assert (StateUpdate, t) in p.signed;
    }
  }

  /** Every lost payment that splits the deposit and is as new as the latest state leaves the node at least m. */
  ghost predicate LostLeave(me: Bytes, info: Info, l: Life, latest: OffState, m: nat) {
    forall t | t in l.lost && t.alice + t.bob == info.deposit && t.timestamp >= ToU64(latest.timestamp) ::
      m <= Mine(me, info, t.alice, t.bob)
  }

  /** So does every state the node ever signed that splits the deposit. */
  ghost predicate AllLeave(me: Bytes, info: Info, l: Life, m: nat) {
    forall t | (StateUpdate, t) in l.signed && t.alice + t.bob == info.deposit :: m <= Mine(me, info, t.alice, t.bob)
  }

  /** The node's floor, where disputes check state messages. With a latest state that serves and leaves the partner
      the penalty, it is set by the latest balance and by the payments that came to nothing and are as new: without
      any, it is the latest balance. Otherwise every state the node signed counts. */
  lemma LifeFloor(w: World, me: Bytes, info: Info, l: Life, elsewhere: set<(Kind, Terms)>, m: nat)
    requires Side(me, info) && Sound(w.crypto, me, info, l) && w.app == info.app && w.kind == StateUpdate
    requires Apart(info, l, elsewhere)
    ensures var latest, p := Latest(l.log).value, PartyOf(me, info, l, elsewhere);
            if Serviceable(w, p, info.deposit) && TheirNewest(p) >= info.penalty then
              Floor(w, p, info.deposit, m)
              <==> m <= MyNewest(p) && LostLeave(me, info, l, latest, m)
            else
              Floor(w, p, info.deposit, m)
              <==> (Serviceable(w, p, info.deposit) ==> m <= MyNewest(p)) && AllLeave(me, info, l, m)
  {
    hide Usable, OwnSigned, Ready, Apart, Signed, WrapU, Filed, Latest, Ambiguous;
    var latest, p := Latest(l.log).value, PartyOf(me, info, l, elsewhere);
    forall r
      ensures Signed(p, StateUpdate, info.deposit, r)
         <==> r.alice + r.bob == info.deposit && exists t :: (StateUpdate, t) in l.signed && r == AsMeant(t)
    {
      SignedAsMeant(me, info, l, elsewhere, latest, r);
    }
    forall t | (StateUpdate, t) in l.signed && t.alice + t.bob == info.deposit
      ensures Signed(p, StateUpdate, info.deposit, AsMeant(t)) && Superseded(l, info, latest, t)
    {
    }
    forall t | t in l.lost
      ensures (StateUpdate, t) in l.signed
    {
    }
  }

  // ----- steady lives -----

  /** The event moves no more than the payer has: a completed payment of the node's own, or an accepted request. */
  ghost predicate Steady(c: Crypto, me: Bytes, info: Info, l: Life, e: Event)
    requires Latest(l.log).Some?
  {
    var last := Latest(l.log).value;
    match e
    case Request(r) =>
      Acceptable(c, me, info, last, r) ==> Other(me, info, r.alice, r.bob) <= Other(me, info, last.alice, last.bob)
    case Pays(amount, _, _) => amount <= Mine(me, info, last.alice, last.bob)
    case PaysLost(_, _) => true
    case AnswersClose(_) => true
    case ProposesClose => true
  }

  ghost predicate AllSteady(c: Crypto, me: Bytes, info: Info, l: Life, es: seq<Event>)
    requires AllOrderly(c, me, info, l, es)
    decreases |es|
  {
    es == [] || (Steady(c, me, info, l, es[0]) && AllSteady(c, me, info, Live(c, me, info, l, es[0]), es[1..]))
  }

  /** The latest balances split the deposit, and the partner holds the penalty, or never held more in any signed
      state but those of lost payments. */
  ghost predicate Covered(me: Bytes, info: Info, l: Life) {
    && Latest(l.log).Some?
    && var latest := Latest(l.log).value;
       && latest.alice + latest.bob == info.deposit
       && (|| Other(me, info, latest.alice, latest.bob) >= info.penalty
           || (forall t | (StateUpdate, t) in l.signed ::
                 t in l.lost || Mine(me, info, t.alice, t.bob) >= Mine(me, info, latest.alice, latest.bob)))
  }

  lemma CoveredStep(c: Crypto, me: Bytes, info: Info, l: Life, e: Event)
    requires Side(me, info) && Filed(l.log) && Covered(me, info, l) && Orderly(l, e) && Steady(c, me, info, l, e)
    ensures Covered(me, info, Live(c, me, info, l, e))
  {
    hide Verify, Sign, Latest, Filed, WrapU, BalancesMove;
    var last := Latest(l.log).value;
    match e
    case Request(r) =>
      if r.from == Partner(me, info) && Acceptable(c, me, info, last, r) {
        NewerIsLatest(l.log, Received(c, me, info, r));
        RequestKeepsSum(c, me, info, last, r);
      }
    case Pays(amount, now, answer) =>
      TimestampCast(now);
      NewerIsLatest(l.log, Kept(info, Proposal(c, me, info, last, amount, now), answer));
      ProposalMovesAmount(c, me, info, last, amount, now);
    case PaysLost(amount, now) => TimestampCast(now);
    case AnswersClose(_) =>
    case ProposesClose =>
  }

  lemma {:induction false} CoveredAll(c: Crypto, me: Bytes, info: Info, l: Life, es: seq<Event>)
    requires Side(me, info) && Sound(c, me, info, l) && Covered(me, info, l)
    requires Signs(c, me, StateUpdate)
    requires AllOrderly(c, me, info, l, es) && AllSteady(c, me, info, l, es)
    ensures Covered(me, info, LiveAll(c, me, info, l, es))
    decreases |es|
  {
    if es != [] {
      hide Live, Verify, Orderly, Steady, Covered, Signs;
      CoveredStep(c, me, info, l, es[0]);
      LiveSound(c, me, info, l, es[0]);
      CoveredAll(c, me, info, Live(c, me, info, l, es[0]), es[1..]);
    }
  }

  /** Where no event moved more than the payer had, a latest state that serves leaves only the lost payments to
      count: those as new as it, or, while the partner does not hold the penalty, all of them. */
  lemma SteadyFloor(w: World, me: Bytes, info: Info, now: i64, es: seq<Event>, elsewhere: set<(Kind, Terms)>, m: nat)
    requires Side(me, info) && now > 0 && AllOrderly(w.crypto, me, info, Opening(info, now), es)
    requires AllSteady(w.crypto, me, info, Opening(info, now), es) && SignsStates(w.crypto, me, info)
    requires w.app == info.app && w.kind == StateUpdate
    requires Apart(info, LiveAll(w.crypto, me, info, Opening(info, now), es), elsewhere)
    ensures var l := LiveAll(w.crypto, me, info, Opening(info, now), es);
            && Latest(l.log).Some?
            && var p := PartyOf(me, info, l, elsewhere);
               Serviceable(w, p, info.deposit) ==>
                 (Floor(w, p, info.deposit, m)
                  <==> && m <= MyNewest(p)
                       && forall t | t in l.lost && t.alice + t.bob == info.deposit
                                     && Lasting(w, p, info.deposit, t.timestamp) ::
                            m <= Mine(me, info, t.alice, t.bob))
  {
    hide Live, Verify, Ready, AllOrderly, AllSteady, LiveAll, Apart, Floor, Usable, OwnSigned, WrapU;
    OpeningSound(w.crypto, me, info, now);
    OpeningCovered(me, info, now);
    LiveAllSound(w.crypto, me, info, Opening(info, now), es);
    CoveredAll(w.crypto, me, info, Opening(info, now), es);
    LifeFloor(w, me, info, LiveAll(w.crypto, me, info, Opening(info, now), es), elsewhere, m);
  }

  lemma OpeningCovered(me: Bytes, info: Info, now: i64)
    requires Side(me, info) && now > 0
    ensures Covered(me, info, Opening(info, now))
  {
    assert IsLatest(Opening(info, now).log, now);
  }
}
