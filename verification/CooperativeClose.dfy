/** Closing together: what an approved request says about both logs, and what the close then pays. */
module CooperativeClose {
  import opened Bytes
  import opened Messages
  import opened Contract
  import opened Ledger
  import opened Chain
  import opened ChainProperties
  import opened Payout
  import opened OffChain
  import opened StoredStates

  /** Both sides hold what a closing costs. */
  predicate Closable(e: OffState) {
    e.alice >= 1000 && e.bob >= 1000
  }

  /** These are exactly the states whose payout can pay both parties: the contract pays nothing that does not cover the
      fee of either inner payment. */
  lemma ClosableIsPayable(x: Ctx, g: Globals, e: OffState)
    requires WellTyped(g) && Num(g, LatestAlice) == e.alice && Num(g, LatestBob) == e.bob
    requires Payable(x, Alice(g)) && Payable(x, Bob(g))
    ensures Closable(e) <==> PayOut(x, g).Approved?
  {
    hide Payable, WellTyped;
  }

  /** The terms under which a node closes with its latest state. */
  function CloseTerms(info: Info, latest: OffState): Terms {
    TermsOf(info.app, latest.alice, latest.bob, latest.timestamp)
  }

  /** The answer to a close request: the peer's own signature, if the requester signed the same terms. */
  function AnswerClose(c: Crypto, me: Bytes, info: Info, latest: OffState, from: Bytes, sig: Bytes): Response {
    if Verify(c, CloseChannel, CloseTerms(info, latest), sig, from) then
      Approve(Sign(c, me, CloseChannel, CloseTerms(info, latest)))
    else Refuse
  }

  /** An honest peer approves an honest requester exactly when their latest states agree on the application, both
      balances and the time, whatever got lost before. */
  lemma ApprovedMeansAgreed(
      c: Crypto, me: Bytes, mine: Info, latest: OffState, peer: Bytes, theirs: Info, other: OffState)
    requires me != peer && Ideal(c, {me, peer}) && Injective(c)
    ensures AnswerClose(c, peer, theirs, other, me, Sign(c, me, CloseChannel, CloseTerms(mine, latest))).Approve?
       <==> mine.app == theirs.app && latest.alice == other.alice && latest.bob == other.bob
            && latest.timestamp == other.timestamp
  {
    hide Verify, Sign;
    var t, u := CloseTerms(theirs, other), CloseTerms(mine, latest);
    VerifiesTerms(c, {me, peer}, me, me, CloseChannel, CloseChannel, t, u);
  }

  /** The state a requester submits: each close signature in its party's place. */
  function CloseState(me: Bytes, info: Info, latest: OffState, mySig: Bytes, partnerSig: Bytes): OffState {
    if info.alice == me then latest.(aliceSig := mySig, bobSig := partnerSig)
    else latest.(aliceSig := partnerSig, bobSig := mySig)
  }

  /** After an approved request both close signatures are right, whichever side asked. */
  lemma CloseStateReady(c: Crypto, me: Bytes, peer: Bytes, info: Info, latest: OffState, partnerSig: Bytes)
    requires me != peer && {me, peer} == {info.alice, info.bob} && Ideal(c, {me, peer})
    requires Verify(c, CloseChannel, CloseTerms(info, latest), partnerSig, peer)
    ensures var mySig := Sign(c, me, CloseChannel, CloseTerms(info, latest));
            Ready(c, info, CloseState(me, info, latest, mySig, partnerSig), CloseChannel)
  {
    hide Verify, Sign;
    var t := CloseTerms(info, latest);
    VerifiesOwn(c, {me, peer}, me, CloseChannel, t);
    assert me in {info.alice, info.bob} && peer in {info.alice, info.bob};
  }

  /** The cooperative close a node sends for an agreed state of at least 1000 on either side: with the deposit in escrow
      and the channel not closing, it succeeds, both parties receive their balance less one fee, and nothing remains. */
  lemma ClosePaysOut(w: World, c: Chain, x: Ctx, info: Info, e: OffState)
    requires ValidCtx(x) && x.groupIndex == 0 && x.onCompletion == NoOp && x.args == Packed(CooperativeCall, e)
    requires SameChannel(At(w, c, x), c.globals, info) && FromParty(x, c.globals) && Num(c.globals, Timeout) == 0
    requires Ready(w.crypto, info, e, CloseChannel) && ThreeAccounts(w, c.globals)
    requires e.alice + e.bob == Num(c.globals, TotalDeposit) && e.alice >= 1000 && e.bob >= 1000
    requires {info.alice, info.bob} <= x.accounts + {x.sender}
    requires Balance(c.ledger, x.sender) >= MIN_TXN_FEE && Balance(c.ledger, w.escrow) == Num(c.globals, TotalDeposit)
    requires x.sender != w.escrow
    ensures LedgerAtCall(w, c, x).Some? && Result(w, c, x).Some?
    ensures var l, l1 := LedgerAtCall(w, c, x).value, Result(w, c, x).value.ledger;
            && Balance(l1, info.alice) == Balance(l, info.alice) + e.alice - MIN_TXN_FEE
            && Balance(l1, info.bob) == Balance(l, info.bob) + e.bob - MIN_TXN_FEE
            && Balance(l1, w.escrow) == 0
  {
    hide WellTyped, Ready, Packed, SplitHolds, SplitComputes, MethodName, Settle, Cooperative;
    var y := At(w, c, x);
    CooperativePays(y, c.globals, info, e);
    CooperativeNamed(x, e);
    CooperativeFrame(y, c.globals);
    assert x.group[..0] == [];
    var l := LedgerAtCall(w, c, x).value;
    CooperativeIsPayOut(y, c.globals);
    PayoutAmounts(l, w.escrow, y, Cooperative(y, c.globals).globals);
  }

  lemma CooperativeNamed(x: Ctx, e: OffState)
    requires x.args == Packed(CooperativeCall, e)
    ensures MethodOf(x) == Some(CooperativeCall)
  {
    hide MethodName;
    MethodNamesDistinct();
  }

  lemma CooperativeIsPayOut(x: Ctx, g: Globals)
    requires ValidCtx(x) && WellTyped(g) && Cooperative(x, g).Approved? && Cooperative(x, g).payouts != []
    ensures WellTyped(Cooperative(x, g).globals) && SameTerms(g, Cooperative(x, g).globals)
    ensures PayOut(x, Cooperative(x, g).globals) == Cooperative(x, g)
    ensures Num(Cooperative(x, g).globals, LatestAlice) == Uint(x.args[2])
    ensures Num(Cooperative(x, g).globals, LatestBob) == Uint(x.args[3])
  {
    hide SplitHolds, SignatureShape, Ascii, Payable;
    CooperativeFrame(x, g);
  }
}
