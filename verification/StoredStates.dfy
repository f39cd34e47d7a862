/** What the stored states of a node are worth on the chain. */
module StoredStates {
  import opened Bytes
  import opened Messages
  import opened Contract
  import opened Ledger
  import opened OffChain
  import Chain

  /** The arguments of a closing call for a stored state. */
  function Packed(m: Method, e: OffState): seq<Bytes> {
    [MethodName(m), Itob(PORT), Itob(e.alice), Itob(e.bob), Itob(ToU64(e.timestamp)), e.aliceSig, e.bobSig]
  }

  /** The contract's state belongs to the channel the node knows. */
  ghost predicate SameChannel(x: Ctx, g: Globals, info: Info) {
    && WellTyped(g) && Alice(g) == info.alice && Bob(g) == info.bob && x.app == info.app
  }

  /** Both signatures of the state are right for the message of this kind, each in its own place. */
  predicate Ready(c: Crypto, info: Info, e: OffState, kind: Kind) {
    var t := TermsOf(info.app, e.alice, e.bob, e.timestamp);
    Verify(c, kind, t, e.aliceSig, info.alice) && Verify(c, kind, t, e.bobSig, info.bob)
  }

  /** From the packed arguments the contract rebuilds exactly the bytes the nodes signed. */
  lemma PackedRebuilds(x: Ctx, info: Info, e: OffState, m: Method, kind: Kind)
    requires x.args == Packed(m, e) && x.app == info.app
    ensures SignedMessage(x, kind) == Encode(kind, TermsOf(info.app, e.alice, e.bob, e.timestamp))
    ensures IsUint(x.args[2]) && IsUint(x.args[3]) && IsUint(x.args[4])
    ensures Uint(x.args[2]) == e.alice && Uint(x.args[3]) == e.bob && Uint(x.args[4]) == ToU64(e.timestamp)
  {
    BtoiItob(e.alice);
    BtoiItob(e.bob);
    BtoiItob(ToU64(e.timestamp));
  }

  /** The contract takes a packed state's split exactly when both signatures are right and it splits the deposit. */
  lemma PackedSplit(x: Ctx, g: Globals, info: Info, e: OffState, m: Method, kind: Kind)
    requires SameChannel(x, g, info) && x.args == Packed(m, e)
    ensures SplitComputes(x, g) && SplitHolds(x, g, kind)
       <==> Ready(x.crypto, info, e, kind) && e.alice + e.bob == Num(g, TotalDeposit)
  {
    hide WellTyped, SignedMessage, Encode, TermsOf, Packed;
    PackedArgs(x, e, m);
    PackedRebuilds(x, info, e, m, kind);
  }

  lemma PackedArgs(x: Ctx, e: OffState, m: Method)
    requires x.args == Packed(m, e)
    ensures |x.args| == 7 && x.args[5] == e.aliceSig && x.args[6] == e.bobSig
  {
  }

  /** Every state the receiver stores is ready for the chain. */
  lemma ReceivedReady(c: Crypto, me: Bytes, info: Info, last: OffState, r: PayRequest)
    requires Acceptable(c, me, info, last, r) && info.alice != info.bob
    requires (me == info.alice && r.from == info.bob) || (me == info.bob && r.from == info.alice)
    requires Signs(c, me, StateUpdate)
    ensures Ready(c, info, Received(c, me, info, r), StateUpdate)
  {
    hide Verify, Sign, TermsOf, Beneficial, Signs;
    SignVerify(c, me, StateUpdate);
  }

  /** The state a payer stores is ready for the chain exactly when the payer is Alice: Bob's own signature goes in
      Alice's place. */
  lemma KeptReady(c: Crypto, me: Bytes, info: Info, last: OffState, amount: u64, now: i64, partnerSig: Bytes)
    requires info.alice != info.bob && me in {info.alice, info.bob}
    requires Signs(c, me, StateUpdate)
    requires me != info.alice ==> NeverFor(c, me, StateUpdate, StateUpdate, info.alice)
    requires var r := Proposal(c, me, info, last, amount, now);
             Verify(c, StateUpdate, TermsOf(info.app, r.alice, r.bob, now), partnerSig,
                    if me == info.alice then info.bob else info.alice)
    ensures Ready(c, info, Kept(info, Proposal(c, me, info, last, amount, now), partnerSig), StateUpdate)
       <==> me == info.alice
  {
    hide Verify, Sign, TermsOf, WrapU, Signs, NeverFor;
    TimestampCast(now);
    SignVerify(c, me, StateUpdate);
    if me != info.alice {
      SignNeverVerifies(c, me, StateUpdate, StateUpdate, info.alice);
    }
  }

  /** The state is ready, splits the deposit, and the end of the dispute window is a uint64. */
  ghost predicate Startable(x: Ctx, g: Globals, info: Info, e: OffState)
    requires WellTyped(g)
  {
    && Ready(x.crypto, info, e, StateUpdate) && e.alice + e.bob == Num(g, TotalDeposit)
    && x.round + Num(g, DisputeWindow) < U64_LIMIT
  }

  /** The global state shows the state as the one to be closed with. */
  ghost predicate TakenOver(g: Globals, e: OffState, timeout: nat, initiator: Bytes) {
    && WellTyped(g) && Num(g, LatestAlice) == e.alice && Num(g, LatestBob) == e.bob
    && Num(g, LatestTimestamp) == ToU64(e.timestamp) && Num(g, Timeout) == timeout
    && Read(g, ClosingInitiator) == B(initiator)
  }

  /** With a stored state that is ready and splits the deposit, an initiation by either party takes effect whenever the
      deadline is a uint64; otherwise the call changes nothing. */
  lemma InitiationTakes(x: Ctx, g: Globals, info: Info, e: OffState)
    requires ValidCtx(x) && SameChannel(x, g, info) && FromParty(x, g) && x.args == Packed(InitiateCall, e)
    ensures Startable(x, g, info, e) ==>
              && Initiate(x, g).Approved? && Initiate(x, g).payouts == []
              && TakenOver(Initiate(x, g).globals, e, x.round + Num(g, DisputeWindow),
                           Ascii(if x.sender == info.alice then "alice" else "bob"))
    ensures !Startable(x, g, info, e) ==> Initiate(x, g) in {Rejected, Approved(g, [])}
  {
    hide Packed, Ready, SplitHolds, SplitComputes, WellTyped, Ascii;
    if Initiate(x, g).Approved? {
      Chain.InitiateFrame(x, g);
    }
    PackedArgs(x, e, InitiateCall);
    PackedSplit(x, g, info, e, InitiateCall, StateUpdate);
    PackedRebuilds(x, info, e, InitiateCall, StateUpdate);
  }

  /** The penalty a dispute takes from the initiator's side of the state. */
  ghost predicate Penalisable(g: Globals, e: OffState)
    requires WellTyped(g)
  {
    && ClosingInitiator in g
    && Num(g, PenaltyReserve) <= if g[ClosingInitiator] == B(Ascii("alice")) then e.alice else e.bob
  }

  /** A dispute with a stored state changes the global state exactly when both signatures are right for the kind of
      message the contract checks, the state splits the deposit and is newer, and the initiator can pay the penalty. */
  lemma DisputeTakes(x: Ctx, g: Globals, info: Info, e: OffState, kind: Kind)
    requires ValidCtx(x) && SameChannel(x, g, info) && x.args == Packed(DisputeCall, e)
    ensures (Dispute(x, g, kind).Approved? && Dispute(x, g, kind).globals != g)
       <==> && Ready(x.crypto, info, e, kind) && e.alice + e.bob == Num(g, TotalDeposit)
            && Num(g, LatestTimestamp) < ToU64(e.timestamp) && Penalisable(g, e)
  {
    hide Packed, Ready, SplitHolds, SplitComputes, Ascii, WellTyped;
    PackedArgs(x, e, DisputeCall);
    PackedSplit(x, g, info, e, DisputeCall, kind);
    PackedRebuilds(x, info, e, DisputeCall, kind);
    WithSplitReads(x, g);
  }

  /** The compiled program checks disputes as close messages. A stored state carries state signatures, so unless one of
      them also signs the close message, submitting it as a dispute never changes the global state. */
  lemma CompiledDisputeIgnored(x: Ctx, g: Globals, info: Info, e: OffState)
    requires ValidCtx(x) && SameChannel(x, g, info) && x.args == Packed(DisputeCall, e)
    requires !Verify(x.crypto, CloseChannel, TermsOf(info.app, e.alice, e.bob, e.timestamp), e.aliceSig, info.alice)
          || !Verify(x.crypto, CloseChannel, TermsOf(info.app, e.alice, e.bob, e.timestamp), e.bobSig, info.bob)
    ensures Dispute(x, g, CloseChannel) in {Rejected, Approved(g, [])}
  {
    hide Verify, TermsOf, WellTyped, Packed, Ascii;
    DisputeTakes(x, g, info, e, CloseChannel);
    DisputePaysNothing(x, g, CloseChannel);
  }

  lemma DisputePaysNothing(x: Ctx, g: Globals, kind: Kind)
    requires WellTyped(g)
    ensures Dispute(x, g, kind).Approved? ==> Dispute(x, g, kind).payouts == []
  {
    hide SplitHolds, SignatureShape, Ascii, WellTyped;
    if SplitComputes(x, g) && IsUint(x.args[4]) {
      WithSplitReads(x, g);
    }
  }

  /** A cooperative close for a state with both close signatures, at least the fee on either side and a split of the
      deposit passes every check while the channel is not closing, and pays both parties their balance less the fee. */
  lemma CooperativePays(x: Ctx, g: Globals, info: Info, e: OffState)
    requires ValidCtx(x) && SameChannel(x, g, info) && FromParty(x, g) && Num(g, Timeout) == 0
    requires x.args == Packed(CooperativeCall, e) && Ready(x.crypto, info, e, CloseChannel)
    requires e.alice + e.bob == Num(g, TotalDeposit) && e.alice >= 1000 && e.bob >= 1000
    requires {info.alice, info.bob} <= x.accounts + {x.sender}
    ensures Cooperative(x, g).Approved?
    ensures Cooperative(x, g).payouts == [Payment(e.bob - MIN_TXN_FEE, info.bob, None),
                                          Payment(e.alice - MIN_TXN_FEE, info.alice, Some(info.alice))]
  {
    hide Packed, SplitHolds, Ascii;
    PackedArgs(x, e, CooperativeCall);
    PackedSplit(x, g, info, e, CooperativeCall, CloseChannel);
    PackedRebuilds(x, info, e, CooperativeCall, CloseChannel);
  }
}
