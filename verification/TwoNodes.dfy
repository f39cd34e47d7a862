/** Two nodes running the protocols between them: what their objects do is what the pair of logs does. */
module TwoNodes {
  import opened Bytes
  import opened Messages
  import opened Contract
  import opened OffChain
  import opened StoredStates
  import opened CooperativeClose
  import opened PairLedger
  import opened LossyPair
  import opened Operation
  import opened GlobalState
  import opened Nodes

  /** Both nodes know the channel between them in the same way. */
  ghost predicate Paired(a: Node, b: Node, info: Info)
    reads a, b
  {
    && a != b && a.crypto == b.crypto
    && info.alice != info.bob && {a.account, b.account} == {info.alice, info.bob}
    && b.account in a.channels && a.channels[b.account] == info && b.account in a.logs
    && a.account in b.channels && b.channels[a.account] == info && a.account in b.logs
    && AllFiled(a.logs) && AllFiled(b.logs)
  }

  /** Alice's log of the channel and Bob's. */
  ghost function LogsOf(a: Node, b: Node, info: Info): Pair
    requires Paired(a, b, info)
    reads a, b
  {
    if a.account == info.alice then Pair(a.logs[b.account], b.logs[a.account])
    else Pair(b.logs[a.account], a.logs[b.account])
  }

  /** The log is empty or ends before this time. */
  ghost predicate EndsBefore(log: Log, now: i64) {
    now > 0 && forall t | t in log :: t < now
  }

  lemma OpensLatest(log: Log, e: OffState)
    requires Filed(log) && EndsBefore(log, e.timestamp)
    ensures Filed(log[e.timestamp := e]) && Latest(log[e.timestamp := e]) == Some(e)
  {
    assert IsLatest(log[e.timestamp := e], e.timestamp);
  }

  /** Opening a channel for an application that was created and funded for these two nodes: when Bob's node accepts
      it, both nodes know the channel alike and agree on its opening balances; otherwise neither changes. */
  method OpenTogether(
    alice: Node, bob: Node, app: u64, entries: seq<Entry>, ghost g: Globals, programsEqual: bool,
    funding: u64, penalty: u64, window: u64, aliceNow: i64, bobNow: i64) returns (accepted: bool)
    requires alice != bob && alice.crypto == bob.crypto && alice.account != bob.account
    requires |alice.account| == 32 && |bob.account| == 32 && AllFiled(alice.logs) && AllFiled(bob.logs)
    requires Lists(entries, g) && WellTyped(g) && forall e | e in entries :: e.value.B? ==> |e.value.bytes| == 32
    requires InfoOf(app, g) == Info(app, alice.account, bob.account, funding, 0, funding, penalty, window)
    requires penalty < I64_LIMIT && window < I64_LIMIT
    requires EndsBefore(LogOf(alice.logs, bob.account), aliceNow) && EndsBefore(LogOf(bob.logs, alice.account), bobNow)
    modifies alice`channels, alice`logs, bob`channels, bob`logs
    ensures accepted <==> programsEqual && 2 <= window <= 10_000 && 100 <= penalty <= 100_000_000
    ensures accepted ==>
              var info := InfoOf(app, g);
              && Paired(alice, bob, info)
              && Agree(LogsOf(alice, bob, info), Split(funding, 0), Later(aliceNow, bobNow))
              && (bob.account !in old(alice.logs) && alice.account !in old(bob.logs)
                  ==> LogsOf(alice, bob, info) == Opened(info, aliceNow, bobNow))
    ensures !accepted ==>
              && alice.channels == old(alice.channels) && alice.logs == old(alice.logs)
              && bob.channels == old(bob.channels) && bob.logs == old(bob.logs)
  {
    hide WellTyped, Lists, Latest, Filed;
    ghost var info := InfoOf(app, g);
    accepted := bob.DoOpenChannelSecurityChecks(programsEqual, entries, g);
    if accepted {
      OpensLatest(LogOf(bob.logs, alice.account), OpeningState(info, bobNow));
      bob.SavePaymentChannelOnChainState(app, entries, g, bobNow);
    }
    OpensLatest(LogOf(alice.logs, bob.account), OpeningState(info, aliceNow));
    alice.OpenChannel(bob.account, app, funding, penalty, window, accepted, aliceNow);
  }

  /** A payment with nothing lost: it is paid exactly when it completes on the pair of logs, and leaves that pair of
      logs; a refused one leaves both logs alone. */
  method Exchange(payer: Node, payee: Node, ghost info: Info, amount: u64, now: i64) returns (paid: bool)
    requires Paired(payer, payee, info)
    requires Signs(payer.crypto, payer.account, StateUpdate) && Signs(payer.crypto, payee.account, StateUpdate)
    modifies payer`logs, payee`logs, payer`signed, payee`signed
    ensures Paired(payer, payee, info)
    ensures var p := ChannelPayment(payer.account == info.alice, amount, now);
            Complete(payer.crypto, info, old(LogsOf(payer, payee, info)), p)
            == if paid then Some(LogsOf(payer, payee, info)) else None
    ensures !paid ==> LogsOf(payer, payee, info) == old(LogsOf(payer, payee, info))
  {
    hide Verify, Sign, Latest, Filed, Proposal, Beneficial, Signs;
    SignVerify(payee.crypto, payee.account, StateUpdate);
    ghost var p := ChannelPayment(payer.account == info.alice, amount, now);
    var proposal := payer.ProposePayment(payee.account, amount, now);
    if proposal.None? {
      return false;
    }
    var r := proposal.value;
    ProposalFields(payer.crypto, payer.account, info, Latest(payer.logs[payee.account]).value, amount, now);
    TimestampCast(now);
    var known := payer.channels[payee.account];
    var answer := payee.HandlePayRequest(r);
    paid := payer.KeepPayment(payee.account, known, r, now, answer);
  }

  lemma ProposalFields(c: Crypto, me: Bytes, info: Info, last: OffState, amount: u64, now: i64)
    ensures Proposal(c, me, info, last, amount, now).from == me
    ensures Proposal(c, me, info, last, amount, now).timestamp == ToU64(now)
  {
  }

  /** A payment whose messages may be lost leaves the pair of logs that the attempt leaves. */
  method Attempt(payer: Node, payee: Node, ghost info: Info, amount: u64, now: i64, fate: Fate) returns (paid: bool)
    requires Paired(payer, payee, info)
    modifies payer`logs, payee`logs, payer`signed, payee`signed
    ensures Paired(payer, payee, info)
    ensures var a := LossyPair.Attempt.Attempt(ChannelPayment(payer.account == info.alice, amount, now), fate);
            LogsOf(payer, payee, info) == Attempted(payer.crypto, info, old(LogsOf(payer, payee, info)), a)
  {
    hide Verify, Sign, Latest, Filed, Proposal, Beneficial;
    var proposal := payer.ProposePayment(payee.account, amount, now);
    if proposal.None? {
      return false;
    }
    var r := proposal.value;
    ProposalFields(payer.crypto, payer.account, info, Latest(payer.logs[payee.account]).value, amount, now);
    TimestampCast(now);
    var known := payer.channels[payee.account];
    var answer := Lost;
    if fate != RequestLost {
      answer := payee.HandlePayRequest(r);
      if fate == AnswerLost {
        answer := Lost;
      }
    }
    paid := payer.KeepPayment(payee.account, known, r, now, answer);
  }

  /** A cooperative close with nothing lost: the requester submits one exactly when both nodes' latest states agree
      and are closable, and what it submits carries both close signatures, each in its place. */
  method CloseTogether(requester: Node, peer: Node, ghost info: Info) returns (call: Option<AppCall>)
    requires Paired(requester, peer, info) && Ideal(requester.crypto, {requester.account, peer.account})
    requires Injective(requester.crypto)
    modifies requester`channels, requester`signed, peer`signed
    ensures call.Some? <==>
              var mine, theirs := Latest(requester.logs[peer.account]), Latest(peer.logs[requester.account]);
              && mine.Some? && theirs.Some? && Closable(mine.value)
              && mine.value.alice == theirs.value.alice && mine.value.bob == theirs.value.bob
              && mine.value.timestamp == theirs.value.timestamp
    ensures call.Some? ==> exists e ::
              && call.value == ClosingCall(CooperativeCall, info.app, e, {requester.account, peer.account},
                                           requester.account)
              && Ready(requester.crypto, info, e, CloseChannel)
              && Latest(requester.logs[peer.account]) == Some(e.(
                   aliceSig := Latest(requester.logs[peer.account]).value.aliceSig,
                   bobSig := Latest(requester.logs[peer.account]).value.bobSig))
    ensures requester.channels == old(requester.channels) - if call.Some? then {peer.account} else {}
  {
    hide Verify, Sign, Latest, Filed, Packed, Ideal, Injective;
    var proposal := requester.ProposeClose(peer.account);
    if proposal.None? {
      return None;
    }
    var (e, sig) := proposal.value;
    var known := requester.channels[peer.account];
    var answer := peer.HandleCloseRequest(requester.account, sig);
    ghost var theirs := Latest(peer.logs[requester.account]);
    if theirs.Some? {
      ApprovedMeansAgreed(requester.crypto, requester.account, info, e, peer.account, info, theirs.value);
    }
    VerifiesOwn(requester.crypto, {requester.account, peer.account}, peer.account, CloseChannel, CloseTerms(info, e));
    call := requester.SubmitClose(peer.account, known, e, sig, answer);
    if call.Some? {
      CloseStateReady(requester.crypto, requester.account, peer.account, info, e, answer.signature);
      ghost var submitted := CloseState(requester.account, info, e, sig, answer.signature);
      assert Ready(requester.crypto, info, submitted, CloseChannel);
    }
  }
}
