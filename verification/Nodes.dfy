/** A node: the channels and logs it keeps, and the requests and commands that change them. */
module Nodes {
  import opened Bytes
  import opened Messages
  import opened Contract
  import opened OffChain
  import opened StoredStates
  import opened CooperativeClose
  import opened PairLedger
  import opened Operation
  import opened GlobalState

  // ----- searching a log -----

  /** `getLatestOffChainState`: a Go map is walked in an arbitrary order. */
  method GetLatestOffChainState(log: Log) returns (latest: Option<OffState>)
    ensures latest == Latest(log)
  {
    hide Latest;
    var latestTimestamp: i64 := 0;
    latest := None;
    var rest := log.Keys;
    while rest != {}
      invariant rest <= log.Keys && latestTimestamp >= 0
      invariant if latestTimestamp == 0 then latest == None
                else latestTimestamp in log && latest == Some(log[latestTimestamp])
      invariant forall t | t in log && t !in rest :: t <= latestTimestamp
      decreases |rest|
    {
      var timestamp :| timestamp in rest;
      rest := rest - {timestamp};
      if timestamp > latestTimestamp {
        latestTimestamp := timestamp;
        latest := Some(log[timestamp]);
      }
    }
    if latest.Some? {
      assert IsLatest(log, latestTimestamp);
    }
  }

  /** `getHighestBalanceOffChainState`: a state of the log with the greatest positive balance, Alice's or Bob's. */
  method GetHighestBalanceOffChainState(isAlice: bool, log: Log) returns (highest: Option<OffState>)
    ensures highest.Some? ==> exists t :: t in log && log[t] == highest.value
    ensures isAlice ==>
              && (highest.None? <==> forall t | t in log :: log[t].alice == 0)
              && (highest.Some? ==>
                    highest.value.alice > 0 && forall t | t in log :: log[t].alice <= highest.value.alice)
    ensures !isAlice ==>
              && (highest.None? <==> forall t | t in log :: log[t].bob == 0)
              && (highest.Some? ==>
                    highest.value.bob > 0 && forall t | t in log :: log[t].bob <= highest.value.bob)
  {
    var highestBalance: u64 := 0;
    highest := None;
    var rest := log.Keys;
    while rest != {}
      invariant rest <= log.Keys
      invariant if highestBalance == 0 then highest == None
                else highest.Some? && highestBalance == (if isAlice then highest.value.alice else highest.value.bob)
                     && exists t :: t in log && log[t] == highest.value
      invariant forall t | t in log && t !in rest ::
                  (if isAlice then log[t].alice else log[t].bob) <= highestBalance
      decreases |rest|
    {
      var timestamp :| timestamp in rest;
      rest := rest - {timestamp};
      var balance := if isAlice then log[timestamp].alice else log[timestamp].bob;
      if balance > highestBalance {
        highestBalance := balance;
        highest := Some(log[timestamp]);
      }
    }
  }

  // ----- the node -----

  type Channels = map<Bytes, Info>
  type Logs = map<Bytes, Log>

  /** The node has a channel with the partner, and its log has a latest state. */
  ghost predicate Open(channels: Channels, logs: Logs, partner: Bytes) {
    partner in channels && partner in logs && Latest(logs[partner]).Some?
  }

  function LogOf(logs: Logs, partner: Bytes): Log {
    if partner in logs then logs[partner] else map[]
  }

  /** The logs with one more state in the partner's. */
  function Logged(logs: Logs, partner: Bytes, e: OffState): Logs {
    logs[partner := LogOf(logs, partner)[e.timestamp := e]]
  }

  /** Every log files its states under their own times. */
  ghost predicate AllFiled(logs: Logs) {
    forall p | p in logs :: Filed(logs[p])
  }

  lemma LoggedFiled(logs: Logs, partner: Bytes, e: OffState)
    requires AllFiled(logs)
    ensures AllFiled(Logged(logs, partner, e))
  {
  }

  lemma NoLatest()
    ensures Latest(map[]).None?
  {
  }

  /** What an accepted request leaves in its log, and what any other leaves. */
  lemma LoggedReceives(c: Crypto, me: Bytes, info: Info, logs: Logs, r: PayRequest)
    requires AllFiled(logs)
    ensures var e, log := Received(c, me, info, r), LogOf(logs, r.from);
            var log1 := Logged(logs, r.from, e);
            if Latest(log).Some? && Acceptable(c, me, info, Latest(log).value, r) then
              && r.from in log1 && LogOf(log1, r.from) == ReceiveOne(c, me, info, log, r)
              && Latest(log1[r.from]) == Some(e)
            else log == ReceiveOne(c, me, info, log, r)
  {
    hide Latest, Acceptable, Sign;
    NoLatest();
    if r.from in logs && Latest(logs[r.from]).Some? && Acceptable(c, me, info, Latest(logs[r.from]).value, r) {
      AcceptedIsLatest(c, me, info, logs[r.from], r);
    }
  }

  class Node {
    const crypto: Crypto
    const account: Bytes
    var channels: Channels
    var logs: Logs
    ghost var signed: set<(Kind, Terms)> // everything it ever put its signature under

    constructor (crypto: Crypto, account: Bytes)
      ensures this.crypto == crypto && this.account == account
      ensures channels == map[] && logs == map[] && signed == {} && AllFiled(logs)
    {
      this.crypto := crypto;
      this.account := account;
      channels := map[];
      logs := map[];
      signed := {};
    }

    /** Adds a state to the partner's log, creating the log when there is none. */
    method SaveState(partner: Bytes, e: OffState)
      requires AllFiled(logs)
      modifies this`logs
      ensures logs == Logged(old(logs), partner, e) && AllFiled(logs)
    {
      LoggedFiled(logs, partner, e);
      if partner !in logs {
        logs := logs[partner := map[]];
      }
      var log: Log := logs[partner];
      log := log[e.timestamp := e];
      logs := logs[partner := log];
    }

    // ----- opening -----

    /** The checks of an opening request; the programs were compared before. */
    method DoOpenChannelSecurityChecks(programsEqual: bool, entries: seq<Entry>, ghost g: Globals) returns (valid: bool)
      requires Lists(entries, g) && WellTyped(g) && |Bob(g)| == 32
      requires Num(g, DisputeWindow) < I64_LIMIT && Num(g, PenaltyReserve) < I64_LIMIT
      ensures valid <==> && programsEqual && Bob(g) == account
                         && 2 <= Num(g, DisputeWindow) <= 10_000 && 100 <= Num(g, PenaltyReserve) <= 100_000_000
    {
      hide FormatUint, ParseUint;
      if !programsEqual {
        return false;
      }
      var bobAddress := ReadKey(entries, g, BobAddress);
      if bobAddress.None? || bobAddress.value.bytes != account {
        return false;
      }
      var window := ReadKey(entries, g, DisputeWindow);
      ParseFormat(Num(g, DisputeWindow));
      if window.None? {
        return false;
      }
      var disputeWindow := ParseUint(window.value.digits);
      if !(disputeWindow.value >= 2 && disputeWindow.value <= 10_000) {
        return false;
      }
      var penalty := ReadKey(entries, g, PenaltyReserve);
      ParseFormat(Num(g, PenaltyReserve));
      if penalty.None? {
        return false;
      }
      var penaltyReserve := ParseUint(penalty.value.digits);
      return penaltyReserve.value >= 100 && penaltyReserve.value <= 100_000_000;
    }

    /** Bob's side remembers the application and opens the log, whatever the order of the listing. */
    method SavePaymentChannelOnChainState(app: u64, entries: seq<Entry>, ghost g: Globals, now: i64)
      requires Lists(entries, g) && WellTyped(g) && AllFiled(logs)
      requires forall e | e in entries :: e.value.B? ==> |e.value.bytes| == 32
      modifies this`channels, this`logs
      ensures channels == old(channels)[Alice(g) := InfoOf(app, g)]
      ensures var info := channels[Alice(g)];
              && info.app == app && info.alice == Alice(g) && info.bob == Bob(g)
              && info.aliceOnChain == Num(g, LatestAlice) && info.bobOnChain == Num(g, LatestBob)
              && info.deposit == Num(g, TotalDeposit)
              && info.penalty == Num(g, PenaltyReserve) && info.window == Num(g, DisputeWindow)
      ensures logs == Logged(old(logs), Alice(g), OpeningState(InfoOf(app, g), now)) && AllFiled(logs)
    {
      hide WellTyped, Lists, LastNum, LastBytes;
      CollectedIsListed(app, entries, g);
      var info := CollectInfo(app, entries);
      channels := channels[info.alice := info];
      var state := OffState(now, info.aliceOnChain, info.bobOnChain, [], [], PORT, info.app);
      SaveState(info.alice, state);
    }

    /** Alice's side does the same once the partner approves. */
    method OpenChannel(partner: Bytes, app: u64, funding: u64, penalty: u64, window: u64, approved: bool, now: i64)
      requires AllFiled(logs)
      modifies this`channels, this`logs
      ensures var info := Info(app, account, partner, funding, 0, funding, penalty, window);
              && channels == (if approved then old(channels)[partner := info] else old(channels))
              && logs == if approved then Logged(old(logs), partner, OpeningState(info, now)) else old(logs)
      ensures AllFiled(logs)
    {
      if !approved {
        return;
      }
      var info := Info(app, account, partner, funding, 0, funding, penalty, window);
      channels := channels[partner := info];
      var state := OffState(now, info.aliceOnChain, info.bobOnChain, [], [], PORT, info.app);
      SaveState(partner, state);
    }

    // ----- paying -----

    /** The node has an open channel with the payer and accepts the request. */
    ghost predicate Accepts(r: PayRequest)
      reads this
    {
      Open(channels, logs, r.from) && Acceptable(crypto, account, channels[r.from], Latest(logs[r.from]).value, r)
    }

    /** `pay_request`: an accepted request is signed and becomes the latest state; any other changes nothing. */
    method HandlePayRequest(r: PayRequest) returns (answer: Response)
      requires AllFiled(logs)
      modifies this`logs, this`signed
      ensures AllFiled(logs)
      ensures answer.Approve? <==> old(Accepts(r))
      ensures !answer.Approve? ==> answer.Refuse? && logs == old(logs) && signed == old(signed)
      ensures answer.Approve? ==>
                var info, e := channels[r.from], Received(crypto, account, channels[r.from], r);
                && answer.signature
                   == Sign(crypto, account, StateUpdate, TermsOf(info.app, r.alice, r.bob, e.timestamp))
                && logs == Logged(old(logs), r.from, e)
                && Latest(logs[r.from]) == Some(e)
                && signed == old(signed) + {(StateUpdate, TermsOf(info.app, r.alice, r.bob, e.timestamp))}
      ensures r.from in channels ==>
                LogOf(logs, r.from) == ReceiveOne(crypto, account, channels[r.from], LogOf(old(logs), r.from), r)
    {
      hide Latest, Verify, Sign, WrapU, WrapI, AllFiled, Logged, ReceiveOne, Encode;
      if r.from in channels {
        LoggedReceives(crypto, account, channels[r.from], logs, r);
      }
      if r.from !in channels {
        return Refuse;
      }
      var info := channels[r.from];
      var meAlice := info.alice == account;
      if r.from !in logs {
        return Refuse;
      }
      var latest := GetLatestOffChainState(logs[r.from]);
      if latest.None? {
        return Refuse;
      }
      var last := latest.value;
      var lastMine, lastOther, newMine, newOther;
      if meAlice {
        lastMine, lastOther, newMine, newOther := last.alice, last.bob, r.alice, r.bob;
      } else {
        lastMine, lastOther, newMine, newOther := last.bob, last.alice, r.bob, r.alice;
      }
      var newTimestamp := ToI64(r.timestamp);
      var otherDiff := WrapI(ToI64(lastOther) - ToI64(newOther));
      var myDiff := WrapI(ToI64(lastMine) - ToI64(newMine));
      if !(otherDiff > 0
           && myDiff == WrapI(-1 * otherDiff)
           && newOther >= info.penalty
           && last.timestamp < newTimestamp) {
        return Refuse;
      }
      var correct := VerifyState(crypto, info.app, r.alice, r.bob, 4161, r.signature, r.from, newTimestamp);
      if !correct {
        return Refuse;
      }
      var mySignature := SignState(crypto, account, info.app, r.alice, r.bob, 4161, newTimestamp);
      signed := signed + {(StateUpdate, TermsOf(info.app, r.alice, r.bob, newTimestamp))};
      var aliceSignature, bobSignature;
      if meAlice {
        aliceSignature, bobSignature := mySignature, r.signature;
      } else {
        aliceSignature, bobSignature := r.signature, mySignature;
      }
      var state := OffState(newTimestamp, r.alice, r.bob, aliceSignature, bobSignature, 4161, info.app);
      SaveState(r.from, state);
      return Approve(mySignature);
    }

    /** The first half of `Pay`: the request that goes to the partner. */
    method ProposePayment(partner: Bytes, amount: u64, now: i64) returns (r: Option<PayRequest>)
      modifies this`signed
      ensures r == if Open(channels, logs, partner) then
                     Some(Proposal(crypto, account, channels[partner], Latest(logs[partner]).value, amount, now))
                   else None
      ensures signed == old(signed) + if r.None? then {} else
                          {(StateUpdate, TermsOf(channels[partner].app, r.value.alice, r.value.bob, now))}
    {
      hide Latest, Sign, WrapU;
      if partner !in channels || partner !in logs {
        return None;
      }
      var info := channels[partner];
      var latest := GetLatestOffChainState(logs[partner]);
      if latest.None? {
        return None;
      }
      var meAlice := info.alice == account;
      var myBalance, otherBalance;
      if meAlice {
        myBalance, otherBalance := latest.value.alice, latest.value.bob;
      } else {
        myBalance, otherBalance := latest.value.bob, latest.value.alice;
      }
      var newMine := WrapU(myBalance - amount);
      var newOther := WrapU(otherBalance + amount);
      var newAlice, newBob;
      if meAlice {
        newAlice, newBob := newMine, newOther;
      } else {
        newAlice, newBob := newOther, newMine;
      }
      var mySignature := SignState(crypto, account, info.app, newAlice, newBob, 4161, now);
      signed := signed + {(StateUpdate, TermsOf(info.app, newAlice, newBob, now))};
      return Some(PayRequest(account, newAlice, newBob, ToU64(now), mySignature));
    }

    /** The second half: a verified answer makes the node keep the state; a refusal or a lost answer changes nothing. */
    method KeepPayment(partner: Bytes, info: Info, r: PayRequest, now: i64, answer: Response) returns (paid: bool)
      requires AllFiled(logs) && r.timestamp == ToU64(now)
      modifies this`logs
      ensures AllFiled(logs)
      ensures paid <==> answer.Approve? && Verify(crypto, StateUpdate, TermsOf(info.app, r.alice, r.bob, now),
                                                  answer.signature, partner)
      ensures logs == if paid then Logged(old(logs), partner, Kept(info, r, answer.signature)) else old(logs)
    {
      hide Verify, Filed;
      if !answer.Approve? {
        return false;
      }
      var verified := VerifyState(crypto, info.app, r.alice, r.bob, 4161, answer.signature, partner, now);
      if !verified {
        return false;
      }
      TimestampCast(now);
      var state := OffState(now, r.alice, r.bob, r.signature, answer.signature, 4161, info.app);
      SaveState(partner, state);
      return true;
    }

    // ----- closing -----

    /** `close_channel_request`: the latest state's close is signed if the requester signed the same. */
    method HandleCloseRequest(from: Bytes, sig: Bytes) returns (answer: Response)
      modifies this`signed
      ensures answer == if Open(channels, logs, from) then
                          AnswerClose(crypto, account, channels[from], Latest(logs[from]).value, from, sig)
                        else Refuse
      ensures signed == old(signed) + if !answer.Approve? then {} else
                          {(CloseChannel, CloseTerms(channels[from], Latest(logs[from]).value))}
    {
      hide Latest, Verify, Sign;
      if from !in channels {
        return Refuse;
      }
      var info := channels[from];
      var latest := GetLatestOffChainState(LogOf(logs, from));
      if latest.None? {
        return Refuse;
      }
      var e := latest.value;
      var correct := VerifyClose(crypto, info.app, e.alice, e.bob, 4161, sig, from, e.timestamp);
      if !correct {
        return Refuse;
      }
      var mySignature := SignClose(crypto, account, info.app, e.alice, e.bob, 4161, e.timestamp);
      signed := signed + {(CloseChannel, CloseTerms(info, e))};
      return Approve(mySignature);
    }

    /** The first half of `CooperativeCloseChannel`: the state to close with and the node's signature over it. */
    method ProposeClose(partner: Bytes) returns (proposal: Option<(OffState, Bytes)>)
      modifies this`signed
      ensures proposal.None? <==>
                || !Open(channels, logs, partner)
                || Latest(logs[partner]).value.alice < 1000 || Latest(logs[partner]).value.bob < 1000
      ensures proposal == if Open(channels, logs, partner) && Closable(Latest(logs[partner]).value) then
                            var latest := Latest(logs[partner]).value;
                            Some((latest, Sign(crypto, account, CloseChannel, CloseTerms(channels[partner], latest))))
                          else None
      ensures signed == old(signed) + if proposal.None? then {} else
                          {(CloseChannel, CloseTerms(channels[partner], proposal.value.0))}
    {
      hide Latest, Sign;
      if partner !in channels || partner !in logs {
        return None;
      }
      var info := channels[partner];
      var latest := GetLatestOffChainState(logs[partner]);
      if latest.None? {
        return None;
      }
      var e := latest.value;
      if e.alice < 1000 || e.bob < 1000 {
        return None;
      }
      var mySignature := SignClose(crypto, account, info.app, e.alice, e.bob, 4161, e.timestamp);
      signed := signed + {(CloseChannel, CloseTerms(info, e))};
      return Some((e, mySignature));
    }

    /** The second half: with the partner's verified signature the node submits the close and forgets the channel. */
    method SubmitClose(partner: Bytes, info: Info, e: OffState, mySignature: Bytes, answer: Response)
      returns (call: Option<AppCall>)
      modifies this`channels
      ensures call.Some?
         <==> answer.Approve? && Verify(crypto, CloseChannel, CloseTerms(info, e), answer.signature, partner)
      ensures call.Some? ==>
                var state := CloseState(account, info, e, mySignature, answer.signature);
                call.value == ClosingCall(CooperativeCall, info.app, state, {account, partner}, account)
      ensures channels == if call.Some? then old(channels) - {partner} else old(channels)
    {
      hide Verify, Itob, MethodName;
      match answer
      case Refuse => return None;
      case Lost => return None;
      case Approve(partnerSignature) =>
        var verified := VerifyClose(crypto, info.app, e.alice, e.bob, 4161, partnerSignature, partner, e.timestamp);
        if !verified {
          return None;
        }
        var aliceSignature, bobSignature;
        if info.alice == account {
          aliceSignature, bobSignature := mySignature, partnerSignature;
        } else {
          aliceSignature, bobSignature := partnerSignature, mySignature;
        }
        var timestamp := ToU64(e.timestamp);
        var args := PackArguments(CooperativeCall, 4161, e.alice, e.bob, timestamp, aliceSignature, bobSignature);
        channels := channels - {partner};
        return Some(AppCall(info.app, args, {account, partner}, account, []));
    }

    /** Closes alone, with the latest state, unless either side has less than a payout costs. */
    method InitiateCloseChannel(partner: Bytes) returns (call: Option<AppCall>)
      ensures call.None? <==>
                || !Open(channels, logs, partner)
                || Latest(logs[partner]).value.alice < 1000 || Latest(logs[partner]).value.bob < 1000
      ensures call == if Open(channels, logs, partner) && Closable(Latest(logs[partner]).value) then
                        Some(ClosingCall(InitiateCall, channels[partner].app, Latest(logs[partner]).value, {}, account))
                      else None
    {
      hide Latest, Itob, MethodName;
      if partner !in channels || partner !in logs {
        return None;
      }
      var latest := GetLatestOffChainState(logs[partner]);
      if latest.None? {
        return None;
      }
      var e := latest.value;
      if e.alice < 1000 || e.bob < 1000 {
        return None;
      }
      var args := PackArguments(InitiateCall, 4161, e.alice, e.bob, ToU64(e.timestamp), e.aliceSig, e.bobSig);
      return Some(AppCall(channels[partner].app, args, {}, account, []));
    }

    /** The node's own balance in a state of the partner's log. */
    function MineIn(partner: Bytes, t: i64): u64
      requires partner in channels && partner in logs && t in logs[partner]
      reads this
    {
      Mine(account, channels[partner], logs[partner][t].alice, logs[partner][t].bob)
    }

    /** Initiates with a state in which the node ever had most; there is no call only without such a state above 0,
        or when in one of them either side has less than a payout costs. */
    method TryToCheat(partner: Bytes) returns (call: Option<AppCall>)
      ensures call.None? && partner in channels && partner in logs ==>
                || (forall t | t in logs[partner] :: MineIn(partner, t) == 0)
                || exists t :: t in logs[partner] && (logs[partner][t].alice < 1000 || logs[partner][t].bob < 1000)
                               && forall u | u in logs[partner] :: MineIn(partner, u) <= MineIn(partner, t)
      ensures call.Some? ==>
                && partner in channels && partner in logs
                && exists t :: t in logs[partner] && logs[partner][t].alice >= 1000 && logs[partner][t].bob >= 1000
                     && call.value == ClosingCall(InitiateCall, channels[partner].app, logs[partner][t], {}, account)
                     && forall u | u in logs[partner] :: MineIn(partner, u) <= MineIn(partner, t)
    {
      hide Itob, MethodName;
      if partner !in channels || partner !in logs {
        return None;
      }
      var highest := GetHighestBalanceOffChainState(channels[partner].alice == account, logs[partner]);
      if highest.None? {
        return None;
      }
      var e := highest.value;
      if e.alice < 1000 || e.bob < 1000 {
        return None;
      }
      var args := PackArguments(InitiateCall, 4161, e.alice, e.bob, ToU64(e.timestamp), e.aliceSig, e.bobSig);
      return Some(AppCall(channels[partner].app, args, {}, account, []));
    }

    method FinalizeCloseChannel(partner: Bytes) returns (call: Option<AppCall>)
      modifies this`channels
      ensures channels == old(channels) - {partner}
      ensures call == if partner in old(channels) then
                        var info := old(channels)[partner];
                        Some(AppCall(info.app, [MethodName(FinalizeCall)],
                                     {account, if account == info.alice then info.bob else info.alice}, account, []))
                      else None
    {
      if partner !in channels {
        return None;
      }
      var info := channels[partner];
      var counterparty := if account == info.alice then info.bob else info.alice;
      channels := channels - {partner};
      return Some(AppCall(info.app, [MethodName(FinalizeCall)], {account, counterparty}, account, []));
    }
  }
}
