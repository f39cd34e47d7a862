/** One pass of the watchtower over the node's channels. */
module Watchtower {
  import opened Bytes
  import opened Messages
  import opened Contract
  import opened Ledger
  import opened Chain
  import opened OffChain
  import opened StoredStates
  import opened Payoff
  import opened Operation
  import opened Submission
  import opened GlobalState
  import opened Nodes

  /** The numbers the watchtower reads are there and fit an int64. */
  ghost predicate Readable(g: Globals) {
    && WellTyped(g) && Num(g, Timeout) < I64_LIMIT
    && (Num(g, Timeout) > 0 ==> LatestAlice in g && LatestBob in g)
  }

  /** What the chain shows: for each channel a readable state of its application, listed in some order. */
  ghost predicate Snapshot(channels: Channels, listings: map<u64, seq<Entry>>, shown: map<u64, Globals>) {
    forall p | p in channels ::
      var app := channels[p].app;
      app in listings && app in shown && Readable(shown[app]) && Lists(listings[app], shown[app])
  }

  /** The channel is closing, and the chain shows the node less than the latest state of its log. */
  ghost predicate Cheated(account: Bytes, info: Info, log: Log, g: Globals)
    requires WellTyped(g)
  {
    && Num(g, Timeout) > 0 && Latest(log).Some?
    && Mine(account, info, Num(g, LatestAlice), Num(g, LatestBob))
       < Mine(account, info, Latest(log).value.alice, Latest(log).value.bob)
  }

  /** The channels in which the node is being cheated. */
  ghost function CheatedIn(
    account: Bytes, channels: Channels, logs: Logs, listings: map<u64, seq<Entry>>, shown: map<u64, Globals>)
    : (cheated: set<Bytes>)
    requires Snapshot(channels, listings, shown)
    ensures cheated <= channels.Keys
  {
    set p | p in channels && p in logs && Cheated(account, channels[p], logs[p], shown[channels[p].app])
  }

  function DisputeOf(account: Bytes, info: Info, latest: OffState): AppCall {
    ClosingCall(DisputeCall, info.app, latest, {}, account)
  }

  /** Reads a number of the application's state; None when the key is not there. */
  method ReadNumber(listing: seq<Entry>, ghost g: Globals, k: Key) returns (n: Option<u64>)
    requires WellTyped(g) && Lists(listing, g) && !IsAddressKey(k)
    ensures n == if k in g then Some(Num(g, k)) else None
  {
    hide FormatUint, ParseUint;
    var found := ReadKey(listing, g, k);
    match found
    case None => return None;
    case Some(shown) =>
      ParseFormat(Num(g, k));
      return ParseUint(shown.digits);
  }

  /** The decision for one channel. */
  method Check(node: Node, partner: Bytes, listing: seq<Entry>, ghost g: Globals) returns (dispute: Option<AppCall>)
    requires partner in node.channels && Readable(g) && Lists(listing, g)
    ensures var info, log := node.channels[partner], LogOf(node.logs, partner);
            && dispute == (if partner in node.logs && Cheated(node.account, info, log, g) then
                             Some(DisputeOf(node.account, info, Latest(log).value))
                           else None)
            && (dispute.Some? <==>
                  && partner in node.logs && Num(g, Timeout) > 0 && Latest(log).Some?
                  && if node.account == info.alice then Num(g, LatestAlice) < Latest(log).value.alice
                     else Num(g, LatestBob) < Latest(log).value.bob)
  {
    hide Latest, Itob, MethodName, Lists;
    var info := node.channels[partner];
    var timeout := ReadNumber(listing, g, Timeout);
    if timeout.None? {
      return None;
    }
    if !(timeout.value > 0) {
      return None;
    }
    var isAlice := node.account == info.alice;
    if partner !in node.logs {
      return None;
    }
    var latest := GetLatestOffChainState(node.logs[partner]);
    if latest.None? {
      return None;
    }
    var onchainAlice := ReadNumber(listing, g, LatestAlice);
    var onchainBob := ReadNumber(listing, g, LatestBob);
    var onchainMine, offchainMine;
    if isAlice {
      onchainMine, offchainMine := onchainAlice.value, latest.value.alice;
    } else {
      onchainMine, offchainMine := onchainBob.value, latest.value.bob;
    }
    if onchainMine >= offchainMine {
      return None;
    }
    var e := latest.value;
    var args := PackArguments(DisputeCall, 4161, e.alice, e.bob, ToU64(e.timestamp), e.aliceSig, e.bobSig);
    return Some(AppCall(info.app, args, {}, node.account, []));
  }

  /** The raised disputes are one for each of these partners, each with the latest state. */
  ghost predicate OneEach(
    raised: seq<(Bytes, AppCall)>, partners: set<Bytes>, account: Bytes, channels: Channels, logs: Logs)
  {
    && (forall i, j | 0 <= i < j < |raised| :: raised[i].0 != raised[j].0)
    && (forall p :: p in partners <==> exists i :: 0 <= i < |raised| && raised[i].0 == p)
    && (forall p | p in partners :: Open(channels, logs, p))
    && (forall i | 0 <= i < |raised| ::
          var p := raised[i].0;
          p in partners && raised[i].1 == DisputeOf(account, channels[p], Latest(logs[p]).value))
  }

  lemma OneMore(
    raised: seq<(Bytes, AppCall)>, partners: set<Bytes>, account: Bytes, channels: Channels, logs: Logs, partner: Bytes)
    requires OneEach(raised, partners, account, channels, logs) && partner !in partners && Open(channels, logs, partner)
    ensures OneEach(raised + [(partner, DisputeOf(account, channels[partner], Latest(logs[partner]).value))],
                    partners + {partner}, account, channels, logs)
  {
    hide Latest, DisputeOf;
    var dispute := DisputeOf(account, channels[partner], Latest(logs[partner]).value);
    var more := raised + [(partner, dispute)];
    assert more[|raised|].0 == partner;
    forall p
      ensures p in partners + {partner} <==> exists i :: 0 <= i < |more| && more[i].0 == p
    {
      if i :| 0 <= i < |raised| && raised[i].0 == p {
        assert more[i].0 == p;
      }
    }
  }

  /** The numbers that decide: a channel is in the set exactly when the chain shows a timeout above 0 and less for the
      node, as Alice or as Bob, than the latest state of the log gives it. */
  ghost predicate ShownLess(
    account: Bytes, channels: Channels, logs: Logs, shown: map<u64, Globals>, partners: set<Bytes>)
  {
    forall p | p in channels && channels[p].app in shown ::
      var info, g := channels[p], shown[channels[p].app];
      p in partners <==>
        && WellTyped(g) && Num(g, Timeout) > 0 && p in logs && Latest(logs[p]).Some?
        && if account == info.alice then Num(g, LatestAlice) < Latest(logs[p]).value.alice
           else Num(g, LatestBob) < Latest(logs[p]).value.bob
  }

  /** The cheated channels are these, and one without a timeout, or with 0, is none of them. */
  lemma CheatedShows(
    account: Bytes, channels: Channels, logs: Logs, listings: map<u64, seq<Entry>>, shown: map<u64, Globals>)
    requires Snapshot(channels, listings, shown)
    ensures var cheated := CheatedIn(account, channels, logs, listings, shown);
            && ShownLess(account, channels, logs, shown, cheated)
            && forall p | p in channels && channels[p].app in shown ::
                 Read(shown[channels[p].app], Timeout) == U(0) ==> p !in cheated
  {
    hide Latest, WellTyped, Lists, Readable, Snapshot, CheatedIn;
    forall p | p in channels && channels[p].app in shown
      ensures var info, g := channels[p], shown[channels[p].app];
              && WellTyped(g)
              && (Read(g, Timeout) == U(0) ==> Num(g, Timeout) == 0)
              && (p in CheatedIn(account, channels, logs, listings, shown) <==>
                    && Num(g, Timeout) > 0 && p in logs && Latest(logs[p]).Some?
                    && if account == info.alice then Num(g, LatestAlice) < Latest(logs[p]).value.alice
                       else Num(g, LatestBob) < Latest(logs[p]).value.bob)
    {
      InSnapshot(account, channels, logs, listings, shown, p);
    }
  }

  /** One pass, in whatever order the channels come: exactly the channels with a cheated node are disputed, each
      once and with the latest state, and exactly these are forgotten. A channel that is not closing is neither. */
  method Pass(node: Node, listings: map<u64, seq<Entry>>, ghost shown: map<u64, Globals>)
    returns (raised: seq<(Bytes, AppCall)>)
    requires Snapshot(node.channels, listings, shown)
    modifies node`channels
    ensures var cheated := CheatedIn(node.account, old(node.channels), node.logs, listings, shown);
            && node.channels == old(node.channels) - cheated
            && OneEach(raised, cheated, node.account, old(node.channels), node.logs)
    ensures ShownLess(node.account, old(node.channels), node.logs, shown,
                      old(node.channels).Keys - node.channels.Keys)
    ensures forall p | p in old(node.channels) && old(node.channels)[p].app in shown
                       && Read(shown[old(node.channels)[p].app], Timeout) == U(0) ::
              p in node.channels && forall i | 0 <= i < |raised| :: raised[i].0 != p
    ensures Calls(raised, node.account, old(node.channels), node.logs)
  {
    hide Cheated, Latest, Readable, Lists, DisputeOf, OneEach, Snapshot, CheatedIn, WellTyped, Open, LogOf, ShownLess;
    hide Calls, Packed, Num, Read;
    raised := [];
    ghost var channels := node.channels;
    ghost var cheated := CheatedIn(node.account, channels, node.logs, listings, shown);
    NoneRaised(node.account, channels, node.logs);
    var rest := node.channels.Keys;
    ghost var disputed: set<Bytes> := {};
    while rest != {}
      invariant rest <= channels.Keys && disputed <= cheated && rest !! disputed
      invariant forall p | p in cheated :: p in disputed || p in rest
      invariant node.channels == channels - disputed
      invariant OneEach(raised, disputed, node.account, channels, node.logs)
      decreases |rest|
    {
      var partner :| partner in rest;
      rest := rest - {partner};
      var app := node.channels[partner].app;
      InSnapshot(node.account, channels, node.logs, listings, shown, partner);
      var dispute := Check(node, partner, listings[app], shown[app]);
      if dispute.Some? {
        OneMore(raised, disputed, node.account, channels, node.logs, partner);
        raised := raised + [(partner, dispute.value)];
        node.channels := node.channels - {partner};
        disputed := disputed + {partner};
      }
    }
    assert disputed == cheated;
    DisputedShows(raised, node.account, channels, node.logs, listings, shown, node.channels);
  }

  /** What is raised: the call of the channel's application with the latest state's packed arguments. */
  ghost predicate Calls(raised: seq<(Bytes, AppCall)>, account: Bytes, channels: Channels, logs: Logs) {
    forall i | 0 <= i < |raised| ::
      var p := raised[i].0;
      && p in channels && p in logs && Latest(logs[p]).Some?
      && raised[i].1 == AppCall(channels[p].app, Packed(DisputeCall, Latest(logs[p]).value), {}, account, [])
  }

  /** What disputing exactly the cheated channels means by the shown numbers. */
  lemma DisputedShows(
    raised: seq<(Bytes, AppCall)>, account: Bytes, channels: Channels, logs: Logs,
    listings: map<u64, seq<Entry>>, shown: map<u64, Globals>, left: Channels)
    requires Snapshot(channels, listings, shown)
    requires OneEach(raised, CheatedIn(account, channels, logs, listings, shown), account, channels, logs)
    requires left == channels - CheatedIn(account, channels, logs, listings, shown)
    ensures ShownLess(account, channels, logs, shown, channels.Keys - left.Keys)
    ensures forall p | p in channels && channels[p].app in shown && Read(shown[channels[p].app], Timeout) == U(0) ::
              p in left && forall i | 0 <= i < |raised| :: raised[i].0 != p
    ensures Calls(raised, account, channels, logs)
  {
    hide Latest, Packed, CheatedIn, Snapshot, ShownLess;
    var cheated := CheatedIn(account, channels, logs, listings, shown);
    assert channels.Keys - (channels - cheated).Keys == cheated;
    CheatedShows(account, channels, logs, listings, shown);
  }

  lemma NoneRaised(account: Bytes, channels: Channels, logs: Logs)
    ensures OneEach([], {}, account, channels, logs)
  {
  }

  lemma InSnapshot(
    account: Bytes, channels: Channels, logs: Logs, listings: map<u64, seq<Entry>>, shown: map<u64, Globals>, p: Bytes)
    requires Snapshot(channels, listings, shown) && p in channels
    ensures var app := channels[p].app;
            && app in listings && app in shown && Readable(shown[app]) && WellTyped(shown[app])
            && Lists(listings[app], shown[app])
            && (p in CheatedIn(account, channels, logs, listings, shown)
                <==> p in logs && Cheated(account, channels[p], LogOf(logs, p), shown[app]))
            && (p in CheatedIn(account, channels, logs, listings, shown) ==> Open(channels, logs, p))
            && (p in logs ==> LogOf(logs, p) == logs[p])
  {
    hide Lists, WellTyped, Latest;
  }

  /** What a pass leaves, a second pass on the same snapshot leaves too. */
  lemma SecondPassIdle(
    account: Bytes, channels: Channels, logs: Logs, listings: map<u64, seq<Entry>>, shown: map<u64, Globals>)
    requires Snapshot(channels, listings, shown)
    ensures var left := channels - CheatedIn(account, channels, logs, listings, shown);
            Snapshot(left, listings, shown) && CheatedIn(account, left, logs, listings, shown) == {}
  {
  }

  /** What a pass raises is what the payoff theorem asks for: on a snapshot of the chain, a party whose log ends in its
      newest state has its channel disputed exactly when the shown balance is too low, and sending that dispute is the
      watchtower pass of the theorem. */
  lemma PassIsWatchPass(w: World, c: Chain, p: Party, log: Log, group: seq<AppCall>)
    requires WellTyped(c.globals) && Num(c.globals, Timeout) != 0 && Latest(log) == Some(p.newest)
    requires p.info.alice != p.info.bob && p.me in {p.info.alice, p.info.bob}
    requires SentFor(DisputeOf(p.me, p.info, p.newest), TARGET, group) && Balance(c.ledger, p.me) >= MIN_TXN_FEE
    ensures Cheated(p.me, p.info, log, c.globals) <==> MyOnChain(p, c.globals) < MyNewest(p)
    ensures var sent := Step(w, c, Submit(CallAt(w.crypto, group, 0)));
            WatchPass(w, c, if Cheated(p.me, p.info, log, c.globals) then sent else c, p)
  {
    hide Latest, WellTyped, Packed, Step, SentFor, CallAt;
    SentDispute(w.crypto, c, p, group);
  }
}
