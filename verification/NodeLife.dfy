/** A node object lives the life that the payoff theorem is about, in its log and in what it signs. */
module NodeLife {
  import opened Bytes
  import opened Messages
  import opened Contract
  import opened OffChain
  import opened CooperativeClose
  import opened Nodes
  import opened History

  /** Whatever happens next at the node, its log of the channel is the log of its life, and all it ever signed is
      what it signed in that life and elsewhere; `elsewhere` grows only by a request from another channel. */
  method Experience(node: Node, info: Info, e: Event, ghost l: Life, ghost elsewhere: set<(Kind, Terms)>)
    returns (ghost others: set<(Kind, Terms)>)
    requires AllFiled(node.logs) && Latest(l.log).Some? && node.signed == l.signed + elsewhere
    requires var partner := Partner(node.account, info);
             partner in node.channels && node.channels[partner] == info && LogOf(node.logs, partner) == l.log
    modifies node`logs, node`signed
    ensures AllFiled(node.logs)
    ensures var l1 := Live(node.crypto, node.account, info, l, e);
            LogOf(node.logs, Partner(node.account, info)) == l1.log && node.signed == l1.signed + others
    ensures elsewhere <= others && (others == elsewhere || (e.Request? && e.r.from != Partner(node.account, info)))
  {
    hide Verify, Sign, Latest, Filed, WrapU, Beneficial;
    var partner := Partner(node.account, info);
    others := elsewhere;
    assert partner in node.logs by {
      if partner !in node.logs {
        NoLatest();
      }
    }
    match e
    case Request(r) =>
      ghost var before := node.signed;
      var _ := node.HandlePayRequest(r);
      if r.from != partner {
        others := elsewhere + (node.signed - before);
      }
    case Pays(amount, now, answer) =>
      var r := node.ProposePayment(partner, amount, now);
      TimestampCast(now);
      var _ := node.KeepPayment(partner, info, r.value, now, Approve(answer));
    case PaysLost(amount, now) =>
      var r := node.ProposePayment(partner, amount, now);
      TimestampCast(now);
      var _ := node.KeepPayment(partner, info, r.value, now, Lost);
    case AnswersClose(sig) =>
      var _ := node.HandleCloseRequest(partner, sig);
    case ProposesClose =>
      var _ := node.ProposeClose(partner);
  }

  /** A node's whole life: after any events its log is the log of that life, and it signed what that life signed,
      besides what it signed elsewhere. */
  method LiveThrough(node: Node, info: Info, es: seq<Event>, ghost l: Life, ghost elsewhere: set<(Kind, Terms)>)
    returns (ghost others: set<(Kind, Terms)>)
    requires AllFiled(node.logs) && Latest(l.log).Some? && node.signed == l.signed + elsewhere
    requires var partner := Partner(node.account, info);
             partner in node.channels && node.channels[partner] == info && LogOf(node.logs, partner) == l.log
    requires AllOrderly(node.crypto, node.account, info, l, es)
    modifies node`logs, node`signed
    ensures AllFiled(node.logs) && elsewhere <= others
    ensures var l1 := LiveAll(node.crypto, node.account, info, l, es);
            LogOf(node.logs, Partner(node.account, info)) == l1.log && node.signed == l1.signed + others
  {
    hide Live, Latest, Orderly, LogOf, Filed;
    others := elsewhere;
    ghost var lived := l;
    for i := 0 to |es|
      invariant AllFiled(node.logs) && node.signed == lived.signed + others && elsewhere <= others
      invariant LogOf(node.logs, Partner(node.account, info)) == lived.log
      invariant AllOrderly(node.crypto, node.account, info, lived, es[i..])
      invariant LiveAll(node.crypto, node.account, info, lived, es[i..])
             == LiveAll(node.crypto, node.account, info, l, es)
    {
      assert es[i..][1..] == es[i + 1..] && es[i..][0] == es[i];
      OrderlyHasLatest(lived, es[i]);
      others := Experience(node, info, es[i], lived, others);
      lived := Live(node.crypto, node.account, info, lived, es[i]);
    }
  }

  lemma OrderlyHasLatest(l: Life, e: Event)
    requires Orderly(l, e)
    ensures Latest(l.log).Some?
  {
    hide Latest;
  }
}
