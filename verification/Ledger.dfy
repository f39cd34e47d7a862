/** Account balances, payments between them and the escrow's inner payments. */
module Ledger {
  import opened Bytes
  import opened Contract

  /** Balances by address, and the fees collected so far. */
  datatype Ledger = Ledger(accounts: map<Bytes, nat>, fees: nat)

  function Balance(l: Ledger, a: Bytes): nat {
    if a in l.accounts then l.accounts[a] else 0
  }

  /** A payment with its fee, if the sender can afford both. */
  function Transfer(l: Ledger, from: Bytes, to: Bytes, amount: nat, fee: nat): Option<Ledger> {
    if Balance(l, from) < amount + fee then None
    else
      var paid := Ledger(l.accounts[from := Balance(l, from) - amount - fee], l.fees + fee);
      Some(paid.(accounts := paid.accounts[to := Balance(paid, to) + amount]))
  }

  /** An inner payment of the escrow; a remainder address empties it, and must be another account. */
  function InnerPay(l: Ledger, escrow: Bytes, p: Payment): Option<Ledger> {
    match Transfer(l, escrow, p.receiver, p.amount, MIN_TXN_FEE)
    case None => None
    case Some(l1) =>
      if p.closeTo.None? then Some(l1)
      else if p.closeTo.value == escrow then None
      else Transfer(l1, escrow, p.closeTo.value, Balance(l1, escrow), 0)
  }

  /** A group of inner payments: all of them, in order, or none. */
  function Settle(l: Ledger, escrow: Bytes, payouts: seq<Payment>): Option<Ledger>
    decreases |payouts|
  {
    if payouts == [] then Some(l)
    else
      match InnerPay(l, escrow, payouts[0])
      case None => None
      case Some(l1) => Settle(l1, escrow, payouts[1..])
  }

  ghost function Sum(m: map<Bytes, nat>): nat {
    if m == map[] then 0
    else
      var a :| a in m;
      m[a] + Sum(m - {a})
  }

  /** All the money there is. */
  ghost function Total(l: Ledger): nat {
    Sum(l.accounts) + l.fees
  }

  lemma {:induction false} SumWithout(m: map<Bytes, nat>, a: Bytes)
    requires a in m
    ensures Sum(m) == m[a] + Sum(m - {a})
    decreases |m|
  {
    var b :| b in m && Sum(m) == m[b] + Sum(m - {b});
    if a != b {
      SumWithout(m - {b}, a);
      SumWithout(m - {a}, b);
      assert m - {b} - {a} == m - {a} - {b};
    }
  }

  lemma SumPut(m: map<Bytes, nat>, a: Bytes, v: nat)
    ensures Sum(m[a := v]) == Sum(m) - (if a in m then m[a] else 0) + v
  {
    SumWithout(m[a := v], a);
    assert m[a := v] - {a} == m - {a};
    if a in m {
      SumWithout(m, a);
    } else {
      assert m - {a} == m;
    }
  }

  lemma TransferKeepsTotal(l: Ledger, from: Bytes, to: Bytes, amount: nat, fee: nat)
    requires Transfer(l, from, to, amount, fee).Some?
    ensures Total(Transfer(l, from, to, amount, fee).value) == Total(l)
  {
    var paid := Ledger(l.accounts[from := Balance(l, from) - amount - fee], l.fees + fee);
    SumPut(l.accounts, from, Balance(l, from) - amount - fee);
    SumPut(paid.accounts, to, Balance(paid, to) + amount);
  }

  lemma InnerPayKeepsTotal(l: Ledger, escrow: Bytes, p: Payment)
    requires InnerPay(l, escrow, p).Some?
    ensures Total(InnerPay(l, escrow, p).value) == Total(l)
  {
    TransferKeepsTotal(l, escrow, p.receiver, p.amount, MIN_TXN_FEE);
    if p.closeTo.Some? {
      var l1 := Transfer(l, escrow, p.receiver, p.amount, MIN_TXN_FEE).value;
      TransferKeepsTotal(l1, escrow, p.closeTo.value, Balance(l1, escrow), 0);
    }
  }

  lemma {:induction false} SettleKeepsTotal(l: Ledger, escrow: Bytes, payouts: seq<Payment>)
    requires Settle(l, escrow, payouts).Some?
    ensures Total(Settle(l, escrow, payouts).value) == Total(l)
    decreases |payouts|
  {
    if payouts != [] {
      InnerPayKeepsTotal(l, escrow, payouts[0]);
      SettleKeepsTotal(InnerPay(l, escrow, payouts[0]).value, escrow, payouts[1..]);
    }
  }

  lemma SettleTwo(l: Ledger, escrow: Bytes, p: Payment, q: Payment)
    ensures Settle(l, escrow, [p, q])
         == match InnerPay(l, escrow, p)
            case None => None
            case Some(l1) => InnerPay(l1, escrow, q)
  {
    assert [p, q][1..] == [q];
    if InnerPay(l, escrow, p).Some? {
      var l1 := InnerPay(l, escrow, p).value;
      assert Settle(l1, escrow, [q])
          == match InnerPay(l1, escrow, q) case None => None case Some(l2) => Settle(l2, escrow, []);
    }
  }

  /** The payout of a channel with three distinct accounts goes through exactly when the escrow holds both balances;
      then each party has its balance less one fee, Alice also what the escrow held beyond them, and nothing is left. */
  lemma PayoutAmounts(l: Ledger, escrow: Bytes, x: Ctx, g: Globals)
    requires WellTyped(g) && Alice(g) != Bob(g) && escrow != Alice(g) && escrow != Bob(g)
    requires PayOut(x, g).Approved?
    ensures var a, b, held := Num(g, LatestAlice), Num(g, LatestBob), Balance(l, escrow);
            match Settle(l, escrow, PayOut(x, g).payouts)
            case None => held < a + b
            case Some(l1) =>
              && held >= a + b
              && Balance(l1, Bob(g)) == Balance(l, Bob(g)) + b - MIN_TXN_FEE
              && Balance(l1, Alice(g)) == Balance(l, Alice(g)) + a - MIN_TXN_FEE + (held - a - b)
              && Balance(l1, escrow) == 0
              && l1.fees == l.fees + 2 * MIN_TXN_FEE
              && (forall c :: c != escrow && c != Alice(g) && c != Bob(g) ==> Balance(l1, c) == Balance(l, c))
  {
    var p := PayOut(x, g).payouts;
    SettleTwo(l, escrow, p[0], p[1]);
  }
}
