/** The compiled program does what the contract's transition function says. */
module Refinement {
  import opened Bytes
  import opened Messages
  import opened Contract
  import opened Teal
  import opened Program
  import opened Storage
  import opened Steps

  // ----- the penalty -----

  /** Lines 259-266: the balance must cover the penalty. */
  lemma RunCovers(f: nat, t: Label -> Code, a: u64, b: u64, next: Code, x: Ctx, g: Globals, s: Stack, c: nat)
    requires ValidCtx(x)
    ensures Run(f, t, Bin(Minus, Get(Int(0), Bin(Ge, Do(Assert, next)))), x, M(g, Push(U(b), Push(U(a), s)), c))
         == if a >= b then Run(f, t, next, x, M(g, s, c + 4)) else Panicked(Fault)
  {
    hide Run, Stored;
    var c2 := Bin(Ge, Do(Assert, next));
    RunBin(f, t, Minus, Get(Int(0), c2), x, M(g, s, c), U(a), U(b));
    if a >= b {
      RunSource(f, t, Int(0), c2, x, M(g, Push(U(a - b), s), c + 1));
      RunBin(f, t, Ge, Do(Assert, next), x, M(g, s, c + 2), U(a - b), U(0));
      RunAssert(f, t, next, x, M(g, s, c + 3), true);
    }
  }

  /** Lines 267-273 and 274-280: a balance less or plus the penalty. */
  lemma RunShift(f: nat, t: Label -> Code, k: Key, op: Binary, next: Code, x: Ctx, g: Globals, s: Stack, c: nat)
    requires ValidCtx(x) && Read(g, k).U? && Read(g, PenaltyReserve).U?
    ensures Run(f, t, Get(Byte(Name(k)), GetKey(k, GetKey(PenaltyReserve, Bin(op, AppGlobalPut(next))))), x, M(g, s, c))
         == match BinaryValue(op, Read(g, k), Read(g, PenaltyReserve))
            case None => Panicked(Fault)
            case Some(v) => Run(f, t, next, x, M(g[k := v], s, c + 7))
  {
    hide Run, Stored, Name, GetKey, BinaryValue;
    var s1 := Push(B(Name(k)), s);
    var c1 := Bin(op, AppGlobalPut(next));
    var n, p := Read(g, k), Read(g, PenaltyReserve);
    RunSource(f, t, Byte(Name(k)), GetKey(k, GetKey(PenaltyReserve, c1)), x, M(g, s, c));
    RunTwoKeys(f, t, k, PenaltyReserve, c1, x, g, s1, c + 1);
    RunBin(f, t, op, AppGlobalPut(next), x, M(g, s1, c + 5), n, p);
    if BinaryValue(op, n, p).Some? {
      RunPut(f, t, k, BinaryValue(op, n, p).value, next, x, g, s, c + 6);
    }
  }

  lemma RunMovePenalty(f: nat, t: Label -> Code, from: Key, to: Key, x: Ctx, g: Globals, s: Stack, c: nat)
    requires ValidCtx(x) && WellTyped(g)
    requires !IsAddressKey(from) && !IsAddressKey(to) && from != PenaltyReserve && to != PenaltyReserve
    ensures Agrees(Run(f, t, MovePenalty(from, to), x, M(g, s, c)), Rebalance(g, from, to), c + 24)
  {
    hide Run, MovePenalty, Name, Stored, Ascii;
    RunPenalty(f, t, from, to, x, g, s, c);
  }

  lemma PenaltyText(from: Key, to: Key)
    ensures MovePenalty(from, to) ==
            GetKey(from, GetKey(PenaltyReserve, Bin(Minus, Get(Int(0), Bin(Ge, Do(Assert,
            Get(Byte(Name(from)), GetKey(from, GetKey(PenaltyReserve, Bin(Minus, AppGlobalPut(
            Get(Byte(Name(to)), GetKey(to, GetKey(PenaltyReserve, Bin(Plus, AppGlobalPut(APPROVE))))))))))))))))
  {
    hide Name, GetKey;
  }

  lemma PenaltyArithmetic(a: u64, p: u64)
    ensures BinaryValue(Minus, U(a), U(p)) == if a >= p then Some(U(a - p)) else None
    ensures BinaryValue(Plus, U(a), U(p)) == if a + p < U64_LIMIT then Some(U(a + p)) else None
  {
  }

  lemma RunPenalty(f: nat, t: Label -> Code, from: Key, to: Key, x: Ctx, g: Globals, s: Stack, c: nat)
    requires ValidCtx(x) && from != PenaltyReserve && to != PenaltyReserve
    requires Read(g, from).U? && Read(g, to).U? && Read(g, PenaltyReserve).U?
    ensures var a, p := Read(g, from).num, Read(g, PenaltyReserve).num;
            Run(f, t, MovePenalty(from, to), x, M(g, s, c))
            == if a < p then Panicked(Fault)
               else
                 var g1 := g[from := U(a - p)];
                 var b := Read(g1, to).num;
                 if b + p >= U64_LIMIT then Panicked(Fault)
                 else Halted(true, M(g1[to := U(b + p)], Push(U(1), s), c + 24))
  {
    hide Run, Stored, Name, GetKey, MovePenalty, BinaryValue;
    var a, p := Read(g, from).num, Read(g, PenaltyReserve).num;
    var c3 := Get(Byte(Name(to)), GetKey(to, GetKey(PenaltyReserve, Bin(Plus, AppGlobalPut(APPROVE)))));
    var c2 := Get(Byte(Name(from)), GetKey(from, GetKey(PenaltyReserve, Bin(Minus, AppGlobalPut(c3)))));
    var c1 := Bin(Minus, Get(Int(0), Bin(Ge, Do(Assert, c2))));
    PenaltyText(from, to);
    PenaltyArithmetic(a, p);
    RunTwoKeys(f, t, from, PenaltyReserve, c1, x, g, s, c);
    RunCovers(f, t, a, p, c2, x, g, s, c + 4);
    if a >= p {
      RunShift(f, t, from, Minus, c3, x, g, s, c + 8);
      var g1 := g[from := U(a - p)];
      PenaltyArithmetic(Read(g1, to).num, p);
      RunShift(f, t, to, Plus, APPROVE, x, g1, s, c + 15);
      if Read(g1, to).num + p < U64_LIMIT {
        RunApprove(f, t, x, g1[to := U(Read(g1, to).num + p)], s, c + 22);
      }
    }
  }

  // ----- the subroutine that pays out -----

  lemma RunLessFee(f: nat, t: Label -> Code, n: u64, next: Code, x: Ctx, m: Machine)
    requires ValidCtx(x)
    ensures Run(f, t, Get(GlobalMinTxnFee, Bin(Minus, next)), x, Pushed(m, U(n), 0))
         == if n < MIN_TXN_FEE then Panicked(Fault) else Run(f, t, next, x, Pushed(m, U(n - MIN_TXN_FEE), 2))
  {
    hide Run;
    RunSource(f, t, GlobalMinTxnFee, Bin(Minus, next), x, Pushed(m, U(n), 0));
    RunBin(f, t, Minus, next, x, Spent(m, 1), U(n), U(MIN_TXN_FEE));
  }

  lemma RunPayFields(f: nat, t: Label -> Code, balance: Key, receiver: Key, next: Code, x: Ctx, g: Globals, m: Machine)
    requires ValidCtx(x) && m.globals == Stored(g) && m.inner.Building? && m.inner.current == NEW_DRAFT
    requires Read(g, balance).U? && Read(g, receiver).B?
    ensures var n, to := Read(g, balance).num, Read(g, receiver).bytes;
            Run(f, t, PayFields(balance, receiver, next), x, m)
            == if n < MIN_TXN_FEE || !Payable(x, to) then Panicked(Fault)
               else Run(f, t, next, x, Spent(m, 10).(inner := Building(m.inner.done,
                                                      Draft(true, n - MIN_TXN_FEE, Some(to), None))))
  {
    hide Run, Stored, Name, GetKey, Payable;
    var n, to := Read(g, balance).num, Read(g, receiver).bytes;
    var c3 := GetKey(receiver, Do(ItxnField(Receiver), next));
    var c2 := GetKey(balance, Get(GlobalMinTxnFee, Bin(Minus, Do(ItxnField(Amount), c3))));
    RunSource(f, t, Int(1), Do(ItxnField(TypeEnum), c2), x, m);
    RunField(f, t, TypeEnum, U(1), c2, x, Spent(m, 1));
    var m1 := Spent(m, 2).(inner := Building(m.inner.done, NEW_DRAFT.(isPay := true)));
    RunPayAmount(f, t, balance, c3, x, g, m1);
    if n >= MIN_TXN_FEE {
      var m2 := Spent(m1, 5).(inner := Building(m.inner.done, m1.inner.current.(amount := n - MIN_TXN_FEE)));
      RunGetKeyAt(f, t, receiver, Do(ItxnField(Receiver), next), x, g, m2);
      RunField(f, t, Receiver, B(to), next, x, Spent(m2, 2));
    }
  }

  lemma RunPayAmount(f: nat, t: Label -> Code, balance: Key, next: Code, x: Ctx, g: Globals, m: Machine)
    requires ValidCtx(x) && m.globals == Stored(g) && m.inner.Building? && Read(g, balance).U?
    ensures var n := Read(g, balance).num;
            Run(f, t, GetKey(balance, Get(GlobalMinTxnFee, Bin(Minus, Do(ItxnField(Amount), next)))), x, m)
            == if n < MIN_TXN_FEE then Panicked(Fault)
               else Run(f, t, next, x, Spent(m, 5).(inner := Building(m.inner.done,
                                                     m.inner.current.(amount := n - MIN_TXN_FEE))))
  {
    hide Run, Stored, Name, GetKey;
    var n := Read(g, balance).num;
    RunGetKeyAt(f, t, balance, Get(GlobalMinTxnFee, Bin(Minus, Do(ItxnField(Amount), next))), x, g, m);
    RunLessFee(f, t, n, Do(ItxnField(Amount), next), x, Spent(m, 2));
    if n >= MIN_TXN_FEE {
      RunField(f, t, Amount, U(n - MIN_TXN_FEE), next, x, Spent(m, 4));
    }
  }

  /** Lines 520-534: the second payment, the remainder and the return. */
  lemma RunPayAlice(f: nat, t: Label -> Code, ret: Code, x: Ctx, g: Globals, m: Machine, p: Payment)
    requires ValidCtx(x) && f >= 1 && m.calls == Frame(ret, NoFrame) && m.sent == [] && m.globals == Stored(g)
    requires m.inner == Building([p], NEW_DRAFT)
    requires Read(g, LatestAlice).U? && Read(g, AliceAddress).B? && m.scratch == map[0 := Read(g, AliceAddress)]
    ensures var a, alice := Read(g, LatestAlice).num, Read(g, AliceAddress).bytes;
            Run(f, t, PayFields(LatestAlice, AliceAddress,
                      Get(Load(0), Do(ItxnField(CloseRemainderTo), Itxn(ItxnSubmit, Retsub)))), x, m)
            == if a < MIN_TXN_FEE || !Payable(x, alice) then Panicked(Fault)
               else Run(f - 1, t, ret, x, Spent(m, 14).(calls := NoFrame, inner := Idle,
                                                        sent := [p, Payment(a - MIN_TXN_FEE, alice, Some(alice))]))
  {
    hide Run, Stored, Name;
    var a, alice := Read(g, LatestAlice).num, Read(g, AliceAddress).bytes;
    var c6 := Get(Load(0), Do(ItxnField(CloseRemainderTo), Itxn(ItxnSubmit, Retsub)));
    RunPayFields(f, t, LatestAlice, AliceAddress, c6, x, g, m);
    if a >= MIN_TXN_FEE && Payable(x, alice) {
      var d := Draft(true, a - MIN_TXN_FEE, Some(alice), None);
      RunPayEnd(f, t, ret, x, Spent(m, 10).(inner := Building([p], d)), [p], d, alice);
      var q := Payment(a - MIN_TXN_FEE, alice, Some(alice));
      assert [p] + [q] == [p, q];
    }
  }

  /** Lines 507-520. */
  lemma RunPayBob(f: nat, t: Label -> Code, next: Code, x: Ctx, g: Globals, m: Machine, v: Value)
    requires ValidCtx(x) && m.globals == Stored(g) && m.inner.Idle? && m.scratch == map[]
    requires Read(g, LatestBob).U? && Read(g, BobAddress).B?
    ensures var b, bob := Read(g, LatestBob).num, Read(g, BobAddress).bytes;
            Run(f, t, Do(Store(0), Itxn(ItxnBegin, PayFields(LatestBob, BobAddress, Itxn(ItxnNext, next)))), x,
                Pushed(m, v, 0))
            == if b < MIN_TXN_FEE || !Payable(x, bob) then Panicked(Fault)
               else
                 var inner := Building([Payment(b - MIN_TXN_FEE, bob, None)], NEW_DRAFT);
                 Run(f, t, next, x, Spent(m, 13).(scratch := map[0 := v], inner := inner))
  {
    hide Run, Stored, Name;
    var b, bob := Read(g, LatestBob).num, Read(g, BobAddress).bytes;
    var c4 := PayFields(LatestBob, BobAddress, Itxn(ItxnNext, next));
    RunStore(f, t, v, Itxn(ItxnBegin, c4), x, m);
    assert m.scratch[0 := v] == map[0 := v];
    var m1 := Spent(m, 1).(scratch := map[0 := v]);
    RunItxn(f, t, ItxnBegin, c4, x, m1);
    var m2 := Spent(m1, 1).(inner := Building([], NEW_DRAFT));
    RunPayFields(f, t, LatestBob, BobAddress, Itxn(ItxnNext, next), x, g, m2);
    if b >= MIN_TXN_FEE && Payable(x, bob) {
      RunItxn(f, t, ItxnNext, next, x,
              Spent(m2, 10).(inner := Building([], Draft(true, b - MIN_TXN_FEE, Some(bob), None))));
      assert [] + [Payment(b - MIN_TXN_FEE, bob, None)] == [Payment(b - MIN_TXN_FEE, bob, None)];
    }
  }

  /** The subroutine either panics, exactly when the payout is rejected, or returns with both payments sent. */
  lemma RunCloseAccountTo(f: nat, t: Label -> Code, ret: Code, x: Ctx, g: Globals, c: nat)
    requires ValidCtx(x) && WellTyped(g) && f >= 1
    ensures var m := M(g, Empty, c).(calls := Frame(ret, NoFrame));
            Run(f, t, BlockCloseAccountTo(), x, Pushed(m, B(Alice(g)), 0))
            == match PayOut(x, g)
               case Rejected => Panicked(Fault)
               case Approved(_, payouts) =>
                 Run(f - 1, t, ret, x, M(g, Empty, c + 27).(scratch := map[0 := B(Alice(g))], sent := payouts))
  {
    hide Run, Stored, Name, WellTyped;
    TypedReads(g);
    var c6 := Get(Load(0), Do(ItxnField(CloseRemainderTo), Itxn(ItxnSubmit, Retsub)));
    var c5 := PayFields(LatestAlice, AliceAddress, c6);
    var m := M(g, Empty, c).(calls := Frame(ret, NoFrame));
    RunPayBob(f, t, c5, x, g, m, B(Alice(g)));
    var b := Num(g, LatestBob);
    if b >= MIN_TXN_FEE && Payable(x, Bob(g)) {
      var p := Payment(b - MIN_TXN_FEE, Bob(g), None);
      RunPayAlice(f, t, ret, x, g, Spent(m, 13).(scratch := map[0 := B(Alice(g))],
                                                 inner := Building([p], NEW_DRAFT)), p);
    }
  }

  /** Lines 531-534. */
  lemma RunPayEnd(f: nat, t: Label -> Code, ret: Code, x: Ctx, m: Machine, done: seq<Payment>, d: Draft, to: Bytes)
    requires ValidCtx(x) && f >= 1 && m.calls == Frame(ret, NoFrame) && m.sent == [] && Payable(x, to)
    requires m.inner == Building(done, d) && Sendable(d) && m.scratch == map[0 := B(to)]
    ensures Run(f, t, Get(Load(0), Do(ItxnField(CloseRemainderTo), Itxn(ItxnSubmit, Retsub))), x, m)
         == Run(f - 1, t, ret, x, Spent(m, 4).(calls := NoFrame, inner := Idle,
                                               sent := done + [Sent(d.(closeTo := Some(to)))]))
  {
    hide Run;
    RunSource(f, t, Load(0), Do(ItxnField(CloseRemainderTo), Itxn(ItxnSubmit, Retsub)), x, m);
    RunField(f, t, CloseRemainderTo, B(to), Itxn(ItxnSubmit, Retsub), x, Spent(m, 1));
    var m1 := Spent(m, 2).(inner := Building(done, d.(closeTo := Some(to))));
    RunItxn(f, t, ItxnSubmit, Retsub, x, m1);
    var sent := done + [Sent(d.(closeTo := Some(to)))];
    assert m1.sent + sent == sent;
    RunRetsub(f, t, ret, x, Spent(m, 3).(inner := Idle, sent := sent));
  }

  // ----- the blocks -----

  lemma TextOfReturns()
    ensures Text(L15) == Text(L18) == Text(L26) == Text(L31) == APPROVE
    ensures Text(L6) == Text(L33) == Text(L34) == REJECT
  {
    hide BlockMain, BlockL7, BlockL14, BlockL16, BlockL17, BlockL19, BlockL20, BlockL22, BlockL24, BlockL25;
    hide BlockL27, BlockL29, BlockL30, BlockL32, BlockL35, BlockCloseAccountTo;
  }

  lemma TextOfL7()
    ensures Text(L7) == BlockL7()
  {
  }

  lemma TextOfL16()
    ensures Text(L16) == BlockL16()
  {
  }

  lemma TextOfL19()
    ensures Text(L19) == BlockL19()
  {
  }

  lemma TextOfL22()
    ensures Text(L22) == BlockL22()
  {
  }

  lemma TextOfL24()
    ensures Text(L24) == BlockL24()
  {
  }

  lemma TextOfL27()
    ensures Text(L27) == BlockL27()
  {
  }

  lemma TextOfL29()
    ensures Text(L29) == BlockL29()
  {
  }

  lemma TextOfL30()
    ensures Text(L30) == BlockL30()
  {
  }

  lemma TextOfL35()
    ensures Text(L35) == BlockL35()
  {
  }

  lemma TextOfCloseAccountTo()
    ensures Text(CloseAccountTo) == BlockCloseAccountTo()
  {
  }

  /** Lines 149-152 and 163-166, and the approval they return to. */
  lemma RunPayOut(f: nat, back: Label, x: Ctx, g: Globals, c: nat)
    requires ValidCtx(x) && WellTyped(g) && f >= 3 && back in {L15, L18}
    ensures Agrees(Run(f, Text, GetKey(AliceAddress, Callsub(CloseAccountTo, Branch(back))), x, M(g, Empty, c)),
                   PayOut(x, g), c + 33)
  {
    hide Run, Stored, Name, WellTyped, BlockCloseAccountTo, Text;
    TypedReads(g);
    TextOfReturns();
    TextOfCloseAccountTo();
    RunGetKey(f, Text, AliceAddress, Callsub(CloseAccountTo, Branch(back)), x, g, Empty, c);
    RunCallsub(f, Text, CloseAccountTo, Branch(back), x, M(g, Push(B(Alice(g)), Empty), c + 2));
    RunCloseAccountTo(f - 1, Text, Branch(back), x, g, c + 3);
    if PayOut(x, g).Approved? {
      var m := M(g, Empty, c + 30).(scratch := map[0 := B(Alice(g))], sent := PayOut(x, g).payouts);
      RunBranch(f - 2, Text, back, x, m);
      RunApproveAt(f - 3, Text, x, Spent(m, 1));
    }
  }

  lemma RunL17(f: nat, x: Ctx, g: Globals, c: nat)
    requires ValidCtx(x) && WellTyped(g) && f >= 4
    ensures Agrees(Run(f, Text, BlockL17(), x, M(g, Empty, c)), Finalize(x, g), c + 38)
  {
    hide Run, Stored, Name, WellTyped, Text, PayOut;
    TypedReads(g);
    TextOfReturns();
    TextOfL19();
    var c2 := Bin(Gt, Bnz(L19, Fall(L18)));
    var p := x.round > Num(g, Timeout);
    RunSource(f, Text, GlobalRound, GetKey(Timeout, c2), x, M(g, Empty, c));
    RunGetKey(f, Text, Timeout, c2, x, g, Push(U(x.round), Empty), c + 1);
    RunBin(f, Text, Gt, Bnz(L19, Fall(L18)), x, M(g, Empty, c + 3), U(x.round), U(Num(g, Timeout)));
    RunBnz(f, Text, L19, Fall(L18), x, M(g, Empty, c + 4), p);
    if p {
      RunPayOut(f - 1, L18, x, g, c + 5);
    } else {
      RunBranch(f, Text, L18, x, M(g, Empty, c + 5));
      RunApprove(f - 1, Text, x, g, Empty, c + 5);
    }
  }

  /** Lines 63-67 of the cooperative close: the channel must not be closing. */
  lemma RunTimeoutTest(f: nat, t: Label -> Code, next: Code, x: Ctx, g: Globals, c: nat)
    requires ValidCtx(x) && Read(g, Timeout).U?
    ensures Run(f, t, GetKey(Timeout, Get(Int(0), Bin(Eq, Do(Assert, next)))), x, M(g, Empty, c))
         == if Read(g, Timeout).num == 0 then Run(f, t, next, x, M(g, Empty, c + 5)) else Panicked(Fault)
  {
    hide Run, Stored, Name;
    var c2 := Bin(Eq, Do(Assert, next));
    RunGetKey(f, t, Timeout, Get(Int(0), c2), x, g, Empty, c);
    RunSource(f, t, Int(0), c2, x, M(g, Push(Read(g, Timeout), Empty), c + 2));
    RunBin(f, t, Eq, Do(Assert, next), x, M(g, Empty, c + 3), Read(g, Timeout), U(0));
    RunAssert(f, t, next, x, M(g, Empty, c + 4), Read(g, Timeout).num == 0);
  }

  lemma RunL16(f: nat, x: Ctx, g: Globals, c: nat)
    requires ValidCtx(x) && WellTyped(g) && f >= 3 && SplitComputes(x, g)
    ensures Agrees(Run(f, Text, BlockL16(), x, M(g, Empty, c)),
                   if IsUint(x.args[4]) then PayOut(x, WithSplit(x, g)) else Rejected, c + 45)
  {
    hide Run, Stored, Name, WellTyped, PutSplit, PayOut, Text;
    if IsUint(x.args[4]) {
      WithSplitReads(x, g);
    }
    var c2 := GetKey(AliceAddress, Callsub(CloseAccountTo, Branch(L15)));
    RunPutSplit(f, Text, c2, x, g, Empty, c);
    if IsUint(x.args[4]) {
      RunPayOut(f, L15, x, WithSplit(x, g), c + 12);
    }
  }

  lemma RunL14(f: nat, x: Ctx, g: Globals, c: nat)
    requires ValidCtx(x) && WellTyped(g) && f >= 4
    ensures Agrees(Run(f, Text, BlockL14(), x, M(g, Empty, c)), Cooperative(x, g), c + 4181)
  {
    hide Run, Stored, Name, WellTyped, PartyTest, SplitTest, SplitHolds, PayOut, Text, BlockL16;
    TypedReads(g);
    TextOfReturns();
    TextOfL16();
    var c3 := Bnz(L16, Fall(L15));
    var c2 := GetKey(Timeout, Get(Int(0), Bin(Eq, Do(Assert, SplitTest(CloseChannel, c3)))));
    RunPartyTest(f, Text, c2, x, g, Empty, c);
    if FromParty(x, g) {
      RunTimeoutTest(f, Text, SplitTest(CloseChannel, c3), x, g, c + 10);
      if Num(g, Timeout) == 0 {
        RunSplitTest(f, Text, CloseChannel, c3, x, g, Empty, c + 15);
        if SplitComputes(x, g) {
          var p := SplitHolds(x, g, CloseChannel);
          RunBnz(f, Text, L16, Fall(L15), x, M(g, Empty, c + 4135), p);
          if p {
            RunL16(f - 1, x, g, c + 4136);
          } else {
            RunBranch(f, Text, L15, x, M(g, Empty, c + 4136));
            RunApprove(f - 1, Text, x, g, Empty, c + 4136);
          }
        }
      }
    }
  }

  /** Lines 253-307: the penalty for the party that initiated. */
  ghost function Punish(g: Globals): Outcome
    requires WellTyped(g)
  {
    if ClosingInitiator !in g then Rejected
    else if g[ClosingInitiator] == B(Ascii("alice")) then Rebalance(g, LatestAlice, LatestBob)
    else Rebalance(g, LatestBob, LatestAlice)
  }

  lemma RunPunish(f: nat, x: Ctx, g: Globals, c: nat)
    requires ValidCtx(x) && WellTyped(g) && f >= 1
    ensures Agrees(Run(f, Text, GetKey(ClosingInitiator, Get(Byte(Ascii("alice")), Bin(Eq,
                                Bnz(L24, MovePenalty(LatestBob, LatestAlice))))), x, M(g, Empty, c)), Punish(g), c + 29)
  {
    hide Run, Stored, Name, WellTyped, Text, MovePenalty, Rebalance, Ascii;
    InitiatorTyped(g);
    TextOfL24();
    var alice := Ascii("alice");
    var c3 := Bnz(L24, MovePenalty(LatestBob, LatestAlice));
    var c2 := Get(Byte(alice), Bin(Eq, c3));
    RunGetKey(f, Text, ClosingInitiator, c2, x, g, Empty, c);
    RunSource(f, Text, Byte(alice), Bin(Eq, c3), x, M(g, Push(Read(g, ClosingInitiator), Empty), c + 2));
    RunBin(f, Text, Eq, c3, x, M(g, Empty, c + 3), Read(g, ClosingInitiator), B(alice));
    if ClosingInitiator in g {
      var p := g[ClosingInitiator] == B(alice);
      RunBnz(f, Text, L24, MovePenalty(LatestBob, LatestAlice), x, M(g, Empty, c + 4), p);
      if p {
        RunMovePenalty(f - 1, Text, LatestAlice, LatestBob, x, g, Empty, c + 5);
      } else {
        RunMovePenalty(f, Text, LatestBob, LatestAlice, x, g, Empty, c + 5);
      }
    }
  }

  lemma InitiatorTyped(g: Globals)
    requires WellTyped(g)
    ensures ClosingInitiator in g ==> g[ClosingInitiator].B?
  {
  }

  lemma RunL22(f: nat, x: Ctx, g: Globals, c: nat)
    requires ValidCtx(x) && WellTyped(g) && f >= 1 && SplitComputes(x, g) && IsUint(x.args[4])
    ensures Agrees(Run(f, Text, BlockL22(), x, M(g, Empty, c)), Punish(WithSplit(x, g)), c + 41)
  {
    hide Run, Stored, Name, WellTyped, Text, MovePenalty, PutSplit, Punish, Ascii;
    WithSplitReads(x, g);
    RunPutSplit(f, Text, GetKey(ClosingInitiator, Get(Byte(Ascii("alice")), Bin(Eq,
                         Bnz(L24, MovePenalty(LatestBob, LatestAlice))))), x, g, Empty, c);
    RunPunish(f, x, WithSplit(x, g), c + 12);
  }

  /** Lines 232-237: only a newer state. */
  lemma RunNewer(f: nat, t: Label -> Code, next: Code, x: Ctx, g: Globals, p: bool, c: nat)
    requires ValidCtx(x) && WellTyped(g) && |x.args| >= 5
    ensures Run(f, t, GetKey(LatestTimestamp, ArgUint(4, Bin(Lt, Bin(AndAnd, next)))), x,
                M(g, Push(Truth(p), Empty), c))
         == if IsUint(x.args[4]) then
              Run(f, t, next, x, M(g, Push(Truth(p && Num(g, LatestTimestamp) < Uint(x.args[4])), Empty), c + 6))
            else Panicked(Fault)
  {
    hide Run, Stored, Name, WellTyped, ArgUint;
    TypedReads(g);
    var c2 := Bin(Lt, Bin(AndAnd, next));
    var s, n := Push(Truth(p), Empty), Num(g, LatestTimestamp);
    RunGetKey(f, t, LatestTimestamp, ArgUint(4, c2), x, g, s, c);
    RunArgUint(f, t, 4, c2, x, g, Push(U(n), s), c + 2);
    if IsUint(x.args[4]) {
      var q := n < Uint(x.args[4]);
      RunBin(f, t, Lt, Bin(AndAnd, next), x, M(g, s, c + 4), U(n), U(Uint(x.args[4])));
      RunBin(f, t, AndAnd, next, x, M(g, Empty, c + 5), Truth(p), Truth(q));
    }
  }

  lemma RunL20(f: nat, x: Ctx, g: Globals, c: nat)
    requires ValidCtx(x) && WellTyped(g) && f >= 2
    ensures Agrees(Run(f, Text, BlockL20(), x, M(g, Empty, c)), Dispute(x, g, CloseChannel), c + 4168)
  {
    hide Run, Stored, Name, WellTyped, Text, SplitTest, SplitHolds, BlockL22, Rebalance, Ascii;
    TextOfL22();
    var c3 := Bnz(L22, APPROVE);
    var c2 := GetKey(LatestTimestamp, ArgUint(4, Bin(Lt, Bin(AndAnd, c3))));
    RunSplitTest(f, Text, CloseChannel, c2, x, g, Empty, c);
    if SplitComputes(x, g) {
      var p := SplitHolds(x, g, CloseChannel);
      RunNewer(f, Text, c3, x, g, p, c + 4120);
      if IsUint(x.args[4]) {
        var q := p && Num(g, LatestTimestamp) < Uint(x.args[4]);
        RunBnz(f, Text, L22, APPROVE, x, M(g, Empty, c + 4126), q);
        if q {
          RunL22(f - 1, x, g, c + 4127);
          PunishSplit(x, g);
        } else {
          RunApprove(f, Text, x, g, Empty, c + 4127);
        }
      }
    }
  }

  /** Taking over the split does not change who initiated. */
  lemma PunishSplit(x: Ctx, g: Globals)
    requires WellTyped(g) && |x.args| >= 5 && IsUint(x.args[2]) && IsUint(x.args[3]) && IsUint(x.args[4])
    ensures WellTyped(WithSplit(x, g))
    ensures ClosingInitiator in WithSplit(x, g) <==> ClosingInitiator in g
    ensures ClosingInitiator in g ==> WithSplit(x, g)[ClosingInitiator] == g[ClosingInitiator]
  {
  }

  // ----- initiating -----

  lemma RunL29(f: nat, x: Ctx, g: Globals, c: nat)
    requires ValidCtx(x) && WellTyped(g) && f >= 1 && SplitComputes(x, g)
    ensures Agrees(Run(f, Text, BlockL29(), x, M(g, Empty, c)),
                   if !IsUint(x.args[4]) || x.round + Num(g, DisputeWindow) >= U64_LIMIT then Rejected
                   else Approved(WithSplit(x, g[Timeout := U(x.round + Num(g, DisputeWindow))]), []), c + 21)
  {
    hide Run, Stored, Name, WellTyped, Text, PutSplit;
    TypedReads(g);
    TextOfReturns();
    var n := Num(g, DisputeWindow);
    var c3 := PutSplit(Branch(L26));
    var c2 := Bin(Plus, AppGlobalPut(c3));
    var s := Push(B(Name(Timeout)), Empty);
    RunSource(f, Text, Byte(Name(Timeout)), Get(GlobalRound, GetKey(DisputeWindow, c2)), x, M(g, Empty, c));
    RunSource(f, Text, GlobalRound, GetKey(DisputeWindow, c2), x, M(g, s, c + 1));
    RunGetKey(f, Text, DisputeWindow, c2, x, g, Push(U(x.round), s), c + 2);
    RunBin(f, Text, Plus, AppGlobalPut(c3), x, M(g, s, c + 4), U(x.round), U(n));
    if x.round + n < U64_LIMIT {
      RunPut(f, Text, Timeout, U(x.round + n), c3, x, g, Empty, c + 5);
      var g1 := g[Timeout := U(x.round + n)];
      RunPutSplit(f, Text, Branch(L26), x, g1, Empty, c + 6);
      if IsUint(x.args[4]) {
        RunBranch(f, Text, L26, x, M(WithSplit(x, g1), Empty, c + 18));
        RunApprove(f - 1, Text, x, WithSplit(x, g1), Empty, c + 19);
      }
    }
  }

  /** Lines 393-395 and 417-420. */
  lemma RunSetInitiator(f: nat, who: Bytes, next: Code, x: Ctx, g: Globals, c: nat)
    requires ValidCtx(x)
    ensures Run(f, Text, Get(Byte(Name(ClosingInitiator)), Get(Byte(who), AppGlobalPut(next))), x, M(g, Empty, c))
         == Run(f, Text, next, x, M(g[ClosingInitiator := B(who)], Empty, c + 3))
  {
    hide Run, Stored, Name, Text;
    var s := Push(B(Name(ClosingInitiator)), Empty);
    RunSource(f, Text, Byte(Name(ClosingInitiator)), Get(Byte(who), AppGlobalPut(next)), x, M(g, Empty, c));
    RunSource(f, Text, Byte(who), AppGlobalPut(next), x, M(g, s, c + 1));
    RunPut(f, Text, ClosingInitiator, B(who), next, x, g, Empty, c + 2);
  }

  lemma SetInitiatorTyped(x: Ctx, g: Globals, who: Bytes)
    requires WellTyped(g) && (who == Ascii("alice") || who == Ascii("bob"))
    ensures var g1 := g[ClosingInitiator := B(who)];
            WellTyped(g1) && (forall k :: !IsAddressKey(k) ==> Num(g1, k) == Num(g, k))
            && Alice(g1) == Alice(g) && Bob(g1) == Bob(g)
  {
  }

  lemma RunL27(f: nat, x: Ctx, g: Globals, c: nat)
    requires ValidCtx(x) && WellTyped(g) && f >= 3 && SplitComputes(x, g)
    ensures Agrees(Run(f, Text, BlockL27(), x, M(g, Empty, c)),
                   if !IsUint(x.args[4]) || x.round + Num(g, DisputeWindow) >= U64_LIMIT then Rejected
                   else
                     var who := if x.sender == Alice(g) then Ascii("alice") else Ascii("bob");
                     var g1 := g[ClosingInitiator := B(who)][Timeout := U(x.round + Num(g, DisputeWindow))];
                     Approved(WithSplit(x, g1), []), c + 30)
  {
    hide Run, Stored, Name, WellTyped, Text, BlockL29, WithSplit, Ascii;
    TypedReads(g);
    TextOfL29();
    TextOfL30();
    var alice, bob := Ascii("alice"), Ascii("bob");
    var c2 := Get(Byte(Name(ClosingInitiator)), Get(Byte(bob), AppGlobalPut(Fall(L29))));
    RunSenderIs(f, Text, AliceAddress, Bnz(L30, c2), x, g, Empty, c);
    var p := x.sender == Alice(g);
    RunBnz(f, Text, L30, c2, x, M(g, Empty, c + 4), p);
    var who := if p then alice else bob;
    var g1 := g[ClosingInitiator := B(who)];
    SetInitiatorTyped(x, g, who);
    if p {
      RunSetInitiator(f - 1, alice, Branch(L29), x, g, c + 5);
      RunBranch(f - 1, Text, L29, x, M(g1, Empty, c + 8));
      RunL29(f - 2, x, g1, c + 9);
    } else {
      RunSetInitiator(f, bob, Fall(L29), x, g, c + 5);
      RunBranch(f, Text, L29, x, M(g1, Empty, c + 8));
      RunL29(f - 1, x, g1, c + 8);
    }
  }

  lemma RunL25(f: nat, x: Ctx, g: Globals, c: nat)
    requires ValidCtx(x) && WellTyped(g) && f >= 4
    ensures Agrees(Run(f, Text, BlockL25(), x, M(g, Empty, c)), Initiate(x, g), c + 4161)
  {
    hide Run, Stored, Name, WellTyped, Text, PartyTest, SplitTest, SplitHolds, BlockL27, WithSplit, Ascii;
    TextOfReturns();
    TextOfL27();
    var c2 := Bnz(L27, Fall(L26));
    RunPartyTest(f, Text, SplitTest(StateUpdate, c2), x, g, Empty, c);
    if FromParty(x, g) {
      RunSplitTest(f, Text, StateUpdate, c2, x, g, Empty, c + 10);
      if SplitComputes(x, g) {
        var p := SplitHolds(x, g, StateUpdate);
        RunBnz(f, Text, L27, Fall(L26), x, M(g, Empty, c + 4130), p);
        if p {
          RunL27(f - 1, x, g, c + 4131);
        } else {
          RunBranch(f, Text, L26, x, M(g, Empty, c + 4131));
          RunApprove(f - 1, Text, x, g, Empty, c + 4131);
        }
      }
    }
  }

  // ----- funding -----

  lemma RunPrevious(f: nat, t: Label -> Code, field: GroupField, next: Code, x: Ctx, m: Machine)
    requires ValidCtx(x)
    ensures Run(f, t, Previous(field, next), x, m)
         == if x.groupIndex == 0 then Panicked(Fault)
            else Run(f, t, next, x, Pushed(m, GroupValue(field, x.group[x.groupIndex - 1]), 4))
  {
    hide Run;
    var i := x.groupIndex;
    var c2 := Bin(Minus, Un(Gtxns(field), next));
    RunSource(f, t, TxnGroupIndex, Get(Int(1), c2), x, m);
    RunSource(f, t, Int(1), c2, x, Pushed(m, U(i), 1));
    RunBin(f, t, Minus, Un(Gtxns(field), next), x, Spent(m, 2), U(i), U(1));
    if i >= 1 {
      RunUn(f, t, Gtxns(field), next, x, Spent(m, 3), U(i - 1));
    }
  }

  /** Lines 429-438: the payment came from this sender and from Alice. */
  lemma RunFundSender(f: nat, t: Label -> Code, next: Code, x: Ctx, g: Globals, c: nat)
    requires ValidCtx(x) && x.groupIndex >= 1 && AliceAddress in g && g[AliceAddress].B?
    ensures var p := x.group[x.groupIndex - 1];
            Run(f, t, Previous(GSender, Get(TxnSender, Bin(Eq,
                      Previous(GSender, GetKey(AliceAddress, Bin(Eq, Bin(AndAnd, next))))))), x, M(g, Empty, c))
            == Run(f, t, next, x,
                   M(g, Push(Truth(p.sender == x.sender && p.sender == g[AliceAddress].bytes), Empty), c + 14))
  {
    hide Run, Stored, Name, Previous;
    var p := x.group[x.groupIndex - 1];
    var c4 := Bin(Eq, Bin(AndAnd, next));
    var c3 := Previous(GSender, GetKey(AliceAddress, c4));
    var c2 := Get(TxnSender, Bin(Eq, c3));
    RunPrevious(f, t, GSender, c2, x, M(g, Empty, c));
    RunSource(f, t, TxnSender, Bin(Eq, c3), x, M(g, Push(B(p.sender), Empty), c + 4));
    RunBin(f, t, Eq, c3, x, M(g, Empty, c + 5), B(p.sender), B(x.sender));
    var s := Push(Truth(p.sender == x.sender), Empty);
    RunPrevious(f, t, GSender, GetKey(AliceAddress, c4), x, M(g, s, c + 6));
    RunGetKey(f, t, AliceAddress, c4, x, g, Push(B(p.sender), s), c + 10);
    RunBin(f, t, Eq, Bin(AndAnd, next), x, M(g, s, c + 12), B(p.sender), g[AliceAddress]);
    RunBin(f, t, AndAnd, next, x, M(g, Empty, c + 13), Truth(p.sender == x.sender),
           Truth(p.sender == g[AliceAddress].bytes));
  }

  /** Lines 439-445: it is a payment. */
  lemma RunFundType(f: nat, t: Label -> Code, next: Code, x: Ctx, g: Globals, q: bool, c: nat)
    requires ValidCtx(x) && x.groupIndex >= 1
    ensures var p := x.group[x.groupIndex - 1];
            Run(f, t, Previous(GTypeEnum, Get(Int(1), Bin(Eq, Bin(AndAnd, next)))), x, M(g, Push(Truth(q), Empty), c))
            == Run(f, t, next, x, M(g, Push(Truth(q && p.txnType == Pay), Empty), c + 7))
  {
    hide Run, Stored, Previous;
    var p := x.group[x.groupIndex - 1];
    var s := Push(Truth(q), Empty);
    RunPrevious(f, t, GTypeEnum, Get(Int(1), Bin(Eq, Bin(AndAnd, next))), x, M(g, s, c));
    RunSource(f, t, Int(1), Bin(Eq, Bin(AndAnd, next)), x, M(g, Push(U(TypeCode(p.txnType)), s), c + 4));
    RunBin(f, t, Eq, Bin(AndAnd, next), x, M(g, s, c + 5), U(TypeCode(p.txnType)), U(1));
    RunBin(f, t, AndAnd, next, x, M(g, Empty, c + 6), Truth(q), Truth(p.txnType == Pay));
  }

  /** Lines 446-455: its amount exceeds penalty and fee. */
  lemma RunFundAmount(f: nat, t: Label -> Code, next: Code, x: Ctx, g: Globals, q: bool, c: nat)
    requires ValidCtx(x) && x.groupIndex >= 1 && Read(g, PenaltyReserve).U?
    ensures var p, need := x.group[x.groupIndex - 1], Read(g, PenaltyReserve).num + MIN_TXN_FEE;
            Run(f, t,
                Previous(GAmount, GetKey(PenaltyReserve, Get(GlobalMinTxnFee, Bin(Plus, Bin(Gt, Bin(AndAnd, next)))))),
                x, M(g, Push(Truth(q), Empty), c))
            == if need >= U64_LIMIT then Panicked(Fault)
               else Run(f, t, next, x, M(g, Push(Truth(q && p.amount > need), Empty), c + 10))
  {
    hide Run, Stored, Name, Previous, GetKey;
    var p, n := x.group[x.groupIndex - 1], Read(g, PenaltyReserve).num;
    var s := Push(Truth(q), Empty);
    var c3 := Bin(Gt, Bin(AndAnd, next));
    var c2 := Get(GlobalMinTxnFee, Bin(Plus, c3));
    var s1 := Push(U(p.amount), s);
    RunPrevious(f, t, GAmount, GetKey(PenaltyReserve, c2), x, M(g, s, c));
    RunGetKey(f, t, PenaltyReserve, c2, x, g, s1, c + 4);
    RunSource(f, t, GlobalMinTxnFee, Bin(Plus, c3), x, M(g, Push(U(n), s1), c + 6));
    RunBin(f, t, Plus, c3, x, M(g, s1, c + 7), U(n), U(MIN_TXN_FEE));
    if n + MIN_TXN_FEE < U64_LIMIT {
      RunBin(f, t, Gt, Bin(AndAnd, next), x, M(g, s, c + 8), U(p.amount), U(n + MIN_TXN_FEE));
      RunBin(f, t, AndAnd, next, x, M(g, Empty, c + 9), Truth(q), Truth(p.amount > n + MIN_TXN_FEE));
    }
  }

  /** Lines 456-463: it went to the escrow; then all five conditions must hold. */
  lemma RunFundReceiver(f: nat, t: Label -> Code, next: Code, x: Ctx, g: Globals, q: bool, c: nat)
    requires ValidCtx(x) && x.groupIndex >= 1
    ensures var p := x.group[x.groupIndex - 1];
            Run(f, t, Previous(GReceiver, Get(GlobalCurrentApplicationAddress, Bin(Eq, Bin(AndAnd, Do(Assert, next))))),
                x, M(g, Push(Truth(q), Empty), c))
            == if q && p.receiver == x.escrow then Run(f, t, next, x, M(g, Empty, c + 8)) else Panicked(Fault)
  {
    hide Run, Stored, Previous;
    var p := x.group[x.groupIndex - 1];
    var s := Push(Truth(q), Empty);
    var c3 := Bin(AndAnd, Do(Assert, next));
    var c2 := Get(GlobalCurrentApplicationAddress, Bin(Eq, c3));
    RunPrevious(f, t, GReceiver, c2, x, M(g, s, c));
    RunSource(f, t, GlobalCurrentApplicationAddress, Bin(Eq, c3), x, M(g, Push(B(p.receiver), s), c + 4));
    RunBin(f, t, Eq, c3, x, M(g, s, c + 5), B(p.receiver), B(x.escrow));
    RunBin(f, t, AndAnd, Do(Assert, next), x, M(g, Empty, c + 6), Truth(q), Truth(p.receiver == x.escrow));
    RunAssert(f, t, next, x, M(g, Empty, c + 7), q && p.receiver == x.escrow);
  }

  /** Lines 464-469 and 470-475. */
  lemma RunPutAmount(f: nat, t: Label -> Code, k: Key, next: Code, x: Ctx, g: Globals, c: nat)
    requires ValidCtx(x) && x.groupIndex >= 1
    ensures Run(f, t, Get(Byte(Name(k)), Previous(GAmount, AppGlobalPut(next))), x, M(g, Empty, c))
         == Run(f, t, next, x, M(g[k := U(x.group[x.groupIndex - 1].amount)], Empty, c + 6))
  {
    hide Run, Stored, Name, Previous;
    RunSource(f, t, Byte(Name(k)), Previous(GAmount, AppGlobalPut(next)), x, M(g, Empty, c));
    RunPrevious(f, t, GAmount, AppGlobalPut(next), x, M(g, Push(B(Name(k)), Empty), c + 1));
    RunPut(f, t, k, U(x.group[x.groupIndex - 1].amount), next, x, g, Empty, c + 5);
  }

  lemma RunL32(f: nat, x: Ctx, g: Globals, c: nat)
    requires ValidCtx(x) && WellTyped(g)
    ensures Agrees(Run(f, Text, BlockL32(), x, M(g, Empty, c)), Fund(x, g), c + 53)
  {
    hide Run, Stored, Name, WellTyped, Text, Previous;
    TypedReads(g);
    var c6 := Get(Byte(Name(TotalDeposit)), Previous(GAmount, AppGlobalPut(APPROVE)));
    var c5 := Get(Byte(Name(LatestAlice)), Previous(GAmount, AppGlobalPut(c6)));
    var c4 := Previous(GReceiver, Get(GlobalCurrentApplicationAddress, Bin(Eq, Bin(AndAnd, Do(Assert, c5)))));
    var c3 := Previous(GAmount, GetKey(PenaltyReserve, Get(GlobalMinTxnFee, Bin(Plus, Bin(Gt, Bin(AndAnd, c4))))));
    var c2 := Previous(GTypeEnum, Get(Int(1), Bin(Eq, Bin(AndAnd, c3))));
    var c1 := Get(TxnSender, Bin(Eq, Previous(GSender, GetKey(AliceAddress, Bin(Eq, Bin(AndAnd, c2))))));
    assert BlockL32() == Previous(GSender, c1);
    if x.groupIndex == 0 {
      RunPrevious(f, Text, GSender, c1, x, M(g, Empty, c));
    } else {
      var p := x.group[x.groupIndex - 1];
      var q1 := p.sender == x.sender && p.sender == Alice(g);
      var q2 := q1 && p.txnType == Pay;
      var need := Num(g, PenaltyReserve) + MIN_TXN_FEE;
      RunFundSender(f, Text, c2, x, g, c);
      RunFundType(f, Text, c3, x, g, q1, c + 14);
      RunFundAmount(f, Text, c4, x, g, q2, c + 21);
      if need < U64_LIMIT {
        var q3 := q2 && p.amount > need;
        RunFundReceiver(f, Text, c5, x, g, q3, c + 31);
        if q3 && p.receiver == x.escrow {
          RunPutAmount(f, Text, LatestAlice, c6, x, g, c + 39);
          var g1 := g[LatestAlice := U(p.amount)];
          RunPutAmount(f, Text, TotalDeposit, APPROVE, x, g1, c + 45);
          RunApprove(f, Text, x, g1[TotalDeposit := U(p.amount)], Empty, c + 51);
        }
      }
    }
  }

  // ----- dispatch -----

  lemma RunOnMethod(f: nat, m: Method, target: Label, next: Code, x: Ctx, g: Globals, c: nat)
    requires ValidCtx(x) && f >= 1
    ensures Run(f, Text, OnMethod(m, target, next), x, M(g, Empty, c))
         == if |x.args| == 0 then Panicked(Fault)
            else if x.args[0] == MethodName(m) then Run(f - 1, Text, Text(target), x, M(g, Empty, c + 4))
            else Run(f, Text, next, x, M(g, Empty, c + 4))
  {
    hide Run, Stored, Text, MethodName;
    var c2 := Bin(Eq, Bnz(target, next));
    RunSource(f, Text, Txna(0), Get(Byte(MethodName(m)), c2), x, M(g, Empty, c));
    if |x.args| > 0 {
      RunSource(f, Text, Byte(MethodName(m)), c2, x, M(g, Push(B(x.args[0]), Empty), c + 1));
      RunBin(f, Text, Eq, Bnz(target, next), x, M(g, Empty, c + 2), B(x.args[0]), B(MethodName(m)));
      RunBnz(f, Text, target, next, x, M(g, Empty, c + 3), x.args[0] == MethodName(m));
    }
  }

  lemma RunOnOutcome(f: nat, o: OnCompletion, target: Label, next: Code, x: Ctx, g: Globals, c: nat)
    requires ValidCtx(x) && f >= 1
    ensures Run(f, Text, OnOutcome(o, target, next), x, M(g, Empty, c))
         == if x.onCompletion == o then Run(f - 1, Text, Text(target), x, M(g, Empty, c + 4))
            else Run(f, Text, next, x, M(g, Empty, c + 4))
  {
    hide Run, Stored, Text;
    var c2 := Bin(Eq, Bnz(target, next));
    RunSource(f, Text, TxnOnCompletion, Get(Int(CompletionCode(o)), c2), x, M(g, Empty, c));
    RunSource(f, Text, Int(CompletionCode(o)), c2, x, M(g, Push(U(CompletionCode(x.onCompletion)), Empty), c + 1));
    RunBin(f, Text, Eq, Bnz(target, next), x, M(g, Empty, c + 2),
           U(CompletionCode(x.onCompletion)), U(CompletionCode(o)));
    RunBnz(f, Text, target, next, x, M(g, Empty, c + 3), x.onCompletion == o);
  }

  lemma RunL7(f: nat, x: Ctx, g: Globals, c: nat)
    requires ValidCtx(x) && WellTyped(g) && f >= 5 && x.onCompletion == NoOp
    ensures Agrees(Run(f, Text, BlockL7(), x, M(g, Empty, c)), Call(x, g, CloseChannel), c + 4205)
  {
    hide Run, Stored, WellTyped, Text, MethodName, BlockL32, BlockL25, BlockL20, BlockL17, BlockL14;
    hide Fund, Initiate, Dispute, Finalize, Cooperative;
    TextOfReturns();
    TextOfBlocks();
    var c6 := OnMethod(CooperativeCall, L14, Err);
    var c5 := OnMethod(FinalizeCall, L17, c6);
    var c4 := OnMethod(DisputeCall, L20, c5);
    var c3 := OnMethod(InitiateCall, L25, c4);
    var c2 := OnMethod(IncreaseBudget, L31, c3);
    RunOnMethod(f, FundCall, L32, c2, x, g, c);
    RunOnMethod(f, IncreaseBudget, L31, c3, x, g, c + 4);
    RunOnMethod(f, InitiateCall, L25, c4, x, g, c + 8);
    RunOnMethod(f, DisputeCall, L20, c5, x, g, c + 12);
    RunOnMethod(f, FinalizeCall, L17, c6, x, g, c + 16);
    RunOnMethod(f, CooperativeCall, L14, Err, x, g, c + 20);
    RunErr(f, Text, x, M(g, Empty, c + 24));
    RunL32(f - 1, x, g, c + 4);
    RunApprove(f - 1, Text, x, g, Empty, c + 8);
    RunL25(f - 1, x, g, c + 12);
    RunL20(f - 1, x, g, c + 16);
    RunL17(f - 1, x, g, c + 20);
    RunL14(f - 1, x, g, c + 24);
  }

  lemma TextOfBlocks()
    ensures Text(L32) == BlockL32() && Text(L25) == BlockL25() && Text(L20) == BlockL20()
         && Text(L17) == BlockL17() && Text(L14) == BlockL14()
  {
    hide BlockMain, BlockL7, BlockL14, BlockL16, BlockL17, BlockL19, BlockL20, BlockL22, BlockL24, BlockL25;
    hide BlockL27, BlockL29, BlockL30, BlockL32, BlockL35, BlockCloseAccountTo;
  }

  // ----- the theorems -----

  /** The longest path jumps six times. */
  const JUMPS: nat := 6

  /** No call costs more. */
  const MAX_COST: nat := 4221

  lemma RunMain(x: Ctx, g: Globals)
    requires ValidCtx(x)
    ensures Run(JUMPS, Text, BlockMain(), x, M(g, Empty, 0))
         == if x.creating || x.app == 0 then Run(JUMPS - 1, Text, BlockL35(), x, M(g, Empty, 4))
            else Run(JUMPS, Text, Completions(), x, M(g, Empty, 4))
  {
    hide Run, Stored, Text, BlockL35;
    TextOfL35();
    var c2 := Bin(Eq, Bnz(L35, Completions()));
    assert BlockMain() == Get(TxnApplicationID, Get(Int(0), c2));
    var id: u64 := if x.creating then 0 else x.app;
    RunSource(JUMPS, Text, TxnApplicationID, Get(Int(0), c2), x, M(g, Empty, 0));
    RunSource(JUMPS, Text, Int(0), c2, x, M(g, Push(U(id), Empty), 1));
    RunBin(JUMPS, Text, Eq, Bnz(L35, Completions()), x, M(g, Empty, 2), U(id), U(0));
    RunBnz(JUMPS, Text, L35, Completions(), x, M(g, Empty, 3), id == 0);
  }

  /** Lines 6-22. */
  function Completions(): Code {
    OnOutcome(UpdateApplication, L34,
    OnOutcome(CloseOut, L33,
    OnOutcome(NoOp, L7,
    OnOutcome(DeleteApplication, L6,
    Err))))
  }

  /** For every global state, round, sender, group and argument list, the compiled program accepts exactly when the
      transition function does, with the same new global state and the same inner payments; it always halts, never
      underflows its stack, and costs at most MAX_COST. */
  lemma CallRefines(x: Ctx, g: Globals)
    requires ValidCtx(x) && WellTyped(g) && !x.creating && x.app != 0
    ensures Agrees(Run(JUMPS, Text, BlockMain(), x, M(g, Empty, 0)), Call(x, g, CloseChannel), MAX_COST)
    ensures Call(x, g, CloseChannel) == Meant(x, g, CloseChannel)
  {
    hide Run, Stored, WellTyped, Text, MethodName, BlockL7, Fund, Initiate, Dispute, Finalize, Cooperative, Meant;
    CallIsMeant(x, g, CloseChannel);
    TextOfReturns();
    TextOfL7();
    RunMain(x, g);
    var c4 := OnOutcome(DeleteApplication, L6, Err);
    var c3 := OnOutcome(NoOp, L7, c4);
    var c2 := OnOutcome(CloseOut, L33, c3);
    RunOnOutcome(JUMPS, UpdateApplication, L34, c2, x, g, 4);
    RunOnOutcome(JUMPS, CloseOut, L33, c3, x, g, 8);
    RunOnOutcome(JUMPS, NoOp, L7, c4, x, g, 12);
    RunOnOutcome(JUMPS, DeleteApplication, L6, Err, x, g, 16);
    RunErr(JUMPS, Text, x, M(g, Empty, 20));
    RunReject(JUMPS - 1, Text, x, g, Empty, 8);
    RunReject(JUMPS - 1, Text, x, g, Empty, 12);
    RunReject(JUMPS - 1, Text, x, g, Empty, 20);
    if x.onCompletion == NoOp {
      RunL7(JUMPS - 1, x, g, 16);
    }
  }

  /** The same for the call that creates the application, from an empty global state. */
  lemma CreateRefines(x: Ctx)
    requires ValidCtx(x) && x.creating
    ensures Agrees(Run(JUMPS, Text, BlockMain(), x, M(map[], Empty, 0)), Create(x), MAX_COST)
  {
    hide Run, Stored, Text, Name, BlockL35, PutArg;
    RunMain(x, map[]);
    RunL35(JUMPS - 1, x, 4);
  }

  lemma RunL35(f: nat, x: Ctx, c: nat)
    requires ValidCtx(x)
    ensures Agrees(Run(f, Text, BlockL35(), x, M(map[], Empty, c)), Create(x), c + 20)
  {
    hide Run, Stored, Text, Name, PutArg;
    var c5 := PutArg(DisputeWindow, 2, APPROVE);
    var c4 := PutArg(PenaltyReserve, 1, c5);
    var c3 := Get(Byte(Name(BobAddress)), Get(Txna(0), AppGlobalPut(c4)));
    var c2 := Get(Byte(Name(AliceAddress)), Get(TxnSender, AppGlobalPut(c3)));
    var g: Globals := map[];
    RunArgCount(f, Text, c2, x, g, c);
    if |x.args| == 3 {
      RunPutSource(f, AliceAddress, TxnSender, B(x.sender), c3, x, g, c + 4);
      var g1 := g[AliceAddress := B(x.sender)];
      RunPutSource(f, BobAddress, Txna(0), B(x.args[0]), c4, x, g1, c + 7);
      var g2 := g1[BobAddress := B(x.args[0])];
      RunPutArg(f, Text, PenaltyReserve, 1, c5, x, g2, Empty, c + 10);
      if IsUint(x.args[1]) {
        var g3 := g2[PenaltyReserve := U(Uint(x.args[1]))];
        RunPutArg(f, Text, DisputeWindow, 2, APPROVE, x, g3, Empty, c + 14);
        if IsUint(x.args[2]) {
          RunApprove(f, Text, x, g3[DisputeWindow := U(Uint(x.args[2]))], Empty, c + 18);
        }
      }
    }
  }

  lemma RunArgCount(f: nat, t: Label -> Code, next: Code, x: Ctx, g: Globals, c: nat)
    requires ValidCtx(x)
    ensures Run(f, t, Get(TxnNumAppArgs, Get(Int(3), Bin(Eq, Do(Assert, next)))), x, M(g, Empty, c))
         == if |x.args| == 3 then Run(f, t, next, x, M(g, Empty, c + 4)) else Panicked(Fault)
  {
    hide Run, Stored;
    var c2 := Bin(Eq, Do(Assert, next));
    RunSource(f, t, TxnNumAppArgs, Get(Int(3), c2), x, M(g, Empty, c));
    RunSource(f, t, Int(3), c2, x, M(g, Push(U(|x.args|), Empty), c + 1));
    RunBin(f, t, Eq, Do(Assert, next), x, M(g, Empty, c + 2), U(|x.args|), U(3));
    RunAssert(f, t, next, x, M(g, Empty, c + 3), |x.args| == 3);
  }

  lemma RunPutSource(f: nat, k: Key, src: Source, v: Value, next: Code, x: Ctx, g: Globals, c: nat)
    requires ValidCtx(x) && SourceValue(src, x, M(g, Push(B(Name(k)), Empty), c + 1)) == Some(v)
    ensures Run(f, Text, Get(Byte(Name(k)), Get(src, AppGlobalPut(next))), x, M(g, Empty, c))
         == Run(f, Text, next, x, M(g[k := v], Empty, c + 3))
  {
    hide Run, Stored, Name, Text;
    RunSource(f, Text, Byte(Name(k)), Get(src, AppGlobalPut(next)), x, M(g, Empty, c));
    RunSource(f, Text, src, AppGlobalPut(next), x, M(g, Push(B(Name(k)), Empty), c + 1));
    RunPut(f, Text, k, v, next, x, g, Empty, c + 2);
  }
}
