/** What single lines and repeated runs of lines of the program do to the machine. */
module Steps {
  import opened Bytes
  import opened Messages
  import opened Contract
  import opened Teal
  import opened Program
  import opened Storage

  /** The machine between two lines of the main program. */
  ghost function M(g: Globals, stack: Stack, cost: nat): Machine {
    Machine(stack, Stored(g), map[], NoFrame, Idle, [], cost)
  }

  // ----- single lines -----

  lemma RunSource(f: nat, t: Label -> Code, src: Source, next: Code, x: Ctx, m: Machine)
    requires ValidCtx(x)
    ensures Run(f, t, Get(src, next), x, m)
         == match SourceValue(src, x, m)
            case None => Panicked(Fault)
            case Some(v) => Run(f, t, next, x, Pushed(m, v, 1))
  {
  }

  lemma RunUn(f: nat, t: Label -> Code, op: Unary, next: Code, x: Ctx, m: Machine, v: Value)
    requires ValidCtx(x)
    ensures Run(f, t, Un(op, next), x, Pushed(m, v, 0))
         == match UnaryValue(op, x, m.globals, v)
            case None => Panicked(Fault)
            case Some(w) => Run(f, t, next, x, Pushed(m, w, UnaryCost(op)))
  {
  }

  lemma RunBin(f: nat, t: Label -> Code, op: Binary, next: Code, x: Ctx, m: Machine, v: Value, w: Value)
    requires ValidCtx(x)
    ensures Run(f, t, Bin(op, next), x, Pushed(Pushed(m, v, 0), w, 0))
         == match BinaryValue(op, v, w)
            case None => Panicked(Fault)
            case Some(r) => Run(f, t, next, x, Pushed(m, r, 1))
  {
  }

  lemma RunPutRaw(f: nat, t: Label -> Code, next: Code, x: Ctx, m: Machine)
    requires ValidCtx(x) && m.stack.Push? && m.stack.rest.Push? && m.stack.rest.top.B?
    ensures Run(f, t, AppGlobalPut(next), x, m)
         == Run(f, t, next, x, m.(stack := m.stack.rest.rest, cost := m.cost + 1,
                                  globals := m.globals[m.stack.rest.top.bytes := m.stack.top]))
  {
  }

  lemma RunAssert(f: nat, t: Label -> Code, next: Code, x: Ctx, m: Machine, p: bool)
    requires ValidCtx(x)
    ensures Run(f, t, Do(Assert, next), x, Pushed(m, Truth(p), 0))
         == if p then Run(f, t, next, x, Spent(m, 1)) else Panicked(Fault)
  {
  }

  lemma RunField(f: nat, t: Label -> Code, field: InnerField, v: Value, next: Code, x: Ctx, m: Machine)
    requires ValidCtx(x) && m.inner.Building?
    ensures Run(f, t, Do(ItxnField(field), next), x, Pushed(m, v, 0))
         == match SetField(field, x, m.inner.current, v)
            case None => Panicked(Fault)
            case Some(d) => Run(f, t, next, x, Spent(m, 1).(inner := Building(m.inner.done, d)))
  {
  }

  lemma RunItxn(f: nat, t: Label -> Code, op: ItxnOp, next: Code, x: Ctx, m: Machine)
    requires ValidCtx(x)
    ensures Run(f, t, Itxn(op, next), x, m)
         == match ItxnEffect(op, m)
            case None => Panicked(Fault)
            case Some(m1) => Run(f, t, next, x, Spent(m1, 1))
  {
  }

  lemma RunStore(f: nat, t: Label -> Code, v: Value, next: Code, x: Ctx, m: Machine)
    requires ValidCtx(x)
    ensures Run(f, t, Do(Store(0), next), x, Pushed(m, v, 0))
         == Run(f, t, next, x, Spent(m, 1).(scratch := m.scratch[0 := v]))
  {
  }

  lemma RunBnz(f: nat, t: Label -> Code, target: Label, next: Code, x: Ctx, m: Machine, p: bool)
    requires ValidCtx(x) && f >= 1
    ensures Run(f, t, Bnz(target, next), x, Pushed(m, Truth(p), 0))
         == if p then Run(f - 1, t, t(target), x, Spent(m, 1)) else Run(f, t, next, x, Spent(m, 1))
  {
  }

  lemma RunBranch(f: nat, t: Label -> Code, target: Label, x: Ctx, m: Machine)
    requires ValidCtx(x) && f >= 1
    ensures Run(f, t, Branch(target), x, m) == Run(f - 1, t, t(target), x, Spent(m, 1))
    ensures Run(f, t, Fall(target), x, m) == Run(f - 1, t, t(target), x, m)
  {
  }

  lemma RunCallsub(f: nat, t: Label -> Code, target: Label, next: Code, x: Ctx, m: Machine)
    requires ValidCtx(x) && f >= 1
    ensures Run(f, t, Callsub(target, next), x, m)
         == Run(f - 1, t, t(target), x, Spent(m, 1).(calls := Frame(next, m.calls)))
  {
  }

  lemma RunRetsub(f: nat, t: Label -> Code, ret: Code, x: Ctx, m: Machine)
    requires ValidCtx(x) && f >= 1 && m.calls == Frame(ret, NoFrame)
    ensures Run(f, t, Retsub, x, m) == Run(f - 1, t, ret, x, Spent(m, 1).(calls := NoFrame))
  {
  }

  lemma RunErr(f: nat, t: Label -> Code, x: Ctx, m: Machine)
    requires ValidCtx(x)
    ensures Run(f, t, Err, x, m) == Panicked(Fault)
  {
  }

  lemma RunVerifyBare(f: nat, t: Label -> Code, next: Code, x: Ctx, m: Machine, data: Bytes, sig: Bytes, key: Bytes)
    requires ValidCtx(x)
    ensures Run(f, t, Ed25519VerifyBare(next), x, Pushed(Pushed(Pushed(m, B(data), 0), B(sig), 0), B(key), 0))
         == if SignatureShape(sig, key) then
              Run(f, t, next, x, Pushed(m, Truth(x.crypto.verify(data, sig, key)), VERIFY_COST))
            else Panicked(Fault)
  {
  }

  lemma RunReturn(f: nat, t: Label -> Code, x: Ctx, m: Machine, n: u64)
    requires ValidCtx(x)
    ensures Run(f, t, Return, x, Pushed(m, U(n), 0)) == Halted(n != 0, Pushed(m, U(n), 1))
  {
  }

  // ----- the repeated runs of lines -----

  lemma RunPut(f: nat, t: Label -> Code, k: Key, v: Value, next: Code, x: Ctx, g: Globals, s: Stack, c: nat)
    requires ValidCtx(x)
    ensures Run(f, t, AppGlobalPut(next), x, M(g, Push(v, Push(B(Name(k)), s)), c))
         == Run(f, t, next, x, M(g[k := v], s, c + 1))
  {
    hide Run, Stored, Name;
    RunPutRaw(f, t, next, x, M(g, Push(v, Push(B(Name(k)), s)), c));
    StoredPut(g, k, v);
  }

  lemma RunGetKeyAt(f: nat, t: Label -> Code, k: Key, next: Code, x: Ctx, g: Globals, m: Machine)
    requires ValidCtx(x) && m.globals == Stored(g)
    ensures Run(f, t, GetKey(k, next), x, m) == Run(f, t, next, x, Pushed(m, Read(g, k), 2))
  {
    hide Run, Stored, Name;
    StoredAt(g, k);
    RunSource(f, t, Byte(Name(k)), Un(AppGlobalGet, next), x, m);
    RunUn(f, t, AppGlobalGet, next, x, Spent(m, 1), B(Name(k)));
  }

  lemma RunGetKey(f: nat, t: Label -> Code, k: Key, next: Code, x: Ctx, g: Globals, s: Stack, c: nat)
    requires ValidCtx(x)
    ensures Run(f, t, GetKey(k, next), x, M(g, s, c)) == Run(f, t, next, x, M(g, Push(Read(g, k), s), c + 2))
  {
    hide Run, Stored, Name, GetKey;
    RunGetKeyAt(f, t, k, next, x, g, M(g, s, c));
  }

  lemma RunTwoKeys(f: nat, t: Label -> Code, j: Key, k: Key, next: Code, x: Ctx, g: Globals, s: Stack, c: nat)
    requires ValidCtx(x)
    ensures Run(f, t, GetKey(j, GetKey(k, next)), x, M(g, s, c))
         == Run(f, t, next, x, M(g, Push(Read(g, k), Push(Read(g, j), s)), c + 4))
  {
    hide Run, Stored, GetKey;
    RunGetKey(f, t, j, GetKey(k, next), x, g, s, c);
    RunGetKey(f, t, k, next, x, g, Push(Read(g, j), s), c + 2);
  }

  lemma RunArgUint(f: nat, t: Label -> Code, i: nat, next: Code, x: Ctx, g: Globals, s: Stack, c: nat)
    requires ValidCtx(x)
    ensures Run(f, t, ArgUint(i, next), x, M(g, s, c))
         == if i < |x.args| && IsUint(x.args[i]) then Run(f, t, next, x, M(g, Push(U(Uint(x.args[i])), s), c + 2))
            else Panicked(Fault)
  {
    hide Run, Stored;
    RunSource(f, t, Txna(i), Un(BtoiOp, next), x, M(g, s, c));
    if i < |x.args| {
      RunUn(f, t, BtoiOp, next, x, M(g, s, c + 1), B(x.args[i]));
    }
  }

  lemma RunPutArg(f: nat, t: Label -> Code, k: Key, i: nat, next: Code, x: Ctx, g: Globals, s: Stack, c: nat)
    requires ValidCtx(x)
    ensures Run(f, t, PutArg(k, i, next), x, M(g, s, c))
         == if i < |x.args| && IsUint(x.args[i]) then Run(f, t, next, x, M(g[k := U(Uint(x.args[i]))], s, c + 4))
            else Panicked(Fault)
  {
    hide Run, Stored, Name;
    RunSource(f, t, Byte(Name(k)), ArgUint(i, AppGlobalPut(next)), x, M(g, s, c));
    RunArgUint(f, t, i, AppGlobalPut(next), x, g, Push(B(Name(k)), s), c + 1);
    if i < |x.args| && IsUint(x.args[i]) {
      RunPut(f, t, k, U(Uint(x.args[i])), next, x, g, s, c + 3);
    }
  }

  lemma RunPutSplit(f: nat, t: Label -> Code, next: Code, x: Ctx, g: Globals, s: Stack, c: nat)
    requires ValidCtx(x) && |x.args| >= 5 && IsUint(x.args[2]) && IsUint(x.args[3])
    ensures Run(f, t, PutSplit(next), x, M(g, s, c))
         == if IsUint(x.args[4]) then Run(f, t, next, x, M(WithSplit(x, g), s, c + 12)) else Panicked(Fault)
  {
    hide Run, Stored, PutArg;
    var c3 := PutArg(LatestBob, 3, next);
    var c2 := PutArg(LatestAlice, 2, c3);
    RunPutArg(f, t, LatestTimestamp, 4, c2, x, g, s, c);
    if IsUint(x.args[4]) {
      var g1 := g[LatestTimestamp := U(Uint(x.args[4]))];
      RunPutArg(f, t, LatestAlice, 2, c3, x, g1, s, c + 4);
      RunPutArg(f, t, LatestBob, 3, next, x, g1[LatestAlice := U(Uint(x.args[2]))], s, c + 8);
    }
  }

  /** Pushes bytes and joins them to those below. */
  lemma RunAppend(
      f: nat, t: Label -> Code, src: Source, b: Bytes, more: Bytes, next: Code, x: Ctx, g: Globals, s: Stack, c: nat)
    requires ValidCtx(x) && SourceValue(src, x, M(g, Push(B(b), s), c)) == Some(B(more))
    ensures Run(f, t, Get(src, Bin(Concat, next)), x, M(g, Push(B(b), s), c))
         == Run(f, t, next, x, M(g, Push(B(b + more), s), c + 2))
  {
    hide Run, Stored;
    RunSource(f, t, src, Bin(Concat, next), x, M(g, Push(B(b), s), c));
    RunBin(f, t, Concat, next, x, M(g, s, c + 1), B(b), B(more));
  }

  lemma RunAppendArg(f: nat, t: Label -> Code, i: nat, next: Code, x: Ctx, g: Globals, s: Stack, b: Bytes, c: nat)
    requires ValidCtx(x)
    ensures Run(f, t, AppendArg(i, next), x, M(g, Push(B(b), s), c))
         == if i < |x.args| then Run(f, t, next, x, M(g, Push(B(b + COMMA + x.args[i]), s), c + 4))
            else Panicked(Fault)
  {
    hide Run, Stored;
    var c2 := Get(Txna(i), Bin(Concat, next));
    RunAppend(f, t, Byte(COMMA), b, COMMA, c2, x, g, s, c);
    if i < |x.args| {
      RunAppend(f, t, Txna(i), b + COMMA, x.args[i], next, x, g, s, c + 2);
    } else {
      RunSource(f, t, Txna(i), Bin(Concat, next), x, M(g, Push(B(b + COMMA), s), c + 2));
    }
  }

  lemma RunAppId(f: nat, t: Label -> Code, next: Code, x: Ctx, g: Globals, s: Stack, b: Bytes, c: nat)
    requires ValidCtx(x)
    ensures Run(f, t, Get(GlobalCurrentApplicationID, Un(ItobOp, Bin(Concat, next))), x, M(g, Push(B(b), s), c))
         == Run(f, t, next, x, M(g, Push(B(b + Itob(x.app)), s), c + 3))
  {
    hide Run, Stored, Itob;
    var m := M(g, Push(B(b), s), c);
    RunSource(f, t, GlobalCurrentApplicationID, Un(ItobOp, Bin(Concat, next)), x, m);
    RunUn(f, t, ItobOp, Bin(Concat, next), x, Spent(m, 1), U(x.app));
    RunBin(f, t, Concat, next, x, M(g, s, c + 2), B(b), B(Itob(x.app)));
  }

  /** Prefix, port and application id. */
  function DigestHead(kind: Kind, next: Code): Code {
    Get(Byte(Prefix(kind)), Get(Txna(1), Bin(Concat,
    Get(Byte(COMMA), Bin(Concat, Get(GlobalCurrentApplicationID, Un(ItobOp, Bin(Concat, next))))))))
  }

  lemma RunDigestHead(f: nat, t: Label -> Code, kind: Kind, next: Code, x: Ctx, g: Globals, s: Stack, c: nat)
    requires ValidCtx(x)
    ensures Run(f, t, DigestHead(kind, next), x, M(g, s, c))
         == if |x.args| < 2 then Panicked(Fault)
            else Run(f, t, next, x, M(g, Push(B(Prefix(kind) + x.args[1] + COMMA + Itob(x.app)), s), c + 8))
  {
    hide Run, Stored, Itob, Prefix;
    var c4 := Get(GlobalCurrentApplicationID, Un(ItobOp, Bin(Concat, next)));
    var c3 := Get(Byte(COMMA), Bin(Concat, c4));
    RunSource(f, t, Byte(Prefix(kind)), Get(Txna(1), Bin(Concat, c3)), x, M(g, s, c));
    if |x.args| < 2 {
      RunSource(f, t, Txna(1), Bin(Concat, c3), x, M(g, Push(B(Prefix(kind)), s), c + 1));
    } else {
      RunAppend(f, t, Txna(1), Prefix(kind), x.args[1], c3, x, g, s, c + 1);
      RunAppend(f, t, Byte(COMMA), Prefix(kind) + x.args[1], COMMA, c4, x, g, s, c + 3);
      RunAppId(f, t, next, x, g, s, Prefix(kind) + x.args[1] + COMMA, c + 5);
    }
  }

  lemma RunHash(f: nat, t: Label -> Code, suffix: Bytes, next: Code, x: Ctx, g: Globals, s: Stack, b: Bytes, c: nat)
    requires ValidCtx(x)
    ensures Run(f, t, Get(Byte(suffix), Bin(Concat, Un(Sha3_256, next))), x, M(g, Push(B(b), s), c))
         == Run(f, t, next, x, M(g, Push(B(x.crypto.hash(b + suffix)), s), c + 132))
  {
    hide Run, Stored;
    RunAppend(f, t, Byte(suffix), b, suffix, Un(Sha3_256, next), x, g, s, c);
    RunUn(f, t, Sha3_256, next, x, M(g, s, c + 2), B(b + suffix));
  }

  lemma RunDigest(f: nat, t: Label -> Code, kind: Kind, next: Code, x: Ctx, g: Globals, s: Stack, c: nat)
    requires ValidCtx(x)
    ensures Run(f, t, Digest(kind, next), x, M(g, s, c))
         == if |x.args| < 5 then Panicked(Fault)
            else
              var m := Assemble(kind, x.args[1], x.app, x.args[2], x.args[3], x.args[4]);
              Run(f, t, next, x, M(g, Push(B(x.crypto.hash(m)), s), c + 152))
  {
    hide Run, Stored, Itob, Prefix, Suffix, AppendArg;
    var tail := Get(Byte(Suffix(kind)), Bin(Concat, Un(Sha3_256, next)));
    var a4 := AppendArg(4, tail);
    var a3 := AppendArg(3, a4);
    var a2 := AppendArg(2, a3);
    assert Digest(kind, next) == DigestHead(kind, a2);
    RunDigestHead(f, t, kind, a2, x, g, s, c);
    if |x.args| >= 2 {
      var b := Prefix(kind) + x.args[1] + COMMA + Itob(x.app);
      RunAppendArg(f, t, 2, a3, x, g, s, b, c + 8);
      if |x.args| >= 3 {
        var b2 := b + COMMA + x.args[2];
        RunAppendArg(f, t, 3, a4, x, g, s, b2, c + 12);
        if |x.args| >= 4 {
          var b3 := b2 + COMMA + x.args[3];
          RunAppendArg(f, t, 4, tail, x, g, s, b3, c + 16);
          if |x.args| >= 5 {
            RunHash(f, t, Suffix(kind), next, x, g, s, b3 + COMMA + x.args[4], c + 20);
          }
        }
      }
    }
  }

  lemma RunVerify(f: nat, t: Label -> Code, i: nat, k: Key, next: Code, x: Ctx, g: Globals, s: Stack, d: Bytes, c: nat)
    requires ValidCtx(x) && k in g && g[k].B?
    ensures Run(f, t, Arg(i, GetKey(k, Ed25519VerifyBare(next))), x, M(g, Push(B(d), s), c))
         == if i < |x.args| && SignatureShape(x.args[i], g[k].bytes) then
              Run(f, t, next, x, M(g, Push(Truth(x.crypto.verify(d, x.args[i], g[k].bytes)), s), c + 1903))
            else Panicked(Fault)
  {
    hide Run, Stored, GetKey;
    RunSource(f, t, Txna(i), GetKey(k, Ed25519VerifyBare(next)), x, M(g, Push(B(d), s), c));
    if i < |x.args| {
      RunGetKey(f, t, k, Ed25519VerifyBare(next), x, g, Push(B(x.args[i]), Push(B(d), s)), c + 1);
      RunVerifyBare(f, t, next, x, M(g, s, c + 3), d, x.args[i], g[k].bytes);
    }
  }

  /** The digest again, and whether `sig` signs it: lines 68-94 and 95-121. */
  function SignedBy(kind: Kind, i: nat, k: Key, next: Code): Code {
    Digest(kind, Arg(i, GetKey(k, Ed25519VerifyBare(next))))
  }

  lemma RunSignedBy(
      f: nat, t: Label -> Code, kind: Kind, i: nat, k: Key, next: Code, x: Ctx, g: Globals, s: Stack, c: nat)
    requires ValidCtx(x) && k in g && g[k].B? && i >= 5
    ensures Run(f, t, SignedBy(kind, i, k, next), x, M(g, s, c))
         == if i < |x.args| && SignatureShape(x.args[i], g[k].bytes) then
              var d := x.crypto.hash(Assemble(kind, x.args[1], x.app, x.args[2], x.args[3], x.args[4]));
              Run(f, t, next, x, M(g, Push(Truth(x.crypto.verify(d, x.args[i], g[k].bytes)), s), c + 2055))
            else Panicked(Fault)
  {
    hide Run, Stored, GetKey, Digest, Assemble;
    var c1 := Arg(i, GetKey(k, Ed25519VerifyBare(next)));
    RunDigest(f, t, kind, c1, x, g, s, c);
    if |x.args| >= 5 {
      var d := x.crypto.hash(Assemble(kind, x.args[1], x.app, x.args[2], x.args[3], x.args[4]));
      RunVerify(f, t, i, k, next, x, g, s, d, c + 152);
    }
  }

  /** Lines 123-131: do the balances in arguments 2 and 3 add up to the deposit, and did the test before hold? */
  function SumTest(next: Code): Code {
    ArgUint(2, ArgUint(3, Bin(Plus, GetKey(TotalDeposit, Bin(Eq, Bin(AndAnd, next))))))
  }

  lemma RunSumEnd(f: nat, t: Label -> Code, next: Code, x: Ctx, g: Globals, s: Stack, p: bool, a: u64, b: u64, c: nat)
    requires ValidCtx(x) && Read(g, TotalDeposit).U?
    ensures Run(f, t, Bin(Plus, GetKey(TotalDeposit, Bin(Eq, Bin(AndAnd, next)))), x,
                M(g, Push(U(b), Push(U(a), Push(Truth(p), s))), c))
         == if a + b >= U64_LIMIT then Panicked(Fault)
            else Run(f, t, next, x, M(g, Push(Truth(p && a + b == Read(g, TotalDeposit).num), s), c + 5))
  {
    hide Run, Stored, GetKey;
    var c4 := Bin(Eq, Bin(AndAnd, next));
    var s1, n := Push(Truth(p), s), Read(g, TotalDeposit);
    RunBin(f, t, Plus, GetKey(TotalDeposit, c4), x, M(g, s1, c), U(a), U(b));
    if a + b < U64_LIMIT {
      RunGetKey(f, t, TotalDeposit, c4, x, g, Push(U(a + b), s1), c + 1);
      RunBin(f, t, Eq, Bin(AndAnd, next), x, M(g, s1, c + 3), U(a + b), n);
      RunBin(f, t, AndAnd, next, x, M(g, s, c + 4), Truth(p), Truth(a + b == n.num));
    }
  }

  lemma RunSumTest(f: nat, t: Label -> Code, next: Code, x: Ctx, g: Globals, s: Stack, p: bool, c: nat)
    requires ValidCtx(x) && WellTyped(g) && |x.args| >= 4
    ensures Run(f, t, SumTest(next), x, M(g, Push(Truth(p), s), c))
         == if IsUint(x.args[2]) && IsUint(x.args[3]) && Uint(x.args[2]) + Uint(x.args[3]) < U64_LIMIT then
              var q := Uint(x.args[2]) + Uint(x.args[3]) == Num(g, TotalDeposit);
              Run(f, t, next, x, M(g, Push(Truth(p && q), s), c + 9))
            else Panicked(Fault)
  {
    hide Run, Stored, GetKey, ArgUint, WellTyped;
    TypedReads(g);
    var c2 := Bin(Plus, GetKey(TotalDeposit, Bin(Eq, Bin(AndAnd, next))));
    var s1 := Push(Truth(p), s);
    RunArgUint(f, t, 2, ArgUint(3, c2), x, g, s1, c);
    if IsUint(x.args[2]) {
      var a := Uint(x.args[2]);
      RunArgUint(f, t, 3, c2, x, g, Push(U(a), s1), c + 2);
      if IsUint(x.args[3]) {
        RunSumEnd(f, t, next, x, g, s, p, a, Uint(x.args[3]), c + 4);
      }
    }
  }

  /** Both signatures have the shape the AVM verifies. */
  predicate BothShaped(x: Ctx, g: Globals)
    requires WellTyped(g)
  {
    |x.args| >= 7 && SignatureShape(x.args[5], Alice(g)) && SignatureShape(x.args[6], Bob(g))
  }

  predicate BothSigned(x: Ctx, g: Globals, kind: Kind)
    requires WellTyped(g) && |x.args| >= 7
  {
    var d := x.crypto.hash(SignedMessage(x, kind));
    x.crypto.verify(d, x.args[5], Alice(g)) && x.crypto.verify(d, x.args[6], Bob(g))
  }

  /** Lines 68-122 and 319-373: the two signature checks. */
  lemma RunBothSigned(f: nat, t: Label -> Code, kind: Kind, next: Code, x: Ctx, g: Globals, s: Stack, c: nat)
    requires ValidCtx(x) && WellTyped(g)
    ensures Run(f, t, SignedBy(kind, 5, AliceAddress, SignedBy(kind, 6, BobAddress, Bin(AndAnd, next))), x, M(g, s, c))
         == if BothShaped(x, g) then Run(f, t, next, x, M(g, Push(Truth(BothSigned(x, g, kind)), s), c + 4111))
            else Panicked(Fault)
  {
    hide Run, Stored, Assemble, WellTyped, SignatureShape, SignedBy;
    TypedReads(g);
    var c4 := Bin(AndAnd, next);
    var c2 := SignedBy(kind, 6, BobAddress, c4);
    RunSignedBy(f, t, kind, 5, AliceAddress, c2, x, g, s, c);
    if |x.args| >= 6 && SignatureShape(x.args[5], Alice(g)) {
      var d := x.crypto.hash(Assemble(kind, x.args[1], x.app, x.args[2], x.args[3], x.args[4]));
      var p := x.crypto.verify(d, x.args[5], Alice(g));
      RunSignedBy(f, t, kind, 6, BobAddress, c4, x, g, Push(Truth(p), s), c + 2055);
      if |x.args| >= 7 && SignatureShape(x.args[6], Bob(g)) {
        var q := x.crypto.verify(d, x.args[6], Bob(g));
        RunBin(f, t, AndAnd, next, x, M(g, s, c + 4110), Truth(p), Truth(q));
      }
    }
  }

  /** Lines 68-131 and 319-382: the whole strict condition. */
  lemma RunSplitTest(f: nat, t: Label -> Code, kind: Kind, next: Code, x: Ctx, g: Globals, s: Stack, c: nat)
    requires ValidCtx(x) && WellTyped(g)
    ensures Run(f, t, SplitTest(kind, next), x, M(g, s, c))
         == if SplitComputes(x, g) then Run(f, t, next, x, M(g, Push(Truth(SplitHolds(x, g, kind)), s), c + 4120))
            else Panicked(Fault)
  {
    hide Run, Stored, WellTyped, SumTest, SignatureShape, SplitTest, SignedBy, SignedMessage;
    SplitTestParts(kind, next);
    RunBothSigned(f, t, kind, SumTest(next), x, g, s, c);
    if BothShaped(x, g) {
      RunSumTest(f, t, next, x, g, s, BothSigned(x, g, kind), c + 4111);
    }
  }

  lemma SplitTestParts(kind: Kind, next: Code)
    ensures SplitTest(kind, next)
         == SignedBy(kind, 5, AliceAddress, SignedBy(kind, 6, BobAddress, Bin(AndAnd, SumTest(next))))
  {
    hide Digest, GetKey;
  }

  lemma RunSenderIs(f: nat, t: Label -> Code, k: Key, next: Code, x: Ctx, g: Globals, s: Stack, c: nat)
    requires ValidCtx(x) && k in g && g[k].B?
    ensures Run(f, t, Get(TxnSender, GetKey(k, Bin(Eq, next))), x, M(g, s, c))
         == Run(f, t, next, x, M(g, Push(Truth(x.sender == g[k].bytes), s), c + 4))
  {
    hide Run, Stored, GetKey;
    RunSource(f, t, TxnSender, GetKey(k, Bin(Eq, next)), x, M(g, s, c));
    RunGetKey(f, t, k, Bin(Eq, next), x, g, Push(B(x.sender), s), c + 1);
    RunBin(f, t, Eq, next, x, M(g, s, c + 3), B(x.sender), g[k]);
  }

  lemma RunPartyTest(f: nat, t: Label -> Code, next: Code, x: Ctx, g: Globals, s: Stack, c: nat)
    requires ValidCtx(x) && WellTyped(g)
    ensures Run(f, t, PartyTest(next), x, M(g, s, c))
         == if FromParty(x, g) then Run(f, t, next, x, M(g, s, c + 10)) else Panicked(Fault)
  {
    hide Run, Stored, GetKey, WellTyped;
    TypedReads(g);
    var c3 := Bin(OrOr, Do(Assert, next));
    var c2 := Get(TxnSender, GetKey(BobAddress, Bin(Eq, c3)));
    var p, q := x.sender == Alice(g), x.sender == Bob(g);
    RunSenderIs(f, t, AliceAddress, c2, x, g, s, c);
    RunSenderIs(f, t, BobAddress, c3, x, g, Push(Truth(p), s), c + 4);
    RunBin(f, t, OrOr, Do(Assert, next), x, M(g, s, c + 8), Truth(p), Truth(q));
    RunAssert(f, t, next, x, M(g, s, c + 9), p || q);
  }

  // ----- verdicts -----

  /** The run ends the way the transition function says: a panic (never for want of stack or jumps) or a refusal,
      or approval with that global state, those payments, and opcodes of at most that cost. */
  ghost predicate Agrees(v: Verdict, o: Outcome, cost: nat) {
    match v
    case Panicked(why) => why == Fault && o.Rejected?
    case Halted(approved, m) =>
      && m.cost <= cost
      && (if approved then o.Approved? && m.globals == Stored(o.globals) && m.sent == o.payouts else o.Rejected?)
  }

  lemma RunApproveAt(f: nat, t: Label -> Code, x: Ctx, m: Machine)
    requires ValidCtx(x)
    ensures Run(f, t, APPROVE, x, m) == Halted(true, Pushed(m, U(1), 2))
  {
    hide Run;
    RunSource(f, t, Int(1), Return, x, m);
    RunReturn(f, t, x, Spent(m, 1), 1);
  }

  lemma RunApprove(f: nat, t: Label -> Code, x: Ctx, g: Globals, s: Stack, c: nat)
    requires ValidCtx(x)
    ensures Run(f, t, APPROVE, x, M(g, s, c)) == Halted(true, M(g, Push(U(1), s), c + 2))
  {
    hide Run, Stored;
    RunApproveAt(f, t, x, M(g, s, c));
  }

  lemma RunReject(f: nat, t: Label -> Code, x: Ctx, g: Globals, s: Stack, c: nat)
    requires ValidCtx(x)
    ensures Run(f, t, REJECT, x, M(g, s, c)) == Halted(false, M(g, Push(U(0), s), c + 2))
  {
    hide Run, Stored;
    RunSource(f, t, Int(0), Return, x, M(g, s, c));
    RunReturn(f, t, x, M(g, s, c + 1), 0);
  }
}
