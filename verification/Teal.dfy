/** The stack machine that runs TEAL: the opcodes of the compiled approval program. */
module Teal {
  import opened Bytes
  import opened Contract

  datatype GroupField = GSender | GTypeEnum | GAmount | GReceiver

  datatype InnerField = TypeEnum | Amount | Receiver | CloseRemainderTo

  /** Opcodes that push a constant, a transaction field, a chain value or a scratch slot. */
  datatype Source =
    | Int(n: u64)
    | Byte(b: Bytes)
    | TxnApplicationID | TxnOnCompletion | TxnSender | TxnNumAppArgs | TxnGroupIndex
    | Txna(i: nat)
    | GlobalRound | GlobalMinTxnFee | GlobalCurrentApplicationID | GlobalCurrentApplicationAddress
    | Load(slot: nat)

  datatype Unary = AppGlobalGet | ItobOp | BtoiOp | Sha3_256 | Gtxns(field: GroupField)

  datatype Binary = Eq | Lt | Gt | Ge | Plus | Minus | AndAnd | OrOr | Concat

  /** Opcodes that take one value and leave none. */
  datatype Sink = Assert | Store(slot: nat) | ItxnField(inner: InnerField)

  datatype ItxnOp = ItxnBegin | ItxnNext | ItxnSubmit

  datatype Label =
    | Main | L6 | L7 | L14 | L15 | L16 | L17 | L18 | L19 | L20 | L22 | L24 | L25 | L26 | L27
    | L29 | L30 | L31 | L32 | L33 | L34 | L35 | CloseAccountTo

  /** Program text from one line on; Fall marks the place where the next line is another label's. */
  datatype Code =
    | Get(source: Source, next: Code)
    | Un(unary: Unary, next: Code)
    | Bin(binary: Binary, next: Code)
    | Ed25519VerifyBare(next: Code)
    | AppGlobalPut(next: Code)
    | Do(sink: Sink, next: Code)
    | Itxn(itxn: ItxnOp, next: Code)
    | Bnz(target: Label, next: Code)
    | Branch(target: Label)
    | Fall(target: Label)
    | Callsub(target: Label, next: Code)
    | Retsub
    | Return
    | Err

  datatype Stack = Empty | Push(top: Value, rest: Stack)

  /** Where subroutines return to. */
  datatype Calls = NoFrame | Frame(code: Code, callers: Calls)

  /** An inner transaction under construction, with the fields set so far. */
  datatype Draft = Draft(isPay: bool, amount: u64, receiver: Option<Bytes>, closeTo: Option<Bytes>)

  datatype Inner = Idle | Building(done: seq<Payment>, current: Draft)

  datatype Machine = Machine(
    stack: Stack,
    globals: map<Bytes, Value>,
    scratch: map<nat, Value>,
    calls: Calls,
    inner: Inner,
    sent: seq<Payment>,
    cost: nat)

  /** Underflow and NoFuel are the failures the program must never run into; Fault is every other panic. */
  datatype Failure = Underflow | Fault | NoFuel

  datatype Verdict = Halted(approved: bool, m: Machine) | Panicked(why: Failure)

  const NEW_DRAFT := Draft(false, 0, None, None)

  function CompletionCode(c: OnCompletion): u64 {
    match c
    case NoOp => 0
    case OptIn => 1
    case CloseOut => 2
    case ClearState => 3
    case UpdateApplication => 4
    case DeleteApplication => 5
  }

  function TypeCode(t: TxnType): u64 {
    if t == Pay then 1 else 0
  }

  function Truth(b: bool): Value {
    U(if b then 1 else 0)
  }

  function SourceValue(s: Source, x: Ctx, m: Machine): Option<Value>
    requires ValidCtx(x)
  {
    match s
    case Int(n) => Some(U(n))
    case Byte(b) => Some(B(b))
    case TxnApplicationID => Some(U(if x.creating then 0 else x.app))
    case TxnOnCompletion => Some(U(CompletionCode(x.onCompletion)))
    case TxnSender => Some(B(x.sender))
    case TxnNumAppArgs => Some(U(|x.args|))
    case TxnGroupIndex => Some(U(x.groupIndex))
    case Txna(i) => if i < |x.args| then Some(B(x.args[i])) else None
    case GlobalRound => Some(U(x.round))
    case GlobalMinTxnFee => Some(U(MIN_TXN_FEE))
    case GlobalCurrentApplicationID => Some(U(x.app))
    case GlobalCurrentApplicationAddress => Some(B(x.escrow))
    case Load(i) => Some(if i in m.scratch then m.scratch[i] else U(0))
  }

  function GroupValue(f: GroupField, t: GroupTxn): Value {
    match f
    case GSender => B(t.sender)
    case GTypeEnum => U(TypeCode(t.txnType))
    case GAmount => U(t.amount)
    case GReceiver => B(t.receiver)
  }

  function UnaryValue(op: Unary, x: Ctx, g: map<Bytes, Value>, c: Value): Option<Value>
    requires ValidCtx(x)
  {
    match op
    case AppGlobalGet => if c.B? then Some(if c.bytes in g then g[c.bytes] else U(0)) else None
    case ItobOp => if c.U? then Some(B(Itob(c.num))) else None
    case BtoiOp => if c.B? && IsUint(c.bytes) then Some(U(Uint(c.bytes))) else None
    case Sha3_256 => if c.B? then Some(B(x.crypto.hash(c.bytes))) else None
    case Gtxns(f) => if c.U? && c.num < |x.group| then Some(GroupValue(f, x.group[c.num])) else None
  }

  /** b was pushed before c. */
  function BinaryValue(op: Binary, b: Value, c: Value): Option<Value> {
    if op == Concat then if b.B? && c.B? then Some(B(b.bytes + c.bytes)) else None
    else if op == Eq then if b.U? == c.U? then Some(Truth(b == c)) else None
    else if !b.U? || !c.U? then None
    else
      match op
      case Lt => Some(Truth(b.num < c.num))
      case Gt => Some(Truth(b.num > c.num))
      case Ge => Some(Truth(b.num >= c.num))
      case Plus => if b.num + c.num < U64_LIMIT then Some(U(b.num + c.num)) else None
      case Minus => if b.num >= c.num then Some(U(b.num - c.num)) else None
      case AndAnd => Some(Truth(b.num != 0 && c.num != 0))
      case _ => Some(Truth(b.num != 0 || c.num != 0))
  }

  function SinkEffect(op: Sink, x: Ctx, m: Machine, c: Value): Option<Machine> {
    match op
    case Assert => if c.U? && c.num != 0 then Some(m) else None
    case Store(i) => Some(m.(scratch := m.scratch[i := c]))
    case ItxnField(f) =>
      if m.inner.Idle? then None
      else
        match SetField(f, x, m.inner.current, c)
        case None => None
        case Some(d) => Some(m.(inner := Building(m.inner.done, d)))
  }

  function SetField(f: InnerField, x: Ctx, d: Draft, c: Value): Option<Draft> {
    match f
    case TypeEnum => if c == U(1) then Some(d.(isPay := true)) else None
    case Amount => if c.U? then Some(d.(amount := c.num)) else None
    case Receiver => if c.B? && Payable(x, c.bytes) then Some(d.(receiver := Some(c.bytes))) else None
    case CloseRemainderTo => if c.B? && Payable(x, c.bytes) then Some(d.(closeTo := Some(c.bytes))) else None
  }

  function ItxnEffect(op: ItxnOp, m: Machine): Option<Machine> {
    if op == ItxnBegin then
      if m.inner.Idle? then Some(m.(inner := Building([], NEW_DRAFT))) else None
    else if m.inner.Idle? || !Sendable(m.inner.current) then None
    else
      var done := m.inner.done + [Sent(m.inner.current)];
      if op == ItxnNext then Some(m.(inner := Building(done, NEW_DRAFT)))
      else Some(m.(inner := Idle, sent := m.sent + done))
  }

  /** The program sends only payments that name a receiver. */
  predicate Sendable(d: Draft) {
    d.isPay && d.receiver.Some?
  }

  function Sent(d: Draft): Payment
    requires Sendable(d)
  {
    Payment(d.amount, d.receiver.value, d.closeTo)
  }

  function Spent(m: Machine, cost: nat): Machine {
    m.(cost := m.cost + cost)
  }

  /** m after opcodes of total cost `cost` that pushed v. */
  function Pushed(m: Machine, v: Value, cost: nat): Machine {
    m.(stack := Push(v, m.stack), cost := m.cost + cost)
  }

  /** m after opcodes of total cost `cost` that left the stack as given. */
  function WithStack(m: Machine, stack: Stack, cost: nat): Machine {
    m.(stack := stack, cost := m.cost + cost)
  }

  function UnaryCost(op: Unary): nat {
    if op == Sha3_256 then 130 else 1
  }

  const VERIFY_COST: nat := 1900

  /** Runs `code`; `text` gives the program at each label, and fuel bounds the number of jumps. */
  function Run(fuel: nat, text: Label -> Code, code: Code, x: Ctx, m: Machine): Verdict
    requires ValidCtx(x)
    decreases fuel, code
  {
    match code
    case Get(s, next) =>
      (match SourceValue(s, x, m)
       case None => Panicked(Fault)
       case Some(v) => Run(fuel, text, next, x, Pushed(m, v, 1)))
    case Un(op, next) =>
      if m.stack.Empty? then Panicked(Underflow)
      else
        (match UnaryValue(op, x, m.globals, m.stack.top)
         case None => Panicked(Fault)
         case Some(v) => Run(fuel, text, next, x, WithStack(m, Push(v, m.stack.rest), UnaryCost(op))))
    case Bin(op, next) =>
      if m.stack.Empty? || m.stack.rest.Empty? then Panicked(Underflow)
      else
        (match BinaryValue(op, m.stack.rest.top, m.stack.top)
         case None => Panicked(Fault)
         case Some(v) => Run(fuel, text, next, x, WithStack(m, Push(v, m.stack.rest.rest), 1)))
    case Ed25519VerifyBare(next) =>
      if m.stack.Empty? || m.stack.rest.Empty? || m.stack.rest.rest.Empty? then Panicked(Underflow)
      else
        var data, sig, key := m.stack.rest.rest.top, m.stack.rest.top, m.stack.top;
        if !data.B? || !sig.B? || !key.B? || !SignatureShape(sig.bytes, key.bytes) then Panicked(Fault)
        else
          var v := Truth(x.crypto.verify(data.bytes, sig.bytes, key.bytes));
          Run(fuel, text, next, x, WithStack(m, Push(v, m.stack.rest.rest.rest), VERIFY_COST))
    case AppGlobalPut(next) =>
      if m.stack.Empty? || m.stack.rest.Empty? then Panicked(Underflow)
      else if m.stack.rest.top.U? then Panicked(Fault)
      else
        var g := m.globals[m.stack.rest.top.bytes := m.stack.top];
        Run(fuel, text, next, x, WithStack(m, m.stack.rest.rest, 1).(globals := g))
    case Do(op, next) =>
      if m.stack.Empty? then Panicked(Underflow)
      else
        (match SinkEffect(op, x, m, m.stack.top)
         case None => Panicked(Fault)
         case Some(m1) => Run(fuel, text, next, x, WithStack(m1, m.stack.rest, 1)))
    case Itxn(op, next) =>
      (match ItxnEffect(op, m)
       case None => Panicked(Fault)
       case Some(m1) => Run(fuel, text, next, x, Spent(m1, 1)))
    case Bnz(target, next) =>
      if m.stack.Empty? then Panicked(Underflow)
      else if m.stack.top.B? then Panicked(Fault)
      else if m.stack.top.num == 0 then Run(fuel, text, next, x, WithStack(m, m.stack.rest, 1))
      else if fuel == 0 then Panicked(NoFuel)
      else Run(fuel - 1, text, text(target), x, WithStack(m, m.stack.rest, 1))
    case Branch(target) =>
      if fuel == 0 then Panicked(NoFuel) else Run(fuel - 1, text, text(target), x, Spent(m, 1))
    case Fall(target) =>
      if fuel == 0 then Panicked(NoFuel) else Run(fuel - 1, text, text(target), x, m)
    case Callsub(target, next) =>
      if fuel == 0 then Panicked(NoFuel)
      else Run(fuel - 1, text, text(target), x, Spent(m, 1).(calls := Frame(next, m.calls)))
    case Retsub =>
      if m.calls.NoFrame? then Panicked(Fault)
      else if fuel == 0 then Panicked(NoFuel)
      else Run(fuel - 1, text, m.calls.code, x, Spent(m, 1).(calls := m.calls.callers))
    case Return =>
      if m.stack.Empty? then Panicked(Underflow)
      else if m.stack.top.B? then Panicked(Fault)
      else Halted(m.stack.top.num != 0, Spent(m, 1))
    case Err => Panicked(Fault)
  }
}
