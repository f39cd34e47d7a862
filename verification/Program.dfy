/** The compiled approval program, label by label. */
module Program {
  import opened Bytes
  import opened Messages
  import opened Contract
  import opened Teal

  /** The byte string under which a key is stored. */
  function Name(k: Key): Bytes {
    match k
    case AliceAddress => Ascii("alice_address")
    case BobAddress => Ascii("bob_address")
    case PenaltyReserve => Ascii("penalty_reserve")
    case DisputeWindow => Ascii("dispute_window")
    case Timeout => Ascii("timeout")
    case ClosingInitiator => Ascii("closing_initiator")
    case LatestAlice => Ascii("latest_alice_balance")
    case LatestBob => Ascii("latest_bob_balance")
    case LatestTimestamp => Ascii("latest_timestamp")
    case TotalDeposit => Ascii("total_deposit")
  }

  // ----- runs of lines that the compiler repeats; `next` is the line after them -----

  function GetKey(k: Key, next: Code): Code {
    Get(Byte(Name(k)), Un(AppGlobalGet, next))
  }

  function Arg(i: nat, next: Code): Code {
    Get(Txna(i), next)
  }

  function ArgUint(i: nat, next: Code): Code {
    Get(Txna(i), Un(BtoiOp, next))
  }

  function AppendArg(i: nat, next: Code): Code {
    Get(Byte(COMMA), Bin(Concat, Get(Txna(i), Bin(Concat, next))))
  }

  /** The digest of the message in arguments 1 to 4 (lines 68-90 for a close, 319-341 for a state). */
  function Digest(kind: Kind, next: Code): Code {
    Get(Byte(Prefix(kind)), Get(Txna(1), Bin(Concat,
    Get(Byte(COMMA), Bin(Concat, Get(GlobalCurrentApplicationID, Un(ItobOp, Bin(Concat,
    AppendArg(2, AppendArg(3, AppendArg(4,
    Get(Byte(Suffix(kind)), Bin(Concat, Un(Sha3_256, next))))))))))))))
  }

  /** Both signature checks and the sum test (lines 68-131 and 319-382). */
  function SplitTest(kind: Kind, next: Code): Code {
    Digest(kind, Arg(5, GetKey(AliceAddress, Ed25519VerifyBare(
    Digest(kind, Arg(6, GetKey(BobAddress, Ed25519VerifyBare(Bin(AndAnd,
    ArgUint(2, ArgUint(3, Bin(Plus,
    GetKey(TotalDeposit, Bin(Eq, Bin(AndAnd, next)))))))))))))))
  }

  /** Only Alice or Bob get past this (lines 53-62 and 309-318). */
  function PartyTest(next: Code): Code {
    Get(TxnSender, GetKey(AliceAddress, Bin(Eq,
    Get(TxnSender, GetKey(BobAddress, Bin(Eq,
    Bin(OrOr, Do(Assert, next))))))))
  }

  function PutArg(k: Key, i: nat, next: Code): Code {
    Get(Byte(Name(k)), Get(Txna(i), Un(BtoiOp, AppGlobalPut(next))))
  }

  /** Stores timestamp and balances (lines 137-148, 242-253 and 403-414). */
  function PutSplit(next: Code): Code {
    PutArg(LatestTimestamp, 4, PutArg(LatestAlice, 2, PutArg(LatestBob, 3, next)))
  }

  /** Moves the penalty and approves (lines 259-282 and 284-307). */
  function MovePenalty(from: Key, to: Key): Code {
    GetKey(from, GetKey(PenaltyReserve, Bin(Minus, Get(Int(0), Bin(Ge, Do(Assert,
    Get(Byte(Name(from)), GetKey(from, GetKey(PenaltyReserve, Bin(Minus, AppGlobalPut(
    Get(Byte(Name(to)), GetKey(to, GetKey(PenaltyReserve, Bin(Plus, AppGlobalPut(
    Get(Int(1), Return)))))))))))))))))
  }

  /** A field of the transaction before this one (lines 425-428 and alike). */
  function Previous(f: GroupField, next: Code): Code {
    Get(TxnGroupIndex, Get(Int(1), Bin(Minus, Un(Gtxns(f), next))))
  }

  /** Jumps to `target` when argument 0 is the method's name (lines 27-30 and alike). */
  function OnMethod(m: Method, target: Label, next: Code): Code {
    Get(Txna(0), Get(Byte(MethodName(m)), Bin(Eq, Bnz(target, next))))
  }

  function OnOutcome(c: OnCompletion, target: Label, next: Code): Code {
    Get(TxnOnCompletion, Get(Int(CompletionCode(c)), Bin(Eq, Bnz(target, next))))
  }

  /** Type, amount and receiver of one payment (lines 510-519 and 521-530). */
  function PayFields(balance: Key, receiver: Key, next: Code): Code {
    Get(Int(1), Do(ItxnField(TypeEnum),
    GetKey(balance, Get(GlobalMinTxnFee, Bin(Minus, Do(ItxnField(Amount),
    GetKey(receiver, Do(ItxnField(Receiver), next))))))))
  }

  const APPROVE: Code := Get(Int(1), Return)
  const REJECT: Code := Get(Int(0), Return)

  // lines 2-22
  function BlockMain(): Code {
    Get(TxnApplicationID, Get(Int(0), Bin(Eq, Bnz(L35,
    OnOutcome(UpdateApplication, L34,
    OnOutcome(CloseOut, L33,
    OnOutcome(NoOp, L7,
    OnOutcome(DeleteApplication, L6,
    Err))))))))
  }

  // lines 26-51
  function BlockL7(): Code {
    OnMethod(FundCall, L32,
    OnMethod(IncreaseBudget, L31,
    OnMethod(InitiateCall, L25,
    OnMethod(DisputeCall, L20,
    OnMethod(FinalizeCall, L17,
    OnMethod(CooperativeCall, L14,
    Err))))))
  }

  // lines 52-132
  function BlockL14(): Code {
    PartyTest(GetKey(Timeout, Get(Int(0), Bin(Eq, Do(Assert,
    SplitTest(CloseChannel, Bnz(L16, Fall(L15))))))))
  }

  // lines 136-152
  function BlockL16(): Code {
    PutSplit(GetKey(AliceAddress, Callsub(CloseAccountTo, Branch(L15))))
  }

  // lines 153-158
  function BlockL17(): Code {
    Get(GlobalRound, GetKey(Timeout, Bin(Gt, Bnz(L19, Fall(L18)))))
  }

  // lines 162-166
  function BlockL19(): Code {
    GetKey(AliceAddress, Callsub(CloseAccountTo, Branch(L18)))
  }

  // lines 167-240
  function BlockL20(): Code {
    SplitTest(CloseChannel,
    GetKey(LatestTimestamp, ArgUint(4, Bin(Lt, Bin(AndAnd,
    Bnz(L22, APPROVE))))))
  }

  // lines 241-282
  function BlockL22(): Code {
    PutSplit(GetKey(ClosingInitiator, Get(Byte(Ascii("alice")), Bin(Eq,
    Bnz(L24, MovePenalty(LatestBob, LatestAlice))))))
  }

  // lines 283-307
  function BlockL24(): Code {
    MovePenalty(LatestAlice, LatestBob)
  }

  // lines 308-383
  function BlockL25(): Code {
    PartyTest(SplitTest(StateUpdate, Bnz(L27, Fall(L26))))
  }

  // lines 387-395
  function BlockL27(): Code {
    Get(TxnSender, GetKey(AliceAddress, Bin(Eq, Bnz(L30,
    Get(Byte(Name(ClosingInitiator)), Get(Byte(Ascii("bob")), AppGlobalPut(Fall(L29))))))))
  }

  // lines 396-415
  function BlockL29(): Code {
    Get(Byte(Name(Timeout)), Get(GlobalRound, GetKey(DisputeWindow, Bin(Plus, AppGlobalPut(PutSplit(Branch(L26)))))))
  }

  // lines 416-420
  function BlockL30(): Code {
    Get(Byte(Name(ClosingInitiator)), Get(Byte(Ascii("alice")), AppGlobalPut(Branch(L29))))
  }

  // lines 424-477
  function BlockL32(): Code {
    Previous(GSender, Get(TxnSender, Bin(Eq,
    Previous(GSender, GetKey(AliceAddress, Bin(Eq, Bin(AndAnd,
    Previous(GTypeEnum, Get(Int(1), Bin(Eq, Bin(AndAnd,
    Previous(GAmount, GetKey(PenaltyReserve, Get(GlobalMinTxnFee, Bin(Plus, Bin(Gt, Bin(AndAnd,
    Previous(GReceiver, Get(GlobalCurrentApplicationAddress, Bin(Eq, Bin(AndAnd, Do(Assert,
    Get(Byte(Name(LatestAlice)), Previous(GAmount, AppGlobalPut(
    Get(Byte(Name(TotalDeposit)), Previous(GAmount, AppGlobalPut(APPROVE))))))))))))))))))))))))))))
  }

  // lines 484-504
  function BlockL35(): Code {
    Get(TxnNumAppArgs, Get(Int(3), Bin(Eq, Do(Assert,
    Get(Byte(Name(AliceAddress)), Get(TxnSender, AppGlobalPut(
    Get(Byte(Name(BobAddress)), Get(Txna(0), AppGlobalPut(
    PutArg(PenaltyReserve, 1, PutArg(DisputeWindow, 2, APPROVE))))))))))))
  }

  // lines 507-534
  function BlockCloseAccountTo(): Code {
    Do(Store(0), Itxn(ItxnBegin,
    PayFields(LatestBob, BobAddress, Itxn(ItxnNext,
    PayFields(LatestAlice, AliceAddress,
    Get(Load(0), Do(ItxnField(CloseRemainderTo), Itxn(ItxnSubmit, Retsub))))))))
  }

  /** The program text at each label. */
  function Text(l: Label): Code {
    match l
    case Main => BlockMain()
    case L6 => REJECT
    case L7 => BlockL7()
    case L14 => BlockL14()
    case L15 => APPROVE
    case L16 => BlockL16()
    case L17 => BlockL17()
    case L18 => APPROVE
    case L19 => BlockL19()
    case L20 => BlockL20()
    case L22 => BlockL22()
    case L24 => BlockL24()
    case L25 => BlockL25()
    case L26 => APPROVE
    case L27 => BlockL27()
    case L29 => BlockL29()
    case L30 => BlockL30()
    case L31 => APPROVE
    case L32 => BlockL32()
    case L33 => REJECT
    case L34 => REJECT
    case L35 => BlockL35()
    case CloseAccountTo => BlockCloseAccountTo()
  }
}
