# Verified model of a two-party payment channel

A payment channel between two accounts, Alice and Bob, consists of an escrow application on Algorand, two nodes that
exchange doubly signed balances off the chain, and a watchtower in each node that disputes closings with old balances.
This project models all of them and proves what the protocol keeps: money is conserved, the escrow pays out once, the nodes
agree on the ledger of their payments, and a party whose partner closes is paid at least its floor: the least of its newest
balance and of its share in every signed split that its newest state cannot replace. A partner can make each split that it
signed too stand (`PayoffLimits.LimitReached`), so no better bound holds. The floor is the newest balance where that state is
rightly signed for disputes, splits the deposit, leaves the partner the penalty, and no split as new can be read from
anything the party signed. Each of these can fail in the code, by the partner's doing or the party's own; the list below says
when.

`dafny verify dfyconfig.toml` checks everything.

## How it is built

- **Contract.** `Contract` is the escrow as a transition function over its global state, with AVM arithmetic: a uint64
  overflow or underflow rejects the call, a missing key reads as 0, conditions are strict, comparing a number with bytes
  rejects. `Escrow` is the same code in its own imperative form, a class that reads and writes one global state, rolls
  back on a panic, and is proved against the function. `Contract.Meant` and `Dispatch` say what each word of a call, in
  literal bytes, leads to.
- **Compiled program.** `Teal` is a stack machine, `Program` the text of `payment/build_contracts/payment_approval.teal`
  label by label, `Storage` the global state under byte-string keys. `Steps` and `Refinement` prove that running that text
  does what the transition function says, for every call; `Budget` that its opcodes are paid for.
- **Chain.** `Ledger` and `Chain` run the application among anyone's payments, calls and rounds. `ChainProperties`,
  `Closing` and `Payout` hold for every run.
- **Nodes.** `Messages` is the format of the signed messages, `Operation` the clients that build messages, argument lists
  and transaction groups in byte buffers, `OffChain` Go's wrapping integers and the receiver's test, `GlobalState` the
  reading of an application's listed state, `Nodes` the node object with its maps and handlers, `TwoNodes` the protocols
  between two of them, `PairLedger` the ledger they keep, `LossyPair` what is left of it when messages are lost, `Opening` the
  creation and funding of an application, `Submission` what the chain runs of the calls they hand out, `Watchtower` one
  pass over a node's channels.
- **Both together.** `StoredStates` says what a stored state is worth on the chain, `CooperativeClose` follows a close
  from the request to the payout, `Reserve` shows that penalties can be paid, `Liveness` when a closing can be brought to
  its payout, `Payoff`, `PayoffLimits`, `History`, `NodeLife`, `LifePayoff` and `CompiledPayoff` show what an honest party
  ends up with, from its node's opening to its account's balance, and what it cannot be protected from. `Bytes` holds byte strings and numbers.

SHA3-256 (section 6.1 of FIPS 202) and Ed25519 (section 5.1.7 of RFC 8032) are function-valued parameters (`Crypto`); each
theorem lists what it assumes of them, and `IdealCrypto` shows that the strongest of these assumptions can be met together.
`Scenario` gives a whole channel, from the opening to the watchtower's pass, that meets everything the payoff theorems
assume; `Misread` and `Unserviceable` give channels in which the floor is below the newest balance, and is reached.

## Where the code differs from its evident intent

- The name `hash` is bound again before `on_raiseDispute` (`payment/payment_contract.py:174-187`), so the compiled program
  checks disputes as close messages (`payment/build_contracts/payment_approval.teal:168-190`), while the watchtower submits
  state signatures. The message kind of a dispute is therefore a parameter of `Contract.Dispute`. The refinement theorem
  is about the compiled kind, the payoff theorems are about either. As compiled, no node's newest state serves in a
  dispute:
  `CompiledPayoff.CompiledPayoff` says that a party that signed no close gets its newest balance exactly when the initiation
  gave it that already, and `Unserviceable.CompiledRunStands` that Alice keeps 4000 of 6000 whatever anyone then does.
- `Pay` stores its own signature as Alice's even when the payer is Bob (`rpcserver.go:307-308`). `StoredStates.KeptReady`:
  what the payer keeps is usable on the chain exactly when the payer is Alice. `Unserviceable.BobsPaymentStands`: after a
  payment of his own, Bob's watchtower cannot replace an old state, and he keeps 2000 of 5000.
- The receiver's test wraps (`server.go:245-261`): a request for more than the payer has is accepted, stored and signed, and
  the state it leaves is of no use on the chain. `History.LifeIsHonest`: a latest state serves exactly when it is ready and
  gives the node at most the deposit, a comparison that the node does not make. `Unserviceable.OverpaymentStands`: with one
  such request Bob makes his stale closing stand, and Alice keeps 4000 of 6000.
- `Pay` does not compare the amount with the balance (`rpcserver.go:224`). `PairLedger.UnaffordableCompletes`: such a
  payment completes, and the sum of the balances is kept exactly when the payment was affordable.
- Funding can be repeated. `ChainProperties.CallBalance`: it keeps the balances a split of the deposit exactly when Bob's
  balance is 0. Initiation can be repeated too; theorems about one closing exclude a second accepted one.
- `finalizeChannelClosing` pays out while `timeout` is still 0 (`payment/payment_contract.py:262-271`); theorems about
  payouts do not assume a closing took place unless they say so.
- The nodes keep back the penalty and, when closing, 1000 on either side, but not both together. A penalty can leave the
  initiator with less than the fee of its inner payment, and then nobody can be paid. `Liveness.PenalisedPayout`: the
  honest party can have its payout exactly when the partner's signed balance covers the penalty and a fee.
- The contract joins its raw arguments and accepts a port of any length (`payment/payment_contract.py:115-134`), so a state
  signed for one application can be presented to another one, cut differently. `Messages.OtherReading` says exactly which
  signed terms can be read another way; `Misread.MisreadStands` is a concrete case, in which a second channel's state costs
  Alice 5000 of her 6000 and her watchtower cannot help. Neither node checks for this; the floor of `Payoff.HonestPayoff`
  counts every reading.
- A payment whose answer is lost leaves the partner with a state newer than the payer's log (`rpcserver.go:265-275`). The
  watchtower's newest state then cannot replace it, and a payer that initiates with its log's latest state
  (`rpcserver.go:346-373`) can be disputed with it and pays the penalty. `Payoff.HonestPayoff` and `Payoff.OwnClosing` say
  what the party still gets, `PayoffLimits.LimitReached` that the partner can reach this.
- A dispute takes the penalty from what the newest state leaves the initiator. While a partner who has never paid holds less
  than that, the dispute is rejected, and every signed state counts like a newer one (`Payoff.Lasting`).

## Model

| member | source | states |
|---|---|---|
| Refinement.CallRefines | payment/build_contracts/payment_approval.teal:2-534 | For every typed global state, round, sender, group and argument list, the compiled program accepts exactly when the transition function does, with the same new global state and the same inner payments, and that is what the word in the first argument, spelled in bytes, means; it always halts within six jumps despite the backward branches, never underflows its stack, and costs at most 4221. |
| Contract.MethodsSpelled | payment/payment_contract.py:276-287 | The six method names are these literal bytes. |
| Contract.CallIsMeant | payment/payment_contract.py:272-287 | For each of the six words, as literal bytes, what a call with it does: a funding, nothing, an initiation, a dispute, the payout after the timeout and nothing before it, a cooperative close; every other word, an empty argument list and every other completion is rejected. |
| Dispatch.WhoMayCall | payment/payment_contract.py:77-287 | Only Alice funds, with the payment just before the call, which becomes the deposit; only the two parties initiate or close together; money leaves with the words for finalizing and closing together only, and the state changes with four words only. |
| Dispatch.WordsSent | payment/operation.go:361-617 | The clients send, byte for byte, the words that the program compares with. |
| Refinement.CreateRefines | payment/build_contracts/payment_approval.teal:484-505 | The same for the creating call, from an empty global state. |
| Refinement.RunCloseAccountTo | payment/build_contracts/payment_approval.teal:507-534 | The payout subroutine returns to its caller with exactly the two inner payments of the transition function sent, or panics when that rejects. |
| Refinement.RunPenalty | payment/build_contracts/payment_approval.teal:259-307 | The penalty code of either side moves exactly one penalty or panics, as `rebalance` does; the test "at least 0" never decides anything beyond the underflow. |
| Steps.RunSplitTest | payment/build_contracts/payment_approval.teal:319-382 | The code of the strict condition panics exactly where the AVM cannot compute it, and else leaves whether both parties signed and the balances split the deposit. |
| Budget.BudgetCallCost | payment/build_contracts/payment_approval.teal:31-34 | A budget call approves, changes and pays nothing, and costs 26. |
| Budget.CompanionApproved | payment/operation.go:607-642 | Each call after the first of the group that a client sends is approved on every state, changes nothing and pays nothing, for either kind of message that disputes check. |
| Budget.GroupWithinBudget | payment/operation.go:607-642 | The opcode budget of the seven calls that a client sends for a closing call covers an approved main call of any kind and the six budget calls of that very group, though the message is hashed twice. |
| Storage.StoredPut | payment/payment_contract.py:10-22 | Writing under a key's byte string writes that key and no other: the ten names are different. |
| Storage.ParametersSpelled | payment/payment_contract.py:10-22 | The keys of participants, parameters and deposit are these literal bytes. |
| Storage.ClosingSpelled | payment/payment_contract.py:10-22 | So are the keys of timeout, initiator, latest balances and timestamp. |
| Escrow.App.OnCreate | payment/payment_contract.py:64-74 | The initialization in its own order of writes: accepts with exactly the created state, or leaves nothing. |
| Escrow.App.OnFunding | payment/payment_contract.py:77-93 | Accepts exactly Alice's own payment to the escrow just before it in the group, of more than penalty and fee, and makes it deposit and Alice's balance. |
| Escrow.App.CheckSplit | payment/payment_contract.py:115-156 | The condition's panics, and its value: both signatures over the message rebuilt from the raw arguments, and balances that sum to the deposit. |
| Escrow.App.OnInitiateChannelClosing | payment/payment_contract.py:135-172 | Only the parties; a failed signature test is approved without effect; else the split, the initiator and the end of the window are stored, or everything is undone. |
| Escrow.App.MoveFunds | payment/payment_contract.py:54-61 | Moves the penalty between the two balances, or panics on underflow or overflow. |
| Escrow.App.OnRaiseDispute | payment/payment_contract.py:225-259 | A newer doubly signed split is stored and its initiator penalised, all or nothing; anything older is approved without effect. |
| Escrow.App.CloseAccountTo | payment/payment_contract.py:26-51 | Exactly two payments, Bob's and Alice's latest balances less the fee, the second closing the account; a panic exactly when either balance is below 1000, or either address is not 32 bytes long or not available to the call. |
| Escrow.App.OnCooperativeClose | payment/payment_contract.py:188-223 | Only the parties and only before any closing; with both close signatures the split is stored and paid out, all or nothing. |
| Escrow.App.OnFinalizeChannelClosing | payment/payment_contract.py:262-271 | Pays out after the timeout, else is approved without effect. |
| Escrow.App.OnCall | payment/payment_contract.py:276-287 | The dispatch over the literal words does what each word means, for every call and for whichever message kind disputes check, and so what the transition function says. |
| Chain.CallFrame | payment/payment_contract.py:54-271 | No accepted call changes the participants, the penalty or the dispute window, or breaks the typing of the state. |
| Ledger.SettleKeepsTotal | payment/payment_contract.py:26-51 | Inner payments conserve money, with the fees. |
| Ledger.PayoutAmounts | payment/payment_contract.py:26-51 | The payout goes through exactly when the escrow holds both balances; then each party has its balance less one fee, Alice also what the escrow held beyond them, nothing is left, and no other account changes. |
| ChainProperties.RunKeepsTotal | payment/payment_contract.py:26-51 | In every run all balances and fees add up to what they were. |
| ChainProperties.CallBalance | payment/payment_contract.py:54-93 | Every accepted call but funding keeps the latest balances a split of the deposit, and a funding does exactly when Bob's balance is 0. |
| ChainProperties.BalanceInvariant | payment/payment_contract.py:54-93 | In every run from creation with at most one accepted funding, whatever else anyone calls, the latest balances sum to the deposit. |
| Payout.PayoutPays | payment/payment_contract.py:26-51 | Every payout, by either way of closing, empties the escrow into the two parties' accounts by the latest balances. |
| Payout.ExactPayout | payment/payment_contract.py:26-51 | With the deposit in escrow and balances that split it, each party gets its latest balance less the fee and nothing remains. |
| Payout.NoSecondPayout | payment/payment_contract.py:188-271 | After a payout no run contains another one unless someone sends the escrow money again. |
| Closing.TimeoutStep | payment/payment_contract.py:164-170 | Only an accepted initiation touches the timeout, and sets it to its round plus the window. |
| Closing.ClosingPhase | payment/payment_contract.py:196-199 | After an accepted initiation no cooperative close ever succeeds, and every payout is a finalize in a round after the initiation's plus the window. |
| Closing.PenalisedOnce | payment/payment_contract.py:225-259 | After any further initiations and disputes the latest balances are the last signed split that succeeded, moved by exactly one penalty against the initiator if it was disputed, else not at all. |
| Closing.DisputeProgress | payment/payment_contract.py:241-247 | A newer dispute strictly raises the latest timestamp, so fewer signed timestamps are left above it. |
| Closing.DisputesEnd | payment/payment_contract.py:225-259 | Until someone initiates again, a run has at most as many newer disputes as there are signed timestamps above the latest. |
| Bytes.BtoiItob | payment/operation.go:588-592 | The chain reads back the uint64 that a client wrote. |
| Bytes.ItobBtoi | payment/operation.go:588-592 | Eight bytes are the encoding of exactly one uint64. |
| Messages.DecodeEncode | payment/operation.go:216-227 | Decoding undoes encoding for both kinds of message and all uint64 five-tuples. |
| Messages.EncodeInjective | payment/operation.go:237-328 | A signed message has one kind and one five-tuple of numbers; in particular no state message is a close message. |
| Messages.SignedBytes | payment/operation.go:216-256 | The signed bytes of either kind: the literal first word, the five numbers in eight bytes each between commas, the literal last word. |
| Messages.AssembleUnique | payment/payment_contract.py:115-134 | From arguments whose port is at most eight bytes the contract rebuilds a signed message only if they are the eight-byte encodings of the numbers that were signed. |
| Messages.ClearlyRead | payment/payment_contract.py:115-134 | From the signed message of unambiguous terms the contract reads exactly what was signed, whatever the port's length. |
| Messages.OtherReading | payment/payment_contract.py:115-134 | The scan of the 44 signed bytes finds a cut after more than eight bytes if and only if some arguments other than the signed ones rebuild the message for this application. |
| Messages.ClearReading | payment/payment_contract.py:115-134 | Unambiguous terms are read by their own application only, as the three numbers that were signed. |
| Misread.MisreadStands | payment/payment_contract.py:115-172 | A state signed for application 8 is taken by application 7 with a port of 17 bytes: nothing is forged, Alice's newest state serves, the initiation is accepted, and after any watchtower pass the chain shows her 1000 instead of 6000. |
| Misread.MisreadFloor | payment/payment_contract.py:115-172 | In that case Alice's floor is at most those 1000: it counts what can be read from her signatures. |
| Operation.Digits | payment/operation.go:588-592 | The eight bytes of a number are its base-256 digits, the most significant first. |
| Operation.PutUint64 | payment/operation.go:588-592 | Writes the big-endian encoding into the first eight bytes of the buffer and leaves the rest. |
| Operation.BuildMessage | payment/operation.go:216-227 | The buffer grown by appends is the message of these terms. |
| Operation.SignState | payment/operation.go:208-235 | The signature is the key's over the hash of the state message of the given numbers. |
| Operation.SignClose | payment/operation.go:237-264 | The signature is the key's over the hash of the close message of the given numbers. |
| Operation.VerifyState | payment/operation.go:298-328 | Accepts exactly 64-byte signatures under 32-byte keys that verify over the hash of the state message of the given numbers. |
| Operation.VerifyClose | payment/operation.go:266-296 | The same over the close message. |
| Operation.SignThenVerify | payment/operation.go:208-328 | Assumed of the primitives only that a signature over one digest verifies under its key and for that digest alone: what one function signs another accepts exactly for the same account, kind, application, balances and time. |
| Operation.PackArguments | payment/operation.go:348-370 | The argument list of an initiation, dispute or cooperative close: the method's name, four encoded numbers, both signatures. |
| Operation.IncreaseBudgetGroup | payment/operation.go:607-642 | The main call and after it the numbered budget calls, as many as 700 goes into the target, rounded up, all with the identifier of the ungrouped list. |
| Operation.BudgetCallsDiffer | payment/operation.go:611-617 | Two budget calls of a group are equal only if they are the same one. |
| OffChain.SignVerify | payment/operation.go:228-234 | If the primitive signs digests so that they verify under the signer's own key, then the nodes' state and close signatures verify. |
| OffChain.BalancesMoveMeaning | server.go:245-261 | For all uint64 inputs the wrapping test accepts exactly the proposals that move some d, 1 <= d < 2^63, from the other party to me modulo 2^64. |
| OffChain.BalancesMoveSum | server.go:245-261 | The sum is kept modulo 2^64; it is kept exactly if and only if the payer had d exactly when the payee's balance does not wrap; from a balance below 2^63 the payee gains. |
| OffChain.AcceptedIsLatest | server.go:308-325 | An accepted request becomes the latest state of the log, whatever the log and the request. |
| OffChain.AcceptedGains | server.go:245-261 | From a balance below 2^63 an accepted request makes the receiver strictly richer. |
| OffChain.ReceivingNeverLoses | server.go:192-335 | No sequence of requests, honest or not, lowers the receiver's latest balance while it stays below 2^63. |
| Nodes.GetLatestOffChainState | server.go:415-431 | For every order of the walk: the state with the greatest timestamp, none when no timestamp is positive. |
| Nodes.GetHighestBalanceOffChainState | server.go:433-456 | As Alice, a state of the log with Alice's greatest balance, none when she has 0 in all of them; as Bob the same of Bob's. |
| Nodes.Node.DoOpenChannelSecurityChecks | server.go:467-525 | Valid exactly when the programs are the expected ones, Bob is this node, and window and penalty lie in their ranges. |
| Nodes.Node.SavePaymentChannelOnChainState | server.go:553-617 | From a listing in any order, Bob's node remembers the application's participants, parameters and balances under Alice's address and opens the log with those balances. |
| Nodes.Node.OpenChannel | rpcserver.go:127-173 | On approval Alice's node remembers the funded channel and opens the log with the deposit on her side; otherwise nothing changes. |
| Nodes.Node.HandlePayRequest | server.go:192-335 | Approves exactly the acceptable requests on an open channel, with the node's signature over the proposed state, which becomes the latest of that partner's log and no other, and is all it signs; a refusal changes and signs nothing. |
| Nodes.Node.ProposePayment | rpcserver.go:188-271 | The request moves the amount modulo 2^64 from the latest state's own balance to the partner's and signs the result; none without an open channel. |
| Nodes.Node.KeepPayment | rpcserver.go:276-317 | The new state is kept exactly when the answer approves with a signature of the partner over the very state proposed; a refusal or a lost answer changes nothing. |
| Nodes.Node.HandleCloseRequest | server.go:337-393 | Signs the close of its own latest state if the requester signed exactly that, else refuses. |
| Nodes.Node.ProposeClose | rpcserver.go:437-473 | None exactly without an open channel or when either side of the latest state holds less than 1000; else the latest state and a close signature over it. |
| Nodes.Node.SubmitClose | rpcserver.go:481-536 | With the partner's verified signature the close is submitted with each signature in its party's place and the channel is forgotten; otherwise nothing changes. |
| Nodes.Node.InitiateCloseChannel | rpcserver.go:346-373 | None exactly without an open channel or when either side of the latest state holds less than 1000; else the initiation that packs the latest state. |
| Nodes.Node.TryToCheat | rpcserver.go:559-593 | The initiation packs a state of the log in which the node's own balance, as Alice or as Bob, was never higher and both sides hold at least 1000; with a channel and a log, none is made only if all own balances are 0 or a side of such a state holds less. |
| Nodes.Node.FinalizeCloseChannel | rpcserver.go:398-414 | The finalize call names both parties, and the channel is forgotten. |
| Opening.CreateArguments | payment/operation.go:62-94 | The creating call's arguments: the partner's address, penalty and window in eight bytes each. |
| Opening.CreatedWhen | payment/payment_contract.py:64-74 | A creating call is accepted exactly for three arguments, the last two of at most eight bytes. |
| Opening.CreatedAsAsked | payment/payment_contract.py:64-74 | The application created with those arguments knows both parties and both parameters, and no balance, deposit or timeout. |
| Opening.OpenedAsRemembered | payment/operation.go:62-198 | From a node's creating call on: its funding group goes through exactly when the funding is more than penalty and fee; then the application's state is what the node remembers, its account is charged funding and two fees, and the escrow has the funding. |
| TwoNodes.OpenTogether | server.go:160-190 | Bob's node accepts exactly the expected programs with window and penalty in range; then both nodes know the channel alike, as the chain shows it, and their latest states agree on the funding for Alice and nothing for Bob; otherwise neither changes. |
| TwoNodes.Exchange | rpcserver.go:188-334 | The protocol run between two node objects pays exactly when the payment completes on the pair of logs, leaves that pair, and leaves both logs alone otherwise. |
| TwoNodes.Attempt | rpcserver.go:188-334 | With a lost request or a lost answer too, the protocol run between two node objects leaves exactly the pair of logs of the attempt. |
| TwoNodes.CloseTogether | rpcserver.go:427-547 | Between two node objects a cooperative close is submitted exactly when both latest states agree in balances and time and hold at least 1000 on either side, and it carries both valid close signatures. |
| GlobalState.FormatDecimal | server.go:540-545 | Numbers are shown in base ten, in digits only, without a leading zero. |
| GlobalState.ParseFormat | server.go:458-465 | Parsing the decimal form of a number gives the number. |
| GlobalState.GetValueOfGlobalState | server.go:527-551 | The value of the first entry under the key; none when no entry has it. |
| GlobalState.ReadKey | server.go:527-551 | On a listing of a state in any order, exactly what the state stores under the key. |
| GlobalState.CollectInfo | server.go:559-598 | The loop keeps, per known key, the last value of the right type. |
| GlobalState.CollectedIsListed | server.go:553-598 | On a listing of a state in any order that is the state's participants, parameters and balances. |
| PairLedger.CompletesWhen | server.go:222-267 | Between agreeing nodes a payment completes if and only if the amount is a positive int64, what it leaves the payer modulo 2^64 covers the penalty, and its time is newer than the payee's latest. |
| PairLedger.Agreement | rpcserver.go:198-317 | A sequence of payments the payers can afford, in either direction and with increasing times, completes if and only if each amount is a positive int64 and leaves its payer the penalty; then both latest states have the same time and the balances of a plain two-account ledger. |
| PairLedger.CompletedReserve | server.go:258-261 | Where nothing is lost the receivers' test keeps the reserve for every deposit: both logs' latest states keep the sum, Alice's balance at least the penalty, and Bob's too once he has paid. |
| LossyPair.ReserveKept | server.go:258-261 | Through any attempts to pay what the payer's own log holds, completed, refused, or with request or answer lost, both latest states hold a deposit below 2^63, Alice's balance covers the penalty, and Bob's does from the first payment of his that Alice's node accepts. |
| LossyPair.CompletedIsAttempt | rpcserver.go:188-334 | A payment that completes is an attempt with nothing lost. |
| PairLedger.UnaffordableCompletes | rpcserver.go:223-225 | A payment beyond the payer's balance completes too; the new balances sum to the old ones exactly when the payer could afford it. |
| StoredStates.PackedRebuilds | payment/operation.go:348-370 | From packed arguments the contract rebuilds exactly the signed bytes and the four numbers. |
| StoredStates.PackedSplit | payment/payment_contract.py:143-156 | The contract takes a packed state's split exactly when both signatures are right and it splits the deposit. |
| StoredStates.ReceivedReady | server.go:298-325 | Every state the receiver stores has both signatures valid, each in its place. |
| StoredStates.KeptReady | rpcserver.go:300-317 | A state the payer stores has both signatures valid in place if and only if the payer is Alice. |
| StoredStates.InitiationTakes | payment/payment_contract.py:135-172 | An initiation by either party with a stored state is taken over, with deadline and initiator, whenever it is ready, splits the deposit and the deadline is a uint64; otherwise the call changes nothing. |
| StoredStates.DisputeTakes | payment/payment_contract.py:225-259 | A dispute with a stored state changes the global state exactly when its signatures are right for the kind checked, it splits the deposit, is newer, and the initiator can pay the penalty. |
| StoredStates.CompiledDisputeIgnored | payment/build_contracts/payment_approval.teal:167-240 | The compiled dispute never changes the state for a stored state whose signatures do not both sign the close message too. |
| StoredStates.CooperativePays | payment/payment_contract.py:188-223 | A cooperative close for a ready state with at least 1000 on either side passes every check before a closing and pays both balances less the fee. |
| Reserve.FundingCoversPenalty | payment/payment_contract.py:78-93 | A funding leaves more than penalty and fee on Alice's side. |
| Reserve.FundedReserve | server.go:258-261 | From an accepted funding below 2^63, through both nodes' openings and any attempts to pay, with refusals and losses among them, both latest states hold the deposit and the reserve. |
| Reserve.DisputePayable | payment/payment_contract.py:249-256 | In such a life of a channel a dispute with the latest state of either log, rightly signed, is never rejected for underflow, against Alice always, against Bob once a payment of his was accepted; a newer one leaves exactly that state moved by one penalty against the initiator. |
| OffChain.VerifiesTerms | payment/operation.go:237-328 | With an injective hash and primitives whose signatures verify for one digest, a signature verifies for one kind of message and one five-tuple, because messages encode both. |
| CooperativeClose.ClosableIsPayable | rpcserver.go:366-370 | The nodes' threshold is the contract's: for accounts that the call can pay, a payout by a state's balances is approved exactly when both hold 1000. |
| CooperativeClose.ApprovedMeansAgreed | server.go:349-391 | With signatures that verify for one digest and an injective hash, an honest peer approves an honest request exactly when both latest states agree on application, balances and time, whatever got lost before. |
| CooperativeClose.CloseStateReady | rpcserver.go:503-518 | Whichever side asks, the submitted state has both close signatures right, each in its place. |
| CooperativeClose.ClosePaysOut | rpcserver.go:449-531 | With the deposit in escrow and no closing under way the submitted close succeeds, both parties receive their balance less one fee, and nothing remains. |
| Watchtower.Check | watchtower.go:25-104 | Disputes with the latest state exactly when the shown timeout is above 0, the log has a latest state, and the shown balance of this node, Alice's or Bob's, is below the one in that state. |
| Watchtower.Pass | watchtower.go:16-114 | For every channel map, order and readable snapshot: the channels forgotten are exactly those whose shown timeout is above 0 and whose shown balance of this node is below that of the latest state; exactly for these one dispute each is raised, which carries that state; a channel without a timeout, or with 0, is neither disputed nor forgotten. |
| Watchtower.SecondPassIdle | watchtower.go:16-114 | On the same snapshot a second pass has nothing to dispute. |
| Watchtower.PassIsWatchPass | watchtower.go:75-112 | For a party whose log ends in its newest state, the pass disputes exactly when the shown balance is too low, and the group sent for that dispute is the pass the payoff theorem assumes. |
| Payoff.TakenWasSigned | payment/payment_contract.py:143-156 | Whatever split the contract takes, with arguments of any length, it can be read from something the party signed in a message of the kind that is checked. |
| Payoff.PassProtects | watchtower.go:75-112 | In a closing the partner initiated, whichever kind disputes check and whatever the newest state is worth, the chain shows the party at least its floor after a watchtower pass. |
| Payoff.TracksRun | payment/payment_contract.py:225-259 | While a closing goes on, whatever anyone does with what was signed, the standing split can be read from something the party signed; if the party initiated, it is its newest state or a newer one that came by a dispute. |
| Payoff.HonestPayoff | payment/payment_contract.py:225-271 | One accepted initiation by the partner, then any actions, a watchtower pass, any actions without a further newer dispute, and a payout: the party receives at least its floor less the fee, for either kind of message that disputes check, whatever its newest state is worth, and with everything it ever signed anywhere. |
| Payoff.OwnClosing | payment/payment_contract.py:225-271 | The party's own closing with its newest state, then any actions and a payout: shown and paid is its newest balance if no newer dispute succeeded, and else its share of a newer split read from what it signed, less exactly one penalty. |
| PayoffLimits.LimitReached | payment/payment_contract.py:135-172 | The converse: arguments that rebuild any doubly signed state message and split the deposit are accepted from the partner, and if the newest state cannot replace what they say, being no newer, or leaving too little for the penalty, or of no use, every watchtower pass leaves it: each split in the floor is reached. |
| PayoffLimits.PlainArguments | payment/operation.go:348-370 | Packed as every client packs them, the arguments of a doubly signed state are read as they were meant. |
| Liveness.FinalizePays | payment/payment_contract.py:262-271 | A client's finalize call pays out if and only if the timeout has passed, both balances cover their fee, and the escrow holds both. |
| Liveness.WaitAndFinalize | payment/operation.go:464-515 | After waiting any number of rounds the finalize call pays out if and only if these are enough and the balances can be covered. |
| Liveness.PenalisedPayout | payment/payment_contract.py:26-61 | Once the partner was penalised, the honest party can have its payout if and only if its own side covers a fee and the partner's signed balance covers the penalty and a fee. |
| Liveness.HonestCollects | watchtower.go:75-112 | After the partner's accepted initiation, any actions and a watchtower pass, the honest party needs only to wait and to finalize itself: if both balances can be covered, that pays out, and its account gains at least its floor less two fees. |
| CompiledPayoff.ClosingOutcome | payment/payment_contract.py:225-259 | At any point of a closing by either side the global state is the initiation's if no newer dispute succeeded; else the party is shown its share of a split it signed in a message that disputes check, one penalty more or, if it initiated, less. For the compiled program these are its close messages. |
| CompiledPayoff.CompiledStays | payment/build_contracts/payment_approval.teal:167-240 | As compiled, against a party that signed no close message no dispute of a run ever succeeds, and the global state stays what the initiation made it. |
| CompiledPayoff.CompiledPassIdle | payment/build_contracts/payment_approval.teal:167-240 | No watchtower pass changes the global state unless the newest state's signatures are right for the kind that disputes check. |
| Unserviceable.CompiledRunStands | payment/build_contracts/payment_approval.teal:167-240 | The concrete case: as compiled, nothing anyone does after Bob's stale initiation moves the 4000 that Alice is shown instead of 6000. |
| Unserviceable.OverpaymentStands | server.go:245-325 | The concrete case: Alice's node accepts Bob's request for 1000000 he does not have, the state it stores is ready but splits nothing, and after Bob's stale initiation any pass leaves Alice 4000 of 6000. |
| Unserviceable.BobsPaymentStands | rpcserver.go:300-317 | The concrete case: what Bob keeps of his own payment is not ready, and after Alice's initiation with an older state any pass leaves Bob 2000 of 5000. |
| CompiledPayoff.CompiledPayoff | payment/payment_contract.py:174-187 | As compiled, after an accepted initiation by either side and any actions of anyone, a party that signed no close message is paid exactly what the initiation gave it, with the deposit in escrow; so it gets its newest balance if and only if the initiation gave it that. |
| History.LiveAllSound | rpcserver.go:188-334 | Over any life of a node, whatever its partner asks for: the latest balances add up to the deposit modulo 2^64; every entry but the opening is ready for the chain, save payments that Bob completed, and carries the node's own signature; every signed state is the latest, older, or one of a payment that came to nothing. |
| History.LifeIsHonest | rpcserver.go:188-334 | After any life from the opening on, with any requests, lost payments and other channels, the node meets the payoff theorem's assumptions. Its latest state serves in a dispute if and only if disputes check state messages, the state is ready, and the node's balance in it is at most the deposit; ready it is unless it is the opening or a payment Bob completed. |
| History.LifeFloor | rpcserver.go:265-275 | After any life without ambiguous states: with a latest state that serves and leaves the partner the penalty, the floor is set exactly by the latest balance and the lost payments as new; otherwise by every state the node signed. |
| History.RequestKeepsSum | server.go:245-261 | An accepted request keeps the sum modulo 2^64; it keeps it exactly if it lowers the payer's balance, and from a sum below 2^63 only then. |
| History.SteadyFloor | rpcserver.go:188-334 | In a life in which no event moved more than the payer had, a latest state that serves leaves only the lost payments to count in the floor, also while the partner does not hold the penalty. |
| LifePayoff.NodeIsPaid | watchtower.go:75-112 | From a node's opening to its account's balance: after any events, when its partner closes, anyone acts and its watchtower has had its pass, the node is paid at least what it can tell from its log, less one fee. |
| NodeLife.Experience | server.go:192-391 | After each event the node object's log of a channel is the log of that life, and all it ever signed is what the life signed and what it signed elsewhere. |
| NodeLife.LiveThrough | server.go:192-391 | The same over any sequence of events: log and signed terms of the node object are those of the whole life. |
| Submission.SentInitiation | payment/operation.go:330-395 | The group sent for the node's initiation is the party's own initiation of the payoff theorem. |
| Submission.SentClosePays | payment/operation.go:517-586 | The group sent for a close that a node hands out pays both parties their balance less one fee, with the deposit in escrow and no closing under way, and leaves nothing. |
| Submission.SentFinalize | payment/operation.go:464-515 | The finalization that a node hands out pays both parties exactly when the timeout has passed, both balances cover their fee and the escrow holds them. |
| Scenario.PayoffHappens | rpcserver.go:549-608 | A cheating initiation with an older state, and the dispute that answers it, meet all assumptions of the payoff theorems, and the honest party can collect. |
| IdealCrypto.IdealExists | payment/operation.go:228-234 | For any two accounts there are primitives with an injective hash that is nowhere the identity, whose signatures verify exactly under their signer's key and for the signed digest. |

## Left out

- Networking, JSON, gRPC and the command line: a request is a value, a lost answer is a value, and partner addresses on the network are not kept.
- The algod and kmd clients, suggested parameters, transaction signing, confirmation waits and account funding: a submitted group is one atomic step of the chain.
- Internals of SHA3-256, Ed25519, base64, address checksums and TEAL compilation: parameters with the assumptions each theorem lists; addresses are their 32 decoded bytes.
- Minimum account balance, rewards, rekeying and fee pooling: the escrow pays the minimum fee for each inner payment.
- Payments that follow the application call in its group, and other applications' calls in it: only the payments before the call move money in a group.
- The fees of the six budget calls in a group: the sender is charged for its main call only, so "can pay" means one fee where the chain asks for seven.
- The AVM's limits on the length of keys, values and stack strings, and the stop of a program that exceeds its budget: the cost of every call is bounded instead (`Refinement.CallRefines`, `Budget.GroupWithinBudget`).
- Data races between goroutines: each handler is atomic.
- `log.Fatalf` in `server.go` and `watchtower.go`: its conditions are preconditions (readable numbers below 2^63, addresses of 32 bytes).
- The endless loop around the watchtower's pass and its sleep: one pass is modelled.
- `Reset` and `GetInfo` of the node, the Python demo (`payment/operations.py`, `example_usage.py`, `state_channel_node.py`) and the clear-state program: nothing of the protocol depends on them.
- Operation.IncreaseBudgetGroup: the quotient is rounded up exactly; the source divides in floating point, which agrees for the one target it uses.
- Payoff.HonestPayoff: further accepted fundings and initiations are excluded; that a payout happens is assumed (`Liveness` says when it can).
- LifePayoff.NodeIsPaid: that a node signs no ambiguous states, that its latest state serves and that its partner holds the penalty are conditions on its log; without them `Payoff.HonestPayoff` holds with a lower floor (`History.LifeFloor`).
- Reserve.DisputePayable: a dispute that charges Bob before he ever paid can be rejected, since nothing makes him hold the penalty before that (`StoredStates.DisputeTakes` has the exact condition). Deposits from 2^63 on are covered only where nothing is lost (`PairLedger.CompletedReserve`).
- TwoNodes.CloseTogether: the agreement is stated for two nodes with the same information about their channel; `CooperativeClose.ApprovedMeansAgreed` does not need that.
