# Treasury contracts: model and proofs

Two contracts that guard a treasury are modelled as asynchronous state machines, alone and wired together.

- The **dao-timelock** queues requests (batches of function calls to one receiver, or a Sputnik proposal with a
  follow-up vote). A request waits out a delay, can be cancelled by a guardian, can name a pending request as its
  predecessor, and escrows the deposits of its calls.
- The **spending-account** keeps a remaining allowance per (recipient, optional token). A transfer charges the
  allowance before it is sent; a callback gives it back when the transfer failed. Meanwhile the manager may add,
  remove, overwrite, raise or lower entries in atomic batches.
- In the **composition** one timelock holds the spender and the manager role of one spending account.

## How the model is built

| file | content |
|---|---|
| `base.dfy`, `calls.dfy` | machine integers, sums; the methods of both contracts as typed values |
| `whitelist.dfy`, `ledger.dfy` | the allowance table, batch loops in closed form; the books of one key |
| `spending.dfy`, `spending_runs.dfy` | the spending account as a step system, and its runs |
| `spending_exact.dfy` | each of its steps spelled out without the step functions |
| `spending_contract.dfy` | the spending account as a class with fields and loops |
| `request.dfy`, `timelock.dfy` | saturating totals; the effect of each timelock method |
| `timelock_contract.dfy` | the timelock as a class with fields and loops |
| `timelock_world.dfy` | the timelock as a step system |
| `timelock_queue.dfy`, `timelock_outbox.dfy`, `timelock_escrow.dfy` | its invariants |
| `timelock_exact.dfy` | each of its steps spelled out without the step functions |
| `timelock_runs.dfy`, `timelock_drain.dfy`, `timelock_admin.dfy` | its guarantees over every run |
| `timelock_answers.dfy` | what its log says about answered proposals |
| `treasury.dfy` | both contracts together |

Each contract appears twice. As a class its methods update fields in place, in the order of the source, and put the
fields back when a later check fails, because a panic reverts the whole call. As a step system its storage is a value
and `Handle` gives the effect of one call; every method of the class is proved to do exactly what `Handle` says. The
step systems add what the runtime does around the storage. Receipts are numbered and land in any order, a callback runs
some time after its receipt landed, any batch of calls from any account may arrive in between, and time only moves
forward. A run is a list of steps; the main results hold for the state after every run from an initial state. Requests
ever scheduled, promises ever dispatched, operations ever applied and the event log are part of the state, so that
results can speak about the past.

What one step does is stated a second time, in conditions and new values rather than through the step functions: which
calls succeed, what a batch does when one of its calls is refused, and what landing, callbacks and time change
(`SpendingExact`, `TimelockExact`, `Treasury.AloneExactly`, `Treasury.CrossExactly`).

A batch is a list of function calls that reach one receiver together and succeed or fail as a whole. A batch the
timelock sends to itself runs as calls by the timelock; a batch it sends to the spending account of the composition
runs there. Any other receiver answers with an arbitrary result.

## Assumptions about the environment

- Nobody attaches 2^128 - 1 yoctoNEAR to a call: the total supply is far below. `Timelock.EscrowExactness` and
  `Timelock.SaturatedEscrow` show why it matters: the escrow check uses saturating addition and is exact if and only
  if the sum of the deposits is a u128.
- The protocol refund of a failed batch reaches the timelock no later than the callback of that batch.
- `on_transfer`, `on_transfer_ft` and `on_proposal_added` run only as callbacks: called directly they find no promise
  result and abort.
- The block timestamp is a u64. A delay whose end is no u64 saturates; `TimelockRuns.FullDelay` gives the exact
  condition under which the full delay is waited out.

## Findings where code and documentation differ

- The spending account's admin is documented to assign roles and do nothing else. In one batch of calls it can make
  itself the manager and whitelist a recipient (`SpendingRuns.AdminCanTakeOver`). The exact condition is on the calls
  of the batch: it moves nothing if and only if each of them assigns a role (`SpendingRuns.MovesNothingIff`), over runs
  too (`SpendingRuns.OnlyRestoresIff`). An admin without the other roles gets any other call accepted only after a call
  of the same batch that gives it the role (`SpendingRuns.TakeoverComesFirst`).
- In the composition, the condition "the timelock holds both roles" therefore covers the moments between the calls of
  every batch the account accepts. It says nothing about refused batches: a stranger who tries to take a role changes
  nothing (`Treasury.RefusedTakeover`). `Treasury.RoleSafeIff` equates it with a condition on the calls of the batches.
- Failed transfers are documented not to consume the allowance. A rollback whose sum exceeds u128 is clipped: from any
  initial state, a limit set to the maximum while a transfer is on its way forfeits what comes back
  (`SpendingRuns.RestoreCanClip`). `SpendingRuns.RestoresFullyIff` is the exact condition for one callback and
  `SpendingRuns.ForfeitsNothingIff` for any part of any run; `SpendingRuns.FailedTransfersBurnNothing` shows that the
  condition holds unless the manager interferes.
- A proposal request is documented to end in a vote or a refund. When the receiver answers with something that is no
  u64, the callback aborts and neither happens (`TimelockRuns.ProposalLifecycle`).

## Model

| member | source | states |
|---|---|---|
| Whitelist.ApplyAllConcat | spending-account/src/whitelist.rs:9-84 | any batch equals its first part followed by its second part, for success and for the result |
| Whitelist.AddClosedForm | spending-account/src/whitelist.rs:9-24 | an add batch succeeds iff its keys are pairwise distinct, absent and none is the contract itself; it then adds exactly those entries |
| Whitelist.RemoveClosedForm | spending-account/src/whitelist.rs:27-38 | a remove batch succeeds iff its keys are pairwise distinct and present; it drops exactly those |
| Whitelist.AddThenRemove | spending-account/src/whitelist.rs:9-38 | removing the keys an add batch introduced restores the original table |
| Whitelist.SetClosedForm | spending-account/src/whitelist.rs:41-52 | an overwrite batch succeeds iff all keys are present; per key the last value named wins |
| Whitelist.IncreaseClosedForm | spending-account/src/whitelist.rs:55-68 | with repeated keys allowed, an increase batch succeeds iff it never names the contract itself and old limit plus total fits u128 for every key; the result is exactly those sums |
| Whitelist.IncreasePermuted | spending-account/src/whitelist.rs:55-68 | the order of an increase batch matters neither for success nor for the result |
| Spending.IncreaseSplits | spending-account/src/whitelist.rs:55-68 | one increase call equals two consecutive calls with the two non-empty parts of its batch |
| Whitelist.DecreaseClosedForm | spending-account/src/whitelist.rs:71-84 | a decrease batch succeeds iff all keys are present; each limit drops by its total over the batch, floored at zero |
| Whitelist.IncreaseThenDecrease | spending-account/src/whitelist.rs:55-84 | a decrease undoes the same increase, except that entries it created stay at zero |
| Whitelist.KeyIsolation | spending-account/src/whitelist.rs:9-84 | the final entry of a key is what its own operations alone produce from its own entry |
| Whitelist.KeysIndependent | spending-account/src/whitelist.rs:9-84 | a batch succeeds iff, for every key, that key's operations succeed on their own |
| Ledger.Balanced | spending-account/src/whitelist.rs:9-84 | for any operations: granted plus returned equals remaining plus charged plus revoked plus forfeited |
| Ledger.BooksFromTable | spending-account/src/whitelist.rs:9-84 | for any accepted operations: granted is the total by which management raised the entry, revoked the total by which it lowered it, charged what transfers took, forfeited what rollbacks failed to give back |
| Ledger.ReplayAgrees | spending-account/src/whitelist.rs:9-84 | the books of a key, kept without the table, show the table's limit after every accepted batch |
| Spending.RunKeeps | spending-account/src/lib.rs:64-75 | table, books, transfers and event log of every key agree, and the contract never whitelists itself, along every run |
| Spending.AllowanceLedger | spending-account/src/transfer.rs:20-53 | in every run and for every key: granted = remaining + in flight + paid + revoked + forfeited, where granted, revoked and forfeited are the movements of the whitelist entry itself |
| Spending.EventsReplay | spending-account/src/transfer.rs:68-113 | transfer events minus failed-transfer events of a key total what is in flight or paid |
| Spending.NeverWhitelistsItself | spending-account/src/whitelist.rs:13-16 | no reachable whitelist holds the contract's own account, although `set_limit` never checks |
| SpendingRuns.FailedTransfersBurnNothing | spending-account/src/transfer.rs:36-53 | from any reachable state, while a key is not managed, remaining + in flight + paid is constant and no rollback is clipped |
| SpendingRuns.RestoresFullyIff | spending-account/src/transfer.rs:47-51 | one callback restores the full amount iff the entry is present and the sum is a u128 |
| SpendingRuns.ForfeitsNothingIff | spending-account/README.md:10 | over any part of any run, a key forfeits nothing iff every failed transfer to it, when called back, finds its entry with room for the amount |
| SpendingRuns.RestoreCanClip | spending-account/src/transfer.rs:48-51 | it need not: from any initial state, for any amount, the run add, transfer, set_limit to the maximum, failure, callback forfeits the whole amount |
| SpendingRuns.KeysNeverMix | spending-account/src/transfer.rs:19-27 | over any run, a key's entry follows from the operations on that key alone; NEAR and token entries never mix |
| SpendingRuns.SettlementClosedForm | spending-account/src/transfer.rs:99-114 | after any settlement steps each present key is at min(u128 max, limit + its failed amounts), absent keys stay absent |
| SpendingRuns.SettlementOrderIrrelevant | spending-account/src/transfer.rs:38-53 | two settlement runs, however interleaved, that end with the same outcomes end with the same account |
| SpendingRuns.SettlementPermuted | spending-account/src/transfer.rs:38-114 | settling the same transfers with the same outcomes in any permutation gives the same account and receipts |
| SpendingRuns.SpenderOnlySpends | spending-account/src/transfer.rs:13-35 | a run without calls by manager or admin keeps roles and keys, and never raises remaining + in flight of any key |
| SpendingRuns.MovesNothingIff | spending-account/src/admin.rs:24-37 | whoever sent it, an accepted batch leaves whitelist, transfers and log alone iff every one of its calls assigns a role |
| SpendingRuns.TakeoverComesFirst | spending-account/README.md:7 | a caller that holds neither role gets a transfer accepted only after a call of the same batch made it the spender, a management call only after one made it the manager |
| SpendingRuns.OnlyRestoresIff | spending-account/README.md:7 | over any run, rollbacks are the only operations iff every accepted batch only assigns roles |
| SpendingRuns.BystandersOnlyAssign | spending-account/README.md:7 | while every accepted call is by neither the spender nor the manager of that moment, the admin included, no transfer is sent, no key comes or goes, and no key can spend more |
| SpendingRuns.AdminCanTakeOver | spending-account/src/admin.rs:12-15 | one batch of the admin can take the manager role and whitelist any key |
| SpendingExact.CallsExactly | spending-account/src/admin.rs:6-37 | a call succeeds iff the holder of its role makes it and its own condition holds; it then changes exactly the entries or the one role it names |
| SpendingExact.PerformExactly | spending-account/src/transfer.rs:13-35 | a call takes no deposit; a transfer sends one receipt and logs the new remainder, management logs nothing and does one operation of its kind per element |
| SpendingExact.DeliveryExactly | spending-account/src/whitelist.rs:9-24 | a batch of calls is all or nothing: every call accepted where the one before it left off, or nothing has happened |
| SpendingExact.SettlementExactly | spending-account/src/transfer.rs:36-53 | landing records the outcome; the callback closes the transfer and, after a failure, restores a present entry up to the u128 maximum and logs it |
| SpendingContract.SpendingAccount.constructor | spending-account/src/lib.rs:81-88 | starts with the given roles and an empty whitelist |
| SpendingContract.SpendingAccount.Transfer | spending-account/src/transfer.rs:13-34 | succeeds iff the spender asks for a positive amount within the allowance; charges exactly it, sends one transfer, logs it with the remainder |
| SpendingContract.SpendingAccount.OnTransfer | spending-account/src/transfer.rs:36-53 | private; a failed transfer's amount goes back to an entry that still exists, saturating, and is logged |
| SpendingContract.SpendingAccount.TransferFt | spending-account/src/transfer.rs:56-95 | the same for a token entry |
| SpendingContract.SpendingAccount.OnTransferFt | spending-account/src/transfer.rs:97-114 | the same for a token entry |
| SpendingContract.SpendingAccount.AddToWhitelist | spending-account/src/whitelist.rs:9-24 | the loop meets its closed form; a failure anywhere changes nothing |
| SpendingContract.SpendingAccount.RemoveFromWhitelist | spending-account/src/whitelist.rs:27-38 | the loop meets its closed form; a failure anywhere changes nothing |
| SpendingContract.SpendingAccount.SetLimit | spending-account/src/whitelist.rs:41-52 | the loop meets its closed form; a failure anywhere changes nothing |
| SpendingContract.SpendingAccount.IncreaseLimit | spending-account/src/whitelist.rs:55-68 | the loop meets its closed form; a failure anywhere, overflow included, changes nothing |
| SpendingContract.SpendingAccount.DecreaseLimit | spending-account/src/whitelist.rs:71-84 | the loop meets its closed form; a failure anywhere changes nothing |
| SpendingContract.SpendingAccount.SetSpender | spending-account/src/admin.rs:6-9 | succeeds iff the admin calls without a deposit; sets the spender and nothing else |
| SpendingContract.SpendingAccount.SetManager | spending-account/src/admin.rs:12-15 | succeeds iff the admin calls without a deposit; sets the manager and nothing else |
| SpendingContract.SpendingAccount.SetAdmin | spending-account/src/admin.rs:18-21 | succeeds iff the admin calls without a deposit; sets the admin and nothing else |
| Requests.TotalDepositExact | dao-timelock/src/request.rs:45-51 | the saturating deposit total is the exact sum iff that sum is a u128; below the maximum it always is |
| Requests.TotalGasClamps | dao-timelock/src/request.rs:55-75 | the chain of saturating additions equals the exact gas total capped at u64 |
| Requests.GasLimitExact | dao-timelock/src/request.rs:55-75 | a request is within 280 TGas iff its exact total is; the checked total is then exact |
| Requests.PlainActionBound | dao-timelock/src/lib.rs:110-113 | an accepted plain request has at most 280 actions |
| Requests.PlainActionBoundSharp | dao-timelock/src/lib.rs:17-32 | 280 actions that attach no gas are accepted |
| Requests.ProposalGasBound | dao-timelock/src/lib.rs:163-166 | a proposal request is accepted iff its two calls attach at most 262606 GGas together |
| Timelock.CallsExactly | dao-timelock/src/lib.rs:86-279 | a call succeeds iff caller, queue, clock, escrow and gas allow it, in unbounded arithmetic; it then stores, removes or refunds one request, or changes the one configuration field it names, and nothing else |
| Timelock.ExecutionGas | dao-timelock/src/lib.rs:192-219 | the callback gas of an accepted request does not saturate, and attached gas plus fees is the checked total |
| Timelock.EscrowExactness | dao-timelock/src/lib.rs:106-109 | an accepted schedule escrows what its actions attach iff the sum of their deposits is a u128 |
| Timelock.SaturatedEscrow | dao-timelock/src/lib.rs:106-109 | two actions that overflow u128 are accepted with less escrow than they attach |
| TimelockContract.DaoTimelock.constructor | dao-timelock/src/lib.rs:60-80 | starts with the given configuration, the guardians as a set, and an empty queue |
| TimelockContract.DaoTimelock.InsertRequest | dao-timelock/src/lib.rs:346-351 | stores under the next id and counts up; fails without change when the id counter is exhausted |
| TimelockContract.DaoTimelock.Schedule | dao-timelock/src/lib.rs:86-118 | succeeds iff the DAO names actions, a pending predecessor if any, the exact deposit and a fitting gas total; stores and logs the request it describes |
| TimelockContract.DaoTimelock.ScheduleProposal | dao-timelock/src/lib.rs:125-171 | succeeds iff the DAO names a pending predecessor if any, attaches the bond, and the two gas amounts fit; stores and logs the request it describes |
| TimelockContract.DaoTimelock.Execute | dao-timelock/src/lib.rs:176-219 | succeeds iff the request is pending, matured, and its predecessor is gone; builds exactly its batch and callback, action by action, and a failed check puts the request back |
| TimelockContract.DaoTimelock.OnProposalAdded | dao-timelock/src/lib.rs:223-260 | private; votes on the returned id or refunds a non-zero bond, logs request, proposal, funder and bond accordingly, and touches no storage |
| TimelockContract.DaoTimelock.Cancel | dao-timelock/src/lib.rs:264-279 | succeeds iff a guardian cancels a pending request; refunds a non-zero total to the funder |
| TimelockContract.DaoTimelock.SetDao | dao-timelock/src/admin.rs:6-9 | only the admin changes the DAO, and nothing else changes |
| TimelockContract.DaoTimelock.SetAdmin | dao-timelock/src/admin.rs:12-15 | only the admin changes the admin, and nothing else changes |
| TimelockContract.DaoTimelock.SetGuardians | dao-timelock/src/admin.rs:18-24 | only the admin replaces the guardians; the loop leaves exactly the listed accounts |
| TimelockContract.DaoTimelock.SetDelay | dao-timelock/src/admin.rs:27-31 | only the admin changes the delay, up to 30 days |
| TimelockExact.PerformExactly | dao-timelock/src/lib.rs:86-279 | a call runs iff it is allowed, and leaves exactly its request, record, promise, balance change and event |
| TimelockExact.BatchExactly | dao-timelock/src/lib.rs:174 | a batch succeeds with the last state of a chain of accepted calls, and fails iff some call of such a chain is refused |
| TimelockExact.PerformAllConcat | dao-timelock/src/lib.rs:194-201 | a batch may be split anywhere |
| TimelockExact.DeliveryExactly | dao-timelock/src/lib.rs:86-279 | a batch from another account has the effect of all its calls or none |
| TimelockExact.LandOnSelf | dao-timelock/README.md:7 | a batch the timelock sends to itself takes effect as a whole, or, iff a call is refused in its turn, fails with its deposits back and nothing else changed |
| TimelockExact.LandElsewhere | dao-timelock/src/lib.rs:192-219 | any other promise lands with the result it met; what it carried comes back iff it failed or was a refund of the timelock to itself |
| TimelockExact.ResumeExactly | dao-timelock/src/lib.rs:223-260 | the callback closes the batch and sends and logs the vote, the refund, or nothing |
| TimelockAnswers.ApprovalsLogged | dao-timelock/src/lib.rs:234-236 | the log holds exactly one approval of proposal p for request i iff i is an executed proposal request, p was the answer, and the callback has run |
| TimelockAnswers.FailuresLogged | dao-timelock/src/lib.rs:250-258 | the log holds exactly one failure for request i, with its scheduler and bond, iff i is an executed proposal request that failed and the callback has run |
| TimelockRuns.RunKeeps | dao-timelock/src/lib.rs:43-56 | the queue, record, outbox and escrow invariants hold along every run |
| TimelockRuns.DelayRespected | dao-timelock/src/lib.rs:181-184 | every executed request was scheduled by the DAO of the time and ran no earlier than schedule time plus the delay then in force, capped at u64 |
| TimelockRuns.FullDelay | dao-timelock/src/lib.rs:102 | the full delay was waited out iff it ends on a u64 timestamp, which 30 days of clock margin guarantee |
| TimelockRuns.DelayCapped | dao-timelock/src/admin.rs:27-31 | the configured delay is at most 30 days in every reachable state |
| TimelockRuns.Lifecycle | dao-timelock/src/lib.rs:346-351 | ids below the counter split into pending, executed and cancelled; ids are never reused, stored requests never change, leaving the queue is final |
| TimelockRuns.ExecutesWhatWasScheduled | dao-timelock/src/lib.rs:98-105 | the batch an executed request dispatches is the one its schedule call named, to the receiver it named |
| TimelockRuns.ExecutesProposalScheduled | dao-timelock/src/lib.rs:141-162 | an executed proposal request dispatches one `add_proposal` with the bond, and a callback bound to the arguments of the schedule call |
| TimelockRuns.PredecessorFirst | dao-timelock/src/lib.rs:185-190 | a predecessor left the queue after its dependent was scheduled and before its dependent executed |
| TimelockRuns.ChainOrder | dao-timelock/src/lib.rs:336-343 | a fully executed chain of predecessors executed in chain order |
| TimelockRuns.RemoveThenCheck | dao-timelock/src/lib.rs:177-190 | removing a request before checking its predecessor is the same as checking first, in every reachable state |
| TimelockRuns.LogRebuildsQueue | dao-timelock/src/events.rs:19-88 | folding the event log rebuilds exactly the pending ids with their timestamps and predecessors |
| TimelockRuns.EscrowConserved | dao-timelock/README.md:14-20 | per funder and in total, attached deposits = escrowed + on the way + kept by receivers + returned by failed batches + refunded |
| TimelockRuns.Solvent | dao-timelock/src/lib.rs:192-201 | the balance is the initial one plus pending escrow plus what came back, so every pending request is funded at all times |
| TimelockRuns.RefundsReachFunder | dao-timelock/src/lib.rs:274-278 | every refund goes to the scheduler of a cancelled or failed proposal request, in the attached amount; landing successfully it is gone from the timelock, failing it is back |
| TimelockRuns.RefundedOnce | dao-timelock/src/lib.rs:251-258 | no deposit is refunded twice across cancel and callback |
| TimelockRuns.ExecutedOnce | README.md:60 | the promise of a request is dispatched at most once, and only if the request was executed |
| TimelockRuns.ProposalLifecycle | dao-timelock/src/lib.rs:202-260 | an executed proposal request awaits its callback, has voted on the returned id, has refunded its bond, or met an answer that is no id |
| TimelockRuns.ProposalSettles | dao-timelock/src/lib.rs:223-260 | whatever a foreign DAO answers, landing and callback change no storage, keep the balance, and send exactly the vote on the returned id, the refund of a non-zero bond, or nothing |
| TimelockRuns.ScheduleThenCancel | dao-timelock/src/lib.rs:264-279 | cancelling after scheduling restores queue and balance and refunds the attached deposit |
| TimelockRuns.AcceptedFits | dao-timelock/src/lib.rs:193-207 | every pending request obeys the action and gas bounds, and executing it stays within 280 TGas |
| TimelockDrain.SomeExecutable | dao-timelock/src/lib.rs:176-190 | no deadlock: a non-empty queue whose delays have passed always has a request anyone can execute |
| TimelockDrain.DrainsInOrder | dao-timelock/src/lib.rs:176-190 | executing a matured queue in id order succeeds on every request and empties it |
| TimelockDrain.Drainable | dao-timelock/src/lib.rs:336-343 | from every reachable state with a matured queue, as many executions as there are requests empty it |
| TimelockAdmin.SetsExactly | dao-timelock/src/admin.rs:6-40 | an accepted batch leaves the configuration its setters name, in order; it holds a setter only if the admin sent it, and no delay beyond 30 days |
| TimelockAdmin.SelfAdministered | dao-timelock/README.md:11 | while a timelock is its own admin, every configuration change comes from a request its DAO scheduled and that waited out its delay |
| Treasury.AloneExactly | README.md:30-34 | every step that is no impersonation and no landing of a batch for the account happens to one contract alone |
| Treasury.CrossExactly | README.md:30-34 | a batch sent to the account runs there as a whole as the timelock, or is refused, changes nothing, and returns its deposits |
| Treasury.RunKeeps | README.md:30-34 | both contracts' invariants, the roles and the provenance of operations hold along every joint run in which the timelock keeps both roles; refused batches are unrestricted |
| Treasury.RoleSafeIff | README.md:30-34 | the condition of the joint results holds iff the timelock has both roles at every moment of the run, between the calls of a batch included |
| Treasury.RefusedTakeover | spending-account/src/admin.rs:24-29 | a stranger's attempt to become the spender is refused, changes nothing and does not void that condition |
| Treasury.ExecutedWorkAccounted | README.md:41-45 | by any measure of the operations, what executed requests carried for the account is exactly what it performed, plus what is on its way, plus what it refused |
| Treasury.PaymentsWithinExecutedGrants | README.md:41-45 | paid + in flight + remaining of a key never exceeds the grants to it in executed requests |
| Treasury.TransfersWithinExecutedTransfers | README.md:60 | all transfers ever sent to a key, failed ones included, stay within the transfers to it in executed requests |
| Treasury.DeliveredOnce | dao-timelock/README.md:20 | a batch runs on the account at most once in any run; a refused batch leaves the account untouched and returns its deposits to the timelock |
| Treasury.EveryOperationAuthorised | README.md:41-45 | every grant, revocation and transfer was named by an executed request that the DAO of the time scheduled and that waited out its delay |

## Left out

- JSON, base64 and borsh: arguments are typed values; a method name the receiver does not have is `Other`, and a call
  with undecodable arguments fails like one.
- The storage maps of near-sdk, their iteration order, and the views: maps and sets are mathematical.
- Sputnik DAO internals: the DAO answers `add_proposal` with an arbitrary id, something else, or a failure.
- The effect of an approving vote: the dispatched vote lands with an arbitrary result.
- Gas metering beyond the check at schedule time, and account keys.
- NEP-141 token contracts: `ft_transfer` is a receipt that lands as success or failure; its 1 yoctoNEAR and the NEAR
  balance of the spending account are not tracked.
- Plain NEAR transfers into the timelock: they would only raise its balance.
- Running out of gas at execution or in a callback, and the storage deposit a stored request needs.
- The full topology of several timelocks and spending accounts: the composition has one of each; the other timelocks
  are among the arbitrary outside callers, and the account's admin may be any of them.
- The sentence in the overview (README.md:42-43) about two votes and two full delays: delays of two requests may
  overlap and one batch may hold several calls, so the per-request results above are what the code gives.
- Events of failed calls: the log holds the events of calls and callbacks that succeeded.
