# Payment system: a verified model

The system takes payments: a request moves an amount from a payer's account to a payee's, once per idempotency
key, and leaves a trail in a transaction repository, a double-entry journal and an event log. Many requests run at
once. This project models that protocol, the bounded queue and thread pool requests may be run on, and the durable
transaction repository, and proves what they keep.

Check everything with `dafny verify dfyconfig.toml --resource-limit 2000000 --verification-time-limit 0`.

## How it is organised

| files | content |
|---|---|
| Common, Lifecycle, Domain, Decimal, Validation, Ledger, Stores | values, the transition table, accounts, number text, the validation chain, the journal and the other in-memory adapters |
| Protocol | `pay` as a sequence of atomic steps, any finite number of calls, any schedule |
| ProtocolInvariant, Books, Linearizability, Histories | what every step keeps |
| Guarantees, Answers, Progress, Throughput | what follows for every run |
| Alone, Replays, Losses | the same protocol run by one caller; duplicates under interference; which requests lose money |
| Holdings, Service | a bound no payment raises, and the service class proved against the protocol |
| BlockingQueue, ThreadPool | the monitor with its sleepers and owed notifications; drain and join; the classes |
| FileRepository | records, lines, files; the file repository against the in-memory one; the class |

Every adapter holds its own mutex for a whole operation, so a call of `pay` is a sequence of operations each of
which is atomic, and a schedule (`Protocol.Exec`) says which call makes the next one; a pick that cannot move
changes nothing, so statements about all schedules, and about all states some schedule reaches
(`Protocol.Reachable`), are statements about all interleavings. Reading an entry's id
and its sequence number are two steps in either order, since C++ leaves the order of evaluation open. History
variables record who minted, claimed, decided, posted and published; no step reads them. A promise is a predicate
on states; it is derived from the invariants and then claimed for every reachable state.

`BlockingQueue.Run` and `ThreadPool.RunPool` do the same for threads: a critical section is one step, a notification
is issued in a later step than the section that owes it, and a sleeper may wake spuriously at any time.

The class `Service.PaymentService` is the sequential code. Its `Pay` is proved to do to all stores what the step
machine does for a call nobody interferes with, so the two forms cannot drift apart.

## Assumptions

- The account set is fixed during a run. Balances may open at any value; statements about solvency and overflow
  say which openings they need.
- The chain of validation handlers is arbitrary, the empty chain included, and accounts may be kept in different
  currencies; where that matters the statement carries the exact condition.
- The registered strategies authorize and capture every request, for each of the four methods.
- Event subscribers do not call back into `pay`.
- The protocol's counters do not wrap: `Progress.CountersStaySmall` shows how far they can get, and the counter of
  `Stores.IdGenerator` itself wraps at 2^64.
- Signed overflow is undefined in the source. Operations that compute amounts on int64 require that the result fits,
  and `Books.NoOverflow` shows when it always does.

## Where the code and its documentation disagree

- include/payment/adapters/FileTransactionRepository.hpp:13-15 promises idempotency across restarts. The only
  idempotency store is in memory, so a retry after a restart is paid again (`Alone.RestartChargesAgain`;
  `Alone.ReplaysIffClaimed` gives the exact condition for a replay).
- include/payment/adapters/FileTransactionRepository.hpp:61 says ids and keys never contain tabs. Keys come from the
  client and nothing checks them; `FileRepository.FileRefinesMemory` gives the exact condition for durability.
- include/payment/service/PaymentService.hpp:16-17 and 141 say money is never destroyed and a credit cannot fail for
  a valid amount. The credit of an account in another currency is refused and the refusal ignored
  (`Alone.MoneyCanVanish`). `Losses.PaymentConserves` gives the exact condition on the request and the balance,
  `Losses.LossesAreInOrder` lifts it to every interleaving.
- include/payment/service/PaymentService.hpp:79-81 says a duplicate gets the original transaction. A concurrent one may
  get DUPLICATE_REQUEST (`Replays.ConcurrentDuplicateFails`, with an input in `Replays.ConcurrentDuplicateExample`):
  it does exactly if the original is not saved when it looks (`Replays.LookupDecides`), and it is certain of the
  original when it begins if and only if that is saved by then (`Replays.ReplayCertainIffSaved`). A replay of a failed payment is an ok result holding a FAILED transaction
  (`Alone.FailureIsReplayed`).

## Model

| member | source | states |
|---|---|---|
| `Linearizability.Linearizable` | include/payment/service/PaymentService.hpp:111-170 | After any schedule, the calls that have decided form, in the order of their decisions, a sequential run of atomic payments that gives each of them the same answer, error code included; whenever no call is between debit and credit, the live balances are that run's balances |
| `Linearizability.RealTimeOrder` | include/payment/service/PaymentService.hpp:76-171 | The sequential order respects real time: a call that had decided before another began comes first |
| `Linearizability.DecidedGrows` | include/payment/service/PaymentService.hpp:76-171 | Decisions are only ever appended as a run goes on |
| `Linearizability.AloneInFlight` | include/payment/service/PaymentService.hpp:111-141 | A call about to debit is the only one with money of its payer in flight: what the per-account lock is for |
| `Linearizability.SeesSequentialBalance` | include/payment/service/PaymentService.hpp:139-140 | A call about to debit sees exactly the balance the sequential run would show it |
| `Linearizability.FundsAreThere` | include/payment/service/PaymentService.hpp:139-141 | A call between debit and credit has, in the sequential run, an approved request and a payer who can afford it |
| `Linearizability.AlwaysLinear` | include/payment/service/PaymentService.hpp:111-170 | The inductive invariant behind linearizability holds after every schedule |
| `ProtocolInvariant.OneCriticalPerPayer` | include/payment/service/PaymentService.hpp:104-111 | Of two calls inside the section guarded by the lock of one payer, one is the other |
| `ProtocolInvariant.AlwaysCoherent` | include/payment/service/PaymentService.hpp:76-196 | After every schedule: the locals of every call are in order, minted numbers are unique, each claimed key has its one owner, locks are held by exactly the calls inside, saved transactions are in the repository under their ids |
| `ProtocolInvariant.PostingAccepted` | include/payment/service/PaymentService.hpp:149-155 | The pair of entries `pay` builds is accepted by the ledger for every amount, so the branch that compensates is unreachable |
| `Answers.PaymentAnswers` | include/payment/service/PaymentService.hpp:94-161 | The answer to a request, case by case and code by code: nameless parties throw; else the first handler whose demands are not met decides; else missing accounts, currency, sign and funds of the payer, in this order; nothing moves unless it is paid |
| `Answers.KindsOfRequest` | include/payment/patterns/ValidationChain.hpp:53-59 | The cases are exhaustive: all handlers clear a request, or one is the first to object |
| `Answers.PaymentMoves` | include/payment/service/PaymentService.hpp:139-141 | A paid request takes its amount from the payer, adds it to the payee if that account is in its currency, and touches no other account |
| `Answers.UndisturbedAnswers` | include/payment/service/PaymentService.hpp:94-161 | An undisturbed call with a new key is answered so; unless it is paid no balance and no journal line changes |
| `Answers.AnswersUnderInterference` | include/payment/service/PaymentService.hpp:94-161 | The same under every interleaving: a call that has decided has the answer its request calls for, and between a payment and INSUFFICIENT_FUNDS the balance of the payer in the equivalent sequential run decides |
| `Answers.WinnersDecide` | include/payment/service/PaymentService.hpp:94-161 | Every finished winner of a key has decided, and so |
| `Answers.MovedMoneyWasCleared` | include/payment/service/PaymentService.hpp:113-121 | In every reachable state, money that has moved met the demands of every handler and is between two named, existing accounts, not negative, in the currency of the payer |
| `Answers.ShippedChainGuards` | include/payment/patterns/ValidationChain.hpp:70-111 | With the shipped handlers, money that has moved was positive, within the limit, below the threshold, between different accounts, all in one currency |
| `Answers.StoredTransactionIsRequests` | include/payment/service/PaymentService.hpp:95-102 | In every reachable state a saved transaction has the id its call minted and the key, payer, payee, amount, method and time of the request, and is CAPTURED if paid, else FAILED |
| `Answers.OnlyRequestsAreStored` | include/payment/service/PaymentService.hpp:168 | And the repository holds nothing else |
| `Answers.ReplayIsWinnersRequest` | include/payment/service/PaymentService.hpp:87-88 | A replayed answer has the same key and, field by field, the request of the call that won it |
| `Answers.PaidCallsArePosted` | include/payment/service/PaymentService.hpp:149-155 | Each paid call has, side by side in the journal, the DEBIT of its payer and the CREDIT of its payee, with its id and its amount |
| `Answers.LinesArePaidCalls` | include/payment/service/PaymentService.hpp:149-155 | And every journal line is one of such a pair |
| `Answers.FinishedCallsAreAnnounced` | include/payment/service/PaymentService.hpp:190-196 | Each finished call that stored a transaction is announced with its kind, id and time |
| `Answers.CompensationRestores` | include/payment/service/PaymentService.hpp:155-161 | The transfer of the compensation branch, with nobody in between, undoes the payment if and only if the payee is the payer, nothing was paid, the account of the payee had refused the money, or it had not been overdrawn before |
| `Answers.CompensationSteps` | include/payment/service/PaymentService.hpp:156-160 | That branch credits the payer, debits the payee and fails with the code of the ledger |
| `Books.BalancesAgreeWithJournal` | include/payment/service/PaymentService.hpp:139-161 | In every reachable state each balance is its opening balance plus the signed journal lines of the account in its own currency, plus the deltas of calls between debit and posting; with none in between it is opening plus journal exactly; non-negative openings stay non-negative |
| `Guarantees.BalancesAgreeWithEntries` | include/payment/adapters/InMemoryLedgerRepository.hpp:50-56 | Summed over everything `entriesFor` returns, currencies mixed, the journal never falls short of the balance, and agrees with it if and only if the account has no line in a foreign currency |
| `Books.Conservation` | include/payment/domain/Account.hpp:44-68 | Balances plus debited-but-not-credited money never exceed the opening total of a currency, and equal it if and only if no successful payment went to an account kept in another currency; the rows of Losses say it of the requests |
| `Losses.PaymentConserves` | include/payment/domain/Account.hpp:44-68 | For every request and all balances, an atomic payment keeps the total of each currency if and only if it is not one that passes the gate, is positive, in the currency of the payer, covered by the balance of the payer, and in another currency than the payee; else exactly the amount is lost |
| `Losses.CallConserves` | include/payment/service/PaymentService.hpp:137-141 | The same if-and-only-if for an undisturbed call of `pay`, its key new or claimed |
| `Losses.LossesAreInOrder` | include/payment/service/PaymentService.hpp:137-141 | In every reachable state money of a currency has been lost if and only if the sequential run the interleaving amounts to contains such a request, with the balance it meets there |
| `Losses.ConservedUnlessLostInOrder` | include/payment/service/PaymentService.hpp:137-141 | So the opening total of a currency is kept if and only if it does not |
| `Losses.ConservedWithoutLosers` | include/payment/service/PaymentService.hpp:137-141 | If no request of a currency is of that kind, whatever the balances, the currency is conserved exactly under every schedule |
| `Losses.SuchACallLoses` | include/payment/service/PaymentService.hpp:141 | Each such request that the opening balance covers does lose money under some schedule of any set of calls it belongs to |
| `Losses.ConservedIffNoLosers` | include/payment/service/PaymentService.hpp:137-141 | Among calls the opening balances cover: conserved under every schedule if and only if no request is of that kind |
| `Books.NoOverflow` | include/payment/domain/Account.hpp:44-68 | With non-negative openings totalling at most 2^63-1 per currency, no credit a call is about to make overflows, every balance stays in range and no moved amount is the one that cannot be negated |
| `Books.AlwaysConserved` | include/payment/service/PaymentService.hpp:137-141 | In every reachable state: balances, money in transit and money refused by payees add up to the opening total |
| `Alone.MoneyCanVanish` | include/payment/service/PaymentService.hpp:141 | Concrete run of the call for the failure of conservation: 100 INR paid to a USD account leave the payer, arrive nowhere, and the call returns a CAPTURED payment, because the status of the credit is ignored |
| `Guarantees.ExactlyOncePerKey` | include/payment/service/PaymentService.hpp:83-92 | In every interleaving at most one call per idempotency key ever wins the key, moves money or saves a transaction |
| `Guarantees.LosersReplay` | include/payment/service/PaymentService.hpp:84-92 | Every other call with the key returns DUPLICATE_REQUEST or the winner's stored transaction, which is in a final state, CAPTURED or FAILED; the rows of Replays say which of the two |
| `Replays.LookupDecides` | include/payment/service/PaymentService.hpp:84-92 | In every reachable state a call about to look its winner up is answered with the transaction of the winner if and only if the winner has saved it by then, else with DUPLICATE_REQUEST |
| `Replays.LateRetryReplays` | include/payment/service/PaymentService.hpp:79-88 | Once a call has saved its transaction, a call with the same key that has not begun can, under every continuation, only be answered with that very transaction: it never wins the key and never gets DUPLICATE_REQUEST |
| `Replays.ReplayCertainIffSaved` | include/payment/service/PaymentService.hpp:79-92 | In every reachable state, a call about to begin is certain, under every continuation, to be answered with a stored transaction if and only if some call with its key has saved one by now |
| `Replays.UnsavedRetryFails` | include/payment/service/PaymentService.hpp:84-92 | From every reachable state in which the key of a call about to begin is claimed and no transaction is saved for it, some continuation answers the call with DUPLICATE_REQUEST |
| `Replays.ConcurrentDuplicateFails` | include/payment/service/PaymentService.hpp:79-92 | For any two requests with one key, the first payable, some interleaving pays the first and answers the second with DUPLICATE_REQUEST |
| `Replays.ConcurrentDuplicateExample` | include/payment/service/PaymentService.hpp:79-92 | A concrete such pair |
| `Guarantees.LosersMoveNothing` | include/payment/service/PaymentService.hpp:83-92 | A step that leaves a call without its key changes nothing shared but the id counter |
| `Guarantees.LifecyclesAreLegal` | include/payment/service/PaymentService.hpp:177-188 | The status history of every call in every run is a path of the transition table with at most two moves, ends CAPTURED when paid and FAILED when refused, and the compensation branch is never entered |
| `Guarantees.NoAdvanceIsDropped` | include/payment/service/PaymentService.hpp:177-180 | In no run does `advance` hit its silent no-op: each authorize, fail and capture step appends its status |
| `Guarantees.OrderAgreement` | include/payment/service/PaymentService.hpp:149-169 | For each payer, the transactions announced as captured are in log order those that debited the payer in journal order, but for at most one posted and not yet announced; equal once all calls are done |
| `Guarantees.PayerSequenceIncreases` | include/payment/service/PaymentService.hpp:149-155 | The DEBIT lines of any one payer carry strictly increasing sequence numbers in journal order |
| `Guarantees.FreshIdentifiers` | include/payment/service/PaymentService.hpp:83-154 | Across all interleavings, entry ids and sequence numbers in the journal never repeat and no two calls share a transaction id |
| `Guarantees.CrossStoreConsistency` | include/payment/service/PaymentService.hpp:163-195 | A finished winner's stores agree: CAPTURED with one DEBIT line, one CREDIT line and one PaymentCaptured event; FAILED with no line and one PaymentFailed event; or, after an exception, a claimed key and nothing else |
| `Histories.AlwaysChronicle` | include/payment/service/PaymentService.hpp:149-195 | After every schedule the journal is, pair by pair, and the log, event by event, what the calls wrote in the order in which they wrote it |
| `Progress.RunsAreBounded` | include/payment/service/PaymentService.hpp:76-171 | Whatever the schedule, the moves made and the work left never exceed twenty steps a call, so all runs end |
| `Progress.WorkDrops` | include/payment/service/PaymentService.hpp:76-171 | Every step of any call strictly decreases the measure over all calls |
| `Progress.NeverStuck` | include/payment/adapters/InMemoryDistributedLock.hpp:22-46 | A call holds at most its own payer's lock and none while it waits; an unfinished call can move, or the holder of the lock it waits for can: no deadlock, A to B against B to A included |
| `Progress.OnlyLocksBlock` | include/payment/adapters/InMemoryDistributedLock.hpp:22-46 | A call is blocked if and only if it is done or somebody holds the lock it waits for |
| `Progress.RunsEndFinished` | include/payment/service/PaymentService.hpp:76-171 | A run in which nobody can move is one in which every call has returned |
| `Progress.CountersStaySmall` | include/payment/infra/IdGenerator.hpp:35-43 | Counters advance at most once a move, so fewer than 2^58 calls stay below every wrap-around |
| `Throughput.ExactSuccessCount` | tests/tests.cpp:234-258 | Of N equal valid payments with keys of their own from a wallet holding b that receives nothing, exactly min(N, b div a) succeed and the wallet ends with b - a * that, under every interleaving and whatever other calls do |
| `Throughput.SequentialShares` | include/payment/service/PaymentService.hpp:139-141 | The same count for the sequential run: it pays until the balance no longer covers one share |
| `Alone.AloneIsAtomic` | include/payment/service/PaymentService.hpp:76-171 | Run without interference, the steps of `pay` amount to one atomic payment, store by store: same decision, balances moved as decided, key claimed, lock free, two lines posted if paid, transaction stored with its final status and announced unless it threw, counters advanced accordingly |
| `Alone.RetryReplays` | include/payment/service/PaymentService.hpp:83-92 | A retry with the same key moves nothing and gets the first call's stored transaction, captured or failed; after a first call that threw it gets DUPLICATE_REQUEST |
| `Alone.FailureIsReplayed` | include/payment/service/PaymentService.hpp:87-88 | The retry of a refused payment is answered with an ok result holding a FAILED transaction |
| `Alone.ReplaysIffClaimed` | include/payment/service/PaymentService.hpp:84-92 | A request is answered from the past if and only if its key is in the idempotency store |
| `Alone.RestartChargesAgain` | include/payment/adapters/FileTransactionRepository.hpp:13-15 | The header's claim of idempotency across restarts does not hold: with a fresh idempotency store any payable request is paid again, whatever the file holds, and its transaction overwrites the one stored as txn_1 |
| `Service.PaymentService.constructor` | include/payment/service/PaymentService.hpp:61-72 | A new service over given adapters; its counters start at 1 |
| `Service.PaymentService.Pay` | include/payment/service/PaymentService.hpp:76-171 | What the sequential code returns and leaves in every store is exactly what the step machine does for the call alone; with a new key, balances and answer are those of one atomic payment, with a claimed one nothing moves; requires only that the credit this very payment makes, if it gets that far, does not overflow; transaction, event and journal lines are those of the request, field by field; and what the next call needs holds again |
| `Service.PayAndRetry` | tests/tests.cpp:214-226 | A request and its retry: the money of one atomic payment moves, and the retry gets the stored transaction of the first, with every field of its request, or DUPLICATE_REQUEST exactly if that threw |
| `Holdings.PayKeepsFundsBounded` | include/payment/domain/Account.hpp:44-68 | No payment raises what the accounts of a currency hold together, overdrawn ones counting as empty |
| `Holdings.PairsFit` | include/payment/domain/Account.hpp:44-52 | Under that bound any two accounts of one currency fit int64 together, so no credit out of one into the other overflows |
| `Service.PaymentService.MintAndClaim` | include/payment/service/PaymentService.hpp:83-84 | Mints the next id and claims the key for it if nobody had |
| `Service.PaymentService.ReplayOrDuplicate` | include/payment/service/PaymentService.hpp:85-91 | A lost claim answers with the stored transaction or DUPLICATE_REQUEST |
| `Service.PaymentService.PayClaimed` | include/payment/service/PaymentService.hpp:94-171 | From the claimed key on: build or throw, lock, pay, unlock, as the step machine does |
| `Service.PaymentService.PayLocked` | include/payment/service/PaymentService.hpp:113-170 | Everything under the payer's lock runs as the step machine does from the acquisition of the lock to its release |
| `Service.PaymentService.CheckGate` | include/payment/service/PaymentService.hpp:113-121 | The chain first, then payer and payee lookup, with their error codes |
| `Service.PaymentService.MoveMoney` | include/payment/service/PaymentService.hpp:137-170 | Debit, credit, posting and capture end in the state the step machine reaches from the approved request |
| `Service.PaymentService.Transfer` | include/payment/service/PaymentService.hpp:139-141 | Debits the payer and, only if accepted, offers the credit, whose answer is ignored; a rejected debit moves nothing |
| `Service.PaymentService.MintEntries` | include/payment/service/PaymentService.hpp:149-154 | A DEBIT of the payer and a CREDIT of the payee with consecutive fresh ids and sequence numbers |
| `Service.PaymentService.Commit` | include/payment/service/PaymentService.hpp:155-170 | For any batch: appended and captured if the ledger accepts it, else both balances put back and the payment failed with the ledger's code |
| `Service.PaymentService.Compensate` | include/payment/service/PaymentService.hpp:156-159 | Credits the payer back and debits the payee |
| `Service.PaymentService.Capture` | include/payment/service/PaymentService.hpp:163-170 | Stores the transaction as CAPTURED and announces it |
| `Service.PaymentService.Fail` | include/payment/service/PaymentService.hpp:183-188 | Stores the transaction as FAILED, announces it and returns the code; no balance moves |
| `Service.PaymentService.AdvanceStatus` | include/payment/service/PaymentService.hpp:177-180 | Changes the status exactly when the table allows it |
| `Domain.Account.Debit` | include/payment/domain/Account.hpp:57-68 | For any balance, accepted if and only if currency matches and 0 <= amount <= balance; never overdraws; a rejection moves nothing |
| `Domain.Account.Credit` | include/payment/domain/Account.hpp:44-52 | Rejected on a foreign currency or a negative amount, else added |
| `Domain.SignedMinor` | include/payment/domain/LedgerEntry.hpp:46-48 | Credits add and debits subtract, and the result fits int64 unless the amount is the most negative one |
| `Lifecycle.TransitionsClimb` | include/payment/patterns/TransactionStateMachine.hpp:38-52 | Every legal transition climbs the rank and leaves a non-terminal status |
| `Lifecycle.MovesAre` | include/payment/patterns/TransactionStateMachine.hpp:38-52 | The seven legal transitions, and no others |
| `Lifecycle.NothingIsSkipped` | include/payment/patterns/TransactionStateMachine.hpp:15-17 | In any history CAPTURED comes third, after AUTHORIZED, and SETTLED and REFUNDED only after CAPTURED; a history that fails was never captured |
| `Lifecycle.TerminalHasNoExit` | include/payment/patterns/TransactionStateMachine.hpp:67-70 | A status is terminal if and only if no transition leaves it: SETTLED, FAILED and REFUNDED |
| `Lifecycle.HistoryIsShort` | include/payment/patterns/TransactionStateMachine.hpp:15-17 | Any history makes at most three moves, repeats no status and passes through no terminal one |
| `Lifecycle.AdvanceKeepsHistory` | include/payment/service/PaymentService.hpp:177-180 | A gated status change keeps the history legal and extends it |
| `Validation.FirstObjectionWins` | include/payment/patterns/ValidationChain.hpp:53-59 | The chain answers what its first objecting handler answers, or passes |
| `Validation.HandlerAnswers` | include/payment/patterns/ValidationChain.hpp:73-108 | What each handler demands, exactly, and which code it gives otherwise; comparing different currencies throws |
| `Validation.ChainPasses` | include/payment/patterns/ValidationChain.hpp:53-59 | A chain passes a request if and only if all its handlers clear it |
| `Validation.ShippedChain` | include/payment/patterns/ValidationChain.hpp:70-111 | For the three shipped handlers: exactly which requests pass, are held for fraud review, throw, or fail validation |
| `Validation.PassedEveryHandler` | include/payment/patterns/ValidationChain.hpp:53-111 | A passed request passed every handler, wherever it stands |
| `Validation.ValidationChain.Run` | include/payment/patterns/ValidationChain.hpp:53-59 | The loop with early exit computes the answer of the chain |
| `Validation.ValidationChain.Add` | include/payment/patterns/ValidationChain.hpp:48-51 | Handlers run in insertion order |
| `Ledger.InMemoryLedgerRepository.Post` | include/payment/adapters/InMemoryLedgerRepository.hpp:24-48 | A batch is appended whole exactly when it is non-empty, in one currency and nets to zero, with the source's error codes otherwise; no partial sum overflows |
| `Ledger.PostDecides` | include/payment/adapters/InMemoryLedgerRepository.hpp:24-42 | A batch is accepted if and only if it is non-empty, in one currency and nets to zero, and is refused with VALIDATION_FAILED exactly if one of the first two fails |
| `Ledger.NetIsSum` | include/payment/adapters/InMemoryLedgerRepository.hpp:33-39 | The net goes over all lines, each with its sign |
| `Ledger.EntriesInOrder` | include/payment/adapters/InMemoryLedgerRepository.hpp:50-56 | `entriesFor` keeps exactly the lines of the account, in journal order |
| `Ledger.InMemoryLedgerRepository.EntriesOf` | include/payment/adapters/InMemoryLedgerRepository.hpp:50-56 | The loop computes the account's lines in journal order |
| `Ledger.AcceptedBatchBalances` | include/payment/adapters/InMemoryLedgerRepository.hpp:29-42 | An accepted batch nets to zero in every currency |
| `Ledger.TrialBalance` | include/payment/adapters/InMemoryLedgerRepository.hpp:24-48 | After any sequence of accepted and rejected posts, every posting-boundary prefix nets to zero in each currency, and earlier journals are prefixes of later ones |
| `Guarantees.JournalBalances` | include/payment/service/PaymentService.hpp:149-155 | In every reachable state the live journal nets to zero in each currency at every posting, and the books of all accounts together total zero |
| `Ledger.BooksAddUp` | include/payment/adapters/InMemoryLedgerRepository.hpp:50-56 | The per-account views of any complete list of distinct accounts add up to the journal's own net |
| `Ledger.BooksBalance` | include/payment/adapters/InMemoryLedgerRepository.hpp:24-56 | After any sequence of posts the signed per-account sums total zero |
| `Stores.IdGenerator.Next` | include/payment/infra/IdGenerator.hpp:35-38 | Prefix, underscore, counter; the counter advances modulo 2^64 |
| `Stores.IdTextExample` | include/payment/infra/IdGenerator.hpp:33-38 | Number 42 reads txn_42 |
| `Stores.IdTextInjective` | include/payment/infra/IdGenerator.hpp:35-38 | Different counter values give different ids |
| `Stores.InMemoryIdempotencyStore.PutIfAbsent` | include/payment/adapters/InMemoryIdempotencyStore.hpp:28-34 | First writer wins; a later claim changes nothing and no claim is ever lost |
| `Stores.InMemoryTransactionRepository.Save` | include/payment/adapters/InMemoryTransactionRepository.hpp:27-31 | Replaces the entry of the transaction's id and no other |
| `Stores.InMemoryTransactionRepository.Find` | include/payment/adapters/InMemoryTransactionRepository.hpp:20-25 | The entry of an id, if any |
| `Stores.InMemoryEventPublisher.Publish` | include/payment/adapters/InMemoryEventPublisher.hpp:31-36 | Appends the event to the log |
| `Stores.InMemoryDistributedLock.MutexFor` | include/payment/adapters/InMemoryDistributedLock.hpp:41-46 | Creates the mutex of a key at its first use and keeps it afterwards |
| `Stores.InMemoryDistributedLock.Acquire` | include/payment/adapters/InMemoryDistributedLock.hpp:22-34 | An attempt on a key succeeds exactly when nobody holds it; then the key is held by the caller and every other key unchanged, else nothing changes |
| `Decimal.PrintParses` | include/payment/adapters/FileTransactionRepository.hpp:70-97 | Every integer in range, down to the most negative, parses back from its decimal text |
| `Decimal.PrintsInBaseTen` | include/payment/infra/IdGenerator.hpp:37 | Numbers print in base ten, most significant digit first, negative ones with a minus |
| `Decimal.ParseMeans` | include/payment/adapters/FileTransactionRepository.hpp:92-99 | Conversion takes blanks, at most one sign and a numeral and ignores what follows; without a digit or out of range it throws |
| `Decimal.PrintNatInjective` | include/payment/infra/IdGenerator.hpp:37 | Decimal printing is injective |
| `BlockingQueue.BlockingQueue.PushLocked` | include/payment/infra/BlockingQueue.hpp:40-48 | The critical section of a push: rejected exactly when closed, waits exactly when open and full, else appends; a bounded queue never exceeds its capacity |
| `BlockingQueue.BlockingQueue.PopLocked` | include/payment/infra/BlockingQueue.hpp:53-62 | The critical section of a pop: takes the front of a non-empty queue, ends exactly when closed and empty, waits exactly when open and empty |
| `BlockingQueue.BlockingQueue.CloseLocked` | include/payment/infra/BlockingQueue.hpp:66-70 | Sets the flag and keeps the items |
| `BlockingQueue.AlwaysQueueInv` | include/payment/infra/BlockingQueue.hpp:40-73 | In every reachable state of any number of pushers, poppers and closers, spurious wakeups included: wakeups are covered, items are first in first out, size is bounded, end of stream is honest |
| `BlockingQueue.NoLostWakeup` | include/payment/infra/BlockingQueue.hpp:40-73 | While the queue is open and a popper sleeps, items never outnumber owed notifications and woken poppers, dually for pushers and free slots; once closed every sleeper is covered by an owed notify_all; and threads at rest sleep only where they cannot proceed |
| `BlockingQueue.NobodySleepsInVain` | include/payment/infra/BlockingQueue.hpp:42-55 | With nothing owed and nobody woken, poppers sleep only on an open empty queue, pushers only on an open full one, never both |
| `BlockingQueue.QueueRefinement` | include/payment/infra/BlockingQueue.hpp:40-88 | Popped items followed by queued items are the accepted pushes in order; size stays within a non-zero capacity; nothing is accepted after the close and nothing refused before it; an empty-handed pop means closed and drained |
| `BlockingQueue.WakeAllCounts` | include/payment/infra/BlockingQueue.hpp:71-72 | notify_all turns every sleeper of one kind into a woken thread and leaves all other counts alone |
| `ThreadPool.ThreadPool.WorkerLoop` | include/payment/infra/ThreadPool.hpp:79-84 | One worker runs everything queued, in order, and leaves it empty; then it exits if the queue is closed and else waits |
| `ThreadPool.ThreadPool.Shutdown` | include/payment/infra/ThreadPool.hpp:68-73 | The first shutdown runs every accepted task, in order, and leaves a closed empty queue; a later one does nothing |
| `ThreadPool.ThreadPool.Submit` | include/payment/infra/ThreadPool.hpp:60 | A submission is a push: refused exactly after the close, waiting exactly when the open pool is full |
| `ThreadPool.AlwaysPoolInv` | include/payment/infra/ThreadPool.hpp:35-91 | In every reachable state of workers, submitters and shutdown calls: accepted tasks are accounted for one by one, one shutdown wins, and it has joined only workers that left |
| `ThreadPool.ShutdownDrains` | include/payment/infra/ThreadPool.hpp:68-84 | When the winning shutdown has returned: queue closed and empty, all workers gone, tasks dequeued in acceptance order, and the tasks run are, each exactly as often, those whose submission was accepted |
| `ThreadPool.NeverHangs` | include/payment/infra/ThreadPool.hpp:68-84 | While a shutdown call has not returned, something other than a spurious wakeup can happen |
| `ThreadPool.PoolRunsAreBounded` | include/payment/infra/ThreadPool.hpp:68-84 | A bound on the moves of any run fixed by its start, plus two per spurious wakeup of the open queue |
| `ThreadPool.ShutdownCompletes` | include/payment/infra/ThreadPool.hpp:68-84 | Where runs end, every shutdown call has returned, exactly one as the winner, and the pool is drained |
| `FileRepository.LineRoundTrip` | include/payment/adapters/FileTransactionRepository.hpp:65-100 | A record reads back, every field of it, if and only if no string in it holds a tab: empty keys and all int64 amounts and times included |
| `FileRepository.CodesFollowDeclarations` | include/payment/common/Enums.hpp:14-49 | The code of an enumerator is its place in the declaration, for currencies, methods and statuses |
| `FileRepository.RecordsAreTransactions` | include/payment/adapters/FileTransactionRepository.hpp:94-99 | Casting the codes back by that order gives the transaction again, status included, and a record stands for a transaction only if it is that one's |
| `FileRepository.RecordOfInjective` | include/payment/adapters/FileTransactionRepository.hpp:72-74 | The integer codes tell enumerators apart: a record determines its transaction |
| `FileRepository.LineLayout` | include/payment/adapters/FileTransactionRepository.hpp:65-77 | The nine fields of a line, in order, separated by tabs |
| `FileRepository.ShortLinesAreSkipped` | include/payment/adapters/FileTransactionRepository.hpp:79-90 | Blank lines, and lines of fewer than nine fields or with an empty ninth, are passed over |
| `FileRepository.RecordIsOneLine` | include/payment/adapters/FileTransactionRepository.hpp:65-77 | A record is never empty and holds a newline exactly when one of its strings does |
| `FileRepository.FileRoundTrip` | include/payment/adapters/FileTransactionRepository.hpp:102-116 | A rewritten file, in any traversal order, loads back to the index it was written from if and only if no string in the index holds a tab or a newline |
| `FileRepository.FileRefinesMemory` | include/payment/adapters/FileTransactionRepository.hpp:41-52 | Over any sequence of save, find and reopen, with any order at each rewrite, the file repository answers as the in-memory one throughout if and only if no reopening meets a stored tab or newline |
| `FileRepository.CleanSavesAreDurable` | include/payment/adapters/FileTransactionRepository.hpp:41-52 | In particular when every saved transaction is free of both |
| `FileRepository.SavedIsFound` | include/payment/adapters/FileTransactionRepository.hpp:41-52 | A transaction saved in a run is what every later find gives, as that very transaction, until it is saved again, however often the repository is reopened, if saved strings hold no tab and no newline |
| `FileRepository.TabInKeyBreaksReopening` | include/payment/adapters/FileTransactionRepository.hpp:61-62 | The assumption that keys never contain tabs is not checked anywhere: after saving one payment whose key holds a tab and whose payee is not a number, the repository cannot be opened |
| `FileRepository.TabInKeyExample` | include/payment/adapters/FileTransactionRepository.hpp:61-62 | A concrete such payment |
| `FileRepository.FileTransactionRepository.Open` | include/payment/adapters/FileTransactionRepository.hpp:36-39 | Opening yields the loaded index, or no repository when a line stops the load |
| `FileRepository.FileTransactionRepository.LoadFromDisk` | include/payment/adapters/FileTransactionRepository.hpp:102-110 | The loop over lines, with empty and short ones skipped, computes the load |
| `FileRepository.FileTransactionRepository.FlushToDisk` | include/payment/adapters/FileTransactionRepository.hpp:113-116 | The file becomes the records of the index in some order without repetition |
| `FileRepository.FileTransactionRepository.Save` | include/payment/adapters/FileTransactionRepository.hpp:48-52 | The index changes at one id and the file is rewritten from it |
| `FileRepository.FileTransactionRepository.Find` | include/payment/adapters/FileTransactionRepository.hpp:41-46 | The entry of an id, if any |

## Left out

- `Money::fromMajor` and `Money::toString`: floating-point rounding and display text; amounts are minor units throughout.
- Event payload text, error message text, and the status `transition` query nobody in the service calls.
- The clock: a request carries the time its transaction is built with.
- Event subscribers and their callbacks.
- Payment strategies that decline, gateway references and the factory's unregistered methods: the four shipped strategies always agree.
- The account repository beyond a fixed map from ids to accounts, and account types.
- `std::function`, `std::packaged_task`, futures and exceptions inside tasks: a task is an opaque step that returns and does not touch the pool.
- Fairness of the scheduler: runs are shown to be bounded and never stuck; that a particular enabled thread is picked is not stated.
- Mutexes as objects: a critical section is one step, so a wait for a mutex, other than for a payer's lock, is not visible.
- Real file I/O: the file is a character sequence whose writes succeed, and repositories are opened only between operations; a crash during a rewrite is not modelled.
- Transaction's builder and setter as mutable objects: a transaction is a value, and the service replaces it where the source assigns its status.
- ThreadPool.ThreadPool.Shutdown: the class runs one worker at a time to the end; several workers, submitters and shutdown calls at once are the step machine of the same module.
- ThreadPool.ThreadPool.WorkerLoop: on an open queue it ends where the worker goes to sleep in pop; going on after a wakeup is in the step machine.
- ThreadPool.ThreadPool.Submit: one attempt of the push; sleeping on a full queue is in the step machine.
- Stores.InMemoryDistributedLock.Acquire: one attempt; waiting for a held key is in the step machine.
- Service.PaymentService.Pay: one caller at a time, with room in the id counters and for the credit it makes; concurrent calls are the step machine.
- Postgres, Redis and Kafka adapters, which the documentation mentions and the repository does not contain.
