# Verified model of the account service

A Dafny 4.11 model of the money ledger of the account service and of the four protocols around it:
gRPC idempotency, the Kafka consumer, the outbox relay and the entry listing. `dafny verify dfyconfig.toml`
checks all of it.

## How it is built

- `Schema`, `Effects`: the tables of the migration as one value `Db`, and the atomic meaning of each
  operation: when it succeeds, the state it commits, the error it reports otherwise.
- `Requests`: what each call is for, row by row and in the terms of the request alone; the atomic meanings are
  proved to be that, and the calls of `Server` and `Consumer` promise it.
- `Store`, `Operations`, `Transactions`: the imperative side. `Store` has the tables as mutable fields and
  one method per SQL statement; any statement, and the commit, may fail. `Operations` holds the programs of
  `internal/ledger/operations.go`, statement by statement, with the invariant broken in between.
  `Transactions` holds the closures given to `InTx`, rollback to the snapshot, the retry loop, and the
  transactions of others between two attempts. They are proved to refine `Effects` and `Machine`.
- `Machine`: a `Body` is a closure passed to `InTx`; `Perform` is its atomic meaning, idempotency gate
  included; a run is any interleaving of committed and aborted attempts; `Reachable` is what runs reach.
- `Invariants`, `Deltas`, `Preservation`, `NoStuck`, `Safety`, `Guarantees`: the invariant of every
  reachable state and the results that follow from it.
- `History`, `Idempotency`, `Accounts`, `Sweep`, `Reconcile`, `Validate`: results about runs, sweeping,
  reconciliation and the balance check.
- `Server`, `Consumer`, `Pagination`: the calls, the consumer and the listing.
- `Relay`, `RelayOrder`, `Outbox`, `Delivery`: the relay as a system of moves by any number of replicas; the order
  one relay keeps; `drainOnce` statement by statement, each drain a path of that system; ledger and relay together.
- `Int64`, `Sums`, `Sequences`: Go's wrapping arithmetic; sums over keyed and append-only tables; distinct rows.

## Assumptions

- Holds are placed on user accounts, not on the eight system accounts (`Machine.Admissible`). `Capture`'s
  comment says so; `Hold` does not check it. `Reconcile.HoldDriftsIffDebitAccount` says exactly when a hold
  makes reconciliation report drift, and `Guarantees.HoldOnSettlementDrifts` shows a run in which one does.
- What the infrastructure does is fixed beforehand and out of the programs' hands: which round trips to the
  database fail and how, which rows others have locked (`Store.faults`, `Store.locks`), what the registry and the
  dead-letter broker answer (`Consumer.registry`, `Consumer.broker`), which operations of a relay fail
  (`Outbox.faults`).
- A serializable transaction is an atomic step that may abort; a commit may take place although its
  acknowledgement is lost. `Reconcile` is one statement and reads one consistent state.
- The clock, new uuids, the rows a sweep finds unlocked and the result of decoding a stored response of
  another method are inputs of an attempt (`Machine.Inputs`). A uuid is its 128-bit number. The key texts
  `capture:<id>` and `welcome:<id>` are constructors, since they are injective in the id and share no value.
- Provisioning takes its currency as a parameter; the consumer passes USD. The welcome amount is an int64.
- CHECK, unique, foreign-key and bigint violations are one error, `Constraint`, as `mapErr` makes them one.
- A balance row's `version`, a bigint that counts its updates, stays below 2^63. `Effects.BumpFits` bounds
  `available` and `held` only.
- Where order is claimed, a row commits with an id above every row that is published or locked by then
  (`RelayOrder.InTime`), as larger ids for later rows (section 5.7 of RFC 9562) give it unless commits overtake
  each other. `RelayOrder.LateRowKeepsOrderIff` says that this is exactly what order needs.
- The seed of a registration is arbitrary. `Accounts.OneAccountPerUser` is about positive seeds;
  `Accounts.SecondAccountIff` says that others give a user a second account.

## Where the code and its comments differ

- `ValidateBalanced` is described as an exact check. On int64 it accepts sums that are zero modulo 2^64
  (`Validate.ValidateBalanced`). It is exact for at most two legs a side (`Validate.TwoLegsASideAreExact`), which
  covers every posting made, and not for three (`Validate.ThreeLegsSlipThrough`).
- `Reconcile` is described as reporting all drift. In an arbitrary state the wrapped subtraction can hide drift
  (`Reconcile.MaskedDriftExists`); `Reconcile.ReconcileIsExact` gives the exact condition. No reachable state meets it.
- `internal/events/validate.go:26-28` says that an outage of the registry must never dead-letter a record. A
  shutdown during the outage ends the wait with an ordinary failure; after three of these the record is handed to
  the dead-letter producer (`Consumer.OutageDeadLettersIff`).
- The `Facade` comment says every public method runs a transaction; only `InTx` and `SweepExpiredHolds` do.
- `replay` does not compare the method, so a request id reused by another method never takes effect again and
  its stored bytes are decoded as another message.
- `listEntries` does not look at `rows.Err()`. A read failure there yields a short page without a cursor, which a
  client takes for the last one: `Pagination.ListEntries` says the listing is complete iff no read broke off, and
  `Pagination.CutWalkMisses` that such a walk misses an entry.
- `SweepExpiredHolds` and `drainOnce` do not look at `rows.Err()`. A read failure there shortens the result and
  leaves the transaction aborted; the proofs show that nothing is committed in that case.

## Model

| member | source | states |
|---|---|---|
| Validate.ValidateBalanced | internal/ledger/validate.go:8-32 | accepts iff there are two legs or more, all well formed, and each currency's true sum is 0 modulo 2^64; each rejection names the first flaw or an unbalanced currency |
| Validate.TwoLegsASideAreExact | internal/ledger/validate.go:12-31 | with at most two debit and two credit legs a currency, acceptance is exact balance |
| Validate.ThreeLegsSlipThrough | internal/ledger/validate.go:18-30 | three legs on one side, debit or credit, suffice to get an imbalance of 2^64 accepted, so the bound of two is tight on both sides |
| Operations.Post | internal/ledger/ledger.go:89-107 | on success the transaction and all legs are stored and the legs were acceptable, ids and key new, accounts known; a definite failure means one of these did not hold |
| Operations.Hold | internal/ledger/operations.go:23-56 | the statements together either have the atomic effect or report the error that the atomic meaning prescribes, in the source's order of checks |
| Operations.Capture | internal/ledger/operations.go:80-139 | same, for posting, both balance updates, status and one or two events |
| Operations.Release | internal/ledger/operations.go:142-167 | same, for release; the hold ends expired if the reason is "expiry" and released for every other reason |
| Operations.ReleaseByPayment | internal/ledger/operations.go:172-184 | same; returns true iff the payment had an active hold |
| Operations.Deposit | internal/ledger/operations.go:188-204 | same, for the posting from the settlement account |
| Operations.Sweep | internal/ledger/operations.go:207-235 | unless the transaction is aborted, releases exactly the selected holds in order and counts them: a hundred overdue holds that no one has locked, or all of them |
| Store.Store.SelectExpired | internal/ledger/operations.go:211-225 | at most 100 distinct overdue active holds that are not locked by others; all of them or 100 when reading did not break |
| Transactions.Transaction | internal/ledger/ledger.go:72-75 | commits the whole meaning of its body or restores the state before; success implies commit; only a lost connection hides a commit; a failure of the infrastructure is reported iff one struck, and it is that one |
| Transactions.InTx | internal/ledger/ledger.go:68-85 | at most one commit; every attempt struck by a serialization failure is followed by another until there were five, and the answer is that of the last, or exhaustion if that was struck too; ends in the state others left, or that state with the body's atomic effect; keeps the invariant |
| Transactions.RunRpc | internal/grpcapi/server.go:104-119 | replay, or the operation and its stored response in one transaction, refine the gated meaning |
| Transactions.RunEvent | internal/consumer/consumer.go:144-162 | the event gate and its handler refine the gated meaning |
| Safety.InitialInv | migrations/00001_initial.sql:100-110 | the migrated database satisfies the invariant |
| Safety.RunKeepsInv | internal/ledger/operations.go:23-235 | every run of committed and aborted attempts keeps the whole invariant |
| Safety.ReachableInv | internal/ledger/ledger.go:50-56 | the invariant holds in every reachable state |
| Guarantees.NoStuckMoney | internal/ledger/operations.go:23-167 | in reachable states release succeeds iff the hold is active, capture iff also 0 < amount <= hold, hold on any account iff affordable, in currency and the payment has no active hold |
| Guarantees.DepositFailsOnlyOnOverflow | internal/ledger/operations.go:188-204 | in reachable states a positive deposit under a new key, in the account's currency, fails iff the settlement row would overflow |
| NoStuck.OwedFits | migrations/00001_initial.sql:51-56 | conservation bounds each account's available plus held by the settlement row, hence by bigint |
| Guarantees.MoneyIsConserved | internal/ledger/operations.go:80-204 | per currency the settlement balance equals available plus held over all liability accounts |
| Preservation.CaptureConservesIn | internal/ledger/operations.go:105-113 | the two balance updates of a capture conserve money in each currency |
| Guarantees.ReconciliationIsClean | internal/ledger/reconcile.go:16-70 | on any answer to its query in a reachable state every sum scans and no account is reported or has drifted |
| Guarantees.ReconcileArithmeticIsExact | internal/ledger/reconcile.go:40-57 | in reachable states all three sums and their difference fit int64 |
| Reconcile.Reconcile | internal/ledger/reconcile.go:40-69 | fails iff the result broke off or a sum does not scan; otherwise counts the rows whose wrapped expectation differs |
| Reconcile.CountMissesMasked | internal/ledger/reconcile.go:51-59 | in any state whose sums scan, the count is the number of drifted accounts less those whose drift wrap-around masks |
| Reconcile.ReconcileIsExact | internal/ledger/reconcile.go:51-59 | in any state whose sums scan, the count is the number of drifted accounts iff no drift is masked by wrap-around |
| Reconcile.MaskedDriftExists | internal/ledger/reconcile.go:56 | a state that breaks no constraint of the migration, and an answer of the query on it, where one account has drifted and the count is 0 |
| Reconcile.HoldDriftsIffDebitAccount | internal/ledger/operations.go:23-56 | a hold leaves clean books clean iff its account is not an asset or expense account, and can only make that account drift |
| Guarantees.HoldOnSettlementDrifts | internal/ledger/operations.go:23-56 | after one funded registration, a hold on the settlement account is accepted and makes that account drift |
| Guarantees.OutboxRebuildsBalances | internal/ledger/operations.go:45-52 | each held balance equals held minus captured minus released event amounts; each merchant balance equals the captured events of its currency |
| Guarantees.OutboxTellsEachHold | internal/ledger/operations.go:118-137 | each hold is announced in full; captured and released amounts are 0 while active and add up to it afterwards |
| Guarantees.CapturedIffPosted | internal/ledger/operations.go:96-116 | captured iff a transaction has the hold's capture key; there is at most one; its legs are two equal ones within the hold |
| History.RunExtends | migrations/00001_initial.sql:33-47 | along every run entries and transactions are append-only, accounts and stored responses immutable, ended holds final |
| History.AtMostOneWinner | internal/ledger/operations.go:85-87 | in any race at most one attempt ends a hold |
| History.WinnerIsContender | internal/ledger/operations.go:80-235 | a step ends a hold only as a committed capture or release of it, a failure of its payment, or a sweep that selected it; the status shows which |
| History.SomeoneWon | internal/ledger/operations.go:142-159 | a hold that stopped being active was ended by one such attempt of the run, and keeps the status that attempt gave it |
| History.LoserChangesNothing | internal/ledger/operations.go:147-184 | for an ended hold, capture, release and payment failure leave all money as it was, unless the payment has another active hold; a sweep that selects it cannot commit |
| History.LosersChangeNothing | internal/ledger/operations.go:80-235 | so after the winner of a race no later contender changes money, along any run |
| Guarantees.LedgerBalances | internal/ledger/ledger.go:87-92 | every posting balances per currency, total debits equal total credits, every entry is in its account's currency |
| Guarantees.DepositKeepsCurrencyIff | internal/ledger/operations.go:188-204 | a successful deposit keeps entries in their accounts' currencies iff its currency is the account's |
| Guarantees.OneActiveHoldPerPayment | migrations/00001_initial.sql:70 | two active holds of one payment are the same |
| Guarantees.CompensationIsComplete | internal/ledger/operations.go:169-184 | releasing by payment never fails, leaves no active hold of the payment, and repeating it changes nothing |
| Sweep.SweepNeverSticks | internal/ledger/operations.go:226-231 | no release inside a sweep of any selection can fail |
| Sweep.SweepIsConfluent | internal/ledger/operations.go:226-231 | any order of the same ids gives the same holds, balances and versions |
| Sweep.SweepCountIsExact | internal/ledger/operations.go:208-230 | the reported number is the number of holds moved from active to expired |
| Sweep.SweepsClear | internal/ledger/operations.go:211-212 | under the invariant, with no locked rows, n overdue holds are gone after exactly ceil(n/100) sweeps |
| Requests.SweepMeans | internal/ledger/operations.go:226-231 | row by row: exactly the selected holds expire, each announced once, in that order |
| Server.SweepExpiredHolds | internal/ledger/operations.go:207-235 | fails only if the infrastructure does; on success a hundred unlocked overdue holds, or all of them, have expired, and the count is their number; an error other than a lost connection leaves no trace |
| Idempotency.SeenHasCause | internal/grpcapi/server.go:35-57 | a request id or event id is seen only because an attempt with it took effect |
| Idempotency.FreshIffLeads | internal/grpcapi/server.go:34-46 | the gates let an attempt through to its effect exactly when it is the first committed attempt with its key |
| Idempotency.RedeliveryIsInvisible | internal/grpcapi/server.go:35-57 | a run with duplicated, aborted and unacknowledged attempts ends where the run of the first committed attempt of each key ends |
| Idempotency.AtMostOneEffect | migrations/00001_initial.sql:73-80 | no request id, across methods, and no event id takes effect twice |
| Idempotency.LaterIsSilent | internal/grpcapi/server.go:105-107 | after a committed attempt every later one with its key changes nothing |
| Idempotency.ReplayReturnsStored | internal/grpcapi/server.go:34-46 | a repeated call of the same method returns the first response, whatever happened in between |
| Requests.HoldRpcMeans | internal/grpcapi/server.go:103-119 | row by row: a new request places exactly the requested hold and answers its id and what is left, or names the check that refuses it; a repeated one changes nothing |
| Requests.CaptureRpcMeans | internal/ledger/operations.go:80-139 | row by row: exactly the requested amount is posted from the hold's account to the merchant, the rest is available again, the answer is that transaction; or the check that refuses it |
| Requests.ReleaseRpcMeans | internal/ledger/operations.go:142-167 | row by row: the hold's amount is available again and the hold has ended as the reason says; or it is unknown or not active |
| Server.Server.HoldFunds | internal/grpcapi/server.go:90-124 | rejects missing fields without effect; otherwise the answer is the one above, with the request's own lifetime if positive and the server's otherwise; if the infrastructure failed, nothing or all of that has happened |
| Server.Server.CaptureFunds | internal/grpcapi/server.go:126-152 | same, for captures of the requested amount |
| Server.Server.ReleaseFunds | internal/grpcapi/server.go:154-182 | same, for releases, with "compensation" as the default reason |
| Consumer.EventMeans | internal/consumer/consumer.go:165-202 | row by row: a registration opens the user's USD account with the seed, a payment failure leaves no active hold of the payment, other events change nothing; and exactly why an event is refused |
| Consumer.Consumer.Process | internal/consumer/consumer.go:144-162 | the event's transaction ends in its effect, in a refusal that leaves no trace, or, if the infrastructure failed, in all or nothing |
| Consumer.Consumer.Handle | internal/consumer/consumer.go:112-163 | handled means the event has had the effect above, once, and is recorded; poison is exactly a schema violation or a record that cannot be read, and changes nothing; without a registry answer nothing is tried; failure means an outage, a refusal or a fault that struck |
| Consumer.Consumer.HandleWithRetry | internal/consumer/consumer.go:93-110 | one to three handlings with transactions of others in between, only ordinary failures tried again; a handled record is settled, recorded and not offered to the dead-letter queue; any other is offered once, and settled iff the broker acknowledged it |
| Consumer.OutageDeadLettersIff | internal/consumer/consumer.go:96-134 | the registry never answered for a record iff all three handlings were cut off in an outage, and then it is dead-lettered; an unreadable record not found poison is dead-lettered iff that is so |
| Consumer.RecordedIffHandled | internal/consumer/consumer.go:144-162 | an event id is recorded exactly when its effect commits |
| Accounts.OneAccountPerUser | internal/consumer/consumer.go:165-187 | along every run with positive seeds each user account has its welcome deposit and no two belong to one user |
| Accounts.ProvisionIff | internal/consumer/consumer.go:165-187 | provisioning succeeds iff the account id is new and either the seed is not positive, or the user has no welcome deposit yet, the transaction id is new and the settlement row has room |
| Accounts.SecondAccountIff | internal/consumer/consumer.go:180-184 | two registrations of one user under distinct event ids, from the migrated database on, end in two accounts iff one of the seeds is not positive |
| Guarantees.KeyIsUsedOnce | migrations/00001_initial.sql:16 | an idempotency key is on at most one transaction, so a user has at most one welcome deposit |
| Relay.AtLeastOnce | internal/outbox/outbox.go:64-119 | from an empty outbox on, for any replicas and failures: open batches disjoint and unprocessed, processed rows published, published rows committed |
| Relay.CommitDrains | internal/outbox/outbox.go:112-115 | a successful drain lowers the number of unprocessed rows by its batch size |
| RelayOrder.PublishedInOrder | internal/outbox/outbox.go:67-69 | from an empty outbox on, one relay, rows committing above what is published or locked: first publications are a prefix of the outbox by id, and at most 50 rows are published but unmarked |
| RelayOrder.LateRowKeepsOrderIff | internal/outbox/outbox.go:28-30 | whatever happens after a row has committed, the published order stays that of the outbox iff the row's id is above every published and every locked id |
| RelayOrder.LockedRowOvertakesLateRow | internal/outbox/outbox.go:67-100 | a run in which a row above everything published is overtaken by a row that was already locked |
| Outbox.Outbox.DrainOnce | internal/outbox/outbox.go:64-119 | while others drain and commit rows between its statements, a drain is a path of the relay system; it fails iff an operation on database or broker fails; success locks, publishes and marks exactly the batch that was next; failure stops after a first part, with the marks all set or not at all; one relay alone keeps the order |
| Outbox.DrainEffect | internal/outbox/outbox.go:91-116 | undisturbed, a drain appends a first part of the batch to the log and marks all of it or nothing |
| Outbox.DrainsClear | internal/outbox/outbox.go:66-69 | n unprocessed rows are gone after exactly ceil(n/50) successful undisturbed drains |
| Delivery.AllPublished | internal/outbox/outbox.go:66-116 | when no row is unprocessed, the log without repetitions is the table, for any replicas and failures |
| Delivery.JointRunIsLinked | internal/outbox/outbox.go:23-34 | along every joint run of services and relays the relay's table holds exactly the events the ledger has committed |
| Delivery.ServiceIsNeverBlocked | internal/outbox/outbox.go:23-34 | every attempt of a service can be made in every state of ledger and relay |
| Delivery.PublishedEventsRebuildBalances | internal/ledger/operations.go:45-52 | end to end, along every joint run: when no row is unprocessed, the published events alone rebuild each reserved and each merchant balance |
| Pagination.ListEntries | internal/httpapi/server.go:161-219 | refuses a missing identity, a malformed id and a foreign account, and fails iff the entry query or a scan does; a listing holds every entry of the account from its next cursor, or from the bottom, up to the cursor iff reading did not break off |
| Pagination.WalkDescends | internal/httpapi/server.go:186-190 | following cursors gives strictly decreasing ids, so no entry twice |
| Pagination.FirstWalkReturnsBase | internal/httpapi/server.go:180-219 | a finished walk with no broken read returns an entry that was there before it iff its id is below 2^62-1, whatever was inserted meanwhile |
| Pagination.LedgerWalkReturnsBase | internal/httpapi/server.go:186-190 | the same over the ledger's own entries, with each request at any point of any run of the service |
| Pagination.CutWalkMisses | internal/httpapi/server.go:207-218 | a read that breaks off ends the walk, and an entry its query found is never returned |
| Pagination.WalkEnds | internal/httpapi/server.go:215-218 | once inserts stop, n further requests need 50 (n-1) remaining entries |

## Left out

- PostgreSQL's snapshots, locks and conflict detection: other ledger transactions interleave between attempts, not between statements; the relay's row locks are modelled.
- Kafka, Redis, the schema registry, JSON, protobuf, JWT, HTTP routing, logging, health probes and goose.
- `GetBalance`, `getBalance`, `listAccounts`, `mapErr`, `parseIDs`, `Frame`, `Unframe`, configuration: reads and plumbing.
- The generated protobuf types (contracts/gen/go) are not part of this model; a stored response is an opaque value.
- Columns no decision reads: account status, created_at, most of the event payload's text form.
- Outbox row ids in `Db`: there a row is its position; ids matter in `Relay`, where rows carry them.
- `Run` of the consumer and offset commits across batches: only one batch is guarded, and no claim is made beyond it.
- Deposits other than the welcome deposit: nothing calls them; `Preservation.DepositKeepsInv` covers any user account.
- An outage of the registry that never ends and no shutdown: the process is shut down after some validation request.
