# Restaurant ordering: offline queue, orders, money and stock

A Dafny model of the hard core of a restaurant point-of-sale system: a NestJS server that takes
orders, payments, Pix notifications and stock movements, and a Flutter client that keeps working
offline and replays its mutations later. Run `dafny verify dfyconfig.toml` to check it.

## What is modelled

**The server** (`Schema`, `Handlers`, `Database`, `Stock`, `Financial`). `Database.Tables` is a class
whose fields are the database tables and whose methods are the handlers, statement by statement, with
the rollback of a failed transaction. Each method is proved equal to a function of `Handlers`, and the
run-level results are proved about those functions. The transaction is one atomic step, and each separate
read before it sees an earlier state of the run of its own: the lookup of the key (`read`), and the lookup
of the table or of the products (`look`), in the order in which the handler makes them. The three reads of
`settleOrder` (`order`, `charges`, `limits`) may also see earlier states than the one it commits on, which
covers both the serializable and the read-committed reading of its transaction.

**Runs of the server** (`Integrity`, `Progress`, `Runs`, `Idempotency`, `Retries`, `Races`, `Theorems`, `Pricing`,
`Endpoints`, `Settlements`, `PixEndpoints`, `StockEndpoints`, `Reports`). A run is any interleaving of API calls, Pix
notifications and catalogue edits, starting from a database without orders, charges, movements and keys.
`Integrity.Inv` is the invariant of every state, `Progress.Later` what a later state keeps of an earlier one. `Endpoints`,
`Settlements`, `PixEndpoints` and `StockEndpoints` define every endpoint a second time, independently, over the values
of the request and the rows it meets: the state and the answer that follow each call of a run, error by error.

**The client** (`Queue`, `Interceptor`, `Sync`, `Attempts`, `Paths`, `Text`). The durable queue, the interceptor that
fills it and the synchronisation pass are classes, each method proved equal to a function of the stored
list. A pass is a function of the network's answers, so its results hold for every network.

**Both together** (`EndToEnd`, `Delivery`, `Exchange`, `Client`, `Passes`, `Guarantees`, `Histories`, `Sendable`,
`Stranded`, `Rescue`, `Overlap`, `Witness`). Devices issue requests; a message may be delivered never, once or
many times, at any later moment, and answers may be lost; passes may overlap, because the flag that should
prevent it is set only after two awaits (lib/core/network/sync_service.dart:44-59); the app may be killed at
any point, also between remapping and removing an entry; and the server sees any other traffic. A pass is a
series of events there; `Passes` proves that a pass left alone by other passes is the pass function of `Sync`.

**Sign-in** (`Auth`), **paging** (`Paging`) and **money text** (`MoneyText`) stand alone.

## Conventions

- Stock quantities have at most three decimals and are kept in thousandths. Fees are exact integers
  rounded half up; this agrees with `Math.round` on doubles while products stay below 2^53.
- Hashes are injective: a fingerprint is the data hashed. Tokens stand for their own hashes.
- `Error` classes stand for HTTP answers: `BadRequest` 400, `NotFound` 404, `Conflict`, `KeyReused` and
  `KeyBusy` 409, `Duplicate` 500 (an unhandled unique-key violation). `ChargeStatus.Revoked` is the source's
  `canceled`.
- Items, payments and history rows live inside their order, in insertion order.
- Temporary identifiers have sixteen digits of microseconds, server identifiers no underscore, and keys no
  surrounding space; every request of a device takes a fresh key.
- The app learns a temporary identifier only from the 202 answer that says the creation was queued
  (lib/features/orders/data/orders_repository.dart:44-84), so an item of an offline order is asked for after that.
  Creations made by the app carry a label and a type and no table.
- The client's base URL adds the `/v1` prefix to its paths.
- The partial unique index on occupied tables is not assumed: the last SQLite migration that rebuilds
  the orders table drops it. Occupancy is proved from the lookups inside the transactions.

## What turned out false

- **An offline item can be lost for good.** `copyWith` cannot clear a dependency
  (lib/core/network/queued_mutation.dart:68) and a pass forgets the orders it created. When the connection
  drops right after the order of an offline item was created, or the app is killed then, the item stays
  queued and is never sent again. `Rescue.SentAgainExactlyWhen` gives the exact condition, for every reachable
  system without a running pass: the item is sent in some continuation if and only if the queue still holds a
  creation of its order, by the same owner, not younger, that the server accepts.
  `Sendable.SentBySomePassExactlyWhen` is the condition for one pass over any list, `Stranded.StrandedForever` and
  `Stranded.StrandedIsNeverSent` cover running passes too, and `Witness.EveryOfflineItemCanBeStranded` shows that
  it can befall every item of every offline order.
- **A racing reuse of a refresh token is not punished.** The revocation in the losing branch of the claim is
  undone by the throw that follows it. `Auth.ReuseIsPunishedExactlyWhen` gives the exact condition and
  `Auth.RacingReuseKeepsTheWinner` the race.
- **A cashier can be refused the very percentage allowed**, because the discount is rounded to cents before
  it is compared. `Financial.CashierPercentAccepted` gives the exact condition and
  `Financial.LimitItselfCanBeRefused` an example.
- **Retry counts can fall** when passes overlap. `Overlap.CountFallsExactlyWhen` gives the exact condition among all
  events of a device: a failed attempt writes a count, of a pass that read the entry when its count was lower by two
  or more. `Overlap.RetryCountCanFall` reaches such a moment for every order created offline.
- **Answers to one key can differ** when a status change or a close finds nothing to do: it answers the
  order as it stands and stores nothing. `Idempotency.AnswersAgree` covers every other call.
  `Retries.RetryAgreesExactlyWhen` gives the exact condition for a retry of a committed change: its lookup sees the
  key, or the order still has the committed version. `Retries.ChangeAnswersAgreeExactlyWhen` compares any two
  answers, and `Races.SomeRetryShowsAnotherVersion` is a run in which they differ.
- **A concurrent duplicate of an added item is answered 500**, not with the stored response: the unique-key
  violation of `saveIdempotency` is not caught. `Retries.ItemDuplicateExactlyWhen` gives the exact condition and
  `Races.SomeItemIsAnswered500` a run. A repeated status change or close is never answered so:
  `Retries.ChangeIsNeverDuplicate`.
- **A key can be answered with another order.** The fingerprint of an added item, a status change or a close is its
  body alone (`Idempotency.SameFingerprintExactlyWhen`), so under one key the same body sent for another order, or by
  another user, is answered with the first order and does nothing. `Retries.AnswerShowsItsOrderExactlyWhen` gives the
  exact condition and `Races.SomeAnswerShowsAnotherOrder` a run.
- **A paid Pix charge can show another status later.** `Theorems.PaidIsOverwrittenExactlyWhen` gives the exact
  condition and `Races.SomePaidChargeShowsExpired` a run; the order it paid stays settled.

## Model

| member | source | states |
|---|---|---|
| Guarantees.DroppedMeansCommittedExactlyOnce | lib/core/network/sync_service.dart:91-131 | exactly once, end to end: when the queue has dropped a creation or an added item, exactly one step of the whole history changed data under its key and it was this request; that step created a new open order with the requested label and type, or appended the requested product and quantity as one line to the order meant, which for an offline order is the one its creation committed |
| Guarantees.AtMostOnce | backend/src/orders.controller.ts:60-139 | however often a request is sent, lost, delivered or retried, at most one step changes data under its key |
| Guarantees.RememberedMeansCommittedOnce | backend/src/orders.controller.ts:70-139 | a key of the device is in the key table if and only if its request committed, exactly once |
| Guarantees.DroppedChangeTookEffect | backend/src/orders.controller.ts:288-342 | a dropped status change or close committed exactly once, or some state already had the order as it asks |
| Guarantees.ReplaysNeverConflict | lib/core/network/offline_interceptor.dart:68-90 | no message of a device is ever refused for a key used by another request or still being processed, since key, body, tenant and user never change |
| Guarantees.QueueConservation | lib/core/network/mutation_queue_storage.dart:79-165 | the queue is exactly the accepted entries not yet dropped, unchanged and in order of acceptance, with distinct keys; an entry is dropped only after a 2xx answer to its own key |
| Guarantees.TempsNeverLeak | lib/core/network/sync_service.dart:93-99 | every path a pass sends names the real order meant and contains no temporary identifier of the device |
| Guarantees.NothingInFlightAfterRestart | lib/core/network/mutation_queue_storage.dart:33-45 | after a restart no entry is syncing |
| Client.ReachableSystemsAreGood | lib/core/network/sync_service.dart:43-214 | every state reachable by client, network, crash and server events satisfies the invariant linking queue, messages, answers and key rows |
| Client.AnswerResolves | lib/core/network/sync_service.dart:118-129 | the identifier in the 2xx answer to a creation is the order its temporary identifier stands for |
| Client.DispatchedPathIsFinal | lib/core/network/sync_service.dart:73-99 | a dispatched path names the order meant, even when the entry was read before a remapping |
| Client.WithoutIsDropping | lib/core/network/mutation_queue_storage.dart:159-165 | removing an entry by identifier drops exactly its key from the accepted ones |
| Exchange.DeliveredRow | backend/src/orders.controller.ts:60-139 | after any delivery of a device's message its key row and its answer are right: stored by a commit of this request on the order meant |
| Delivery.RemapKeepsPaths | lib/core/network/mutation_queue_storage.dart:127-157 | remapping keeps every queued path right and settles the paths that waited for that order |
| Delivery.WireRoutes | backend/src/orders.controller.ts:187-350 | any message of the device routes to the call it means, under the fingerprint of its request whatever path it travels under |
| Delivery.StoringChangesData | backend/src/orders.controller.ts:226-251 | a queueable call that stores its key has changed the order its response shows |
| Delivery.OnlyCarriedKeysAppear | backend/src/orders.controller.ts:70-139 | a key appears in the key table only through a call that carries it |
| Passes.PassIsRunPass | lib/core/network/sync_service.dart:43-214 | from its beginning on, a pass of the event system that no other pass and no restart disturbs has at each of its stops the queue, the known orders and the requests of the pass function, for some network, whatever else is issued, queued, delivered or answered at whatever moment |
| Passes.PassRefinesRunPass | lib/core/network/sync_service.dart:43-214 | the same after every single event, also while a request is in flight, between remapping and removing an entry, and after the pass has ended |
| Stranded.StrandedForever | lib/core/network/queued_mutation.dart:54-71 | an entry that no queued creation serves and no running pass can resolve stays so through every history |
| Stranded.StrandedIsNeverSent | lib/core/network/sync_service.dart:73-89 | and no pass ever sends it |
| Rescue.SentAgainExactlyWhen | lib/core/network/sync_service.dart:64-201 | in every reachable system without a running pass, some continuation sends a waiting entry if and only if the queue holds a creation of its order by the same owner, not younger, that the server accepts |
| Rescue.ServedIsRescued | lib/core/network/sync_service.dart:64-131 | the half that builds the continuation: restart, pass over the queue, answer the creation, and send the entry |
| Sendable.SentBySomePassExactlyWhen | lib/core/network/sync_service.dart:67-99 | for any stored list, some pass over it, in some admissible order, at some time and with some network, sends an entry if and only if it is pending or failed and, if it waits for an order, so is a creation of that order by the same owner, not younger |
| Stranded.DroppedCreationServesNoMore | lib/core/network/sync_service.dart:119-131 | once the creation was answered and removed, nothing in the queue serves the entries that wait for its order |
| Stranded.RestartStrands | lib/core/network/mutation_queue_storage.dart:33-45 | a restart strands every entry that no queued creation serves |
| Stranded.DroppedConnectionStrands | lib/core/network/sync_service.dart:178-200 | when the creation is removed, so does a transient failure that ends the only pass that knew the order |
| Witness.EveryOfflineItemCanBeStranded | lib/core/network/sync_service.dart:64-201 | for every initial database, every order the server would accept and every item added to it offline, some history of the whole system strands the item |
| Stranded.DroppedConnectionLosesTheItem | lib/core/network/sync_service.dart:67-201 | two requests are enough: after the creation is answered and its item fails, no later pass over the queue sends anything |
| Sync.SyncService.Sync | lib/core/network/sync_service.dart:43-214 | the loop with its breaks and continues runs the pass function over the owner's pending entries, and reports its count, error and end |
| Sync.SyncService.HandleOutcome | lib/core/network/sync_service.dart:118-206 | the handling of one outcome remaps, lets entries arrive and removes after a success, and settles a failure, as the pass function says |
| Sync.SyncService.Retry | lib/core/network/sync_service.dart:139-159 | a failed attempt is given up at the fifth and rescheduled before that |
| Sync.SyncService.Arrive | lib/core/network/mutation_queue_storage.dart:79-88 | entries enqueued while the pass waits join the queue in order |
| Sync.SentExactlyWhen | lib/core/network/sync_service.dart:67-91 | an entry is sent if and only if the pass still runs, its time has come and the order it waits for was created earlier in the same pass |
| Sync.DependentsWaitForTheirParent | lib/core/network/sync_service.dart:73-99 | a dependent is sent only after its creation's 2xx in the same pass, with the real identifier in its path |
| Sync.SendsAreDue | lib/core/network/sync_service.dart:67-71 | no entry is sent before its scheduled time, judged at the start of the pass |
| Sync.SendsAreOldestFirst | lib/core/network/mutation_queue_storage.dart:90-100 | requests leave in order of creation |
| Sync.TransientFailureEndsThePass | lib/core/network/sync_service.dart:178-201 | a request is followed by no other one in its pass exactly when it is a transient failure below five retries that stopped it |
| Sync.BackoffIsExactlyAPowerOfTwo | lib/core/network/sync_service.dart:139-198 | a failure moves the next attempt of its own entry, if it is rescheduled, to 2, 4, 8 or 16 seconds after the clock, by the power of two of the new count, and no other; the cap of 30 never binds |
| Attempts.AttemptIsExact | lib/core/network/sync_service.dart:118-206 | what one attempt leaves of its entry, by status code: 2xx removes it; 400, 404, 409 or 422 and an answered 409 fail it with its count raised and its time kept; any other failure schedules it again 2, 4, 8 or 16 seconds later below five failures and gives it up at the fifth; an unexpected error fails it with its count kept; and the pass stops exactly after a connection failure that is scheduled again |
| Attempts.PassingOverIsExact | lib/core/network/sync_service.dart:67-89 | an entry that is not sent is marked failed exactly when its time has come and the first creation of its order is given up after five failures; otherwise it stays, and the pass goes on |
| Attempts.ReportedCountIsExact | lib/core/network/sync_service.dart:118-131 | a pass reports exactly the number of its 2xx answers |
| Sync.KnownTempsWereLearned | lib/core/network/sync_service.dart:119-129 | every identifier a pass knows came from a 2xx answer in this pass |
| Sync.LearnedTempsAreKnown | lib/core/network/sync_service.dart:119-129 | and every such answer makes its identifier known |
| Sync.StoppedPassStays | lib/core/network/sync_service.dart:199-200 | a stopped pass does nothing more |
| Sync.RetryCountsNeverDecrease | lib/core/network/sync_service.dart:132-206 | of any two moments between the visits of one pass, the later one has no lower retry count for any entry queued at both |
| Overlap.CountFallsExactlyWhen | lib/core/network/sync_service.dart:132-206 | of all events of a device, exactly a failed attempt lowers the stored count of an entry that stays queued, and exactly when it writes a count and its pass had read the entry with a count lower by two or more |
| Overlap.RetryCountCanFall | lib/core/network/sync_service.dart:44-62 | for every initial database and every order created offline, some history of the whole system lowers its stored count |
| Queue.MutationQueueStorage.constructor | lib/core/network/mutation_queue_storage.dart:12-14 | opening the queue recovers it |
| Queue.MutationQueueStorage.RecoverState | lib/core/network/mutation_queue_storage.dart:33-45 | the loop turns every syncing entry into a pending one and leaves the rest |
| Queue.MutationQueueStorage.Enqueue | lib/core/network/mutation_queue_storage.dart:79-88 | an entry is appended unless its key is queued already |
| Queue.MutationQueueStorage.GetPendingFor | lib/core/network/mutation_queue_storage.dart:90-100 | the owner's pending and failed entries, each once, in order of creation |
| Queue.MutationQueueStorage.UpdateStatus | lib/core/network/mutation_queue_storage.dart:102-125 | the first entry with the identifier gets the status, and the count and time when given |
| Queue.MutationQueueStorage.RemapTempOrderId | lib/core/network/mutation_queue_storage.dart:127-157 | the loop with its sticky flag is a substitution in every path, and clears no dependency |
| Queue.MutationQueueStorage.Remove | lib/core/network/mutation_queue_storage.dart:159-165 | the loop removes every entry with the identifier and keeps the others in order |
| Queue.PendingListMembers | lib/core/network/mutation_queue_storage.dart:90-100 | a pass is offered exactly the owner's pending and failed entries, so a failed one is offered again |
| Queue.EditsKeepIdents | lib/core/network/queued_mutation.dart:38-72 | status updates, remapping and recovery change no key, verb, body, owner, time or link, and no order |
| Queue.RecoveryLeavesNothingInFlight | lib/core/network/mutation_queue_storage.dart:33-45 | recovery leaves no entry syncing and touches no other |
| Interceptor.OfflineInterceptor.OnError | lib/core/network/offline_interceptor.dart:51-121 | a failed request is queued if and only if it is a retryable write to a queueable path of a signed-in owner, and its entry carries its verb, path, body, key, owner and links, pending and not yet tried |
| Interceptor.QueuedExactlyWhen | lib/core/network/offline_interceptor.dart:51-90 | which failed requests are queued, written out: a verb that writes, the create path or one of the three rendered order paths, connection lost, not told to skip the queue, tenant and owner known |
| Guarantees.LostMutationsAreQueued | lib/core/network/offline_interceptor.dart:51-121 | whichever mutation of a device is lost, it is queued, under its own key |
| Interceptor.QueueableExactly | lib/core/network/offline_interceptor.dart:59-67 | the path test accepts exactly the paths rendered for creating, adding, changing status and closing |
| Paths.RouteOfRender | lib/features/orders/data/orders_repository.dart:48-287 | routing a rendered path gives back the call meant |
| Paths.RemapIsSubstitution | lib/core/network/mutation_queue_storage.dart:127-157 | remapping a queue replaces exactly the segments equal to the temporary identifier and leaves no path containing it |
| Paths.RemapRendered | lib/core/network/mutation_queue_storage.dart:136-141 | replacement inside a rendered path touches its order segment only |
| Paths.RemapSparesExactlyWhen | lib/core/network/mutation_queue_storage.dart:136-141 | remapping leaves the path of another temporary identifier alone if and only if that identifier does not contain the one remapped |
| Text.ReplaceAroundSlash | lib/core/network/mutation_queue_storage.dart:138-141 | a slash-free pattern is replaced segment by segment |
| Text.TrimIsExact | backend/src/orders.controller.ts:194-201 | trimming removes only spaces around the text, and all of them |
| Idempotency.KeyCommitsAtMostOnce | backend/src/idempotency.utils.ts:26-68 | of all the calls of a run that carry one key, at most one changes any data |
| Idempotency.ServeOneShot | backend/src/orders.controller.ts:60-139 | every keyed call, whatever state its lookup saw, commits only with its key, answers the stored response and leaves no trace when refused |
| Idempotency.AnswersAgree | backend/src/idempotency.utils.ts:31-68 | two answered calls with one key have the same fingerprint and get the same response, unless one is a status change or a close that did not see its key and changed nothing |
| Idempotency.SameFingerprintExactlyWhen | backend/src/idempotency.utils.ts:11-26 | a fingerprint names the tenant, the user and the whole call under executeIdempotent, and only the endpoint and the body for added items, status changes and plain closes |
| Idempotency.RecoveryMayComeLater | backend/src/idempotency.utils.ts:54-65 | the recovery lookup after a failed insertion may come at any later moment and recalls the same row |
| Idempotency.RefusalsLeaveNoTrace | backend/src/orders.controller.ts:89-138 | a refused call changes nothing, no row is ever seen unfinished, and a key conflict means another request committed the key |
| Retries.ItemDuplicateExactlyWhen | backend/src/orders.controller.ts:348-444 | an added item is answered with the unhandled duplicate if and only if the lookup of its key saw none, the key was committed before its transaction, and its line, as found at the later lookup of the product, could be added to the order once more |
| Races.EveryItemCanBeAnswered500 | backend/src/orders.controller.ts:60-73 | after any run, of two copies of any possible addition that both look their key up first, the second one is answered with the duplicate |
| Races.SomeItemIsAnswered500 | backend/src/orders.controller.ts:60-73 | such a run exists |
| Retries.ChangeIsNeverDuplicate | backend/src/orders.controller.ts:299-321 | a repeated status change or close that has committed is never answered with the duplicate, whatever its lookup saw |
| Retries.RetryAgreesExactlyWhen | backend/src/orders.controller.ts:299-321 | a retry of a committed status change or close gets the committed response if and only if its lookup sees the key or the order still has the committed version |
| Retries.ChangeAnswersAgreeExactlyWhen | backend/src/orders.controller.ts:299-321 | any two answers to status changes or closes of one key are equal if and only if they show the same version of the same order |
| Retries.RowShowsAnOrder | backend/src/orders.controller.ts:333-339 | the stored response of an added item, a status change or a close is the order of the step that committed it, as the state after that step has it |
| Retries.AnswerShowsItsOrderExactlyWhen | backend/src/orders.controller.ts:60-68 | an added item, a status change or a close is answered with the order it addresses if and only if its lookup sees no row of the key, or one that shows this order |
| Races.EveryItemCanAnswerAnotherOrder | backend/src/orders.controller.ts:348-355 | after any run, an item sent again under its key for any other order, existing or not, is answered with the first order, and nothing changes |
| Races.SomeAnswerShowsAnotherOrder | backend/src/orders.controller.ts:348-355 | such a run exists |
| Races.RetryCanShowAnotherVersion | backend/src/orders.controller.ts:309-321 | after any run in which an order already has the status asked for, the change can be answered twice with different versions |
| Races.SomeRetryShowsAnotherVersion | backend/src/orders.controller.ts:309-321 | such a run exists |
| Idempotency.ExecuteOneShot | backend/src/idempotency.utils.ts:15-69 | lookup, insert, mutation and recovery keep the one-shot contract for every mutation |
| Idempotency.CheckAndSaveOneShot | backend/src/orders.controller.ts:60-73 | so do the check before and the save at the end of a transaction |
| Runs.ReachableStatesAreSound | backend/src/orders.controller.ts:75-735 | every state of every run satisfies the invariant, and nothing recorded is later lost or rewritten |
| Runs.ServeSound | backend/src/orders.controller.ts:75-735 | every call, whatever earlier states its reads saw, keeps the invariant and everything recorded, and writes for its own tenant only |
| Theorems.VersionIsAFaithfulStamp | backend/src/orders.controller.ts:555-568 | an order with the same version in two states of a run is the same row, with items, payments and history |
| Theorems.SettlementBillsCurrentItems | backend/src/orders.controller.ts:524-568 | when settleOrder commits, the row read however long ago is the row written over, and the bill is that of its items at commit |
| Theorems.LifecycleIsMonotone | backend/src/orders.controller.ts:34-37 | the status rank never falls, items, history and payments only grow, and a closed order never changes |
| Theorems.HistoryIsAWalk | backend/src/orders.controller.ts:235-241 | the history is a walk of at most four rows from open to the status, strictly rising, in which only open leads to sent to kitchen and only sent to kitchen to delivered, and only a plain close names no origin |
| Theorems.VersionCountsEvents | backend/src/orders.controller.ts:661-668 | the version is history rows plus items plus table moves |
| Theorems.OneActiveOrderPerTable | backend/src/orders.controller.ts:213-224 | at most one active order of a tenant holds a table, and a closed one holds none |
| Theorems.PaymentsEqualTotal | backend/src/orders.controller.ts:541-575 | payments add up to the total in every state; it is zero until settled and then subtotal - discount + fee over the items |
| Theorems.NoSecondSettlement | backend/src/pix.controller.ts:177-215 | no order is closed twice or paid twice through any mix of settle, close and Pix, and one closed without payments is never paid |
| Theorems.StockIsTheSumOfItsMovements | backend/src/management.controller.ts:384-406 | each product's quantity is the sum of its movements in every state |
| Theorems.SettleMovesStockExactly | backend/src/orders.controller.ts:577-600 | the new movements of a settlement are all sales of this order, exactly one per controlled product it lists, of minus the quantity sold |
| Theorems.WebhookMovesStockExactly | backend/src/pix.controller.ts:177-240 | so does a paid notification, which also records the charge as the only payment and closes with the bill of the items, or changes nothing |
| Theorems.OtherTenantsAreUntouched | backend/src/orders.controller.ts:363-374 | no step changes anything another tenant can see, although the webhook looks rows up by identifier alone |
| Endpoints.CreationIsExact | backend/src/orders.controller.ts:187-255 | in every run, createOrder for table service with a table that its lookup saw active in the tenant opens an order holding exactly this table, under the label given or else the table's, unless an active order of the tenant holds it, which is a conflict; any other type holds none and has its own default label; every other refusal is named with its condition |
| Endpoints.TakenTableStaysTaken | backend/src/orders.controller.ts:213-229 | while an active order of the tenant holds a table, no creation and no transfer brings another one to it |
| Endpoints.AdditionIsExact | backend/src/orders.controller.ts:348-444 | an addition appends one line, with the linked product's name, price and cost or else the text and price given, exactly when every check written out passes, and is refused with the matching error otherwise |
| Endpoints.StatusChangeIsExact | backend/src/orders.controller.ts:267-346 | a status change commits exactly from open to sent to kitchen or from sent to kitchen to delivered, owned, with no pending charge and the version expected; it is answered idly if the order is already so, and refused with the matching error otherwise |
| Endpoints.PlainCloseIsExact | backend/src/orders.controller.ts:686-735 | a close without payments frees the table and bills nothing, exactly when the order is active and has the version expected |
| Endpoints.TransferIsExact | backend/src/orders.controller.ts:622-684 | a transfer moves an active order to the table asked for, with its label, exactly when the table is active in the tenant and no other active order holds it |
| Settlements.SettlementIsExact | backend/src/orders.controller.ts:521-620 | what settleOrder, or a close with payments, does for every request in every run: refused with the named error, replayed, answered idly, or committed with the discount, fee and payments below |
| Settlements.CommittedSettlement | backend/src/orders.controller.ts:541-616 | a settlement that closes an order: its discount is the value or else the cents, or the percentage of the items rounded half up, its fee that of the rate asked for or else ten percent, its payments what was handed in, with the change, and they add up to the total |
| Settlements.SettledBillIsAsked | backend/src/orders.controller.ts:446-568 | the stored bill is the sum of the items, the discount asked for, the rate asked for or else 1000 and the fee rounded half up, within a cashier's limit |
| PixEndpoints.NotificationIsExact | backend/src/pix.controller.ts:155-244 | what a notification does in every run: unknown, of another amount, already paid, of another status, of a finished order, of a changed bill, or the payment that closes the order with the charge as its bill |
| PixEndpoints.PaidOnlyForItsAmount | backend/src/pix.controller.ts:165-215 | a step that pays a charge carries no amount or exactly the charge's, and its order was active |
| PixEndpoints.WrongNotificationIsRefused | backend/src/pix.controller.ts:165-169 | a notification with another amount changes nothing and is a bad request |
| PixEndpoints.ChargeIsExact | backend/src/pix.controller.ts:82-145 | createCharge bills the items with the discount and rate asked for, or none, and inserts a pending charge exactly when the order is active, has the version expected, has no pending charge and the amount is positive |
| StockEndpoints.AdjustmentIsExact | backend/src/management.controller.ts:370-409 | an adjustment takes its absolute quantity out if it is of kind out and puts it in otherwise, with one movement, and sets the cost given; every refusal is named |
| StockEndpoints.PurchaseIsExact | backend/src/management.controller.ts:428-527 | a purchase sets each product's cost to that of its line, adds the line's quantity to each product controlled at the lookup with one movement each, in order, and touches no other product; every refusal is named |
| Stock.AggregateSales | backend/src/orders.controller.ts:577-583 | the map filled by the loop is the filtered sum of the items, product by product, with the cost of the first one |
| Stock.SoldAddsUp | backend/src/orders.controller.ts:577-583 | the quantity sold of a product is the sum over its items, however the items are divided |
| Stock.FirstCostIsFirst | backend/src/orders.controller.ts:577-583 | the cost recorded for a product is that of its first item |
| Stock.ScopeIsImmaterial | backend/src/pix.controller.ts:224-227 | looking products up without their tenant sells the same stock |
| Theorems.PaidIsOverwrittenExactlyWhen | backend/src/pix.controller.ts:165-175 | a notification of another status overwrites a paid charge if and only if it looked the charge up before it was paid, and never touches an order |
| Races.PaidChargeCanShowExpired | backend/src/pix.controller.ts:165-175 | after any run with a payable charge, the charge can be paid and then shown as expired, with its order closed |
| Races.SomePaidChargeShowsExpired | backend/src/pix.controller.ts:165-175 | such a run exists |
| Pricing.ItemsArePricedByTheServer | backend/src/orders.controller.ts:363-375 | every item linked to a product carries that product's name, price and cost as they stood in some state of the run, when it was on sale for the tenant |
| Pricing.CallGrowsItems | backend/src/orders.controller.ts:390-436 | a call leaves the items of every order as they are, or adds the one line it looked up to an order of its tenant |
| Integrity.UniqueRulesNeverClash | backend/src/pix.controller.ts:211-239 | no sale is recorded twice for an order and product, and no charge pays twice |
| Integrity.HistoryIsShort | backend/src/orders.controller.ts:34-37 | a valid history has at most four rows |
| Progress.SettleSound | backend/src/orders.controller.ts:525-616 | a committed settlement keeps the invariant and everything recorded, with an earlier snapshot as good as the current row |
| Progress.PaidSound | backend/src/pix.controller.ts:177-241 | so does a paid notification |
| Progress.AdjustSound | backend/src/management.controller.ts:384-406 | so does a stock adjustment |
| Progress.PurchaseSound | backend/src/management.controller.ts:481-527 | so does a purchase |
| Reports.SalesReconcile | backend/src/reports.controller.ts:30-61 | for every reachable state and period, gross - discounts + fees is what was received, and so is the sum over payment methods |
| Reports.SettlementEntersItsReports | backend/src/reports.controller.ts:30-61 | a settlement adds its bill to the reports of its tenant whose period holds the time of the settlement, and to no other report |
| Reports.PaymentEntersItsReports | backend/src/reports.controller.ts:30-61 | so does a paid charge |
| Reports.UnpaidOrdersAreNotReported | backend/src/reports.controller.ts:30-61 | every order in a report of a reachable state has payments and belongs to the tenant |
| Reports.FillPaymentMethods | backend/src/reports.controller.ts:47-50 | the loop leaves for every method exactly what was paid by it |
| Reports.SumSplits | backend/src/reports.controller.ts:32-41 | a column sum does not depend on the order of its rows |
| Database.Tables.HandleCreate | backend/src/orders.controller.ts:187-255 | creating an order is its specification, with rollback |
| Database.Tables.HandleAddItem | backend/src/orders.controller.ts:348-444 | so is adding an item |
| Database.Tables.HandleStatus | backend/src/orders.controller.ts:267-346 | so is a status change |
| Database.Tables.HandleSettle | backend/src/orders.controller.ts:521-620 | so is a settlement |
| Database.Tables.HandleClose | backend/src/orders.controller.ts:686-735 | so is a close, with or without payments |
| Database.Tables.HandleTransfer | backend/src/orders.controller.ts:622-684 | so is a move to another table |
| Database.Tables.HandleAdjust | backend/src/management.controller.ts:370-409 | so is a stock adjustment |
| Database.Tables.HandlePurchase | backend/src/management.controller.ts:428-527 | so is a purchase |
| Database.Tables.HandleCharge | backend/src/pix.controller.ts:82-145 | so is a Pix charge |
| Database.Tables.HandleHook | backend/src/pix.controller.ts:155-244 | so is a Pix notification |
| Database.Tables.Handle | backend/src/orders.controller.ts:60-735 | every call leaves the tables valid, loses and rewrites nothing recorded, and writes for its own tenant only |
| Database.Tables.Notify | backend/src/pix.controller.ts:155-244 | so does every notification, for the tenant of its charge |
| Database.Tables.Begin | backend/src/idempotency.utils.ts:43-45 | the key row is inserted as processing, or the insert fails |
| Database.Tables.Finish | backend/src/idempotency.utils.ts:46-53 | the key row is completed with the response, or everything is rolled back |
| Database.Tables.Save | backend/src/orders.controller.ts:70-73 | the key is saved, or its duplicate rolls everything back |
| Database.Tables.SellStock | backend/src/orders.controller.ts:577-600 | the two loops sell the items of the order |
| Financial.FeeIsHalfUp | backend/src/financial.utils.ts:48-51 | the fee is the exact charge rounded half up |
| Financial.FeeIsMonotone | backend/src/financial.utils.ts:48-51 | a larger bill or rate never lowers the fee |
| Financial.FeeIsAdditiveWithinOneCent | backend/src/financial.utils.ts:48-51 | splitting a bill changes the fees by at most one cent |
| Financial.AcceptedDiscountRange | backend/src/orders.controller.ts:446-470 | an accepted discount is not negative, and a percentage never exceeds the subtotal nor the bill's check |
| Financial.CashierPercentAccepted | backend/src/orders.controller.ts:472-484 | exactly when a cashier may give a percentage under a limit |
| Financial.LimitItselfCanBeRefused | backend/src/orders.controller.ts:472-484 | the limit itself can be refused |
| Financial.ValidatePaymentsTotal | backend/src/financial.utils.ts:63-122 | the loop accepts exactly the payments that liquidate the bill, and records them |
| Financial.CashIsConserved | backend/src/financial.utils.ts:85-92 | cash handed over is cash paid plus change, and no other payment gives change |
| Auth.StepIsExact | backend/src/auth.service.ts:19-104 | what every login, refresh and logout leaves of every token and answers, whatever its earlier read saw, with the thirty days written in milliseconds |
| Auth.AtMostOneSuccessor | backend/src/auth.service.ts:63-83 | every refresh token is replaced at most once, however its refreshes interleave |
| Auth.AtMostOneLiveTokenPerLogin | backend/src/auth.service.ts:41-91 | at most one token of each login is live at any time |
| Auth.LiveTokensComeFromLaterLogins | backend/src/auth.service.ts:55-61 | after all tokens of a user were revoked, every live one descends from a later login |
| Auth.RevocationLogsOut | backend/src/auth.service.ts:93-104 | a logout, and a refresh whose read saw its token revoked, leave the user no live token |
| Auth.ReuseIsPunishedExactlyWhen | backend/src/auth.service.ts:55-75 | a refresh with a revoked token logs its user out if and only if its read saw the revocation or no token was live |
| Auth.RacingReuseKeepsTheWinner | backend/src/auth.service.ts:69-75 | of two refreshes that read the same live token, the second one revokes nothing |
| Auth.AuthService.Rotate | backend/src/auth.service.ts:51-90 | the second half of a refresh, with its rolled back transaction, is its specification |
| Auth.AuthService.Refresh | backend/src/auth.service.ts:41-91 | a whole refresh that no other call interleaves answers a session exactly for a live, unexpired token |
| Auth.AuthService.Logout | backend/src/auth.service.ts:93-104 | a whole logout leaves the user of a known token no live token, changes nothing for an unknown one, and loses no row |
| Auth.AuthService.UpdateManyUnrevoked | backend/src/auth.service.ts:56-59 | exactly the user's unrevoked tokens are revoked |
| Auth.AuthService.IssueSession | backend/src/auth.service.ts:19-33 | a session stores a live token for thirty days |
| Auth.AuthService.RevokeSessions | backend/src/auth.service.ts:93-104 | logout revokes all tokens of the token's user, or nothing |
| Paging.GetAllPages | lib/core/network/pagination.dart:3-22 | the pages add up to the list as it was at the first request, no gap and no duplicate, even if rows are added in front meanwhile, in max(1, n/size rounded up) requests |
| Paging.PageAfter | backend/src/orders.controller.ts:167-175 | the page after a cursor is the next stretch of the first list, whatever was added in front since |
| Paging.PageResult | backend/src/pagination.ts:11-16 | the extra row is popped and the last one left names the next page |
| Paging.GetOrders | backend/src/orders.controller.ts:158-184 | a page holds the rows in the statuses asked for: all that follow the cursor, or a full page of them with more to come, named by its last row |
| Paging.RowsFollowTheCursor | backend/src/orders.controller.ts:158-175 | the rows found are exactly those after the cursor row, or from the start without one |
| Paging.UnknownCursorFindsNothing | backend/src/orders.controller.ts:158-175 | a cursor that names no row finds nothing |
| Paging.StatusesAreRead | backend/src/orders.controller.ts:158-166 | a status query asks exactly for what stands between its commas, trimmed, unless that is nothing |
| Paging.FilterIsExact | backend/src/orders.controller.ts:160-171 | a row passes the filter if and only if it is in the list and has one of the statuses, or none is asked for |
| Paging.ListPage | backend/src/pagination.ts:3-16 | a limit is refused exactly when it is not an integer from 1 to 100; otherwise the page is all that follows the cursor, or a full page of it with more to come, named by its last row |
| MoneyText.SettlementRoundTrip | lib/features/orders/presentation/settlement_screen.dart:85-137 | reading the pt_BR form of any amount gives it back |
| MoneyText.CatalogueRoundTrip | lib/core/formatters/currency_formatter.dart:9-32 | the catalogue reads back every price it shows and refuses exactly zero |
| MoneyText.ParsersAgree | lib/core/formatters/currency_formatter.dart:9-32 | wherever the catalogue accepts a text, the settlement screen reads the same amount |
| MoneyText.WholeRoundTrip | lib/features/orders/presentation/settlement_screen.dart:85-137 | an amount in whole reais reads back with or without the dots between thousands |
| MoneyText.FormIsExact | lib/features/orders/presentation/settlement_screen.dart:134-137 | an amount is shown with two decimals after a comma, a dot before every third digit of the integer part, and digits everywhere else |
| MoneyText.CatalogueAcceptsExactly | lib/core/formatters/currency_formatter.dart:9-32 | the catalogue reads an amount exactly from digits with at most two decimals after a comma or a dot, worth more than zero, with any spaces around |
| MoneyText.OthersAreIgnored | lib/features/orders/presentation/settlement_screen.dart:85-87 | a character that is no digit, comma or dot, such as a currency symbol, changes nothing wherever it stands |

## Left out

- Database engines, Prisma and migrations: tables are maps, a transaction is one atomic step.
- HTTP, Dio, Socket.IO, the Pix adapter and shared preferences; a network outcome is an arbitrary value, a write to the queue is durable when it returns, and JSON round trips are assumed.
- Guards, roles, feature flags and request validation: the bounds of the DTOs are conditions of a step, and anything refused earlier is an answer that changes nothing.
- A replay runs under its queued tenant and user; lib/core/network/auth_tenant_interceptor.dart:72-89 checks this before sending, and a change of session between that check and the token's use is not modelled.
- Audit log rows, notes, selected options, the text of errors, the stored error of a queued entry, change notifications and counts of pending entries.
- Database.Tables.HandlePurchase: purchase documents, suppliers, payables, subscription checks and the rounding of purchase lines (backend/src/management.controller.ts:428-543) are left out; only the effect on products, movements and the key is kept.
- Catalogue, employees, suppliers, printers, subscriptions, expenses and recurring templates; product, table and discount-limit edits are arbitrary steps that keep tenant and stock.
- `saveAll` and `clear` of the queue, discarding of unreadable records, and seed data.
- Liveness: that a queued entry is eventually sent is false in general, and bounds on the number of sends are not claimed.
- A request handler that crashes between its transaction and its answer is a delivery whose answer is lost.
- Dart's 64-bit integers: parsing of more than eighteen digits is not modelled, nor is the double that prints an amount beyond 2^53.
- Trimming knows four space characters, and identifiers and keys are compared as plain strings.
- Paging.GetOrders: what the query answers to a cursor row that has left the status filter is not modelled; paging over several requests is proved for lists that only gain rows in front.
- Guarantees.DroppedMeansCommittedExactlyOnce: only the server and its gate answer; a proxy or captive portal that itself answers 2xx, which lib/core/network/sync_service.dart:118-130 takes for success, is assumed away.
- Deleted users and the cascade that removes their tokens.
- `_parsePercentageToBps`, the settlement preview and the cached reads of the interceptor, which would only add easy members.
