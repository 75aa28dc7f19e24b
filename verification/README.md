# Saga protocol across the order, inventory and payment services

A Dafny model of a distributed order-processing system, and proofs of what its three services guarantee together.
An order becomes a saga: reserve stock, take payment, and on a declined payment give the stock back. Messages may be
lost, duplicated and reordered, any process may die between a commit and the publish that follows it, and a recovery
loop publishes commands again from listings that go stale while it works. No single function makes this safe. The
proofs show how the guards, logs and unique keys fit together.

Check everything with `dafny verify dfyconfig.toml`.

## How it is built

1. **Values and stores** (`Types`, `OrderStore`, `InventoryStore`, `PaymentStore`). Each repository is a class whose
   methods update its tables in place, and are proved against functions on database values.
2. **The protocol** (`Protocol`). One labelled state machine over the three databases, the messages sent, the publishes
   owed, the rows recovery has listed and the handlers in flight. Every transaction, every read that a later write
   depends on and every publish is its own step. A sent message may be handled any number of times, in any order, or never.
3. **The invariant** (`Invariant`, `StoreSteps`, `Preservation`, `Runs`). What holds in every reachable world, and what no
   step undoes, proved one step at a time.
4. **What follows** (`Stock`, `Safety`, `Marks`, `Refinement`, `Progress`, `FairRounds`, `FairRuns`, `Settling`,
   `DuplicateErasure`). `Faults` says what the step relation does not rule out. Where the code does not keep a plausible
   promise there is an explicit run (`LateGrant`, `LateReturn`) and the exact condition on runs under which it does
   (`Stranding`).
5. **The handlers as they run** (`Claims`, `Clusters`, `InventoryHandler`, `PaymentHandler`, `Orchestrator`). Imperative
   methods over the repositories. Between any two accesses everybody else takes arbitrary steps, and `Valid()` says that
   all steps together are a run of the protocol, so each method implements it.
6. **Delivery** (`Retry`, `Topology`, `Delivery`, `GivenUp`, `Conservation`, `Dispatcher`). Queues, the retry counter and the dispatcher, over the
   exchanges and bindings that set-up declares. Every handler run is of a copy of a published message, which is where
   the protocol takes "a sent message may be handled any number of times" from.

## Assumptions

- **A1.** Each database transaction is one serialisable step, and one that reports an error has changed nothing. The
  orders database reads a saga row without a lock and then writes it, so its isolation is assumed here.
- **A2.** At most one inventory handler is in flight per order and action. The repository's README.md:467 calls
  `inventory_logs` unique on order and action, but the tag at
  services/inventory-service/internal/model/inventory_log.go:13-14 is a plain index. The code is followed: no unique key
  is modelled. The `Replica` modules drop A2: any number of inventory replicas, each with handlers of its own. They give
  runs that reserve an order twice and create stock, with the exact condition for each, and show that payment agreement,
  the exclusion of paid and released, correlation and the saga state machine hold all the same. Different orders
  interleave freely, and payments need no such assumption because their order id is unique.
- **A3.** Identifiers are fresh and quantities are at least 1. That an ordered product exists is not assumed: the order
  endpoint does not check it, a reservation of an unknown product is never decided while handlers have attempts to make,
  and `SettlesIff` shows that nothing else keeps a saga from ending.
- Whether a publish attempt is confirmed, whether a payment is declined, whether a release transaction fails, and what
  everybody else does meanwhile are parameters over which every theorem quantifies.

## Model

| member | source | states |
|---|---|---|
| `OrderStore.SagaRepository.CreateOrder` | services/order-service/internal/service/order_service.go:19-25 | Stores a pending order under a fresh id, or fails and changes nothing |
| `OrderStore.SagaRepository.Create` | services/order-service/internal/repository/saga_repository.go:59-64 | One saga per id and per order; a clash changes nothing |
| `OrderStore.SagaRepository.GetById` | services/order-service/internal/repository/order_repository.go:34-40 | The stored order, or not found |
| `OrderStore.SagaRepository.ListByStatus` | services/order-service/internal/repository/saga_repository.go:82-88 | Exactly the saga rows with the status, as they stand |
| `OrderStore.SagaRepository.CommitInventoryReserved` | services/order-service/internal/repository/saga_repository.go:100-162 | One transaction: the database becomes what the transition table `Consume` says, and the outcome tells skip, failure, error and the amount to charge |
| `OrderStore.SagaRepository.CommitPaymentProcessed` | services/order-service/internal/repository/saga_repository.go:166-231 | The same for payment events; on a declined payment the outcome carries the product and quantity to release |
| `OrderStore.SagaRepository.CommitInventoryReleased` | services/order-service/internal/repository/saga_repository.go:235-289 | The same for release events, guarded by status and step |
| `InventoryStore.InventoryRepository.Create` | services/inventory-service/internal/repository/inventory_repository.go:29-34 | A new row with version 0 and nothing reserved; a second row for the product is refused |
| `InventoryStore.InventoryRepository.GetByProductId` | services/inventory-service/internal/repository/inventory_repository.go:36-42 | The stored row, or not found |
| `InventoryStore.InventoryRepository.ReserveAtomic` | services/inventory-service/internal/repository/inventory_repository.go:60-89 | Row and log move together, exactly when version and stock allow; otherwise nothing changes and 0 is returned |
| `InventoryStore.InventoryRepository.ReleaseAtomic` | services/inventory-service/internal/repository/inventory_repository.go:92-120 | Row and log move together whenever the product exists |
| `InventoryStore.InventoryRepository.Exists` | services/inventory-service/internal/repository/inventory_log_repository.go:28-49 | True if and only if the order has a log entry of the action |
| `InventoryStore.NetIsOutstanding` | services/inventory-service/internal/repository/inventory_repository.go:60-120 | The balance of a well-formed log is the sum of what the holding orders asked for |
| `PaymentStore.PaymentRepository.IsProcessed` | services/payment-service/internal/repository/processed_event_repository.go:28-38 | True if and only if the id is marked |
| `PaymentStore.PaymentRepository.GetByOrderId` | services/payment-service/internal/repository/payment_repository.go:34-40 | The order's row, or none |
| `PaymentStore.PaymentRepository.CreatePaymentWithEvent` | services/payment-service/internal/repository/payment_repository.go:44-51 | Row and mark together, or, on a clash of either unique key, neither |
| `Runs.StepKeeps` | services/order-service/internal/service/saga_orchestrator.go:43-320 | Each of the 23 steps of the three services keeps the global invariant and only adds facts |
| `Runs.PathKeeps` | services/order-service/internal/service/saga_orchestrator.go:43-320 | So does every run, under any interleaving, duplication, reordering, loss and crash |
| `Runs.ReachableOk` | services/order-service/internal/service/saga_orchestrator.go:43-320 | The global invariant holds in every reachable world |
| `Stock.StockLedger` | services/inventory-service/internal/repository/inventory_repository.go:60-120 | In every reachable world: reserved = reserves minus releases in the log, nothing negative, available + reserved = supply, version = number of log entries |
| `Stock.ReleaseHasItsReserve` | services/inventory-service/internal/service/inventory_command_handler.go:113-141 | A release command exists only for an order with a reserve entry of the same product and quantity |
| `Stock.ReleaseNeverClamps` | services/inventory-service/internal/repository/inventory_repository.go:92-120 | When a release commits, the row exists and holds at least the quantity, so GREATEST never clamps; the order has its reserve entry and no release entry |
| `Stock.FailedAttemptsHaveRivals` | services/inventory-service/internal/service/inventory_command_handler.go:74-103 | A handler with N failed attempts was overtaken by at least N commits of other orders on the product |
| `Stock.FailedWriteHasRivalInWindow` | services/inventory-service/internal/service/inventory_command_handler.go:87-103 | Each failed write has a rival commit inside its own read-write window |
| `Stock.ContentionRefusalNeedsBudgetRivals` | services/inventory-service/internal/service/inventory_command_handler.go:105-110 | An order with fewer rival commits than the budget is never refused for contention |
| `Stock.GrantsFitTheSupply` | services/inventory-service/internal/service/inventory_command_handler.go:74-110 | What orders hold sums to exactly what left the shelf, at most the supply |
| `Stock.RefusedAsksForMoreThanRemains` | services/inventory-service/internal/service/inventory_command_handler.go:74-110 | With no release and budget >= supply, every order ever refused asks for more than remains |
| `Stock.ExactlyMinSucceed` | services/inventory-service/internal/service/inventory_command_handler.go:74-110 | Unit orders, all answered: exactly min(n, S) of n hold stock |
| `Stock.SettledReservation` | services/inventory-service/internal/service/inventory_command_handler.go:79-110 | With all sagas terminal, reserved = completed orders + orders of failed sagas that hold stock; equal to the former if and only if there are none of the latter |
| `Stock.AllOrNothing` | services/inventory-service/internal/service/inventory_command_handler.go:79-110 | No yes after a no and no failed release: reserved is exactly what completed orders bought |
| `Safety.PaymentAgreement` | services/payment-service/internal/service/payment_command_handler.go:60-129 | All payment events ever sent for an order, now and later, carry the one row's transaction id and outcome; the row never changes |
| `Safety.PaidIsNeverReleased` | services/order-service/internal/service/saga_orchestrator.go:140-166 | Once paid, in no later world a release command, release entry, release handler or compensating status exists for the order |
| `Safety.ReleasedIsNeverPaid` | services/order-service/internal/service/saga_orchestrator.go:140-166 | Once a release command exists, the payment is declined and stays so |
| `Safety.SkipsAreOnlyLate` | services/order-service/internal/repository/saga_repository.go:103-118 | Every event has a saga at or past its step; it takes effect exactly when the saga is at that step, and is never rejected |
| `Safety.Correlation` | services/order-service/internal/repository/saga_repository.go:112-150 | Every message agrees with its saga's own order on order, product, quantity and amount; handling it touches one matching pair of rows |
| `Safety.SixCombinations` | services/order-service/internal/repository/saga_repository.go:100-289 | Saga step, saga status and order status are in one of six combinations |
| `Safety.TerminalIsAbsorbing` | services/order-service/internal/repository/saga_repository.go:115-118 | A terminal saga's row never changes again |
| `Safety.AtMostThreeCommits` | services/order-service/internal/repository/saga_repository.go:100-289 | Over any run a saga makes at most three effective commits |
| `Safety.RecordedOnce` | services/order-service/internal/service/saga_orchestrator.go:187-204 | Over any run a saga's terminal state is recorded at most once, with its own status |
| `Safety.ReserveAnswersRise` | services/inventory-service/internal/service/inventory_command_handler.go:62-111 | An order's answers are refusals then successes; it was answered yes if and only if it has a reserve entry, and it has at most one entry per action |
| `Safety.SuccessIsBacked` | services/inventory-service/internal/service/inventory_command_handler.go:91-97 | Every success event has a log entry of its order, product and quantity |
| `Safety.RecoveryResendsTheEntryCommand` | services/order-service/internal/service/saga_orchestrator.go:255-320 | From any stale listing, recovery composes the very command whose publish followed the transition into the listed step |
| `Safety.RecoveryIsSafe` | services/order-service/internal/service/saga_orchestrator.go:225-253 | Recovery passes change no database and keep the invariant |
| `Refinement.StepRefines` | services/order-service/internal/repository/saga_repository.go:100-289 | Each step of the services is, for each saga, one move of an atomic process or none |
| `Refinement.RunRefines` | services/order-service/internal/repository/saga_repository.go:100-289 | Each run, seen from one saga, is a behaviour of the atomic process with stuttering |
| `Refinement.TerminalFacts` | services/order-service/internal/repository/saga_repository.go:100-289 | Completed: stock taken, none returned, paid. Compensated: returned equals taken, declined. Failed: accordingly |
| `Refinement.RefusedIsNeverBilled` | services/order-service/internal/repository/saga_repository.go:120-134 | Once a refused reservation has taken effect, the order has no payment row in any later world |
| `Progress.DeliveredAnswerMovesTheSaga` | services/order-service/internal/service/saga_orchestrator.go:114-185 | An answer to a saga's step, delivered at any later time, leaves the saga past that step |
| `Progress.OnlyAFreshIdReplays` | services/payment-service/internal/service/payment_command_handler.go:61-70 | A payment command retried under a marked id gives no answer; the same command under a fresh id is answered from the row |
| `FairRounds.PromiseHolds` | services/inventory-service/internal/service/inventory_command_handler.go:62-141 | Once a handler is in flight for a saga's step, an answer to that step stays promised under every faultless interleaving |
| `FairRounds.FairRoundMovesEverySaga` | services/order-service/internal/service/saga_orchestrator.go:225-320 | Every schedule in which each open saga's command is taken up, nothing is dropped or aborted after that, and all answers are heard moves every open saga on |
| `FairRounds.ThreeFairRoundsSettle` | services/order-service/internal/service/saga_orchestrator.go:225-320 | Three such rounds, under any schedules, end every saga that existed at the start |
| `FairRuns.FairRoundsExist` | services/order-service/internal/service/saga_orchestrator.go:225-320 | From every reachable world in which reservations can be decided there is a fair round without any fault, and for every choice of outcomes one in which each payment row it creates turns out as chosen for its saga |
| `FairRuns.DeliveredIsHeard` | services/order-service/internal/service/saga_orchestrator.go:114-185 | An event that was delivered changes nothing when delivered again, in every later world |
| `FairRuns.AFairRound` | services/order-service/internal/service/saga_orchestrator.go:114-138 | A fair round with an open saga, from an explicit reachable world |
| `Settling.RoundLowersEveryOpenSaga` | services/order-service/internal/service/saga_orchestrator.go:225-320 | If no saga waits for an unknown product, a fault-free recovery round strictly lowers every open saga and leaves the others alone; each saga that was at its payment is billed, new bills turning out as chosen |
| `Settling.ThreeRoundsSettleAllSagas` | services/order-service/internal/service/saga_orchestrator.go:225-320 | Three such rounds make every saga terminal, and each is completed if and only if it was billed and its payment, chosen freely unless it existed, went through |
| `Settling.PastItsReservation` | services/inventory-service/internal/service/inventory_command_handler.go:74-78 | With an attempt to make, a saga gets past its reservation only if its order's product is on record |
| `Settling.UnknownProductStays` | services/inventory-service/internal/service/inventory_command_handler.go:75-78 | Over any run, with or without faults, in which its product is not put on record, a saga of an unknown product stays at its reservation |
| `Settling.SettlesIff` | services/order-service/internal/service/saga_orchestrator.go:225-320 | From a reachable world some fault-free run settles every saga if and only if no saga waits for a reservation of an unknown product, or handlers make no attempt |
| `Settling.UnknownProduct` | services/order-service/internal/handler/order_handler.go:37-63 | An explicit reachable world in which that fails |
| `LateGrant.FailedSagaCanHoldStock` | services/inventory-service/internal/service/inventory_command_handler.go:105-110 | An explicit reachable world in which a failed saga's order holds stock |
| `LateReturn.StuckSagaCanHaveReturned` | services/inventory-service/internal/service/inventory_command_handler.go:113-141 | An explicit reachable world in which a saga that failed during its release has a release entry |
| `LateReturn.OrderCanLackSaga` | services/order-service/internal/handler/order_handler.go:51-60 | An explicit reachable world with an order and no saga |
| `Stranding.GrantedIffGuardPasses` | services/inventory-service/internal/repository/inventory_repository.go:60-89 | One step makes an order hold stock if and only if it is that order's own write and its WHERE clause passes |
| `Stranding.RefusedHoldsIff` | services/inventory-service/internal/service/inventory_command_handler.go:74-110 | Over any run: refused and yet holding stock if and only if a write passed its guard for the order after it had been refused |
| `Stranding.FailedHoldsIff` | services/inventory-service/internal/service/inventory_command_handler.go:74-110 | A saga that failed at its reservation holds stock if and only if such a write is in the run |
| `Stranding.NoFailedSagaHoldsStockIff` | services/inventory-service/internal/service/inventory_command_handler.go:74-110 | No saga that failed at its reservation holds stock if and only if the run has no such write for any of them |
| `Stranding.NoLateGrant` | services/inventory-service/internal/service/inventory_command_handler.go:74-110 | With no release of the product and a budget of at least its supply, a refused order's write never passes its guard |
| `Stranding.FailedHoldsNothingWithoutReleases` | services/inventory-service/internal/service/inventory_command_handler.go:74-110 | Under the same condition, which can be read off the stock records, no saga that failed at its reservation holds any of the product |
| `Stranding.ReturnedIffReleaseWrites` | services/inventory-service/internal/service/inventory_command_handler.go:113-134 | One step gives an order's stock back if and only if it is that order's release write |
| `Stranding.StuckReturnedIff` | services/inventory-service/internal/service/inventory_command_handler.go:113-134 | A saga that failed during its release has a release entry if and only if its order's release wrote in the run |
| `Stranding.AllOrNothingIff` | services/inventory-service/internal/service/inventory_command_handler.go:79-134 | With all sagas terminal, reserved is exactly what completed orders bought if and only if the run has no write for a refused order of a failed unpaid saga, and a release write for each failed declined one, of that product |
| `Stranding.HasSagaIff` | services/order-service/internal/service/saga_orchestrator.go:43-68 | An order has a saga if and only if a start of one is in the run |
| `Replicas.OneReplicaRuns` | services/inventory-service/internal/service/inventory_command_handler.go:62-141 | With one inventory replica, a course of the fleet is a run of the protocol |
| `Replicas.TurnEntries` | services/inventory-service/internal/service/inventory_command_handler.go:62-141 | Each turn of any replica adds to an order's entries exactly the write that passes its guard |
| `Replicas.TwoEntriesIff` | services/inventory-service/internal/service/inventory_command_handler.go:64-97 | Without A2, with any number of replicas and every interference: an order is reserved (or released) twice if and only if one replica's write lands while another, past its look at the log, is in flight, and that one's own write lands later |
| `ReplicaStock.SecondReservationIff` | services/inventory-service/internal/service/inventory_command_handler.go:74-110 | Without A2: after a rival's commit for the same order, a replica left alone reserves again if and only if it has an attempt left and there was stock for both |
| `ReplicaGround.ReleasesHaveTheirReserve` | services/inventory-service/internal/service/inventory_command_handler.go:113-134 | Without A2: a release in flight still has its order's reserve entry, and its product exists |
| `ReplicaStock.SecondReleaseAlwaysLands` | services/inventory-service/internal/service/inventory_command_handler.go:113-134 | Without A2: a release past its look at the log can always write, and always adds an entry |
| `ReplicaStock.TwoReleasesCreate` | services/inventory-service/internal/repository/inventory_repository.go:92-120 | Two releases of one order keep what is on hand if and only if twice the quantity was reserved; otherwise exactly the shortfall is created |
| `ReplicaStock.StockIsCreatedIff` | services/inventory-service/internal/repository/inventory_repository.go:92-120 | Over any course of any number of replicas, stock is never lost, and is created from nothing if and only if some release took back more than was reserved |
| `ReplicaStock.OrderReservedTwice` | services/inventory-service/internal/service/inventory_command_handler.go:64-97 | An explicit course of two replicas that reserves one order twice |
| `ReplicaStock.StockFromNothing` | services/inventory-service/internal/service/inventory_command_handler.go:115-125 | An explicit course of two replicas after which a supply of one unit is two units available |
| `ReplicaFollow.MirrorsOf` | services/inventory-service/internal/service/inventory_command_handler.go:62-141 | Without A2: any two moments of a course agree, on the orders and payments side, with two worlds that keep the invariant, the later undoing nothing |
| `ReplicaSafety.FleetPaymentAgreement` | services/payment-service/internal/service/payment_command_handler.go:60-129 | Without A2: all payment events of an order, at any two moments of a course, carry its one unchanging row |
| `ReplicaSafety.FleetPaidIsNeverReleased` | services/order-service/internal/service/saga_orchestrator.go:140-166 | Without A2: once paid, no later moment has a release command or answer, a release entry, a release in flight at any replica or a compensating saga for the order |
| `ReplicaSafety.FleetReleasedIsNeverPaid` | services/order-service/internal/service/saga_orchestrator.go:140-166 | Without A2: once a release command exists, the payment is declined for good |
| `ReplicaSafety.FleetSkipsAreOnlyLate` | services/order-service/internal/repository/saga_repository.go:103-118 | Without A2: events are never early and take effect exactly at their step |
| `ReplicaSafety.FleetCorrelation` | services/order-service/internal/repository/saga_repository.go:112-150 | Without A2: every message agrees with its saga's own order row |
| `ReplicaSafety.FleetSixCombinations` | services/order-service/internal/repository/saga_repository.go:100-289 | Without A2: the same six combinations of step, status and order status |
| `ReplicaSafety.FleetTerminalIsAbsorbing` | services/order-service/internal/repository/saga_repository.go:115-118 | Without A2: a terminal saga's row never changes again |
| `ReplicaSafety.FleetRecordedOnce` | services/order-service/internal/service/saga_orchestrator.go:187-204 | Without A2: a terminal state is recorded at most once per saga |
| `DuplicateErasure.DuplicatesAreErased` | services/order-service/internal/repository/saga_repository.go:100-289 | Copies of delivered events put in anywhere leave orders, sagas and processed ids equal, when no event is early |
| `DuplicateErasure.ErasableIffNotEarly` | services/order-service/internal/repository/saga_repository.go:103-118 | Later copies of a delivery are always erasable if and only if the saga has reached its step |
| `DuplicateErasure.RedeliveryIsInvisible` | services/order-service/internal/repository/saga_repository.go:103-118 | In every reachable world, redelivering any sent event is invisible |
| `Marks.EffectiveIff` | services/order-service/internal/repository/saga_repository.go:100-289 | A delivery changes the orders database if and only if its id is new, the saga waits for that event (a release event: in compensation) and the order can be loaded where it is needed |
| `Marks.SameIdNeverTwice` | services/order-service/internal/repository/saga_repository.go:103-110 | Once a delivery has changed the database, none under its id ever does, whatever it carries |
| `Marks.MarkedIffTookEffect` | services/order-service/internal/repository/saga_repository.go:145-157 | Over every run an event id is marked if and only if some delivery of it changed a saga, and a saga's last event is the id of the delivery that changed it last |
| `Marks.RowAndMarkTogether` | services/payment-service/internal/repository/payment_repository.go:42-51 | In any payments database a create adds both the row and the mark, if and only if neither unique key was taken, and otherwise nothing |
| `Marks.MarkedIffCreated` | services/payment-service/internal/repository/payment_repository.go:44-51 | Over every run a payment command's id is marked if and only if a write under it created a row |
| `Marks.RowsAndMarksCorrespond` | services/payment-service/internal/repository/payment_repository.go:44-51 | In every reachable world rows and marks correspond one to one: each row was made for the one marked command of its order, over the order's own amount |
| `Marks.CreatedOnceForAll` | services/payment-service/internal/service/payment_command_handler.go:60-70 | A write for an order without a row creates it as the command says, and from then on that command does nothing, at any worker, in any later world |
| `Clusters.Cluster.Publish` | services/order-service/internal/messaging/publisher.go:32-58 | Up to three attempts under one new id; succeeds exactly when one is confirmed before a cancellation, and the message is out whenever an attempt reached the broker, confirmed or not. With nobody else about it is sent exactly once, or forgotten |
| `InventoryHandler.InventoryCommandHandler.Attempt` | services/inventory-service/internal/service/inventory_command_handler.go:74-103 | One read and one optimistic write, with others in between: won, short of stock, lost, or no such product. With nobody else about the row alone decides, and it is never lost |
| `InventoryHandler.InventoryCommandHandler.Attempts` | services/inventory-service/internal/service/inventory_command_handler.go:74-103 | The loop ends won, short, without a product, or with the budget used up; with nobody else about after one attempt |
| `InventoryHandler.InventoryCommandHandler.HandleReserve` | services/inventory-service/internal/service/inventory_command_handler.go:62-111 | Is a run of protocol steps under any interference; yes means the order holds stock and is always the answer of an order with a reserve entry; no means short stock or a rival commit per attempt; the answer goes out anew if an attempt to publish it does. With nobody else about the answer is whether there was enough, and exactly that entry is logged |
| `InventoryHandler.InventoryCommandHandler.HandleRelease` | services/inventory-service/internal/service/inventory_command_handler.go:113-141 | Is a run of protocol steps; fails only if the transaction reports an error and the order had not given back before; the answer goes out anew. With nobody else about exactly the one release is logged |
| `InventoryHandler.InventoryCommandHandler.RunRelease` | services/inventory-service/internal/service/inventory_command_handler.go:125-141 | The release is decided and its answer owed; it fails exactly when the transaction does |
| `InventoryHandler.InventoryCommandHandler.PublishReserved` | services/inventory-service/internal/service/inventory_command_handler.go:143-156 | The answer stands by the time the publish returns, whether or not it went out |
| `PaymentHandler.PaymentCommandHandler.FindOrCreate` | services/payment-service/internal/service/payment_command_handler.go:72-116 | A row that is there is answered as it is; one that is not is created with this command's amount, outcome and transaction id, and answered; the only error is a row created by another worker between the read and the write |
| `PaymentHandler.PaymentCommandHandler.HandleProcess` | services/payment-service/internal/service/payment_command_handler.go:60-129 | Is a run of protocol steps under other workers; a marked id changes nothing; otherwise the answer is decided as `FindOrCreate` says, is the order's row and goes out anew. With nobody else about the first command of an order always creates and answers its row |
| `PaymentHandler.PaymentCommandHandler.PublishProcessed` | services/payment-service/internal/service/payment_command_handler.go:118-129 | The answer is still the order's row when the publish returns |
| `Orchestrator.SagaOrchestrator.OnInventoryReserved` | services/order-service/internal/service/saga_orchestrator.go:114-138 | Commit, then the payment command or the record; errors exactly when that publish fails |
| `Orchestrator.SagaOrchestrator.OnPaymentProcessed` | services/order-service/internal/service/saga_orchestrator.go:140-166 | Commit, then the release command or the record |
| `Orchestrator.SagaOrchestrator.OnInventoryReleased` | services/order-service/internal/service/saga_orchestrator.go:168-185 | Commit, then the record |
| `Orchestrator.SagaOrchestrator.HandleEvent` | services/order-service/internal/service/saga_orchestrator.go:71-112 | A skipped event changes nothing, no event is ever rejected, and the only error is a publish that did not go out |
| `Orchestrator.SagaOrchestrator.StartSaga` | services/order-service/internal/service/saga_orchestrator.go:43-68 | The saga row, then the reserve command |
| `Orchestrator.SagaOrchestrator.Recover` | services/order-service/internal/service/saga_orchestrator.go:255-320 | A listed row's command is published again under a new id, unless no attempt reaches the broker |
| `Orchestrator.SagaOrchestrator.RunRecovery` | services/order-service/internal/service/saga_orchestrator.go:225-253 | Two listings, each a step of this pass. Every saga open at its start has its command sent again under a new id, or has ended, unless no attempt to publish reached the broker; whatever others do between items and listings |
| `Retry.MarkSurvivesWrapping` | shared/amqpretry/amqpretry.go:24-42 | Wrapping neither hides a permanent mark nor makes one, and a marked error stays marked |
| `Retry.PermanentIff` | shared/amqpretry/amqpretry.go:41-45 | An error is permanent if and only if something in its chain was marked |
| `Retry.CounterReads` | shared/amqpretry/amqpretry.go:64-77 | A counter of any integer type reads as its number; an absent or malformed one as zero |
| `Retry.ToInt32Is` | services/order-service/internal/messaging/consumer.go:116-116 | The 32-bit conversion fits, is congruent, and is the identity exactly on what fits |
| `Retry.WrittenCountsReadBackIff` | services/order-service/internal/messaging/consumer.go:112-116 | Every count a retry can write reads back as written if and only if the limit fits 32 bits |
| `Topology.Broker.BindAll` | services/order-service/internal/messaging/topology.go:60-64 | Adds exactly one binding per key |
| `Topology.Broker.Setup` | services/order-service/internal/messaging/topology.go:14-67 | Adds exactly this service's exchanges, queues and bindings to whatever is declared |
| `Topology.RetriedComesBack` | services/order-service/internal/messaging/topology.go:53-64 | A retried key waits in its own service's retry queue only, and returns to its own main queue only |
| `Topology.RetryNeedsABinding` | services/order-service/internal/messaging/topology.go:60-64 | A service's retry queue gets a key if and only if the service listed it |
| `Topology.RoutingTable` | services/order-service/internal/messaging/topology.go:31-64 | Key by key, which queue a message arrives in and where it waits when it fails, over the declarations of all three services |
| `Topology.GivenUpIsKept` | services/order-service/internal/messaging/topology.go:31-40 | Whatever the main queue gives up lands in the service's dead-letter queue and nowhere else |
| `Topology.SetupsCommute` | services/order-service/internal/messaging/topology.go:12-14 | Set-up order does not matter and set-up is idempotent |
| `Delivery.NeverLosesIff` | services/order-service/internal/messaging/consumer.go:95-142 | No message is ever lost, through every ack, nack, panic, failed republish, lost ack and crash, if and only if the retry exchange knows every key the handler can fail on, or nothing is ever retried |
| `Delivery.ServicesNeverLose` | services/order-service/internal/messaging/consumer.go:95-142 | So the three services never lose a message |
| `Delivery.HandledWasPublished` | services/order-service/internal/messaging/consumer.go:95-142 | Over any run, a handler runs only on published messages, and every copy has a published message's id, key and body |
| `Delivery.UnboundKeyIsLost` | services/order-service/internal/messaging/consumer.go:113-127 | The losing run for a key that is not bound |
| `Delivery.LineageBounded` | services/order-service/internal/messaging/consumer.go:112-127 | On every copy the counter is within the limit, the other headers are intact, and the handler ran at most limit + 1 + redeliveries times |
| `Delivery.RunsAreBounded` | services/order-service/internal/messaging/consumer.go:95-142 | Over all copies of a letter together, each publish and each redelivery pays for at most limit + 1 handler runs |
| `Delivery.RunsBoundedIff` | services/order-service/internal/messaging/consumer.go:113-116 | That bound holds if and only if the limit fits 32 bits; otherwise a failing message is retried for ever |
| `GivenUp.MarkedIsNotRetried` | shared/amqpretry/amqpretry.go:55-62 | Over any run and whatever the limit, a letter whose every failure is marked is handled at most once per publish or redelivery |
| `GivenUp.BuriedOnlyAtTheLimit` | shared/amqpretry/amqpretry.go:55-62 | Over any run, a letter that never panics and never fails for good is dead-lettered only after the limit's retries, each a run of the handler, and a first run |
| `Conservation.CleanRunsConserve` | services/order-service/internal/messaging/consumer.go:95-142 | As long as no settlement is lost, every republish is confirmed and no process dies, each publish of a letter is one copy in one place, and the broker never delivers it again |
| `Conservation.EachEndIsKept` | services/order-service/internal/messaging/consumer.go:95-142 | In such runs a letter's successes are its done copies, and its panics, marked failures and failures at the limit its dead-lettered ones, one for one |
| `Dispatcher.AfterRetry` | services/order-service/internal/messaging/consumer.go:111-127 | An unmarked error under the limit, however wrapped: the copy waits with its counter raised and nothing is buried; unless confirmed and settled, the broker delivers the copy again |
| `Dispatcher.AfterGivingUp` | services/order-service/internal/messaging/consumer.go:128-141 | A marked error, or any at the limit: nothing waits, and the copy is buried once if the publish was clean, by the broker if it failed |
| `Dispatcher.AfterPanic` | services/order-service/internal/messaging/consumer.go:95-102 | A panic leaves the copy to the broker, which buries it |
| `Dispatcher.CloneHeaders` | services/order-service/internal/messaging/consumer.go:146-152 | A copy with the same headers |
| `Dispatcher.Consumer.PublishRaw` | services/order-service/internal/messaging/publisher.go:102-136 | Reaches every queue it is routed to; an error does not mean unsent |
| `Dispatcher.Consumer.DispatchMsg` | services/order-service/internal/messaging/consumer.go:95-142 | Does exactly one dispatch step of the queue machine |

Handlers marked "a run of protocol steps" state it through `Valid()`: the recorded steps lead from the empty world to the
current one, and the repositories hold exactly that world's databases.

## Left out

- HTTP handlers, configuration, health checks, admin listings, metrics values, logs, traces, durations: no protocol content.
- `PUT /inventory` and `POST /payments`: the first overwrites stock without bumping the version, the second plants pending rows; with either, the ledger or the agreement would need a different statement.
- Reasons, `last_error` and its truncation: no step reads them.
- JSON bodies: a malformed body is a permanent failure of the dispatcher model; a delivery without a message id, which the order service acknowledges unread, is a handler success there.
- Database errors that are not one of the modelled outcomes: the handler stops, which is the abort step; a handler method here runs on to its end, and a crash is an abort or drop step of somebody else.
- A release transaction that commits although its client sees an error: excluded by A1.
- Money is integer cents; the source uses decimals and no amount is computed with.
- Integers of rows and versions are unbounded; only the 32-bit retry counter wraps.
- Broker connections, channels, reconnecting, prefetch and the worker pool: workers appear as interleaving.
- The retry delay and the 30 s recovery interval: steps that may happen at any time.
- A broker that loses a queue or a confirmed message, and dead-letter redriving by script.
- "A failed saga holds no stock", "a saga that failed during release has no release entry" and "every order has a saga": the code gives none of them; each is refuted by a run and replaced by its exact condition.
- FairRoundMovesEverySaga: assumes that handlers, once they take a command up, are neither aborted nor have their publish dropped; a fault only costs one more round.
