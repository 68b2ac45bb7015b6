# Arena on sale: a verified model

This project models the booking path of a ticket shop on the day a stadium goes on sale, and proves
what its design promises: never oversell, never charge twice, refund when the finalise step loses,
admit the crowd in order and within a budget.

## What is modelled

The heart is one transition system, `Booking`: the tables of seats, holds, general-admission pools and
reservations, orders, payments and outbox, beside the durable ledger of the payment provider, the live
checkout attempts, the quotes they hold and the clock. A step is one committed transaction, one call to
the provider, one crash of an attempt or one advance of the clock; steps of different orders,
reservations, buyers and the expiry worker interleave freely.

| files | contents |
|---|---|
| `Collections` | sums over maps, increasing listings of sets |
| `SeatInventory`, `GaInventory`, `PaymentProvider`, `OrderLife` | the tables, their transactions, and the life of one order seen across all of them |
| `Booking`, `BookingInvariant`, `BookingTheorems`, `Shield` | the transition system, its inductive invariant, safety over whole runs, and what a committed capture protects |
| `Money`, `Recovery` | conservation of money; recovery from any crash point, and the end of every attempt |
| `SecondAttempt` | what a second live attempt on one order does |
| `Finalizer`, `Checkout` | the database session, the finalizer and the checkout service as classes, each method proved against the transition system |
| `Ownership` | orders and quotes stay with their owners |
| `SeatLocks`, `LockRace`, `HoldService` | seat locks, their races, and reserving seats |
| `GaTraffic`, `GaService` | the optimistic claim and its retry loop against adversarial rivals |
| `Expiry`, `Outbox`, `Worker`, `Backlog` | the batch loops of the worker, one whole pass, and who is served after how many passes |
| `Scenarios` | concrete runs that reach the cases the theorems speak of |
| `RateLimit`, `WaitingRoom`, `WaitingRoomRuns`, `WaitingRoomRows`, `WaitingRoomService` | the admission budget, the rules of the waiting room, their behaviour over runs, what they come to in the tables, and the store and service as classes |
| `Layout` | row labels and seat enumeration |

Where the source changes state step by step the model has a class or a method with loops, proved against
a function of the old state; the properties are then lemmas about these functions.

## Assumptions

- An order has at most one live attempt. Different orders, reserves and expiry passes interleave freely.
  `SecondAttempt.HarmlessIff` says when a second one does harm.
- `confirm_ga` reads and writes its reservation in one atomic step; `GaInventory.ConfirmGaLinearisesIff` says when
  it matters. The seat confirm is two steps with anything in between. An expiry's check for a captured payment
  and its release need not be atomic: the release step has no guard. Only `Shield.CaptureShields` asks that, in
  the stretch it speaks of, no expiry releases after its check has become outdated, and
  `Shield.ShieldHoldsIff` says what happens otherwise.
- The database enforces its unique keys, one order per reservation, and its checks; a violating insert
  aborts its transaction. Rollback restores the last committed rows.
- The provider stores its results durably per key, and an ok result carries a reference.
- Attempts and quotes are volatile; a crash forgets an attempt. A quote may be stale when its order is inserted.
- The ticket price and the stadium (seats, pools, capacities) are fixed during a run.
- Calls into the waiting room are atomic with one clock reading each; clock readings may come in any order,
  except where `WaitingRoomRuns.WaitElapsed` speaks of elapsed time.
- New ids and tokens are fresh. Seat ids are numbers, ordered as they are compared.
- The lock table plays no part in `Booking`, so its results hold even if seat locks vanish at any moment.

## Where the code and its documentation differ

- A failed reserve is meant to leave nothing behind. When the acknowledgement of the commit is lost, or only the
  read after it fails, the caller sees an error and the locks are given back although the hold stands
  (`HoldService.RaisedLeavesTables` gives the exact condition).
- Abandoned checkouts are meant to return their seats. The expiry fills its batch before it looks for captured
  payments, so an unpaid overdue reservation waits for ever exactly if a whole batch of shielded, unlocked, overdue
  ones has smaller ids (`Backlog.HoldWaitsForeverIff`, `Backlog.ReservationWaitsForeverIff`), and such a state is
  reachable (`Scenarios.CheckoutsStarve`).
- Confirms are meant to be idempotent. They are for replays of one attempt after another, not for two attempts at
  once: a second one can refund a sold ticket, announce a refund twice, or sell without a capture, and nothing
  mends it afterwards (`SecondAttempt.HarmlessIff`, `SecondAttempt.TornForGood`).
- A release after the capture was committed costs the buyer the reservation, and golden rule 7 takes over: the
  confirm loses and the order is refunded (`Recovery.LateExpiryIsRefunded`, `Scenarios.LostRaceIsRefunded`).
- Releasing a general-admission reservation is documented to fail when it is not active. It also fails when
  the pool was written in between; the next pass tries again.
- The admission budget of a second is spent on free places whether or not anybody waits, so admission is work
  conserving only while the budget left suffices (`WaitingRoomRuns.TickConservesIff`), and with the Redis
  counter overlapping calls keep the books exactly while no increment finds it over the limit
  (`RateLimit.SettledIff`).
- The estimated wait counts the current second: it bounds distinct seconds, and elapsed time less one.
- The outbox commits "in the worker", which is the same transaction as the expiry: a delivery that raises, or a
  failing tick of the waiting room after it, also undoes the expiries of its pass, though not the seat locks they
  gave up nor the deliveries made (`Worker.RunOnce`).

## Model

| member | source | states |
|---|---|---|
| BookingInvariant.StepKeeps | src/arena_onsale/checkout/service.py:49-155 | The inductive step behind every safety result. From any state in which seats, pools, orders, payments, provider ledger, outbox and live attempts agree, any of the nineteen steps (reserve, claim, expire at any time, quote, create, replay, ensure payment, charge, record, read, write, confirm, refund, compensate, crash, publish, clock, ...) leads to one in which they agree again, and every table and order only moves forward. |
| BookingInvariant.ConfirmWinsIff | src/arena_onsale/checkout/finalizer.py:30-57 | An attempt that has read its rows: all conditional seat writes match exactly when the hold is still ACTIVE at write time, and then have the effect of one atomic confirm; a release in between, even one whose check preceded the capture, makes it lose. |
| BookingInvariant.CreateOrderKeeps | src/arena_onsale/checkout/service.py:72-86 | Inserting an order from a quote that may be stale keeps every invariant, given the unique keys and the positive-amount check of the orders table. |
| BookingInvariant.ExpireHoldKeeps | src/arena_onsale/checkout/expiry.py:42-48 | Releasing an ACTIVE hold at any moment, captured payment or not, is sound for whatever order stands on it, in any phase. |
| BookingTheorems.RunInv | src/arena_onsale/checkout/service.py:49-155 | The invariant holds at every point of every run that starts from an unsold stadium. |
| BookingTheorems.RunProgress | src/arena_onsale/checkout/service.py:49-155 | Between any two points of a run: seat versions never fall, SOLD is final, reservations settle once, provider results and final order statuses stand. |
| BookingTheorems.OrderAgreement | src/arena_onsale/checkout/service.py:89-155 | At every point of every run: an order is CONFIRMED exactly when its reservation is; CONFIRMED means captured and not refunded; COMPENSATED means captured, refunded and the reservation EXPIRED; PAYMENT_FAILED means asked and never captured; no order is EXPIRED. |
| BookingTheorems.ReservationAgreement | alembic/versions/0004_checkout.py:57-70 | A reservation is CONFIRMED exactly when an order on it is CONFIRMED, and it never has two orders. |
| BookingTheorems.DeclinedNeverCharged | src/arena_onsale/checkout/service.py:96-101 | An order that is PAYMENT_FAILED at some point is captured at no point of the run, before or after. |
| BookingTheorems.FinalIsFinal | src/arena_onsale/checkout/service.py:63-68 | CONFIRMED, PAYMENT_FAILED and COMPENSATED are absorbing with everything recorded about the order, and such an order is never taken up again. |
| Shield.ShieldFallsIff | src/arena_onsale/checkout/expiry.py:13-45 | In every reachable state, a step takes away the shield of a committed capture (captured and the reservation ACTIVE or CONFIRMED) exactly if it expires that very reservation. |
| Shield.ShieldHoldsIff | src/arena_onsale/checkout/expiry.py:13-45 | Over any run a shield, once up, is up exactly as long as no expiry of that reservation has happened; after one it is gone for good. |
| Shield.CaptureShields | src/arena_onsale/checkout/expiry.py:43-45 | Over any stretch of a run in which no expiry releases after its check has become outdated: an ACTIVE reservation with a committed capture is ACTIVE or CONFIRMED throughout, nothing is refunded and the order is not COMPENSATED. |
| BookingTheorems.RefundedNeverConfirmed | src/arena_onsale/checkout/service.py:134-155 | Once the provider has refunded an order, its reservation is EXPIRED in that and every later state, and the refund stands. |
| BookingTheorems.OneCaptureOneRefund | src/arena_onsale/checkout/psp.py:30-51 | Across all replays and crash points each reservation has at most one capture and at most one refund, the provider's counters count exactly these, and every refund is of a capture of an existing order. |
| BookingTheorems.NoDoubleSale | src/arena_onsale/inventory/service.py:92-122 | In every state of every run a seat is in at most one hold; it is AVAILABLE, HELD or SOLD exactly when that hold is absent, ACTIVE or CONFIRMED. |
| BookingTheorems.SeatsOverRuns | src/arena_onsale/checkout/finalizer.py:43-52 | The seat invariant holds throughout every run, seat versions never fall, and a SOLD row never changes again. |
| BookingTheorems.PoolsOverRuns | src/arena_onsale/inventory/ga_stock.py:52-69 | In every state of every run: available plus the quantities of ACTIVE and CONFIRMED reservations is the capacity, both CHECK constraints hold, and version = 1 + claims + releases, whatever stale snapshots were used. |
| BookingTheorems.OutboxExact | src/arena_onsale/checkout/service.py:122-155 | The outbox holds exactly one TicketConfirmed per CONFIRMED order, exactly one FinalizeFailed per COMPENSATED order, and nothing for any other order or stranger. |
| BookingTheorems.EventsDated | src/arena_onsale/checkout/service.py:122-155 | Every step appends at most one event, created at the clock of that step and unpublished; afterwards only its stamp is ever written. |
| Money.MoneyConserved | src/arena_onsale/checkout/service.py:112-187 | At every point of every run: captured minus refunded = price x (SOLD seats + CONFIRMED units) + the amounts of orders captured and not yet confirmed or refunded. |
| Money.StepBalances | src/arena_onsale/checkout/service.py:89-155 | Every single step keeps that equation: a confirm turns money in flight into tickets of exactly that price, a charge or refund moves provider money and money in flight together. |
| Money.ConfirmedInFlight | src/arena_onsale/checkout/service.py:157-187 | The amount quoted earlier is still the price of the units when they are confirmed. |
| Recovery.NextStepRuns | src/arena_onsale/checkout/service.py:89-155 | A live attempt is never stuck: its next step is enabled in every reachable state, and brings it nearer its end. |
| Recovery.DriveEnds | src/arena_onsale/checkout/service.py:89-155 | An undisturbed attempt ends, its order has the status that the provider's answer and the reservation decide, and nothing else has moved backward. |
| Recovery.Recoverable | src/arena_onsale/checkout/service.py:59-70 | From every reachable PAYMENT_PENDING state, whatever the crash point, one undisturbed replay ends in CONFIRMED, PAYMENT_FAILED or COMPENSATED, and which one is determined: by the stored or new provider answer, then by whether the reservation is still ACTIVE. |
| Recovery.LateExpiryIsRefunded | src/arena_onsale/checkout/service.py:118-155 | Golden rule 7: an attempt whose reservation expired after the capture was committed, at whatever point of the attempt, ends undisturbed in one refund, one FinalizeFailed event and COMPENSATED. |
| Recovery.EndsWithinSeven | src/arena_onsale/checkout/service.py:89-155 | In any run, whatever else interleaves, an attempt that does not crash takes at most seven steps of its own, and when it is over its order is final. |
| SecondAttempt.HarmlessIff | src/arena_onsale/checkout/service.py:89-155 | For every final status of the first attempt and every point at which a second one may stand with the order it had loaded: it ends, and does no harm exactly if the first was compensated and the second has not read the payment row, or the first was declined and the second is at the provider. Otherwise a sold ticket is refunded and compensated, a refund is announced twice, or a declined order is settled unpaid. |
| SecondAttempt.SecondAttemptRefunds | src/arena_onsale/checkout/service.py:112-155 | By the steps of the transition system itself, for seats and for general admission: the first attempt confirms, the second finds the reservation CONFIRMED and loses, the buyer is refunded and the order COMPENSATED while the reservation stays CONFIRMED, with both events written. |
| SecondAttempt.TornForGood | src/arena_onsale/checkout/service.py:63-68 | No step of anybody ever mends such an order. |
| OrderLife.ExpiryIsSound | src/arena_onsale/checkout/expiry.py:42-48 | The expiry of a reservation leaves the order on it sound in every phase of its life, with or without a captured payment. |
| OrderLife.ConfirmSoundIff | src/arena_onsale/checkout/service.py:122-132 | Confirming an ACTIVE reservation and its order in one commit is sound exactly if the capture is committed, as it is in the two phases that do so. |
| OrderLife.RepaySound | src/arena_onsale/checkout/service.py:134-140 | An attempt that lost the confirm always has a captured payment with a reference, so the refund branch is the one taken. |
| Checkout.CheckoutService.Checkout | src/arena_onsale/checkout/service.py:49-87 | The whole request against the transition system: exactly one of hold and reservation, else not found and nothing changes; a known key answers its own session, refuses others, and replays of final orders change nothing; a pending or new order is driven to its final status. In the rows: with a new key an order appears only if the hold or reservation was ACTIVE, belonged to the caller's session and had time left. |
| Checkout.CheckoutService.Resume | src/arena_onsale/checkout/service.py:89-110 | Taking an order up ends where the undisturbed drive of the transition system ends, and reports what that status calls for. |
| Checkout.CheckoutService.Pay | src/arena_onsale/checkout/service.py:91-104 | The provider is asked with nothing uncommitted, then its answer is committed: one charge step followed by one recording step. |
| Checkout.CheckoutService.Finalize | src/arena_onsale/checkout/service.py:112-132 | Confirm, or roll back and compensate, whatever other transactions do to the seat tables between the reads and the writes of the confirm: ends where the drive of the transition system ends from the state they leave. |
| Checkout.CheckoutService.Compensate | src/arena_onsale/checkout/service.py:134-155 | Refund first if the payment is CAPTURED with a reference, then one commit of payment, order and event: the refund step followed by the compensation step; without such a payment the compensation step alone. |
| Checkout.CheckoutService.EnsurePayment | src/arena_onsale/checkout/service.py:189-202 | One payment row per order, found or inserted PENDING and committed: the ensure-payment step. |
| Checkout.CheckoutService.GetQuote | src/arena_onsale/checkout/service.py:157-187 | Quotes a hold exactly if its row is ACTIVE, of the caller's session, not yet at its deadline and has seats, a reservation exactly if it is ACTIVE, of that session and not yet at its deadline; the amount is the price of exactly its seats or units. Which refusal applies otherwise. |
| Checkout.CheckoutService.Create | src/arena_onsale/checkout/service.py:72-87 | A new key: refusals and constraint violations change nothing, otherwise the order is inserted at the quoted amount and driven to its end. |
| Checkout.SeatsBought | src/arena_onsale/checkout/service.py:157-187 | What a checkout of a hold under a new key comes to, in the rows: an unknown hold, one not ACTIVE, of another session, past its deadline or without seats is refused by name and nothing changes; an order inserted carries the caller's session and key, the hold, its match and the price of exactly its seats, and the answer is what its final status calls for. |
| Checkout.UnitsBought | src/arena_onsale/checkout/service.py:173-187 | The same for general admission. |
| Checkout.KnownKeyAnswered | src/arena_onsale/checkout/service.py:59-70 | A known key, in the rows: another session is refused, a final order is handed back unchanged, a pending one is carried to CONFIRMED, PAYMENT_FAILED or COMPENSATED and answered by the order, the decline or the failed finalisation. |
| Ownership.EverybodyBuysTheirOwn | src/arena_onsale/checkout/service.py:157-187 | At every point of every run every order and every quote names a reservation of the same session; orders are for its match. |
| Checkout.CreatedIsQuoted | src/arena_onsale/checkout/service.py:72-85 | Quote and insert within one undisturbed request are the transition system's own quote and create steps. |
| PaymentProvider.MockPsp.Charge | src/arena_onsale/checkout/psp.py:30-42 | The stored result of a key is returned unchanged; a new key is declined while the failure budget lasts and captured otherwise. |
| PaymentProvider.MockPsp.Refund | src/arena_onsale/checkout/psp.py:44-51 | The stored refund of a key is returned unchanged; a new one is recorded and counted once. |
| PaymentProvider.ChargeReplays | src/arena_onsale/checkout/psp.py:13-14 | However often a key is presented and whatever would now be decided, the first result stands and nothing is captured again. |
| PaymentProvider.ChargeKeepsBooks | src/arena_onsale/checkout/psp.py:39-42 | The capture counter stays the number of captured keys, ok implies a reference, and earlier results never change. |
| SeatInventory.OptimisticConfirm | src/arena_onsale/checkout/finalizer.py:30-57 | The compare-and-set loop linearises: between read and write any transactions may commit; all rows still match exactly when the hold is still ACTIVE at write time, and then the rows read are the whole seat set and writing them is the atomic confirm. |
| SeatInventory.ReservePreserves | src/arena_onsale/inventory/service.py:92-123 | Taking AVAILABLE seats under row locks keeps: AVAILABLE iff no hold, HELD under an ACTIVE hold of the same match and deadline, SOLD only under a CONFIRMED one. |
| SeatInventory.ReleasePreserves | src/arena_onsale/checkout/finalizer.py:66-92 | Releasing an ACTIVE hold keeps the seat invariant although the update has no status guard. |
| SeatInventory.ConfirmPreserves | src/arena_onsale/checkout/finalizer.py:43-57 | Selling the seats of an ACTIVE hold keeps the seat invariant. |
| SeatInventory.SeatInvMeaning | src/arena_onsale/checkout/finalizer.py:45-51 | What the invariant says about one seat: its hold exists, is the only one, and is ACTIVE or CONFIRMED exactly as the seat is HELD or SOLD. |
| SeatInventory.EvolvesTransitive | src/arena_onsale/checkout/finalizer.py:45-52 | Versions that are bumped by every write and seat sets that are fixed while a hold lives compose over any number of transactions. |
| Finalizer.SqlInventoryFinalizer.ConfirmAssigned | src/arena_onsale/checkout/finalizer.py:30-57 | With other transactions committing between the reads and the writes: succeeds exactly when the hold was and still is ACTIVE, then with the effect of one atomic confirm at write time; on failure nothing it wrote is committed. |
| Finalizer.SqlInventoryFinalizer.SellRows | src/arena_onsale/checkout/finalizer.py:43-55 | Row after row, succeeds exactly when every row still has the status, version and hold read; then all rows are written. |
| Finalizer.SqlInventoryFinalizer.ReleaseAssigned | src/arena_onsale/checkout/finalizer.py:66-92 | An ACTIVE hold, with other transactions committing between the read of its rows and the updates: exactly the rows read that still carry the hold are freed, at the version read plus one, and returned in order, and the hold is written EXPIRED. Otherwise nothing. |
| SeatInventory.ReleaseLinearisesIff | src/arena_onsale/checkout/finalizer.py:66-92 | The release loop on rows read earlier is the atomic release while the hold is still ACTIVE and nothing if it has expired; it is a legal move of the tables exactly unless the hold was confirmed in between, which the row lock on the hold keeps out. |
| Finalizer.SqlInventoryFinalizer.ConfirmGeneral | src/arena_onsale/checkout/finalizer.py:59-64 | Confirms exactly an ACTIVE reservation; the pool is not touched again. |
| Finalizer.SqlInventoryFinalizer.ReleaseGeneral | src/arena_onsale/checkout/finalizer.py:94-115 | With other transactions committing between read and update: returns the units and expires the row exactly when the reservation is ACTIVE and nobody wrote its pool meanwhile; otherwise only what the others did remains. |
| HoldService.HoldService.Reserve | src/arena_onsale/inventory/service.py:36-75 | All seats or none, for any initial lock table and any transactions in between: an empty request, a known key (own or foreign session), a locked seat and every refusal of the transaction have their own answer. On success the stored hold has the request's match, session and key, is ACTIVE and ends at the clock plus the time to live; each seat asked for is HELD under it until then, nothing else changes, and exactly the sorted distinct seats are locked with the hold's token. Whatever is raised once the lock commands have answered, the lock table is exactly as before. |
| HoldService.HoldService.PersistHold | src/arena_onsale/inventory/service.py:83-125 | The exception of the transaction, or none, from the tables under row locks and where the database fails; what is committed in each case, the new row and every seat written out. |
| HoldService.HoldService.CheckSeats | src/arena_onsale/inventory/service.py:92-103 | Unknown or foreign seats are reported with the whole request, taken ones by themselves in id order. |
| HoldService.RefusedBecause | src/arena_onsale/inventory/service.py:92-103 | A hold is made exactly if every seat asked for exists, is of the match and AVAILABLE, the key is new and the database does not fail; otherwise the error lists the whole request if one seat is unknown or foreign, else exactly the seats not AVAILABLE, in order, or is a database error. |
| HoldService.GoodUntilDeadline | src/arena_onsale/inventory/service.py:105-114 | While a hold just made stays ACTIVE, whatever else happens: exactly its own session may buy it, exactly at clocks before the clock of the call plus the time to live; from then on it is overdue; its seats stay HELD under it. |
| HoldService.SecondCall | src/arena_onsale/inventory/service.py:46-50 | A later call with the same key gets the same hold for its own session and a conflict for any other, however the tables have moved on. |
| HoldService.CreatedIffReservable | src/arena_onsale/inventory/service.py:92-125 | A hold is made exactly when the reserving step of the transition system is possible and the database does not fail, and then with the effect of that step. |
| HoldService.RaisedLeavesTables | src/arena_onsale/inventory/service.py:123-124 | A raised exception leaves seats and holds alone, except exactly when everything was in order and either the acknowledgement of the commit or the read after it was lost. |
| HoldService.LateFaultStrandsSeat | src/arena_onsale/inventory/service.py:123-124 | Those exceptions are real: an error is raised while the seat stays HELD under the stored hold; by the contract of Reserve its lock is given back. |
| SeatLocks.SeatLockGate.AcquireAll | src/arena_onsale/inventory/locking.py:55-74 | For any lock table: every distinct seat in increasing order and nothing else, or the table exactly as it was; and which locks were asked for, in which order. |
| SeatLocks.AskedUpwards | src/arena_onsale/inventory/locking.py:20-22 | One call asks for the locks of its distinct seats in strictly increasing order, each once, all of them or up to the first that is taken. |
| SeatLocks.SeatLockGate.Release | src/arena_onsale/inventory/locking.py:46-52 | Compare and delete: only a lock the token owns goes. |
| SeatLocks.SeatLockGate.ReleaseAll | src/arena_onsale/inventory/locking.py:77-85 | Exactly the locks of these seats that the token owns go. |
| SeatLocks.GiveBack | src/arena_onsale/inventory/locking.py:71-72 | Giving back what a failed call took restores the table, for any table it started from. |
| LockRace.SomebodyWins | src/arena_onsale/inventory/locking.py:20-22 | In any interleaving of any number of ordered calls from no locks, once all have finished at least one has all its seats (largest-failing-seat argument). |
| LockRace.RaceEnds | src/arena_onsale/inventory/locking.py:55-74 | Every race is over after a number of moves fixed by the plans, whoever gets them. |
| LockRace.WinnersKeepTheirSeats | src/arena_onsale/inventory/locking.py:69-74 | At the end each winner holds all its seats, winners share none, and no other lock is left. |
| LockRace.UnorderedCanAllFail | src/arena_onsale/inventory/locking.py:20-22 | The order is needed: two calls that try two seats in opposite orders can both fail. |
| LockRace.AloneIsAcquireInOrder | src/arena_onsale/inventory/locking.py:55-74 | A caller of a race that is left alone ends as the gate's own loop does: with all its seats if all were free, else with the lock table as it was. |
| GaInventory.ClaimPreserves | src/arena_onsale/inventory/ga_stock.py:52-69 | A claim against any snapshot, however stale, keeps units conserved and the version equal to one plus claims plus releases. |
| GaInventory.ReleaseGaPreserves | src/arena_onsale/checkout/finalizer.py:94-115 | So does a release. |
| GaInventory.ConfirmGaPreserves | src/arena_onsale/checkout/finalizer.py:59-64 | So does a confirm, which moves no units. |
| GaInventory.ConfirmGaLinearisesIff | src/arena_onsale/checkout/finalizer.py:59-64 | The status write of the confirm has no guard: on a row read as ACTIVE earlier it keeps the books exactly unless the row has expired in between, in which case its units are sold twice. |
| GaInventory.ChecksHold | alembic/versions/0001_catalog.py:56-58 | Conservation implies 0 <= available <= capacity and version >= 1. |
| GaTraffic.OpsKeep | src/arena_onsale/inventory/ga_stock.py:52-69 | Any sequence of other transactions keeps the books, never writes a pool without moving its version, and leaves rows nobody else can reach alone. |
| GaService.SqlGaStock.Claim | src/arena_onsale/inventory/ga_stock.py:36-69 | With others committing before the read and between read and write: missing if no pool was read, insufficient if it had fewer units than asked, a conflict if its version moved or its units went since, a clash if the key is taken by then; none of these writes anything. Otherwise the units leave the pool, its version rises by one and the row is inserted, all together. |
| GaService.GaReservationService.Reserve | src/arena_onsale/inventory/ga_service.py:42-85 | Quantity bounds; a known key answers without a claim; otherwise at most the configured number of claims, one pause within the window between two of them, all pauses together within (attempts - 1) x the longest. In the pools read and written: all claims but the last had enough units and met a write of others; not found exactly if the last read no pool; unavailable exactly if it read fewer units than asked, no claim is configured, or the last one allowed met a write as well; success exactly if the pool had the units, was unwritten and the key new, and then the row stored is the request, ACTIVE until the clock plus the time to live. |
| GaService.SettlingConserves | src/arena_onsale/inventory/ga_service.py:59-85 | Books balanced in every case; a call that raises has taken no units, one that succeeds has taken exactly the quantity out of what the rivals left. |
| GaService.ConflictMeansRival | src/arena_onsale/inventory/ga_stock.py:52-66 | An attempt ends in a conflict exactly when the pool had enough units and a rival wrote it between the read and the write. |
| GaService.ConflictsAreOthersProgress | src/arena_onsale/inventory/ga_service.py:58-85 | After n conflicts in a row rivals have written the pool at least n times: giving up means others got through. |
| GaService.AloneDecidesAtOnce | src/arena_onsale/inventory/ga_stock.py:43-69 | Without a rival in between an attempt never conflicts, and succeeds exactly when the pool exists and has the units. |
| GaService.ReplayTakesNothing | src/arena_onsale/inventory/ga_service.py:52-56 | However the tables have moved on, a later call with the same key finds the reservation for its own session and a conflict for any other, and takes nothing more. |
| GaService.GoodUntilDeadline | src/arena_onsale/inventory/ga_service.py:93-109 | While a reservation just made stays ACTIVE exactly its own session may buy it, exactly before its deadline; from then on it is overdue. |
| Expiry.ExpireHolds | src/arena_onsale/checkout/expiry.py:26-49 | In the rows: exactly the holds that are ACTIVE past their deadline, unlocked, without a captured payment on their order, and with fewer than a batch of ACTIVE overdue unlocked smaller ids become EXPIRED, exactly their seats AVAILABLE; nothing else changes. The count is of those that had seats; exactly the locks those holds still own on their own seats go. |
| Expiry.ExpireGa | src/arena_onsale/checkout/expiry.py:52-72 | Goes through the batch in order with others committing between read and update of each row: releases and counts exactly the unshielded reservations whose pool nobody wrote meanwhile, and keeps what the others committed. With nobody else writing, in the rows: exactly the reservations that are ACTIVE past their deadline, unlocked, unpaid and within the batch become EXPIRED. |
| Expiry.OverdueRowExpired | src/arena_onsale/checkout/expiry.py:58-72 | In the rows, whatever others write: such a reservation is EXPIRED if nobody writes during its own turn, and one with a captured payment stays as it is. |
| Expiry.GaAfterMeans | src/arena_onsale/checkout/expiry.py:66-72 | After any prefix of the batch, whatever others commit: of the batch exactly the released reservations are EXPIRED, the others as they were, and the pools balance. |
| Expiry.AloneReleasesUnshielded | src/arena_onsale/checkout/expiry.py:66-72 | When nobody else writes, the released reservations are exactly the unshielded ones, and every row outside the batch is unchanged. |
| Expiry.Batch | src/arena_onsale/checkout/expiry.py:34-40 | The batch: overdue, not locked by others, in id order, the smallest ids first, full unless nothing is left. |
| Expiry.HasCaptured | src/arena_onsale/checkout/expiry.py:13-23 | The search through payments joined with orders finds one exactly if some order on the reservation asked about has a CAPTURED payment; the hold is looked at first, and without either id the answer is no. |
| Expiry.InBatchIff | src/arena_onsale/checkout/expiry.py:34-40 | An unlocked overdue id is in the batch exactly if fewer than a batch of unlocked overdue ids are smaller. |
| Backlog.HoldWaitsForeverIff | src/arena_onsale/checkout/expiry.py:34-44 | With nothing else changing, a hold that is ACTIVE past its deadline and unlocked stays ACTIVE after any number of passes exactly if it is paid for itself or at least a batch of paid, unlocked, overdue holds has smaller ids. |
| Backlog.HoldGoneBy | src/arena_onsale/checkout/expiry.py:34-44 | Otherwise it is EXPIRED after k passes as soon as k x (batch size - paid overdue holds before it) exceeds the unpaid ones before it. |
| Backlog.ReservationWaitsForeverIff | src/arena_onsale/checkout/expiry.py:60-72 | The same for general admission. |
| Backlog.ReservationGoneBy | src/arena_onsale/checkout/expiry.py:60-72 | The same bound for general admission. |
| Scenarios.CheckoutsStarve | src/arena_onsale/checkout/expiry.py:34-72 | A run from an unsold stadium to a state in which, with a batch size of one, an unpaid overdue hold and an unpaid overdue reservation stay ACTIVE for ever behind paid and abandoned ones. |
| Scenarios.LostRaceIsRefunded | src/arena_onsale/checkout/finalizer.py:43-55 | A run in which a release lands between the row read and the conditional writes of a confirm: the buyer is refunded, the order COMPENSATED and the seat AVAILABLE. |
| Worker.RunOnce | src/arena_onsale/worker.py:22-54 | Expiry, publishing and the tick of the waiting room: committed together and counted when nothing raises; rolled back when a delivery, the tick or the commit raises, while the deliveries made, the seat locks given up and the shoppers let in by then remain, and what others committed meanwhile. |
| Worker.Expire | src/arena_onsale/worker.py:27-39 | Holds first, then reservations, judged by the payments as they were at the start of the pass; nothing committed yet. |
| Worker.PassMeans | src/arena_onsale/worker.py:27-47 | What a pass with nobody else writing commits and counts, in the rows: the overdue holds and reservations within the batch become EXPIRED, the oldest mail is stamped, orders and payments stay, and what is counted is what has become EXPIRED, holds without seats left out. |
| Worker.PassIsSteps | src/arena_onsale/worker.py:22-47 | A pass that goes through while nobody else writes is an uninterrupted sequence of the transition system's expiry and publishing steps. |
| Worker.PassKeeps | src/arena_onsale/worker.py:22-47 | So a pass, whatever its batches, keeps the booking invariant and only moves tables and orders forward. |
| Outbox.PublishOutbox | src/arena_onsale/checkout/outbox.py:36-58 | No row is delivered while an unpublished, unlocked one created earlier, or as early with a smaller id, is left undelivered; stops after a batch, when nothing is left, or at the oldest row left if its delivery raises; stamps exactly what was delivered and commits nothing itself. |
| Outbox.PublishedMeansDelivered | src/arena_onsale/checkout/outbox.py:1-6 | In every run with failing deliveries and crashes: a row committed as published was delivered, and at most once more often than passes were rolled back. |
| Outbox.PublishedForGood | src/arena_onsale/checkout/outbox.py:47 | A published row is never stamped again. |
| Outbox.PassesDrain | src/arena_onsale/checkout/outbox.py:45-57 | Batching only splits the work: with nothing added, k passes deliver exactly the first k batches of one fixed order (creation time, then id), and the rest is left in that order. |
| Outbox.DrainedIff | src/arena_onsale/checkout/outbox.py:45-57 | Everything that no other worker has locked is published after k crash-free passes exactly when k is at least the number of such rows over the batch size, rounded up. |
| WaitingRoomService.WaitingRoomService.Join | src/arena_onsale/waiting_room/service.py:33-44 | A blank id is refused without a change; any other is trimmed and, if known, told where it stands. A newcomer is queued and a tick follows: inside with a new token until the present plus the time to live exactly if the free places and what is left of the second cover everybody queued and one more (and a visit lasts at all), otherwise waiting behind exactly those not let in. |
| WaitingRoomService.WaitingRoomService.AdmitTick | src/arena_onsale/waiting_room/service.py:96-120 | In the tables: those with the smallest scores leave the queue, as many as free places, the second's remaining budget and the queue allow; each becomes a shopper with a new token until the present plus the time to live; live shoppers stay as they were, expired ones are gone; the second charged is the one the present falls into, and no other counter changes. |
| WaitingRoomService.WaitingRoomService.Status | src/arena_onsale/waiting_room/service.py:46-81 | A visitor whose shopper entry is not past its deadline is told its token and deadline; otherwise, if queued, one plus the number of smaller scores as position and the least number of seconds whose budget reaches it as estimate; otherwise unknown. Both table sizes; expired shoppers are dropped on the way. |
| WaitingRoomService.WaitingRoomService.VisitorForToken | src/arena_onsale/waiting_room/service.py:92-94 | Answers v exactly when v is a live shopper whose current token this is. |
| WaitingRoomService.InMemoryWaitingRoomStore.Rank | src/arena_onsale/waiting_room/memory.py:22-26 | The index in the sorted queue is the number of visitors with a smaller score. |
| WaitingRoomService.InMemoryWaitingRoomStore.PopFront | src/arena_onsale/waiting_room/memory.py:31-38 | Takes exactly the first visitors in score order, all of them when there are fewer, none for a non-positive number. |
| WaitingRoomService.InMemoryWaitingRoomStore.GcShoppers | src/arena_onsale/waiting_room/memory.py:57-63 | Drops exactly the shoppers whose time is up, each with its token. |
| WaitingRoomService.InMemoryWaitingRoomStore.TakeRateTokens | src/arena_onsale/waiting_room/memory.py:68-75 | Grants what is left of the second's limit and counts exactly what it granted. |
| WaitingRoomService.FrontUnique | src/arena_onsale/waiting_room/memory.py:34-35 | There is one front of each length, so cutting the sorted queue and picking first comers agree. |
| WaitingRoomService.Strip | src/arena_onsale/waiting_room/service.py:34 | The text between the surrounding white space, itself without any at either end. |
| WaitingRoom.TickKeeps | src/arena_onsale/waiting_room/service.py:96-120 | A tick keeps: the shopper table within the limit, nobody both queued and shopping, tokens and shoppers pointing at each other, no second over its budget. |
| WaitingRoom.JoinKeeps | src/arena_onsale/waiting_room/service.py:33-44 | So does a join. |
| WaitingRoomRuns.DayInv | src/arena_onsale/waiting_room/service.py:33-120 | These hold in every state of every run of joins, look-ups and ticks at any times, and so does the order of admission. |
| WaitingRoomRuns.TokenAnswers | src/arena_onsale/waiting_room/memory.py:40-55 | In every state of every run: at most the limit of shoppers, a token names v exactly when it is the current token of v's shopper, and no shopper is queued. |
| WaitingRoomRuns.VisitLasts | src/arena_onsale/waiting_room/service.py:46-60 | Over any run: whoever is inside keeps the place and the token as long as no call comes at or after the deadline. |
| WaitingRoomRuns.VisitEnds | src/arena_onsale/waiting_room/memory.py:57-63 | The first call at or after the deadline ends the visit, unless it is a join that lets the visitor in anew. |
| WaitingRoomRuns.AdmittedInOrder | src/arena_onsale/waiting_room/memory.py:31-38 | Over any run the scores of those admitted are strictly increasing: admission follows the join order. |
| WaitingRoomRuns.PositionNeverRises | src/arena_onsale/waiting_room/service.py:59-77 | While a visitor keeps a place in the queue, the position shown never rises. |
| WaitingRoomRuns.WaitIsNoLess | src/arena_onsale/waiting_room/service.py:70-78 | A visitor shown position p is admitted only after joins or ticks in at least ceil(p / per_second) distinct seconds, the current one included, whatever the clock does. |
| WaitingRoomRuns.WaitElapsed | src/arena_onsale/waiting_room/service.py:70-78 | If the clock is never set back, a visitor told to wait e seconds in second s is not admitted before second s + e - 1. |
| WaitingRoomRuns.MinuteBounded | src/arena_onsale/waiting_room/keys.py:21-22 | In every run any sixty consecutive seconds see at most per_minute + 59 admissions. |
| WaitingRoomRuns.CallServes | src/arena_onsale/waiting_room/service.py:96-120 | Every call admits some front of the queue, possibly nobody, paid for by the budget of its second, and otherwise only adds the newcomer at the back. |
| WaitingRoomRuns.TickConservesIff | src/arena_onsale/waiting_room/service.py:96-120 | After a tick nobody waits before a free place exactly if the smaller of free places and queue length was within what the second's counter had left before the call. |
| WaitingRoomRuns.JoinConservesIff | src/arena_onsale/waiting_room/service.py:33-44 | The same for a newcomer's join, the newcomer counted. |
| WaitingRoomRuns.BudgetSpentOnNobody | src/arena_onsale/waiting_room/service.py:100-107 | An instance in which it is not: a tick in an empty room spends its second's budget, and whoever joins later in that second stays queued before free places. |
| RateLimit.RedisRefinesMemory | src/arena_onsale/waiting_room/redis_store.py:68-80 | One call at a time the Redis form grants what the in-memory form grants; it leaves the same counter exactly when the counter was not already over the limit (or the call asks for nothing). |
| RateLimit.SecondOfCalls | src/arena_onsale/waiting_room/redis_store.py:68-80 | Over any calls in one second from a fresh counter: same grants, counter = total granted, never over the limit. |
| RateLimit.SettledIff | src/arena_onsale/waiting_room/redis_store.py:68-80 | For any number of Redis calls whose commands interleave in any way: once all have settled, the counter is what was granted less exactly what the increments overshot. So the books are right if and only if no increment found the counter over the limit, and then it ends within the limit. |
| RateLimit.OverlapIff | src/arena_onsale/waiting_room/redis_store.py:68-80 | Calls that all increment before any gives back keep the books exactly if all of them but the last fit within the limit together. |
| RateLimit.TwoOverlapIff | src/arena_onsale/waiting_room/redis_store.py:68-80 | For two calls: exactly if the first alone fits. |
| RateLimit.OverlapOverRefunds | src/arena_onsale/waiting_room/redis_store.py:77-80 | An instance in which they do not: the overlapping call gives back the first one's grant as well, after which the limit is exceeded. |
| RateLimit.RedisRate.TakeRateTokens | src/arena_onsale/waiting_room/redis_store.py:68-80 | The add-then-give-back code against the in-memory rule, other seconds untouched. |
| RateLimit.MinuteOfBudget | src/arena_onsale/waiting_room/keys.py:21-22 | Sixty seconds of budget cover the per-minute setting and exceed it by at most 59; below one per minute the budget is one per second. |
| Layout.RowLabel | src/arena_onsale/catalog/layout.py:39-45 | The loop computes the bijective base-26 label of the row. |
| Layout.ValueOfLetters | src/arena_onsale/catalog/layout.py:39-45 | Every label is made of capital letters, and reading it gives back the number it was made from. |
| Layout.LettersOfValue | src/arena_onsale/catalog/layout.py:39-45 | Writing the value of any string of capital letters gives back the string. |
| Layout.EveryLabelIsARow | src/arena_onsale/catalog/layout.py:39-45 | Every non-empty string of capital letters labels a row; with LabelsAreDistinct, exactly one. |
| Layout.LabelsAreDistinct | src/arena_onsale/catalog/layout.py:39-45 | Different rows have different labels. |
| Layout.Seats | src/arena_onsale/catalog/layout.py:31-36 | The nested loops yield the seats section by section, row by row, numbered from one. |
| Layout.SeatsAreDistinct | src/arena_onsale/catalog/layout.py:31-36 | With distinct section codes no location is yielded twice. |
| Layout.SeatsAreComplete | src/arena_onsale/catalog/layout.py:31-36 | Exactly the locations within the sections' rows and widths are yielded. |
| Layout.CapacityIsCount | src/arena_onsale/catalog/layout.py:27-29 | As many seats are yielded as the assigned capacity says. |
| Layout.SectionCapacity | src/arena_onsale/catalog/layout.py:27-29 | Section by section the two agree exactly when both counts are non-negative or one of them is zero. |

## Left out

- HTTP routers, schemas, the admission dependency, health, metrics, wiring and settings loading: plumbing.
- SQLAlchemy, asyncpg, PgBouncer and Redis client internals, the ORM identity map and attribute expiry: only committed rows, conditional updates with row counts, unique keys and rollback are kept.
- Read-committed interleavings inside `confirm_ga`: excluded by the assumption above. Two attempts on one order are looked at from the point at which the first has ended.
- Redis time-to-live: seat locks may vanish because nothing in `Booking` reads them; the two-second life of a rate key, and the other methods of the Redis waiting-room store, are not modelled.
- Seat-map cache and `assemble_seat_map`: display only, approximate by design.
- Load generator, seed chunking and `batch_ranges`: simple partitions that would add only easy members.
- Float timestamps: times are integers, in microseconds where the epoch second matters.
- Randomness of tokens, ids and jitter: fresh values, and any value in the window.
- Texts of messages, failure reasons, event payloads, currency, creation times of orders and holds, log output.
- Durability of `MockPsp`, which keeps its results in memory: the ledger is assumed to survive.
- Seats held by `RELEASED` holds: no code writes that status.
- PaymentProvider.MockPsp.Charge: the amount is kept beside the result for the money theorem; the code discards it.
- Checkout.CheckoutService.Checkout: assumes that no other live attempt is driving the order, and one request runs undisturbed here; interleavings with other requests and workers are covered by the steps of `Booking`, not by this method.
- Expiry.ExpireGa: the rivals may write any pool between read and update, also one this pass has already written, which the row lock of the database would prevent: more interference than there is.
- Worker.RunOnce: a tick of the waiting room that raises does so before it has changed anything; one that raises half-way is not modelled.
- Outbox.PublishOutbox: a row's position stands for its id in the order of delivery.
- Worker.PassIsSteps: speaks of passes during which nobody else writes; the transactions of others are steps of `Booking` between those of the pass.
- WaitingRoomService.WaitingRoomService.Join: `supply` lists what the token factory will give out, assumed unused and long enough.
- HoldService.HoldService.Reserve: other transactions may commit between the key look-up and the row locks; after that the row locks keep them out. A lock command that raises part-way leaves the locks taken before it to their time-to-live; every lock command answers here.
- WaitingRoomRuns.JoinConservesIff: the time-to-live of a shopper is positive, as in the settings; otherwise those let in are gone at once.
- RateLimit.OverlapIff: calls that ask for nothing, or with a limit below one, issue no command and do not overlap with anything.
- Layout.RowLabel: negative indices, on which the loop of the original would not end, are not callers of it.
