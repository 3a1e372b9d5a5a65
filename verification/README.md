# Reservation, settlement and bus scheduling: a verified model

This project models the engine behind a bus-ticketing backend and proves what its services promise together.
The services look like independent record keeping, but they share tables: seat holds that lapse with the clock,
payments confirmed by cashiers and by provider webhooks, tickets with one-time tokens, commissions, idempotent
creation, a price history, and a schedule in which trips and maintenance compete for buses. No single function
states what holds across them; the theorems here do, for every run and every interleaving.

Run `dafny verify dfyconfig.toml` in this directory.

## How the model is built

- **Tables and statements.** `Tables` holds one datatype per row. A table is a sequence whose positions are the row
  ids. `Reservation` says, as functions on the tables, what every SQL statement does and what every service call
  commits; `Execute` is one call as one transaction with one instant, `Run` a whole run of calls. `Database` and
  `Services` are the same statements and services in the form the source has, with mutable tables, loops and
  rollback, each proved to leave exactly the specified tables. The table below lists those with loops or several
  statements; the methods for a single statement are proved in the same way.
- **The joint invariant.** `Invariants` states it table by table; `HoldProofs`, `SettlementProofs` and `TicketProofs`
  carry it through every statement; `RunProofs` through every call and run. `Availability`, `Webhooks`,
  `Idempotency`, `TicketRuns`, `Authorization` and `LateSuccess` build on it, and `Scenarios` holds concrete runs.
- **Outcomes.** `BookingOutcomes`, `PaymentOutcomes`, `TicketOutcomes`, `ScheduleOutcomes`, `RouteOutcomes` and
  `AuditOutcomes` state for each operation, in plain terms of statuses, instants and rows, exactly when it succeeds and
  exactly what it then changes.
- **Interleaved protocols.** `BusSchedule` (trips against maintenance) and `RoutePrices` model transactions that
  really interleave: sessions advance one statement at a time, read committed rows, buffer writes until COMMIT and
  wait for locked rows. `ScheduleServices` and `RoutePriceServices` are the same steps on mutable fields.
- **Pure parts.** `Identity` (roles, entitlements, branch scopes), `CanonicalJson` (the fingerprint text and a decoder
  for it), `CanonicalOrder` (which values it prints canonically), `RequestPayloads` (what the services hash) and
  `AuditSanitizer` (on arbitrary object graphs).

Constraints of the schema are modelled where the code relies on them: the active-seat index, one settled payment per
booking (SUCCEEDED, PARTIALLY_REFUNDED or REFUNDED, as the migration has it), unique payment and provider references,
ticket uniqueness, the layout triggers, the trip exclusion, the period constraints and the completion check on
maintenance. Each aborts the transaction. The index on active maintenance records is not assumed: it is proved never
to fire.

## What the code does and does not promise

- A late success on an expired or cancelled booking is settled and leaves that booking closed, because the result of
  `confirmBookingPaid` is ignored. So a SUCCEEDED payment does not imply a CONFIRMED booking:
  `Scenarios.LateSuccessIsReachable` is a run that reaches the contrary, `LateSuccess` gives the exact condition for
  webhooks and for cash. The converse holds and is proved.
- A refund never cancels a commission in a reachable state: its guard needs a cancelled booking, and a booking with a
  commission is CONFIRMED. `RunProofs.RefundNeverCancelsCommissions` states this for every reachable state;
  `Scenarios.RefundedCommissionIsReachable` is a run.
- `started_at` keeps the planned instant after maintenance starts. The model adds the instant of the start check as a
  history variable, and the guarantee for work in progress is about that instant.
- Issuing tickets skips a seat silently when a generated number or hash collides;
  `TicketProofs.IssueMakesBijection` gives the exact condition, `Scenarios.UnticketedSeatIsReachable` a run.
- `canonicalJson` sorts with `localeCompare`, which calls canonically equivalent keys equal. Then equal objects can print
  differently. `CanonicalOrder.CanonicalIffApart` gives the exact condition on the value: no object inside it has two
  defined keys that tie. Every payload the services hash meets it under every comparator that separates their fifteen
  ASCII keys; that two different requests never collide needs nothing of the comparator.
- The search count can be below the seat map when a reservation names a seat that is not in the current layout: the
  layout of a bus may change (`apps/backend/src/modules/buses/postgres-buses.repository.ts:90-93`).
  `Availability.SearchCountIsConservative` gives the exact condition, `Scenarios.SearchCountFallsShort` a run.

## Model

| member | source | states |
|---|---|---|
| `BusScheduleProofs.EveryInterleavingIsSafe` | apps/backend/src/modules/trips/trips.service.ts:87-255 | Under every interleaving of create, update, action, abort, clock and bus-change steps: no live trip meets a SCHEDULED window on its bus, none arrives after the actual start of IN_PROGRESS work, at most one active record per bus, IN_PROGRESS never on an ACTIVE bus, IN_MAINTENANCE only with work in progress |
| `BusScheduleProofs.TakeKeepsInv` | apps/backend/src/modules/maintenance/maintenance.service.ts:42-144 | Each single statement of any session, and each move of the environment, keeps the committed safety, the lock table, the event log and everything every other open session relies on |
| `BusScheduleProofs.StaleReadIsNeverWritten` | apps/backend/src/modules/trips/trips.service.ts:202-241 | The read before the lock is safe: if the conditional write finds its expected version, the row it overwrites is the row that was read, on the locked bus, and the window it writes is the one checked under the lock |
| `BusScheduleProofs.SessionFrame` | apps/backend/src/modules/trips/postgres-trips.repository.ts:221-227 | What an open session has checked survives every commit of other sessions: version bumps on every trip change, and bus-row locks on everything else |
| `BusScheduleProofs.NoOpenEndedOverlap` | apps/backend/src/modules/maintenance/postgres-maintenance.repository.ts:75-94 | Starting work checks a window reaching to infinity, so it succeeds only if every live trip of the bus has arrived |
| `BusScheduleProofs.NoOverlapOpens` | apps/backend/src/modules/maintenance/postgres-maintenance.repository.ts:168-188 | A negative overlap query means no SCHEDULED window meets the trip window |
| `BusScheduleProofs.InsertTripSafe` | apps/backend/src/modules/trips/postgres-trips.repository.ts:156-187 | Inserting a trip whose window was checked under the lock keeps the tables safe, touches no other bus and logs exactly one TRIP_CREATED |
| `BusScheduleProofs.UpdateTripSafe` | apps/backend/src/modules/trips/postgres-trips.repository.ts:189-232 | The version-guarded update keeps the tables safe, raises the version and logs nothing |
| `BusScheduleProofs.InsertRecordSafe` | apps/backend/src/modules/maintenance/maintenance.service.ts:55-77 | A record inserted after both checks under the lock meets no live trip and is the only active one on its bus |
| `BusScheduleProofs.LogReplaysToStatus` | apps/backend/src/modules/trips/trips.service.ts:271-294 | Replaying the events of a trip (created SCHEDULED, DEPARTED to ONGOING, ARRIVED to COMPLETED, CANCELLED) yields its committed status, in every run |
| `BusScheduleProofs.TransactionsRespectRetiredBuses` | apps/backend/src/modules/maintenance/postgres-maintenance.repository.ts:145-166 | No statement of any transaction changes a bus that is OUT_OF_SERVICE or ARCHIVED; in particular closing work leaves it alone |
| `BusScheduleProofs.ActiveIndexNeverFires` | apps/backend/src/modules/maintenance/postgres-maintenance.repository.ts:61-73 | The unique index on active records never has to refuse an insert: the check under the bus lock already excludes it |
| `BusScheduleProofs.SomeoneCanMove` | apps/backend/src/modules/trips/postgres-trips.repository.ts:109-124 | No deadlock: bus rows are locked before trip rows, so whenever a session is open some session can take its next statement |
| `BusScheduleProofs.TripsMoveForward` | apps/backend/src/modules/trips/trip-transitions.ts:48-68 | One step of anything edits a trip row only while it is SCHEDULED, raising its version, or moves it along one edge of the matrix |
| `BusScheduleProofs.TripsEvolveForEver` | apps/backend/src/modules/trips/trip-transitions.ts:48-68 | Over every run of every interleaving: the bus of a trip never changes, its window not once it is started or closed, nothing once it is COMPLETED or CANCELLED, and nothing while its version stays |
| `BusScheduleProofs.WorkMovesForward` | supabase/migrations/20260722170000_017_maintenance_commissions_engine.sql:22-80 | One step moves a maintenance record at most along one edge of its matrix, with bus and plan untouched |
| `BusScheduleProofs.WorkEvolvesForEver` | supabase/migrations/20260722170000_017_maintenance_commissions_engine.sql:22-80 | Over every run: bus and plan of a record never change, its actual start not once started, nothing once it is closed |
| `ScheduleOutcomes.TripActionCommit` | apps/backend/src/modules/trips/trip-transitions.ts:48-68 | Under any interleaving, a committed start moves its trip from SCHEDULED to ONGOING and logs DEPARTED, complete ONGOING to COMPLETED and ARRIVED, cancel SCHEDULED to CANCELLED and CANCELLED; version plus one, every other column, row and table kept |
| `ScheduleOutcomes.TripActionAlone` | apps/backend/src/modules/trips/trips.service.ts:262-295 | Undisturbed, an action commits exactly when the trip is in the status it starts from; otherwise no table changes |
| `ScheduleOutcomes.CreateTripCommit` | apps/backend/src/modules/trips/trips.service.ts:103-168 | Under any interleaving, a trip is committed only on a bus in service, with exactly the given bus and window, SCHEDULED in version 1, clear of planned work and of every other live trip |
| `ScheduleOutcomes.CreateTripAlone` | apps/backend/src/modules/trips/trips.service.ts:103-168 | Undisturbed, a creation commits exactly when the bus is in service, the window is not empty, and planned work and live trips leave it free |
| `ScheduleOutcomes.UpdateTripCommit` | apps/backend/src/modules/trips/postgres-trips.repository.ts:189-232 | Under any interleaving, a committed edit stores exactly the instants given on the SCHEDULED row of the expected version, or no table changes |
| `ScheduleOutcomes.UpdateTripAlone` | apps/backend/src/modules/trips/trips.service.ts:193-255 | Undisturbed, an edit commits exactly when the trip is SCHEDULED in the expected version on a bus in service and its new window is not empty and free |
| `ScheduleOutcomes.CreateRecordCommit` | apps/backend/src/modules/maintenance/maintenance.service.ts:55-77 | Under any interleaving, work is planned only on a usable bus with no active work, with the given window, clear of every live trip |
| `ScheduleOutcomes.CreateRecordAlone` | apps/backend/src/modules/maintenance/maintenance.service.ts:55-77 | Undisturbed, a plan commits exactly under those conditions |
| `ScheduleOutcomes.RecordActionCommit` | apps/backend/src/modules/maintenance/maintenance.service.ts:94-131 | Under any interleaving, a committed start moves the record from SCHEDULED to IN_PROGRESS and its ACTIVE bus to IN_MAINTENANCE; complete IN_PROGRESS to COMPLETED, cancel SCHEDULED or IN_PROGRESS to CANCELLED, and a bus IN_MAINTENANCE and not deleted is ACTIVE again; any other bus row, and every other row, stays |
| `ScheduleOutcomes.RecordActionAlone` | apps/backend/src/modules/maintenance/maintenance.service.ts:94-131 | Undisturbed, an action commits exactly when the record is in a status it starts from, its bus is not deleted, start finds the bus ACTIVE with every live trip arrived, and completion does not precede the planned beginning |
| `ScheduleOutcomes.RetiredByHand` | apps/backend/src/modules/maintenance/postgres-maintenance.repository.ts:145-166 | Over every run, a bus becomes OUT_OF_SERVICE or ARCHIVED only by being retired by hand: no trip and no maintenance does it |
| `ScheduleOutcomes.WorkQueryMeans` | apps/backend/src/modules/maintenance/postgres-maintenance.repository.ts:168-188 | The maintenance query finds an overlap exactly when a planned window or work in progress, open-ended, leaves no room |
| `ScheduleOutcomes.TripQueryMeans` | apps/backend/src/modules/maintenance/postgres-maintenance.repository.ts:75-94 | The trip query finds an overlap exactly when some live trip neither arrives by the beginning nor departs at the end or later |
| `ScheduleServices.ScheduleDatabase.HasLiveTripOverlap` | apps/backend/src/modules/maintenance/postgres-maintenance.repository.ts:75-94 | The query scans the live trips of the bus and finds one exactly if one meets the window, open-ended or not |
| `ScheduleServices.ScheduleDatabase.HasActiveMaintenanceOverlap` | apps/backend/src/modules/maintenance/postgres-maintenance.repository.ts:168-188 | The query scans active records, IN_PROGRESS ones reaching to infinity |
| `ScheduleServices.ScheduleDatabase.HasActive` | apps/backend/src/modules/maintenance/postgres-maintenance.repository.ts:61-73 | The query finds an active record of the bus exactly if there is one |
| `Availability.CreateSucceedsIffShownAvailable` | apps/backend/src/modules/bookings/bookings.service.ts:361-398 | In every reachable state, a valid request under a fresh key is booked exactly when the trip is bookable, a generated reference is free and every requested seat shows AVAILABLE in the public map at the same instant |
| `Availability.HoldSucceedsIffShown` | apps/backend/src/modules/bookings/bookings.service.ts:347-421 | The same for any passengers and either channel: seats must also be distinct |
| `Availability.NoSpuriousRefusal` | apps/backend/src/modules/bookings/bookings.service.ts:396-404 | "Already reserved" is only answered for a layout seat the public map shows taken at that instant |
| `Availability.InvalidMeansOutside` | apps/backend/src/modules/bookings/bookings.service.ts:396-404 | "Invalid selection" is only answered when a requested seat is not in the layout of the trip |
| `Availability.NoReferenceIsSaid` | apps/backend/src/modules/bookings/bookings.service.ts:366-386 | With every generated reference taken, a bookable trip answers that none is available |
| `Availability.IndexMeetsView` | apps/backend/src/modules/bookings/postgres-bookings.repository.ts:161-187 | After the sweep of the trip, the clock-free unique index and the clock-dependent view hold exactly the same seats |
| `Availability.SweepIsInvisible` | apps/backend/src/modules/bookings/postgres-bookings.repository.ts:161-187 | Running the sweep now changes neither the seat map nor the search count of any trip at any instant from now on |
| `Availability.SecondSweepIsEmpty` | apps/backend/src/modules/bookings/bookings.service.ts:361-364 | A second sweep at the same instant finds no booking and changes no table |
| `Availability.SeatMapExact` | apps/backend/src/modules/availability/postgres-availability.repository.ts:147-177 | The seat map is one row per layout seat, in layout order, AVAILABLE exactly when no active reservation names the seat |
| `Availability.SearchCountIsConservative` | apps/backend/src/modules/availability/postgres-availability.repository.ts:104-112 | The search count is AVAILABLE rows less active reservations outside the layout, floored at zero: never more than the map, and equal exactly when nothing is available or no active reservation is outside |
| `Scenarios.SearchCountFallsShort` | apps/backend/src/modules/buses/postgres-buses.repository.ts:90-93 | A concrete run in which the bus gets another layout: the map shows two AVAILABLE seats, the search count none |
| `Availability.TakenLabelsAreReservations` | apps/backend/src/modules/availability/postgres-availability.repository.ts:184-197 | Taken labels and active reservations of the layout are equally many: distinct labels, one active reservation each |
| `Availability.SeatMapShowsOccupants` | apps/backend/src/modules/availability/postgres-availability.repository.ts:147-177 | In every reachable state a seat taken at the instant shows HELD or BOOKED and the gender of its own passenger, in its own row |
| `Availability.HoldLastsItsMinutes` | apps/backend/src/modules/bookings/postgres-bookings.repository.ts:258-300 | A new hold keeps its seats off the map for exactly the hold minutes of the company, after which the view frees them with no sweep |
| `Availability.PublicMapOutcome` | apps/backend/src/modules/availability/postgres-availability.repository.ts:132-200 | In any reachable state the public map is found exactly for a visible trip with seats: one row per seat, AVAILABLE exactly when no confirmed, used or running reservation names it, with both counts right |
| `RunProofs.ReachableIsGood` | apps/backend/src/modules/bookings/bookings.service.ts:60-421 | The joint invariant over bookings, seats, payments, tickets, commissions, events and idempotency records holds in every reachable state |
| `RunProofs.ExecuteKeepsInv` | apps/backend/src/modules/payments/payments.service.ts:97-600 | Every call at every instant keeps the joint invariant, and rows only evolve: snapshots immutable, statuses forward only, nothing removed |
| `RunProofs.ClosedForEver` | apps/backend/src/modules/bookings/booking-transitions.ts:1-26 | A CONFIRMED, CANCELLED or EXPIRED booking keeps its status and its snapshot in every later state, whatever calls follow |
| `RunProofs.SeatsFitBookings` | apps/backend/src/modules/payments/postgres-payments.repository.ts:426-448 | HELD bookings have only HELD seats, EXPIRED only RELEASED, CANCELLED only CANCELLED, CONFIRMED only CONFIRMED or CHECKED_IN, and every hold ends when its booking does |
| `RunProofs.ConfirmedMeansPaidOnce` | apps/backend/src/modules/payments/payments.service.ts:538-570 | A CONFIRMED booking has exactly one payment that is SUCCEEDED or REFUNDED; an open booking has none |
| `RunProofs.LogAccountsForState` | apps/backend/src/modules/payments/payments.service.ts:415-439 | Per booking: one BOOKING_CREATED; EXPIRED and CANCELLED once exactly when that is the status; PAYMENT_PENDING counts payments, PAYMENT_CONFIRMED the SUCCEEDED or REFUNDED ones, both refund events the REFUNDED ones, CHECKED_IN the used tickets |
| `RunProofs.LogOnlyGrows` | apps/backend/src/modules/bookings/postgres-bookings.repository.ts:345-359 | The event log of any later state extends the earlier one |
| `RunProofs.MoneyReceivedIsAllOrNothing` | apps/backend/src/modules/payments/postgres-payments.repository.ts:231-261 | The total is unit price times seats, and the SUCCEEDED amounts of a booking sum to the total or to nothing |
| `RunProofs.CommissionsAreFair` | apps/backend/src/modules/commissions/postgres-commissions.repository.ts:70-99 | Every commission sits on a CONFIRMED booking, has its total as base, is unique per membership and booking, lies within 0..base and within half a minor unit of the exact share, halves rounded up |
| `RunProofs.CommissionIsRounded` | apps/backend/src/modules/commissions/postgres-commissions.repository.ts:80-84 | The rounded amount is at most the total and is the share rounded to the nearest minor unit, halves up, for every rate up to 100 percent |
| `RunProofs.InsertPaymentExact` | apps/backend/src/modules/payments/payments.service.ts:222-238 | The attempts loop succeeds exactly when the booking is open and one remaining reference is free, and adds that one PENDING row |
| `RunProofs.PaymentCreatedExactly` | apps/backend/src/modules/payments/payments.service.ts:210-268 | Under a fresh key a payment is created exactly when its booking is open and unexpired, a reference is free and (online) the provider reference is new; an earlier settlement is never in the way |
| `RunProofs.SettleExact` | apps/backend/src/modules/payments/payments.service.ts:538-570 | A settlement stamps the payment, confirms exactly an open booking with exactly its held seats, and logs one event; a closed booking is left alone |
| `Scenarios.LateSuccessIsReachable` | apps/backend/src/modules/payments/payments.service.ts:563-563 | A concrete run (create, pay, expire, late webhook) reaches a SUCCEEDED payment on an EXPIRED booking |
| `LateSuccess.WebhookConfirmsIffOpen` | apps/backend/src/modules/payments/payments.service.ts:538-570 | A settling webhook leaves its booking CONFIRMED exactly when it was open; otherwise bookings, seats and commissions stay as they were |
| `LateSuccess.CashConfirmsIffOpen` | apps/backend/src/modules/payments/payments.service.ts:352-388 | The same for a confirmed cash payment |
| `RunProofs.ConfirmedCannotSettle` | apps/backend/src/modules/payments/postgres-payments.repository.ts:388-424 | A second settlement of a CONFIRMED booking always fails: its settled payment is there already |
| `RunProofs.SettlementEarns` | apps/backend/src/modules/commissions/postgres-commissions.repository.ts:70-99 | Settling an open booking leaves it exactly one commission per active agent membership of its booker, with that rate on the total, and no other; settling a closed booking earns nothing |
| `RunProofs.RefundNeverCancelsCommissions` | apps/backend/src/modules/commissions/postgres-commissions.repository.ts:127-147 | In every reachable state a successful refund changes the payment and no commission: a booking that has one is CONFIRMED and stays so, which the guard of applyFullRefund excludes |
| `Scenarios.RefundedCommissionIsReachable` | apps/backend/src/modules/commissions/postgres-commissions.repository.ts:127-147 | A concrete run refunds a payment in full, and the commission earned on it is still EARNED |
| `RunProofs.PaymentsCopyBookings` | apps/backend/src/modules/payments/postgres-payments.repository.ts:231-261 | Every payment carries the total and the currency of its booking |
| `RunProofs.TicketsFollowSeats` | apps/backend/src/modules/tickets/postgres-tickets.repository.ts:371-412 | A seat is CHECKED_IN exactly when its one ticket is; a ticket is never both used and revoked, and sits on a CONFIRMED booking |
| `RunProofs.EventsNameTheirCompany` | apps/backend/src/modules/bookings/postgres-bookings.repository.ts:345-359 | Every event names an existing booking and the company of that booking |
| `HoldProofs.LapsedIdsExact` | apps/backend/src/modules/bookings/postgres-bookings.repository.ts:166-174 | The sweep returns exactly the open bookings of the company, and trip if given, whose hold has ended, each once |
| `HoldProofs.ExpiryEventCount` | apps/backend/src/modules/bookings/bookings.service.ts:339-341 | The expiry loop writes one EXPIRED event for each returned booking and nothing for any other |
| `HoldProofs.InsertPassengersExact` | apps/backend/src/modules/bookings/bookings.service.ts:389-393 | The passenger loop succeeds exactly on distinct, free layout seats and appends one passenger and one held seat each |
| `HoldProofs.InsertWithRetryExact` | apps/backend/src/modules/bookings/bookings.service.ts:366-386 | The reference loop succeeds exactly when one of its references is free and inserts the one snapshot-priced row |
| `HoldProofs.CreateHoldExact` | apps/backend/src/modules/bookings/bookings.service.ts:347-407 | When createClaimed succeeds, and exactly which tables it leaves |
| `HoldProofs.SweepKeepsCore` | apps/backend/src/modules/bookings/postgres-bookings.repository.ts:161-187 | Expiring lapsed holds keeps the joint invariant |
| `HoldProofs.CancelKeepsCore` | apps/backend/src/modules/bookings/postgres-bookings.repository.ts:670-691 | Cancelling with its seats and event keeps the joint invariant |
| `BookingOutcomes.PassengerCreateOutcome` | apps/backend/src/modules/bookings/bookings.service.ts:60-103 | In any reachable state, under a free key: the create succeeds exactly for a valid request on a bookable trip whose seats all show AVAILABLE, with a new reference; then exactly one booking at the price of the trip per passenger, held for the hold minutes, with its passengers, seats, event and record, is added, and the trip is swept |
| `BookingOutcomes.AgentCreateOutcome` | apps/backend/src/modules/bookings/bookings.service.ts:105-167 | The same for agents: success also needs a membership that may create bookings in the branch and a trip of the company; otherwise the answer is forbidden or not bookable. The booking carries that branch |
| `BookingOutcomes.CancelOwnedOutcome` | apps/backend/src/modules/bookings/bookings.service.ts:246-275 | A passenger cancels exactly their own HELD or PENDING_PAYMENT online booking of which nobody has boarded; then exactly that booking, its held and confirmed seats and one event change |
| `BookingOutcomes.CancelCompanyOutcome` | apps/backend/src/modules/bookings/bookings.service.ts:277-333 | The same for a company, by an actor who may cancel bookings on the branch of the booking |
| `BookingOutcomes.OpenIsCancellable` | apps/backend/src/modules/bookings/booking-transitions.ts:8-12 | In every reachable state an open booking can be cancelled, and every one of its seats is then CANCELLED |
| `BookingOutcomes.SweepOutcome` | apps/backend/src/modules/bookings/postgres-bookings.repository.ts:161-187 | A sweep expires exactly the open bookings of the company, and trip if named, whose hold has ended, releases exactly their held seats, and logs one event for each in order |
| `BookingOutcomes.ExpireOutcome` | apps/backend/src/modules/bookings/bookings.service.ts:335-345 | The scheduled expiry of a company is that sweep over all its trips |
| `SettlementProofs.ChangedMeansMoves` | apps/backend/src/modules/payments/postgres-payments.repository.ts:388-424 | A conditional payment update that changed a row moved it along the matrix and collides with no other payment |
| `SettlementProofs.SettledKeepsCore` | apps/backend/src/modules/payments/payments.service.ts:538-596 | Settling (payment, booking and seats, event, commissions) keeps the joint invariant even when the booking was already closed |
| `SettlementProofs.RefundKeepsCore` | apps/backend/src/modules/payments/payments.service.ts:415-439 | A full refund with its two events keeps the joint invariant |
| `SettlementProofs.CreateEligibleExact` | apps/backend/src/modules/commissions/postgres-commissions.repository.ts:70-99 | Every membership that joins has its row afterwards, every added row is one such membership's and was not there before, and existing rows stay |
| `PaymentOutcomes.PassengerPaymentOutcome` | apps/backend/src/modules/payments/payments.service.ts:97-135 | In any reachable state, under a free key: a payment is made exactly for an online method on an own online booking that is open and unexpired, with new references; then exactly one PROCESSING row with the total of the booking, its event and its record are added |
| `PaymentOutcomes.CompanyPaymentOutcome` | apps/backend/src/modules/payments/payments.service.ts:137-177 | The same for a company and any method (cash and other PENDING), by an actor who may confirm payments on the branch of the booking |
| `PaymentOutcomes.ConfirmCashOutcome` | apps/backend/src/modules/payments/payments.service.ts:352-388 | A cash payment is confirmed exactly when it is PENDING cash, the actor may, and no other payment of the booking was received; then payment, open booking, held seats, event and commissions change exactly as stated |
| `PaymentOutcomes.RefundOutcome` | apps/backend/src/modules/payments/payments.service.ts:390-461 | In any reachable state a refund succeeds exactly on a SUCCEEDED payment the actor may refund; then only the payment row and two events, in order, change |
| `PaymentOutcomes.WebhookOutcome` | apps/backend/src/modules/payments/payments.service.ts:479-530 | A webhook is refused for another method, amount, currency or provider reference, ignored once the payment is decided; otherwise a success receives the payment, unless money or reference are taken, and a failure fails it, with exactly the stated rows |
| `PaymentOutcomes.StrayWebhookRefused` | apps/backend/src/modules/payments/payments.service.ts:479-490 | A webhook that names no payment is refused |
| `Webhooks.FirstDecisiveIsAll` | apps/backend/src/modules/payments/payments.service.ts:479-527 | For any list of events naming one payment, duplicated, reordered or mismatched, every table ends as after the first decisive event alone, or unchanged if there is none |
| `Webhooks.IndecisiveChangesNothing` | apps/backend/src/modules/payments/payments.service.ts:491-515 | A mismatch, an illegal edge or a unique violation leaves every table as it was |
| `Webhooks.FailureNeverDecidesPending` | apps/backend/src/modules/payments/payment-transitions.ts:16-31 | A failure event never decides a PENDING payment |
| `Webhooks.DecisiveWithoutRival` | apps/backend/src/modules/payments/payments.service.ts:506-527 | With no rival success and an unused provider reference, decisive is: matching snapshot and a legal edge |
| `Webhooks.SuccessEffectsAtMostOnce` | apps/backend/src/modules/payments/payments.service.ts:538-570 | Over all deliveries at most one PAYMENT_CONFIRMED is ever written for the booking, and exactly one if any booking row moved |
| `Webhooks.LateWebhookIsNoOp` | apps/backend/src/modules/payments/payment-transitions.ts:16-43 | Once decided, a payment ignores every webhook in every later state of any run |
| `Idempotency.RecordsAreComplete` | apps/backend/src/modules/bookings/postgres-bookings.repository.ts:239-256 | Every committed record is complete and points at an existing resource of its own scope made for its own request |
| `Idempotency.ConflictMeansDifferent` | apps/backend/src/modules/bookings/postgres-bookings.repository.ts:221-236 | A live record answers conflict exactly to a different fingerprint and replay exactly to the same one |
| `Idempotency.RefusalChangesNothing` | apps/backend/src/infrastructure/database/transaction.manager.ts:66-103 | A refused call leaves all tables, and so its key, as they were |
| `Idempotency.CreateOrReplay` | apps/backend/src/modules/payments/postgres-payments.repository.ts:162-229 | Every answered resource was replayed from a live record without any change, or is new and recorded for one lifetime |
| `Idempotency.RecordOutlivesRun` | apps/backend/src/modules/bookings/postgres-bookings.repository.ts:198-211 | No call changes a record before it expires |
| `Idempotency.AtMostOnce` | apps/backend/src/modules/bookings/postgres-bookings.repository.ts:189-237 | While a record lives, every successful call under its scope and key has the recorded fingerprint, answers the recorded resource and changes no table |
| `Idempotency.SecondResourceOnlyAfterExpiry` | apps/backend/src/modules/payments/postgres-payments.repository.ts:169-190 | If no call is later than the last, a key makes a second resource only a full lifetime after the first |
| `Idempotency.PassengerNeverLosesBooking` | apps/backend/src/modules/bookings/bookings.service.ts:60-103 | A fresh or replayed passenger create never answers "not found" |
| `Idempotency.AgentNeverLosesBooking` | apps/backend/src/modules/bookings/bookings.service.ts:126-164 | A permitted agent create never answers "not found", even if memberships changed before the replay |
| `Idempotency.PaymentNeverLost` | apps/backend/src/modules/payments/payments.service.ts:97-135 | A passenger payment create always finds the payment it made or replays |
| `Idempotency.CompanyPaymentNeverLost` | apps/backend/src/modules/payments/payments.service.ts:137-177 | A company payment create always finds the payment it made or replays |
| `TicketProofs.IssueMakesBijection` | apps/backend/src/modules/tickets/tickets.service.ts:69-106 | After a successful issue, tickets and seats of the booking are a bijection exactly when the generated numbers and hashes were unused |
| `TicketProofs.IssueCompleteIffFresh` | apps/backend/src/modules/tickets/postgres-tickets.repository.ts:186-206 | ON CONFLICT DO NOTHING skips a seat exactly when its draft repeats a number or hash; otherwise every seat gets the ticket drafted for it |
| `Scenarios.UnticketedSeatIsReachable` | apps/backend/src/modules/tickets/postgres-tickets.repository.ts:186-206 | A concrete run with a generator that repeats itself: issuing succeeds on a confirmed, paid booking, and its second seat has no ticket |
| `TicketProofs.IssueAgainIsNoOp` | apps/backend/src/modules/tickets/tickets.service.ts:97-105 | Once every seat is ticketed, issuing again changes no table and returns no raw token |
| `TicketProofs.TokensMatchHashes` | apps/backend/src/modules/tickets/tickets.service.ts:85-95 | The stored hash and the returned raw token of a new ticket come from one generated token |
| `TicketProofs.CheckInKeepsCore` | apps/backend/src/modules/tickets/tickets.service.ts:174-200 | Validation moves ticket, seat and log together and keeps the joint invariant |
| `TicketProofs.RevokeKeepsCore` | apps/backend/src/modules/tickets/tickets.service.ts:233-247 | Revocation keeps the joint invariant: a used ticket is never revoked |
| `TicketProofs.VerifyAgreesWithValidate` | apps/backend/src/modules/tickets/tickets.service.ts:209-225 | Verifying a token answers valid exactly when validating its ticket in that state would succeed |
| `TicketOutcomes.ValidateOutcome` | apps/backend/src/modules/tickets/tickets.service.ts:167-207 | In any reachable state a ticket passes exactly when it is unused, unrevoked, its booking CONFIRMED and paid, and the actor may validate on its branch; then ticket, seat and log change together |
| `TicketOutcomes.VerifyOutcome` | apps/backend/src/modules/tickets/tickets.service.ts:209-225 | Verifying the token of a ticket names that ticket and the first reason it would be refused, to exactly those who may validate it |
| `TicketOutcomes.RevokeOutcome` | apps/backend/src/modules/tickets/tickets.service.ts:227-247 | A ticket is revoked exactly when it is neither used nor revoked and the actor may; only its stamp changes |
| `TicketOutcomes.OwnerIssueOutcome` | apps/backend/src/modules/tickets/tickets.service.ts:41-106 | The owner is issued tickets exactly for a CONFIRMED, paid booking that has a ticket or gets one from an unused draft; with unused drafts every awaiting seat gets the ticket drafted for it |
| `TicketOutcomes.CompanyIssueOutcome` | apps/backend/src/modules/tickets/tickets.service.ts:53-106 | The same for a company, by an actor who may issue tickets on the branch of the booking |
| `TicketOutcomes.NothingIssuedIff` | apps/backend/src/modules/tickets/postgres-tickets.repository.ts:186-206 | Issuing adds no ticket exactly when every draft repeats a number or hash of an existing ticket |
| `TicketOutcomes.IssueAnswers` | apps/backend/src/modules/tickets/tickets.service.ts:97-106 | The answer names exactly the tickets of the booking, in order, with a token for exactly those made by this call |
| `TicketRuns.EachTokenHandedOutOnce` | apps/backend/src/modules/tickets/tickets.service.ts:97-105 | Over any run, each ticket made in it has its raw token returned exactly once, by the call that made it |
| `RoutePrices.EveryInstantHasOnePrice` | apps/backend/src/modules/routes/postgres-route-prices.repository.ts:46-114 | Under every interleaving, a route has a gapless timeline with one open period, last, mirrored on the live route; each instant since creation has exactly one price and none before |
| `RoutePrices.UnmatchedChangeAborts` | apps/backend/src/modules/routes/postgres-route-prices.repository.ts:85-112 | A racing change whose close matched no row changes no table |
| `RoutePrices.ChangeCommitsIff` | apps/backend/src/modules/routes/route-prices.service.ts:77-91 | A change commits exactly when its close matched the open row at an instant after that period began |
| `RoutePrices.ChangeKeepsThePast` | apps/backend/src/modules/routes/postgres-route-prices.repository.ts:85-112 | A committed change is in force from its boundary on and alters the price at no earlier instant, nor of any other route |
| `RoutePrices.ClosedPeriodsAreForEver` | apps/backend/src/modules/routes/postgres-route-prices.repository.ts:71-114 | No period ever disappears, and a closed one never changes again |
| `RoutePrices.TimelinesAccepted` | supabase/migrations/20260716192400_005_fleet_routes.sql:70-75 | Timelines satisfy the period check, the exclusion constraint and the single open period |
| `RouteOutcomes.NewRouteHasItsPrice` | apps/backend/src/modules/routes/routes.service.ts:86-94 | A new route is live with the given price, and has had exactly that price since the instant of its creation and none before |
| `RouteOutcomes.NewRouteLeavesOthers` | apps/backend/src/modules/routes/routes.service.ts:86-94 | Creating a route changes the history of no other route |
| `RouteOutcomes.PriceIsTheLastOffer` | apps/backend/src/modules/routes/postgres-route-prices.repository.ts:46-114 | In every run the price of a route at an instant is that of its last committed change in force by then, else the one it was created with |
| `RouteOutcomes.FirstOfferIsCreation` | apps/backend/src/modules/routes/postgres-route-prices.repository.ts:46-69 | The first price of a route is the one of the step that created it |
| `RouteOutcomes.ChangeAlone` | apps/backend/src/modules/routes/route-prices.service.ts:77-91 | Undisturbed on a live route, a change closes the open period now, opens the new price there and mirrors it on the route, exactly if the open period began earlier |
| `RouteOutcomes.NoRouteNoChange` | apps/backend/src/modules/routes/route-prices.service.ts:77-91 | On a missing or deleted route a change gives up and changes nothing |
| `RoutePriceServices.PriceDatabase.FindOpenPeriod` | apps/backend/src/modules/routes/postgres-route-prices.repository.ts:85-91 | The close finds the open period of the route exactly if there is one |
| `CanonicalJson.ValueDecodes` | apps/backend/src/modules/bookings/bookings.service.ts:529-542 | A decoder inverts the printer: it returns the meaning of the printed value and stops where its text ends |
| `CanonicalJson.BodyDecodes` | apps/backend/src/modules/bookings/bookings.service.ts:540-540 | Quoting as in section 7 of RFC 8259, with lone surrogates escaped, is inverted code unit for code unit |
| `CanonicalJson.EqualTextsMeanEqualValues` | apps/backend/src/modules/bookings/bookings.service.ts:529-542 | No collision, whatever the comparator: equal texts come from values equal up to key order and dropped undefined fields |
| `CanonicalOrder.EqualValuesPrintEqually` | apps/backend/src/modules/bookings/bookings.service.ts:534-538 | A value in which no object has two defined keys that tie prints like every value equal to it |
| `CanonicalOrder.NotApartHasTwin` | apps/backend/src/modules/bookings/bookings.service.ts:534-538 | Any other value has a twin that means the same and prints differently: two tied fields exchanged, at whatever depth |
| `CanonicalOrder.TiedFieldsSplit` | apps/backend/src/modules/bookings/bookings.service.ts:537-537 | Exchanging two tied fields of an object keeps its meaning and changes its text, because the sort is stable |
| `CanonicalOrder.TiesSplitEqualObjects` | apps/backend/src/modules/bookings/bookings.service.ts:537-537 | For instance two objects over any two different keys that tie, such as two encodings of one accented letter |
| `CanonicalOrder.CanonicalIffApart` | apps/backend/src/modules/bookings/bookings.service.ts:529-542 | For a consistent comparator, a value prints like every value equal to it if and only if no object inside it has two defined keys that tie |
| `CanonicalOrder.SeparatedIsApart` | apps/backend/src/modules/bookings/bookings.service.ts:534-538 | A comparator that tells the keys of a value apart makes it such a value |
| `CanonicalOrder.FingerprintsIdentifyRequests` | apps/backend/src/modules/bookings/bookings.service.ts:525-527 | With an injective hash, equal fingerprints mean equal values, for every comparator and value; and equal values have equal fingerprints whenever no keys of one of them tie |
| `RequestPayloads.PayloadIsApart` | apps/backend/src/modules/bookings/bookings.service.ts:68-123 | The payloads hashed for bookings and payments have no tied keys for every comparator that separates their fifteen ASCII keys |
| `RequestPayloads.PayloadsIdentifyRequests` | apps/backend/src/modules/bookings/bookings.service.ts:472-482 | Two requests, of either booking or payment kind, have payloads of the same meaning exactly when they are the same normalized request |
| `RequestPayloads.SameFingerprintIffSameRequest` | apps/backend/src/modules/payments/payments.service.ts:111-157 | However the objects at hand order their keys and carry undefined fields, two requests get the same fingerprint exactly when they are the same; that different ones never do needs nothing of the comparator |
| `AuditSanitizer.OutputIsClean` | apps/backend/src/modules/audit/audit.metadata.ts:40-69 | On every object graph, cycles through objects or arrays included, the output has only allowed keys at every level and at most eight levels; only a plain object is accepted at the root |
| `AuditSanitizer.FixedIffClean` | apps/backend/src/modules/audit/audit.metadata.ts:47-123 | Read back into whatever graph represents it, a tree is returned unchanged exactly when it is a clean object |
| `AuditSanitizer.SanitizingTwiceIsOnce` | supabase/migrations/20260716192800_009_maintenance_audit.sql:33-34 | Sanitizing on read returns exactly what the jsonb column gives back, whatever order it has put the keys of any object in |
| `AuditSanitizer.NeverSeen` | apps/backend/src/modules/audit/audit.metadata.ts:52-55 | On a graph that represents a finite tree the seen set never fires, even when nodes are shared |
| `AuditOutcomes.SanitizingPrunes` | apps/backend/src/modules/audit/audit.metadata.ts:40-123 | Metadata that unfolds to a finite shape, whatever parts it shares, is sanitized to that shape pruned of disallowed keys, unstorable values and everything below eight levels |
| `AuditOutcomes.ObjectKeeps` | apps/backend/src/modules/audit/audit.metadata.ts:47-69 | An object keeps exactly its allowed fields with a value that can be kept; a disallowed neighbour takes nothing with it |
| `AuditOutcomes.AllowedScalarIsKept` | apps/backend/src/modules/audit/audit.metadata.ts:98-106 | A scalar under an allowed key of the metadata is always kept |
| `AuditSanitizer.SanitizeObject` | apps/backend/src/modules/audit/audit.metadata.ts:47-69 | The property loop computes the specified object and leaves the seen set as it found it |
| `AuditSanitizer.SanitizeValue` | apps/backend/src/modules/audit/audit.metadata.ts:98-123 | The value walk computes the specified value and leaves the seen set as it found it |
| `AuditSanitizer.SanitizeAuditMetadata` | apps/backend/src/modules/audit/audit.metadata.ts:40-45 | The entry point computes the specified metadata |
| `Identity.DecisionsAgree` | apps/backend/src/modules/identity/entitlements.ts:34-99 | The per-membership check, the accumulated scope, the effective permissions and the branch read scope decide identically: one single membership grants the permission and reaches the branch |
| `Identity.DecisionDistributes` | apps/backend/src/modules/identity/entitlements.ts:89-99 | The decision over two lists of memberships is the disjunction of the two |
| `Identity.DecisionIsMonotone` | apps/backend/src/modules/identity/entitlements.ts:89-99 | More memberships never take a decision away |
| `Identity.CoupledWithinFlat` | apps/backend/src/modules/identity/branch-access.ts:36-57 | The decision is contained in the flat union of permissions against the flat union of branches |
| `Identity.FlatGrantsMore` | apps/backend/src/modules/identity/entitlements.ts:48-66 | Strictly: an agent of one branch and employee of another gains no create right in the other |
| `Identity.CreateImpliesRead` | apps/backend/src/modules/identity/role-permissions.ts:83-104 | Whoever may create bookings in a branch may read them there |
| `Identity.PermissionsForRolesIsUnion` | apps/backend/src/modules/identity/role-permissions.ts:111-121 | Filling a Set and filtering the catalog yields exactly the union of the rows of the roles |
| `Identity.ComputePermissionsForRoles` | apps/backend/src/modules/identity/role-permissions.ts:111-121 | The nested loops compute the permissions of the roles in catalog order |
| `Identity.ComputeBranchAccess` | apps/backend/src/modules/identity/branch-access.ts:36-57 | The loop computes the branch access: a company-wide role wins, otherwise the named branches |
| `Identity.ComputeEffectivePermissions` | apps/backend/src/modules/identity/entitlements.ts:68-87 | The loop accumulates the permissions of the memberships that reach the branch |
| `Identity.ComputeAccessScope` | apps/backend/src/modules/bookings/bookings.service.ts:505-519 | The loop accumulates the company-wide flag and the branches of the permission |
| `Identity.ComputeReadableBranchScope` | apps/backend/src/modules/branches/branch-access.policy.ts:32-61 | The loop computes the readable branches, company-wide first |
| `Authorization.OnlyThePermittedAct` | apps/backend/src/modules/bookings/bookings.service.ts:277-333 | A company call on an existing booking, payment or ticket that is not refused was made by an actor with an active membership granting the permission on the branch of that very booking |
| `Authorization.FoundMeansMayAct` | apps/backend/src/modules/bookings/postgres-bookings.repository.ts:374-387 | The scope filter of the queries finds a booking exactly for an actor who may act on it; a booking without branch needs a company-wide role |
| `Authorization.FindMembershipsExact` | apps/backend/src/modules/bookings/postgres-bookings.repository.ts:122-159 | The membership query returns exactly the active memberships of the actor in the company |
| `Authorization.OnlyThePermittedCreate` | apps/backend/src/modules/bookings/bookings.service.ts:126-134 | An agent create that is not refused, fresh or replayed, was made by an actor with an active membership that may create bookings in that very branch |
| `Authorization.RolesMay` | apps/backend/src/modules/identity/role-permissions.ts:83-104 | Admins and managers may do everything, also where there is no branch; employees and agents act only in their own branch, employees reading, agents also creating bookings and reading commissions; passengers nothing |
| `Database.Database.ReleaseExpired` | apps/backend/src/modules/bookings/postgres-bookings.repository.ts:161-187 | Exactly the lapsed bookings and their held seats move, and exactly their ids are returned |
| `Database.Database.CreateEligible` | apps/backend/src/modules/commissions/postgres-commissions.repository.ts:70-99 | Adds one commission per eligible membership that has none for the booking |
| `Services.BookingsService.CreatePassengerBooking` | apps/backend/src/modules/bookings/bookings.service.ts:60-103 | The transaction commits exactly the specified tables and answer, or rolls every table back |
| `Services.BookingsService.CreateHold` | apps/backend/src/modules/bookings/bookings.service.ts:347-407 | Sweep, reference attempts, passenger loop and event equal the specification |
| `Services.BookingsService.SweepExpired` | apps/backend/src/modules/bookings/bookings.service.ts:335-345 | Exactly the lapsed bookings and their held seats move, and the loop writes one event for each returned id |
| `Services.BookingsService.InsertBookingWithRetry` | apps/backend/src/modules/bookings/bookings.service.ts:366-386 | The three attempts equal the specification |
| `Services.BookingsService.SeatPassengers` | apps/backend/src/modules/bookings/bookings.service.ts:388-404 | The passenger loop stops at its first error exactly as the specification does |
| `Services.PaymentsService.InsertPaymentWithRetry` | apps/backend/src/modules/payments/payments.service.ts:222-238 | The three attempts equal the specification |
| `Services.PaymentsService.CreateClaimed` | apps/backend/src/modules/payments/payments.service.ts:179-282 | Claim or replay, insert with retries, log, open the provider settlement and complete the record, as specified |
| `Services.PaymentsService.CreatePassengerPayment` | apps/backend/src/modules/payments/payments.service.ts:97-135 | The transaction commits exactly the specified tables and answer, or rolls every table back |
| `Services.PaymentsService.Settle` | apps/backend/src/modules/payments/payments.service.ts:538-598 | Payment, booking and seats, event and commissions, in order, or nothing |
| `Services.PaymentsService.RefundPayment` | apps/backend/src/modules/payments/payments.service.ts:390-461 | Refunds a SUCCEEDED payment in scope with both events, or changes nothing |
| `Services.PaymentsService.HandleWebhook` | apps/backend/src/modules/payments/payments.service.ts:479-530 | Applies a matching event along a legal edge, acknowledges an illegal edge, or changes nothing |
| `Services.TicketsService.IssueSeats` | apps/backend/src/modules/tickets/tickets.service.ts:83-95 | The issuance loop inserts the drafted tickets and remembers the tokens of the inserted ones |
| `Services.TicketsService.Issue` | apps/backend/src/modules/tickets/tickets.service.ts:69-106 | Issues for a confirmed paid booking and lists its tickets, or changes nothing |
| `Services.TicketsService.ValidateTicket` | apps/backend/src/modules/tickets/tickets.service.ts:167-207 | Checks a ticket in with its seat and event, or changes nothing |

## Left out

- CreateSucceedsIffShownAvailable: the request is valid in the model's sense (1 to 20 distinct seats with labels of 1 to 20 characters); the remaining text-format checks of the request (names, phones, documents, key syntax) are not modelled, because they only refuse earlier.
- CanonicalIffApart: `localeCompare` is an arbitrary total, transitive comparator and a finite number is the text JSON gives it; locale data and number printing are not modelled.
- SameFingerprintIffSameRequest: SHA-256 is taken as an injective function; in `Reservation` the fingerprint is the request itself.
- EveryInterleavingIsSafe: company scoping of trips, buses and records is dropped, since rows of two companies never share a bus; route and staff checks appear only as aborts that may happen at any point.
- EveryInstantHasOnePrice: the author and reason of a price change are not modelled; a uniqueness conflict between open transactions is decided when they commit.
- AtMostOnce: response status and completion time of a record are not modelled.
- SanitizingTwiceIsOnce: of what a jsonb column may do to a stored object only the order of its keys is modelled, not the normalization of numbers.
- FirstDecisiveIsAll: signature verification and parsing of webhooks happen before the model starts; providers are abstracted to "the method is online" and one returned reference.
- Outside the bus and price protocols each service call is one atomic transaction with one instant: row locks and isolation of the other services are not interleaved.
- `expires_at` is never NULL in the model, because every insert of a booking sets it.
- Rows are never deleted; deletions and edits of catalog rows (companies, routes, stations, settings, layouts, memberships) appear as arbitrary changes of the trip and membership tables between calls.
- Audit rows, listings, pagination, mappers, controllers, guards, authentication, configuration, logging and health checks.
- Statuses no code enters (DRAFT, PENDING_PAYMENT, PARTIALLY_CANCELLED, COMPLETED bookings, PARTIALLY_REFUNDED payments, BOARDING trips) are kept in the enumerations without behaviour.
- Random references, tokens and ticket numbers are inputs of the calls; nothing is assumed about their freshness.
