/**
 * Concrete runs of the system that end where a reader of its documentation would not expect: a paid booking that
 * stays EXPIRED, an earned commission that survives the refund, a confirmed seat without a ticket, and a search
 * that shows fewer seats than the map.
 */
module Scenarios {
  import opened Wrappers
  import opened Counting
  import opened Identity
  import opened Tables
  import opened Reservation
  import opened Invariants
  import opened HoldProofs
  import opened SettlementProofs
  import opened TicketProofs
  import opened RunProofs
  import opened Authorization
  import opened Availability

  // ---------------------------------------------------------------- runs grow by one call

  lemma OneMoreCall(db: Db, calls: seq<Timed>, last: Timed)
    ensures Run(db, calls + [last]) == Execute(Run(db, calls), last.call, last.at).0
  {
    assert (calls + [last])[..|calls|] == calls;
  }

  /** A call takes a reachable state to a reachable state. */
  lemma ReachableStep(db: Db, call: Call, at: Instant)
    requires Reachable(db)
    ensures Reachable(Execute(db, call, at).0)
  {
    var trips: map<nat, Trip>, memberships: seq<Membership>, calls: seq<Timed> :|
      SurroundingsValid(trips, memberships) && db == Run(EmptyDb(trips, memberships), calls);
    OneMoreCall(EmptyDb(trips, memberships), calls, Timed(call, at));
  }

  // ---------------------------------------------------------------- the company and its one trip

  const LAYOUT: seq<string> := ["1", "2"]
  const TRIP := Trip(0, 500, "MRU", TripStatus.Scheduled, true, 1_000_000_000, true, Some(10), LAYOUT, 2)
  const AGENT := Membership(1, 7, 0, Some(1), Agent, true, 1_000)
  const MANAGER := Membership(2, 8, 0, None, CompanyManager, true, 0)
  const MEMBERS: seq<Membership> := [AGENT, MANAGER]

  function Opening(): Db {
    EmptyDb(map[0 := TRIP], MEMBERS)
  }

  lemma OpeningIsReachable()
    ensures Reachable(Opening())
  {
    assert LAYOUT[0] != LAYOUT[1];
    assert LayoutValid(TRIP);
    assert SurroundingsValid(map[0 := TRIP], MEMBERS);
    assert Run(EmptyDb(map[0 := TRIP], MEMBERS), []) == Opening();
  }

  // ---------------------------------------------------------------- user 7 books both seats on the web

  const INPUT := BookingInput(0, [PassengerInput("P", Gender.Female, "1"), PassengerInput("Q", Gender.Male, "2")])
  const HOLD_ENDS: Instant := 10 * MICROS_PER_MINUTE

  const HELD_BOOKING := Booking("ref", 0, 0, None, 7, Channel.Web, BookingStatus.Held, 500, 1_000, "MRU", HOLD_ENDS, 1)
  const FIRST_SEAT := Seat(0, 0, 0, "1", SeatStatus.Held, HOLD_ENDS)
  const SECOND_SEAT := Seat(0, 0, 1, "2", SeatStatus.Held, HOLD_ENDS)
  const BOTH_SEATS: seq<Seat> := [FIRST_SEAT, SECOND_SEAT]
  const BOTH_PASSENGERS: seq<Passenger> := [Passenger.Passenger(0, Gender.Female), Passenger.Passenger(0, Gender.Male)]
  const CREATED := Event(0, 0, Some(7), EventKind.BookingCreated)

  function BookingKey(): Key {
    Key(0, 7, Operation.CreatePassengerBooking, "k")
  }

  function CreateCall(): Call {
    CreateForPassenger(7, "k", INPUT, ["ref", "ref", "ref"])
  }

  function AfterCreate(): Db {
    Opening().(bookings := [HELD_BOOKING], passengers := BOTH_PASSENGERS, seats := BOTH_SEATS, events := [CREATED],
               records := map[BookingKey() := Record(PassengerBooking(INPUT), Some(0), None, IDEMPOTENCY_LIFETIME)])
  }

  function AfterClaim(): Db {
    ClaimedDb(Opening(), BookingKey(), PassengerBooking(INPUT), 0)
  }

  lemma NothingToSweep()
    ensures Sweep(AfterClaim(), 0, Some(0), 0) == AfterClaim()
  {
    var swept := Sweep(AfterClaim(), 0, Some(0), 0);
    assert swept.bookings == [] && swept.seats == [] && swept.events == [];
  }

  lemma BookingRowInserted()
    ensures InsertWithRetry(AfterClaim(), 0, 0, None, 7, Channel.Web, 2, ["ref", "ref", "ref"], 0, 0)
         == Success(AfterClaim().(bookings := [HELD_BOOKING]))
  {
    assert !ReferenceTaken(AfterClaim().bookings, "ref");
    assert NewBooking(TRIP, 0, None, 7, Channel.Web, 2, "ref", 0) == HELD_BOOKING;
    assert AfterClaim().bookings + [HELD_BOOKING] == [HELD_BOOKING];
    assert InsertBooking(AfterClaim(), 0, 0, None, 7, Channel.Web, 2, "ref", 0) == Some(AfterClaim().(bookings := [HELD_BOOKING]));
  }

  lemma SeatRowsInserted()
    ensures InsertPassengers(AfterClaim().(bookings := [HELD_BOOKING]), 0, 0, INPUT.passengers)
         == Success(AfterClaim().(bookings := [HELD_BOOKING], passengers := BOTH_PASSENGERS, seats := BOTH_SEATS))
  {
    var booked := AfterClaim().(bookings := [HELD_BOOKING]);
    InsertPassengersExact(booked, 0, 0, INPUT.passengers);
    assert LAYOUT[0] == "1" && LAYOUT[1] == "2" && LAYOUT[0] != LAYOUT[1];
    assert SeatsInsertable(booked, 0, INPUT.passengers);
    assert NewSeats(0, 0, 0, INPUT.passengers, HOLD_ENDS) == BOTH_SEATS;
    assert NewPassengers(0, INPUT.passengers) == BOTH_PASSENGERS;
    assert booked.seats + BOTH_SEATS == BOTH_SEATS && booked.passengers + BOTH_PASSENGERS == BOTH_PASSENGERS;
  }

  lemma HoldCreated()
    ensures CreateHold(AfterClaim(), 0, 0, None, 7, Channel.Web, INPUT.passengers, ["ref", "ref", "ref"], 0)
         == Success(AfterClaim().(bookings := [HELD_BOOKING], passengers := BOTH_PASSENGERS, seats := BOTH_SEATS, events := [CREATED]))
  {
    NothingToSweep();
    BookingRowInserted();
    SeatRowsInserted();
    assert |INPUT.passengers| == 2;
    assert AfterClaim().events + [CREATED] == [CREATED];
    assert SeatAndLog(AfterClaim().(bookings := [HELD_BOOKING]), 0, 0, 7, INPUT.passengers)
        == Success(AfterClaim().(bookings := [HELD_BOOKING], passengers := BOTH_PASSENGERS, seats := BOTH_SEATS, events := [CREATED]));
  }

  lemma InputIsValid()
    ensures ValidInput(INPUT)
  {
    assert |INPUT.passengers| == 2 && INPUT.passengers[0].seat != INPUT.passengers[1].seat;
  }

  lemma CreateStep()
    ensures Execute(Opening(), CreateCall(), 0).0 == AfterCreate()
  {
    HoldCreated();
    InputIsValid();
    var held := CreateHold(AfterClaim(), 0, 0, None, 7, Channel.Web, INPUT.passengers, ["ref", "ref", "ref"], 0).value;
    assert CompleteBooking(held, BookingKey(), 0) == AfterCreate();
    assert ClaimIdempotency(Opening(), BookingKey(), PassengerBooking(INPUT), 0) == Claimed(AfterClaim());
    assert CreatePassengerBookingTx(Opening(), 7, "k", INPUT, ["ref", "ref", "ref"], 0) == Success((AfterCreate(), 0));
  }

  lemma CreatedIsReachable()
    ensures Reachable(AfterCreate())
  {
    OpeningIsReachable();
    ReachableStep(Opening(), CreateCall(), 0);
    CreateStep();
  }

  // ---------------------------------------------------------------- and opens a payment

  const PENDING := Event(0, 0, Some(7), EventKind.PaymentPending)
  const OPEN_PAYMENT :=
    Payment(0, Bankily, PaymentStatus.Processing, 1_000, "MRU", Some("prov"), "pay", None, None)
  const EVENT := ProviderEvent("pay", "prov", true, 1_000, "MRU")

  function PaymentKey(): Key {
    Key(0, 7, Operation.CreatePayment, "k")
  }

  function PayCall(): Call {
    PayAsPassenger(7, "k", 0, Bankily, ["pay", "pay", "pay"], "prov")
  }

  function AfterPay(): Db {
    AfterCreate().(payments := [OPEN_PAYMENT], events := [CREATED, PENDING],
                   records := AfterCreate().records[PaymentKey() :=
                     Record(OwnerPayment(7, 0, Bankily), Some(0), Some(0), IDEMPOTENCY_LIFETIME)])
  }

  function PayClaimed(): Db {
    ClaimedDb(AfterCreate(), PaymentKey(), OwnerPayment(7, 0, Bankily), 0)
  }

  lemma PaymentRowInserted()
    ensures var row := NewPayment(HELD_BOOKING, 0, Bankily, "pay");
      InsertPaymentWithRetry(PayClaimed(), 0, Bankily, ["pay", "pay", "pay"], 0, 0) == Some(PayClaimed().(payments := [row]))
  {
    var row := NewPayment(HELD_BOOKING, 0, Bankily, "pay");
    assert !InternalReferenceTaken(PayClaimed().payments, "pay") && !HasSettledPayment(PayClaimed().payments, 0);
    assert PayClaimed().payments + [row] == [row];
    assert InsertPayment(PayClaimed(), 0, Bankily, "pay", 0) == Some(PayClaimed().(payments := [row]));
  }

  lemma PaymentRowAdvanced()
    ensures var row := NewPayment(HELD_BOOKING, 0, Bankily, "pay");
      TransitionPayment([row], 0, PaymentStatus.Pending, PaymentStatus.Processing, Some("prov"), None, None) == Changed([OPEN_PAYMENT])
  {
    var row := NewPayment(HELD_BOOKING, 0, Bankily, "pay");
    assert [row][0 := OPEN_PAYMENT] == [OPEN_PAYMENT];
  }

  lemma PaymentCompleted()
    ensures CompletePayment(PayClaimed().(payments := [OPEN_PAYMENT], events := [CREATED, PENDING]), PaymentKey(), 0, 0) == AfterPay()
  {
    assert CompletePayment(PayClaimed().(payments := [OPEN_PAYMENT], events := [CREATED, PENDING]), PaymentKey(), 0, 0).records
        == AfterPay().records;
  }

  lemma PaymentCreated()
    ensures CreateClaimedPayment(AfterCreate(), 7, PaymentKey(), OwnerPayment(7, 0, Bankily), 0, Bankily, ["pay", "pay", "pay"], "prov", 0)
         == Success((AfterPay(), 0))
  {
    PaymentRowInserted();
    PaymentRowAdvanced();
    PaymentCompleted();
    assert [CREATED] + [PENDING] == [CREATED, PENDING];
    assert PaymentKey() !in AfterCreate().records;
    assert ClaimIdempotency(AfterCreate(), PaymentKey(), OwnerPayment(7, 0, Bankily), 0) == Claimed(PayClaimed());
  }

  lemma PayStep()
    ensures Execute(AfterCreate(), PayCall(), 0).0 == AfterPay()
  {
    PaymentCreated();
    assert CreatePassengerPaymentTx(AfterCreate(), 7, "k", 0, Bankily, ["pay", "pay", "pay"], "prov", 0) == Success((AfterPay(), 0));
  }

  lemma PaidForIsReachable()
    ensures Reachable(AfterPay())
  {
    CreatedIsReachable();
    ReachableStep(AfterCreate(), PayCall(), 0);
    PayStep();
  }

  // ---------------------------------------------------------------- late success

  /** The hold has ended when the sweep runs. */
  lemma HoldExpires()
    ensures var swept := Execute(AfterPay(), ExpireBookings(0), HOLD_ENDS).0;
      && swept.bookings == [MoveBooking(HELD_BOOKING, BookingStatus.Expired)] && swept.payments == [OPEN_PAYMENT]
  {
  }

  lemma LateWebhook(db: Db)
    requires db.bookings == [MoveBooking(HELD_BOOKING, BookingStatus.Expired)] && db.payments == [OPEN_PAYMENT]
    ensures var next := Execute(db, HandleWebhook(EVENT), HOLD_ENDS).0;
      && next.bookings == db.bookings && |next.payments| == 1
      && next.payments[0].status.Succeeded? && next.payments[0].bookingId == 0
  {
    assert FindByInternalReference([OPEN_PAYMENT], "pay") == Some(0);
    assert TransitionPayment([OPEN_PAYMENT], 0, PaymentStatus.Processing, PaymentStatus.Succeeded, Some("prov"), None, Some(HOLD_ENDS)).Changed?;
  }

  /** The provider reports success after the hold expired: the money is taken, and the booking stays EXPIRED. */
  lemma LateSuccessIsReachable() returns (db: Db)
    ensures Reachable(db)
    ensures |db.payments| == 1 && db.payments[0].status.Succeeded? && db.payments[0].bookingId == 0
    ensures |db.bookings| == 1 && db.bookings[0].status.Expired?
  {
    PaidForIsReachable();
    HoldExpires();
    var expired := Execute(AfterPay(), ExpireBookings(0), HOLD_ENDS).0;
    ReachableStep(AfterPay(), ExpireBookings(0), HOLD_ENDS);
    ReachableStep(expired, HandleWebhook(EVENT), HOLD_ENDS);
    LateWebhook(expired);
    db := Execute(expired, HandleWebhook(EVENT), HOLD_ENDS).0;
  }

  // ---------------------------------------------------------------- success in time

  const PAID := OPEN_PAYMENT.(status := PaymentStatus.Succeeded, paidAt := Some(0))

  function AfterSettle(): Db {
    SettleEffects(AfterPay().(payments := [PAID]), 0, None)
  }

  lemma PaymentRowSettles()
    ensures TransitionPayment([OPEN_PAYMENT], 0, PaymentStatus.Processing, PaymentStatus.Succeeded, Some("prov"), None, Some(0)) == Changed([PAID])
  {
    assert [OPEN_PAYMENT][0 := PAID] == [PAID];
  }

  lemma WebhookSettles()
    ensures Settle(AfterPay(), 0, PaymentStatus.Processing, None, Some("prov"), 0) == Success(AfterSettle())
    ensures Execute(AfterPay(), HandleWebhook(EVENT), 0).0 == AfterSettle()
  {
    PaymentRowSettles();
    assert FindByInternalReference([OPEN_PAYMENT], "pay") == Some(0);
    assert HandleWebhookTx(AfterPay(), EVENT, 0) == Settle(AfterPay(), 0, PaymentStatus.Processing, None, Some("prov"), 0);
  }

  lemma SettledIsReachable()
    ensures Reachable(AfterSettle())
  {
    PaidForIsReachable();
    ReachableStep(AfterPay(), HandleWebhook(EVENT), 0);
    WebhookSettles();
  }

  lemma SettledTables()
    ensures AfterSettle().bookings == [MoveBooking(HELD_BOOKING, BookingStatus.Confirmed)]
    ensures AfterSettle().payments == [PAID] && AfterSettle().tickets == [] && AfterSettle().memberships == MEMBERS
    ensures AfterSettle().seats == [FIRST_SEAT.(status := SeatStatus.Confirmed), SECOND_SEAT.(status := SeatStatus.Confirmed)]
  {
    var paid := AfterPay().(payments := [PAID]);
    assert ConfirmBookingPaid(paid, 0).bookings == [MoveBooking(HELD_BOOKING, BookingStatus.Confirmed)];
    assert ConfirmBookingPaid(paid, 0).seats == [FIRST_SEAT.(status := SeatStatus.Confirmed), SECOND_SEAT.(status := SeatStatus.Confirmed)];
  }

  // ---------------------------------------------------------------- a refund keeps the commission

  lemma SettledInFull()
    ensures EarnedInFull(AfterPay(), 0, AfterSettle().commissions)
  {
    PaidForIsReachable();
    WebhookSettles();
    SettlementEarns(AfterPay(), 0, PaymentStatus.Processing, None, Some("prov"), 0);
  }

  lemma EarnedIsFound(db: Db, commissions: seq<Commission>) returns (c: nat)
    requires |db.bookings| > 0 && EarnedInFull(db, 0, commissions) && CommissionExists(commissions, AGENT.id, 0)
    ensures c < |commissions| && commissions[c].bookingId == 0 && commissions[c].membershipId == AGENT.id && commissions[c].status.Earned?
  {
    c :| 0 <= c < |commissions| && commissions[c].membershipId == AGENT.id && commissions[c].bookingId == 0;
    assert EarnedByAgent(db, 0, commissions[c]);
  }

  /** User 7, an agent, has earned a commission on the booking made on the web. */
  lemma CommissionEarned() returns (c: nat)
    ensures c < |AfterSettle().commissions|
    ensures AfterSettle().commissions[c].bookingId == 0 && AfterSettle().commissions[c].membershipId == AGENT.id
    ensures AfterSettle().commissions[c].status.Earned?
  {
    SettledInFull();
    assert AfterPay().memberships[0] == AGENT && IsBookersAgent(AGENT, HELD_BOOKING);
    c := EarnedIsFound(AfterPay(), AfterSettle().commissions);
  }

  lemma ManagerMayRefund()
    ensures PaymentInScope(AfterSettle(), 0, ActorScope(AfterSettle(), 8, 0, PaymentsRefund), 0)
  {
    SettledTables();
    CatalogIsComplete(PaymentsRefund);
    assert MEMBERS[1] == MANAGER && GrantsOn(MANAGER, 8, 0, PaymentsRefund, None);
    assert MayActOn(AfterSettle(), 8, 0, PaymentsRefund, 0);
    FoundMeansMayAct(AfterSettle(), 8, 0, PaymentsRefund, 0);
  }

  lemma RefundSucceeds()
    ensures RefundPaymentTx(AfterSettle(), 8, 0, 0).Success?
  {
    SettledTables();
    ManagerMayRefund();
    assert TransitionPayment([PAID], 0, PaymentStatus.Succeeded, PaymentStatus.Refunded, None, None, None).Changed?;
  }

  /** The whole amount is refunded, and the agent's commission on it is still EARNED. */
  lemma RefundedCommissionIsReachable() returns (db: Db, next: Db, c: nat)
    ensures Reachable(db) && Reachable(next)
    ensures RefundPaymentTx(db, 8, 0, 0) == Success(next) && |next.payments| == 1 && next.payments[0].status.Refunded?
    ensures c < |db.commissions| && db.commissions[c].bookingId == 0 && db.commissions[c].status.Earned?
    ensures next.commissions == db.commissions
  {
    db := AfterSettle();
    SettledIsReachable();
    SettledTables();
    RefundSucceeds();
    c := CommissionEarned();
    next := RefundPaymentTx(db, 8, 0, 0).value;
    ReachableStep(db, RefundPayment(8, 0, 0), 0);
    RefundNeverCancelsCommissions(db, 8, 0, 0);
  }

  // ---------------------------------------------------------------- colliding drafts

  /** A generator that repeats itself. */
  function SameDraft(): nat -> TicketDraft {
    (k: nat) => TicketDraft("T", "raw", "hash")
  }

  const ONLY_TICKET := Ticket(0, 0, 0, "T", "hash", 0, None, None)

  lemma BothSeatsIssuable(db: Db)
    requires db.seats == [FIRST_SEAT.(status := SeatStatus.Confirmed), SECOND_SEAT.(status := SeatStatus.Confirmed)] && db.tickets == []
    ensures IssuableSeats(db, 0, 2) == [0, 1]
  {
    assert IssuableSeats(db, 0, 0) == [];
    assert IssuableSeats(db, 0, 1) == [0];
    assert [0] + [1] == [0, 1];
  }

  lemma FirstSeatTicketed(db: Db)
    requires db.seats == [FIRST_SEAT.(status := SeatStatus.Confirmed), SECOND_SEAT.(status := SeatStatus.Confirmed)] && db.tickets == []
    ensures IssueSeats(db, 0, [0], SameDraft(), 0).tickets == [ONLY_TICKET]
  {
    assert [0][..0] == [];
    assert IssueSeats(db, 0, [], SameDraft(), 0).tickets == [];
    assert InsertTicket(db, 0, 0, SameDraft()(0), 0) == [ONLY_TICKET];
    assert db.(tickets := []) == db;
  }

  lemma SecondDraftSkipped(db: Db)
    requires db.seats == [FIRST_SEAT.(status := SeatStatus.Confirmed), SECOND_SEAT.(status := SeatStatus.Confirmed)] && db.tickets == []
    ensures IssueSeats(db, 0, [0, 1], SameDraft(), 0).tickets == [ONLY_TICKET]
  {
    FirstSeatTicketed(db);
    assert [0, 1][..1] == [0];
    assert [ONLY_TICKET][0].number == SameDraft()(1).number;
    assert TicketConflicts([ONLY_TICKET], 0, 1, 1, SameDraft()(1));
    assert InsertTicket(db.(tickets := [ONLY_TICKET]), 0, 1, SameDraft()(1), 0) == [ONLY_TICKET];
  }

  lemma OneTicketListed(raw: map<nat, string>)
    ensures ListTickets([ONLY_TICKET], 0, raw) != []
  {
    assert |ListTickets([ONLY_TICKET], 0, raw)| > 0;
  }

  lemma IssueSucceeds()
    ensures Issue(AfterSettle(), 0, SameDraft(), 0).Success?
    ensures Issue(AfterSettle(), 0, SameDraft(), 0).value.0 == AfterSettle().(tickets := [ONLY_TICKET])
  {
    SettledTables();
    BothSeatsIssuable(AfterSettle());
    SecondDraftSkipped(AfterSettle());
    OneTicketListed(IssueSeats(AfterSettle(), 0, [0, 1], SameDraft(), 0).raw);
    assert AfterSettle().payments[0] == PAID;
  }

  lemma IssueStep()
    ensures Execute(AfterSettle(), IssueForOwner(7, 0, SameDraft()), 0).0 == AfterSettle().(tickets := [ONLY_TICKET])
  {
    SettledTables();
    IssueSucceeds();
    assert IssueForOwnerTx(AfterSettle(), 7, 0, SameDraft(), 0) == Issue(AfterSettle(), 0, SameDraft(), 0);
  }

  lemma IssuedIsReachable()
    ensures Reachable(AfterSettle().(tickets := [ONLY_TICKET]))
  {
    SettledIsReachable();
    ReachableStep(AfterSettle(), IssueForOwner(7, 0, SameDraft()), 0);
    IssueStep();
  }

  /** The owner's issuance succeeds on a confirmed, paid booking, and its second seat has no ticket. */
  lemma UnticketedSeatIsReachable() returns (db: Db, next: Db)
    ensures Reachable(db) && Reachable(next)
    ensures |db.bookings| == 1 && db.bookings[0].status.Confirmed?
    ensures Issue(db, 0, SameDraft(), 0).Success? && next == Issue(db, 0, SameDraft(), 0).value.0
    ensures |next.seats| == 2 && next.seats[1].bookingId == 0 && next.seats[1].status.Confirmed? && !SeatTicketed(next.tickets, 1)
  {
    db := AfterSettle();
    next := db.(tickets := [ONLY_TICKET]);
    SettledIsReachable();
    SettledTables();
    IssueSucceeds();
    IssuedIsReachable();
  }

  // ---------------------------------------------------------------- strays

  const OTHER_LAYOUT: seq<string> := ["3", "4"]
  const RELABELLED := TRIP.(layout := OTHER_LAYOUT)

  /** The tables after the bus of the trip got another layout. */
  function AfterRelabel(): Db {
    AfterCreate().(trips := map[0 := RELABELLED])
  }

  lemma RelabelledIsReachable()
    ensures Reachable(AfterRelabel())
  {
    CreatedIsReachable();
    ReachableStep(AfterCreate(), ChangeSurroundings(map[0 := RELABELLED], MEMBERS), 0);
    assert OTHER_LAYOUT[0] != OTHER_LAYOUT[1];
    assert LayoutValid(RELABELLED);
    assert SurroundingsValid(map[0 := RELABELLED], MEMBERS);
    assert TripsKeepCompany(AfterCreate().trips, map[0 := RELABELLED]);
  }

  lemma NoNewLabelTaken()
    ensures Count(OTHER_LAYOUT, TakenLabel(BOTH_SEATS, 0, 0)) == 0
  {
    assert OTHER_LAYOUT[0] == "3" && OTHER_LAYOUT[1] == "4";
    assert BOTH_SEATS[0].seatNumber[0] == '1' && BOTH_SEATS[1].seatNumber[0] == '2';
    assert forall k :: 0 <= k < 2 ==> !TakenLabel(BOTH_SEATS, 0, 0)(OTHER_LAYOUT[k]);
    CountNone(OTHER_LAYOUT, TakenLabel(BOTH_SEATS, 0, 0));
  }

  lemma BothSeatsUnique()
    ensures SeatsUnique(BOTH_SEATS)
  {
    assert BOTH_SEATS[0].seatNumber[0] == '1' && BOTH_SEATS[1].seatNumber[0] == '2';
  }

  lemma NewLabelsAreFree()
    ensures Count(SeatMapRows(AfterRelabel(), 0, OTHER_LAYOUT, 0), IsAvailableRow()) == 2
  {
    BothSeatsUnique();
    AvailableRowsAreUntaken(AfterRelabel(), 0, OTHER_LAYOUT, 0);
    NoNewLabelTaken();
  }

  /** Both reservations name labels the layout no longer has: the map shows two free seats, the search count none. */
  lemma SearchCountFallsShort() returns (db: Db)
    ensures Reachable(db) && 0 in db.trips
    ensures Count(SeatMapRows(db, 0, db.trips[0].layout, 0), IsAvailableRow()) == 2
    ensures SearchCount(db, 0, 0) == 0
  {
    db := AfterRelabel();
    RelabelledIsReachable();
    NewLabelsAreFree();
    assert forall i :: 0 <= i < 2 ==> ActiveOn(0, 0)(BOTH_SEATS[i]);
    CountAll(BOTH_SEATS, ActiveOn(0, 0));
  }
}
