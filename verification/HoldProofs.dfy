/** Expiring, creating and cancelling holds keep the joint invariant. */
module HoldProofs {
  import opened Wrappers
  import opened Counting
  import opened Identity
  import opened Tables
  import opened Reservation
  import opened Invariants

  // ---------------------------------------------------------------- the sweep

  lemma {:induction false} LapsedIdsContain(bookings: seq<Booking>, companyId: nat, tripId: Option<nat>, now: Instant, i: nat)
    ensures i in LapsedIds(bookings, companyId, tripId, now) <==> i < |bookings| && Lapsed(bookings[i], companyId, tripId, now)
  {
    if bookings != [] {
      var n := |bookings| - 1;
      LapsedIdsContain(bookings[..n], companyId, tripId, now, i);
      assert i < n ==> bookings[..n][i] == bookings[i];
    }
  }

  /** In increasing order, and all below `n`. */
  ghost predicate AscendingBelow(ids: seq<nat>, n: nat) {
    && (forall k :: 0 <= k < |ids| ==> ids[k] < n)
    && (forall j, k :: 0 <= j < k < |ids| ==> ids[j] < ids[k])
  }

  lemma {:induction false} LapsedIdsAscend(bookings: seq<Booking>, companyId: nat, tripId: Option<nat>, now: Instant)
    ensures AscendingBelow(LapsedIds(bookings, companyId, tripId, now), |bookings|)
  {
    if bookings != [] {
      LapsedIdsAscend(bookings[..|bookings| - 1], companyId, tripId, now);
    }
  }

  /** The ids the sweep returns: exactly the lapsed bookings, each once, in order. */
  lemma LapsedIdsExact(bookings: seq<Booking>, companyId: nat, tripId: Option<nat>, now: Instant)
    ensures var ids := LapsedIds(bookings, companyId, tripId, now);
      && (forall i: nat :: i in ids <==> i < |bookings| && Lapsed(bookings[i], companyId, tripId, now))
      && (forall j, k :: 0 <= j < k < |ids| ==> ids[j] < ids[k])
  {
    LapsedIdsAscend(bookings, companyId, tripId, now);
    forall i: nat
      ensures i in LapsedIds(bookings, companyId, tripId, now) <==> i < |bookings| && Lapsed(bookings[i], companyId, tripId, now)
    {
      LapsedIdsContain(bookings, companyId, tripId, now, i);
    }
  }

  /** The sweep writes exactly one EXPIRED event for each booking it moves, and nothing else. */
  lemma {:induction false} ExpiryEventCount(bookings: seq<Booking>, companyId: nat, tripId: Option<nat>, now: Instant,
                                            b: nat, kind: EventKind)
    ensures Count(ExpiryEvents(LapsedIds(bookings, companyId, tripId, now), companyId), EventOf(b, kind))
         == if kind.Expired? && b < |bookings| && Lapsed(bookings[b], companyId, tripId, now) then 1 else 0
  {
    if bookings != [] {
      var n := |bookings| - 1;
      var ids := LapsedIds(bookings[..n], companyId, tripId, now);
      ExpiryEventCount(bookings[..n], companyId, tripId, now, b, kind);
      if b < n { assert bookings[..n][b] == bookings[b]; }
      if Lapsed(bookings[n], companyId, tripId, now) {
        assert LapsedIds(bookings, companyId, tripId, now) == ids + [n];
        assert ExpiryEvents(ids + [n], companyId) == ExpiryEvents(ids, companyId) + [Event(n, companyId, None, EventKind.Expired)];
        CountPush(ExpiryEvents(ids, companyId), Event(n, companyId, None, EventKind.Expired), EventOf(b, kind));
      } else {
        assert LapsedIds(bookings, companyId, tripId, now) == ids;
      }
    }
  }

  lemma SweepKeepsLog(db: Db, companyId: nat, tripId: Option<nat>, now: Instant)
    requires LogOk(db.bookings, db.payments, db.tickets, db.events)
    ensures var next := Sweep(db, companyId, tripId, now); LogOk(next.bookings, next.payments, next.tickets, next.events)
  {
    var next := Sweep(db, companyId, tripId, now);
    var added := ExpiryEvents(LapsedIds(db.bookings, companyId, tripId, now), companyId);
    forall b | 0 <= b < |next.bookings|
      ensures LogOf(b, next.bookings[b].status, next.payments, next.tickets, next.events)
    {
      assert LogOf(b, db.bookings[b].status, db.payments, db.tickets, db.events);
      forall kind: EventKind
        ensures Count(next.events, EventOf(b, kind))
             == Count(db.events, EventOf(b, kind)) + (if kind.Expired? && Lapsed(db.bookings[b], companyId, tripId, now) then 1 else 0)
      {
        CountConcat(db.events, added, EventOf(b, kind));
        ExpiryEventCount(db.bookings, companyId, tripId, now, b, kind);
      }
    }
  }

  /** Two seat tables that agree on each row's booking have the same seats per booking. */
  lemma SameSeatCount(seats: seq<Seat>, next: seq<Seat>, b: nat)
    requires |seats| == |next|
    requires forall i :: 0 <= i < |seats| ==> seats[i].bookingId == next[i].bookingId
    ensures Count(seats, SeatOf(b)) == Count(next, SeatOf(b))
  {
    CountSame(seats, next, SeatOf(b));
  }

  lemma SweepKeepsMoney(db: Db, companyId: nat, tripId: Option<nat>, now: Instant)
    requires MoneyOk(db.bookings, db.seats, db.payments)
    ensures var next := Sweep(db, companyId, tripId, now); MoneyOk(next.bookings, next.seats, next.payments)
  {
    var next := Sweep(db, companyId, tripId, now);
    forall b | 0 <= b < |next.bookings|
      ensures next.bookings[b].total == next.bookings[b].unitPrice * Count(next.seats, SeatOf(b))
    {
      SameSeatCount(db.seats, next.seats, b);
    }
  }

  lemma SweepKeepsTickets(db: Db, companyId: nat, tripId: Option<nat>, now: Instant)
    requires SeatsFollowBookings(db.bookings, db.seats)
    requires KeysOk(db) && TicketsOk(db.bookings, db.seats, db.tickets)
    ensures var next := Sweep(db, companyId, tripId, now); TicketsOk(next.bookings, next.seats, next.tickets)
  {
  }

  lemma SweepKeepsPaid(db: Db, companyId: nat, tripId: Option<nat>, now: Instant)
    requires PaidOk(db.bookings, db.payments)
    ensures var next := Sweep(db, companyId, tripId, now); PaidOk(next.bookings, next.payments)
  {
    var next := Sweep(db, companyId, tripId, now);
    forall b | 0 <= b < |next.bookings| && next.bookings[b].status.Confirmed?
      ensures HasSettledPayment(next.payments, b)
    {
      assert db.bookings[b].status.Confirmed?;
    }
  }

  lemma SweepEvolves(db: Db, companyId: nat, tripId: Option<nat>, now: Instant)
    ensures Evolves(db, Sweep(db, companyId, tripId, now))
  {
  }

  lemma SweepKeepsKeys(db: Db, companyId: nat, tripId: Option<nat>, now: Instant)
    requires KeysOk(db)
    ensures KeysOk(Sweep(db, companyId, tripId, now))
  {
    var next := Sweep(db, companyId, tripId, now);
    var ids := LapsedIds(db.bookings, companyId, tripId, now);
    LapsedIdsExact(db.bookings, companyId, tripId, now);
    forall e | 0 <= e < |next.events|
      ensures next.events[e].bookingId < |next.bookings|
    {
      if e >= |db.events| { assert ids[e - |db.events|] in ids; }
    }
  }

  lemma SweepKeepsSeats(db: Db, companyId: nat, tripId: Option<nat>, now: Instant)
    requires SeatsFollowBookings(db.bookings, db.seats) && SeatsUnique(db.seats)
    ensures var next := Sweep(db, companyId, tripId, now);
      SeatsFollowBookings(next.bookings, next.seats) && SeatsUnique(next.seats)
  {
  }

  lemma SweepKeepsSurroundings(db: Db, companyId: nat, tripId: Option<nat>, now: Instant)
    requires SurroundingsOk(db) && CommissionsOk(db.bookings, db.commissions)
    ensures var next := Sweep(db, companyId, tripId, now);
      SurroundingsOk(next) && CommissionsOk(next.bookings, next.commissions)
  {
  }

  lemma SweepKeepsCore(db: Db, companyId: nat, tripId: Option<nat>, now: Instant)
    requires Core(db)
    ensures Core(Sweep(db, companyId, tripId, now)) && Evolves(db, Sweep(db, companyId, tripId, now))
  {
    SweepKeepsKeys(db, companyId, tripId, now);
    SweepKeepsSeats(db, companyId, tripId, now);
    SweepKeepsSurroundings(db, companyId, tripId, now);
    SweepKeepsLog(db, companyId, tripId, now);
    SweepKeepsMoney(db, companyId, tripId, now);
    SweepKeepsTickets(db, companyId, tripId, now);
    SweepKeepsPaid(db, companyId, tripId, now);
    SweepEvolves(db, companyId, tripId, now);
  }

  // ---------------------------------------------------------------- creating a hold

  function NewPassengers(bookingId: nat, ps: seq<PassengerInput>): (r: seq<Passenger>)
    ensures |r| == |ps|
  {
    seq(|ps|, k requires 0 <= k < |ps| => Passenger.Passenger(bookingId, ps[k].gender))
  }

  function NewSeats(tripId: nat, bookingId: nat, base: nat, ps: seq<PassengerInput>, until: Instant): (r: seq<Seat>)
    ensures |r| == |ps|
    ensures forall k :: 0 <= k < |ps| ==> r[k] == Seat(tripId, bookingId, base + k, ps[k].seat, SeatStatus.Held, until)
  {
    seq(|ps|, k requires 0 <= k < |ps| => Seat(tripId, bookingId, base + k, ps[k].seat, SeatStatus.Held, until))
  }

  /** The requested seats are in the layout, free in the index, and distinct. */
  ghost predicate SeatsInsertable(db: Db, tripId: nat, ps: seq<PassengerInput>) {
    && (forall k :: 0 <= k < |ps| ==>
          tripId in db.trips && ps[k].seat in db.trips[tripId].layout && !SeatTaken(db.seats, tripId, ps[k].seat))
    && (forall j, k :: 0 <= j < k < |ps| ==> ps[j].seat != ps[k].seat)
  }

  /** The tables after one passenger and one held seat each are appended for a booking. */
  function SeatsAdded(db: Db, tripId: nat, bookingId: nat, ps: seq<PassengerInput>): Db
    requires bookingId < |db.bookings|
  {
    db.(passengers := db.passengers + NewPassengers(bookingId, ps),
        seats := db.seats + NewSeats(tripId, bookingId, |db.seats|, ps, db.bookings[bookingId].expiresAt))
  }

  lemma NothingAdded(db: Db, tripId: nat, bookingId: nat)
    requires bookingId < |db.bookings|
    ensures SeatsAdded(db, tripId, bookingId, []) == db
  {
    assert db.passengers + NewPassengers(bookingId, []) == db.passengers;
    assert db.seats + NewSeats(tripId, bookingId, |db.seats|, [], db.bookings[bookingId].expiresAt) == db.seats;
  }

  lemma OneMoreAdded(db: Db, tripId: nat, bookingId: nat, ps: seq<PassengerInput>)
    requires bookingId < |db.bookings| && ps != []
    ensures var n := |ps| - 1; var before := SeatsAdded(db, tripId, bookingId, ps[..n]); var after := SeatsAdded(db, tripId, bookingId, ps);
      && after.passengers == before.passengers + [Passenger.Passenger(bookingId, ps[n].gender)]
      && after.seats == before.seats + [Seat(tripId, bookingId, |db.seats| + n, ps[n].seat, SeatStatus.Held, db.bookings[bookingId].expiresAt)]
  {
    var n, until := |ps| - 1, db.bookings[bookingId].expiresAt;
    assert NewPassengers(bookingId, ps) == NewPassengers(bookingId, ps[..n]) + [Passenger.Passenger(bookingId, ps[n].gender)];
    assert NewSeats(tripId, bookingId, |db.seats|, ps, until)
        == NewSeats(tripId, bookingId, |db.seats|, ps[..n], until)
         + [Seat(tripId, bookingId, |db.seats| + n, ps[n].seat, SeatStatus.Held, until)];
  }

  /** The last passenger of the list, after all earlier ones were inserted. */
  lemma LastSeatInserts(db: Db, tripId: nat, bookingId: nat, ps: seq<PassengerInput>)
    requires bookingId < |db.bookings| && |db.passengers| == |db.seats| && ps != []
    ensures var r := InsertPassengerAndSeat(SeatsAdded(db, tripId, bookingId, ps[..|ps| - 1]), tripId, bookingId, ps[|ps| - 1]);
      && (r.Success? <==> LastInsertable(db, tripId, ps))
      && (r.Success? ==> r.value == SeatsAdded(db, tripId, bookingId, ps))
  {
    var n := |ps| - 1;
    TakenAfterInsert(db.seats, NewSeats(tripId, bookingId, |db.seats|, ps[..n], db.bookings[bookingId].expiresAt), tripId, ps[n].seat);
    OneMoreAdded(db, tripId, bookingId, ps);
  }

  /** The insert loop succeeds exactly on insertable seats, and then appends one passenger and one seat each. */
  lemma {:induction false} InsertPassengersExact(db: Db, tripId: nat, bookingId: nat, ps: seq<PassengerInput>)
    requires bookingId < |db.bookings|
    requires |db.passengers| == |db.seats|
    ensures var r := InsertPassengers(db, tripId, bookingId, ps);
      && (r.Success? <==> SeatsInsertable(db, tripId, ps))
      && (r.Success? ==> r.value == SeatsAdded(db, tripId, bookingId, ps))
  {
    if ps == [] {
      NothingAdded(db, tripId, bookingId);
    } else {
      InsertPassengersExact(db, tripId, bookingId, ps[..|ps| - 1]);
      InsertableStep(db, tripId, ps);
      LastSeatInserts(db, tripId, bookingId, ps);
    }
  }

  /** After inserting `added` held seats on the trip, a seat is taken if it was, or if it is one of them. */
  lemma TakenAfterInsert(seats: seq<Seat>, added: seq<Seat>, tripId: nat, seatNumber: string)
    requires forall k :: 0 <= k < |added| ==> added[k].tripId == tripId && added[k].status.Held?
    ensures SeatTaken(seats + added, tripId, seatNumber)
         == (SeatTaken(seats, tripId, seatNumber) || exists k :: 0 <= k < |added| && added[k].seatNumber == seatNumber)
  {
    var all := seats + added;
    if i :| 0 <= i < |seats| && seats[i].tripId == tripId && seats[i].seatNumber == seatNumber && OccupiesIndex(seats[i].status) {
      assert all[i] == seats[i];
    }
    if k :| 0 <= k < |added| && added[k].seatNumber == seatNumber {
      assert all[|seats| + k] == added[k];
    }
  }

  /** What the last passenger adds to SeatsInsertable. */
  ghost predicate LastInsertable(db: Db, tripId: nat, ps: seq<PassengerInput>)
    requires |ps| > 0
  {
    var last := ps[|ps| - 1].seat;
    && tripId in db.trips && last in db.trips[tripId].layout && !SeatTaken(db.seats, tripId, last)
    && forall k :: 0 <= k < |ps| - 1 ==> ps[k].seat != last
  }

  lemma InsertableStep(db: Db, tripId: nat, ps: seq<PassengerInput>)
    requires |ps| > 0
    ensures SeatsInsertable(db, tripId, ps) <==> SeatsInsertable(db, tripId, ps[..|ps| - 1]) && LastInsertable(db, tripId, ps)
  {
    var n := |ps| - 1;
    var init := ps[..n];
    assert forall k :: 0 <= k < n ==> init[k] == ps[k];
    assert SeatsInsertable(db, tripId, ps) ==> SeatsInsertable(db, tripId, init) && LastInsertable(db, tripId, ps);
    if SeatsInsertable(db, tripId, init) && LastInsertable(db, tripId, ps) {
      forall k | 0 <= k < |ps|
        ensures tripId in db.trips && ps[k].seat in db.trips[tripId].layout && !SeatTaken(db.seats, tripId, ps[k].seat)
      {
        if k < n { assert init[k] == ps[k]; }
      }
      forall j, k | 0 <= j < k < |ps|
        ensures ps[j].seat != ps[k].seat
      {
        if k < n { assert init[j] == ps[j] && init[k] == ps[k]; }
      }
    }
  }

  /** The tables after a hold is created on already swept tables, with the booking reference that was free. */
  function HoldInserted(swept: Db, tripId: nat, branchId: Option<nat>, actor: nat, channel: Channel,
                        ps: seq<PassengerInput>, reference: string, now: Instant): Db
    requires tripId in swept.trips && swept.trips[tripId].seatHoldMinutes.Some?
  {
    var b := NewBooking(swept.trips[tripId], tripId, branchId, actor, channel, |ps|, reference, now);
    var id := |swept.bookings|;
    swept.(bookings := swept.bookings + [b],
           passengers := swept.passengers + NewPassengers(id, ps),
           seats := swept.seats + NewSeats(tripId, id, |swept.seats|, ps, b.expiresAt),
           events := swept.events + [Event(id, swept.trips[tripId].companyId, Some(actor), EventKind.BookingCreated)])
  }

  /** The retry loop gives up exactly when all of its references are taken. */
  lemma InsertWithRetryExact(db: Db, tripId: nat, companyId: nat, branchId: Option<nat>, actor: nat, channel: Channel,
                             count: nat, references: seq<string>, attempt: nat, now: Instant)
    requires TripForBookingFound(db, tripId, companyId) && IsTripBookable(db.trips[tripId], now)
    requires attempt <= |references|
    ensures var r := InsertWithRetry(db, tripId, companyId, branchId, actor, channel, count, references, attempt, now);
      && (r.Success? <==> exists k :: attempt <= k < |references| && !ReferenceTaken(db.bookings, references[k]))
      && (r.Failure? ==> r.error == BookingReferenceUnavailable)
      && (r.Success? ==>
            exists k :: attempt <= k < |references| && !ReferenceTaken(db.bookings, references[k])
              && r.value == db.(bookings := db.bookings
                   + [NewBooking(db.trips[tripId], tripId, branchId, actor, channel, count, references[k], now)]))
    decreases |references| - attempt
  {
    if attempt < |references| && ReferenceTaken(db.bookings, references[attempt]) {
      InsertWithRetryExact(db, tripId, companyId, branchId, actor, channel, count, references, attempt + 1, now);
    }
  }

  ghost predicate SomeReferenceFree(bookings: seq<Booking>, references: seq<string>) {
    exists k :: 0 <= k < |references| && !ReferenceTaken(bookings, references[k])
  }

  lemma SweepKeepsReferences(db: Db, companyId: nat, scope: Option<nat>, now: Instant, x: string)
    ensures ReferenceTaken(Sweep(db, companyId, scope, now).bookings, x) == ReferenceTaken(db.bookings, x)
  {
    var swept := Sweep(db, companyId, scope, now);
    if i :| 0 <= i < |db.bookings| && db.bookings[i].reference == x {
      assert swept.bookings[i].reference == x;
    }
  }

  /** The booking row of a hold, if a reference is free. */
  lemma BookingInserted(db: Db, tripId: nat, companyId: nat, branchId: Option<nat>, actor: nat, channel: Channel,
                        count: nat, references: References, now: Instant) returns (reference: string)
    requires TripForBookingFound(db, tripId, companyId) && IsTripBookable(db.trips[tripId], now)
    ensures var r := InsertWithRetry(db, tripId, companyId, branchId, actor, channel, count, references, 0, now);
      && (r.Success? <==> SomeReferenceFree(db.bookings, references))
      && (r.Success? ==>
            && reference in references && !ReferenceTaken(db.bookings, reference)
            && r.value == db.(bookings := db.bookings
                 + [NewBooking(db.trips[tripId], tripId, branchId, actor, channel, count, reference, now)]))
  {
    reference := "";
    InsertWithRetryExact(db, tripId, companyId, branchId, actor, channel, count, references, 0, now);
    var r := InsertWithRetry(db, tripId, companyId, branchId, actor, channel, count, references, 0, now);
    if r.Success? {
      var k :| 0 <= k < |references| && !ReferenceTaken(db.bookings, references[k])
        && r.value == db.(bookings := db.bookings
             + [NewBooking(db.trips[tripId], tripId, branchId, actor, channel, count, references[k], now)]);
      reference := references[k];
    }
  }

  /** The passengers and the event of a hold, after its booking row. */
  lemma BookingSeated(swept: Db, tripId: nat, companyId: nat, branchId: Option<nat>, actor: nat, channel: Channel,
                      ps: seq<PassengerInput>, reference: string, now: Instant)
    requires |swept.passengers| == |swept.seats| && TripForBookingFound(swept, tripId, companyId)
    ensures var b := NewBooking(swept.trips[tripId], tripId, branchId, actor, channel, |ps|, reference, now);
      var r := SeatAndLog(swept.(bookings := swept.bookings + [b]), tripId, companyId, actor, ps);
      && (r.Success? <==> SeatsInsertable(swept, tripId, ps))
      && (r.Success? ==> r.value == HoldInserted(swept, tripId, branchId, actor, channel, ps, reference, now))
  {
    var b := NewBooking(swept.trips[tripId], tripId, branchId, actor, channel, |ps|, reference, now);
    InsertPassengersExact(swept.(bookings := swept.bookings + [b]), tripId, |swept.bookings|, ps);
  }

  /** createClaimed succeeds exactly when the trip is bookable, a reference is free and every seat is insertable. */
  lemma CreateHoldExact(db: Db, tripId: nat, companyId: nat, branchId: Option<nat>, actor: nat, channel: Channel,
                        ps: seq<PassengerInput>, references: References, now: Instant) returns (reference: string)
    requires |db.passengers| == |db.seats|
    ensures var r := CreateHold(db, tripId, companyId, branchId, actor, channel, ps, references, now);
      var swept := Sweep(db, companyId, Some(tripId), now);
      && (r.Success? <==>
            && TripForBookingFound(db, tripId, companyId) && IsTripBookable(db.trips[tripId], now)
            && SomeReferenceFree(db.bookings, references)
            && SeatsInsertable(swept, tripId, ps))
      && (r.Success? ==>
            && reference in references && !ReferenceTaken(db.bookings, reference) && !ReferenceTaken(swept.bookings, reference)
            && r.value == HoldInserted(swept, tripId, branchId, actor, channel, ps, reference, now))
  {
    reference := "";
    if TripForBookingFound(db, tripId, companyId) && IsTripBookable(db.trips[tripId], now) {
      var swept := Sweep(db, companyId, Some(tripId), now);
      reference := BookingInserted(swept, tripId, companyId, branchId, actor, channel, |ps|, references, now);
      SweepKeepsReferences(db, companyId, Some(tripId), now, reference);
      SameReferencesFree(db, companyId, Some(tripId), now, references);
      BookingSeated(swept, tripId, companyId, branchId, actor, channel, ps, reference, now);
    }
  }

  lemma SameReferencesFree(db: Db, companyId: nat, scope: Option<nat>, now: Instant, references: References)
    ensures SomeReferenceFree(Sweep(db, companyId, scope, now).bookings, references) == SomeReferenceFree(db.bookings, references)
  {
    forall k | 0 <= k < |references|
      ensures ReferenceTaken(Sweep(db, companyId, scope, now).bookings, references[k]) == ReferenceTaken(db.bookings, references[k])
    {
      SweepKeepsReferences(db, companyId, scope, now, references[k]);
    }
  }

  lemma {:induction false} FreshCountsAreZero(db: Db, b: nat, kind: EventKind)
    requires KeysOk(db) && b >= |db.bookings|
    ensures Count(db.events, EventOf(b, kind)) == 0
    ensures Count(db.payments, PaymentOf(b)) == Count(db.payments, SettledOf(b)) == Count(db.payments, RefundedOf(b)) == 0
    ensures Count(db.tickets, UsedTicketOf(b)) == 0
    ensures Count(db.seats, SeatOf(b)) == 0
  {
    CountNone(db.events, EventOf(b, kind));
    CountNone(db.payments, PaymentOf(b));
    CountNone(db.payments, SettledOf(b));
    CountNone(db.payments, RefundedOf(b));
    CountNone(db.tickets, UsedTicketOf(b));
    CountNone(db.seats, SeatOf(b));
  }

  /** The created event adds one BOOKING_CREATED to the new booking's log, and nothing to any other. */
  lemma CreatedCounts(events: seq<Event>, created: Event, b: nat, kind: EventKind)
    ensures Count(events + [created], EventOf(b, kind))
         == Count(events, EventOf(b, kind)) + (if b == created.bookingId && kind == created.kind then 1 else 0)
  {
    CountPush(events, created, EventOf(b, kind));
  }

  lemma NewBookingLog(db: Db, created: Event)
    requires KeysOk(db) && created.bookingId == |db.bookings| && created.kind.BookingCreated?
    ensures LogOf(|db.bookings|, BookingStatus.Held, db.payments, db.tickets, db.events + [created])
  {
    forall kind: EventKind
      ensures Count(db.events + [created], EventOf(|db.bookings|, kind)) == if kind.BookingCreated? then 1 else 0
    {
      CreatedCounts(db.events, created, |db.bookings|, kind);
      FreshCountsAreZero(db, |db.bookings|, kind);
    }
    FreshCountsAreZero(db, |db.bookings|, EventKind.Expired);
  }

  lemma InsertKeepsLog(db: Db, next: Db, created: Event)
    requires KeysOk(db) && LogOk(db.bookings, db.payments, db.tickets, db.events)
    requires |next.bookings| == |db.bookings| + 1 && next.bookings[..|db.bookings|] == db.bookings
    requires next.bookings[|db.bookings|].status.Held?
    requires created.bookingId == |db.bookings| && created.kind.BookingCreated?
    requires next.events == db.events + [created] && next.payments == db.payments && next.tickets == db.tickets
    ensures LogOk(next.bookings, next.payments, next.tickets, next.events)
  {
    NewBookingLog(db, created);
    forall b | 0 <= b < |db.bookings|
      ensures LogOf(b, next.bookings[b].status, next.payments, next.tickets, next.events)
    {
      assert next.bookings[b] == next.bookings[..|db.bookings|][b];
      assert LogOf(b, db.bookings[b].status, db.payments, db.tickets, db.events);
      forall kind: EventKind ensures Count(next.events, EventOf(b, kind)) == Count(db.events, EventOf(b, kind)) {
        CreatedCounts(db.events, created, b, kind);
      }
    }
  }

  lemma InsertKeepsMoney(db: Db, next: Db, tripId: nat, ps: seq<PassengerInput>)
    requires KeysOk(db) && MoneyOk(db.bookings, db.seats, db.payments)
    requires |next.bookings| == |db.bookings| + 1 && next.bookings[..|db.bookings|] == db.bookings
    requires var b := next.bookings[|db.bookings|]; b.total == b.unitPrice * |ps|
    requires next.seats == db.seats + NewSeats(tripId, |db.bookings|, |db.seats|, ps, next.bookings[|db.bookings|].expiresAt)
    requires next.payments == db.payments
    ensures MoneyOk(next.bookings, next.seats, next.payments)
  {
    var id := |db.bookings|;
    var added := NewSeats(tripId, id, |db.seats|, ps, next.bookings[id].expiresAt);
    forall b | 0 <= b < |next.bookings|
      ensures next.bookings[b].total == next.bookings[b].unitPrice * Count(next.seats, SeatOf(b))
    {
      CountConcat(db.seats, added, SeatOf(b));
      if b < id {
        CountNone(added, SeatOf(b));
        assert next.bookings[b] == db.bookings[b];
      } else {
        CountAll(added, SeatOf(b));
        FreshCountsAreZero(db, b, EventKind.Expired);
      }
    }
    forall p | 0 <= p < |next.payments|
      ensures next.payments[p].amount == next.bookings[next.payments[p].bookingId].total
           && next.payments[p].currency == next.bookings[next.payments[p].bookingId].currency
    {
      assert next.bookings[next.payments[p].bookingId] == db.bookings[db.payments[p].bookingId];
    }
  }

  lemma InsertKeepsUnique(db: Db, tripId: nat, bookingId: nat, ps: seq<PassengerInput>, until: Instant)
    requires SeatsUnique(db.seats) && SeatsInsertable(db, tripId, ps)
    ensures SeatsUnique(db.seats + NewSeats(tripId, bookingId, |db.seats|, ps, until))
  {
    var added := NewSeats(tripId, bookingId, |db.seats|, ps, until);
    var all := db.seats + added;
    forall i, j | 0 <= i < j < |all|
      ensures !Clash(all[i], all[j])
    {
      if j >= |db.seats| {
        assert !SeatTaken(db.seats, tripId, ps[j - |db.seats|].seat);
      }
    }
  }

  lemma HoldInsertedKeepsKeys(db: Db, tripId: nat, branchId: Option<nat>, actor: nat, channel: Channel,
                              ps: seq<PassengerInput>, reference: string, now: Instant)
    requires KeysOk(db) && SurroundingsOk(db)
    requires tripId in db.trips && db.trips[tripId].seatHoldMinutes.Some?
    ensures var next := HoldInserted(db, tripId, branchId, actor, channel, ps, reference, now);
      KeysOk(next) && SurroundingsOk(next)
  {
  }

  lemma HoldInsertedEvolves(db: Db, tripId: nat, branchId: Option<nat>, actor: nat, channel: Channel,
                            ps: seq<PassengerInput>, reference: string, now: Instant)
    requires tripId in db.trips && db.trips[tripId].seatHoldMinutes.Some?
    ensures var next := HoldInserted(db, tripId, branchId, actor, channel, ps, reference, now);
      Evolves(db, next)
  {
  }

  lemma HoldInsertedKeepsRows(db: Db, tripId: nat, branchId: Option<nat>, actor: nat, channel: Channel,
                              ps: seq<PassengerInput>, reference: string, now: Instant)
    requires tripId in db.trips && db.trips[tripId].seatHoldMinutes.Some?
    requires SeatsFollowBookings(db.bookings, db.seats) && CommissionsOk(db.bookings, db.commissions)
    requires PaidOk(db.bookings, db.payments)
    ensures var next := HoldInserted(db, tripId, branchId, actor, channel, ps, reference, now);
      && SeatsFollowBookings(next.bookings, next.seats) && CommissionsOk(next.bookings, next.commissions)
      && PaidOk(next.bookings, next.payments)
  {
  }

  lemma HoldInsertedKeepsTickets(db: Db, tripId: nat, branchId: Option<nat>, actor: nat, channel: Channel,
                                 ps: seq<PassengerInput>, reference: string, now: Instant)
    requires tripId in db.trips && db.trips[tripId].seatHoldMinutes.Some?
    requires TicketsOk(db.bookings, db.seats, db.tickets)
    ensures var next := HoldInserted(db, tripId, branchId, actor, channel, ps, reference, now);
      TicketsOk(next.bookings, next.seats, next.tickets)
  {
    var next := HoldInserted(db, tripId, branchId, actor, channel, ps, reference, now);
    assert forall i :: 0 <= i < |db.seats| ==> next.seats[i] == db.seats[i];
    assert forall b :: 0 <= b < |db.bookings| ==> next.bookings[b] == db.bookings[b];
  }

  lemma HoldInsertedKeepsCore(swept: Db, tripId: nat, branchId: Option<nat>, actor: nat, channel: Channel,
                             ps: seq<PassengerInput>, reference: string, now: Instant)
    requires Core(swept)
    requires tripId in swept.trips && swept.trips[tripId].seatHoldMinutes.Some?
    requires SeatsInsertable(swept, tripId, ps)
    ensures var next := HoldInserted(swept, tripId, branchId, actor, channel, ps, reference, now);
      Core(next) && Evolves(swept, next)
  {
    var next := HoldInserted(swept, tripId, branchId, actor, channel, ps, reference, now);
    var id := |swept.bookings|;
    assert next.bookings[..id] == swept.bookings;
    InsertKeepsLog(swept, next, next.events[|swept.events|]);
    InsertKeepsMoney(swept, next, tripId, ps);
    InsertKeepsUnique(swept, tripId, id, ps, next.bookings[id].expiresAt);
    HoldInsertedKeepsKeys(swept, tripId, branchId, actor, channel, ps, reference, now);
    HoldInsertedKeepsRows(swept, tripId, branchId, actor, channel, ps, reference, now);
    HoldInsertedKeepsTickets(swept, tripId, branchId, actor, channel, ps, reference, now);
    HoldInsertedEvolves(swept, tripId, branchId, actor, channel, ps, reference, now);
  }

  // ---------------------------------------------------------------- cancelling

  lemma CancelKeepsLog(db: Db, bookingId: nat, actor: nat)
    requires LogOk(db.bookings, db.payments, db.tickets, db.events)
    requires bookingId < |db.bookings| && IsPayable(db.bookings[bookingId].status)
    ensures var next := CancelBooking(db, bookingId, actor); LogOk(next.bookings, next.payments, next.tickets, next.events)
  {
    var next := CancelBooking(db, bookingId, actor);
    forall b | 0 <= b < |next.bookings|
      ensures LogOf(b, next.bookings[b].status, next.payments, next.tickets, next.events)
    {
      assert LogOf(b, db.bookings[b].status, db.payments, db.tickets, db.events);
      forall kind: EventKind
        ensures Count(next.events, EventOf(b, kind))
             == Count(db.events, EventOf(b, kind)) + (if b == bookingId && kind.Cancelled? then 1 else 0)
      {
        CountPush(db.events, next.events[|db.events|], EventOf(b, kind));
      }
    }
  }

  lemma CancelKeepsMoney(db: Db, bookingId: nat, actor: nat)
    requires MoneyOk(db.bookings, db.seats, db.payments) && bookingId < |db.bookings|
    ensures var next := CancelBooking(db, bookingId, actor); MoneyOk(next.bookings, next.seats, next.payments)
  {
    var next := CancelBooking(db, bookingId, actor);
    forall b | 0 <= b < |next.bookings|
      ensures next.bookings[b].total == next.bookings[b].unitPrice * Count(next.seats, SeatOf(b))
    {
      SameSeatCount(db.seats, next.seats, b);
    }
  }

  lemma CancelKeepsPaid(db: Db, bookingId: nat, actor: nat)
    requires PaidOk(db.bookings, db.payments)
    requires bookingId < |db.bookings| && IsPayable(db.bookings[bookingId].status)
    ensures var next := CancelBooking(db, bookingId, actor); PaidOk(next.bookings, next.payments)
  {
    var next := CancelBooking(db, bookingId, actor);
    forall b | 0 <= b < |next.bookings| && next.bookings[b].status.Confirmed?
      ensures HasSettledPayment(next.payments, b)
    {
      assert db.bookings[b].status.Confirmed?;
    }
  }

  lemma CancelKeepsKeys(db: Db, bookingId: nat, actor: nat)
    requires KeysOk(db) && SurroundingsOk(db)
    requires bookingId < |db.bookings| && IsPayable(db.bookings[bookingId].status)
    ensures KeysOk(CancelBooking(db, bookingId, actor)) && SurroundingsOk(CancelBooking(db, bookingId, actor))
  {
  }

  lemma CancelKeepsRows(db: Db, bookingId: nat, actor: nat)
    requires SeatsFollowBookings(db.bookings, db.seats) && SeatsUnique(db.seats)
    requires CommissionsOk(db.bookings, db.commissions)
    requires bookingId < |db.bookings| && IsPayable(db.bookings[bookingId].status)
    ensures var next := CancelBooking(db, bookingId, actor);
      && SeatsFollowBookings(next.bookings, next.seats) && SeatsUnique(next.seats)
      && CommissionsOk(next.bookings, next.commissions)
  {
  }

  lemma CancelKeepsTickets(db: Db, bookingId: nat, actor: nat)
    requires SeatsFollowBookings(db.bookings, db.seats)
    requires KeysOk(db) && TicketsOk(db.bookings, db.seats, db.tickets)
    requires bookingId < |db.bookings| && IsPayable(db.bookings[bookingId].status)
    ensures var next := CancelBooking(db, bookingId, actor); TicketsOk(next.bookings, next.seats, next.tickets)
  {
  }

  lemma CancelEvolves(db: Db, bookingId: nat, actor: nat)
    requires SeatsFollowBookings(db.bookings, db.seats)
    requires bookingId < |db.bookings| && IsPayable(db.bookings[bookingId].status)
    ensures Evolves(db, CancelBooking(db, bookingId, actor))
  {
  }

  lemma CancelKeepsCore(db: Db, bookingId: nat, actor: nat)
    requires Core(db) && Cancellable(db, bookingId)
    ensures Core(CancelBooking(db, bookingId, actor)) && Evolves(db, CancelBooking(db, bookingId, actor))
  {
    CancelKeepsLog(db, bookingId, actor);
    CancelKeepsMoney(db, bookingId, actor);
    CancelKeepsPaid(db, bookingId, actor);
    CancelKeepsKeys(db, bookingId, actor);
    CancelKeepsRows(db, bookingId, actor);
    CancelKeepsTickets(db, bookingId, actor);
    CancelEvolves(db, bookingId, actor);
  }
}
