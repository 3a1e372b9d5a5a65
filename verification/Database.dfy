/**
 * The tables as mutable state, and the SQL statements the repositories run on them: one method per statement,
 * each changing only what its SET or INSERT names.
 */
module Database {
  import opened Wrappers
  import opened Identity
  import opened Tables
  import Spec = Reservation

  type Error = Spec.Error

  datatype ClaimOutcome = Claimed | Replay(record: Record) | Conflict
  datatype UpdateOutcome = UniqueViolation | NoRow | Changed

  /** The sweep's effect on one seat row. */
  lemma ReleasedSeats(db: Db, companyId: nat, tripId: Option<nat>, now: Instant)
    ensures var next := Spec.ReleaseExpired(db, companyId, tripId, now).seats;
      && |next| == |db.seats|
      && forall k :: 0 <= k < |next| ==>
           next[k] == if Spec.LapsedSeat(db.seats[k], db.bookings, companyId, tripId, now)
                      then db.seats[k].(status := SeatStatus.Released) else db.seats[k]
  {
  }

  class Database {
    var trips: map<nat, Trip>
    var memberships: seq<Membership>
    var bookings: seq<Booking>
    var passengers: seq<Passenger>
    var seats: seq<Seat>
    var payments: seq<Payment>
    var tickets: seq<Ticket>
    var commissions: seq<Commission>
    var events: seq<Event>
    var records: map<Key, Record>

    /** The value of all the tables. */
    function View(): Db
      reads this
    {
      Db(trips, memberships, bookings, passengers, seats, payments, tickets, commissions, events, records)
    }

    constructor (trips: map<nat, Trip>, memberships: seq<Membership>)
      ensures View() == Spec.EmptyDb(trips, memberships)
    {
      this.trips, this.memberships := trips, memberships;
      bookings, passengers, seats, payments, tickets, commissions, events := [], [], [], [], [], [], [];
      records := map[];
    }

    /** ROLLBACK: every table is again what it was at BEGIN. */
    method Rollback(saved: Db)
      modifies this
      ensures View() == saved
    {
      trips, memberships := saved.trips, saved.memberships;
      bookings, passengers, seats := saved.bookings, saved.passengers, saved.seats;
      payments, tickets, commissions := saved.payments, saved.tickets, saved.commissions;
      events, records := saved.events, saved.records;
    }

    // -------------------------------------------------------------- bookings

    /** The booking half of the sweep, row by row. */
    method MoveLapsed(companyId: nat, tripId: Option<nat>, now: Instant) returns (expired: seq<nat>)
      modifies `bookings
      ensures bookings == Spec.ExpireLapsed(old(bookings), companyId, tripId, now)
      ensures expired == Spec.LapsedIds(old(bookings), companyId, tripId, now)
    {
      ghost var before := bookings;
      expired := [];
      for i := 0 to |bookings|
        invariant |bookings| == |before|
        invariant forall k :: i <= k < |bookings| ==> bookings[k] == before[k]
        invariant forall k :: 0 <= k < i ==> bookings[k] == Spec.ExpireLapsed(before, companyId, tripId, now)[k]
        invariant expired == Spec.LapsedIds(before[..i], companyId, tripId, now)
      {
        assert before[..i + 1][..i] == before[..i];
        if Spec.Lapsed(bookings[i], companyId, tripId, now) {
          expired := expired + [i];
          bookings := bookings[i := Spec.MoveBooking(bookings[i], BookingTarget(Expire))];
        }
      }
      assert before[..|before|] == before;
    }

    /** UPDATE bookings ... EXPIRED with its joined UPDATE of the held seats; RETURNING the moved ids. */
    method ReleaseExpired(companyId: nat, tripId: Option<nat>, now: Instant) returns (expired: seq<nat>)
      modifies `bookings, `seats
      ensures View() == Spec.ReleaseExpired(old(View()), companyId, tripId, now)
      ensures expired == Spec.LapsedIds(old(bookings), companyId, tripId, now)
    {
      ghost var saved := View();
      var before := bookings;
      expired := MoveLapsed(companyId, tripId, now);
      SetSeats((s: Seat) => Spec.LapsedSeat(s, before, companyId, tripId, now), SeatStatus.Released);
      ReleasedSeats(saved, companyId, tripId, now);
      assert forall k :: 0 <= k < |seats| ==> seats[k] == Spec.ReleaseExpired(saved, companyId, tripId, now).seats[k];
    }

    method AppendEvent(bookingId: nat, companyId: nat, actor: Option<nat>, kind: EventKind)
      modifies `events
      ensures View() == Spec.AppendEvent(old(View()), bookingId, companyId, actor, kind)
    {
      events := events + [Event(bookingId, companyId, actor, kind)];
    }

    /** INSERT ... SELECT ... ON CONFLICT DO NOTHING RETURNING id. */
    method InsertBooking(tripId: nat, companyId: nat, branchId: Option<nat>, actor: nat, channel: Channel,
                         passengerCount: nat, reference: string, now: Instant) returns (id: Option<nat>)
      modifies `bookings
      ensures var r := Spec.InsertBooking(old(View()), tripId, companyId, branchId, actor, channel, passengerCount, reference, now);
        if r.Some? then View() == r.value && id == Some(old(|bookings|)) else View() == old(View()) && id.None?
    {
      if !Spec.TripForBookingFound(View(), tripId, companyId) || !Spec.IsTripBookable(trips[tripId], now)
         || Spec.ReferenceTaken(bookings, reference) {
        return None;
      }
      id := Some(|bookings|);
      bookings := bookings + [Spec.NewBooking(trips[tripId], tripId, branchId, actor, channel, passengerCount, reference, now)];
    }

    method InsertPassenger(bookingId: nat, gender: Gender) returns (id: nat)
      modifies `passengers
      ensures passengers == old(passengers) + [Passenger.Passenger(bookingId, gender)] && id == old(|passengers|)
    {
      id := |passengers|;
      passengers := passengers + [Passenger.Passenger(bookingId, gender)];
    }

    /** INSERT of a held seat: the layout trigger, then the active-seat unique index. */
    method InsertSeat(tripId: nat, bookingId: nat, passengerId: nat, seatNumber: string) returns (error: Option<Error>)
      requires bookingId < |bookings|
      modifies `seats
      ensures error == if tripId !in trips || seatNumber !in trips[tripId].layout then Some(Spec.InvalidSeatSelection)
                       else if Spec.SeatTaken(old(seats), tripId, seatNumber) then Some(Spec.SeatAlreadyReserved) else None
      ensures seats == old(seats) + if error.None?
        then [Seat(tripId, bookingId, passengerId, seatNumber, SeatStatus.Held, bookings[bookingId].expiresAt)] else []
    {
      if tripId !in trips || seatNumber !in trips[tripId].layout {
        return Some(Spec.InvalidSeatSelection);
      }
      if Spec.SeatTaken(seats, tripId, seatNumber) {
        return Some(Spec.SeatAlreadyReserved);
      }
      seats := seats + [Seat(tripId, bookingId, passengerId, seatNumber, SeatStatus.Held, bookings[bookingId].expiresAt)];
      error := None;
    }

    /** UPDATE bookings SET status = CANCELLED with the guards of the statement; true when a row was returned. */
    method CancelOpenBooking(bookingId: nat) returns (cancelled: bool)
      modifies `bookings
      ensures cancelled == Spec.Cancellable(old(View()), bookingId)
      ensures bookings == if cancelled then old(bookings)[bookingId := Spec.MoveBooking(old(bookings)[bookingId], BookingTarget(Cancel))]
                          else old(bookings)
    {
      cancelled := Spec.Cancellable(View(), bookingId);
      if cancelled {
        bookings := bookings[bookingId := Spec.MoveBooking(bookings[bookingId], BookingTarget(Cancel))];
      }
    }

    /** A set UPDATE of the seats of one booking. */
    method SetSeats(which: Seat -> bool, to: SeatStatus)
      modifies `seats
      ensures seats == Spec.SetSeatStatus(old(seats), which, to)
    {
      ghost var before := seats;
      for i := 0 to |seats|
        invariant |seats| == |before|
        invariant forall k :: 0 <= k < |seats| ==>
          seats[k] == if k < i && which(before[k]) then before[k].(status := to) else before[k]
      {
        if which(seats[i]) {
          seats := seats[i := seats[i].(status := to)];
        }
      }
      assert seats == Spec.SetSeatStatus(before, which, to);
    }

    // -------------------------------------------------------------- idempotency

    method ClaimIdempotency(key: Key, fingerprint: Fingerprint, now: Instant) returns (claim: ClaimOutcome)
      modifies `records
      ensures match Spec.ClaimIdempotency(old(View()), key, fingerprint, now)
              case Claimed(db) => claim.Claimed? && View() == db
              case Replay(record) => claim == Replay(record) && View() == old(View())
              case Conflict => claim.Conflict? && View() == old(View())
    {
      if !Spec.RecordLive(View(), key, now) {
        records := records[key := Record(fingerprint, None, None, now + IDEMPOTENCY_LIFETIME)];
        return Claimed;
      }
      var row := records[key];
      if row.fingerprint != fingerprint
         || (if key.operation.CreatePayment? then row.paymentId else row.bookingId).None? {
        return Conflict;
      }
      claim := Replay(row);
    }

    method CompleteBooking(key: Key, bookingId: nat)
      modifies `records
      ensures View() == Spec.CompleteBooking(old(View()), key, bookingId)
    {
      if key in records && records[key].bookingId.None? {
        records := records[key := records[key].(bookingId := Some(bookingId))];
      }
    }

    method CompletePayment(key: Key, bookingId: nat, paymentId: nat)
      modifies `records
      ensures View() == Spec.CompletePayment(old(View()), key, bookingId, paymentId)
    {
      if key in records && records[key].paymentId.None? {
        records := records[key := records[key].(bookingId := Some(bookingId), paymentId := Some(paymentId))];
      }
    }

    // -------------------------------------------------------------- payments

    method InsertPayment(bookingId: nat, tender: PaymentMethod, reference: string, now: Instant) returns (id: Option<nat>)
      modifies `payments
      ensures var r := Spec.InsertPayment(old(View()), bookingId, tender, reference, now);
        if r.Some? then View() == r.value && id == Some(old(|payments|)) else View() == old(View()) && id.None?
    {
      if bookingId >= |bookings| || !IsPayable(bookings[bookingId].status) || bookings[bookingId].expiresAt <= now
         || Spec.HasSettledPayment(payments, bookingId) || Spec.InternalReferenceTaken(payments, reference) {
        return None;
      }
      id := Some(|payments|);
      var b := bookings[bookingId];
      payments := payments + [Payment(bookingId, tender, PaymentStatus.Pending, b.total, b.currency, None, reference, None, None)];
    }

    method TransitionPayment(p: nat, from: PaymentStatus, to: PaymentStatus, reference: Option<string>,
                             confirmedBy: Option<nat>, paidAt: Option<Instant>) returns (outcome: UpdateOutcome)
      requires p < |payments|
      modifies `payments
      ensures match Spec.TransitionPayment(old(payments), p, from, to, reference, confirmedBy, paidAt)
              case UniqueViolation => outcome.UniqueViolation? && payments == old(payments)
              case NoRow => outcome.NoRow? && payments == old(payments)
              case Changed(rows) => outcome.Changed? && payments == rows
    {
      if payments[p].status != from {
        return NoRow;
      }
      if Spec.SettlementTaken(payments, p, to) || Spec.ProviderReferenceUsed(payments, p, reference) {
        return UniqueViolation;
      }
      payments := payments[p := payments[p].(
        status := to,
        providerReference := Spec.Coalesce(reference, payments[p].providerReference),
        confirmedBy := Spec.Coalesce(confirmedBy, payments[p].confirmedBy),
        paidAt := Spec.Coalesce(paidAt, payments[p].paidAt))];
      outcome := Changed;
    }

    /** The booking moves first; only if it did do its held seats follow. */
    method ConfirmBookingPaid(bookingId: nat) returns (confirmed: bool)
      modifies `bookings, `seats
      ensures View() == Spec.ConfirmBookingPaid(old(View()), bookingId)
      ensures confirmed <==> bookingId < old(|bookings|) && IsPayable(old(bookings)[bookingId].status)
    {
      confirmed := bookingId < |bookings| && IsPayable(bookings[bookingId].status);
      if confirmed {
        bookings := bookings[bookingId := Spec.MoveBooking(bookings[bookingId], BookingStatus.Confirmed)];
        SetSeats((s: Seat) => s.bookingId == bookingId && s.status.Held?, SeatStatus.Confirmed);
      }
    }

    // -------------------------------------------------------------- commissions

    /** INSERT ... SELECT over the memberships that join, ON CONFLICT DO NOTHING. */
    method CreateEligible(bookingId: nat)
      requires bookingId < |bookings|
      modifies `commissions
      ensures commissions == Spec.CreateEligible(old(commissions), memberships, bookings[bookingId], bookingId)
    {
      var b := bookings[bookingId];
      ghost var before := commissions;
      for i := 0 to |memberships|
        invariant commissions == Spec.CreateEligible(before, memberships[..i], b, bookingId)
      {
        var m := memberships[i];
        assert memberships[..i + 1][..i] == memberships[..i];
        if Spec.EarnsCommission(m, b) && !Spec.CommissionExists(commissions, m.id, bookingId) {
          commissions := commissions + [Commission(m.id, bookingId, b.companyId, m.commissionRate, b.total,
                                                   Spec.CommissionAmount(b.total, m.commissionRate), b.currency, Earned)];
        }
      }
      assert memberships[..|memberships|] == memberships;
    }

    method ApplyFullRefund(bookingId: nat)
      modifies `commissions
      ensures View() == Spec.ApplyFullRefund(old(View()), bookingId)
    {
      if Spec.RefundCancelsCommission(View(), bookingId) {
        commissions := Spec.CancelCommissions(commissions, bookingId);
      }
    }

    // -------------------------------------------------------------- tickets

    method InsertTicket(bookingId: nat, seatId: nat, draft: Spec.TicketDraft, now: Instant) returns (id: Option<nat>)
      requires seatId < |seats|
      modifies `tickets
      ensures tickets == Spec.InsertTicket(old(View()), bookingId, seatId, draft, now)
      ensures id == if |tickets| > old(|tickets|) then Some(old(|tickets|)) else None
    {
      var passengerId := seats[seatId].passengerId;
      if Spec.TicketConflicts(tickets, bookingId, passengerId, seatId, draft) {
        return None;
      }
      id := Some(|tickets|);
      tickets := tickets + [Ticket(bookingId, passengerId, seatId, draft.number, draft.hash, now, None, None)];
    }

    /** SET checked_in_at WHERE neither stamped nor cancelled. */
    method CheckInTicket(ticketId: nat, now: Instant) returns (checked: bool)
      requires ticketId < |tickets|
      modifies `tickets
      ensures checked == (old(tickets)[ticketId].checkedInAt.None? && old(tickets)[ticketId].cancelledAt.None?)
      ensures tickets == if checked then old(tickets)[ticketId := old(tickets)[ticketId].(checkedInAt := Some(now))] else old(tickets)
    {
      checked := tickets[ticketId].checkedInAt.None? && tickets[ticketId].cancelledAt.None?;
      if checked {
        tickets := tickets[ticketId := tickets[ticketId].(checkedInAt := Some(now))];
      }
    }

    method CheckInSeat(seatId: nat)
      modifies `seats
      ensures seats == if seatId < old(|seats|) && old(seats)[seatId].status.Confirmed?
                       then old(seats)[seatId := old(seats)[seatId].(status := SeatStatus.CheckedIn)] else old(seats)
    {
      if seatId < |seats| && seats[seatId].status.Confirmed? {
        seats := seats[seatId := seats[seatId].(status := SeatStatus.CheckedIn)];
      }
    }

    /** SET cancelled_at WHERE neither stamped nor cancelled. */
    method RevokeTicket(ticketId: nat, now: Instant) returns (revoked: bool)
      requires ticketId < |tickets|
      modifies `tickets
      ensures revoked == (old(tickets)[ticketId].checkedInAt.None? && old(tickets)[ticketId].cancelledAt.None?)
      ensures tickets == if revoked then old(tickets)[ticketId := old(tickets)[ticketId].(cancelledAt := Some(now))] else old(tickets)
    {
      revoked := tickets[ticketId].checkedInAt.None? && tickets[ticketId].cancelledAt.None?;
      if revoked {
        tickets := tickets[ticketId := tickets[ticketId].(cancelledAt := Some(now))];
      }
    }
  }
}
