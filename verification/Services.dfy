/**
 * The services as the source writes them: statement after statement and loop after loop on the mutable tables,
 * inside a transaction that commits or rolls back. Each leaves the tables exactly as its specification says.
 */
module Services {
  import opened Wrappers
  import opened Identity
  import opened Tables
  import opened Database
  import Spec = Reservation

  // ---------------------------------------------------------------- how the loops meet the specification

  /** The passenger loop stops at its first error: so does the specification. */
  lemma {:induction false} FirstErrorStands(db: Db, tripId: nat, bookingId: nat, ps: seq<PassengerInput>, n: nat)
    requires bookingId < |db.bookings| && n <= |ps| && Spec.InsertPassengers(db, tripId, bookingId, ps[..n]).Failure?
    ensures Spec.InsertPassengers(db, tripId, bookingId, ps) == Spec.InsertPassengers(db, tripId, bookingId, ps[..n])
  {
    if n < |ps| {
      var init := ps[..|ps| - 1];
      assert init[..n] == ps[..n];
      FirstErrorStands(db, tripId, bookingId, init, n);
    } else {
      assert ps[..n] == ps;
    }
  }

  lemma NextPassenger(db: Db, tripId: nat, bookingId: nat, ps: seq<PassengerInput>, i: nat)
    requires bookingId < |db.bookings| && i < |ps|
    requires Spec.InsertPassengers(db, tripId, bookingId, ps[..i]).Success?
    ensures Spec.InsertPassengers(db, tripId, bookingId, ps[..i + 1])
         == Spec.InsertPassengerAndSeat(Spec.InsertPassengers(db, tripId, bookingId, ps[..i]).value, tripId, bookingId, ps[i])
  {
    assert ps[..i + 1][..i] == ps[..i];
  }

  // ---------------------------------------------------------------- bookings

  class BookingsService {
    const db: Database

    constructor (db: Database)
      ensures this.db == db
    {
      this.db := db;
    }

    /** insertPassenger and insertSeat for one passenger. */
    method InsertPassengerAndSeat(tripId: nat, bookingId: nat, p: PassengerInput) returns (error: Option<Error>)
      requires bookingId < |db.bookings|
      modifies db
      ensures match Spec.InsertPassengerAndSeat(old(db.View()), tripId, bookingId, p)
              case Success(next) => error.None? && db.View() == next
              case Failure(e) => error == Some(e)
    {
      var passengerId := db.InsertPassenger(bookingId, p.gender);
      error := db.InsertSeat(tripId, bookingId, passengerId, p.seat);
    }

    /** Three references are tried; a trip that stops being bookable ends the attempts at once. */
    method InsertBookingWithRetry(tripId: nat, companyId: nat, branchId: Option<nat>, actor: nat, channel: Channel,
                                  passengerCount: nat, references: Spec.References, now: Instant) returns (r: Result<nat, Error>)
      modifies db
      ensures match Spec.InsertWithRetry(old(db.View()), tripId, companyId, branchId, actor, channel, passengerCount, references, 0, now)
              case Success(next) => db.View() == next && r == Success(old(|db.bookings|)) && |db.bookings| == old(|db.bookings|) + 1
              case Failure(e) => r == Failure(e)
    {
      ghost var start := db.View();
      for attempt := 0 to 3
        invariant db.View() == start
        invariant Spec.InsertWithRetry(start, tripId, companyId, branchId, actor, channel, passengerCount, references, 0, now)
               == Spec.InsertWithRetry(start, tripId, companyId, branchId, actor, channel, passengerCount, references, attempt, now)
      {
        var id := db.InsertBooking(tripId, companyId, branchId, actor, channel, passengerCount, references[attempt], now);
        if id.Some? {
          return Success(id.value);
        }
        if !Spec.TripForBookingFound(db.View(), tripId, companyId) || !Spec.IsTripBookable(db.trips[tripId], now) {
          return Failure(Spec.TripNotBookable);
        }
      }
      r := Failure(Spec.BookingReferenceUnavailable);
    }

    /** releaseExpired, then one EXPIRED event per returned booking. */
    method SweepExpired(companyId: nat, tripId: Option<nat>, now: Instant) returns (count: nat)
      modifies db
      ensures db.View() == Spec.Sweep(old(db.View()), companyId, tripId, now)
      ensures count == |Spec.LapsedIds(old(db.bookings), companyId, tripId, now)|
    {
      ghost var start := db.View();
      var expired := db.ReleaseExpired(companyId, tripId, now);
      ghost var released := db.View();
      for i := 0 to |expired|
        invariant db.View() == released.(events := start.events + Spec.ExpiryEvents(expired[..i], companyId))
      {
        db.AppendEvent(expired[i], companyId, None, EventKind.Expired);
        assert Spec.ExpiryEvents(expired[..i + 1], companyId)
            == Spec.ExpiryEvents(expired[..i], companyId) + [Event(expired[i], companyId, None, EventKind.Expired)];
      }
      assert expired[..|expired|] == expired;
      count := |expired|;
    }

    method ExpireBookings(companyId: nat, now: Instant) returns (count: nat)
      modifies db
      ensures db.View() == Spec.Sweep(old(db.View()), companyId, None, now)
      ensures count == |Spec.LapsedIds(old(db.bookings), companyId, None, now)|
    {
      count := SweepExpired(companyId, None, now);
    }

    method SeatPassengers(tripId: nat, bookingId: nat, ps: seq<PassengerInput>) returns (error: Option<Error>)
      requires bookingId < |db.bookings|
      modifies db
      ensures match Spec.InsertPassengers(old(db.View()), tripId, bookingId, ps)
              case Success(next) => error.None? && db.View() == next
              case Failure(e) => error == Some(e)
    {
      ghost var start := db.View();
      for i := 0 to |ps|
        invariant bookingId < |db.bookings|
        invariant Spec.InsertPassengers(start, tripId, bookingId, ps[..i]) == Success(db.View())
      {
        NextPassenger(start, tripId, bookingId, ps, i);
        error := InsertPassengerAndSeat(tripId, bookingId, ps[i]);
        if error.Some? {
          FirstErrorStands(start, tripId, bookingId, ps, i + 1);
          return;
        }
        assert Spec.InsertPassengers(start, tripId, bookingId, ps[..i + 1]).Success?;
      }
      assert ps[..|ps|] == ps;
      error := None;
    }

    /** createClaimed up to the created booking's event. */
    method CreateHold(tripId: nat, companyId: nat, branchId: Option<nat>, actor: nat, channel: Channel,
                      ps: seq<PassengerInput>, references: Spec.References, now: Instant) returns (r: Result<nat, Error>)
      modifies db
      ensures match Spec.CreateHold(old(db.View()), tripId, companyId, branchId, actor, channel, ps, references, now)
              case Success(next) => db.View() == next && r == Success(old(|db.bookings|))
              case Failure(e) => r == Failure(e)
    {
      if !Spec.TripForBookingFound(db.View(), tripId, companyId) || !Spec.IsTripBookable(db.trips[tripId], now) {
        return Failure(Spec.TripNotBookable);
      }
      var swept := SweepExpired(companyId, Some(tripId), now);
      var bookingId :- InsertBookingWithRetry(tripId, companyId, branchId, actor, channel, |ps|, references, now);
      r := SeatAndLog(tripId, companyId, actor, bookingId, ps);
    }

    /** The passengers, the seats and the event of the booking row inserted last. */
    method SeatAndLog(tripId: nat, companyId: nat, actor: nat, bookingId: nat, ps: seq<PassengerInput>) returns (r: Result<nat, Error>)
      requires |db.bookings| == bookingId + 1
      modifies db
      ensures match Spec.SeatAndLog(old(db.View()), tripId, companyId, actor, ps)
              case Success(next) => db.View() == next && r == Success(bookingId)
              case Failure(e) => r == Failure(e)
    {
      var error := SeatPassengers(tripId, bookingId, ps);
      if error.Some? {
        return Failure(error.value);
      }
      db.AppendEvent(bookingId, companyId, Some(actor), EventKind.BookingCreated);
      r := Success(bookingId);
    }

    method PassengerBookingWork(actor: nat, text: string, input: BookingInput, references: Spec.References, now: Instant)
      returns (r: Result<nat, Error>)
      modifies db
      ensures match Spec.CreatePassengerBookingTx(old(db.View()), actor, text, input, references, now)
              case Success(done) => db.View() == done.0 && r == Success(done.1)
              case Failure(e) => r == Failure(e)
    {
      if !Spec.ValidInput(input) {
        return Failure(Spec.InvalidSeatSelection);
      }
      if input.tripId !in db.trips {
        return Failure(Spec.TripNotBookable);
      }
      var companyId := db.trips[input.tripId].companyId;
      var key := Key(companyId, actor, Operation.CreatePassengerBooking, text);
      var claim := db.ClaimIdempotency(key, PassengerBooking(input), now);
      match claim {
        case Conflict => return Failure(Spec.IdempotencyConflict);
        case Replay(record) =>
          if record.bookingId.Some? && Spec.FoundForOwner(db.View(), actor, record.bookingId.value) {
            return Success(record.bookingId.value);
          }
          return Failure(Spec.BookingNotFound);
        case Claimed =>
          var bookingId :- CreateHold(input.tripId, companyId, None, actor, Channel.Web, input.passengers, references, now);
          db.CompleteBooking(key, bookingId);
          if Spec.FoundForOwner(db.View(), actor, bookingId) {
            return Success(bookingId);
          }
          return Failure(Spec.BookingNotFound);
      }
    }

    method CreatePassengerBooking(actor: nat, text: string, input: BookingInput, references: Spec.References, now: Instant)
      returns (r: Result<nat, Error>)
      modifies db
      ensures match Spec.CreatePassengerBookingTx(old(db.View()), actor, text, input, references, now)
              case Success(done) => db.View() == done.0 && r == Success(done.1)
              case Failure(e) => db.View() == old(db.View()) && r == Failure(e)
    {
      var saved := db.View();
      r := PassengerBookingWork(actor, text, input, references, now);
      if r.Failure? {
        db.Rollback(saved);
      }
    }

    method AgentBookingWork(actor: nat, companyId: nat, branchId: nat, text: string, input: BookingInput,
                            references: Spec.References, now: Instant) returns (r: Result<nat, Error>)
      modifies db
      ensures match Spec.CreateAgentBookingTx(old(db.View()), actor, companyId, branchId, text, input, references, now)
              case Success(done) => db.View() == done.0 && r == Success(done.1)
              case Failure(e) => r == Failure(e)
    {
      if !Spec.ValidInput(input) {
        return Failure(Spec.InvalidSeatSelection);
      }
      var entitlements := ResolveEntitlements(Spec.FindMemberships(db.memberships, actor, companyId));
      if !CanExercisePermissionInBranch(entitlements, BookingsCreate, branchId) {
        return Failure(Spec.BranchForbidden);
      }
      var key := Key(companyId, actor, Operation.CreateAgentBooking, text);
      var claim := db.ClaimIdempotency(key, AgentBooking(companyId, branchId, input), now);
      match claim {
        case Conflict => return Failure(Spec.IdempotencyConflict);
        case Replay(record) =>
          var scope := ComputeAccessScope(entitlements, BookingsRead);
          if record.bookingId.Some? && Spec.FoundForCompany(db.View(), companyId, scope, record.bookingId.value) {
            return Success(record.bookingId.value);
          }
          return Failure(Spec.BookingNotFound);
        case Claimed =>
          var bookingId :- CreateHold(input.tripId, companyId, Some(branchId), actor, Channel.AgentDesk, input.passengers, references, now);
          db.CompleteBooking(key, bookingId);
          if Spec.FoundForCompany(db.View(), companyId, Scope(false, {branchId}), bookingId) {
            return Success(bookingId);
          }
          return Failure(Spec.BookingNotFound);
      }
    }

    method CreateAgentBooking(actor: nat, companyId: nat, branchId: nat, text: string, input: BookingInput,
                              references: Spec.References, now: Instant) returns (r: Result<nat, Error>)
      modifies db
      ensures match Spec.CreateAgentBookingTx(old(db.View()), actor, companyId, branchId, text, input, references, now)
              case Success(done) => db.View() == done.0 && r == Success(done.1)
              case Failure(e) => db.View() == old(db.View()) && r == Failure(e)
    {
      var saved := db.View();
      r := AgentBookingWork(actor, companyId, branchId, text, input, references, now);
      if r.Failure? {
        db.Rollback(saved);
      }
    }

    /** cancel, then the booking's seats, then the event; refused without changing anything. */
    method CancelVisible(actor: nat, bookingId: nat, visible: bool) returns (r: Result<(), Error>)
      modifies db
      ensures match Spec.CancelVisible(old(db.View()), actor, bookingId, visible)
              case Success(next) => r == Success(()) && db.View() == next
              case Failure(e) => r == Failure(e) && db.View() == old(db.View())
    {
      if !visible || bookingId >= |db.bookings| {
        return Failure(Spec.BookingNotFound);
      }
      ghost var start := db.View();
      var cancelled := db.CancelOpenBooking(bookingId);
      if !cancelled {
        return Failure(Spec.BookingNotCancellable);
      }
      db.SetSeats((s: Seat) => s.bookingId == bookingId && (s.status.Held? || s.status.Confirmed?), SeatStatus.Cancelled);
      db.AppendEvent(bookingId, db.bookings[bookingId].companyId, Some(actor), EventKind.Cancelled);
      assert db.seats == Spec.CancelBooking(start, bookingId, actor).seats;
      r := Success(());
    }

    method CancelOwnedBooking(actor: nat, bookingId: nat) returns (r: Result<(), Error>)
      modifies db
      ensures match Spec.CancelOwnedTx(old(db.View()), actor, bookingId)
              case Success(next) => r == Success(()) && db.View() == next
              case Failure(e) => r == Failure(e) && db.View() == old(db.View())
    {
      r := CancelVisible(actor, bookingId, Spec.FoundForOwner(db.View(), actor, bookingId));
    }

    method CancelCompanyBooking(actor: nat, companyId: nat, bookingId: nat) returns (r: Result<(), Error>)
      modifies db
      ensures match Spec.CancelCompanyTx(old(db.View()), actor, companyId, bookingId)
              case Success(next) => r == Success(()) && db.View() == next
              case Failure(e) => r == Failure(e) && db.View() == old(db.View())
    {
      var scope := ComputeAccessScope(ResolveEntitlements(Spec.FindMemberships(db.memberships, actor, companyId)), BookingsCancel);
      r := CancelVisible(actor, bookingId, Spec.FoundForCompany(db.View(), companyId, scope, bookingId));
    }
  }

  // ---------------------------------------------------------------- payments

  class PaymentsService {
    const db: Database

    constructor (db: Database)
      ensures this.db == db
    {
      this.db := db;
    }

    method InsertPaymentWithRetry(bookingId: nat, tender: PaymentMethod, references: Spec.References, now: Instant) returns (id: Option<nat>)
      modifies db
      ensures match Spec.InsertPaymentWithRetry(old(db.View()), bookingId, tender, references, 0, now)
              case Some(next) => db.View() == next && id == Some(old(|db.payments|)) && |db.payments| == old(|db.payments|) + 1
              case None => db.View() == old(db.View()) && id.None?
    {
      ghost var start := db.View();
      for attempt := 0 to 3
        invariant db.View() == start
        invariant Spec.InsertPaymentWithRetry(start, bookingId, tender, references, 0, now)
               == Spec.InsertPaymentWithRetry(start, bookingId, tender, references, attempt, now)
      {
        id := db.InsertPayment(bookingId, tender, references[attempt], now);
        if id.Some? {
          return;
        }
      }
      id := None;
    }

    /** createClaimed: claim or replay, insert with retries, log, open the provider settlement, complete the record. */
    method CreateClaimed(actor: nat, key: Key, fingerprint: Fingerprint, bookingId: nat, tender: PaymentMethod,
                         references: Spec.References, providerReference: string, now: Instant) returns (r: Result<nat, Error>)
      requires bookingId < |db.bookings|
      modifies db
      ensures match Spec.CreateClaimedPayment(old(db.View()), actor, key, fingerprint, bookingId, tender, references, providerReference, now)
              case Success(done) => db.View() == done.0 && r == Success(done.1)
              case Failure(e) => r == Failure(e)
    {
      var claim := db.ClaimIdempotency(key, fingerprint, now);
      match claim {
        case Conflict => return Failure(Spec.IdempotencyConflict);
        case Replay(record) =>
          if record.paymentId.Some? && record.paymentId.value < |db.payments| {
            return Success(record.paymentId.value);
          }
          return Failure(Spec.PaymentNotFound);
        case Claimed =>
      }
      var b := db.bookings[bookingId];
      if !IsPayable(b.status) || b.expiresAt <= now {
        return Failure(Spec.BookingNotPayable);
      }
      var inserted := InsertPaymentWithRetry(bookingId, tender, references, now);
      if inserted.None? {
        return Failure(Spec.PaymentReferenceUnavailable);
      }
      r := LogAndOpen(actor, key, bookingId, b.companyId, inserted.value, tender, providerReference);
    }

    /** The rest of createClaimed after its insert. */
    method LogAndOpen(actor: nat, key: Key, bookingId: nat, companyId: nat, paymentId: nat, tender: PaymentMethod,
                      providerReference: string) returns (r: Result<nat, Error>)
      requires paymentId < |db.payments|
      modifies db
      ensures match Spec.LogAndOpen(old(db.View()), actor, key, bookingId, companyId, paymentId, tender, providerReference)
              case Success(done) => db.View() == done.0 && r == Success(done.1)
              case Failure(e) => r == Failure(e)
    {
      db.AppendEvent(bookingId, companyId, Some(actor), EventKind.PaymentPending);
      if IsOnlineMethod(tender) {
        var outcome := db.TransitionPayment(paymentId, PaymentStatus.Pending, PaymentStatus.Processing,
                                            Some(providerReference), None, None);
        if outcome.UniqueViolation? {
          return Failure(Spec.ProviderReferenceTaken);
        }
      }
      db.CompletePayment(key, bookingId, paymentId);
      r := Success(paymentId);
    }

    method CreatePassengerPayment(actor: nat, text: string, bookingId: nat, tender: PaymentMethod,
                                  references: Spec.References, providerReference: string, now: Instant) returns (r: Result<nat, Error>)
      modifies db
      ensures match Spec.CreatePassengerPaymentTx(old(db.View()), actor, text, bookingId, tender, references, providerReference, now)
              case Success(done) => db.View() == done.0 && r == Success(done.1)
              case Failure(e) => db.View() == old(db.View()) && r == Failure(e)
    {
      if !IsOnlineMethod(tender) {
        return Failure(Spec.PaymentMethodNotAllowed);
      }
      if !Spec.FoundForOwner(db.View(), actor, bookingId) {
        return Failure(Spec.BookingNotFound);
      }
      var saved := db.View();
      var companyId := db.bookings[bookingId].companyId;
      r := CreateClaimed(actor, Key(companyId, actor, Operation.CreatePayment, text), OwnerPayment(actor, bookingId, tender),
                         bookingId, tender, references, providerReference, now);
      if r.Success? && !Spec.PaymentLoads(db.View(), r.value, Some(actor), companyId) {
        r := Failure(Spec.PaymentNotFound);
      }
      if r.Failure? {
        db.Rollback(saved);
      }
    }

    method CreateCompanyPayment(actor: nat, companyId: nat, text: string, bookingId: nat, tender: PaymentMethod,
                                references: Spec.References, providerReference: string, now: Instant) returns (r: Result<nat, Error>)
      modifies db
      ensures match Spec.CreateCompanyPaymentTx(old(db.View()), actor, companyId, text, bookingId, tender, references, providerReference, now)
              case Success(done) => db.View() == done.0 && r == Success(done.1)
              case Failure(e) => db.View() == old(db.View()) && r == Failure(e)
    {
      var scope := ComputeAccessScope(ResolveEntitlements(Spec.FindMemberships(db.memberships, actor, companyId)), PaymentsConfirm);
      if !Spec.FoundForCompany(db.View(), companyId, scope, bookingId) {
        return Failure(Spec.BookingNotFound);
      }
      var saved := db.View();
      r := CreateClaimed(actor, Key(companyId, actor, Operation.CreatePayment, text),
                         CompanyPayment(actor, companyId, bookingId, tender), bookingId, tender, references, providerReference, now);
      if r.Success? && !Spec.PaymentLoads(db.View(), r.value, None, companyId) {
        r := Failure(Spec.PaymentNotFound);
      }
      if r.Failure? {
        db.Rollback(saved);
      }
    }

    /** settle: the payment row, the booking and its seats, the event, the commissions. */
    method Settle(p: nat, from: PaymentStatus, actor: Option<nat>, reference: Option<string>, now: Instant) returns (r: Result<(), Error>)
      requires p < |db.payments| && db.payments[p].bookingId < |db.bookings|
      modifies db
      ensures match Spec.Settle(old(db.View()), p, from, actor, reference, now)
              case Success(next) => r == Success(()) && db.View() == next
              case Failure(e) => r == Failure(e) && db.View() == old(db.View())
    {
      var bookingId := db.payments[p].bookingId;
      var companyId := db.bookings[bookingId].companyId;
      var outcome := db.TransitionPayment(p, from, PaymentStatus.Succeeded, reference, actor, Some(now));
      match outcome {
        case UniqueViolation => return Failure(Spec.PaymentAlreadySettled);
        case NoRow => return Failure(Spec.PaymentNotConfirmable);
        case Changed =>
      }
      var confirmed := db.ConfirmBookingPaid(bookingId);
      db.AppendEvent(bookingId, companyId, actor, EventKind.PaymentConfirmed);
      db.CreateEligible(bookingId);
      r := Success(());
    }

    method ConfirmCashPayment(actor: nat, companyId: nat, paymentId: nat, now: Instant) returns (r: Result<(), Error>)
      modifies db
      ensures match Spec.ConfirmCashTx(old(db.View()), actor, companyId, paymentId, now)
              case Success(next) => r == Success(()) && db.View() == next
              case Failure(e) => r == Failure(e) && db.View() == old(db.View())
    {
      var scope := ComputeAccessScope(ResolveEntitlements(Spec.FindMemberships(db.memberships, actor, companyId)), PaymentsConfirm);
      if !Spec.PaymentInScope(db.View(), companyId, scope, paymentId) {
        return Failure(Spec.PaymentNotFound);
      }
      if !db.payments[paymentId].tender.Cash? {
        return Failure(Spec.PaymentMethodNotAllowed);
      }
      if !db.payments[paymentId].status.Pending? {
        return Failure(Spec.PaymentNotConfirmable);
      }
      r := Settle(paymentId, PaymentStatus.Pending, Some(actor), None, now);
    }

    method RefundPayment(actor: nat, companyId: nat, paymentId: nat) returns (r: Result<(), Error>)
      modifies db
      ensures match Spec.RefundPaymentTx(old(db.View()), actor, companyId, paymentId)
              case Success(next) => r == Success(()) && db.View() == next
              case Failure(e) => r == Failure(e) && db.View() == old(db.View())
    {
      var scope := ComputeAccessScope(ResolveEntitlements(Spec.FindMemberships(db.memberships, actor, companyId)), PaymentsRefund);
      if !Spec.PaymentInScope(db.View(), companyId, scope, paymentId) {
        return Failure(Spec.PaymentNotFound);
      }
      if !db.payments[paymentId].status.Succeeded? {
        return Failure(Spec.PaymentNotRefundable);
      }
      var bookingId := db.payments[paymentId].bookingId;
      var outcome := db.TransitionPayment(paymentId, PaymentStatus.Succeeded, PaymentStatus.Refunded, None, None, None);
      if !outcome.Changed? {
        return Failure(Spec.PaymentNotRefundable);
      }
      db.ApplyFullRefund(bookingId);
      db.AppendEvent(bookingId, db.bookings[bookingId].companyId, Some(actor), EventKind.RefundCreated);
      db.AppendEvent(bookingId, db.bookings[bookingId].companyId, Some(actor), EventKind.RefundCompleted);
      r := Success(());
    }

    method HandleWebhook(e: Spec.ProviderEvent, now: Instant) returns (r: Result<(), Error>)
      modifies db
      ensures match Spec.HandleWebhookTx(old(db.View()), e, now)
              case Success(next) => r == Success(()) && db.View() == next
              case Failure(error) => r == Failure(error) && db.View() == old(db.View())
    {
      var found := Spec.FindByInternalReference(db.payments, e.internalReference);
      if found.None? || db.payments[found.value].bookingId >= |db.bookings| || !IsOnlineMethod(db.payments[found.value].tender) {
        return Failure(Spec.PaymentNotFound);
      }
      var p := found.value;
      if !Spec.EventMatches(db.payments[p], e) {
        return Failure(Spec.PaymentMethodNotAllowed);
      }
      var target := Spec.EventTarget(e);
      if !CanTransitionPayment(db.payments[p].status, target) {
        return Success(());
      }
      if e.succeeded {
        r := Settle(p, db.payments[p].status, None, Some(e.providerReference), now);
      } else {
        var outcome := db.TransitionPayment(p, db.payments[p].status, PaymentStatus.Failed, Some(e.providerReference), None, None);
        r := if outcome.UniqueViolation? then Failure(Spec.ProviderReferenceTaken) else Success(());
      }
    }
  }

  // ---------------------------------------------------------------- tickets

  /** One more turn of the issuance loop. */
  lemma IssueOneMore(db: Db, bookingId: nat, seatIds: seq<nat>, i: nat, drafts: nat -> Spec.TicketDraft, now: Instant)
    requires i < |seatIds| && forall k :: 0 <= k < |seatIds| ==> seatIds[k] < |db.seats|
    ensures var before := Spec.IssueSeats(db, bookingId, seatIds[..i], drafts, now);
      var tickets := Spec.InsertTicket(db.(tickets := before.tickets), bookingId, seatIds[i], drafts(i), now);
      Spec.IssueSeats(db, bookingId, seatIds[..i + 1], drafts, now)
      == Spec.Issuance(tickets, if |tickets| > |before.tickets| then before.raw[|before.tickets| := drafts(i).raw] else before.raw)
  {
    assert seatIds[..i + 1][..i] == seatIds[..i];
  }

  class TicketsService {
    const db: Database

    constructor (db: Database)
      ensures this.db == db
    {
      this.db := db;
    }

    /** The issuance loop: insert each ticket, and remember the raw token of those that were inserted. */
    method IssueSeats(bookingId: nat, seatIds: seq<nat>, drafts: nat -> Spec.TicketDraft, now: Instant) returns (raw: map<nat, string>)
      requires forall k :: 0 <= k < |seatIds| ==> seatIds[k] < |db.seats|
      modifies db
      ensures db.View() == old(db.View()).(tickets := Spec.IssueSeats(old(db.View()), bookingId, seatIds, drafts, now).tickets)
      ensures raw == Spec.IssueSeats(old(db.View()), bookingId, seatIds, drafts, now).raw
    {
      ghost var start := db.View();
      raw := map[];
      for i := 0 to |seatIds|
        invariant db.View() == start.(tickets := Spec.IssueSeats(start, bookingId, seatIds[..i], drafts, now).tickets)
        invariant raw == Spec.IssueSeats(start, bookingId, seatIds[..i], drafts, now).raw
      {
        IssueOneMore(start, bookingId, seatIds, i, drafts, now);
        var ticketId := db.InsertTicket(bookingId, seatIds[i], drafts(i), now);
        if ticketId.Some? {
          raw := raw[ticketId.value := drafts(i).raw];
        }
      }
      assert seatIds[..|seatIds|] == seatIds;
    }

    method Issue(bookingId: nat, drafts: nat -> Spec.TicketDraft, now: Instant) returns (r: Result<seq<Spec.IssuedTicket>, Error>)
      requires bookingId < |db.bookings|
      modifies db
      ensures match Spec.Issue(old(db.View()), bookingId, drafts, now)
              case Success(done) => db.View() == done.0 && r == Success(done.1)
              case Failure(e) => db.View() == old(db.View()) && r == Failure(e)
    {
      if !db.bookings[bookingId].status.Confirmed? || !Spec.IsPaid(db.payments, bookingId) {
        return Failure(Spec.TicketNotIssuable);
      }
      var saved := db.View();
      var raw := IssueSeats(bookingId, Spec.IssuableSeats(db.View(), bookingId, |db.seats|), drafts, now);
      var all := Spec.ListTickets(db.tickets, bookingId, raw);
      if all == [] {
        db.Rollback(saved);
        return Failure(Spec.TicketNotIssuable);
      }
      r := Success(all);
    }

    method IssueForOwner(actor: nat, bookingId: nat, drafts: nat -> Spec.TicketDraft, now: Instant) returns (r: Result<seq<Spec.IssuedTicket>, Error>)
      modifies db
      ensures match Spec.IssueForOwnerTx(old(db.View()), actor, bookingId, drafts, now)
              case Success(done) => db.View() == done.0 && r == Success(done.1)
              case Failure(e) => db.View() == old(db.View()) && r == Failure(e)
    {
      if !Spec.FoundForOwner(db.View(), actor, bookingId) {
        return Failure(Spec.BookingNotFound);
      }
      r := Issue(bookingId, drafts, now);
    }

    method IssueForCompany(actor: nat, companyId: nat, bookingId: nat, drafts: nat -> Spec.TicketDraft, now: Instant)
      returns (r: Result<seq<Spec.IssuedTicket>, Error>)
      modifies db
      ensures match Spec.IssueForCompanyTx(old(db.View()), actor, companyId, bookingId, drafts, now)
              case Success(done) => db.View() == done.0 && r == Success(done.1)
              case Failure(e) => db.View() == old(db.View()) && r == Failure(e)
    {
      var scope := ComputeAccessScope(ResolveEntitlements(Spec.FindMemberships(db.memberships, actor, companyId)), TicketsIssue);
      if !Spec.FoundForCompany(db.View(), companyId, scope, bookingId) {
        return Failure(Spec.BookingNotFound);
      }
      r := Issue(bookingId, drafts, now);
    }

    method ValidateTicket(actor: nat, companyId: nat, ticketId: nat, now: Instant) returns (r: Result<(), Error>)
      modifies db
      ensures match Spec.ValidateTicketTx(old(db.View()), actor, companyId, ticketId, now)
              case Success(next) => r == Success(()) && db.View() == next
              case Failure(e) => r == Failure(e) && db.View() == old(db.View())
    {
      var scope := ComputeAccessScope(ResolveEntitlements(Spec.FindMemberships(db.memberships, actor, companyId)), TicketsValidate);
      if !Spec.TicketInScope(db.View(), companyId, scope, ticketId) {
        return Failure(Spec.TicketNotFound);
      }
      var t := db.tickets[ticketId];
      if t.cancelledAt.Some? || !db.bookings[t.bookingId].status.Confirmed? || !Spec.IsPaid(db.payments, t.bookingId) {
        return Failure(Spec.TicketNotValidatable);
      }
      var checked := db.CheckInTicket(ticketId, now);
      if !checked {
        return Failure(Spec.TicketNotValidatable);
      }
      db.CheckInSeat(t.seatId);
      db.AppendEvent(t.bookingId, db.bookings[t.bookingId].companyId, Some(actor), EventKind.CheckedIn);
      r := Success(());
    }

    method RevokeTicket(actor: nat, companyId: nat, ticketId: nat, now: Instant) returns (r: Result<(), Error>)
      modifies db
      ensures match Spec.RevokeTicketTx(old(db.View()), actor, companyId, ticketId, now)
              case Success(next) => r == Success(()) && db.View() == next
              case Failure(e) => r == Failure(e) && db.View() == old(db.View())
    {
      var scope := ComputeAccessScope(ResolveEntitlements(Spec.FindMemberships(db.memberships, actor, companyId)), TicketsIssue);
      if !Spec.TicketInScope(db.View(), companyId, scope, ticketId) {
        return Failure(Spec.TicketNotFound);
      }
      var revoked := db.RevokeTicket(ticketId, now);
      if !revoked {
        return Failure(Spec.TicketNotValidatable);
      }
      r := Success(());
    }
  }
}
