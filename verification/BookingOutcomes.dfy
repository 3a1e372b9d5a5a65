/**
 * What each booking call does, row by row, and exactly when it succeeds: the sweep, the two creates and the two
 * cancels, in plain terms of statuses, instants and rows.
 */
module BookingOutcomes {
  import opened Wrappers
  import opened Counting
  import opened Identity
  import opened Tables
  import opened Reservation
  import opened Invariants
  import opened HoldProofs
  import opened RunProofs
  import opened Authorization
  import opened Availability
  import opened Idempotency

  // ---------------------------------------------------------------- the sweep

  predicate IsOpen(b: Booking) {
    b.status == BookingStatus.Held || b.status == BookingStatus.PendingPayment
  }

  /** An open booking of the company, and of the trip if one is named, whose hold has ended. */
  predicate Overdue(b: Booking, companyId: nat, scope: Option<nat>, now: Instant) {
    && b.companyId == companyId && (scope == None || scope == Some(b.tripId))
    && IsOpen(b) && b.expiresAt <= now
  }

  function ExpiredRow(b: Booking): Booking {
    Booking(b.reference, b.tripId, b.companyId, b.branchId, b.bookedBy, b.channel, BookingStatus.Expired, b.unitPrice, b.total,
            b.currency, b.expiresAt, b.version + 1)
  }

  function ExpiredEvents(ids: seq<nat>, companyId: nat): seq<Event> {
    seq(|ids|, k requires 0 <= k < |ids| => Event(ids[k], companyId, None, EventKind.Expired))
  }

  /** The events a sweep adds: one for each overdue booking, in the order of their ids. */
  ghost predicate SweepEvents(db: Db, companyId: nat, scope: Option<nat>, now: Instant, added: seq<Event>) {
    exists ids :: AscendingBelow(ids, |db.bookings|) && added == ExpiredEvents(ids, companyId) &&
      forall i: nat :: i in ids <==> i < |db.bookings| && Overdue(db.bookings[i], companyId, scope, now)
  }

  ghost predicate SweptBookings(bookings: seq<Booking>, companyId: nat, scope: Option<nat>, now: Instant, next: seq<Booking>) {
    && |next| >= |bookings|
    && forall i :: 0 <= i < |bookings| ==>
         next[i] == if Overdue(bookings[i], companyId, scope, now) then ExpiredRow(bookings[i]) else bookings[i]
  }

  ghost predicate SweptSeats(db: Db, companyId: nat, scope: Option<nat>, now: Instant, next: seq<Seat>) {
    && |next| >= |db.seats|
    && forall i :: 0 <= i < |db.seats| ==>
         next[i] == if db.seats[i].status == SeatStatus.Held && db.seats[i].bookingId < |db.bookings|
                       && Overdue(db.bookings[db.seats[i].bookingId], companyId, scope, now)
                    then db.seats[i].(status := SeatStatus.Released) else db.seats[i]
  }

  lemma LapsedMeansOverdue(b: Booking, companyId: nat, scope: Option<nat>, now: Instant)
    ensures Lapsed(b, companyId, scope, now) <==> Overdue(b, companyId, scope, now)
  {
  }

  lemma SweepEventsExact(db: Db, companyId: nat, scope: Option<nat>, now: Instant)
    ensures SweepEvents(db, companyId, scope, now, ExpiryEvents(LapsedIds(db.bookings, companyId, scope, now), companyId))
  {
    var ids := LapsedIds(db.bookings, companyId, scope, now);
    LapsedIdsExact(db.bookings, companyId, scope, now);
    LapsedIdsAscend(db.bookings, companyId, scope, now);
    assert ExpiryEvents(ids, companyId) == ExpiredEvents(ids, companyId);
    forall i: nat ensures i in ids <==> i < |db.bookings| && Overdue(db.bookings[i], companyId, scope, now) {
      if i < |db.bookings| { LapsedMeansOverdue(db.bookings[i], companyId, scope, now); }
    }
  }

  /** A sweep expires exactly the overdue bookings, releases exactly their held seats and logs exactly that. */
  lemma SweepOutcome(db: Db, companyId: nat, scope: Option<nat>, now: Instant)
    ensures var next := Sweep(db, companyId, scope, now);
      && |next.bookings| == |db.bookings| && SweptBookings(db.bookings, companyId, scope, now, next.bookings)
      && |next.seats| == |db.seats| && SweptSeats(db, companyId, scope, now, next.seats)
      && db.events <= next.events && SweepEvents(db, companyId, scope, now, next.events[|db.events|..])
      && next == db.(bookings := next.bookings, seats := next.seats, events := next.events)
  {
    SweepEventsExact(db, companyId, scope, now);
    var added := ExpiryEvents(LapsedIds(db.bookings, companyId, scope, now), companyId);
    assert Sweep(db, companyId, scope, now).events[|db.events|..] == added;
  }

  /** The scheduled expiry of a company is that sweep over all its trips. */
  lemma ExpireOutcome(db: Db, companyId: nat, now: Instant)
    ensures var (next, answer) := Execute(db, ExpireBookings(companyId), now);
      && answer == Done
      && |next.bookings| == |db.bookings| && SweptBookings(db.bookings, companyId, None, now, next.bookings)
      && |next.seats| == |db.seats| && SweptSeats(db, companyId, None, now, next.seats)
      && db.events <= next.events && SweepEvents(db, companyId, None, now, next.events[|db.events|..])
      && next == db.(bookings := next.bookings, seats := next.seats, events := next.events)
  {
    SweepOutcome(db, companyId, None, now);
  }

  // ---------------------------------------------------------------- cancelling

  predicate IsOwnersOnline(db: Db, actor: nat, bookingId: nat) {
    && bookingId < |db.bookings| && db.bookings[bookingId].bookedBy == actor
    && (db.bookings[bookingId].channel == Channel.Web || db.bookings[bookingId].channel == Channel.MobileApp)
  }

  ghost predicate NobodyBoarded(seats: seq<Seat>, bookingId: nat) {
    forall i :: 0 <= i < |seats| && seats[i].bookingId == bookingId ==> seats[i].status != SeatStatus.CheckedIn
  }

  function CancelledRow(b: Booking): Booking {
    Booking(b.reference, b.tripId, b.companyId, b.branchId, b.bookedBy, b.channel, BookingStatus.Cancelled, b.unitPrice, b.total,
            b.currency, b.expiresAt, b.version + 1)
  }

  function CancelledSeat(s: Seat, bookingId: nat): Seat {
    if s.bookingId == bookingId && (s.status == SeatStatus.Held || s.status == SeatStatus.Confirmed)
    then Seat(s.tripId, s.bookingId, s.passengerId, s.seatNumber, SeatStatus.Cancelled, s.heldUntil) else s
  }

  /** Exactly this booking is cancelled with its seats, one event says so, and no other table changes. */
  ghost predicate Cancelled(db: Db, bookingId: nat, actor: nat, next: Db)
    requires bookingId < |db.bookings|
  {
    && next == db.(bookings := next.bookings, seats := next.seats, events := next.events)
    && next.bookings == db.bookings[bookingId := CancelledRow(db.bookings[bookingId])]
    && |next.seats| == |db.seats| && (forall i :: 0 <= i < |db.seats| ==> next.seats[i] == CancelledSeat(db.seats[i], bookingId))
    && next.events == db.events + [Event(bookingId, db.bookings[bookingId].companyId, Some(actor), EventKind.Cancelled)]
  }

  lemma CancelOutcome(db: Db, actor: nat, bookingId: nat, visible: bool)
    requires visible ==> bookingId < |db.bookings|
    ensures var r := CancelVisible(db, actor, bookingId, visible);
      && (r.Success? <==> visible && IsOpen(db.bookings[bookingId]) && NobodyBoarded(db.seats, bookingId))
      && (r.Success? ==> Cancelled(db, bookingId, actor, r.value))
      && (r.Failure? ==> r.error == if visible then BookingNotCancellable else BookingNotFound)
  {
  }

  /** A passenger cancels exactly their own open online booking of which nobody has boarded. */
  lemma CancelOwnedOutcome(db: Db, actor: nat, bookingId: nat)
    ensures var r := CancelOwnedTx(db, actor, bookingId);
      && (r.Success? <==> IsOwnersOnline(db, actor, bookingId) && IsOpen(db.bookings[bookingId]) && NobodyBoarded(db.seats, bookingId))
      && (r.Success? ==> Cancelled(db, bookingId, actor, r.value))
      && (r.Failure? ==> r.error == if IsOwnersOnline(db, actor, bookingId) then BookingNotCancellable else BookingNotFound)
  {
    CancelOutcome(db, actor, bookingId, FoundForOwner(db, actor, bookingId));
  }

  /** A company cancels exactly an open booking on whose branch the actor may, of which nobody has boarded. */
  lemma CancelCompanyOutcome(db: Db, actor: nat, companyId: nat, bookingId: nat)
    ensures var r := CancelCompanyTx(db, actor, companyId, bookingId); var may := MayActOn(db, actor, companyId, BookingsCancel, bookingId);
      && (r.Success? <==> may && IsOpen(db.bookings[bookingId]) && NobodyBoarded(db.seats, bookingId))
      && (r.Success? ==> Cancelled(db, bookingId, actor, r.value))
      && (r.Failure? ==> r.error == if may then BookingNotCancellable else BookingNotFound)
  {
    FoundMeansMayAct(db, actor, companyId, BookingsCancel, bookingId);
    CancelOutcome(db, actor, bookingId, FoundForCompany(db, companyId, ActorScope(db, actor, companyId, BookingsCancel), bookingId));
  }

  lemma OpenHasHeldSeats(db: Db, bookingId: nat)
    requires SeatsFollowBookings(db.bookings, db.seats) && bookingId < |db.bookings| && IsOpen(db.bookings[bookingId])
    ensures forall i :: 0 <= i < |db.seats| && db.seats[i].bookingId == bookingId ==> db.seats[i].status == SeatStatus.Held
  {
  }

  lemma ReachableSeatsFollow(db: Db)
    requires Reachable(db)
    ensures SeatsFollowBookings(db.bookings, db.seats)
  {
    ReachableIsGood(db);
  }

  lemma FollowingSeatsGiveUp(db: Db, actor: nat, bookingId: nat, i: nat)
    requires SeatsFollowBookings(db.bookings, db.seats)
    requires IsOwnersOnline(db, actor, bookingId) && i < |db.seats| && db.seats[i].bookingId == bookingId
    ensures CancelOwnedTx(db, actor, bookingId).Success? <==> IsOpen(db.bookings[bookingId])
    ensures CancelOwnedTx(db, actor, bookingId).Success? ==>
      CancelOwnedTx(db, actor, bookingId).value.seats[i] == db.seats[i].(status := SeatStatus.Cancelled)
  {
    CancelOwnedOutcome(db, actor, bookingId);
    if IsOpen(db.bookings[bookingId]) {
      OpenHasHeldSeats(db, bookingId);
    }
  }

  /** In every reachable state nobody has boarded an open booking, so open is enough, and every seat of it is given up. */
  lemma OpenIsCancellable(db: Db, actor: nat, bookingId: nat, i: nat)
    requires Reachable(db) && IsOwnersOnline(db, actor, bookingId) && i < |db.seats| && db.seats[i].bookingId == bookingId
    ensures CancelOwnedTx(db, actor, bookingId).Success? <==> IsOpen(db.bookings[bookingId])
    ensures CancelOwnedTx(db, actor, bookingId).Success? ==>
      CancelOwnedTx(db, actor, bookingId).value.seats[i] == db.seats[i].(status := SeatStatus.Cancelled)
  {
    ReachableSeatsFollow(db);
    FollowingSeatsGiveUp(db, actor, bookingId, i);
  }

  // ---------------------------------------------------------------- creating

  /** One to twenty passengers in as many different seats, each label of one to twenty characters. */
  predicate RequestOk(input: BookingInput) {
    && 1 <= |input.passengers| <= 20
    && (forall i :: 0 <= i < |input.passengers| ==> 1 <= |input.passengers[i].seat| <= 20)
    && (forall i, j :: 0 <= i < j < |input.passengers| ==> input.passengers[i].seat != input.passengers[j].seat)
  }

  ghost predicate AllShown(db: Db, tripId: nat, ps: seq<PassengerInput>, now: Instant) {
    forall k :: 0 <= k < |ps| ==> ShownAvailable(db, tripId, ps[k].seat, now)
  }

  ghost predicate SomeReferenceNew(bookings: seq<Booking>, references: seq<string>) {
    exists k :: 0 <= k < |references| && forall i :: 0 <= i < |bookings| ==> bookings[i].reference != references[k]
  }

  /** No record under the key, or one that has expired. */
  predicate KeyIsFree(db: Db, key: Key, now: Instant) {
    key !in db.records || db.records[key].expiresAt <= now
  }

  lemma NewMeansFree(bookings: seq<Booking>, references: seq<string>)
    ensures SomeReferenceNew(bookings, references) <==> SomeReferenceFree(bookings, references)
  {
    if SomeReferenceFree(bookings, references) {
      var k :| 0 <= k < |references| && !ReferenceTaken(bookings, references[k]);
      assert forall i :: 0 <= i < |bookings| ==> bookings[i].reference != references[k];
    }
    if SomeReferenceNew(bookings, references) {
      var k :| 0 <= k < |references| && forall i :: 0 <= i < |bookings| ==> bookings[i].reference != references[k];
      assert !ReferenceTaken(bookings, references[k]);
    }
  }

  /** The booking row: held, at the trip's price for each passenger, until the company's hold minutes have passed. */
  predicate NewBookingRow(trip: Trip, tripId: nat, branchId: Option<nat>, actor: nat, channel: Channel, count: nat,
                          references: seq<string>, now: Instant, b: Booking)
  {
    && trip.seatHoldMinutes.Some? && b.reference in references
    && b == Booking(b.reference, tripId, trip.companyId, branchId, actor, channel, BookingStatus.Held, trip.price, trip.price * count,
                    trip.currency, now + trip.seatHoldMinutes.value * 60_000_000, 1)
  }

  /** One passenger and one held seat for each requested one, in order. */
  ghost predicate NewSeatRows(db: Db, tripId: nat, ps: seq<PassengerInput>, until: Instant, next: Db) {
    && |next.passengers| == |db.passengers| + |ps| && db.passengers <= next.passengers
    && |next.seats| == |db.seats| + |ps|
    && forall k :: 0 <= k < |ps| ==>
         && next.passengers[|db.passengers| + k] == Passenger.Passenger(|db.bookings|, ps[k].gender)
         && next.seats[|db.seats| + k] == Seat(tripId, |db.bookings|, |db.seats| + k, ps[k].seat, SeatStatus.Held, until)
  }

  /** Everything a create does: it sweeps the trip, adds the booking with its passengers and seats, and logs it. */
  ghost predicate Held(db: Db, tripId: nat, branchId: Option<nat>, actor: nat, channel: Channel, ps: seq<PassengerInput>,
                       references: seq<string>, now: Instant, next: Db)
  {
    && tripId in db.trips
    && next == db.(bookings := next.bookings, passengers := next.passengers, seats := next.seats, events := next.events, records := next.records)
    && var trip, id := db.trips[tripId], |db.bookings|;
    && |next.bookings| == id + 1
    && NewBookingRow(trip, tripId, branchId, actor, channel, |ps|, references, now, next.bookings[id])
    && (forall i :: 0 <= i < id ==> db.bookings[i].reference != next.bookings[id].reference)
    && NewSeatRows(db, tripId, ps, next.bookings[id].expiresAt, next)
    && SweptBookings(db.bookings, trip.companyId, Some(tripId), now, next.bookings)
    && SweptSeats(db, trip.companyId, Some(tripId), now, next.seats)
    && HoldEvents(db, trip.companyId, tripId, actor, now, next.events)
  }

  ghost predicate HoldEvents(db: Db, companyId: nat, tripId: nat, actor: nat, now: Instant, next: seq<Event>) {
    && |next| > |db.events| && db.events <= next
    && SweepEvents(db, companyId, Some(tripId), now, next[|db.events|..|next| - 1])
    && next[|next| - 1] == Event(|db.bookings|, companyId, Some(actor), EventKind.BookingCreated)
  }

  lemma HoldEventsExact(db: Db, companyId: nat, tripId: nat, actor: nat, now: Instant, next: seq<Event>)
    requires next == Sweep(db, companyId, Some(tripId), now).events + [Event(|db.bookings|, companyId, Some(actor), EventKind.BookingCreated)]
    ensures HoldEvents(db, companyId, tripId, actor, now, next)
  {
    SweepOutcome(db, companyId, Some(tripId), now);
    var swept := Sweep(db, companyId, Some(tripId), now).events;
    assert next[|db.events|..|next| - 1] == swept[|db.events|..];
  }

  lemma SweptPrefix(db: Db, companyId: nat, scope: Option<nat>, now: Instant, bookings: seq<Booking>, seats: seq<Seat>)
    ensures SweptBookings(db.bookings, companyId, scope, now, Sweep(db, companyId, scope, now).bookings + bookings)
    ensures SweptSeats(db, companyId, scope, now, Sweep(db, companyId, scope, now).seats + seats)
  {
    SweepOutcome(db, companyId, scope, now);
  }

  lemma ConcatAt<T>(a: seq<T>, b: seq<T>, k: nat)
    requires k < |b|
    ensures |a| + k < |a + b| && (a + b)[|a| + k] == b[k]
  {
  }

  lemma PassengerRowAt(bookingId: nat, ps: seq<PassengerInput>, k: nat)
    requires k < |ps|
    ensures NewPassengers(bookingId, ps)[k] == Passenger.Passenger(bookingId, ps[k].gender)
  {
  }

  lemma SeatRowsExact(db: Db, swept: Db, tripId: nat, ps: seq<PassengerInput>, until: Instant, next: Db)
    requires |swept.bookings| == |db.bookings| && |swept.seats| == |db.seats| && swept.passengers == db.passengers
    requires next.passengers == swept.passengers + NewPassengers(|db.bookings|, ps)
    requires next.seats == swept.seats + NewSeats(tripId, |db.bookings|, |swept.seats|, ps, until)
    ensures NewSeatRows(db, tripId, ps, until, next)
  {
    forall k | 0 <= k < |ps|
      ensures next.passengers[|db.passengers| + k] == Passenger.Passenger(|db.bookings|, ps[k].gender)
      ensures next.seats[|db.seats| + k] == Seat(tripId, |db.bookings|, |db.seats| + k, ps[k].seat, SeatStatus.Held, until)
    {
      ConcatAt(swept.passengers, NewPassengers(|db.bookings|, ps), k);
      PassengerRowAt(|db.bookings|, ps, k);
      ConcatAt(swept.seats, NewSeats(tripId, |db.bookings|, |swept.seats|, ps, until), k);
    }
  }

  lemma FreshReference(bookings: seq<Booking>, reference: string)
    requires !ReferenceTaken(bookings, reference)
    ensures forall i :: 0 <= i < |bookings| ==> bookings[i].reference != reference
  {
  }

  lemma InsertedMeansHeld(db: Db, tripId: nat, companyId: nat, branchId: Option<nat>, actor: nat, channel: Channel,
                          ps: seq<PassengerInput>, references: seq<string>, reference: string, now: Instant, next: Db)
    requires TripForBookingFound(db, tripId, companyId) && reference in references && !ReferenceTaken(db.bookings, reference)
    requires next == HoldInserted(Sweep(db, companyId, Some(tripId), now), tripId, branchId, actor, channel, ps, reference, now)
    ensures Held(db, tripId, branchId, actor, channel, ps, references, now, next)
  {
    var swept := Sweep(db, companyId, Some(tripId), now);
    var row := NewBooking(db.trips[tripId], tripId, branchId, actor, channel, |ps|, reference, now);
    SweptPrefix(db, companyId, Some(tripId), now, [row], NewSeats(tripId, |db.bookings|, |swept.seats|, ps, row.expiresAt));
    SeatRowsExact(db, swept, tripId, ps, row.expiresAt, next);
    HoldEventsExact(db, companyId, tripId, actor, now, next.events);
    FreshReference(db.bookings, reference);
  }

  /** The hold of a create: exactly when, and exactly what. */
  lemma HoldOutcome(db: Db, tripId: nat, companyId: nat, branchId: Option<nat>, actor: nat, channel: Channel,
                    ps: seq<PassengerInput>, references: References, now: Instant)
    requires Core(db)
    ensures var r := CreateHold(db, tripId, companyId, branchId, actor, channel, ps, references, now);
      && (r.Success? <==>
            && BookableNow(db, tripId, now) && db.trips[tripId].companyId == companyId
            && SomeReferenceNew(db.bookings, references) && Distinct(ps) && AllShown(db, tripId, ps, now))
      && (r.Success? ==> Held(db, tripId, branchId, actor, channel, ps, references, now, r.value))
  {
    NewMeansFree(db.bookings, references);
    HoldSucceedsIffShown(db, tripId, companyId, branchId, actor, channel, ps, references, now);
    var reference := CreateHoldExact(db, tripId, companyId, branchId, actor, channel, ps, references, now);
    var r := CreateHold(db, tripId, companyId, branchId, actor, channel, ps, references, now);
    if r.Success? {
      InsertedMeansHeld(db, tripId, companyId, branchId, actor, channel, ps, references, reference, now, r.value);
    }
  }

  /** The new record lives for a day and points at the new booking. */
  function BookingRecorded(db: Db, key: Key, fingerprint: Fingerprint, now: Instant): map<Key, Record> {
    db.records[key := Record(fingerprint, Some(|db.bookings|), None, now + 24 * 3_600_000_000)]
  }

  lemma HeldIgnoresRecords(db: Db, before: map<Key, Record>, after: map<Key, Record>, tripId: nat, branchId: Option<nat>, actor: nat,
                           channel: Channel, ps: seq<PassengerInput>, references: seq<string>, now: Instant, next: Db)
    requires Held(db.(records := before), tripId, branchId, actor, channel, ps, references, now, next)
    ensures Held(db, tripId, branchId, actor, channel, ps, references, now, next.(records := after))
  {
    var companyId := db.trips[tripId].companyId;
    var added := next.events[|db.events|..|next.events| - 1];
    assert SweepEvents(db.(records := before), companyId, Some(tripId), now, added);
    var ids :| AscendingBelow(ids, |db.bookings|) && added == ExpiredEvents(ids, companyId) &&
      forall i: nat :: i in ids <==> i < |db.bookings| && Overdue(db.bookings[i], companyId, Some(tripId), now);
    assert SweepEvents(db, companyId, Some(tripId), now, added);
  }

  lemma ClaimedHoldLeaves(db: Db, key: Key, fingerprint: Fingerprint, tripId: nat, companyId: nat, branchId: Option<nat>,
                          actor: nat, channel: Channel, ps: seq<PassengerInput>, references: References, now: Instant, held: Db)
    requires KeysOk(db)
    requires CreateHold(ClaimedDb(db, key, fingerprint, now), tripId, companyId, branchId, actor, channel, ps, references, now) == Success(held)
    requires Held(ClaimedDb(db, key, fingerprint, now), tripId, branchId, actor, channel, ps, references, now, held)
    ensures var next := CompleteBooking(held, key, |db.bookings|);
      next.records == BookingRecorded(db, key, fingerprint, now) && Held(db, tripId, branchId, actor, channel, ps, references, now, next)
  {
    HoldCompletes(db, key, fingerprint, tripId, companyId, branchId, actor, channel, ps, references, now);
    HeldIgnoresRecords(db, ClaimedDb(db, key, fingerprint, now).records, BookingRecorded(db, key, fingerprint, now), tripId, branchId,
                       actor, channel, ps, references, now, held);
  }

  lemma ClaimedHoldOutcome(db: Db, key: Key, fingerprint: Fingerprint, tripId: nat, companyId: nat, branchId: Option<nat>,
                           actor: nat, channel: Channel, ps: seq<PassengerInput>, references: References, now: Instant)
    requires Core(db)
    ensures var r := CreateHold(ClaimedDb(db, key, fingerprint, now), tripId, companyId, branchId, actor, channel, ps, references, now);
      && (r.Success? <==>
            && BookableNow(db, tripId, now) && db.trips[tripId].companyId == companyId
            && SomeReferenceNew(db.bookings, references) && Distinct(ps) && AllShown(db, tripId, ps, now))
      && (r.Success? ==>
            var next := CompleteBooking(r.value, key, |db.bookings|);
            next.records == BookingRecorded(db, key, fingerprint, now)
            && Held(db, tripId, branchId, actor, channel, ps, references, now, next))
  {
    var claimed := ClaimedDb(db, key, fingerprint, now);
    CoreIgnoresRecords(db, claimed.records);
    HoldOutcome(claimed, tripId, companyId, branchId, actor, channel, ps, references, now);
    ViewsIgnoreRecords(db, claimed.records, tripId, ps, now);
    var r := CreateHold(claimed, tripId, companyId, branchId, actor, channel, ps, references, now);
    if r.Success? {
      ClaimedHoldLeaves(db, key, fingerprint, tripId, companyId, branchId, actor, channel, ps, references, now, r.value);
    }
  }

  /**
   * A passenger create under a free key, in any reachable state: it succeeds exactly for a valid request on a bookable
   * trip whose seats all show AVAILABLE, with a new reference; and then exactly this is committed.
   */
  lemma PassengerCreateOutcome(db: Db, actor: nat, text: string, input: BookingInput, references: References, now: Instant)
    requires Reachable(db)
    requires input.tripId in db.trips ==>
      KeyIsFree(db, Key(db.trips[input.tripId].companyId, actor, Operation.CreatePassengerBooking, text), now)
    ensures var r := CreatePassengerBookingTx(db, actor, text, input, references, now);
      && (r.Success? <==>
            && RequestOk(input) && BookableNow(db, input.tripId, now)
            && SomeReferenceNew(db.bookings, references) && AllShown(db, input.tripId, input.passengers, now))
      && (!RequestOk(input) ==> r == Failure(InvalidSeatSelection))
      && (RequestOk(input) && !BookableNow(db, input.tripId, now) ==> r == Failure(TripNotBookable))
      && (r.Success? ==> PassengerBooked(db, actor, text, input, references, now, r.value.0, r.value.1))
  {
    ReachableIsGood(db);
    PassengerCreateIs(db, actor, text, input, references, now);
  }

  ghost predicate PassengerBooked(db: Db, actor: nat, text: string, input: BookingInput, references: seq<string>, now: Instant, next: Db, id: nat) {
    && Held(db, input.tripId, None, actor, Channel.Web, input.passengers, references, now, next) && id == |db.bookings|
    && next.records == BookingRecorded(db, Key(db.trips[input.tripId].companyId, actor, Operation.CreatePassengerBooking, text),
                                       PassengerBooking(input), now)
  }

  lemma PassengerCreateIs(db: Db, actor: nat, text: string, input: BookingInput, references: References, now: Instant)
    requires Core(db)
    requires input.tripId in db.trips ==>
      KeyIsFree(db, Key(db.trips[input.tripId].companyId, actor, Operation.CreatePassengerBooking, text), now)
    ensures var r := CreatePassengerBookingTx(db, actor, text, input, references, now);
      && (r.Success? <==>
            && RequestOk(input) && BookableNow(db, input.tripId, now)
            && SomeReferenceNew(db.bookings, references) && AllShown(db, input.tripId, input.passengers, now))
      && (!RequestOk(input) ==> r == Failure(InvalidSeatSelection))
      && (RequestOk(input) && !BookableNow(db, input.tripId, now) ==> r == Failure(TripNotBookable))
      && (r.Success? ==> PassengerBooked(db, actor, text, input, references, now, r.value.0, r.value.1))
  {
    if RequestOk(input) && input.tripId in db.trips {
      var companyId := db.trips[input.tripId].companyId;
      var key := Key(companyId, actor, Operation.CreatePassengerBooking, text);
      FreshPassengerCreate(db, actor, text, input, references, now);
      ClaimedHoldOutcome(db, key, PassengerBooking(input), input.tripId, companyId, None, actor, Channel.Web, input.passengers, references, now);
      UnbookableIsRefused(db, key, PassengerBooking(input), input.tripId, companyId, None, actor, Channel.Web, input.passengers, references, now);
      if CreatePassengerBookingTx(db, actor, text, input, references, now).Success? {
        PassengerCreateShape(db, actor, text, input, references, now);
      }
    }
  }

  lemma UnbookableIsRefused(db: Db, key: Key, fingerprint: Fingerprint, tripId: nat, companyId: nat, branchId: Option<nat>,
                            actor: nat, channel: Channel, ps: seq<PassengerInput>, references: References, now: Instant)
    ensures !(BookableNow(db, tripId, now) && db.trips[tripId].companyId == companyId) ==>
      CreateHold(ClaimedDb(db, key, fingerprint, now), tripId, companyId, branchId, actor, channel, ps, references, now) == Failure(TripNotBookable)
  {
  }

  ghost predicate MayCreateIn(db: Db, actor: nat, companyId: nat, branchId: nat) {
    exists i :: 0 <= i < |db.memberships| && GrantsOn(db.memberships[i], actor, companyId, BookingsCreate, Some(branchId))
  }

  ghost predicate AgentBooked(db: Db, actor: nat, companyId: nat, branchId: nat, text: string, input: BookingInput,
                              references: seq<string>, now: Instant, next: Db, id: nat) {
    && Held(db, input.tripId, Some(branchId), actor, Channel.AgentDesk, input.passengers, references, now, next) && id == |db.bookings|
    && next.records == BookingRecorded(db, Key(companyId, actor, Operation.CreateAgentBooking, text),
                                       AgentBooking(companyId, branchId, input), now)
  }

  /** What the agent create makes of its hold. */
  function AgentAnswer(hold: Result<Db, Error>, key: Key, companyId: nat, branchId: nat, id: nat): Result<(Db, nat), Error> {
    match hold
    case Failure(e) => Failure(e)
    case Success(held) =>
      var done := CompleteBooking(held, key, id);
      if FoundForCompany(done, companyId, Scope(false, {branchId}), id) then Success((done, id)) else Failure(BookingNotFound)
  }

  lemma AgentCreateUnfolds(db: Db, actor: nat, companyId: nat, branchId: nat, text: string, input: BookingInput,
                           references: References, now: Instant)
    requires ValidInput(input) && KeyIsFree(db, Key(companyId, actor, Operation.CreateAgentBooking, text), now)
    requires CanExercisePermissionInBranch(ResolveEntitlements(FindMemberships(db.memberships, actor, companyId)), BookingsCreate, branchId)
    ensures var key, fingerprint := Key(companyId, actor, Operation.CreateAgentBooking, text), AgentBooking(companyId, branchId, input);
      CreateAgentBookingTx(db, actor, companyId, branchId, text, input, references, now)
      == AgentAnswer(CreateHold(ClaimedDb(db, key, fingerprint, now), input.tripId, companyId, Some(branchId), actor, Channel.AgentDesk,
                                input.passengers, references, now), key, companyId, branchId, |db.bookings|)
  {
  }

  lemma NewHoldIsFound(held: Db, bookings: seq<Booking>, key: Key, tripId: nat, companyId: nat, branchId: nat, actor: nat)
    requires NewHold(bookings, held.bookings, tripId, companyId, Some(branchId), actor, Channel.AgentDesk)
    ensures AgentAnswer(Success(held), key, companyId, branchId, |bookings|).Success?
  {
  }

  /** The agent create past its request and permission checks, under a free key, is its hold. */
  lemma AgentCreateIsHold(db: Db, actor: nat, companyId: nat, branchId: nat, text: string, input: BookingInput,
                          references: References, now: Instant)
    requires KeysOk(db) && RequestOk(input) && MayCreateIn(db, actor, companyId, branchId)
    requires KeyIsFree(db, Key(companyId, actor, Operation.CreateAgentBooking, text), now)
    ensures var fingerprint := AgentBooking(companyId, branchId, input);
      var hold := CreateHold(ClaimedDb(db, Key(companyId, actor, Operation.CreateAgentBooking, text), fingerprint, now), input.tripId,
                             companyId, Some(branchId), actor, Channel.AgentDesk, input.passengers, references, now);
      var r := CreateAgentBookingTx(db, actor, companyId, branchId, text, input, references, now);
      (r.Success? <==> hold.Success?) && (r.Failure? ==> r.error == hold.error)
  {
    MayCreateMeans(db, actor, companyId, branchId);
    AgentCreateUnfolds(db, actor, companyId, branchId, text, input, references, now);
    var key := Key(companyId, actor, Operation.CreateAgentBooking, text);
    var claimed := ClaimedDb(db, key, AgentBooking(companyId, branchId, input), now);
    var hold := CreateHold(claimed, input.tripId, companyId, Some(branchId), actor, Channel.AgentDesk, input.passengers, references, now);
    if hold.Success? {
      HoldRows(claimed, input.tripId, companyId, Some(branchId), actor, Channel.AgentDesk, input.passengers, references, now);
      NewHoldIsFound(hold.value, db.bookings, key, input.tripId, companyId, branchId, actor);
    }
  }

  lemma AgentCreateRefusals(db: Db, actor: nat, companyId: nat, branchId: nat, text: string, input: BookingInput,
                            references: References, now: Instant)
    ensures var r := CreateAgentBookingTx(db, actor, companyId, branchId, text, input, references, now);
      && (!RequestOk(input) ==> r == Failure(InvalidSeatSelection))
      && (RequestOk(input) && !MayCreateIn(db, actor, companyId, branchId) ==> r == Failure(BranchForbidden))
  {
    MayCreateMeans(db, actor, companyId, branchId);
  }

  lemma AgentCreateIs(db: Db, actor: nat, companyId: nat, branchId: nat, text: string, input: BookingInput,
                      references: References, now: Instant)
    requires Core(db) && KeyIsFree(db, Key(companyId, actor, Operation.CreateAgentBooking, text), now)
    ensures var r := CreateAgentBookingTx(db, actor, companyId, branchId, text, input, references, now);
      && (r.Success? <==>
            && RequestOk(input) && MayCreateIn(db, actor, companyId, branchId)
            && BookableNow(db, input.tripId, now) && db.trips[input.tripId].companyId == companyId
            && SomeReferenceNew(db.bookings, references) && AllShown(db, input.tripId, input.passengers, now))
      && (r.Success? ==> AgentBooked(db, actor, companyId, branchId, text, input, references, now, r.value.0, r.value.1))
  {
    AgentCreateRefusals(db, actor, companyId, branchId, text, input, references, now);
    if RequestOk(input) && MayCreateIn(db, actor, companyId, branchId) {
      var key, fingerprint := Key(companyId, actor, Operation.CreateAgentBooking, text), AgentBooking(companyId, branchId, input);
      AgentCreateIsHold(db, actor, companyId, branchId, text, input, references, now);
      ClaimedHoldOutcome(db, key, fingerprint, input.tripId, companyId, Some(branchId), actor, Channel.AgentDesk, input.passengers, references, now);
      if CreateAgentBookingTx(db, actor, companyId, branchId, text, input, references, now).Success? {
        AgentCreateShape(db, actor, companyId, branchId, text, input, references, now);
      }
    }
  }

  /**
   * An agent create under a free key, in any reachable state: it succeeds exactly for a valid request by an actor who may
   * create bookings in the branch, on a bookable trip of the company whose seats all show AVAILABLE, with a new reference.
   * The booking then carries that branch.
   */
  lemma AgentCreateOutcome(db: Db, actor: nat, companyId: nat, branchId: nat, text: string, input: BookingInput,
                           references: References, now: Instant)
    requires Reachable(db) && KeyIsFree(db, Key(companyId, actor, Operation.CreateAgentBooking, text), now)
    ensures var r := CreateAgentBookingTx(db, actor, companyId, branchId, text, input, references, now);
      && (r.Success? <==>
            && RequestOk(input) && MayCreateIn(db, actor, companyId, branchId)
            && BookableNow(db, input.tripId, now) && db.trips[input.tripId].companyId == companyId
            && SomeReferenceNew(db.bookings, references) && AllShown(db, input.tripId, input.passengers, now))
      && (!RequestOk(input) ==> r == Failure(InvalidSeatSelection))
      && (RequestOk(input) && !MayCreateIn(db, actor, companyId, branchId) ==> r == Failure(BranchForbidden))
      && (r.Success? ==> AgentBooked(db, actor, companyId, branchId, text, input, references, now, r.value.0, r.value.1))
  {
    ReachableIsGood(db);
    AgentCreateRefusals(db, actor, companyId, branchId, text, input, references, now);
    AgentCreateIs(db, actor, companyId, branchId, text, input, references, now);
  }
}
