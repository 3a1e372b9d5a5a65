/**
 * What every SQL statement of the reservation repositories does to the tables, and what every
 * service call does as one transaction: a Success carries the committed tables, a Failure leaves
 * the tables as they were. Each transaction has a single instant `now`.
 */
module Reservation {
  import opened Wrappers
  import opened Identity
  import opened Tables

  datatype Error =
    | TripNotBookable | BookingNotFound | BookingNotCancellable | BookingReferenceUnavailable
    | InvalidSeatSelection | SeatAlreadyReserved | BranchForbidden | IdempotencyConflict
    | BookingNotPayable | PaymentNotFound | PaymentMethodNotAllowed | PaymentNotConfirmable
    | PaymentAlreadySettled | PaymentNotRefundable | PaymentReferenceUnavailable | ProviderReferenceTaken
    | TicketNotFound | TicketNotIssuable | TicketNotValidatable

  // ---------------------------------------------------------------- reads

  /** The joins and filters of findTripForBooking. */
  predicate TripForBookingFound(db: Db, tripId: nat, companyId: nat) {
    && tripId in db.trips
    && db.trips[tripId].companyId == companyId
    && db.trips[tripId].partiesActive
    && db.trips[tripId].seatHoldMinutes.Some?
  }

  predicate IsTripBookable(trip: Trip, now: Instant) {
    trip.isActive && trip.status.Scheduled? && now < trip.boardingClosesAt
  }

  predicate FoundForOwner(db: Db, actor: nat, bookingId: nat) {
    && bookingId < |db.bookings|
    && db.bookings[bookingId].bookedBy == actor
    && (db.bookings[bookingId].channel.Web? || db.bookings[bookingId].channel.MobileApp?)
  }

  predicate FoundForCompany(db: Db, companyId: nat, scope: Scope, bookingId: nat) {
    && bookingId < |db.bookings|
    && db.bookings[bookingId].companyId == companyId
    && ScopeCovers(scope, db.bookings[bookingId].branchId)
  }

  function FindMemberships(ms: seq<Membership>, actor: nat, companyId: nat): seq<Membership> {
    if ms == [] then []
    else
      var n := |ms| - 1;
      FindMemberships(ms[..n], actor, companyId)
      + (if ms[n].userId == actor && ms[n].companyId == companyId && ms[n].isActive then [ms[n]] else [])
  }

  function ActorScope(db: Db, actor: nat, companyId: nat, permission: Permission): Scope {
    AccessScope(ResolveEntitlements(FindMemberships(db.memberships, actor, companyId)), permission)
  }

  predicate IsPaid(payments: seq<Payment>, bookingId: nat) {
    exists p :: 0 <= p < |payments| && payments[p].bookingId == bookingId && payments[p].status.Succeeded?
  }

  predicate HasSettledPayment(payments: seq<Payment>, bookingId: nat) {
    exists p :: 0 <= p < |payments| && payments[p].bookingId == bookingId && IsSettled(payments[p].status)
  }

  // ---------------------------------------------------------------- statements on seats and bookings

  function SetSeatStatus(seats: seq<Seat>, which: Seat -> bool, to: SeatStatus): (r: seq<Seat>)
    ensures |r| == |seats|
    ensures forall i :: 0 <= i < |seats| ==> r[i] == if which(seats[i]) then seats[i].(status := to) else seats[i]
  {
    seq(|seats|, i requires 0 <= i < |seats| => if which(seats[i]) then seats[i].(status := to) else seats[i])
  }

  function AppendEvent(db: Db, bookingId: nat, companyId: nat, actor: Option<nat>, kind: EventKind): Db {
    db.(events := db.events + [Event(bookingId, companyId, actor, kind)])
  }

  /** The WHERE clause of the expiry sweep. */
  predicate Lapsed(b: Booking, companyId: nat, tripId: Option<nat>, now: Instant) {
    && b.companyId == companyId
    && (tripId.None? || b.tripId == tripId.value)
    && CanApplyBookingAction(b.status, Expire)
    && b.expiresAt <= now
  }

  predicate LapsedSeat(s: Seat, bookings: seq<Booking>, companyId: nat, tripId: Option<nat>, now: Instant) {
    s.status.Held? && s.bookingId < |bookings| && Lapsed(bookings[s.bookingId], companyId, tripId, now)
  }

  function MoveBooking(b: Booking, to: BookingStatus): Booking {
    b.(status := to, version := b.version + 1)
  }

  function ExpireLapsed(bookings: seq<Booking>, companyId: nat, tripId: Option<nat>, now: Instant): (r: seq<Booking>)
    ensures |r| == |bookings|
    ensures forall i :: 0 <= i < |bookings| ==>
      r[i] == if Lapsed(bookings[i], companyId, tripId, now)
              then MoveBooking(bookings[i], BookingTarget(Expire)) else bookings[i]
  {
    seq(|bookings|, i requires 0 <= i < |bookings| =>
      if Lapsed(bookings[i], companyId, tripId, now)
      then MoveBooking(bookings[i], BookingTarget(Expire)) else bookings[i])
  }

  /** The ids RETURNING gives back: the bookings the sweep moved. */
  function LapsedIds(bookings: seq<Booking>, companyId: nat, tripId: Option<nat>, now: Instant): seq<nat> {
    if bookings == [] then []
    else
      var n := |bookings| - 1;
      LapsedIds(bookings[..n], companyId, tripId, now)
      + (if Lapsed(bookings[n], companyId, tripId, now) then [n] else [])
  }

  function ReleaseExpired(db: Db, companyId: nat, tripId: Option<nat>, now: Instant): Db {
    db.(bookings := ExpireLapsed(db.bookings, companyId, tripId, now),
        seats := SetSeatStatus(db.seats, (s: Seat) => LapsedSeat(s, db.bookings, companyId, tripId, now), SeatStatus.Released))
  }

  function ExpiryEvents(ids: seq<nat>, companyId: nat): (r: seq<Event>)
    ensures |r| == |ids|
    ensures forall k :: 0 <= k < |ids| ==> r[k] == Event(ids[k], companyId, None, EventKind.Expired)
  {
    seq(|ids|, k requires 0 <= k < |ids| => Event(ids[k], companyId, None, EventKind.Expired))
  }

  /** releaseExpired followed by one EXPIRED event per returned booking. */
  function Sweep(db: Db, companyId: nat, tripId: Option<nat>, now: Instant): Db {
    ReleaseExpired(db, companyId, tripId, now)
      .(events := db.events + ExpiryEvents(LapsedIds(db.bookings, companyId, tripId, now), companyId))
  }

  predicate HasCheckedInSeat(seats: seq<Seat>, bookingId: nat) {
    exists i :: 0 <= i < |seats| && seats[i].bookingId == bookingId && seats[i].status.CheckedIn?
  }

  predicate Cancellable(db: Db, bookingId: nat) {
    && bookingId < |db.bookings|
    && CanApplyBookingAction(db.bookings[bookingId].status, Cancel)
    && !HasCheckedInSeat(db.seats, bookingId)
  }

  /** cancel, releaseBookingSeats and the CANCELLED event. */
  function CancelBooking(db: Db, bookingId: nat, actor: nat): Db
    requires bookingId < |db.bookings|
  {
    var b := db.bookings[bookingId];
    AppendEvent(
      db.(bookings := db.bookings[bookingId := MoveBooking(b, BookingTarget(Cancel))],
          seats := SetSeatStatus(db.seats,
            (s: Seat) => s.bookingId == bookingId && (s.status.Held? || s.status.Confirmed?), SeatStatus.Cancelled)),
      bookingId, b.companyId, Some(actor), EventKind.Cancelled)
  }

  predicate ReferenceTaken(bookings: seq<Booking>, reference: string) {
    exists i :: 0 <= i < |bookings| && bookings[i].reference == reference
  }

  /** The row insertBooking selects, priced from the trip snapshot. */
  function NewBooking(trip: Trip, tripId: nat, branchId: Option<nat>, actor: nat, channel: Channel,
                      passengerCount: nat, reference: string, now: Instant): Booking
    requires trip.seatHoldMinutes.Some?
  {
    Booking(reference, tripId, trip.companyId, branchId, actor, channel, BookingStatus.Held,
            trip.price, trip.price * passengerCount, trip.currency,
            now + trip.seatHoldMinutes.value * MICROS_PER_MINUTE, 1)
  }

  /** INSERT ... SELECT ... ON CONFLICT DO NOTHING: None is "no row returned". */
  function InsertBooking(db: Db, tripId: nat, companyId: nat, branchId: Option<nat>, actor: nat,
                         channel: Channel, passengerCount: nat, reference: string, now: Instant): Option<Db> {
    if TripForBookingFound(db, tripId, companyId) && IsTripBookable(db.trips[tripId], now)
       && !ReferenceTaken(db.bookings, reference)
    then Some(db.(bookings := db.bookings
           + [NewBooking(db.trips[tripId], tripId, branchId, actor, channel, passengerCount, reference, now)]))
    else None
  }

  /** The attempts loop: a conflicting reference is retried, a trip that stopped being bookable is not. */
  function InsertWithRetry(db: Db, tripId: nat, companyId: nat, branchId: Option<nat>, actor: nat,
                           channel: Channel, passengerCount: nat, references: seq<string>, attempt: nat,
                           now: Instant): Result<Db, Error>
    decreases |references| - attempt
  {
    if attempt >= |references| then Failure(BookingReferenceUnavailable)
    else
      match InsertBooking(db, tripId, companyId, branchId, actor, channel, passengerCount, references[attempt], now)
      case Some(inserted) => Success(inserted)
      case None =>
        if TripForBookingFound(db, tripId, companyId) && IsTripBookable(db.trips[tripId], now)
        then InsertWithRetry(db, tripId, companyId, branchId, actor, channel, passengerCount, references, attempt + 1, now)
        else Failure(TripNotBookable)
  }

  /** The active-seat unique index, as an insert of `label` on `tripId` sees it. */
  predicate SeatTaken(seats: seq<Seat>, tripId: nat, seatNumber: string) {
    exists i :: 0 <= i < |seats| && seats[i].tripId == tripId && seats[i].seatNumber == seatNumber && OccupiesIndex(seats[i].status)
  }

  /** insertPassenger then insertSeat: the layout trigger fires before the unique index. */
  function InsertPassengerAndSeat(db: Db, tripId: nat, bookingId: nat, p: PassengerInput): Result<Db, Error>
    requires bookingId < |db.bookings|
  {
    if tripId !in db.trips || p.seat !in db.trips[tripId].layout then Failure(InvalidSeatSelection)
    else if SeatTaken(db.seats, tripId, p.seat) then Failure(SeatAlreadyReserved)
    else Success(db.(
      passengers := db.passengers + [Passenger.Passenger(bookingId, p.gender)],
      seats := db.seats + [Seat(tripId, bookingId, |db.passengers|, p.seat, SeatStatus.Held,
                                db.bookings[bookingId].expiresAt)]))
  }

  function InsertPassengers(db: Db, tripId: nat, bookingId: nat, ps: seq<PassengerInput>): (r: Result<Db, Error>)
    requires bookingId < |db.bookings|
    ensures r.Success? ==> r.value.bookings == db.bookings
  {
    if ps == [] then Success(db)
    else
      var n := |ps| - 1;
      var before :- InsertPassengers(db, tripId, bookingId, ps[..n]);
      InsertPassengerAndSeat(before, tripId, bookingId, ps[n])
  }

  // ---------------------------------------------------------------- idempotency

  datatype Claim = Claimed(db: Db) | Replay(record: Record) | Conflict

  predicate RecordLive(db: Db, key: Key, now: Instant) {
    key in db.records && db.records[key].expiresAt > now
  }

  function ClaimIdempotency(db: Db, key: Key, fingerprint: Fingerprint, now: Instant): Claim {
    if !RecordLive(db, key, now) then
      Claimed(db.(records := db.records[key := Record(fingerprint, None, None, now + IDEMPOTENCY_LIFETIME)]))
    else
      var row := db.records[key];
      if row.fingerprint != fingerprint then Conflict
      else if (if key.operation.CreatePayment? then row.paymentId else row.bookingId).None? then Conflict
      else Replay(row)
  }

  function CompleteBooking(db: Db, key: Key, bookingId: nat): Db {
    if key in db.records && db.records[key].bookingId.None?
    then db.(records := db.records[key := db.records[key].(bookingId := Some(bookingId))])
    else db
  }

  function CompletePayment(db: Db, key: Key, bookingId: nat, paymentId: nat): Db {
    if key in db.records && db.records[key].paymentId.None?
    then db.(records := db.records[key := db.records[key].(bookingId := Some(bookingId), paymentId := Some(paymentId))])
    else db
  }

  // ---------------------------------------------------------------- booking transactions

  predicate ValidInput(input: BookingInput) {
    && 1 <= |input.passengers| <= 20
    && (forall i :: 0 <= i < |input.passengers| ==> 1 <= |input.passengers[i].seat| <= 20)
    && (forall i, j :: 0 <= i < j < |input.passengers| ==> input.passengers[i].seat != input.passengers[j].seat)
  }

  /** A service generates at most three references per call. */
  type References = s: seq<string> | |s| == 3 witness ["", "", ""]

  /** The passengers, the seats and the event of the booking row inserted last. */
  function SeatAndLog(booked: Db, tripId: nat, companyId: nat, actor: nat, passengers: seq<PassengerInput>): Result<Db, Error> {
    if |booked.bookings| == 0 then Failure(BookingReferenceUnavailable)
    else
      var bookingId := |booked.bookings| - 1;
      var seated :- InsertPassengers(booked, tripId, bookingId, passengers);
      Success(AppendEvent(seated, bookingId, companyId, Some(actor), EventKind.BookingCreated))
  }

  /** createClaimed up to the created booking's event. */
  function CreateHold(db: Db, tripId: nat, companyId: nat, branchId: Option<nat>, actor: nat, channel: Channel,
                      passengers: seq<PassengerInput>, references: References, now: Instant): Result<Db, Error> {
    if !(TripForBookingFound(db, tripId, companyId) && IsTripBookable(db.trips[tripId], now))
    then Failure(TripNotBookable)
    else
      var swept := Sweep(db, companyId, Some(tripId), now);
      var booked :- InsertWithRetry(swept, tripId, companyId, branchId, actor, channel, |passengers|, references, 0, now);
      SeatAndLog(booked, tripId, companyId, actor, passengers)
  }

  function CreatePassengerBookingTx(db: Db, actor: nat, text: string, input: BookingInput,
                                    references: References, now: Instant): Result<(Db, nat), Error> {
    if !ValidInput(input) then Failure(InvalidSeatSelection)
    else if input.tripId !in db.trips then Failure(TripNotBookable)
    else
      var companyId := db.trips[input.tripId].companyId;
      var key := Key(companyId, actor, Operation.CreatePassengerBooking, text);
      match ClaimIdempotency(db, key, PassengerBooking(input), now)
      case Conflict => Failure(IdempotencyConflict)
      case Replay(record) =>
        if record.bookingId.Some? && FoundForOwner(db, actor, record.bookingId.value)
        then Success((db, record.bookingId.value)) else Failure(BookingNotFound)
      case Claimed(claimed) =>
        var held :- CreateHold(claimed, input.tripId, companyId, None, actor, Channel.Web, input.passengers, references, now);
        var bookingId := |db.bookings|;
        var done := CompleteBooking(held, key, bookingId);
        if FoundForOwner(done, actor, bookingId) then Success((done, bookingId)) else Failure(BookingNotFound)
  }

  function CreateAgentBookingTx(db: Db, actor: nat, companyId: nat, branchId: nat, text: string, input: BookingInput,
                                references: References, now: Instant): Result<(Db, nat), Error> {
    if !ValidInput(input) then Failure(InvalidSeatSelection)
    else
      var entitlements := ResolveEntitlements(FindMemberships(db.memberships, actor, companyId));
      if !CanExercisePermissionInBranch(entitlements, BookingsCreate, branchId) then Failure(BranchForbidden)
      else
        var key := Key(companyId, actor, Operation.CreateAgentBooking, text);
        match ClaimIdempotency(db, key, AgentBooking(companyId, branchId, input), now)
        case Conflict => Failure(IdempotencyConflict)
        case Replay(record) =>
          if record.bookingId.Some? && FoundForCompany(db, companyId, AccessScope(entitlements, BookingsRead), record.bookingId.value)
          then Success((db, record.bookingId.value)) else Failure(BookingNotFound)
        case Claimed(claimed) =>
          var held :- CreateHold(claimed, input.tripId, companyId, Some(branchId), actor, Channel.AgentDesk, input.passengers, references, now);
          var bookingId := |db.bookings|;
          var done := CompleteBooking(held, key, bookingId);
          if FoundForCompany(done, companyId, Scope(false, {branchId}), bookingId)
          then Success((done, bookingId)) else Failure(BookingNotFound)
  }

  function CancelVisible(db: Db, actor: nat, bookingId: nat, visible: bool): Result<Db, Error> {
    if !visible || bookingId >= |db.bookings| then Failure(BookingNotFound)
    else if !Cancellable(db, bookingId) then Failure(BookingNotCancellable)
    else Success(CancelBooking(db, bookingId, actor))
  }

  function CancelOwnedTx(db: Db, actor: nat, bookingId: nat): Result<Db, Error> {
    CancelVisible(db, actor, bookingId, FoundForOwner(db, actor, bookingId))
  }

  function CancelCompanyTx(db: Db, actor: nat, companyId: nat, bookingId: nat): Result<Db, Error> {
    CancelVisible(db, actor, bookingId,
      FoundForCompany(db, companyId, ActorScope(db, actor, companyId, BookingsCancel), bookingId))
  }

  // ---------------------------------------------------------------- payment statements

  predicate InternalReferenceTaken(payments: seq<Payment>, reference: string) {
    exists p :: 0 <= p < |payments| && payments[p].internalReference == reference
  }

  function InsertPayment(db: Db, bookingId: nat, tender: PaymentMethod, reference: string, now: Instant): Option<Db> {
    if && bookingId < |db.bookings|
       && IsPayable(db.bookings[bookingId].status)
       && db.bookings[bookingId].expiresAt > now
       && !HasSettledPayment(db.payments, bookingId)
       && !InternalReferenceTaken(db.payments, reference)
    then
      var b := db.bookings[bookingId];
      Some(db.(payments := db.payments
        + [Payment(bookingId, tender, PaymentStatus.Pending, b.total, b.currency, None, reference, None, None)]))
    else None
  }

  function InsertPaymentWithRetry(db: Db, bookingId: nat, tender: PaymentMethod, references: seq<string>,
                                  attempt: nat, now: Instant): Option<Db>
    decreases |references| - attempt
  {
    if attempt >= |references| then None
    else
      match InsertPayment(db, bookingId, tender, references[attempt], now)
      case Some(inserted) => Some(inserted)
      case None => InsertPaymentWithRetry(db, bookingId, tender, references, attempt + 1, now)
  }

  /** The partial unique index on successful payments, seen by payment `p` moving to `to`. */
  predicate SettlementTaken(payments: seq<Payment>, p: nat, to: PaymentStatus)
    requires p < |payments|
  {
    && IsSettled(to)
    && (exists q :: 0 <= q < |payments| && q != p
                    && payments[q].bookingId == payments[p].bookingId && IsSettled(payments[q].status))
  }

  /** The unique index on (method, provider_reference). */
  predicate ProviderReferenceUsed(payments: seq<Payment>, p: nat, reference: Option<string>)
    requires p < |payments|
  {
    && reference.Some?
    && (exists q :: 0 <= q < |payments| && q != p
                    && payments[q].tender == payments[p].tender && payments[q].providerReference == reference)
  }

  datatype Update = UniqueViolation | NoRow | Changed(payments: seq<Payment>)

  /** COALESCE($4, provider_reference) and friends. */
  function Coalesce<T>(first: Option<T>, second: Option<T>): Option<T> {
    if first.Some? then first else second
  }

  function TransitionPayment(payments: seq<Payment>, p: nat, from: PaymentStatus, to: PaymentStatus,
                             providerReference: Option<string>, confirmedBy: Option<nat>,
                             paidAt: Option<Instant>): Update
    requires p < |payments|
  {
    if payments[p].status != from then NoRow
    else if SettlementTaken(payments, p, to) || ProviderReferenceUsed(payments, p, providerReference) then UniqueViolation
    else Changed(payments[p := payments[p].(
      status := to,
      providerReference := Coalesce(providerReference, payments[p].providerReference),
      confirmedBy := Coalesce(confirmedBy, payments[p].confirmedBy),
      paidAt := Coalesce(paidAt, payments[p].paidAt))])
  }

  /** confirmBookingPaid: only an open booking moves, and only its held seats follow. */
  function ConfirmBookingPaid(db: Db, bookingId: nat): Db {
    if bookingId < |db.bookings| && IsPayable(db.bookings[bookingId].status)
    then db.(bookings := db.bookings[bookingId := MoveBooking(db.bookings[bookingId], BookingStatus.Confirmed)],
             seats := SetSeatStatus(db.seats, (s: Seat) => s.bookingId == bookingId && s.status.Held?, SeatStatus.Confirmed))
    else db
  }

  // ---------------------------------------------------------------- commissions

  /** round(total * rate / 100, 2) in minor units, rate in hundredths of a percent; halves round up. */
  function CommissionAmount(total: nat, rate: nat): nat {
    (2 * total * rate + 10_000) / 20_000
  }

  predicate CommissionExists(commissions: seq<Commission>, membershipId: nat, bookingId: nat) {
    exists c :: 0 <= c < |commissions| && commissions[c].membershipId == membershipId && commissions[c].bookingId == bookingId
  }

  predicate EarnsCommission(m: Membership, b: Booking) {
    && m.companyId == b.companyId && m.userId == b.bookedBy && m.role.Agent? && m.isActive
    && b.status.Confirmed?
  }

  /** The row selected for one joining membership. */
  function EarnedRow(m: Membership, b: Booking, bookingId: nat): Commission {
    Commission(m.id, bookingId, b.companyId, m.commissionRate, b.total, CommissionAmount(b.total, m.commissionRate), b.currency, Earned)
  }

  /** INSERT ... SELECT ... ON CONFLICT (agent_membership_id, booking_id) DO NOTHING. */
  function CreateEligible(commissions: seq<Commission>, ms: seq<Membership>, b: Booking, bookingId: nat): seq<Commission> {
    if ms == [] then commissions
    else
      var n := |ms| - 1;
      var before := CreateEligible(commissions, ms[..n], b, bookingId);
      if EarnsCommission(ms[n], b) && !CommissionExists(before, ms[n].id, bookingId)
      then before + [EarnedRow(ms[n], b, bookingId)]
      else before
  }

  /** The extra WHERE of applyFullRefund. */
  predicate RefundCancelsCommission(db: Db, bookingId: nat) {
    && bookingId < |db.bookings|
    && (db.bookings[bookingId].status.Cancelled? || db.bookings[bookingId].status.PartiallyCancelled?)
    && exists p :: 0 <= p < |db.payments| && db.payments[p].bookingId == bookingId && db.payments[p].status.Refunded?
  }

  function CancelCommissions(commissions: seq<Commission>, bookingId: nat): (r: seq<Commission>)
    ensures |r| == |commissions|
  {
    seq(|commissions|, c requires 0 <= c < |commissions| =>
      if commissions[c].bookingId == bookingId && (commissions[c].status.CommissionPending? || commissions[c].status.Earned?)
      then commissions[c].(status := CommissionCancelled) else commissions[c])
  }

  function ApplyFullRefund(db: Db, bookingId: nat): Db {
    if RefundCancelsCommission(db, bookingId)
    then db.(commissions := CancelCommissions(db.commissions, bookingId)) else db
  }

  // ---------------------------------------------------------------- payment transactions

  /** After the insert: the event, the provider's settlement for an online method, and the completed record. */
  function LogAndOpen(inserted: Db, actor: nat, key: Key, bookingId: nat, companyId: nat, paymentId: nat,
                      tender: PaymentMethod, providerReference: string): Result<(Db, nat), Error> {
    var logged := AppendEvent(inserted, bookingId, companyId, Some(actor), EventKind.PaymentPending);
    if !IsOnlineMethod(tender) || paymentId >= |logged.payments| then
      Success((CompletePayment(logged, key, bookingId, paymentId), paymentId))
    else
      match TransitionPayment(logged.payments, paymentId, PaymentStatus.Pending, PaymentStatus.Processing,
                              Some(providerReference), None, None)
      case UniqueViolation => Failure(ProviderReferenceTaken)
      case NoRow => Success((CompletePayment(logged, key, bookingId, paymentId), paymentId))
      case Changed(payments) =>
        Success((CompletePayment(logged.(payments := payments), key, bookingId, paymentId), paymentId))
  }

  function CreateClaimedPayment(db: Db, actor: nat, key: Key, fingerprint: Fingerprint, bookingId: nat,
                                tender: PaymentMethod, references: References, providerReference: string,
                                now: Instant): Result<(Db, nat), Error>
    requires bookingId < |db.bookings|
  {
    match ClaimIdempotency(db, key, fingerprint, now)
    case Conflict => Failure(IdempotencyConflict)
    case Replay(record) =>
      if record.paymentId.Some? && record.paymentId.value < |db.payments|
      then Success((db, record.paymentId.value)) else Failure(PaymentNotFound)
    case Claimed(claimed) =>
      var b := db.bookings[bookingId];
      if !(IsPayable(b.status) && b.expiresAt > now) then Failure(BookingNotPayable)
      else
        match InsertPaymentWithRetry(claimed, bookingId, tender, references, 0, now)
        case None => Failure(PaymentReferenceUnavailable)
        case Some(inserted) =>
          LogAndOpen(inserted, actor, key, bookingId, b.companyId, |db.payments|, tender, providerReference)
  }

  /** loadPayment's two lookups: through the booking's owner, or company-wide. */
  predicate PaymentLoads(db: Db, paymentId: nat, owner: Option<nat>, companyId: nat) {
    && paymentId < |db.payments|
    && match owner
       case Some(actor) => FoundForOwner(db, actor, db.payments[paymentId].bookingId)
       case None => FoundForCompany(db, companyId, Scope(true, {}), db.payments[paymentId].bookingId)
  }

  function CreatePassengerPaymentTx(db: Db, actor: nat, text: string, bookingId: nat, tender: PaymentMethod,
                                    references: References, providerReference: string, now: Instant): Result<(Db, nat), Error> {
    if !IsOnlineMethod(tender) then Failure(PaymentMethodNotAllowed)
    else if !FoundForOwner(db, actor, bookingId) then Failure(BookingNotFound)
    else
      var companyId := db.bookings[bookingId].companyId;
      var (done, paymentId) :- CreateClaimedPayment(db, actor, Key(companyId, actor, Operation.CreatePayment, text),
        OwnerPayment(actor, bookingId, tender), bookingId, tender, references, providerReference, now);
      if PaymentLoads(done, paymentId, Some(actor), companyId) then Success((done, paymentId)) else Failure(PaymentNotFound)
  }

  function CreateCompanyPaymentTx(db: Db, actor: nat, companyId: nat, text: string, bookingId: nat, tender: PaymentMethod,
                                  references: References, providerReference: string, now: Instant): Result<(Db, nat), Error> {
    if !FoundForCompany(db, companyId, ActorScope(db, actor, companyId, PaymentsConfirm), bookingId) then Failure(BookingNotFound)
    else
      var (done, paymentId) :- CreateClaimedPayment(db, actor, Key(companyId, actor, Operation.CreatePayment, text),
        CompanyPayment(actor, companyId, bookingId, tender), bookingId, tender, references, providerReference, now);
      if PaymentLoads(done, paymentId, None, companyId) then Success((done, paymentId)) else Failure(PaymentNotFound)
  }

  /** What settle does once the payment row has moved: booking, seats, event, commissions. */
  function SettleEffects(db: Db, bookingId: nat, actor: Option<nat>): Db
    requires bookingId < |db.bookings|
  {
    var confirmed := ConfirmBookingPaid(db, bookingId);
    var logged := AppendEvent(confirmed, bookingId, db.bookings[bookingId].companyId, actor, EventKind.PaymentConfirmed);
    logged.(commissions := CreateEligible(logged.commissions, logged.memberships, logged.bookings[bookingId], bookingId))
  }

  function Settle(db: Db, p: nat, from: PaymentStatus, actor: Option<nat>, providerReference: Option<string>,
                  now: Instant): Result<Db, Error>
    requires p < |db.payments| && db.payments[p].bookingId < |db.bookings|
  {
    match TransitionPayment(db.payments, p, from, PaymentStatus.Succeeded, providerReference, actor, Some(now))
    case UniqueViolation => Failure(PaymentAlreadySettled)
    case NoRow => Failure(PaymentNotConfirmable)
    case Changed(payments) => Success(SettleEffects(db.(payments := payments), db.payments[p].bookingId, actor))
  }

  /** lockPaymentForCompany: the payment, if its booking is in the caller's scope. */
  predicate PaymentInScope(db: Db, companyId: nat, scope: Scope, paymentId: nat) {
    && paymentId < |db.payments|
    && FoundForCompany(db, companyId, scope, db.payments[paymentId].bookingId)
  }

  function ConfirmCashTx(db: Db, actor: nat, companyId: nat, paymentId: nat, now: Instant): Result<Db, Error> {
    if !PaymentInScope(db, companyId, ActorScope(db, actor, companyId, PaymentsConfirm), paymentId) then Failure(PaymentNotFound)
    else if !db.payments[paymentId].tender.Cash? then Failure(PaymentMethodNotAllowed)
    else if !db.payments[paymentId].status.Pending? then Failure(PaymentNotConfirmable)
    else Settle(db, paymentId, PaymentStatus.Pending, Some(actor), None, now)
  }

  /** The refund's statements: payment, commission, two events. */
  function RefundEffects(db: Db, payments: seq<Payment>, bookingId: nat, actor: nat): Db
    requires bookingId < |db.bookings|
  {
    var companyId := db.bookings[bookingId].companyId;
    var refunded := ApplyFullRefund(db.(payments := payments), bookingId);
    AppendEvent(AppendEvent(refunded, bookingId, companyId, Some(actor), EventKind.RefundCreated),
                bookingId, companyId, Some(actor), EventKind.RefundCompleted)
  }

  function RefundPaymentTx(db: Db, actor: nat, companyId: nat, paymentId: nat): Result<Db, Error> {
    if !PaymentInScope(db, companyId, ActorScope(db, actor, companyId, PaymentsRefund), paymentId) then Failure(PaymentNotFound)
    else if !db.payments[paymentId].status.Succeeded? then Failure(PaymentNotRefundable)
    else
      match TransitionPayment(db.payments, paymentId, PaymentStatus.Succeeded, PaymentStatus.Refunded, None, None, None)
      case UniqueViolation => Failure(PaymentNotRefundable)
      case NoRow => Failure(PaymentNotRefundable)
      case Changed(payments) => Success(RefundEffects(db, payments, db.payments[paymentId].bookingId, actor))
  }

  /** A verified, normalized provider event. */
  datatype ProviderEvent = ProviderEvent(
    internalReference: string, providerReference: string, succeeded: bool, amount: nat, currency: string)

  function FindByInternalReference(payments: seq<Payment>, reference: string): (r: Option<nat>)
    ensures r.Some? ==> r.value < |payments| && payments[r.value].internalReference == reference
  {
    if payments == [] then None
    else
      var n := |payments| - 1;
      if payments[n].internalReference == reference then Some(n)
      else FindByInternalReference(payments[..n], reference)
  }

  predicate EventMatches(p: Payment, e: ProviderEvent) {
    && (p.providerReference.None? || p.providerReference == Some(e.providerReference))
    && e.amount == p.amount && e.currency == p.currency
  }

  function EventTarget(e: ProviderEvent): PaymentStatus {
    if e.succeeded then PaymentStatus.Succeeded else PaymentStatus.Failed
  }

  function HandleWebhookTx(db: Db, e: ProviderEvent, now: Instant): Result<Db, Error> {
    match FindByInternalReference(db.payments, e.internalReference)
    case None => Failure(PaymentNotFound)
    case Some(p) =>
      if db.payments[p].bookingId >= |db.bookings| then Failure(PaymentNotFound)
      else if !IsOnlineMethod(db.payments[p].tender) then Failure(PaymentNotFound)
      else if !EventMatches(db.payments[p], e) then Failure(PaymentMethodNotAllowed)
      else if !CanTransitionPayment(db.payments[p].status, EventTarget(e)) then Success(db)
      else if e.succeeded then Settle(db, p, db.payments[p].status, None, Some(e.providerReference), now)
      else
        match TransitionPayment(db.payments, p, db.payments[p].status, PaymentStatus.Failed, Some(e.providerReference), None, None)
        case UniqueViolation => Failure(ProviderReferenceTaken)
        case NoRow => Success(db)
        case Changed(payments) => Success(db.(payments := payments))
  }

  // ---------------------------------------------------------------- tickets

  /** One generated token and ticket number. Only the hash is stored. */
  datatype TicketDraft = TicketDraft(number: string, raw: string, hash: string)

  predicate SeatTicketed(tickets: seq<Ticket>, seatId: nat) {
    exists t :: 0 <= t < |tickets| && tickets[t].seatId == seatId
  }

  predicate Issuable(db: Db, bookingId: nat, seatId: nat)
    requires seatId < |db.seats|
  {
    db.seats[seatId].bookingId == bookingId && db.seats[seatId].status.Confirmed? && !SeatTicketed(db.tickets, seatId)
  }

  /** listIssuablePassengers over the first `upTo` seat rows. */
  function IssuableSeats(db: Db, bookingId: nat, upTo: nat): (r: seq<nat>)
    requires upTo <= |db.seats|
    ensures forall k :: 0 <= k < |r| ==> r[k] < |db.seats|
  {
    if upTo == 0 then []
    else IssuableSeats(db, bookingId, upTo - 1) + (if Issuable(db, bookingId, upTo - 1) then [upTo - 1] else [])
  }

  /** The four unique constraints behind ON CONFLICT DO NOTHING. */
  predicate TicketConflicts(tickets: seq<Ticket>, bookingId: nat, passengerId: nat, seatId: nat, draft: TicketDraft) {
    exists t :: 0 <= t < |tickets| &&
      (tickets[t].seatId == seatId || tickets[t].number == draft.number || tickets[t].tokenHash == draft.hash
       || (tickets[t].bookingId == bookingId && tickets[t].passengerId == passengerId))
  }

  function InsertTicket(db: Db, bookingId: nat, seatId: nat, draft: TicketDraft, now: Instant): seq<Ticket>
    requires seatId < |db.seats|
  {
    var passengerId := db.seats[seatId].passengerId;
    if TicketConflicts(db.tickets, bookingId, passengerId, seatId, draft) then db.tickets
    else db.tickets + [Ticket(bookingId, passengerId, seatId, draft.number, draft.hash, now, None, None)]
  }

  /** What issue has done after the first `k` issuable seats: the tickets, and the raw tokens by ticket id. */
  datatype Issuance = Issuance(tickets: seq<Ticket>, raw: map<nat, string>)

  function IssueSeats(db: Db, bookingId: nat, seatIds: seq<nat>, drafts: nat -> TicketDraft, now: Instant): (r: Issuance)
    requires forall k :: 0 <= k < |seatIds| ==> seatIds[k] < |db.seats|
  {
    if seatIds == [] then Issuance(db.tickets, map[])
    else
      var n := |seatIds| - 1;
      var before := IssueSeats(db, bookingId, seatIds[..n], drafts, now);
      var tickets := InsertTicket(db.(tickets := before.tickets), bookingId, seatIds[n], drafts(n), now);
      Issuance(tickets, if |tickets| > |before.tickets| then before.raw[|before.tickets| := drafts(n).raw] else before.raw)
  }

  /** One entry of the issuance answer: a ticket, and its raw token if this call created it. */
  datatype IssuedTicket = IssuedTicket(ticketId: nat, rawToken: Option<string>)

  function ListTickets(tickets: seq<Ticket>, bookingId: nat, raw: map<nat, string>): seq<IssuedTicket> {
    if tickets == [] then []
    else
      var n := |tickets| - 1;
      ListTickets(tickets[..n], bookingId, raw)
      + (if tickets[n].bookingId == bookingId
         then [IssuedTicket(n, if n in raw then Some(raw[n]) else None)] else [])
  }

  function Issue(db: Db, bookingId: nat, drafts: nat -> TicketDraft, now: Instant): Result<(Db, seq<IssuedTicket>), Error>
    requires bookingId < |db.bookings|
  {
    if !db.bookings[bookingId].status.Confirmed? then Failure(TicketNotIssuable)
    else if !IsPaid(db.payments, bookingId) then Failure(TicketNotIssuable)
    else
      var issued := IssueSeats(db, bookingId, IssuableSeats(db, bookingId, |db.seats|), drafts, now);
      var all := ListTickets(issued.tickets, bookingId, issued.raw);
      if all == [] then Failure(TicketNotIssuable)
      else Success((db.(tickets := issued.tickets), all))
  }

  function IssueForOwnerTx(db: Db, actor: nat, bookingId: nat, drafts: nat -> TicketDraft, now: Instant): Result<(Db, seq<IssuedTicket>), Error> {
    if !FoundForOwner(db, actor, bookingId) then Failure(BookingNotFound) else Issue(db, bookingId, drafts, now)
  }

  function IssueForCompanyTx(db: Db, actor: nat, companyId: nat, bookingId: nat, drafts: nat -> TicketDraft, now: Instant): Result<(Db, seq<IssuedTicket>), Error> {
    if !FoundForCompany(db, companyId, ActorScope(db, actor, companyId, TicketsIssue), bookingId)
    then Failure(BookingNotFound) else Issue(db, bookingId, drafts, now)
  }

  predicate TicketInScope(db: Db, companyId: nat, scope: Scope, ticketId: nat) {
    ticketId < |db.tickets| && FoundForCompany(db, companyId, scope, db.tickets[ticketId].bookingId)
  }

  /** checkInTicket, checkInSeat and the CHECKED_IN event. */
  function CheckIn(db: Db, ticketId: nat, actor: nat, now: Instant): Db
    requires ticketId < |db.tickets| && db.tickets[ticketId].bookingId < |db.bookings|
  {
    var t := db.tickets[ticketId];
    AppendEvent(
      db.(tickets := db.tickets[ticketId := t.(checkedInAt := Some(now))],
          seats := if t.seatId < |db.seats| && db.seats[t.seatId].status.Confirmed?
                   then db.seats[t.seatId := db.seats[t.seatId].(status := SeatStatus.CheckedIn)] else db.seats),
      t.bookingId, db.bookings[t.bookingId].companyId, Some(actor), EventKind.CheckedIn)
  }

  function ValidateTicketTx(db: Db, actor: nat, companyId: nat, ticketId: nat, now: Instant): Result<Db, Error> {
    if !TicketInScope(db, companyId, ActorScope(db, actor, companyId, TicketsValidate), ticketId) then Failure(TicketNotFound)
    else
      var t := db.tickets[ticketId];
      if t.cancelledAt.Some? then Failure(TicketNotValidatable)
      else if !db.bookings[t.bookingId].status.Confirmed? then Failure(TicketNotValidatable)
      else if !IsPaid(db.payments, t.bookingId) then Failure(TicketNotValidatable)
      else if t.checkedInAt.Some? then Failure(TicketNotValidatable)
      else Success(CheckIn(db, ticketId, actor, now))
  }

  function RevokeTicketTx(db: Db, actor: nat, companyId: nat, ticketId: nat, now: Instant): Result<Db, Error> {
    if !TicketInScope(db, companyId, ActorScope(db, actor, companyId, TicketsIssue), ticketId) then Failure(TicketNotFound)
    else
      var t := db.tickets[ticketId];
      if t.cancelledAt.Some? || t.checkedInAt.Some? then Failure(TicketNotValidatable)
      else Success(db.(tickets := db.tickets[ticketId := t.(cancelledAt := Some(now))]))
  }

  datatype TicketStatus = Issued | CheckedIn | Cancelled

  function DeriveTicketStatus(t: Ticket): TicketStatus {
    if t.cancelledAt.Some? then TicketStatus.Cancelled
    else if t.checkedInAt.Some? then TicketStatus.CheckedIn
    else TicketStatus.Issued
  }

  datatype InvalidReason = Revoked | AlreadyUsed | BookingNotConfirmed | NotPaid

  function WhyInvalid(t: Ticket, status: BookingStatus, isPaid: bool): Option<InvalidReason> {
    if DeriveTicketStatus(t).Cancelled? then Some(Revoked)
    else if DeriveTicketStatus(t).CheckedIn? then Some(AlreadyUsed)
    else if !status.Confirmed? then Some(BookingNotConfirmed)
    else if !isPaid then Some(NotPaid)
    else None
  }

  function FindTicketByHash(tickets: seq<Ticket>, hash: string): (r: Option<nat>)
    ensures r.Some? ==> r.value < |tickets| && tickets[r.value].tokenHash == hash
  {
    if tickets == [] then None
    else
      var n := |tickets| - 1;
      if tickets[n].tokenHash == hash then Some(n) else FindTicketByHash(tickets[..n], hash)
  }

  /** verifyTicket by token hash: the ticket found, and why it would be refused, if it would. */
  function VerifyTicket(db: Db, actor: nat, companyId: nat, hash: string): Result<(nat, Option<InvalidReason>), Error> {
    match FindTicketByHash(db.tickets, hash)
    case None => Failure(TicketNotFound)
    case Some(t) =>
      if !TicketInScope(db, companyId, ActorScope(db, actor, companyId, TicketsValidate), t) then Failure(TicketNotFound)
      else
        var bookingId := db.tickets[t].bookingId;
        Success((t, WhyInvalid(db.tickets[t], db.bookings[bookingId].status, IsPaid(db.payments, bookingId))))
  }

  // ---------------------------------------------------------------- runs

  datatype Call =
    | ChangeSurroundings(trips: map<nat, Trip>, memberships: seq<Membership>)
    | CreateForPassenger(actor: nat, key: string, input: BookingInput, references: References)
    | CreateForAgent(actor: nat, companyId: nat, branchId: nat, key: string, input: BookingInput, references: References)
    | CancelOwned(actor: nat, bookingId: nat)
    | CancelCompany(actor: nat, companyId: nat, bookingId: nat)
    | ExpireBookings(companyId: nat)
    | PayAsPassenger(actor: nat, key: string, bookingId: nat, tender: PaymentMethod, references: References, providerReference: string)
    | PayAsCompany(actor: nat, companyId: nat, key: string, bookingId: nat, tender: PaymentMethod, references: References, providerReference: string)
    | ConfirmCash(actor: nat, companyId: nat, paymentId: nat)
    | RefundPayment(actor: nat, companyId: nat, paymentId: nat)
    | HandleWebhook(event: ProviderEvent)
    | IssueForOwner(actor: nat, bookingId: nat, drafts: nat -> TicketDraft)
    | IssueForCompany(actor: nat, companyId: nat, bookingId: nat, drafts: nat -> TicketDraft)
    | ValidateTicket(actor: nat, companyId: nat, ticketId: nat)
    | RevokeTicket(actor: nat, companyId: nat, ticketId: nat)

  /** What a call answers: a created or replayed resource, an issuance list, nothing, or an error. */
  datatype Answer = Done | Resource(id: nat) | Tickets(list: seq<IssuedTicket>) | Refused(error: Error)

  /** The rest of the system may change trips and memberships, but a trip keeps its company and ids stay valid. */
  predicate SurroundingsValid(trips: map<nat, Trip>, memberships: seq<Membership>) {
    && (forall t :: t in trips ==> LayoutValid(trips[t]))
    && (forall i :: 0 <= i < |memberships| ==> memberships[i].commissionRate <= 10_000)
  }

  /** The seat-layout trigger: total_seats distinct labels. */
  predicate LayoutValid(trip: Trip) {
    && |trip.layout| == trip.totalSeats
    && forall i, j :: 0 <= i < j < |trip.layout| ==> trip.layout[i] != trip.layout[j]
  }

  predicate TripsKeepCompany(before: map<nat, Trip>, after: map<nat, Trip>) {
    forall t :: t in before ==> t in after && after[t].companyId == before[t].companyId
  }

  function Committed(db: Db, r: Result<Db, Error>): (Db, Answer) {
    match r
    case Success(next) => (next, Done)
    case Failure(e) => (db, Refused(e))
  }

  function CommittedResource(db: Db, r: Result<(Db, nat), Error>): (Db, Answer) {
    match r
    case Success(pair) => (pair.0, Resource(pair.1))
    case Failure(e) => (db, Refused(e))
  }

  function CommittedTickets(db: Db, r: Result<(Db, seq<IssuedTicket>), Error>): (Db, Answer) {
    match r
    case Success(pair) => (pair.0, Tickets(pair.1))
    case Failure(e) => (db, Refused(e))
  }

  /** TransactionManager.run: the committed tables on success, the old ones on any error. */
  function Execute(db: Db, call: Call, now: Instant): (Db, Answer) {
    match call
    case ChangeSurroundings(trips, memberships) =>
      if SurroundingsValid(trips, memberships) && TripsKeepCompany(db.trips, trips)
      then (db.(trips := trips, memberships := memberships), Done) else (db, Done)
    case CreateForPassenger(actor, key, input, refs) =>
      CommittedResource(db, CreatePassengerBookingTx(db, actor, key, input, refs, now))
    case CreateForAgent(actor, companyId, branchId, key, input, refs) =>
      CommittedResource(db, CreateAgentBookingTx(db, actor, companyId, branchId, key, input, refs, now))
    case CancelOwned(actor, bookingId) => Committed(db, CancelOwnedTx(db, actor, bookingId))
    case CancelCompany(actor, companyId, bookingId) => Committed(db, CancelCompanyTx(db, actor, companyId, bookingId))
    case ExpireBookings(companyId) => (Sweep(db, companyId, None, now), Done)
    case PayAsPassenger(actor, key, bookingId, tender, refs, ref) =>
      CommittedResource(db, CreatePassengerPaymentTx(db, actor, key, bookingId, tender, refs, ref, now))
    case PayAsCompany(actor, companyId, key, bookingId, tender, refs, ref) =>
      CommittedResource(db, CreateCompanyPaymentTx(db, actor, companyId, key, bookingId, tender, refs, ref, now))
    case ConfirmCash(actor, companyId, paymentId) => Committed(db, ConfirmCashTx(db, actor, companyId, paymentId, now))
    case RefundPayment(actor, companyId, paymentId) => Committed(db, RefundPaymentTx(db, actor, companyId, paymentId))
    case HandleWebhook(event) => Committed(db, HandleWebhookTx(db, event, now))
    case IssueForOwner(actor, bookingId, drafts) => CommittedTickets(db, IssueForOwnerTx(db, actor, bookingId, drafts, now))
    case IssueForCompany(actor, companyId, bookingId, drafts) =>
      CommittedTickets(db, IssueForCompanyTx(db, actor, companyId, bookingId, drafts, now))
    case ValidateTicket(actor, companyId, ticketId) => Committed(db, ValidateTicketTx(db, actor, companyId, ticketId, now))
    case RevokeTicket(actor, companyId, ticketId) => Committed(db, RevokeTicketTx(db, actor, companyId, ticketId, now))
  }

  datatype Timed = Timed(call: Call, at: Instant)

  /** The tables after a whole run. */
  ghost function Run(db: Db, calls: seq<Timed>): Db {
    if calls == [] then db
    else
      var n := |calls| - 1;
      Execute(Run(db, calls[..n]), calls[n].call, calls[n].at).0
  }

  function EmptyDb(trips: map<nat, Trip>, memberships: seq<Membership>): Db {
    Db(trips, memberships, [], [], [], [], [], [], [], map[])
  }

  ghost predicate Reachable(db: Db) {
    exists trips: map<nat, Trip>, memberships: seq<Membership>, calls: seq<Timed> ::
      SurroundingsValid(trips, memberships) && db == Run(EmptyDb(trips, memberships), calls)
  }
}
