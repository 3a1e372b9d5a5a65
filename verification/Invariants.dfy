/** The joint invariant of the reservation tables, one predicate per concern. */
module Invariants {
  import opened Wrappers
  import opened Counting
  import opened Identity
  import opened Tables
  import opened Reservation

  // ---------------------------------------------------------------- row predicates for counting

  function EventOf(bookingId: nat, kind: EventKind): Event -> bool {
    (e: Event) => e.bookingId == bookingId && e.kind == kind
  }

  function PaymentOf(bookingId: nat): Payment -> bool {
    (p: Payment) => p.bookingId == bookingId
  }

  function SettledOf(bookingId: nat): Payment -> bool {
    (p: Payment) => p.bookingId == bookingId && (p.status.Succeeded? || p.status.Refunded?)
  }

  function RefundedOf(bookingId: nat): Payment -> bool {
    (p: Payment) => p.bookingId == bookingId && p.status.Refunded?
  }

  function UsedTicketOf(bookingId: nat): Ticket -> bool {
    (t: Ticket) => t.bookingId == bookingId && t.checkedInAt.Some?
  }

  function SeatOf(bookingId: nat): Seat -> bool {
    (s: Seat) => s.bookingId == bookingId
  }

  // ---------------------------------------------------------------- the invariant

  /** Foreign keys, and one passenger per seat. */
  ghost predicate KeysOk(db: Db) {
    && |db.passengers| == |db.seats|
    && (forall i :: 0 <= i < |db.seats| ==>
          && db.seats[i].bookingId < |db.bookings|
          && db.seats[i].tripId == db.bookings[db.seats[i].bookingId].tripId
          && db.seats[i].passengerId == i
          && db.passengers[i].bookingId == db.seats[i].bookingId)
    && (forall p :: 0 <= p < |db.payments| ==> db.payments[p].bookingId < |db.bookings|)
    && (forall t :: 0 <= t < |db.tickets| ==>
          && db.tickets[t].seatId < |db.seats|
          && db.tickets[t].bookingId == db.seats[db.tickets[t].seatId].bookingId
          && db.tickets[t].passengerId == db.tickets[t].seatId)
    && (forall e :: 0 <= e < |db.events| ==>
          && db.events[e].bookingId < |db.bookings|
          && db.events[e].companyId == db.bookings[db.events[e].bookingId].companyId)
    && (forall c :: 0 <= c < |db.commissions| ==> db.commissions[c].bookingId < |db.bookings|)
  }

  /** The catalog agrees with the bookings on companies, and every layout is valid. */
  ghost predicate SurroundingsOk(db: Db) {
    && SurroundingsValid(db.trips, db.memberships)
    && (forall b :: 0 <= b < |db.bookings| ==>
          db.bookings[b].tripId in db.trips && db.trips[db.bookings[b].tripId].companyId == db.bookings[b].companyId)
  }

  /** Which seat statuses may sit under which booking status. */
  predicate SeatFits(booking: BookingStatus, seat: SeatStatus) {
    match booking
    case Held => seat.Held?
    case PendingPayment => seat.Held?
    case Confirmed => seat.Confirmed? || seat.CheckedIn?
    case Cancelled => seat.Cancelled?
    case Expired => seat.Released?
    case Draft => false
    case PartiallyCancelled => false
    case Completed => false
  }

  predicate KnownStatus(status: BookingStatus) {
    status.Held? || status.PendingPayment? || status.Confirmed? || status.Cancelled? || status.Expired?
  }

  /** Seats follow their booking, and a hold ends when its booking does. */
  ghost predicate SeatsFollowBookings(bookings: seq<Booking>, seats: seq<Seat>) {
    && (forall b :: 0 <= b < |bookings| ==> KnownStatus(bookings[b].status))
    && (forall i :: 0 <= i < |seats| ==>
          && seats[i].bookingId < |bookings|
          && SeatFits(bookings[seats[i].bookingId].status, seats[i].status)
          && seats[i].heldUntil == bookings[seats[i].bookingId].expiresAt)
  }

  predicate Clash(s: Seat, t: Seat) {
    s.tripId == t.tripId && s.seatNumber == t.seatNumber && OccupiesIndex(s.status) && OccupiesIndex(t.status)
  }

  /** The active-seat unique index. */
  ghost predicate SeatsUnique(seats: seq<Seat>) {
    forall i, j :: 0 <= i < j < |seats| ==> !Clash(seats[i], seats[j])
  }

  predicate Rivals(p: Payment, q: Payment) {
    p.bookingId == q.bookingId && IsSettled(p.status) && IsSettled(q.status)
  }

  predicate SameReference(p: Payment, q: Payment) {
    p.internalReference == q.internalReference
    || (p.providerReference.Some? && p.tender == q.tender && p.providerReference == q.providerReference)
  }

  /** Money received and bookings confirmed go together, once per booking. */
  ghost predicate PaidOk(bookings: seq<Booking>, payments: seq<Payment>) {
    && (forall b :: 0 <= b < |bookings| ==> bookings[b].status.Confirmed? ==> HasSettledPayment(payments, b))
    && (forall p :: 0 <= p < |payments| ==>
          && payments[p].bookingId < |bookings|
          && !payments[p].status.PartiallyRefunded?
          && (IsSettled(payments[p].status) ==> !IsPayable(bookings[payments[p].bookingId].status))
          && (payments[p].status.Processing? ==> payments[p].providerReference.Some?))
    && (forall p, q :: 0 <= p < q < |payments| ==>
          !Rivals(payments[p], payments[q]) && !SameReference(payments[p], payments[q]))
  }

  predicate SameTicket(t: Ticket, u: Ticket) {
    t.seatId == u.seatId || t.number == u.number || t.tokenHash == u.tokenHash
  }

  /** Tickets sit on seats of confirmed bookings; a seat is checked in exactly when its ticket is. */
  ghost predicate TicketsOk(bookings: seq<Booking>, seats: seq<Seat>, tickets: seq<Ticket>) {
    && (forall t :: 0 <= t < |tickets| ==>
          && tickets[t].bookingId < |bookings| && bookings[tickets[t].bookingId].status.Confirmed?
          && tickets[t].seatId < |seats|
          && (tickets[t].checkedInAt.Some? <==> seats[tickets[t].seatId].status.CheckedIn?)
          && !(tickets[t].checkedInAt.Some? && tickets[t].cancelledAt.Some?))
    && (forall t, u :: 0 <= t < u < |tickets| ==> !SameTicket(tickets[t], tickets[u]))
    && (forall i :: 0 <= i < |seats| ==> seats[i].status.CheckedIn? ==> SeatTicketed(tickets, i))
  }

  /** The event log of one booking accounts for its status, its payments and its used tickets. */
  ghost predicate LogOf(b: nat, status: BookingStatus, payments: seq<Payment>, tickets: seq<Ticket>, events: seq<Event>) {
    && Count(events, EventOf(b, EventKind.BookingCreated)) == 1
    && Count(events, EventOf(b, EventKind.Expired)) == (if status.Expired? then 1 else 0)
    && Count(events, EventOf(b, EventKind.Cancelled)) == (if status.Cancelled? then 1 else 0)
    && Count(events, EventOf(b, EventKind.PaymentPending)) == Count(payments, PaymentOf(b))
    && Count(events, EventOf(b, EventKind.PaymentConfirmed)) == Count(payments, SettledOf(b))
    && Count(events, EventOf(b, EventKind.RefundCreated)) == Count(payments, RefundedOf(b))
    && Count(events, EventOf(b, EventKind.RefundCompleted)) == Count(payments, RefundedOf(b))
    && Count(events, EventOf(b, EventKind.CheckedIn)) == Count(tickets, UsedTicketOf(b))
  }

  ghost predicate LogOk(bookings: seq<Booking>, payments: seq<Payment>, tickets: seq<Ticket>, events: seq<Event>) {
    forall b :: 0 <= b < |bookings| ==> LogOf(b, bookings[b].status, payments, tickets, events)
  }

  /** Totals, and the amounts payments copied from them. */
  ghost predicate MoneyOk(bookings: seq<Booking>, seats: seq<Seat>, payments: seq<Payment>) {
    && (forall b :: 0 <= b < |bookings| ==> bookings[b].total == bookings[b].unitPrice * Count(seats, SeatOf(b)))
    && (forall p :: 0 <= p < |payments| ==>
          && payments[p].bookingId < |bookings|
          && payments[p].amount == bookings[payments[p].bookingId].total
          && payments[p].currency == bookings[payments[p].bookingId].currency)
  }

  predicate CommissionFits(c: Commission, b: Booking) {
    && b.status.Confirmed?
    && c.base == b.total && c.currency == b.currency && c.companyId == b.companyId
    && c.rate <= 10_000
    && c.amount == CommissionAmount(c.base, c.rate)
    && c.status.Earned?
  }

  ghost predicate CommissionsOk(bookings: seq<Booking>, commissions: seq<Commission>) {
    && (forall c :: 0 <= c < |commissions| ==>
          commissions[c].bookingId < |bookings| && CommissionFits(commissions[c], bookings[commissions[c].bookingId]))
    && (forall c, d :: 0 <= c < d < |commissions| ==>
          !(commissions[c].membershipId == commissions[d].membershipId && commissions[c].bookingId == commissions[d].bookingId))
  }

  /** What a committed idempotency record points at: the resource its own request made. */
  ghost predicate RecordOk(k: Key, r: Record, bookings: seq<Booking>, payments: seq<Payment>) {
    match k.operation
    case CreatePassengerBooking =>
      && r.fingerprint.PassengerBooking?
      && r.bookingId.Some? && r.bookingId.value < |bookings|
      && var b := bookings[r.bookingId.value];
      && b.bookedBy == k.actor && b.companyId == k.companyId && b.channel.Web? && b.tripId == r.fingerprint.input.tripId
    case CreateAgentBooking =>
      && r.fingerprint.AgentBooking? && r.fingerprint.companyId == k.companyId
      && r.bookingId.Some? && r.bookingId.value < |bookings|
      && var b := bookings[r.bookingId.value];
      && b.bookedBy == k.actor && b.companyId == k.companyId && b.branchId == Some(r.fingerprint.branchId)
      && b.tripId == r.fingerprint.input.tripId
    case CreatePayment =>
      && (r.fingerprint.OwnerPayment? || r.fingerprint.CompanyPayment?)
      && r.fingerprint.actor == k.actor
      && r.paymentId.Some? && r.paymentId.value < |payments|
      && var p := payments[r.paymentId.value];
      && p.bookingId == r.fingerprint.bookingId && p.tender == r.fingerprint.tender
      && p.bookingId < |bookings| && bookings[p.bookingId].companyId == k.companyId
      && r.bookingId == Some(p.bookingId)
  }

  ghost predicate RecordsOk(records: map<Key, Record>, bookings: seq<Booking>, payments: seq<Payment>) {
    forall k :: k in records ==> RecordOk(k, records[k], bookings, payments)
  }

  /** Everything but the idempotency records, which are incomplete in the middle of a create. */
  ghost predicate Core(db: Db) {
    && KeysOk(db)
    && SurroundingsOk(db)
    && SeatsFollowBookings(db.bookings, db.seats)
    && SeatsUnique(db.seats)
    && PaidOk(db.bookings, db.payments)
    && TicketsOk(db.bookings, db.seats, db.tickets)
    && LogOk(db.bookings, db.payments, db.tickets, db.events)
    && MoneyOk(db.bookings, db.seats, db.payments)
    && CommissionsOk(db.bookings, db.commissions)
  }

  ghost predicate Inv(db: Db) {
    Core(db) && RecordsOk(db.records, db.bookings, db.payments)
  }

  // ---------------------------------------------------------------- what never changes

  /** A booking's snapshot is immutable and its status only moves forward: every exit from "open" is final. */
  predicate BookingEvolves(b: Booking, c: Booking) {
    && c == b.(status := c.status, version := c.version)
    && (c.status == b.status || IsPayable(b.status))
    && c.version >= b.version
  }

  predicate SeatEvolves(s: Seat, t: Seat) {
    && t == s.(status := t.status)
    && (t.status == s.status || s.status.Held? || (s.status.Confirmed? && t.status.CheckedIn?))
  }

  predicate PaymentEvolves(p: Payment, q: Payment) {
    && q == p.(status := q.status, providerReference := q.providerReference, confirmedBy := q.confirmedBy, paidAt := q.paidAt)
    && (q.status == p.status || CanTransitionPayment(p.status, q.status))
    && (p.providerReference.Some? ==> q.providerReference == p.providerReference)
  }

  predicate TicketEvolves(t: Ticket, u: Ticket) {
    && u == t.(checkedInAt := u.checkedInAt, cancelledAt := u.cancelledAt)
    && (t.checkedInAt.Some? ==> u.checkedInAt == t.checkedInAt)
    && (t.cancelledAt.Some? ==> u.cancelledAt == t.cancelledAt)
  }

  /** The two-state invariant: rows are never removed, snapshots never rewritten, the log only grows. */
  ghost predicate Evolves(db: Db, next: Db) {
    && |db.bookings| <= |next.bookings|
    && (forall b :: 0 <= b < |db.bookings| ==> BookingEvolves(db.bookings[b], next.bookings[b]))
    && |db.seats| <= |next.seats|
    && (forall i :: 0 <= i < |db.seats| ==> SeatEvolves(db.seats[i], next.seats[i]))
    && |db.payments| <= |next.payments|
    && (forall p :: 0 <= p < |db.payments| ==> PaymentEvolves(db.payments[p], next.payments[p]))
    && |db.tickets| <= |next.tickets|
    && (forall t :: 0 <= t < |db.tickets| ==> TicketEvolves(db.tickets[t], next.tickets[t]))
    && |db.commissions| <= |next.commissions|
    && (forall c :: 0 <= c < |db.commissions| ==> next.commissions[c] == db.commissions[c])
    && db.passengers <= next.passengers
    && db.events <= next.events
  }

  /** Records survive anything that only evolves the tables they point into. */
  lemma RecordsSurvive(db: Db, next: Db)
    requires Evolves(db, next)
    requires RecordsOk(db.records, db.bookings, db.payments)
    ensures RecordsOk(db.records, next.bookings, next.payments)
  {
    forall k | k in db.records
      ensures RecordOk(k, db.records[k], next.bookings, next.payments)
    {
      assert RecordOk(k, db.records[k], db.bookings, db.payments);
    }
  }
}
