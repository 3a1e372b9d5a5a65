/**
 * The rows of the reservation and settlement tables, and their closed transition tables.
 * A table is a sequence of rows: a row's id is its position, so INSERT appends and ids are fresh.
 * Money is in minor units; instants are microseconds.
 */
module Tables {
  import opened Wrappers
  import opened Identity

  type Instant = int

  const MICROS_PER_MINUTE := 60_000_000
  const IDEMPOTENCY_LIFETIME := 24 * 60 * MICROS_PER_MINUTE

  datatype TripStatus = Scheduled | Boarding | Ongoing | Completed | Cancelled

  /** What the booking and availability queries read of a trip and the rows it joins. */
  datatype Trip = Trip(
    companyId: nat, price: nat, currency: string, status: TripStatus, isActive: bool,
    boardingClosesAt: Instant,
    partiesActive: bool,              // company, route, both stations and bus are live
    seatHoldMinutes: Option<nat>,     // NULL when the company has no settings row
    layout: seq<string>, totalSeats: nat)

  datatype BookingStatus =
    | Draft | Held | PendingPayment | Confirmed | PartiallyCancelled | Cancelled | Completed | Expired
  datatype Channel = MobileApp | Web | AgentDesk | BranchOffice | AdminDesk

  datatype Booking = Booking(
    reference: string, tripId: nat, companyId: nat, branchId: Option<nat>, bookedBy: nat,
    channel: Channel, status: BookingStatus, unitPrice: nat, total: nat, currency: string,
    expiresAt: Instant, version: nat)

  datatype Gender = Male | Female | Unspecified
  datatype Passenger = Passenger(bookingId: nat, gender: Gender)

  datatype SeatStatus = Held | Confirmed | CheckedIn | Released | Cancelled
  datatype Seat = Seat(
    tripId: nat, bookingId: nat, passengerId: nat, seatNumber: string, status: SeatStatus, heldUntil: Instant)

  datatype PaymentMethod = Cash | Bankily | Masrvi | Seddad | Other
  datatype PaymentStatus =
    | Pending | Processing | Succeeded | Failed | Cancelled | PartiallyRefunded | Refunded

  datatype Payment = Payment(
    bookingId: nat, tender: PaymentMethod, status: PaymentStatus, amount: nat, currency: string,
    providerReference: Option<string>, internalReference: string,
    confirmedBy: Option<nat>, paidAt: Option<Instant>)

  datatype Ticket = Ticket(
    bookingId: nat, passengerId: nat, seatId: nat, number: string, tokenHash: string,
    issuedAt: Instant, checkedInAt: Option<Instant>, cancelledAt: Option<Instant>)

  datatype CommissionStatus = CommissionPending | Earned | Paid | CommissionCancelled
  datatype Commission = Commission(
    membershipId: nat, bookingId: nat, companyId: nat, rate: nat, base: nat, amount: nat,
    currency: string, status: CommissionStatus)

  datatype EventKind =
    | BookingCreated | PaymentPending | PaymentConfirmed | CheckedIn | Cancelled | Expired
    | RefundCreated | RefundCompleted
  datatype Event = Event(bookingId: nat, companyId: nat, actor: Option<nat>, kind: EventKind)

  datatype PassengerInput = PassengerInput(details: string, gender: Gender, seat: string)
  datatype BookingInput = BookingInput(tripId: nat, passengers: seq<PassengerInput>)

  datatype Operation = CreatePassengerBooking | CreateAgentBooking | CreatePayment

  /** The hashed request: the hash is taken as injective, so the fingerprint is the request itself. */
  datatype Fingerprint =
    | PassengerBooking(input: BookingInput)
    | AgentBooking(companyId: nat, branchId: nat, input: BookingInput)
    | OwnerPayment(actor: nat, bookingId: nat, tender: PaymentMethod)
    | CompanyPayment(actor: nat, companyId: nat, bookingId: nat, tender: PaymentMethod)

  datatype Key = Key(companyId: nat, actor: nat, operation: Operation, text: string)
  datatype Record = Record(
    fingerprint: Fingerprint, bookingId: Option<nat>, paymentId: Option<nat>, expiresAt: Instant)

  datatype Db = Db(
    trips: map<nat, Trip>, memberships: seq<Membership>,
    bookings: seq<Booking>, passengers: seq<Passenger>, seats: seq<Seat>,
    payments: seq<Payment>, tickets: seq<Ticket>, commissions: seq<Commission>,
    events: seq<Event>, records: map<Key, Record>)

  // ---------------------------------------------------------------- transition tables

  datatype BookingAction = Cancel | Expire

  predicate CanApplyBookingAction(status: BookingStatus, action: BookingAction) {
    status in {BookingStatus.Held, BookingStatus.PendingPayment}
  }

  function BookingTarget(action: BookingAction): BookingStatus {
    match action
    case Cancel => BookingStatus.Cancelled
    case Expire => BookingStatus.Expired
  }

  function PaymentTransitions(status: PaymentStatus): set<PaymentStatus> {
    match status
    case Pending => {PaymentStatus.Processing, PaymentStatus.Succeeded, PaymentStatus.Cancelled}
    case Processing => {PaymentStatus.Succeeded, PaymentStatus.Failed, PaymentStatus.Cancelled}
    case Succeeded => {PaymentStatus.Refunded}
    case Failed => {}
    case Cancelled => {}
    case PartiallyRefunded => {}
    case Refunded => {}
  }

  predicate CanTransitionPayment(from: PaymentStatus, to: PaymentStatus) {
    to in PaymentTransitions(from)
  }

  predicate IsOnlineMethod(tender: PaymentMethod) {
    tender.Bankily? || tender.Masrvi? || tender.Seddad?
  }

  /** The statuses of the partial unique index on successful payments. */
  predicate IsSettled(status: PaymentStatus) {
    status.Succeeded? || status.PartiallyRefunded? || status.Refunded?
  }

  /** PAYABLE_BOOKING_STATUSES, and the statuses confirmBookingPaid accepts. */
  predicate IsPayable(status: BookingStatus) {
    status.Held? || status.PendingPayment?
  }

  /** The statuses of the active-seat unique index: no clock. */
  predicate OccupiesIndex(status: SeatStatus) {
    status.Held? || status.Confirmed? || status.CheckedIn?
  }
}
