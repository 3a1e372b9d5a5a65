/** Idempotent creation is at-most-once over runs, and never loses its result. */
module Idempotency {
  import opened Wrappers
  import opened Identity
  import opened Tables
  import opened Reservation
  import opened Invariants
  import opened HoldProofs
  import opened SettlementProofs
  import opened TicketProofs
  import opened RunProofs

  datatype Request = Request(key: Key, fingerprint: Fingerprint)

  /** The scope, key and fingerprint under which a create call claims its record. */
  function RequestOf(db: Db, call: Call): Option<Request> {
    match call
    case CreateForPassenger(actor, text, input, _) =>
      if input.tripId in db.trips
      then Some(Request(Key(db.trips[input.tripId].companyId, actor, Operation.CreatePassengerBooking, text), PassengerBooking(input)))
      else None
    case CreateForAgent(actor, companyId, branchId, text, input, _) =>
      Some(Request(Key(companyId, actor, Operation.CreateAgentBooking, text), AgentBooking(companyId, branchId, input)))
    case PayAsPassenger(actor, text, bookingId, tender, _, _) =>
      if bookingId < |db.bookings|
      then Some(Request(Key(db.bookings[bookingId].companyId, actor, Operation.CreatePayment, text), OwnerPayment(actor, bookingId, tender)))
      else None
    case PayAsCompany(actor, companyId, text, bookingId, tender, _, _) =>
      Some(Request(Key(companyId, actor, Operation.CreatePayment, text), CompanyPayment(actor, companyId, bookingId, tender)))
    case _ => None
  }

  /** What a record answers a replay with. */
  function ResultOf(key: Key, record: Record): Option<nat> {
    if key.operation.CreatePayment? then record.paymentId else record.bookingId
  }

  /** The id the next created resource gets. */
  function NextId(db: Db, key: Key): nat {
    if key.operation.CreatePayment? then |db.payments| else |db.bookings|
  }

  // ---------------------------------------------------------------- records are complete

  lemma ReachableHasRecords(db: Db)
    requires Reachable(db)
    ensures RecordsOk(db.records, db.bookings, db.payments)
  {
    ReachableIsGood(db);
  }

  /** Every committed record is complete and points at an existing resource of its own scope. */
  lemma RecordsAreComplete(db: Db, key: Key)
    requires Reachable(db) && key in db.records
    ensures ResultOf(key, db.records[key]).Some? && ResultOf(key, db.records[key]).value < NextId(db, key)
    ensures RecordOk(key, db.records[key], db.bookings, db.payments)
  {
    ReachableHasRecords(db);
    assert RecordOk(key, db.records[key], db.bookings, db.payments);
  }

  /** So a live record conflicts with exactly the requests that are different; it is never found half-written. */
  lemma ConflictMeansDifferent(db: Db, key: Key, fingerprint: Fingerprint, now: Instant)
    requires Reachable(db) && RecordLive(db, key, now)
    ensures var claim := ClaimIdempotency(db, key, fingerprint, now);
      && (claim.Conflict? <==> fingerprint != db.records[key].fingerprint)
      && (claim.Replay? <==> fingerprint == db.records[key].fingerprint)
  {
    RecordsAreComplete(db, key);
  }

  /** A refused call leaves every table as it was: in particular its key can be used again. */
  lemma RefusalChangesNothing(db: Db, call: Call, now: Instant)
    requires Execute(db, call, now).1.Refused?
    ensures Execute(db, call, now).0 == db
  {
  }

  // ---------------------------------------------------------------- one call

  lemma PaymentCreateRecords(db: Db, actor: nat, key: Key, fingerprint: Fingerprint, bookingId: nat, tender: PaymentMethod,
                             references: References, providerReference: string, now: Instant)
    requires PaymentRequestFits(db, actor, key, fingerprint, bookingId, tender)
    requires CreateClaimedPayment(db, actor, key, fingerprint, bookingId, tender, references, providerReference, now).Success?
    ensures var (next, id) := CreateClaimedPayment(db, actor, key, fingerprint, bookingId, tender, references, providerReference, now).value;
      if RecordLive(db, key, now) then
        next == db && db.records[key].fingerprint == fingerprint && db.records[key].paymentId == Some(id)
      else
        && id == |db.payments|
        && next.records == db.records[key := ClaimedRecord(fingerprint, now).(bookingId := Some(bookingId), paymentId := Some(id))]
        && |next.payments| == |db.payments| + 1
  {
    if RecordLive(db, key, now) {
      PaymentReplayShape(db, actor, key, fingerprint, bookingId, tender, references, providerReference, now);
    } else {
      var reference := PaymentCommits(db, actor, key, fingerprint, bookingId, tender, references, providerReference, now);
    }
  }

  /** What a successful create did: replayed a live record, or made the next resource and recorded it for its lifetime. */
  ghost predicate CreatedOrReplayed(db: Db, next: Db, request: Request, id: nat, now: Instant) {
    if RecordLive(db, request.key, now) then
      && next == db
      && db.records[request.key].fingerprint == request.fingerprint
      && ResultOf(request.key, db.records[request.key]) == Some(id)
    else
      && id == NextId(db, request.key) && NextId(next, request.key) == id + 1
      && request.key in next.records
      && next.records == db.records[request.key := next.records[request.key]]
      && next.records[request.key].fingerprint == request.fingerprint
      && next.records[request.key].expiresAt == now + IDEMPOTENCY_LIFETIME
      && ResultOf(request.key, next.records[request.key]) == Some(id)
  }

  lemma HoldRecords(db: Db, request: Request, tripId: nat, branchId: Option<nat>, actor: nat, channel: Channel,
                    ps: seq<PassengerInput>, references: References, now: Instant)
    requires KeysOk(db) && !request.key.operation.CreatePayment? && !RecordLive(db, request.key, now)
    requires CreateHold(ClaimedDb(db, request.key, request.fingerprint, now), tripId, request.key.companyId, branchId, actor, channel,
                        ps, references, now).Success?
    ensures var held := CreateHold(ClaimedDb(db, request.key, request.fingerprint, now), tripId, request.key.companyId, branchId,
                                   actor, channel, ps, references, now).value;
      CreatedOrReplayed(db, CompleteBooking(held, request.key, |db.bookings|), request, |db.bookings|, now)
  {
    HoldCompletes(db, request.key, request.fingerprint, tripId, request.key.companyId, branchId, actor, channel, ps, references, now);
  }

  lemma PassengerCreateRecords(db: Db, call: Call, now: Instant)
    requires KeysOk(db) && call.CreateForPassenger? && Execute(db, call, now).1.Resource?
    ensures RequestOf(db, call).Some?
    ensures CreatedOrReplayed(db, Execute(db, call, now).0, RequestOf(db, call).value, Execute(db, call, now).1.id, now)
  {
    PassengerCreateShape(db, call.actor, call.key, call.input, call.references, now);
    var r := RequestOf(db, call).value;
    if !RecordLive(db, r.key, now) {
      HoldRecords(db, r, call.input.tripId, None, call.actor, Channel.Web, call.input.passengers, call.references, now);
    }
  }

  lemma AgentCreateRecords(db: Db, call: Call, now: Instant)
    requires KeysOk(db) && call.CreateForAgent? && Execute(db, call, now).1.Resource?
    ensures RequestOf(db, call).Some?
    ensures CreatedOrReplayed(db, Execute(db, call, now).0, RequestOf(db, call).value, Execute(db, call, now).1.id, now)
  {
    AgentCreateShape(db, call.actor, call.companyId, call.branchId, call.key, call.input, call.references, now);
    var r := RequestOf(db, call).value;
    if !RecordLive(db, r.key, now) {
      HoldRecords(db, r, call.input.tripId, Some(call.branchId), call.actor, Channel.AgentDesk, call.input.passengers, call.references, now);
    }
  }

  lemma PaymentCallRecords(db: Db, call: Call, now: Instant)
    requires call.PayAsPassenger? || call.PayAsCompany?
    requires Execute(db, call, now).1.Resource?
    ensures RequestOf(db, call).Some?
    ensures CreatedOrReplayed(db, Execute(db, call, now).0, RequestOf(db, call).value, Execute(db, call, now).1.id, now)
  {
    match call
    case PayAsPassenger(actor, text, bookingId, tender, refs, ref) =>
      PassengerPaymentShape(db, actor, text, bookingId, tender, refs, ref, now);
      var r := RequestOf(db, call).value;
      PaymentCreateRecords(db, actor, r.key, r.fingerprint, bookingId, tender, refs, ref, now);
    case PayAsCompany(actor, companyId, text, bookingId, tender, refs, ref) =>
      CompanyPaymentShape(db, actor, companyId, text, bookingId, tender, refs, ref, now);
      var r := RequestOf(db, call).value;
      PaymentCreateRecords(db, actor, r.key, r.fingerprint, bookingId, tender, refs, ref, now);
  }

  /** Every answered resource was either replayed from a live record or is new and recorded. */
  lemma CreateOrReplay(db: Db, call: Call, now: Instant)
    requires KeysOk(db) && Execute(db, call, now).1.Resource?
    ensures RequestOf(db, call).Some?
    ensures CreatedOrReplayed(db, Execute(db, call, now).0, RequestOf(db, call).value, Execute(db, call, now).1.id, now)
  {
    if call.CreateForPassenger? {
      PassengerCreateRecords(db, call, now);
    } else if call.CreateForAgent? {
      AgentCreateRecords(db, call, now);
    } else {
      PaymentCallRecords(db, call, now);
    }
  }

  lemma SettlementsKeepRecords(db: Db, call: Call, now: Instant)
    requires call.ConfirmCash? || call.RefundPayment? || call.HandleWebhook?
    ensures Execute(db, call, now).0.records == db.records
  {
    match call
    case ConfirmCash(actor, companyId, p) =>
      if ConfirmCashTx(db, actor, companyId, p, now).Success? { ConfirmCashLeavesAlone(db, actor, companyId, p, now); }
    case RefundPayment(actor, companyId, p) =>
      if RefundPaymentTx(db, actor, companyId, p).Success? { RefundLeavesAlone(db, actor, companyId, p); }
    case HandleWebhook(e) =>
      if HandleWebhookTx(db, e, now).Success? { WebhookLeavesAlone(db, e, now); }
  }

  lemma RefusedCreatesKeepRecords(db: Db, call: Call, now: Instant)
    requires call.CreateForPassenger? || call.CreateForAgent? || call.PayAsPassenger? || call.PayAsCompany?
    requires !Execute(db, call, now).1.Resource?
    ensures Execute(db, call, now).0.records == db.records
  {
  }

  lemma IssuesKeepRecords(db: Db, call: Call, now: Instant)
    requires call.IssueForOwner? || call.IssueForCompany? || call.ValidateTicket? || call.RevokeTicket?
    ensures Execute(db, call, now).0.records == db.records
  {
  }

  lemma ClosingsKeepRecords(db: Db, call: Call, now: Instant)
    requires call.ChangeSurroundings? || call.CancelOwned? || call.CancelCompany? || call.ExpireBookings?
    ensures Execute(db, call, now).0.records == db.records
  {
  }

  /** Calls that create nothing do not touch the records. */
  lemma OtherCallsKeepRecords(db: Db, call: Call, now: Instant)
    requires !Execute(db, call, now).1.Resource?
    ensures Execute(db, call, now).0.records == db.records
  {
    if call.CreateForPassenger? || call.CreateForAgent? || call.PayAsPassenger? || call.PayAsCompany? {
      RefusedCreatesKeepRecords(db, call, now);
    } else if call.ConfirmCash? || call.RefundPayment? || call.HandleWebhook? {
      SettlementsKeepRecords(db, call, now);
    } else if call.IssueForOwner? || call.IssueForCompany? || call.ValidateTicket? || call.RevokeTicket? {
      IssuesKeepRecords(db, call, now);
    } else {
      ClosingsKeepRecords(db, call, now);
    }
  }

  /** A record is untouched by every call before it expires. */
  lemma RecordKept(db: Db, call: Call, now: Instant, key: Key)
    requires KeysOk(db) && RecordLive(db, key, now)
    ensures var next := Execute(db, call, now).0; key in next.records && next.records[key] == db.records[key]
  {
    if Execute(db, call, now).1.Resource? {
      CreateOrReplay(db, call, now);
    } else {
      OtherCallsKeepRecords(db, call, now);
    }
  }

  // ---------------------------------------------------------------- whole runs

  ghost predicate AllBefore(calls: seq<Timed>, end: Instant) {
    forall i :: 0 <= i < |calls| ==> calls[i].at < end
  }

  lemma RecordKeptOnCall(s: Db, timed: Timed, key: Key, record: Record)
    requires Inv(s) && key in s.records && s.records[key] == record && timed.at < record.expiresAt
    ensures var next := Execute(s, timed.call, timed.at).0; key in next.records && next.records[key] == record
  {
    RecordKept(s, timed.call, timed.at, key);
  }

  lemma {:induction false} RecordOutlivesRun(db: Db, calls: seq<Timed>, key: Key)
    requires Inv(db) && key in db.records && AllBefore(calls, db.records[key].expiresAt)
    ensures var next := Run(db, calls); key in next.records && next.records[key] == db.records[key]
  {
    if calls != [] {
      var n := |calls| - 1;
      RecordOutlivesRun(db, calls[..n], key);
      RunKeepsInv(db, calls[..n]);
      RecordKeptOnCall(Run(db, calls[..n]), calls[n], key, db.records[key]);
    }
  }

  /**
   * At most once: while a record lives, whatever else the system does, every successful call under its scope
   * and key carries the recorded fingerprint, answers the recorded resource, and changes no table at all.
   */
  lemma AtMostOnce(db: Db, calls: seq<Timed>, last: Timed, key: Key)
    requires Inv(db) && key in db.records
    requires AllBefore(calls, db.records[key].expiresAt) && last.at < db.records[key].expiresAt
    requires var before := Run(db, calls);
      && RequestOf(before, last.call).Some? && RequestOf(before, last.call).value.key == key
      && Execute(before, last.call, last.at).1.Resource?
    ensures var before := Run(db, calls);
      && RequestOf(before, last.call).value.fingerprint == db.records[key].fingerprint
      && ResultOf(key, db.records[key]) == Some(Execute(before, last.call, last.at).1.id)
      && Execute(before, last.call, last.at).0 == before
  {
    RecordOutlivesRun(db, calls, key);
    RunKeepsInv(db, calls);
    CreateOrReplay(Run(db, calls), last.call, last.at);
  }

  ghost predicate NoneAfter(calls: seq<Timed>, end: Instant) {
    forall i :: 0 <= i < |calls| ==> calls[i].at <= end
  }

  /** A key makes a second resource only a full lifetime after the first, if the clock never runs backwards. */
  lemma SecondResourceOnlyAfterExpiry(db: Db, first: Timed, calls: seq<Timed>, last: Timed)
    requires Inv(db) && NoneAfter(calls, last.at)
    requires Execute(db, first.call, first.at).1.Resource?
    requires var made := Execute(db, first.call, first.at).0; var before := Run(made, calls);
      && RequestOf(db, first.call).Some? && !RecordLive(db, RequestOf(db, first.call).value.key, first.at)
      && RequestOf(before, last.call).Some?
      && RequestOf(before, last.call).value.key == RequestOf(db, first.call).value.key
      && Execute(before, last.call, last.at).1.Resource?
      && Execute(before, last.call, last.at).1.id != Execute(db, first.call, first.at).1.id
    ensures last.at >= first.at + 24 * 3_600_000_000
  {
    CreateOrReplay(db, first.call, first.at);
    ExecuteKeepsInv(db, first.call, first.at);
    var made := Execute(db, first.call, first.at).0;
    if last.at < first.at + IDEMPOTENCY_LIFETIME {
      AtMostOnce(made, calls, last, RequestOf(db, first.call).value.key);
    }
  }

  // ---------------------------------------------------------------- no lost results

  lemma ReachableHasKeys(db: Db)
    requires Reachable(db)
    ensures KeysOk(db)
  {
    ReachableIsGood(db);
  }

  lemma PassengerReplayIsFound(db: Db, actor: nat, text: string, input: BookingInput, references: References, now: Instant)
    requires input.tripId in db.trips
    requires var key := Key(db.trips[input.tripId].companyId, actor, Operation.CreatePassengerBooking, text);
      RecordLive(db, key, now) && RecordOk(key, db.records[key], db.bookings, db.payments)
    ensures CreatePassengerBookingTx(db, actor, text, input, references, now) != Failure(BookingNotFound)
  {
  }

  lemma PassengerHoldIsFound(db: Db, actor: nat, text: string, input: BookingInput, references: References, now: Instant)
    requires KeysOk(db) && input.tripId in db.trips
    requires !RecordLive(db, Key(db.trips[input.tripId].companyId, actor, Operation.CreatePassengerBooking, text), now)
    ensures CreatePassengerBookingTx(db, actor, text, input, references, now) != Failure(BookingNotFound)
  {
    var companyId := db.trips[input.tripId].companyId;
    var key := Key(companyId, actor, Operation.CreatePassengerBooking, text);
    FreshHoldIsFound(ClaimedDb(db, key, PassengerBooking(input), now), input.tripId, companyId, None, actor, Channel.Web,
                     input.passengers, references, now);
  }

  /** A passenger's create, fresh or replayed, always finds its booking among the passenger's own. */
  lemma PassengerNeverLosesBooking(db: Db, actor: nat, text: string, input: BookingInput, references: References, now: Instant)
    requires Reachable(db)
    ensures CreatePassengerBookingTx(db, actor, text, input, references, now) != Failure(BookingNotFound)
  {
    if input.tripId in db.trips {
      var key := Key(db.trips[input.tripId].companyId, actor, Operation.CreatePassengerBooking, text);
      if RecordLive(db, key, now) {
        RecordsAreComplete(db, key);
        PassengerReplayIsFound(db, actor, text, input, references, now);
      } else {
        ReachableHasKeys(db);
        PassengerHoldIsFound(db, actor, text, input, references, now);
      }
    }
  }

  lemma FreshHoldIsFound(db: Db, tripId: nat, companyId: nat, branchId: Option<nat>, actor: nat, channel: Channel,
                         ps: seq<PassengerInput>, references: References, now: Instant)
    requires KeysOk(db)
    ensures var hold := CreateHold(db, tripId, companyId, branchId, actor, channel, ps, references, now);
      && hold != Failure(BookingNotFound)
      && (hold.Success? ==> NewHold(db.bookings, hold.value.bookings, tripId, companyId, branchId, actor, channel))
  {
    var hold := CreateHold(db, tripId, companyId, branchId, actor, channel, ps, references, now);
    if hold.Success? {
      HoldRows(db, tripId, companyId, branchId, actor, channel, ps, references, now);
    } else if TripForBookingFound(db, tripId, companyId) && IsTripBookable(db.trips[tripId], now) {
      var swept := Sweep(db, companyId, Some(tripId), now);
      InsertWithRetryExact(swept, tripId, companyId, branchId, actor, channel, |ps|, references, 0, now);
      var booked := InsertWithRetry(swept, tripId, companyId, branchId, actor, channel, |ps|, references, 0, now);
      if booked.Success? {
        LoopErrors(booked.value, tripId, |swept.bookings|, ps);
      }
    }
  }

  lemma {:induction false} LoopErrors(db: Db, tripId: nat, bookingId: nat, ps: seq<PassengerInput>)
    requires bookingId < |db.bookings|
    ensures var r := InsertPassengers(db, tripId, bookingId, ps);
      r.Failure? ==> r.error.InvalidSeatSelection? || r.error.SeatAlreadyReserved?
  {
    if ps != [] {
      LoopErrors(db, tripId, bookingId, ps[..|ps| - 1]);
    }
  }

  lemma AgentReplayIsFound(db: Db, actor: nat, companyId: nat, branchId: nat, text: string, input: BookingInput,
                           references: References, now: Instant)
    requires var key := Key(companyId, actor, Operation.CreateAgentBooking, text);
      RecordLive(db, key, now) && RecordOk(key, db.records[key], db.bookings, db.payments)
    ensures CreateAgentBookingTx(db, actor, companyId, branchId, text, input, references, now) != Failure(BookingNotFound)
  {
    var ms := FindMemberships(db.memberships, actor, companyId);
    if CanExercisePermissionInBranch(ResolveEntitlements(ms), BookingsCreate, branchId) {
      CreateImpliesRead(ms, branchId);
    }
  }

  lemma AgentHoldIsFound(db: Db, actor: nat, companyId: nat, branchId: nat, text: string, input: BookingInput,
                         references: References, now: Instant)
    requires KeysOk(db) && !RecordLive(db, Key(companyId, actor, Operation.CreateAgentBooking, text), now)
    ensures CreateAgentBookingTx(db, actor, companyId, branchId, text, input, references, now) != Failure(BookingNotFound)
  {
    var key := Key(companyId, actor, Operation.CreateAgentBooking, text);
    FreshHoldIsFound(ClaimedDb(db, key, AgentBooking(companyId, branchId, input), now), input.tripId, companyId,
                     Some(branchId), actor, Channel.AgentDesk, input.passengers, references, now);
  }

  /**
   * An agent's create that passes its permission check always finds its booking: whoever may create in a branch
   * may read there, and the fingerprint pins the branch, so not even a later change of memberships loses a replay.
   */
  lemma AgentNeverLosesBooking(db: Db, actor: nat, companyId: nat, branchId: nat, text: string, input: BookingInput,
                               references: References, now: Instant)
    requires Reachable(db)
    ensures CreateAgentBookingTx(db, actor, companyId, branchId, text, input, references, now) != Failure(BookingNotFound)
  {
    var key := Key(companyId, actor, Operation.CreateAgentBooking, text);
    if RecordLive(db, key, now) {
      RecordsAreComplete(db, key);
      AgentReplayIsFound(db, actor, companyId, branchId, text, input, references, now);
    } else {
      ReachableHasKeys(db);
      AgentHoldIsFound(db, actor, companyId, branchId, text, input, references, now);
    }
  }

  /** Both payment creates find the payment they made or replay. */
  lemma PaymentNeverLost(db: Db, actor: nat, text: string, bookingId: nat, tender: PaymentMethod,
                         references: References, providerReference: string, now: Instant)
    requires Reachable(db)
    ensures CreatePassengerPaymentTx(db, actor, text, bookingId, tender, references, providerReference, now)
         != Failure(PaymentNotFound)
  {
    if IsOnlineMethod(tender) && FoundForOwner(db, actor, bookingId) {
      var key := Key(db.bookings[bookingId].companyId, actor, Operation.CreatePayment, text);
      if key in db.records { RecordsAreComplete(db, key); }
      var fingerprint := OwnerPayment(actor, bookingId, tender);
      PaymentResultLoads(db, actor, key, fingerprint, bookingId, tender, references, providerReference, now);
    }
  }

  lemma CompanyPaymentNeverLost(db: Db, actor: nat, companyId: nat, text: string, bookingId: nat, tender: PaymentMethod,
                                references: References, providerReference: string, now: Instant)
    requires Reachable(db)
    ensures CreateCompanyPaymentTx(db, actor, companyId, text, bookingId, tender, references, providerReference, now)
         != Failure(PaymentNotFound)
  {
    if FoundForCompany(db, companyId, ActorScope(db, actor, companyId, PaymentsConfirm), bookingId) {
      var key := Key(companyId, actor, Operation.CreatePayment, text);
      if key in db.records { RecordsAreComplete(db, key); }
      PaymentResultLoads(db, actor, key, CompanyPayment(actor, companyId, bookingId, tender), bookingId, tender,
                         references, providerReference, now);
    }
  }

  /** The payment a claimed create answers exists and is of the requested booking, on unchanged booking rows. */
  lemma PaymentResultLoads(db: Db, actor: nat, key: Key, fingerprint: Fingerprint, bookingId: nat, tender: PaymentMethod,
                           references: References, providerReference: string, now: Instant)
    requires key in db.records ==> RecordOk(key, db.records[key], db.bookings, db.payments)
    requires PaymentRequestFits(db, actor, key, fingerprint, bookingId, tender)
    ensures var r := CreateClaimedPayment(db, actor, key, fingerprint, bookingId, tender, references, providerReference, now);
      && r != Failure(PaymentNotFound)
      && (r.Success? ==> r.value.1 < |r.value.0.payments| && r.value.0.payments[r.value.1].bookingId == bookingId
                         && r.value.0.bookings == db.bookings)
  {
    if !RecordLive(db, key, now) && CreateClaimedPayment(db, actor, key, fingerprint, bookingId, tender, references, providerReference, now).Success? {
      var reference := PaymentCommits(db, actor, key, fingerprint, bookingId, tender, references, providerReference, now);
    }
  }
}
