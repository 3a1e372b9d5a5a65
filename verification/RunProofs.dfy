/** Every call keeps the joint invariant, so every run does; and what that says about whole runs. */
module RunProofs {
  import opened Wrappers
  import opened Counting
  import opened Identity
  import opened Tables
  import opened Reservation
  import opened Invariants
  import opened HoldProofs
  import opened SettlementProofs
  import opened TicketProofs

  /** A committed step: the joint invariant holds again, and rows only evolved. */
  ghost predicate GoodStep(db: Db, next: Db) {
    Inv(next) && Evolves(db, next)
  }

  lemma KeysIgnoreRecords(db: Db, records: map<Key, Record>)
    requires KeysOk(db)
    ensures KeysOk(db.(records := records)) && Evolves(db, db.(records := records))
  {
  }

  lemma CoreIgnoresRecords(db: Db, records: map<Key, Record>)
    requires Core(db)
    ensures Core(db.(records := records)) && Evolves(db, db.(records := records))
  {
    KeysIgnoreRecords(db, records);
    SurroundingsSame(db, db.(records := records));
  }

  lemma EvolvesToItself(db: Db)
    ensures Evolves(db, db)
  {
  }

  /** Two evolutions compose when the second leaves the payments alone. */
  lemma EvolvesTwice(db: Db, mid: Db, next: Db)
    requires Evolves(db, mid) && Evolves(mid, next) && next.payments == mid.payments
    ensures Evolves(db, next)
  {
    forall c | 0 <= c < |db.commissions|
      ensures next.commissions[c] == db.commissions[c]
    {
      assert mid.commissions[c] == db.commissions[c];
    }
    forall b | 0 <= b < |db.bookings|
      ensures BookingEvolves(db.bookings[b], next.bookings[b])
    {
      assert BookingEvolves(db.bookings[b], mid.bookings[b]) && BookingEvolves(mid.bookings[b], next.bookings[b]);
    }
    forall i | 0 <= i < |db.seats|
      ensures SeatEvolves(db.seats[i], next.seats[i])
    {
      assert SeatEvolves(db.seats[i], mid.seats[i]) && SeatEvolves(mid.seats[i], next.seats[i]);
    }
    forall t | 0 <= t < |db.tickets|
      ensures TicketEvolves(db.tickets[t], next.tickets[t])
    {
      assert TicketEvolves(db.tickets[t], mid.tickets[t]) && TicketEvolves(mid.tickets[t], next.tickets[t]);
    }
  }

  /** A step that keeps the core and does not touch the records is a good one. */
  lemma GoodWithSameRecords(db: Db, next: Db)
    requires Inv(db) && Core(next) && Evolves(db, next) && next.records == db.records
    ensures GoodStep(db, next)
  {
    RecordsSurvive(db, next);
  }

  // ---------------------------------------------------------------- creating bookings

  function ClaimedRecord(fingerprint: Fingerprint, now: Instant): Record {
    Record(fingerprint, None, None, now + IDEMPOTENCY_LIFETIME)
  }

  lemma CreateHoldKeepsCore(db: Db, tripId: nat, companyId: nat, branchId: Option<nat>, actor: nat, channel: Channel,
                            ps: seq<PassengerInput>, references: References, now: Instant)
    requires Core(db)
    requires CreateHold(db, tripId, companyId, branchId, actor, channel, ps, references, now).Success?
    ensures var held := CreateHold(db, tripId, companyId, branchId, actor, channel, ps, references, now).value;
      Core(held) && Evolves(db, held)
  {
    var reference := CreateHoldExact(db, tripId, companyId, branchId, actor, channel, ps, references, now);
    var swept := Sweep(db, companyId, Some(tripId), now);
    SweepKeepsCore(db, companyId, Some(tripId), now);
    HoldInsertedKeepsCore(swept, tripId, branchId, actor, channel, ps, reference, now);
    EvolvesTwice(db, swept, HoldInserted(swept, tripId, branchId, actor, channel, ps, reference, now));
  }

  /** The one booking a successful create adds. */
  ghost predicate NewHold(bookings: seq<Booking>, next: seq<Booking>, tripId: nat, companyId: nat,
                          branchId: Option<nat>, actor: nat, channel: Channel) {
    && |next| == |bookings| + 1
    && var b := next[|bookings|];
    && b.bookedBy == actor && b.companyId == companyId && b.branchId == branchId && b.channel == channel
    && b.tripId == tripId
  }

  lemma HoldRows(db: Db, tripId: nat, companyId: nat, branchId: Option<nat>, actor: nat, channel: Channel,
                        ps: seq<PassengerInput>, references: References, now: Instant)
    requires KeysOk(db)
    requires CreateHold(db, tripId, companyId, branchId, actor, channel, ps, references, now).Success?
    ensures var held := CreateHold(db, tripId, companyId, branchId, actor, channel, ps, references, now).value;
      && held.records == db.records && held.payments == db.payments
      && NewHold(db.bookings, held.bookings, tripId, companyId, branchId, actor, channel)
  {
    var reference := CreateHoldExact(db, tripId, companyId, branchId, actor, channel, ps, references, now);
  }

  lemma EvolvesIgnoresRecords(db: Db, next: Db, before: map<Key, Record>, after: map<Key, Record>)
    requires Evolves(db.(records := before), next)
    ensures Evolves(db, next.(records := after))
  {
  }

  function ClaimedDb(db: Db, key: Key, fingerprint: Fingerprint, now: Instant): Db {
    db.(records := db.records[key := ClaimedRecord(fingerprint, now)])
  }

  /** The completed record of a create: one row, pointing at the one new booking. */
  lemma HoldCompletes(db: Db, key: Key, fingerprint: Fingerprint, tripId: nat, companyId: nat, branchId: Option<nat>,
                      actor: nat, channel: Channel, ps: seq<PassengerInput>, references: References, now: Instant)
    requires KeysOk(db)
    requires CreateHold(ClaimedDb(db, key, fingerprint, now), tripId, companyId, branchId, actor, channel, ps, references, now).Success?
    ensures var held := CreateHold(ClaimedDb(db, key, fingerprint, now), tripId, companyId, branchId, actor, channel, ps, references, now).value;
      var records := db.records[key := ClaimedRecord(fingerprint, now).(bookingId := Some(|db.bookings|))];
      && CompleteBooking(held, key, |db.bookings|) == held.(records := records)
      && held.payments == db.payments
      && NewHold(db.bookings, held.bookings, tripId, companyId, branchId, actor, channel)
  {
    var claimed := ClaimedDb(db, key, fingerprint, now);
    HoldRows(claimed, tripId, companyId, branchId, actor, channel, ps, references, now);
    var full := ClaimedRecord(fingerprint, now).(bookingId := Some(|db.bookings|));
    assert claimed.records[key := full] == db.records[key := full];
  }

  lemma HoldKeepsCore(db: Db, before: map<Key, Record>, after: map<Key, Record>, tripId: nat, companyId: nat, branchId: Option<nat>,
                      actor: nat, channel: Channel, ps: seq<PassengerInput>, references: References, now: Instant)
    requires Core(db)
    requires CreateHold(db.(records := before), tripId, companyId, branchId, actor, channel, ps, references, now).Success?
    ensures var held := CreateHold(db.(records := before), tripId, companyId, branchId, actor, channel, ps, references, now).value;
      Core(held.(records := after)) && Evolves(db, held.(records := after))
  {
    var claimed := db.(records := before);
    CoreIgnoresRecords(db, before);
    CreateHoldKeepsCore(claimed, tripId, companyId, branchId, actor, channel, ps, references, now);
    var held := CreateHold(claimed, tripId, companyId, branchId, actor, channel, ps, references, now).value;
    CoreIgnoresRecords(held, after);
    EvolvesIgnoresRecords(db, held, before, after);
  }

  lemma RecordsWithOneMore(db: Db, next: Db, key: Key, record: Record)
    requires Evolves(db, next) && RecordsOk(db.records, db.bookings, db.payments)
    requires RecordOk(key, record, next.bookings, next.payments)
    requires next.records == db.records[key := record]
    ensures RecordsOk(next.records, next.bookings, next.payments)
  {
    RecordsSurvive(db, next);
    forall k | k in next.records
      ensures RecordOk(k, next.records[k], next.bookings, next.payments)
    {
    }
  }

  /** The request a key's record stands for. */
  predicate RequestFits(key: Key, fingerprint: Fingerprint, tripId: nat, companyId: nat, branchId: Option<nat>,
                        actor: nat, channel: Channel) {
    && key.companyId == companyId && key.actor == actor
    && match key.operation
       case CreatePassengerBooking => fingerprint.PassengerBooking? && channel.Web? && fingerprint.input.tripId == tripId
       case CreateAgentBooking =>
         && fingerprint.AgentBooking? && fingerprint.companyId == companyId
         && branchId == Some(fingerprint.branchId) && fingerprint.input.tripId == tripId
       case CreatePayment => false
  }

  lemma HoldKeepsInv(db: Db, key: Key, fingerprint: Fingerprint, tripId: nat, companyId: nat, branchId: Option<nat>,
                     actor: nat, channel: Channel, ps: seq<PassengerInput>, references: References, now: Instant)
    requires Inv(db)
    requires CreateHold(ClaimedDb(db, key, fingerprint, now), tripId, companyId, branchId, actor, channel, ps, references, now).Success?
    requires RequestFits(key, fingerprint, tripId, companyId, branchId, actor, channel)
    ensures var held := CreateHold(ClaimedDb(db, key, fingerprint, now), tripId, companyId, branchId, actor, channel, ps, references, now).value;
      GoodStep(db, CompleteBooking(held, key, |db.bookings|))
  {
    var record := ClaimedRecord(fingerprint, now).(bookingId := Some(|db.bookings|));
    HoldCompletes(db, key, fingerprint, tripId, companyId, branchId, actor, channel, ps, references, now);
    HoldKeepsCore(db, ClaimedDb(db, key, fingerprint, now).records, db.records[key := record],
                  tripId, companyId, branchId, actor, channel, ps, references, now);
    var held := CreateHold(ClaimedDb(db, key, fingerprint, now), tripId, companyId, branchId, actor, channel, ps, references, now).value;
    RecordsWithOneMore(db, held.(records := db.records[key := record]), key, record);
  }

  lemma PassengerCreateShape(db: Db, actor: nat, text: string, input: BookingInput, references: References, now: Instant)
    requires CreatePassengerBookingTx(db, actor, text, input, references, now).Success?
    ensures input.tripId in db.trips
    ensures var companyId := db.trips[input.tripId].companyId;
      var key := Key(companyId, actor, Operation.CreatePassengerBooking, text);
      var (next, id) := CreatePassengerBookingTx(db, actor, text, input, references, now).value;
      if RecordLive(db, key, now) then
        next == db && db.records[key].fingerprint == PassengerBooking(input) && db.records[key].bookingId == Some(id)
      else
        var held := CreateHold(ClaimedDb(db, key, PassengerBooking(input), now), input.tripId, companyId, None, actor, Channel.Web,
                               input.passengers, references, now);
        held.Success? && id == |db.bookings| && next == CompleteBooking(held.value, key, id)
  {
  }

  lemma PassengerCreateKeepsInv(db: Db, actor: nat, text: string, input: BookingInput, references: References, now: Instant)
    requires Inv(db) && CreatePassengerBookingTx(db, actor, text, input, references, now).Success?
    ensures GoodStep(db, CreatePassengerBookingTx(db, actor, text, input, references, now).value.0)
  {
    PassengerCreateShape(db, actor, text, input, references, now);
    var companyId := db.trips[input.tripId].companyId;
    var key := Key(companyId, actor, Operation.CreatePassengerBooking, text);
    if RecordLive(db, key, now) {
      EvolvesToItself(db);
    } else {
      HoldKeepsInv(db, key, PassengerBooking(input), input.tripId, companyId, None, actor, Channel.Web,
                   input.passengers, references, now);
    }
  }

  lemma AgentCreateShape(db: Db, actor: nat, companyId: nat, branchId: nat, text: string, input: BookingInput,
                         references: References, now: Instant)
    requires CreateAgentBookingTx(db, actor, companyId, branchId, text, input, references, now).Success?
    ensures var key := Key(companyId, actor, Operation.CreateAgentBooking, text);
      var fingerprint := AgentBooking(companyId, branchId, input);
      var (next, id) := CreateAgentBookingTx(db, actor, companyId, branchId, text, input, references, now).value;
      if RecordLive(db, key, now) then
        next == db && db.records[key].fingerprint == fingerprint && db.records[key].bookingId == Some(id)
      else
        var held := CreateHold(ClaimedDb(db, key, fingerprint, now), input.tripId, companyId, Some(branchId), actor, Channel.AgentDesk,
                               input.passengers, references, now);
        held.Success? && id == |db.bookings| && next == CompleteBooking(held.value, key, id)
  {
  }

  lemma AgentCreateKeepsInv(db: Db, actor: nat, companyId: nat, branchId: nat, text: string, input: BookingInput,
                            references: References, now: Instant)
    requires Inv(db) && CreateAgentBookingTx(db, actor, companyId, branchId, text, input, references, now).Success?
    ensures GoodStep(db, CreateAgentBookingTx(db, actor, companyId, branchId, text, input, references, now).value.0)
  {
    AgentCreateShape(db, actor, companyId, branchId, text, input, references, now);
    var key := Key(companyId, actor, Operation.CreateAgentBooking, text);
    if RecordLive(db, key, now) {
      EvolvesToItself(db);
    } else {
      HoldKeepsInv(db, key, AgentBooking(companyId, branchId, input), input.tripId, companyId, Some(branchId), actor,
                   Channel.AgentDesk, input.passengers, references, now);
    }
  }

  // ---------------------------------------------------------------- creating payments

  /** The guard of insertPayment, reference aside. */
  predicate PaymentOpen(db: Db, bookingId: nat, now: Instant) {
    && bookingId < |db.bookings| && IsPayable(db.bookings[bookingId].status)
    && db.bookings[bookingId].expiresAt > now && !HasSettledPayment(db.payments, bookingId)
  }

  function NewPayment(b: Booking, bookingId: nat, tender: PaymentMethod, reference: string): Payment {
    Payment(bookingId, tender, PaymentStatus.Pending, b.total, b.currency, None, reference, None, None)
  }

  /** The payment attempts loop succeeds exactly when the booking is open and one remaining reference is free. */
  lemma InsertPaymentExact(db: Db, bookingId: nat, tender: PaymentMethod, references: seq<string>, attempt: nat, now: Instant)
    requires attempt <= |references|
    ensures var r := InsertPaymentWithRetry(db, bookingId, tender, references, attempt, now);
      && (r.Some? <==> PaymentOpen(db, bookingId, now)
                       && exists k :: attempt <= k < |references| && !InternalReferenceTaken(db.payments, references[k]))
      && (r.Some? ==>
            exists k :: attempt <= k < |references| && !InternalReferenceTaken(db.payments, references[k])
              && r.value == db.(payments := db.payments + [NewPayment(db.bookings[bookingId], bookingId, tender, references[k])]))
    decreases |references| - attempt
  {
    if attempt < |references| {
      InsertPaymentExact(db, bookingId, tender, references, attempt + 1, now);
    }
  }

  /** The row a successful create leaves: PENDING for cash and other, PROCESSING with a provider reference online. */
  function CreatedPayment(b: Booking, bookingId: nat, tender: PaymentMethod, reference: string, providerReference: string): Payment {
    var row := NewPayment(b, bookingId, tender, reference);
    if IsOnlineMethod(tender) then row.(status := PaymentStatus.Processing, providerReference := Some(providerReference)) else row
  }

  /** The new online row advances to PROCESSING, and its provider reference was new. */
  lemma AdvancedPayment(payments: seq<Payment>, b: Booking, bookingId: nat, tender: PaymentMethod, reference: string, providerReference: string)
    requires IsOnlineMethod(tender) && !InternalReferenceTaken(payments, reference)
    requires TransitionPayment(payments + [NewPayment(b, bookingId, tender, reference)], |payments|, PaymentStatus.Pending,
                               PaymentStatus.Processing, Some(providerReference), None, None).Changed?
    ensures var row := CreatedPayment(b, bookingId, tender, reference, providerReference);
      && TransitionPayment(payments + [NewPayment(b, bookingId, tender, reference)], |payments|, PaymentStatus.Pending,
                           PaymentStatus.Processing, Some(providerReference), None, None).payments == payments + [row]
      && forall q :: 0 <= q < |payments| ==> !SameReference(payments[q], row)
  {
    var all := payments + [NewPayment(b, bookingId, tender, reference)];
    forall q | 0 <= q < |payments|
      ensures !SameReference(payments[q], CreatedPayment(b, bookingId, tender, reference, providerReference))
    {
      assert all[q] == payments[q];
    }
  }

  /** The tables after a payment row is inserted and logged, with the given records. */
  function PaymentLogged(db: Db, row: Payment, actor: nat, records: map<Key, Record>): Db
    requires row.bookingId < |db.bookings|
  {
    PaymentInserted(db, row, actor).(records := records)
  }

  /** createClaimed past its guards and its insert: logged, advanced online, completed. */
  lemma PaymentCommitShape(db: Db, actor: nat, key: Key, fingerprint: Fingerprint, bookingId: nat, tender: PaymentMethod,
                           references: References, providerReference: string, now: Instant, row: Payment)
    requires bookingId < |db.bookings| && !RecordLive(db, key, now) && row.bookingId == bookingId
    requires CreateClaimedPayment(db, actor, key, fingerprint, bookingId, tender, references, providerReference, now).Success?
    requires InsertPaymentWithRetry(ClaimedDb(db, key, fingerprint, now), bookingId, tender, references, 0, now)
          == Some(ClaimedDb(db, key, fingerprint, now).(payments := db.payments + [row]))
    requires row.status.Pending?
    ensures var update := TransitionPayment(db.payments + [row], |db.payments|, PaymentStatus.Pending, PaymentStatus.Processing,
                                            Some(providerReference), None, None);
      var logged := PaymentLogged(db, row, actor, ClaimedDb(db, key, fingerprint, now).records);
      && (IsOnlineMethod(tender) ==> update.Changed?)
      && CreateClaimedPayment(db, actor, key, fingerprint, bookingId, tender, references, providerReference, now)
         == Success((CompletePayment(if IsOnlineMethod(tender) then logged.(payments := update.payments) else logged,
                                     key, bookingId, |db.payments|), |db.payments|))
  {
  }

  lemma CompleteClaimed(db: Db, records: map<Key, Record>, key: Key, fingerprint: Fingerprint, now: Instant, bookingId: nat, paymentId: nat)
    requires db.records == records[key := ClaimedRecord(fingerprint, now)]
    ensures CompletePayment(db, key, bookingId, paymentId)
         == db.(records := records[key := ClaimedRecord(fingerprint, now).(bookingId := Some(bookingId), paymentId := Some(paymentId))])
  {
    var full := ClaimedRecord(fingerprint, now).(bookingId := Some(bookingId), paymentId := Some(paymentId));
    assert db.records[key := full] == records[key := full];
  }

  /** The row the attempts loop of a successful create inserts. */
  lemma InsertedRow(db: Db, actor: nat, key: Key, fingerprint: Fingerprint, bookingId: nat, tender: PaymentMethod,
                    references: References, providerReference: string, now: Instant) returns (reference: string)
    requires bookingId < |db.bookings| && !RecordLive(db, key, now)
    requires CreateClaimedPayment(db, actor, key, fingerprint, bookingId, tender, references, providerReference, now).Success?
    ensures PaymentOpen(db, bookingId, now) && reference in references && !InternalReferenceTaken(db.payments, reference)
    ensures InsertPaymentWithRetry(ClaimedDb(db, key, fingerprint, now), bookingId, tender, references, 0, now)
         == Some(ClaimedDb(db, key, fingerprint, now).(payments := db.payments + [NewPayment(db.bookings[bookingId], bookingId, tender, reference)]))
  {
    var claimed := ClaimedDb(db, key, fingerprint, now);
    InsertPaymentExact(claimed, bookingId, tender, references, 0, now);
    var inserted := InsertPaymentWithRetry(claimed, bookingId, tender, references, 0, now).value;
    var k :| 0 <= k < |references| && !InternalReferenceTaken(db.payments, references[k])
      && inserted == claimed.(payments := db.payments + [NewPayment(db.bookings[bookingId], bookingId, tender, references[k])]);
    reference := references[k];
  }

  lemma CreatedIsInsertable(db: Db, bookingId: nat, tender: PaymentMethod, reference: string, providerReference: string, now: Instant)
    requires PaymentOpen(db, bookingId, now) && !InternalReferenceTaken(db.payments, reference)
    requires IsOnlineMethod(tender) ==>
      TransitionPayment(db.payments + [NewPayment(db.bookings[bookingId], bookingId, tender, reference)], |db.payments|,
                        PaymentStatus.Pending, PaymentStatus.Processing, Some(providerReference), None, None).Changed?
    ensures PaymentInsertable(db, CreatedPayment(db.bookings[bookingId], bookingId, tender, reference, providerReference))
  {
    if IsOnlineMethod(tender) {
      AdvancedPayment(db.payments, db.bookings[bookingId], bookingId, tender, reference, providerReference);
    }
  }

  lemma PaymentCommits(db: Db, actor: nat, key: Key, fingerprint: Fingerprint, bookingId: nat, tender: PaymentMethod,
                       references: References, providerReference: string, now: Instant)
    returns (reference: string)
    requires bookingId < |db.bookings| && !RecordLive(db, key, now)
    requires CreateClaimedPayment(db, actor, key, fingerprint, bookingId, tender, references, providerReference, now).Success?
    ensures var (next, id) := CreateClaimedPayment(db, actor, key, fingerprint, bookingId, tender, references, providerReference, now).value;
      var row := CreatedPayment(db.bookings[bookingId], bookingId, tender, reference, providerReference);
      && id == |db.payments|
      && reference in references && !InternalReferenceTaken(db.payments, reference)
      && PaymentInsertable(db, row)
      && next == PaymentInserted(db, row, actor).(records :=
           db.records[key := ClaimedRecord(fingerprint, now).(bookingId := Some(bookingId), paymentId := Some(id))])
  {
    reference := InsertedRow(db, actor, key, fingerprint, bookingId, tender, references, providerReference, now);
    var row := NewPayment(db.bookings[bookingId], bookingId, tender, reference);
    PaymentCommitShape(db, actor, key, fingerprint, bookingId, tender, references, providerReference, now, row);
    CreatedIsInsertable(db, bookingId, tender, reference, providerReference, now);
    var claimed := ClaimedDb(db, key, fingerprint, now).records;
    if IsOnlineMethod(tender) {
      AdvancedPayment(db.payments, db.bookings[bookingId], bookingId, tender, reference, providerReference);
    }
    var created := CreatedPayment(db.bookings[bookingId], bookingId, tender, reference, providerReference);
    CompleteClaimed(PaymentLogged(db, created, actor, claimed), db.records, key, fingerprint, now, bookingId, |db.payments|);
  }

  lemma PaymentCompletedKeepsCore(db: Db, row: Payment, actor: nat, records: map<Key, Record>)
    requires Core(db) && PaymentInsertable(db, row)
    ensures var next := PaymentInserted(db, row, actor).(records := records); Core(next) && Evolves(db, next)
  {
    PaymentInsertedKeepsCore(db, row, actor);
    CoreIgnoresRecords(PaymentInserted(db, row, actor), records);
    EvolvesIgnoresRecords(db, PaymentInserted(db, row, actor), db.records, records);
  }

  lemma PaymentReplayShape(db: Db, actor: nat, key: Key, fingerprint: Fingerprint, bookingId: nat, tender: PaymentMethod,
                           references: References, providerReference: string, now: Instant)
    requires bookingId < |db.bookings| && RecordLive(db, key, now) && key.operation.CreatePayment?
    requires CreateClaimedPayment(db, actor, key, fingerprint, bookingId, tender, references, providerReference, now).Success?
    ensures var (next, id) := CreateClaimedPayment(db, actor, key, fingerprint, bookingId, tender, references, providerReference, now).value;
      next == db && db.records[key].fingerprint == fingerprint && db.records[key].paymentId == Some(id)
  {
  }

  predicate PaymentRequestFits(db: Db, actor: nat, key: Key, fingerprint: Fingerprint, bookingId: nat, tender: PaymentMethod) {
    && bookingId < |db.bookings|
    && key.operation.CreatePayment? && key.actor == actor && key.companyId == db.bookings[bookingId].companyId
    && (fingerprint.OwnerPayment? || fingerprint.CompanyPayment?)
    && fingerprint.actor == actor && fingerprint.bookingId == bookingId && fingerprint.tender == tender
  }

  lemma PaymentCommitsKeepInv(db: Db, actor: nat, key: Key, fingerprint: Fingerprint, bookingId: nat, tender: PaymentMethod,
                              row: Payment, now: Instant)
    requires Inv(db) && PaymentRequestFits(db, actor, key, fingerprint, bookingId, tender)
    requires PaymentInsertable(db, row) && row.bookingId == bookingId && row.tender == tender
    ensures GoodStep(db, PaymentInserted(db, row, actor).(records := db.records[key :=
      ClaimedRecord(fingerprint, now).(bookingId := Some(bookingId), paymentId := Some(|db.payments|))]))
  {
    var record := ClaimedRecord(fingerprint, now).(bookingId := Some(bookingId), paymentId := Some(|db.payments|));
    var next := PaymentInserted(db, row, actor).(records := db.records[key := record]);
    PaymentCompletedKeepsCore(db, row, actor, next.records);
    RecordsWithOneMore(db, next, key, record);
  }

  lemma PaymentCreateKeepsInv(db: Db, actor: nat, key: Key, fingerprint: Fingerprint, bookingId: nat, tender: PaymentMethod,
                              references: References, providerReference: string, now: Instant)
    requires Inv(db) && PaymentRequestFits(db, actor, key, fingerprint, bookingId, tender)
    requires CreateClaimedPayment(db, actor, key, fingerprint, bookingId, tender, references, providerReference, now).Success?
    ensures GoodStep(db, CreateClaimedPayment(db, actor, key, fingerprint, bookingId, tender, references, providerReference, now).value.0)
  {
    if RecordLive(db, key, now) {
      PaymentReplayShape(db, actor, key, fingerprint, bookingId, tender, references, providerReference, now);
      EvolvesToItself(db);
    } else {
      var reference := PaymentCommits(db, actor, key, fingerprint, bookingId, tender, references, providerReference, now);
      var row := CreatedPayment(db.bookings[bookingId], bookingId, tender, reference, providerReference);
      PaymentCommitsKeepInv(db, actor, key, fingerprint, bookingId, tender, row, now);
    }
  }

  lemma PassengerPaymentShape(db: Db, actor: nat, text: string, bookingId: nat, tender: PaymentMethod,
                              references: References, providerReference: string, now: Instant)
    requires CreatePassengerPaymentTx(db, actor, text, bookingId, tender, references, providerReference, now).Success?
    ensures bookingId < |db.bookings|
    ensures var key := Key(db.bookings[bookingId].companyId, actor, Operation.CreatePayment, text);
      && PaymentRequestFits(db, actor, key, OwnerPayment(actor, bookingId, tender), bookingId, tender)
      && CreatePassengerPaymentTx(db, actor, text, bookingId, tender, references, providerReference, now)
         == CreateClaimedPayment(db, actor, key, OwnerPayment(actor, bookingId, tender), bookingId, tender, references, providerReference, now)
  {
  }

  lemma CompanyPaymentShape(db: Db, actor: nat, companyId: nat, text: string, bookingId: nat, tender: PaymentMethod,
                            references: References, providerReference: string, now: Instant)
    requires CreateCompanyPaymentTx(db, actor, companyId, text, bookingId, tender, references, providerReference, now).Success?
    ensures bookingId < |db.bookings|
    ensures var key := Key(companyId, actor, Operation.CreatePayment, text);
      && PaymentRequestFits(db, actor, key, CompanyPayment(actor, companyId, bookingId, tender), bookingId, tender)
      && CreateCompanyPaymentTx(db, actor, companyId, text, bookingId, tender, references, providerReference, now)
         == CreateClaimedPayment(db, actor, key, CompanyPayment(actor, companyId, bookingId, tender), bookingId, tender, references, providerReference, now)
  {
  }

  // ---------------------------------------------------------------- moving payments

  lemma SettleKeepsInv(db: Db, p: nat, from: PaymentStatus, actor: Option<nat>, reference: Option<string>, now: Instant)
    requires Inv(db) && p < |db.payments| && CanTransitionPayment(from, PaymentStatus.Succeeded)
    requires reference.Some? ==> db.payments[p].providerReference.None? || db.payments[p].providerReference == reference
    requires Settle(db, p, from, actor, reference, now).Success?
    ensures GoodStep(db, Settle(db, p, from, actor, reference, now).value)
  {
    ChangedMeansMoves(db, p, from, PaymentStatus.Succeeded, reference, actor, Some(now));
    var moved := TransitionPayment(db.payments, p, from, PaymentStatus.Succeeded, reference, actor, Some(now)).payments;
    SettledRows(db, p, moved[p], actor);
    SettledKeepsCore(db, p, moved[p], actor);
    GoodWithSameRecords(db, Settled(db, p, moved[p], actor));
  }

  lemma FailureKeepsInv(db: Db, p: nat, from: PaymentStatus, reference: string)
    requires Inv(db) && p < |db.payments| && CanTransitionPayment(from, PaymentStatus.Failed)
    requires db.payments[p].providerReference.None? || db.payments[p].providerReference == Some(reference)
    requires TransitionPayment(db.payments, p, from, PaymentStatus.Failed, Some(reference), None, None).Changed?
    ensures GoodStep(db, db.(payments := TransitionPayment(db.payments, p, from, PaymentStatus.Failed, Some(reference), None, None).payments))
  {
    ChangedMeansMoves(db, p, from, PaymentStatus.Failed, Some(reference), None, None);
    var moved := TransitionPayment(db.payments, p, from, PaymentStatus.Failed, Some(reference), None, None).payments;
    PaymentFailedKeepsCore(db, p, moved[p]);
    GoodWithSameRecords(db, db.(payments := moved));
  }

  /** The webhook's three outcomes. */
  lemma WebhookShape(db: Db, e: ProviderEvent, now: Instant)
    requires HandleWebhookTx(db, e, now).Success?
    ensures FindByInternalReference(db.payments, e.internalReference).Some?
    ensures var p := FindByInternalReference(db.payments, e.internalReference).value; var from := db.payments[p].status;
      && db.payments[p].bookingId < |db.bookings| && EventMatches(db.payments[p], e)
      && if !CanTransitionPayment(from, EventTarget(e)) then HandleWebhookTx(db, e, now).value == db
         else if e.succeeded then HandleWebhookTx(db, e, now) == Settle(db, p, from, None, Some(e.providerReference), now)
         else
           var update := TransitionPayment(db.payments, p, from, PaymentStatus.Failed, Some(e.providerReference), None, None);
           update.Changed? && HandleWebhookTx(db, e, now).value == db.(payments := update.payments)
  {
  }

  lemma WebhookKeepsInv(db: Db, e: ProviderEvent, now: Instant)
    requires Inv(db) && HandleWebhookTx(db, e, now).Success?
    ensures GoodStep(db, HandleWebhookTx(db, e, now).value)
  {
    WebhookShape(db, e, now);
    var p := FindByInternalReference(db.payments, e.internalReference).value;
    var from := db.payments[p].status;
    if !CanTransitionPayment(from, EventTarget(e)) {
      EvolvesToItself(db);
    } else if e.succeeded {
      SettleKeepsInv(db, p, from, None, Some(e.providerReference), now);
    } else {
      FailureKeepsInv(db, p, from, e.providerReference);
    }
  }

  lemma RefundShape(db: Db, actor: nat, companyId: nat, p: nat)
    requires RefundPaymentTx(db, actor, companyId, p).Success?
    ensures p < |db.payments| && db.payments[p].bookingId < |db.bookings| && db.payments[p].status.Succeeded?
    ensures var update := TransitionPayment(db.payments, p, PaymentStatus.Succeeded, PaymentStatus.Refunded, None, None, None);
      && update.Changed? && update.payments == db.payments[p := db.payments[p].(status := PaymentStatus.Refunded)]
      && RefundPaymentTx(db, actor, companyId, p).value == RefundEffects(db, update.payments, db.payments[p].bookingId, actor)
  {
  }

  lemma RefundMoves(db: Db, actor: nat, companyId: nat, p: nat)
    requires PaidOk(db.bookings, db.payments) && RefundPaymentTx(db, actor, companyId, p).Success?
    ensures p < |db.payments| && db.payments[p].bookingId < |db.bookings| && db.payments[p].status.Succeeded?
    ensures var q := db.payments[p].(status := PaymentStatus.Refunded);
      && PaymentMoves(db, p, q)
      && RefundPaymentTx(db, actor, companyId, p).value == RefundEffects(db, db.payments[p := q], q.bookingId, actor)
  {
    RefundShape(db, actor, companyId, p);
    ChangedMeansMoves(db, p, PaymentStatus.Succeeded, PaymentStatus.Refunded, None, None, None);
  }

  lemma RefundKeepsRecords(db: Db, payments: seq<Payment>, bookingId: nat, actor: nat)
    requires bookingId < |db.bookings|
    ensures RefundEffects(db, payments, bookingId, actor).records == db.records
  {
  }

  lemma RefundKeepsInv(db: Db, actor: nat, companyId: nat, p: nat)
    requires Inv(db) && RefundPaymentTx(db, actor, companyId, p).Success?
    ensures GoodStep(db, RefundPaymentTx(db, actor, companyId, p).value)
  {
    RefundMoves(db, actor, companyId, p);
    var q := db.payments[p].(status := PaymentStatus.Refunded);
    RefundKeepsCore(db, p, q, actor);
    RefundKeepsRecords(db, db.payments[p := q], q.bookingId, actor);
    GoodWithSameRecords(db, RefundEffects(db, db.payments[p := q], q.bookingId, actor));
  }

  // ---------------------------------------------------------------- every call

  lemma IssueKeepsInv(db: Db, bookingId: nat, drafts: nat -> TicketDraft, now: Instant)
    requires Inv(db) && bookingId < |db.bookings| && Issue(db, bookingId, drafts, now).Success?
    ensures GoodStep(db, Issue(db, bookingId, drafts, now).value.0)
  {
    IssueKeepsCore(db, bookingId, drafts, now);
    GoodWithSameRecords(db, Issue(db, bookingId, drafts, now).value.0);
  }

  lemma CancelKeepsInv(db: Db, actor: nat, bookingId: nat, visible: bool)
    requires Inv(db) && CancelVisible(db, actor, bookingId, visible).Success?
    ensures GoodStep(db, CancelVisible(db, actor, bookingId, visible).value)
  {
    CancelKeepsCore(db, bookingId, actor);
    GoodWithSameRecords(db, CancelBooking(db, bookingId, actor));
  }

  lemma SurroundingsKeepKeys(db: Db, trips: map<nat, Trip>, memberships: seq<Membership>)
    requires KeysOk(db)
    ensures KeysOk(db.(trips := trips, memberships := memberships))
    ensures Evolves(db, db.(trips := trips, memberships := memberships))
  {
  }

  lemma SurroundingsKeepInv(db: Db, trips: map<nat, Trip>, memberships: seq<Membership>)
    requires Inv(db) && SurroundingsValid(trips, memberships) && TripsKeepCompany(db.trips, trips)
    ensures GoodStep(db, db.(trips := trips, memberships := memberships))
  {
    SurroundingsKeepKeys(db, trips, memberships);
  }

  lemma CommittedIsGood(db: Db, r: Result<Db, Error>)
    requires Inv(db) && (r.Success? ==> GoodStep(db, r.value))
    ensures GoodStep(db, Committed(db, r).0)
  {
    EvolvesToItself(db);
  }

  lemma CommittedResourceIsGood(db: Db, r: Result<(Db, nat), Error>)
    requires Inv(db) && (r.Success? ==> GoodStep(db, r.value.0))
    ensures GoodStep(db, CommittedResource(db, r).0)
  {
    EvolvesToItself(db);
  }

  lemma CommittedTicketsAreGood(db: Db, r: Result<(Db, seq<IssuedTicket>), Error>)
    requires Inv(db) && (r.Success? ==> GoodStep(db, r.value.0))
    ensures GoodStep(db, CommittedTickets(db, r).0)
  {
    EvolvesToItself(db);
  }

  lemma PassengerCreateStep(db: Db, actor: nat, key: string, input: BookingInput, refs: References, now: Instant)
    requires Inv(db)
    ensures GoodStep(db, CommittedResource(db, CreatePassengerBookingTx(db, actor, key, input, refs, now)).0)
  {
    if CreatePassengerBookingTx(db, actor, key, input, refs, now).Success? {
      PassengerCreateKeepsInv(db, actor, key, input, refs, now);
    }
    CommittedResourceIsGood(db, CreatePassengerBookingTx(db, actor, key, input, refs, now));
  }

  lemma AgentCreateStep(db: Db, actor: nat, companyId: nat, branchId: nat, key: string, input: BookingInput, refs: References, now: Instant)
    requires Inv(db)
    ensures GoodStep(db, CommittedResource(db, CreateAgentBookingTx(db, actor, companyId, branchId, key, input, refs, now)).0)
  {
    if CreateAgentBookingTx(db, actor, companyId, branchId, key, input, refs, now).Success? {
      AgentCreateKeepsInv(db, actor, companyId, branchId, key, input, refs, now);
    }
    CommittedResourceIsGood(db, CreateAgentBookingTx(db, actor, companyId, branchId, key, input, refs, now));
  }

  lemma CancelStep(db: Db, actor: nat, bookingId: nat, visible: bool)
    requires Inv(db)
    ensures GoodStep(db, Committed(db, CancelVisible(db, actor, bookingId, visible)).0)
  {
    if CancelVisible(db, actor, bookingId, visible).Success? {
      CancelKeepsInv(db, actor, bookingId, visible);
    }
    CommittedIsGood(db, CancelVisible(db, actor, bookingId, visible));
  }

  lemma ExpireStep(db: Db, companyId: nat, now: Instant)
    requires Inv(db)
    ensures GoodStep(db, Sweep(db, companyId, None, now))
  {
    SweepKeepsCore(db, companyId, None, now);
    GoodWithSameRecords(db, Sweep(db, companyId, None, now));
  }

  lemma PassengerPayStep(db: Db, actor: nat, key: string, bookingId: nat, tender: PaymentMethod, refs: References, ref: string, now: Instant)
    requires Inv(db)
    ensures GoodStep(db, CommittedResource(db, CreatePassengerPaymentTx(db, actor, key, bookingId, tender, refs, ref, now)).0)
  {
    if CreatePassengerPaymentTx(db, actor, key, bookingId, tender, refs, ref, now).Success? {
      PassengerPaymentShape(db, actor, key, bookingId, tender, refs, ref, now);
      PaymentCreateKeepsInv(db, actor, Key(db.bookings[bookingId].companyId, actor, Operation.CreatePayment, key),
        OwnerPayment(actor, bookingId, tender), bookingId, tender, refs, ref, now);
    }
    CommittedResourceIsGood(db, CreatePassengerPaymentTx(db, actor, key, bookingId, tender, refs, ref, now));
  }

  lemma CompanyPayStep(db: Db, actor: nat, companyId: nat, key: string, bookingId: nat, tender: PaymentMethod, refs: References, ref: string, now: Instant)
    requires Inv(db)
    ensures GoodStep(db, CommittedResource(db, CreateCompanyPaymentTx(db, actor, companyId, key, bookingId, tender, refs, ref, now)).0)
  {
    if CreateCompanyPaymentTx(db, actor, companyId, key, bookingId, tender, refs, ref, now).Success? {
      CompanyPaymentShape(db, actor, companyId, key, bookingId, tender, refs, ref, now);
      PaymentCreateKeepsInv(db, actor, Key(companyId, actor, Operation.CreatePayment, key),
        CompanyPayment(actor, companyId, bookingId, tender), bookingId, tender, refs, ref, now);
    }
    CommittedResourceIsGood(db, CreateCompanyPaymentTx(db, actor, companyId, key, bookingId, tender, refs, ref, now));
  }

  lemma ConfirmCashShape(db: Db, actor: nat, companyId: nat, p: nat, now: Instant)
    requires ConfirmCashTx(db, actor, companyId, p, now).Success?
    ensures p < |db.payments| && db.payments[p].bookingId < |db.bookings| && db.payments[p].status.Pending?
    ensures ConfirmCashTx(db, actor, companyId, p, now) == Settle(db, p, PaymentStatus.Pending, Some(actor), None, now)
  {
  }

  lemma ConfirmCashStep(db: Db, actor: nat, companyId: nat, p: nat, now: Instant)
    requires Inv(db)
    ensures GoodStep(db, Committed(db, ConfirmCashTx(db, actor, companyId, p, now)).0)
  {
    if ConfirmCashTx(db, actor, companyId, p, now).Success? {
      ConfirmCashShape(db, actor, companyId, p, now);
      SettleKeepsInv(db, p, PaymentStatus.Pending, Some(actor), None, now);
    }
    CommittedIsGood(db, ConfirmCashTx(db, actor, companyId, p, now));
  }

  lemma RefundStep(db: Db, actor: nat, companyId: nat, p: nat)
    requires Inv(db)
    ensures GoodStep(db, Committed(db, RefundPaymentTx(db, actor, companyId, p)).0)
  {
    if RefundPaymentTx(db, actor, companyId, p).Success? {
      RefundKeepsInv(db, actor, companyId, p);
    }
    CommittedIsGood(db, RefundPaymentTx(db, actor, companyId, p));
  }

  lemma WebhookStep(db: Db, event: ProviderEvent, now: Instant)
    requires Inv(db)
    ensures GoodStep(db, Committed(db, HandleWebhookTx(db, event, now)).0)
  {
    if HandleWebhookTx(db, event, now).Success? {
      WebhookKeepsInv(db, event, now);
    }
    CommittedIsGood(db, HandleWebhookTx(db, event, now));
  }

  lemma OwnerIssueStep(db: Db, actor: nat, bookingId: nat, drafts: nat -> TicketDraft, now: Instant)
    requires Inv(db)
    ensures GoodStep(db, CommittedTickets(db, IssueForOwnerTx(db, actor, bookingId, drafts, now)).0)
  {
    if IssueForOwnerTx(db, actor, bookingId, drafts, now).Success? {
      IssueKeepsInv(db, bookingId, drafts, now);
    }
    CommittedTicketsAreGood(db, IssueForOwnerTx(db, actor, bookingId, drafts, now));
  }

  lemma CompanyIssueStep(db: Db, actor: nat, companyId: nat, bookingId: nat, drafts: nat -> TicketDraft, now: Instant)
    requires Inv(db)
    ensures GoodStep(db, CommittedTickets(db, IssueForCompanyTx(db, actor, companyId, bookingId, drafts, now)).0)
  {
    if IssueForCompanyTx(db, actor, companyId, bookingId, drafts, now).Success? {
      IssueKeepsInv(db, bookingId, drafts, now);
    }
    CommittedTicketsAreGood(db, IssueForCompanyTx(db, actor, companyId, bookingId, drafts, now));
  }

  lemma ValidateStep(db: Db, actor: nat, companyId: nat, ticketId: nat, now: Instant)
    requires Inv(db)
    ensures GoodStep(db, Committed(db, ValidateTicketTx(db, actor, companyId, ticketId, now)).0)
  {
    if ValidateTicketTx(db, actor, companyId, ticketId, now).Success? {
      CheckInKeepsCore(db, ticketId, actor, now);
      GoodWithSameRecords(db, CheckIn(db, ticketId, actor, now));
    }
    CommittedIsGood(db, ValidateTicketTx(db, actor, companyId, ticketId, now));
  }

  lemma RevokeStep(db: Db, actor: nat, companyId: nat, ticketId: nat, now: Instant)
    requires Inv(db)
    ensures GoodStep(db, Committed(db, RevokeTicketTx(db, actor, companyId, ticketId, now)).0)
  {
    if RevokeTicketTx(db, actor, companyId, ticketId, now).Success? {
      RevokeKeepsCore(db, ticketId, now);
      GoodWithSameRecords(db, TicketProofs.Revoked(db, ticketId, now));
    }
    CommittedIsGood(db, RevokeTicketTx(db, actor, companyId, ticketId, now));
  }

  lemma SurroundingsStep(db: Db, trips: map<nat, Trip>, memberships: seq<Membership>, now: Instant)
    requires Inv(db)
    ensures GoodStep(db, Execute(db, ChangeSurroundings(trips, memberships), now).0)
  {
    EvolvesToItself(db);
    if SurroundingsValid(trips, memberships) && TripsKeepCompany(db.trips, trips) {
      SurroundingsKeepInv(db, trips, memberships);
    }
  }

  predicate BookingCall(call: Call) {
    || call.ChangeSurroundings? || call.CreateForPassenger? || call.CreateForAgent?
    || call.CancelOwned? || call.CancelCompany? || call.ExpireBookings?
  }

  predicate PaymentCall(call: Call) {
    call.PayAsPassenger? || call.PayAsCompany?
  }

  predicate SettlementCall(call: Call) {
    call.ConfirmCash? || call.RefundPayment? || call.HandleWebhook?
  }

  lemma BookingCallKeepsInv(db: Db, call: Call, now: Instant)
    requires Inv(db) && BookingCall(call)
    ensures GoodStep(db, Execute(db, call, now).0)
  {
    match call
    case ChangeSurroundings(trips, memberships) => SurroundingsStep(db, trips, memberships, now);
    case CreateForPassenger(actor, key, input, refs) => PassengerCreateStep(db, actor, key, input, refs, now);
    case CreateForAgent(actor, companyId, branchId, key, input, refs) =>
      AgentCreateStep(db, actor, companyId, branchId, key, input, refs, now);
    case CancelOwned(actor, bookingId) => CancelStep(db, actor, bookingId, FoundForOwner(db, actor, bookingId));
    case CancelCompany(actor, companyId, bookingId) =>
      CancelStep(db, actor, bookingId, FoundForCompany(db, companyId, ActorScope(db, actor, companyId, BookingsCancel), bookingId));
    case ExpireBookings(companyId) => ExpireStep(db, companyId, now);
  }

  lemma PaymentCallKeepsInv(db: Db, call: Call, now: Instant)
    requires Inv(db) && PaymentCall(call)
    ensures GoodStep(db, Execute(db, call, now).0)
  {
    match call
    case PayAsPassenger(actor, key, bookingId, tender, refs, ref) =>
      PassengerPayStep(db, actor, key, bookingId, tender, refs, ref, now);
    case PayAsCompany(actor, companyId, key, bookingId, tender, refs, ref) =>
      CompanyPayStep(db, actor, companyId, key, bookingId, tender, refs, ref, now);
  }

  /** What a settlement call commits. */
  function SettlementResult(db: Db, call: Call, now: Instant): Result<Db, Error>
    requires SettlementCall(call)
  {
    match call
    case ConfirmCash(actor, companyId, paymentId) => ConfirmCashTx(db, actor, companyId, paymentId, now)
    case RefundPayment(actor, companyId, paymentId) => RefundPaymentTx(db, actor, companyId, paymentId)
    case HandleWebhook(event) => HandleWebhookTx(db, event, now)
  }

  lemma SettlementCommits(db: Db, call: Call, now: Instant)
    requires SettlementCall(call)
    ensures Execute(db, call, now).0 == Committed(db, SettlementResult(db, call, now)).0
  {
  }

  lemma SettlementCallKeepsInv(db: Db, call: Call, now: Instant)
    requires Inv(db) && SettlementCall(call)
    ensures GoodStep(db, Execute(db, call, now).0)
  {
    SettlementCommits(db, call, now);
    match call
    case ConfirmCash(actor, companyId, paymentId) => ConfirmCashStep(db, actor, companyId, paymentId, now);
    case RefundPayment(actor, companyId, paymentId) => RefundStep(db, actor, companyId, paymentId);
    case HandleWebhook(event) => WebhookStep(db, event, now);
  }

  lemma TicketCallKeepsInv(db: Db, call: Call, now: Instant)
    requires Inv(db) && !BookingCall(call) && !PaymentCall(call) && !SettlementCall(call)
    ensures GoodStep(db, Execute(db, call, now).0)
  {
    match call
    case IssueForOwner(actor, bookingId, drafts) => OwnerIssueStep(db, actor, bookingId, drafts, now);
    case IssueForCompany(actor, companyId, bookingId, drafts) => CompanyIssueStep(db, actor, companyId, bookingId, drafts, now);
    case ValidateTicket(actor, companyId, ticketId) => ValidateStep(db, actor, companyId, ticketId, now);
    case RevokeTicket(actor, companyId, ticketId) => RevokeStep(db, actor, companyId, ticketId, now);
  }

  /** Whatever call arrives at whatever instant, the joint invariant survives it. */
  lemma ExecuteKeepsInv(db: Db, call: Call, now: Instant)
    requires Inv(db)
    ensures GoodStep(db, Execute(db, call, now).0)
  {
    if BookingCall(call) {
      BookingCallKeepsInv(db, call, now);
    } else if PaymentCall(call) {
      PaymentCallKeepsInv(db, call, now);
    } else if SettlementCall(call) {
      SettlementCallKeepsInv(db, call, now);
    } else {
      TicketCallKeepsInv(db, call, now);
    }
  }

  // ---------------------------------------------------------------- whole runs

  lemma EmptyIsGood(trips: map<nat, Trip>, memberships: seq<Membership>)
    requires SurroundingsValid(trips, memberships)
    ensures Inv(EmptyDb(trips, memberships))
  {
  }

  lemma {:induction false} RunKeepsInv(db: Db, calls: seq<Timed>)
    requires Inv(db)
    ensures Inv(Run(db, calls))
  {
    if calls != [] {
      var n := |calls| - 1;
      RunKeepsInv(db, calls[..n]);
      ExecuteKeepsInv(Run(db, calls[..n]), calls[n].call, calls[n].at);
    }
  }

  /** Every state any run can reach, from empty tables and any catalog, satisfies the joint invariant. */
  lemma ReachableIsGood(db: Db)
    requires Reachable(db)
    ensures Inv(db)
  {
    var trips: map<nat, Trip>, memberships: seq<Membership>, calls: seq<Timed> :|
      SurroundingsValid(trips, memberships) && db == Run(EmptyDb(trips, memberships), calls);
    EmptyIsGood(trips, memberships);
    RunKeepsInv(EmptyDb(trips, memberships), calls);
  }

  /** A closed booking keeps its status and snapshot for ever: CONFIRMED, EXPIRED and CANCELLED are never left. */
  lemma {:induction false} ClosedForEver(db: Db, calls: seq<Timed>, b: nat)
    requires Inv(db) && b < |db.bookings| && !IsPayable(db.bookings[b].status)
    ensures b < |Run(db, calls).bookings|
    ensures Run(db, calls).bookings[b] == db.bookings[b].(version := Run(db, calls).bookings[b].version)
  {
    if calls != [] {
      var n := |calls| - 1;
      ClosedForEver(db, calls[..n], b);
      RunKeepsInv(db, calls[..n]);
      ExecuteKeepsInv(Run(db, calls[..n]), calls[n].call, calls[n].at);
    }
  }

  /** The sum of the amounts of a booking's SUCCEEDED payments. */
  function ReceivedFor(payments: seq<Payment>, bookingId: nat): nat {
    if payments == [] then 0
    else
      var last := payments[|payments| - 1];
      ReceivedFor(payments[..|payments| - 1], bookingId)
      + (if last.bookingId == bookingId && last.status.Succeeded? then last.amount else 0)
  }

  lemma {:induction false} NothingReceived(payments: seq<Payment>, bookingId: nat)
    requires forall p :: 0 <= p < |payments| ==> !(payments[p].bookingId == bookingId && payments[p].status.Succeeded?)
    ensures ReceivedFor(payments, bookingId) == 0
  {
    if payments != [] {
      NothingReceived(payments[..|payments| - 1], bookingId);
    }
  }

  lemma {:induction false} ReceivedOnce(payments: seq<Payment>, bookingId: nat, total: nat)
    requires forall p, q :: 0 <= p < q < |payments| ==> !Rivals(payments[p], payments[q])
    requires forall p :: 0 <= p < |payments| && payments[p].bookingId == bookingId ==> payments[p].amount == total
    ensures ReceivedFor(payments, bookingId) == if IsPaid(payments, bookingId) then total else 0
  {
    if payments != [] {
      var n := |payments| - 1;
      var init := payments[..n];
      if payments[n].bookingId == bookingId && payments[n].status.Succeeded? {
        forall p | 0 <= p < n
          ensures !(init[p].bookingId == bookingId && init[p].status.Succeeded?)
        {
          assert !Rivals(payments[p], payments[n]);
        }
        NothingReceived(init, bookingId);
      } else {
        ReceivedOnce(init, bookingId, total);
        if IsPaid(payments, bookingId) {
          var p :| 0 <= p < |payments| && payments[p].bookingId == bookingId && payments[p].status.Succeeded?;
          assert init[p] == payments[p];
        }
        if IsPaid(init, bookingId) {
          var p :| 0 <= p < |init| && init[p].bookingId == bookingId && init[p].status.Succeeded?;
          assert payments[p] == init[p];
        }
      }
    }
  }

  /** In every reachable state a booking has received its whole total once, or nothing. */
  lemma MoneyReceivedIsAllOrNothing(db: Db, b: nat)
    requires Reachable(db) && b < |db.bookings|
    ensures ReceivedFor(db.payments, b) == if IsPaid(db.payments, b) then db.bookings[b].total else 0
    ensures db.bookings[b].total == db.bookings[b].unitPrice * Count(db.seats, SeatOf(b))
  {
    ReachableIsGood(db);
    ReceivedOnce(db.payments, b, db.bookings[b].total);
  }

  /** The rounded commission lies between zero and its base, within half a minor unit of the exact share. */
  lemma CommissionIsRounded(total: nat, rate: nat)
    requires rate <= 10_000
    ensures CommissionAmount(total, rate) <= total
    ensures -10_000 < 20_000 * CommissionAmount(total, rate) - 2 * total * rate <= 10_000
  {
    var share := 2 * total * rate;
    var amount := CommissionAmount(total, rate);
    assert 20_000 * amount <= share + 10_000 < 20_000 * (amount + 1);
    ShareIsBounded(total, rate);
    assert 20_000 * amount < 20_000 * (total + 1);
  }

  lemma ShareIsBounded(total: nat, rate: nat)
    requires rate <= 10_000
    ensures 2 * total * rate <= 20_000 * total
  {
    assert total * rate <= total * 10_000;
  }

  /** Every commission in every reachable state: one per membership and booking, fairly rounded, on a CONFIRMED booking. */
  lemma CommissionsAreFair(db: Db, c: nat)
    requires Reachable(db) && c < |db.commissions|
    ensures var row := db.commissions[c];
      && row.bookingId < |db.bookings| && db.bookings[row.bookingId].status.Confirmed?
      && row.base == db.bookings[row.bookingId].total
      && row.amount <= row.base
      && -10_000 < 20_000 * row.amount - 2 * row.base * row.rate <= 10_000
      && (forall d :: 0 <= d < |db.commissions| && d != c ==>
            !(db.commissions[d].membershipId == row.membershipId && db.commissions[d].bookingId == row.bookingId))
  {
    ReachableIsGood(db);
    CommissionIsRounded(db.commissions[c].base, db.commissions[c].rate);
  }

  /** Seats sit under their booking as its status demands, in every reachable state. */
  lemma SeatsFitBookings(db: Db, i: nat)
    requires Reachable(db) && i < |db.seats|
    ensures db.seats[i].bookingId < |db.bookings|
    ensures SeatFits(db.bookings[db.seats[i].bookingId].status, db.seats[i].status)
    ensures db.seats[i].heldUntil == db.bookings[db.seats[i].bookingId].expiresAt
  {
    ReachableIsGood(db);
  }

  lemma SettledAtMostOnce(payments: seq<Payment>, b: nat)
    requires forall p, q :: 0 <= p < q < |payments| ==> !Rivals(payments[p], payments[q])
    requires forall p :: 0 <= p < |payments| ==> !payments[p].status.PartiallyRefunded?
    ensures Count(payments, SettledOf(b)) == if HasSettledPayment(payments, b) then 1 else 0
  {
    forall p, q | 0 <= p < q < |payments|
      ensures !(SettledOf(b)(payments[p]) && SettledOf(b)(payments[q]))
    {
      assert !Rivals(payments[p], payments[q]);
    }
    CountUnique(payments, SettledOf(b));
    if HasSettledPayment(payments, b) {
      var p :| 0 <= p < |payments| && payments[p].bookingId == b && IsSettled(payments[p].status);
      assert SettledOf(b)(payments[p]);
    } else {
      CountNone(payments, SettledOf(b));
    }
  }

  /** A CONFIRMED booking has exactly one payment that was received, and no open booking has any. */
  lemma ConfirmedMeansPaidOnce(db: Db, b: nat)
    requires Reachable(db) && b < |db.bookings|
    ensures db.bookings[b].status.Confirmed? ==> Count(db.payments, SettledOf(b)) == 1
    ensures IsPayable(db.bookings[b].status) ==> Count(db.payments, SettledOf(b)) == 0
  {
    ReachableIsGood(db);
    SettledAtMostOnce(db.payments, b);
  }

  /** The append-only log accounts for every booking of every reachable state. */
  lemma LogAccountsForState(db: Db, b: nat)
    requires Reachable(db) && b < |db.bookings|
    ensures LogOf(b, db.bookings[b].status, db.payments, db.tickets, db.events)
  {
    ReachableIsGood(db);
  }

  /** The log is append-only over every run. */
  lemma {:induction false} LogOnlyGrows(db: Db, calls: seq<Timed>)
    requires Inv(db)
    ensures db.events <= Run(db, calls).events
  {
    if calls != [] {
      var n := |calls| - 1;
      LogOnlyGrows(db, calls[..n]);
      RunKeepsInv(db, calls[..n]);
      ExecuteKeepsInv(Run(db, calls[..n]), calls[n].call, calls[n].at);
    }
  }

  // ---------------------------------------------------------------- when a payment can be created

  /** No other payment on the tender carries this provider reference. */
  ghost predicate ProviderReferenceFree(payments: seq<Payment>, tender: PaymentMethod, reference: string) {
    forall q :: 0 <= q < |payments| ==> !(payments[q].tender == tender && payments[q].providerReference == Some(reference))
  }

  ghost predicate SomeInternalReferenceFree(payments: seq<Payment>, references: seq<string>) {
    exists k :: 0 <= k < |references| && !InternalReferenceTaken(payments, references[k])
  }

  lemma ClaimedPaymentExact(db: Db, actor: nat, key: Key, fingerprint: Fingerprint, bookingId: nat, tender: PaymentMethod,
                            references: References, providerReference: string, now: Instant)
    requires bookingId < |db.bookings| && !RecordLive(db, key, now)
    ensures CreateClaimedPayment(db, actor, key, fingerprint, bookingId, tender, references, providerReference, now).Success?
       <==> && PaymentOpen(db, bookingId, now)
            && SomeInternalReferenceFree(db.payments, references)
            && (IsOnlineMethod(tender) ==> ProviderReferenceFree(db.payments, tender, providerReference))
  {
    var claimed := db.(records := db.records[key := ClaimedRecord(fingerprint, now)]);
    InsertPaymentExact(claimed, bookingId, tender, references, 0, now);
    var r := InsertPaymentWithRetry(claimed, bookingId, tender, references, 0, now);
    if r.Some? && IsOnlineMethod(tender) {
      UsedMeansNotFree(db.payments, r.value.payments[|db.payments|], providerReference);
      assert r.value.payments == db.payments + [r.value.payments[|db.payments|]];
    }
  }

  /**
   * In every reachable state a payment under a fresh key is created exactly when its booking is open and unexpired,
   * a generated reference is free and (online) the provider reference is new: an earlier settled payment never
   * stands in the way, because an open booking has none.
   */
  lemma PaymentCreatedExactly(db: Db, actor: nat, key: Key, fingerprint: Fingerprint, bookingId: nat, tender: PaymentMethod,
                              references: References, providerReference: string, now: Instant)
    requires Reachable(db) && bookingId < |db.bookings| && !RecordLive(db, key, now)
    ensures CreateClaimedPayment(db, actor, key, fingerprint, bookingId, tender, references, providerReference, now).Success?
       <==> && IsPayable(db.bookings[bookingId].status) && db.bookings[bookingId].expiresAt > now
            && SomeInternalReferenceFree(db.payments, references)
            && (IsOnlineMethod(tender) ==> ProviderReferenceFree(db.payments, tender, providerReference))
  {
    ClaimedPaymentExact(db, actor, key, fingerprint, bookingId, tender, references, providerReference, now);
    ReachableIsGood(db);
    assert PaidOk(db.bookings, db.payments);
  }

  lemma UsedMeansNotFree(payments: seq<Payment>, row: Payment, reference: string)
    ensures ProviderReferenceUsed(payments + [row], |payments|, Some(reference))
       <==> !ProviderReferenceFree(payments, row.tender, reference)
  {
    var all := payments + [row];
    assert forall q :: 0 <= q < |payments| ==> all[q] == payments[q];
  }

  // ---------------------------------------------------------------- settling, in full

  /** Settling stamps the payment and confirms exactly an open booking with exactly its held seats. */
  lemma SettleExact(db: Db, p: nat, from: PaymentStatus, actor: Option<nat>, reference: Option<string>, now: Instant)
    requires p < |db.payments| && db.payments[p].bookingId < |db.bookings|
    requires Settle(db, p, from, actor, reference, now).Success?
    ensures var next := Settle(db, p, from, actor, reference, now).value; var b := db.payments[p].bookingId;
      && |next.payments| == |db.payments| && next.payments == db.payments[p := next.payments[p]]
      && next.payments[p].status.Succeeded? && next.payments[p].paidAt == Some(now)
      && (actor.Some? ==> next.payments[p].confirmedBy == actor)
      && (reference.Some? ==> next.payments[p].providerReference == reference)
      && |next.bookings| == |db.bookings| && |next.seats| == |db.seats|
      && (next.bookings[b].status.Confirmed? <==> db.bookings[b].status.Confirmed? || IsPayable(db.bookings[b].status))
      && (forall other :: 0 <= other < |db.bookings| && (other != b || !IsPayable(db.bookings[b].status)) ==>
            next.bookings[other] == db.bookings[other])
      && (forall i :: 0 <= i < |db.seats| ==>
            (next.seats[i] != db.seats[i] <==> db.seats[i].bookingId == b && db.seats[i].status.Held? && IsPayable(db.bookings[b].status)))
      && next.events == db.events + [Event(b, db.bookings[b].companyId, actor, EventKind.PaymentConfirmed)]
  {
    var moved := TransitionPayment(db.payments, p, from, PaymentStatus.Succeeded, reference, actor, Some(now)).payments;
    SettledRows(db, p, moved[p], actor);
    assert db.payments[p := moved[p]] == moved;
  }

  /** An active agent membership of the booker in the booking's company. */
  predicate IsBookersAgent(m: Membership, b: Booking) {
    m.companyId == b.companyId && m.userId == b.bookedBy && m.role.Agent? && m.isActive
  }

  /** The row is what one of the booker's agent memberships earns: its rate of the total, halves of a minor unit rounded up. */
  ghost predicate EarnedByAgent(db: Db, b: nat, row: Commission)
    requires b < |db.bookings|
  {
    exists m :: 0 <= m < |db.memberships| && IsBookersAgent(db.memberships[m], db.bookings[b])
      && row == Commission(db.memberships[m].id, b, db.bookings[b].companyId, db.memberships[m].commissionRate, db.bookings[b].total,
                           row.amount, db.bookings[b].currency, Earned)
      && -10_000 < 20_000 * row.amount - 2 * row.base * row.rate <= 10_000
  }

  /** The commission rows of a booking after its settlement: one per agent membership of the booker, and no others. */
  ghost predicate EarnedInFull(db: Db, b: nat, next: seq<Commission>)
    requires b < |db.bookings|
  {
    && (forall m :: 0 <= m < |db.memberships| && IsBookersAgent(db.memberships[m], db.bookings[b]) ==>
          CommissionExists(next, db.memberships[m].id, b))
    && (forall c :: 0 <= c < |next| && next[c].bookingId == b ==> EarnedByAgent(db, b, next[c]))
  }

  /** A booking that is not CONFIRMED has no commission yet, so all it has after confirmation was earned by it. */
  lemma EarnedFromNothing(db: Db, b: nat, confirmed: Booking, next: seq<Commission>)
    requires b < |db.bookings| && CommissionsOk(db.bookings, db.commissions) && !db.bookings[b].status.Confirmed?
    requires forall m :: 0 <= m < |db.memberships| ==> db.memberships[m].commissionRate <= 10_000
    requires confirmed == MoveBooking(db.bookings[b], BookingStatus.Confirmed)
    requires EligibleRows(db.commissions, db.memberships, confirmed, b, next)
    ensures EarnedInFull(db, b, next)
  {
    assert forall c :: 0 <= c < |db.commissions| ==> next[c] == db.commissions[c] && next[c].bookingId != b;
    forall c | 0 <= c < |next| && next[c].bookingId == b ensures EarnedByAgent(db, b, next[c]) {
      assert c >= |db.commissions|;
      var m :| 0 <= m < |db.memberships| && EarnsCommission(db.memberships[m], confirmed)
        && next[c] == EarnedRow(db.memberships[m], confirmed, b);
      assert IsBookersAgent(db.memberships[m], db.bookings[b]);
      CommissionIsRounded(next[c].base, next[c].rate);
    }
  }

  lemma {:induction false} NothingEarned(commissions: seq<Commission>, ms: seq<Membership>, b: Booking, bookingId: nat)
    requires !b.status.Confirmed?
    ensures CreateEligible(commissions, ms, b, bookingId) == commissions
  {
    if ms != [] {
      NothingEarned(commissions, ms[..|ms| - 1], b, bookingId);
    }
  }

  /**
   * Settling an open booking earns one commission per active agent membership of its booker and no other, whoever
   * settles it and through whatever channel it was booked; settling a closed one earns nothing.
   */
  lemma SettlementEarns(db: Db, p: nat, from: PaymentStatus, actor: Option<nat>, reference: Option<string>, now: Instant)
    requires Reachable(db) && p < |db.payments| && db.payments[p].bookingId < |db.bookings|
    requires CanTransitionPayment(from, PaymentStatus.Succeeded)
    requires Settle(db, p, from, actor, reference, now).Success?
    ensures var next := Settle(db, p, from, actor, reference, now).value; var b := db.payments[p].bookingId;
      && (IsPayable(db.bookings[b].status) ==> EarnedInFull(db, b, next.commissions))
      && (!IsPayable(db.bookings[b].status) ==> next.commissions == db.commissions)
  {
    var b := db.payments[p].bookingId;
    ReachableIsGood(db);
    var moved := TransitionPayment(db.payments, p, from, PaymentStatus.Succeeded, reference, actor, Some(now)).payments;
    ConfirmedCannotSettle(db, p, from, actor, reference, now);
    SettledRows(db, p, moved[p], actor);
    assert db.payments[p := moved[p]] == moved;
    var after := if IsPayable(db.bookings[b].status) then MoveBooking(db.bookings[b], BookingStatus.Confirmed) else db.bookings[b];
    if IsPayable(db.bookings[b].status) {
      CreateEligibleExact(db.commissions, db.memberships, after, b);
      EarnedFromNothing(db, b, after, CreateEligible(db.commissions, db.memberships, after, b));
    } else {
      NothingEarned(db.commissions, db.memberships, after, b);
    }
  }

  lemma SettledIsTaken(payments: seq<Payment>, p: nat)
    requires p < |payments| && !IsSettled(payments[p].status) && HasSettledPayment(payments, payments[p].bookingId)
    ensures SettlementTaken(payments, p, PaymentStatus.Succeeded)
  {
    var q :| 0 <= q < |payments| && payments[q].bookingId == payments[p].bookingId && IsSettled(payments[q].status);
    assert q != p;
  }

  /** A second settlement of a CONFIRMED booking is a unique violation: it has its settled payment already. */
  lemma ConfirmedCannotSettle(db: Db, p: nat, from: PaymentStatus, actor: Option<nat>, reference: Option<string>, now: Instant)
    requires PaidOk(db.bookings, db.payments) && p < |db.payments| && db.payments[p].bookingId < |db.bookings|
    requires CanTransitionPayment(from, PaymentStatus.Succeeded)
    ensures db.bookings[db.payments[p].bookingId].status.Confirmed? ==> Settle(db, p, from, actor, reference, now).Failure?
  {
    if db.bookings[db.payments[p].bookingId].status.Confirmed? && db.payments[p].status == from {
      SettledIsTaken(db.payments, p);
    }
  }

  /** In every reachable state a refund leaves every commission as it is: a booking that has one is CONFIRMED and stays so. */
  lemma RefundNeverCancelsCommissions(db: Db, actor: nat, companyId: nat, p: nat)
    requires Reachable(db) && RefundPaymentTx(db, actor, companyId, p).Success?
    ensures var next := RefundPaymentTx(db, actor, companyId, p).value; next.commissions == db.commissions && next.bookings == db.bookings
    ensures p < |db.payments| && RefundPaymentTx(db, actor, companyId, p).value.payments == db.payments[p := db.payments[p].(status := PaymentStatus.Refunded)]
  {
    ReachableIsGood(db);
    RefundShape(db, actor, companyId, p);
    RefundLeavesCommissions(db.(payments := db.payments[p := db.payments[p].(status := PaymentStatus.Refunded)]), db.payments[p].bookingId);
  }

  // ---------------------------------------------------------------- what settlements leave alone

  lemma SettleLeavesAlone(db: Db, p: nat, from: PaymentStatus, actor: Option<nat>, reference: Option<string>, now: Instant)
    requires p < |db.payments| && db.payments[p].bookingId < |db.bookings|
    requires Settle(db, p, from, actor, reference, now).Success?
    ensures var next := Settle(db, p, from, actor, reference, now).value; next.records == db.records && next.tickets == db.tickets
  {
  }

  lemma ConfirmCashLeavesAlone(db: Db, actor: nat, companyId: nat, p: nat, now: Instant)
    requires ConfirmCashTx(db, actor, companyId, p, now).Success?
    ensures var next := ConfirmCashTx(db, actor, companyId, p, now).value; next.records == db.records && next.tickets == db.tickets
  {
    ConfirmCashShape(db, actor, companyId, p, now);
    SettleLeavesAlone(db, p, PaymentStatus.Pending, Some(actor), None, now);
  }

  lemma RefundLeavesAlone(db: Db, actor: nat, companyId: nat, p: nat)
    requires RefundPaymentTx(db, actor, companyId, p).Success?
    ensures var next := RefundPaymentTx(db, actor, companyId, p).value; next.records == db.records && next.tickets == db.tickets
  {
    RefundShape(db, actor, companyId, p);
  }

  lemma WebhookLeavesAlone(db: Db, e: ProviderEvent, now: Instant)
    requires HandleWebhookTx(db, e, now).Success?
    ensures var next := HandleWebhookTx(db, e, now).value; next.records == db.records && next.tickets == db.tickets
  {
    WebhookShape(db, e, now);
    var p := FindByInternalReference(db.payments, e.internalReference).value;
    if CanTransitionPayment(db.payments[p].status, EventTarget(e)) && e.succeeded {
      SettleLeavesAlone(db, p, db.payments[p].status, None, Some(e.providerReference), now);
    }
  }

  // ---------------------------------------------------------------- snapshots, tickets, events

  /** Every payment carries the total and the currency of its booking. */
  lemma PaymentsCopyBookings(db: Db, p: nat)
    requires Reachable(db) && p < |db.payments|
    ensures db.payments[p].bookingId < |db.bookings|
    ensures db.payments[p].amount == db.bookings[db.payments[p].bookingId].total
    ensures db.payments[p].currency == db.bookings[db.payments[p].bookingId].currency
  {
    ReachableIsGood(db);
  }

  /** A seat is CHECKED_IN exactly when its one ticket is; a ticket is never both used and revoked. */
  lemma TicketsFollowSeats(db: Db, t: nat)
    requires Reachable(db) && t < |db.tickets|
    ensures var ticket := db.tickets[t];
      && ticket.seatId < |db.seats| && ticket.bookingId < |db.bookings|
      && db.seats[ticket.seatId].bookingId == ticket.bookingId
      && db.bookings[ticket.bookingId].status.Confirmed?
      && (ticket.checkedInAt.Some? <==> db.seats[ticket.seatId].status.CheckedIn?)
      && !(ticket.checkedInAt.Some? && ticket.cancelledAt.Some?)
      && (forall u :: 0 <= u < |db.tickets| && u != t ==> db.tickets[u].seatId != ticket.seatId)
  {
    ReachableIsGood(db);
    forall u | 0 <= u < |db.tickets| && u != t
      ensures db.tickets[u].seatId != db.tickets[t].seatId
    {
      if u < t { assert !SameTicket(db.tickets[u], db.tickets[t]); } else { assert !SameTicket(db.tickets[t], db.tickets[u]); }
    }
  }

  /** Every event names a booking and that booking's own company. */
  lemma EventsNameTheirCompany(db: Db, e: nat)
    requires Reachable(db) && e < |db.events|
    ensures db.events[e].bookingId < |db.bookings|
    ensures db.events[e].companyId == db.bookings[db.events[e].bookingId].companyId
  {
    ReachableIsGood(db);
  }
}
