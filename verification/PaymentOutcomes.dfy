/**
 * What each payment call does, row by row, and exactly when it succeeds: the two creates, the cash confirmation, the
 * refund and the provider webhook, in plain terms of statuses, amounts, instants and rows.
 */
module PaymentOutcomes {
  import opened Wrappers
  import opened Counting
  import opened Identity
  import opened Tables
  import opened Reservation
  import opened Invariants
  import opened SettlementProofs
  import opened RunProofs
  import opened Authorization
  import opened Idempotency
  import opened Webhooks
  import opened BookingOutcomes

  // ---------------------------------------------------------------- creating

  predicate PaysOnline(tender: PaymentMethod) {
    tender == Bankily || tender == Masrvi || tender == Seddad
  }

  /** The row: the booking's own total and currency, open at the provider for an online method and pending otherwise. */
  predicate NewPaymentRow(b: Booking, bookingId: nat, tender: PaymentMethod, references: seq<string>, providerReference: string, row: Payment) {
    && row.internalReference in references
    && row == if PaysOnline(tender)
              then Payment(bookingId, tender, PaymentStatus.Processing, b.total, b.currency, Some(providerReference), row.internalReference, None, None)
              else Payment(bookingId, tender, PaymentStatus.Pending, b.total, b.currency, None, row.internalReference, None, None)
  }

  /** Exactly one payment row is added and logged, under a new reference; the record of the key points at it for a day. */
  ghost predicate PaymentMade(db: Db, actor: nat, key: Key, fingerprint: Fingerprint, bookingId: nat, tender: PaymentMethod,
                              references: seq<string>, providerReference: string, now: Instant, next: Db, id: nat)
    requires bookingId < |db.bookings|
  {
    && id == |db.payments|
    && next == db.(payments := next.payments, events := next.events, records := next.records)
    && |next.payments| == id + 1 && db.payments <= next.payments
    && NewPaymentRow(db.bookings[bookingId], bookingId, tender, references, providerReference, next.payments[id])
    && (forall q :: 0 <= q < id ==> db.payments[q].internalReference != next.payments[id].internalReference)
    && next.events == db.events + [Event(bookingId, db.bookings[bookingId].companyId, Some(actor), EventKind.PaymentPending)]
    && next.records == db.records[key := Record(fingerprint, Some(bookingId), Some(id), now + 24 * 3_600_000_000)]
  }

  ghost predicate SomePaymentReferenceNew(payments: seq<Payment>, references: seq<string>) {
    exists k :: 0 <= k < |references| && forall p :: 0 <= p < |payments| ==> payments[p].internalReference != references[k]
  }

  ghost predicate ProviderReferenceNew(payments: seq<Payment>, tender: PaymentMethod, reference: string) {
    forall q :: 0 <= q < |payments| && payments[q].tender == tender ==> payments[q].providerReference != Some(reference)
  }

  lemma NewReferenceMeansFree(payments: seq<Payment>, references: seq<string>)
    ensures SomePaymentReferenceNew(payments, references) <==> SomeInternalReferenceFree(payments, references)
  {
    if SomeInternalReferenceFree(payments, references) {
      var k :| 0 <= k < |references| && !InternalReferenceTaken(payments, references[k]);
      assert forall p :: 0 <= p < |payments| ==> payments[p].internalReference != references[k];
    }
    if SomePaymentReferenceNew(payments, references) {
      var k :| 0 <= k < |references| && forall p :: 0 <= p < |payments| ==> payments[p].internalReference != references[k];
      assert !InternalReferenceTaken(payments, references[k]);
    }
  }

  /** The booking can be paid: open, and its hold still runs. */
  predicate CanBePaid(b: Booking, now: Instant) {
    IsOpen(b) && b.expiresAt > now
  }

  /** What the tables must allow: a new reference, and online also a new reference at the provider. */
  ghost predicate ReferencesAllow(payments: seq<Payment>, tender: PaymentMethod, references: seq<string>, providerReference: string) {
    && SomePaymentReferenceNew(payments, references)
    && (PaysOnline(tender) ==> ProviderReferenceNew(payments, tender, providerReference))
  }

  lemma ClaimedPaymentOutcome(db: Db, actor: nat, key: Key, fingerprint: Fingerprint, bookingId: nat, tender: PaymentMethod,
                              references: References, providerReference: string, now: Instant)
    requires PaidOk(db.bookings, db.payments) && bookingId < |db.bookings| && KeyIsFree(db, key, now)
    ensures var r := CreateClaimedPayment(db, actor, key, fingerprint, bookingId, tender, references, providerReference, now);
      && (r.Success? <==> CanBePaid(db.bookings[bookingId], now) && ReferencesAllow(db.payments, tender, references, providerReference))
      && (r.Success? ==> PaymentMade(db, actor, key, fingerprint, bookingId, tender, references, providerReference, now, r.value.0, r.value.1))
      && (!CanBePaid(db.bookings[bookingId], now) ==> r == Failure(BookingNotPayable))
  {
    NewReferenceMeansFree(db.payments, references);
    ClaimedPaymentExact(db, actor, key, fingerprint, bookingId, tender, references, providerReference, now);
    if CreateClaimedPayment(db, actor, key, fingerprint, bookingId, tender, references, providerReference, now).Success? {
      var reference := PaymentCommits(db, actor, key, fingerprint, bookingId, tender, references, providerReference, now);
      FreshPaymentReference(db.payments, reference);
    }
  }

  lemma FreshPaymentReference(payments: seq<Payment>, reference: string)
    requires !InternalReferenceTaken(payments, reference)
    ensures forall q :: 0 <= q < |payments| ==> payments[q].internalReference != reference
  {
  }

  /**
   * A passenger's payment under a free key, in any reachable state: it is made exactly for an online method, on an own
   * online booking that can still be paid, with new references; and then exactly this is committed.
   */
  lemma PassengerPaymentOutcome(db: Db, actor: nat, text: string, bookingId: nat, tender: PaymentMethod,
                                references: References, providerReference: string, now: Instant)
    requires Reachable(db)
    requires bookingId < |db.bookings| ==> KeyIsFree(db, Key(db.bookings[bookingId].companyId, actor, Operation.CreatePayment, text), now)
    ensures var r := CreatePassengerPaymentTx(db, actor, text, bookingId, tender, references, providerReference, now);
      && (r.Success? <==>
            && PaysOnline(tender) && IsOwnersOnline(db, actor, bookingId) && CanBePaid(db.bookings[bookingId], now)
            && ReferencesAllow(db.payments, tender, references, providerReference))
      && (r.Success? ==>
            PaymentMade(db, actor, Key(db.bookings[bookingId].companyId, actor, Operation.CreatePayment, text),
                        OwnerPayment(actor, bookingId, tender), bookingId, tender, references, providerReference, now, r.value.0, r.value.1))
      && (!PaysOnline(tender) ==> r == Failure(PaymentMethodNotAllowed))
      && (PaysOnline(tender) && !IsOwnersOnline(db, actor, bookingId) ==> r == Failure(BookingNotFound))
  {
    if PaysOnline(tender) && IsOwnersOnline(db, actor, bookingId) {
      var key, fingerprint := Key(db.bookings[bookingId].companyId, actor, Operation.CreatePayment, text), OwnerPayment(actor, bookingId, tender);
      ReachablePaid(db);
      ClaimedPaymentOutcome(db, actor, key, fingerprint, bookingId, tender, references, providerReference, now);
      PaymentNeverLost(db, actor, text, bookingId, tender, references, providerReference, now);
    }
  }

  lemma ReachablePaid(db: Db)
    requires Reachable(db)
    ensures PaidOk(db.bookings, db.payments)
  {
    ReachableIsGood(db);
  }

  /** A company's payment: any method, on a booking of whose branch the actor may confirm payments. */
  lemma CompanyPaymentOutcome(db: Db, actor: nat, companyId: nat, text: string, bookingId: nat, tender: PaymentMethod,
                              references: References, providerReference: string, now: Instant)
    requires Reachable(db) && KeyIsFree(db, Key(companyId, actor, Operation.CreatePayment, text), now)
    ensures var r := CreateCompanyPaymentTx(db, actor, companyId, text, bookingId, tender, references, providerReference, now);
      var may := MayActOn(db, actor, companyId, PaymentsConfirm, bookingId);
      && (r.Success? <==> may && CanBePaid(db.bookings[bookingId], now) && ReferencesAllow(db.payments, tender, references, providerReference))
      && (r.Success? ==>
            PaymentMade(db, actor, Key(companyId, actor, Operation.CreatePayment, text), CompanyPayment(actor, companyId, bookingId, tender),
                        bookingId, tender, references, providerReference, now, r.value.0, r.value.1))
      && (!may ==> r == Failure(BookingNotFound))
  {
    FoundMeansMayAct(db, actor, companyId, PaymentsConfirm, bookingId);
    if MayActOn(db, actor, companyId, PaymentsConfirm, bookingId) {
      var key, fingerprint := Key(companyId, actor, Operation.CreatePayment, text), CompanyPayment(actor, companyId, bookingId, tender);
      ReachablePaid(db);
      ClaimedPaymentOutcome(db, actor, key, fingerprint, bookingId, tender, references, providerReference, now);
      CompanyPaymentNeverLost(db, actor, companyId, text, bookingId, tender, references, providerReference, now);
    }
  }

  // ---------------------------------------------------------------- settling

  predicate TookMoney(status: PaymentStatus) {
    status == PaymentStatus.Succeeded || status == PaymentStatus.PartiallyRefunded || status == PaymentStatus.Refunded
  }

  /** No other payment of the same booking was ever received. */
  ghost predicate OnlyOneReceived(payments: seq<Payment>, p: nat)
    requires p < |payments|
  {
    forall q :: 0 <= q < |payments| && q != p && payments[q].bookingId == payments[p].bookingId ==> !TookMoney(payments[q].status)
  }

  /** No other payment by the same method carries the provider's reference. */
  ghost predicate OnlyOneCarries(payments: seq<Payment>, p: nat, reference: Option<string>)
    requires p < |payments|
  {
    reference.Some? ==>
      forall q :: 0 <= q < |payments| && q != p && payments[q].tender == payments[p].tender ==> payments[q].providerReference != reference
  }

  function PaidRow(p: Payment, actor: Option<nat>, reference: Option<string>, now: Instant): Payment {
    Payment(p.bookingId, p.tender, PaymentStatus.Succeeded, p.amount, p.currency, if reference.Some? then reference else p.providerReference,
            p.internalReference, if actor.Some? then actor else p.confirmedBy, Some(now))
  }

  function ConfirmedRow(b: Booking): Booking {
    Booking(b.reference, b.tripId, b.companyId, b.branchId, b.bookedBy, b.channel, BookingStatus.Confirmed, b.unitPrice, b.total,
            b.currency, b.expiresAt, b.version + 1)
  }

  /** The payment is received; its booking, if still open, is confirmed with its held seats and earns its commissions. */
  ghost predicate Received(db: Db, p: nat, actor: Option<nat>, reference: Option<string>, now: Instant, next: Db)
    requires p < |db.payments| && db.payments[p].bookingId < |db.bookings|
  {
    var b := db.payments[p].bookingId;
    var wasOpen := IsOpen(db.bookings[b]);
    && next == db.(payments := next.payments, bookings := next.bookings, seats := next.seats, events := next.events, commissions := next.commissions)
    && next.payments == db.payments[p := PaidRow(db.payments[p], actor, reference, now)]
    && next.bookings == (if wasOpen then db.bookings[b := ConfirmedRow(db.bookings[b])] else db.bookings)
    && |next.seats| == |db.seats|
    && (forall i :: 0 <= i < |db.seats| ==>
          next.seats[i] == if wasOpen && db.seats[i].bookingId == b && db.seats[i].status == SeatStatus.Held
                           then db.seats[i].(status := SeatStatus.Confirmed) else db.seats[i])
    && next.events == db.events + [Event(b, db.bookings[b].companyId, actor, EventKind.PaymentConfirmed)]
    && db.commissions <= next.commissions
    && (if wasOpen then EarnedInFull(db, b, next.commissions) else next.commissions == db.commissions)
  }

  lemma SettleIs(db: Db, p: nat, from: PaymentStatus, actor: Option<nat>, reference: Option<string>, now: Instant)
    requires p < |db.payments| && db.payments[p].bookingId < |db.bookings| && db.payments[p].status == from
    ensures Settle(db, p, from, actor, reference, now).Success?
       <==> OnlyOneReceived(db.payments, p) && OnlyOneCarries(db.payments, p, reference)
  {
  }

  lemma SettleLeaves(db: Db, p: nat, from: PaymentStatus, actor: Option<nat>, reference: Option<string>, now: Instant)
    requires Reachable(db) && p < |db.payments| && db.payments[p].bookingId < |db.bookings|
    requires CanTransitionPayment(from, PaymentStatus.Succeeded)
    requires Settle(db, p, from, actor, reference, now).Success?
    ensures Received(db, p, actor, reference, now, Settle(db, p, from, actor, reference, now).value)
  {
    SettlementEarns(db, p, from, actor, reference, now);
    SettleRowsAre(db, p, from, actor, reference, now);
  }

  lemma SettleRowsAre(db: Db, p: nat, from: PaymentStatus, actor: Option<nat>, reference: Option<string>, now: Instant)
    requires p < |db.payments| && db.payments[p].bookingId < |db.bookings|
    requires Settle(db, p, from, actor, reference, now).Success?
    requires var next, b := Settle(db, p, from, actor, reference, now).value, db.payments[p].bookingId;
      && (IsPayable(db.bookings[b].status) ==> EarnedInFull(db, b, next.commissions))
      && (!IsPayable(db.bookings[b].status) ==> next.commissions == db.commissions)
    ensures Received(db, p, actor, reference, now, Settle(db, p, from, actor, reference, now).value)
  {
    var moved := TransitionPayment(db.payments, p, from, PaymentStatus.Succeeded, reference, actor, Some(now)).payments;
    SettledRows(db, p, moved[p], actor);
    assert db.payments[p := moved[p]] == moved;
    CreateEligibleExact(db.commissions, db.memberships, Settled(db, p, moved[p], actor).bookings[moved[p].bookingId], moved[p].bookingId);
  }

  /** A cash payment is confirmed exactly when it is pending cash, the actor may, and no other payment of the booking was received. */
  lemma ConfirmCashOutcome(db: Db, actor: nat, companyId: nat, p: nat, now: Instant)
    requires Reachable(db)
    ensures var r := ConfirmCashTx(db, actor, companyId, p, now);
      var may := p < |db.payments| && MayActOn(db, actor, companyId, PaymentsConfirm, db.payments[p].bookingId);
      && (r.Success? <==>
            && may && db.payments[p].tender == Cash && db.payments[p].status == PaymentStatus.Pending && OnlyOneReceived(db.payments, p))
      && (r.Success? ==> Received(db, p, Some(actor), None, now, r.value))
      && (!may ==> r == Failure(PaymentNotFound))
      && (may && db.payments[p].tender != Cash ==> r == Failure(PaymentMethodNotAllowed))
  {
    if p < |db.payments| {
      FoundMeansMayAct(db, actor, companyId, PaymentsConfirm, db.payments[p].bookingId);
      if ConfirmCashReaches(db, actor, companyId, p) {
        SettleIs(db, p, PaymentStatus.Pending, Some(actor), None, now);
        if Settle(db, p, PaymentStatus.Pending, Some(actor), None, now).Success? {
          SettleLeaves(db, p, PaymentStatus.Pending, Some(actor), None, now);
        }
      }
    }
  }

  ghost predicate ConfirmCashReaches(db: Db, actor: nat, companyId: nat, p: nat) {
    && p < |db.payments| && MayActOn(db, actor, companyId, PaymentsConfirm, db.payments[p].bookingId)
    && db.payments[p].tender == Cash && db.payments[p].status == PaymentStatus.Pending
  }

  // ---------------------------------------------------------------- refunding

  function RefundedRow(p: Payment): Payment {
    Payment(p.bookingId, p.tender, PaymentStatus.Refunded, p.amount, p.currency, p.providerReference, p.internalReference, p.confirmedBy, p.paidAt)
  }

  /** Only the payment row changes, and two events say so, in this order. */
  ghost predicate Refunded(db: Db, p: nat, actor: nat, next: Db)
    requires p < |db.payments| && db.payments[p].bookingId < |db.bookings|
  {
    var b := db.payments[p].bookingId;
    && next == db.(payments := next.payments, events := next.events)
    && next.payments == db.payments[p := RefundedRow(db.payments[p])]
    && next.events == db.events + [Event(b, db.bookings[b].companyId, Some(actor), EventKind.RefundCreated),
                                   Event(b, db.bookings[b].companyId, Some(actor), EventKind.RefundCompleted)]
  }

  lemma RefundIs(db: Db, actor: nat, companyId: nat, p: nat)
    requires PaidOk(db.bookings, db.payments) && CommissionsOk(db.bookings, db.commissions)
    ensures var r := RefundPaymentTx(db, actor, companyId, p);
      var may := p < |db.payments| && MayActOn(db, actor, companyId, PaymentsRefund, db.payments[p].bookingId);
      && (r.Success? <==> may && db.payments[p].status == PaymentStatus.Succeeded)
      && (r.Success? ==> Refunded(db, p, actor, r.value))
      && (r.Failure? ==> r.error == if may then PaymentNotRefundable else PaymentNotFound)
  {
    if p < |db.payments| {
      FoundMeansMayAct(db, actor, companyId, PaymentsRefund, db.payments[p].bookingId);
      if db.payments[p].status == PaymentStatus.Succeeded {
        NoRivalOf(db, p);
        var payments := db.payments[p := RefundedRow(db.payments[p])];
        RefundLeavesCommissions(db.(payments := payments), db.payments[p].bookingId);
      }
    }
  }

  lemma NoRivalOf(db: Db, p: nat)
    requires PaidOk(db.bookings, db.payments) && p < |db.payments| && db.payments[p].status == PaymentStatus.Succeeded
    ensures TransitionPayment(db.payments, p, PaymentStatus.Succeeded, PaymentStatus.Refunded, None, None, None)
         == Changed(db.payments[p := RefundedRow(db.payments[p])])
  {
    forall q | 0 <= q < |db.payments| && q != p ensures !Rivals(db.payments[q], db.payments[p]) {
      if q < p { assert !Rivals(db.payments[q], db.payments[p]); } else { assert !Rivals(db.payments[p], db.payments[q]); }
    }
  }

  /** In any reachable state a refund succeeds exactly on a SUCCEEDED payment the actor may refund; nothing but the payment and the log changes. */
  lemma RefundOutcome(db: Db, actor: nat, companyId: nat, p: nat)
    requires Reachable(db)
    ensures var r := RefundPaymentTx(db, actor, companyId, p);
      var may := p < |db.payments| && MayActOn(db, actor, companyId, PaymentsRefund, db.payments[p].bookingId);
      && (r.Success? <==> may && db.payments[p].status == PaymentStatus.Succeeded)
      && (r.Success? ==> Refunded(db, p, actor, r.value))
      && (r.Failure? ==> r.error == if may then PaymentNotRefundable else PaymentNotFound)
  {
    ReachableIsGood(db);
    RefundIs(db, actor, companyId, p);
  }

  // ---------------------------------------------------------------- the webhook

  /** The event names the payment's amount, currency and, once there is one, provider reference. */
  predicate Names(p: Payment, e: ProviderEvent) {
    && e.amount == p.amount && e.currency == p.currency
    && (p.providerReference == None || p.providerReference == Some(e.providerReference))
  }

  function FailedRow(p: Payment, e: ProviderEvent): Payment {
    Payment(p.bookingId, p.tender, PaymentStatus.Failed, p.amount, p.currency, Some(e.providerReference), p.internalReference, p.confirmedBy, p.paidAt)
  }

  /** The event may still decide: success while PENDING or PROCESSING, failure only while PROCESSING. */
  predicate MayDecide(p: Payment, e: ProviderEvent) {
    p.status == PaymentStatus.Processing || (p.status == PaymentStatus.Pending && e.succeeded)
  }

  lemma WebhookIs(db: Db, p: nat, e: ProviderEvent, now: Instant)
    requires Addressed(db, p) && e.internalReference == db.payments[p].internalReference
    ensures var r, row := HandleWebhookTx(db, e, now), db.payments[p];
      && (!PaysOnline(row.tender) ==> r == Failure(PaymentNotFound))
      && (PaysOnline(row.tender) && !Names(row, e) ==> r == Failure(PaymentMethodNotAllowed))
      && (PaysOnline(row.tender) && Names(row, e) ==>
            if !MayDecide(row, e) then r == Success(db)
            else if e.succeeded then r == Settle(db, p, row.status, None, Some(e.providerReference), now)
            else if OnlyOneCarries(db.payments, p, Some(e.providerReference))
            then r == Success(db.(payments := db.payments[p := FailedRow(row, e)]))
            else r == Failure(ProviderReferenceTaken))
  {
    FindsByReference(db.payments, p);
  }

  /**
   * A webhook for a payment, in any reachable state: refused for another method, amount, currency or provider reference;
   * ignored when the payment is decided; otherwise a success receives the payment unless the booking's money is in
   * already, and a failure fails it.
   */
  lemma WebhookOutcome(db: Db, p: nat, e: ProviderEvent, now: Instant)
    requires Reachable(db) && p < |db.payments| && e.internalReference == db.payments[p].internalReference
    ensures db.payments[p].bookingId < |db.bookings|
    ensures var r, row := HandleWebhookTx(db, e, now), db.payments[p];
      && (!PaysOnline(row.tender) ==> r == Failure(PaymentNotFound))
      && (PaysOnline(row.tender) && !Names(row, e) ==> r == Failure(PaymentMethodNotAllowed))
      && (PaysOnline(row.tender) && Names(row, e) && !MayDecide(row, e) ==> r == Success(db))
      && (PaysOnline(row.tender) && Names(row, e) && MayDecide(row, e) && e.succeeded ==>
            if OnlyOneReceived(db.payments, p) && OnlyOneCarries(db.payments, p, Some(e.providerReference))
            then r.Success? && Received(db, p, None, Some(e.providerReference), now, r.value)
            else r == Failure(PaymentAlreadySettled))
      && (PaysOnline(row.tender) && Names(row, e) && MayDecide(row, e) && !e.succeeded ==>
            if OnlyOneCarries(db.payments, p, Some(e.providerReference))
            then r == Success(db.(payments := db.payments[p := FailedRow(row, e)]))
            else r == Failure(ProviderReferenceTaken))
  {
    ReachableAddressed(db, p);
    WebhookIs(db, p, e, now);
    if PaysOnline(db.payments[p].tender) && Names(db.payments[p], e) && MayDecide(db.payments[p], e) && e.succeeded {
      SettleIs(db, p, db.payments[p].status, None, Some(e.providerReference), now);
      if Settle(db, p, db.payments[p].status, None, Some(e.providerReference), now).Success? {
        SettleLeaves(db, p, db.payments[p].status, None, Some(e.providerReference), now);
      }
    }
  }

  lemma ReachableAddressed(db: Db, p: nat)
    requires Reachable(db) && p < |db.payments|
    ensures Addressed(db, p)
  {
    ReachableIsGood(db);
    ReachableIsAddressed(db, p);
  }

  /** An event that names no payment is refused. */
  lemma {:induction false} UnknownReference(payments: seq<Payment>, reference: string)
    requires forall p :: 0 <= p < |payments| ==> payments[p].internalReference != reference
    ensures FindByInternalReference(payments, reference) == None
  {
    if payments != [] { UnknownReference(payments[..|payments| - 1], reference); }
  }

  lemma StrayWebhookRefused(db: Db, e: ProviderEvent, now: Instant)
    requires forall p :: 0 <= p < |db.payments| ==> db.payments[p].internalReference != e.internalReference
    ensures HandleWebhookTx(db, e, now) == Failure(PaymentNotFound)
  {
    UnknownReference(db.payments, e.internalReference);
  }
}
