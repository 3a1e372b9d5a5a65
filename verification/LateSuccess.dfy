/**
 * "A SUCCEEDED payment means a CONFIRMED booking" is not what the code promises: exactly when a settlement, by webhook
 * or by the cash desk, does confirm.
 */
module LateSuccess {
  import opened Wrappers
  import opened Identity
  import opened Tables
  import opened Reservation
  import opened Invariants
  import opened SettlementProofs
  import opened RunProofs

  /** The payment is SUCCEEDED; its booking is CONFIRMED exactly if it was open, and otherwise no booking or seat changed. */
  ghost predicate ConfirmedIffOpen(db: Db, p: nat, next: Db)
    requires p < |db.payments| && db.payments[p].bookingId < |db.bookings|
  {
    var b := db.payments[p].bookingId;
    && |next.payments| == |db.payments| && next.payments[p].status.Succeeded? && b < |next.bookings|
    && (next.bookings[b].status.Confirmed? <==> IsPayable(db.bookings[b].status))
    && (!IsPayable(db.bookings[b].status) ==>
          next.bookings == db.bookings && next.seats == db.seats && next.commissions == db.commissions)
  }

  lemma SettleConfirmsIffOpen(db: Db, p: nat, from: PaymentStatus, actor: Option<nat>, reference: Option<string>, now: Instant)
    requires Reachable(db) && p < |db.payments| && db.payments[p].bookingId < |db.bookings|
    requires CanTransitionPayment(from, PaymentStatus.Succeeded)
    requires Settle(db, p, from, actor, reference, now).Success?
    ensures ConfirmedIffOpen(db, p, Settle(db, p, from, actor, reference, now).value)
  {
    ReachableIsGood(db);
    SettleExact(db, p, from, actor, reference, now);
    ConfirmedCannotSettle(db, p, from, actor, reference, now);
    SettlementEarns(db, p, from, actor, reference, now);
    var next := Settle(db, p, from, actor, reference, now).value;
    if !IsPayable(db.bookings[db.payments[p].bookingId].status) {
      assert next.bookings == db.bookings;
      assert next.seats == db.seats;
    }
  }

  /** A webhook settlement confirms its booking exactly when the booking is still open. */
  lemma WebhookConfirmsIffOpen(db: Db, e: ProviderEvent, now: Instant, p: nat)
    requires Reachable(db) && e.succeeded && FindByInternalReference(db.payments, e.internalReference) == Some(p)
    requires HandleWebhookTx(db, e, now).Success? && CanTransitionPayment(db.payments[p].status, PaymentStatus.Succeeded)
    ensures p < |db.payments| && db.payments[p].bookingId < |db.bookings|
    ensures ConfirmedIffOpen(db, p, HandleWebhookTx(db, e, now).value)
  {
    ReachableIsGood(db);
    WebhookShape(db, e, now);
    SettleConfirmsIffOpen(db, p, db.payments[p].status, None, Some(e.providerReference), now);
  }

  /** So does a confirmed cash payment. */
  lemma CashConfirmsIffOpen(db: Db, actor: nat, companyId: nat, p: nat, now: Instant)
    requires Reachable(db) && ConfirmCashTx(db, actor, companyId, p, now).Success?
    ensures p < |db.payments| && db.payments[p].bookingId < |db.bookings|
    ensures ConfirmedIffOpen(db, p, ConfirmCashTx(db, actor, companyId, p, now).value)
  {
    ReachableIsGood(db);
    ConfirmCashShape(db, actor, companyId, p, now);
    SettleConfirmsIffOpen(db, p, PaymentStatus.Pending, Some(actor), None, now);
  }
}
