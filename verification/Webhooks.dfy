/** Provider webhooks: duplication, reordering and mismatches cannot do more than the first decisive event. */
module Webhooks {
  import opened Wrappers
  import opened Counting
  import opened Identity
  import opened Tables
  import opened Reservation
  import opened Invariants
  import opened RunProofs

  datatype Delivery = Delivery(event: ProviderEvent, at: Instant)

  function Deliver(db: Db, d: Delivery): Db {
    Execute(db, HandleWebhook(d.event), d.at).0
  }

  /** All deliveries, in the order they arrive. */
  function DeliverAll(db: Db, ds: seq<Delivery>): Db
    decreases |ds|
  {
    if ds == [] then db else DeliverAll(Deliver(db, ds[0]), ds[1..])
  }

  /** The row update this event asks for. */
  function WebhookUpdate(db: Db, p: nat, d: Delivery): Update
    requires p < |db.payments|
  {
    TransitionPayment(db.payments, p, db.payments[p].status, EventTarget(d.event), Some(d.event.providerReference),
                      None, if d.event.succeeded then Some(d.at) else None)
  }

  /** The event matches the payment's snapshot, moves it along the table, and no unique index objects. */
  predicate Decisive(db: Db, p: nat, d: Delivery)
    requires p < |db.payments|
  {
    && IsOnlineMethod(db.payments[p].tender)
    && EventMatches(db.payments[p], d.event)
    && CanTransitionPayment(db.payments[p].status, EventTarget(d.event))
    && WebhookUpdate(db, p, d).Changed?
  }

  /** The first decisive delivery, judged in the state before any of them. */
  function FirstDecisive(db: Db, p: nat, ds: seq<Delivery>): (r: Option<nat>)
    requires p < |db.payments|
    ensures r.Some? ==> r.value < |ds| && Decisive(db, p, ds[r.value])
    ensures r.Some? ==> forall j :: 0 <= j < r.value ==> !Decisive(db, p, ds[j])
    ensures r.None? ==> forall j :: 0 <= j < |ds| ==> !Decisive(db, p, ds[j])
  {
    if ds == [] then None
    else if Decisive(db, p, ds[0]) then Some(0)
    else
      match FirstDecisive(db, p, ds[1..])
      case None => None
      case Some(k) => Some(k + 1)
  }

  /** The unique constraint on internal references. */
  ghost predicate ReferencesUnique(payments: seq<Payment>) {
    forall i, j :: 0 <= i < j < |payments| ==> payments[i].internalReference != payments[j].internalReference
  }

  /** Internal references are unique, so an event finds the one payment it names. */
  lemma {:induction false} FindsByReference(payments: seq<Payment>, p: nat)
    requires p < |payments|
    requires ReferencesUnique(payments)
    ensures FindByInternalReference(payments, payments[p].internalReference) == Some(p)
  {
    var n := |payments| - 1;
    if p < n {
      FindsByReference(payments[..n], p);
    }
  }

  /** Payment `p` is in place with its booking, and a reference names one payment. */
  ghost predicate Addressed(db: Db, p: nat) {
    p < |db.payments| && db.payments[p].bookingId < |db.bookings| && ReferencesUnique(db.payments)
  }

  lemma ReachableIsAddressed(db: Db, p: nat)
    requires Inv(db) && p < |db.payments|
    ensures Addressed(db, p)
  {
    forall i, j | 0 <= i < j < |db.payments|
      ensures db.payments[i].internalReference != db.payments[j].internalReference
    {
      assert !SameReference(db.payments[i], db.payments[j]);
    }
  }

  /** An indecisive delivery, for whatever reason, changes nothing at all. */
  lemma IndecisiveChangesNothing(db: Db, p: nat, d: Delivery)
    requires Addressed(db, p) && d.event.internalReference == db.payments[p].internalReference && !Decisive(db, p, d)
    ensures Deliver(db, d) == db
  {
    FindsByReference(db.payments, p);
  }

  /** The status an online payment has once a webhook decided it, and the ones beyond. */
  predicate Decided(status: PaymentStatus) {
    !status.Pending? && !status.Processing?
  }

  lemma DecisiveDecides(db: Db, p: nat, d: Delivery)
    requires Addressed(db, p) && d.event.internalReference == db.payments[p].internalReference && Decisive(db, p, d)
    ensures var next := Deliver(db, d);
      && |next.payments| == |db.payments|
      && next.payments == db.payments[p := next.payments[p]]
      && next.payments[p].status == EventTarget(d.event) && Decided(next.payments[p].status)
      && next.payments[p].internalReference == db.payments[p].internalReference
      && Addressed(next, p)
  {
    FindsByReference(db.payments, p);
  }

  /** No webhook can move a decided payment. */
  lemma DecidedIgnores(db: Db, p: nat, d: Delivery)
    requires p < |db.payments| && Decided(db.payments[p].status)
    ensures !Decisive(db, p, d)
  {
  }

  lemma {:induction false} DecidedIgnoresAll(db: Db, p: nat, ds: seq<Delivery>)
    requires Addressed(db, p) && Decided(db.payments[p].status)
    requires forall j :: 0 <= j < |ds| ==> ds[j].event.internalReference == db.payments[p].internalReference
    ensures DeliverAll(db, ds) == db
  {
    if ds != [] {
      DecidedIgnores(db, p, ds[0]);
      IndecisiveChangesNothing(db, p, ds[0]);
      DecidedIgnoresAll(db, p, ds[1..]);
    }
  }

  /**
   * For any list of events naming one payment, in any order, with any duplicates and mismatches, every table
   * ends exactly as after the first decisive event alone; with no decisive event, exactly as before.
   */
  lemma {:induction false} FirstDecisiveIsAll(db: Db, p: nat, ds: seq<Delivery>)
    requires Addressed(db, p)
    requires forall j :: 0 <= j < |ds| ==> ds[j].event.internalReference == db.payments[p].internalReference
    ensures DeliverAll(db, ds) == match FirstDecisive(db, p, ds)
                                  case None => db
                                  case Some(k) => Deliver(db, ds[k])
  {
    if ds != [] {
      if Decisive(db, p, ds[0]) {
        DecisiveDecides(db, p, ds[0]);
        DecidedIgnoresAll(Deliver(db, ds[0]), p, ds[1..]);
      } else {
        IndecisiveChangesNothing(db, p, ds[0]);
        FirstDecisiveIsAll(db, p, ds[1..]);
      }
    }
  }

  /** A failure never decides a PENDING payment: the table has no such edge, so it is acknowledged and ignored. */
  lemma FailureNeverDecidesPending(db: Db, p: nat, d: Delivery)
    requires p < |db.payments| && db.payments[p].status.Pending? && !d.event.succeeded
    ensures !Decisive(db, p, d)
  {
  }

  /** With no rival success and an unused provider reference, decisive is just: matching, and a legal edge. */
  lemma DecisiveWithoutRival(db: Db, p: nat, d: Delivery)
    requires p < |db.payments|
    requires !SettlementTaken(db.payments, p, PaymentStatus.Succeeded)
    requires !ProviderReferenceUsed(db.payments, p, Some(d.event.providerReference))
    ensures Decisive(db, p, d)
       <==> && IsOnlineMethod(db.payments[p].tender) && EventMatches(db.payments[p], d.event)
            && (db.payments[p].status.Processing? || (db.payments[p].status.Pending? && d.event.succeeded))
  {
  }

  /** After all deliveries the invariant holds, and a booking row that moved has its settled payment. */
  lemma DeliveriesKeepInv(db: Db, p: nat, ds: seq<Delivery>)
    requires Reachable(db) && p < |db.payments|
    requires forall j :: 0 <= j < |ds| ==> ds[j].event.internalReference == db.payments[p].internalReference
    ensures var b := db.payments[p].bookingId; var next := DeliverAll(db, ds);
      && Inv(next) && b < |next.bookings|
      && (next.bookings != db.bookings ==> HasSettledPayment(next.payments, b))
  {
    ReachableIsGood(db);
    ReachableIsAddressed(db, p);
    FirstDecisiveIsAll(db, p, ds);
    match FirstDecisive(db, p, ds) {
      case None =>
      case Some(k) =>
        ExecuteKeepsInv(db, HandleWebhook(ds[k].event), ds[k].at);
        DeliverTouches(db, p, ds[k]);
    }
  }

  /** Success effects happen at most once: over all deliveries at most one PAYMENT_CONFIRMED event is written. */
  lemma SuccessEffectsAtMostOnce(db: Db, p: nat, ds: seq<Delivery>)
    requires Reachable(db) && p < |db.payments|
    requires forall j :: 0 <= j < |ds| ==> ds[j].event.internalReference == db.payments[p].internalReference
    ensures var b := db.payments[p].bookingId; var next := DeliverAll(db, ds);
      && b < |next.bookings|
      && Count(next.events, EventOf(b, EventKind.PaymentConfirmed)) <= 1
      && (next.bookings != db.bookings ==> Count(next.events, EventOf(b, EventKind.PaymentConfirmed)) == 1)
  {
    DeliveriesKeepInv(db, p, ds);
    ConfirmedAtMostOnce(DeliverAll(db, ds), db.payments[p].bookingId);
  }

  lemma ConfirmedAtMostOnce(db: Db, b: nat)
    requires Inv(db) && b < |db.bookings|
    ensures Count(db.events, EventOf(b, EventKind.PaymentConfirmed)) <= 1
    ensures HasSettledPayment(db.payments, b) ==> Count(db.events, EventOf(b, EventKind.PaymentConfirmed)) == 1
  {
    forall p, q | 0 <= p < q < |db.payments|
      ensures !(SettledOf(b)(db.payments[p]) && SettledOf(b)(db.payments[q]))
    {
      assert !Rivals(db.payments[p], db.payments[q]);
    }
    CountUnique(db.payments, SettledOf(b));
    assert LogOf(b, db.bookings[b].status, db.payments, db.tickets, db.events);
    if p :| 0 <= p < |db.payments| && db.payments[p].bookingId == b && IsSettled(db.payments[p].status) {
      assert SettledOf(b)(db.payments[p]);
    }
  }

  /** A delivery that changes any booking row is a success: it leaves the payment settled. */
  lemma DeliverTouches(db: Db, p: nat, d: Delivery)
    requires Addressed(db, p) && d.event.internalReference == db.payments[p].internalReference && Decisive(db, p, d)
    ensures Deliver(db, d).bookings != db.bookings ==> HasSettledPayment(Deliver(db, d).payments, db.payments[p].bookingId)
  {
    FindsByReference(db.payments, p);
    DecisiveDecides(db, p, d);
    var next := Deliver(db, d);
    if d.event.succeeded {
      assert next.payments[p].bookingId == db.payments[p].bookingId && IsSettled(next.payments[p].status);
    }
  }

  lemma DecidedStays(db: Db, next: Db, p: nat)
    requires Evolves(db, next) && p < |db.payments| && Decided(db.payments[p].status)
    ensures p < |next.payments| && Decided(next.payments[p].status)
    ensures next.payments[p].internalReference == db.payments[p].internalReference
  {
    assert PaymentEvolves(db.payments[p], next.payments[p]);
  }

  /** Whatever else happens meanwhile, a decided payment stays decided ... */
  lemma {:induction false} DecidedForEver(db: Db, calls: seq<Timed>, p: nat)
    requires Inv(db) && p < |db.payments| && Decided(db.payments[p].status)
    ensures var next := Run(db, calls);
      p < |next.payments| && Decided(next.payments[p].status) && next.payments[p].internalReference == db.payments[p].internalReference
  {
    if calls != [] {
      var n := |calls| - 1;
      var before := Run(db, calls[..n]);
      DecidedForEver(db, calls[..n], p);
      RunKeepsInv(db, calls[..n]);
      ExecuteKeepsInv(before, calls[n].call, calls[n].at);
      DecidedStays(before, Execute(before, calls[n].call, calls[n].at).0, p);
    }
  }

  /** ... so a late or repeated webhook is a no-op even after refunds, expiries and any other calls in between. */
  lemma LateWebhookIsNoOp(db: Db, calls: seq<Timed>, p: nat, d: Delivery)
    requires Inv(db) && p < |db.payments| && Decided(db.payments[p].status)
    requires d.event.internalReference == db.payments[p].internalReference
    ensures Deliver(Run(db, calls), d) == Run(db, calls)
  {
    DecidedForEver(db, calls, p);
    RunKeepsInv(db, calls);
    DecidedIgnores(Run(db, calls), p, d);
    ReachableIsAddressed(Run(db, calls), p);
    IndecisiveChangesNothing(Run(db, calls), p, d);
  }
}
