/** Creating, settling, failing and refunding payments keep the joint invariant. */
module SettlementProofs {
  import opened Wrappers
  import opened Counting
  import opened Identity
  import opened Tables
  import opened Reservation
  import opened Invariants
  import opened HoldProofs

  // ---------------------------------------------------------------- a new payment

  /** The tables after a payment row is created and logged. */
  function PaymentInserted(db: Db, row: Payment, actor: nat): Db
    requires row.bookingId < |db.bookings|
  {
    AppendEvent(db.(payments := db.payments + [row]), row.bookingId, db.bookings[row.bookingId].companyId,
                Some(actor), EventKind.PaymentPending)
  }

  /** A row insertPayment may add, in the state the creating transaction leaves it. */
  ghost predicate PaymentInsertable(db: Db, row: Payment) {
    && row.bookingId < |db.bookings|
    && IsPayable(db.bookings[row.bookingId].status)
    && row.amount == db.bookings[row.bookingId].total && row.currency == db.bookings[row.bookingId].currency
    && (row.status.Pending? || (row.status.Processing? && row.providerReference.Some?))
    && (forall q :: 0 <= q < |db.payments| ==> !SameReference(db.payments[q], row))
  }

  lemma PaymentInsertedKeepsLog(db: Db, row: Payment, actor: nat)
    requires PaymentInsertable(db, row)
    requires LogOk(db.bookings, db.payments, db.tickets, db.events)
    ensures var next := PaymentInserted(db, row, actor); LogOk(next.bookings, next.payments, next.tickets, next.events)
  {
    var next := PaymentInserted(db, row, actor);
    forall b | 0 <= b < |next.bookings|
      ensures LogOf(b, next.bookings[b].status, next.payments, next.tickets, next.events)
    {
      assert LogOf(b, db.bookings[b].status, db.payments, db.tickets, db.events);
      forall kind: EventKind
        ensures Count(next.events, EventOf(b, kind))
             == Count(db.events, EventOf(b, kind)) + (if b == row.bookingId && kind.PaymentPending? then 1 else 0)
      {
        CountPush(db.events, next.events[|db.events|], EventOf(b, kind));
      }
      CountPush(db.payments, row, PaymentOf(b));
      CountPush(db.payments, row, SettledOf(b));
      CountPush(db.payments, row, RefundedOf(b));
    }
  }

  lemma PaymentInsertedKeepsPaid(db: Db, row: Payment, actor: nat)
    requires PaymentInsertable(db, row)
    requires PaidOk(db.bookings, db.payments)
    ensures var next := PaymentInserted(db, row, actor); PaidOk(next.bookings, next.payments)
  {
    var next := PaymentInserted(db, row, actor);
    forall b | 0 <= b < |next.bookings| && next.bookings[b].status.Confirmed?
      ensures HasSettledPayment(next.payments, b)
    {
      var p :| 0 <= p < |db.payments| && db.payments[p].bookingId == b && IsSettled(db.payments[p].status);
      assert next.payments[p] == db.payments[p];
    }
  }

  lemma PaymentInsertedKeepsRows(db: Db, row: Payment, actor: nat)
    requires KeysOk(db) && MoneyOk(db.bookings, db.seats, db.payments) && PaymentInsertable(db, row)
    ensures var next := PaymentInserted(db, row, actor);
      KeysOk(next) && MoneyOk(next.bookings, next.seats, next.payments)
  {
  }

  lemma PaymentInsertedEvolves(db: Db, row: Payment, actor: nat)
    requires row.bookingId < |db.bookings|
    ensures Evolves(db, PaymentInserted(db, row, actor))
  {
  }

  lemma PaymentInsertedKeepsCore(db: Db, row: Payment, actor: nat)
    requires Core(db) && PaymentInsertable(db, row)
    ensures Core(PaymentInserted(db, row, actor)) && Evolves(db, PaymentInserted(db, row, actor))
  {
    PaymentInsertedKeepsLog(db, row, actor);
    PaymentInsertedKeepsPaid(db, row, actor);
    PaymentInsertedKeepsRows(db, row, actor);
    PaymentInsertedEvolves(db, row, actor);
  }

  // ---------------------------------------------------------------- one payment row moves

  /** Payment `p` is replaced by `q`, which only moved along the transition table. */
  ghost predicate PaymentMoves(db: Db, p: nat, q: Payment) {
    && p < |db.payments|
    && PaymentEvolves(db.payments[p], q)
    && q.status != db.payments[p].status
    && !q.status.PartiallyRefunded?
    && !q.status.Processing?
    && (forall r :: 0 <= r < |db.payments| && r != p ==>
          !Rivals(db.payments[r], q) && !SameReference(db.payments[r], q))
  }

  lemma ChangedMeansMoves(db: Db, p: nat, from: PaymentStatus, to: PaymentStatus, reference: Option<string>,
                          confirmedBy: Option<nat>, paidAt: Option<Instant>)
    requires PaidOk(db.bookings, db.payments)
    requires p < |db.payments| && CanTransitionPayment(from, to) && !to.Processing?
    requires reference.Some? ==> db.payments[p].providerReference.None? || db.payments[p].providerReference == reference
    requires TransitionPayment(db.payments, p, from, to, reference, confirmedBy, paidAt).Changed?
    ensures var next := TransitionPayment(db.payments, p, from, to, reference, confirmedBy, paidAt).payments;
      |next| == |db.payments| && next == db.payments[p := next[p]] && next[p].status == to
      && db.payments[p].status == from && PaymentMoves(db, p, next[p])
  {
    var q := TransitionPayment(db.payments, p, from, to, reference, confirmedBy, paidAt).payments[p];
    forall r | 0 <= r < |db.payments| && r != p
      ensures !Rivals(db.payments[r], q) && !SameReference(db.payments[r], q)
    {
      assert !SameReference(db.payments[r], db.payments[p]);
      assert !Rivals(db.payments[r], db.payments[p]);
    }
  }

  /** Only the counts of the moved payment's own booking change, and by the difference of the two rows. */
  lemma PaymentCountsMove(payments: seq<Payment>, p: nat, q: Payment, b: nat)
    requires p < |payments| && q.bookingId == payments[p].bookingId
    ensures Count(payments[p := q], PaymentOf(b)) == Count(payments, PaymentOf(b))
    ensures Count(payments[p := q], SettledOf(b)) + (if SettledOf(b)(payments[p]) then 1 else 0)
         == Count(payments, SettledOf(b)) + (if SettledOf(b)(q) then 1 else 0)
    ensures Count(payments[p := q], RefundedOf(b)) + (if RefundedOf(b)(payments[p]) then 1 else 0)
         == Count(payments, RefundedOf(b)) + (if RefundedOf(b)(q) then 1 else 0)
  {
    CountUpdate(payments, p, q, PaymentOf(b));
    CountUpdate(payments, p, q, SettledOf(b));
    CountUpdate(payments, p, q, RefundedOf(b));
  }

  /**
   * The log stays in step when one payment row moves and `added` events are written, provided the
   * added events are exactly the ones that move calls for and no booking enters or leaves EXPIRED or CANCELLED.
   */
  lemma LogFollowsPayment(bookings: seq<Booking>, next: seq<Booking>, payments: seq<Payment>, p: nat, q: Payment,
                          tickets: seq<Ticket>, events: seq<Event>, added: seq<Event>)
    requires LogOk(bookings, payments, tickets, events)
    requires |next| == |bookings|
    requires forall b :: 0 <= b < |bookings| ==>
      bookings[b].status.Expired? == next[b].status.Expired? && bookings[b].status.Cancelled? == next[b].status.Cancelled?
    requires p < |payments| && q.bookingId == payments[p].bookingId
    requires forall b: nat, kind: EventKind :: Count(added, EventOf(b, kind)) == AddedFor(payments[p], q, b, kind)
    ensures LogOk(next, payments[p := q], tickets, events + added)
  {
    forall b | 0 <= b < |next|
      ensures LogOf(b, next[b].status, payments[p := q], tickets, events + added)
    {
      assert LogOf(b, bookings[b].status, payments, tickets, events);
      OneLogFollowsPayment(b, bookings[b].status, next[b].status, payments, p, q, tickets, events, added);
    }
  }

  /** The same for one booking. */
  lemma OneLogFollowsPayment(b: nat, status: BookingStatus, next: BookingStatus, payments: seq<Payment>, p: nat, q: Payment,
                             tickets: seq<Ticket>, events: seq<Event>, added: seq<Event>)
    requires LogOf(b, status, payments, tickets, events)
    requires status.Expired? == next.Expired? && status.Cancelled? == next.Cancelled?
    requires p < |payments| && q.bookingId == payments[p].bookingId
    requires forall kind: EventKind :: Count(added, EventOf(b, kind)) == AddedFor(payments[p], q, b, kind)
    ensures LogOf(b, next, payments[p := q], tickets, events + added)
  {
    PaymentCountsMove(payments, p, q, b);
    forall kind: EventKind
      ensures Count(events + added, EventOf(b, kind)) == Count(events, EventOf(b, kind)) + AddedFor(payments[p], q, b, kind)
    {
      CountConcat(events, added, EventOf(b, kind));
    }
  }

  /** How many events of a kind the move of one payment row calls for, for booking `b`. */
  function AddedFor(p: Payment, q: Payment, b: nat, kind: EventKind): int {
    if b != q.bookingId then 0
    else if kind.PaymentConfirmed? then
      (if SettledOf(b)(q) then 1 else 0) - (if SettledOf(b)(p) then 1 else 0)
    else if kind.RefundCreated? || kind.RefundCompleted? then
      (if RefundedOf(b)(q) then 1 else 0) - (if RefundedOf(b)(p) then 1 else 0)
    else 0
  }

  /** The payment table's own invariant survives a move; only a success may need its booking confirmed. */
  lemma PaidFollowsMove(db: Db, next: seq<Booking>, p: nat, q: Payment)
    requires PaidOk(db.bookings, db.payments) && PaymentMoves(db, p, q)
    requires |next| == |db.bookings|
    requires forall b :: 0 <= b < |next| ==> BookingEvolves(db.bookings[b], next[b])
    requires forall b :: 0 <= b < |next| ==> next[b].status.Confirmed? ==>
      db.bookings[b].status.Confirmed? || (b == q.bookingId && IsSettled(q.status))
    requires IsSettled(q.status) ==> q.bookingId < |next| && !IsPayable(next[q.bookingId].status)
    requires forall b :: 0 <= b < |next| ==> IsPayable(next[b].status) ==> IsPayable(db.bookings[b].status)
    ensures PaidOk(next, db.payments[p := q])
  {
    var moved := db.payments[p := q];
    forall b | 0 <= b < |next| && next[b].status.Confirmed?
      ensures HasSettledPayment(moved, b)
    {
      if b == q.bookingId && IsSettled(q.status) {
        assert moved[p] == q;
      } else {
        var r :| 0 <= r < |db.payments| && db.payments[r].bookingId == b && IsSettled(db.payments[r].status);
        assert r == p ==> IsSettled(q.status);
        assert moved[r] == if r == p then q else db.payments[r];
      }
    }
  }

  lemma MoneyFollowsMove(db: Db, next: Db, p: nat, q: Payment)
    requires MoneyOk(db.bookings, db.seats, db.payments) && PaymentMoves(db, p, q)
    requires |next.bookings| == |db.bookings| && |next.seats| == |db.seats| && next.payments == db.payments[p := q]
    requires forall b :: 0 <= b < |db.bookings| ==> BookingEvolves(db.bookings[b], next.bookings[b])
    requires forall i :: 0 <= i < |db.seats| ==> SeatEvolves(db.seats[i], next.seats[i])
    ensures MoneyOk(next.bookings, next.seats, next.payments)
  {
    forall b | 0 <= b < |next.bookings|
      ensures next.bookings[b].total == next.bookings[b].unitPrice * Count(next.seats, SeatOf(b))
    {
      SameSeatCount(db.seats, next.seats, b);
    }
  }

  // ---------------------------------------------------------------- a failed payment

  lemma PaymentFailedKeepsLog(db: Db, p: nat, q: Payment)
    requires LogOk(db.bookings, db.payments, db.tickets, db.events) && PaymentMoves(db, p, q) && q.status.Failed?
    ensures LogOk(db.bookings, db.payments[p := q], db.tickets, db.events)
  {
    LogFollowsPayment(db.bookings, db.bookings, db.payments, p, q, db.tickets, db.events, []);
    assert db.events + [] == db.events;
  }

  lemma PaymentFailedEvolves(db: Db, p: nat, q: Payment)
    requires PaymentMoves(db, p, q) && KeysOk(db)
    ensures var next := db.(payments := db.payments[p := q]); Evolves(db, next) && KeysOk(next)
  {
  }

  lemma SurroundingsSame(db: Db, next: Db)
    requires SurroundingsOk(db) && next.trips == db.trips && next.memberships == db.memberships && next.bookings == db.bookings
    ensures SurroundingsOk(next)
  {
  }

  lemma PaymentFailedKeepsPaid(db: Db, p: nat, q: Payment)
    requires PaidOk(db.bookings, db.payments) && MoneyOk(db.bookings, db.seats, db.payments)
    requires PaymentMoves(db, p, q) && q.status.Failed?
    ensures PaidOk(db.bookings, db.payments[p := q]) && MoneyOk(db.bookings, db.seats, db.payments[p := q])
  {
    PaidFollowsMove(db, db.bookings, p, q);
    MoneyFollowsMove(db, db.(payments := db.payments[p := q]), p, q);
  }

  lemma PaymentFailedKeepsCore(db: Db, p: nat, q: Payment)
    requires Core(db) && PaymentMoves(db, p, q) && q.status.Failed?
    ensures var next := db.(payments := db.payments[p := q]); Core(next) && Evolves(db, next)
  {
    var next := db.(payments := db.payments[p := q]);
    PaymentFailedKeepsLog(db, p, q);
    PaymentFailedKeepsPaid(db, p, q);
    SurroundingsSame(db, next);
    PaymentFailedEvolves(db, p, q);
  }

  // ---------------------------------------------------------------- settling

  /** The tables settle leaves behind: the moved row, then SettleEffects. */
  function Settled(db: Db, p: nat, q: Payment, actor: Option<nat>): Db
    requires p < |db.payments| && q.bookingId < |db.bookings|
  {
    SettleEffects(db.(payments := db.payments[p := q]), q.bookingId, actor)
  }

  lemma {:induction false} CreateEligibleKeepsOk(commissions: seq<Commission>, ms: seq<Membership>, bookings: seq<Booking>, bookingId: nat)
    requires bookingId < |bookings| && CommissionsOk(bookings, commissions)
    requires forall m :: 0 <= m < |ms| ==> ms[m].commissionRate <= 10_000
    ensures var r := CreateEligible(commissions, ms, bookings[bookingId], bookingId);
      && commissions <= r
      && CommissionsOk(bookings, r)
  {
    if ms != [] {
      CreateEligibleKeepsOk(commissions, ms[..|ms| - 1], bookings, bookingId);
    }
  }

  /** The row is what one of the memberships earns on the booking. */
  ghost predicate EarnedBySome(ms: seq<Membership>, b: Booking, bookingId: nat, row: Commission) {
    exists m :: 0 <= m < |ms| && EarnsCommission(ms[m], b) && row == EarnedRow(ms[m], b, bookingId)
  }

  /** Every membership that earns on the booking has a row, and every added row is new and is one such membership's. */
  ghost predicate EligibleRows(commissions: seq<Commission>, ms: seq<Membership>, b: Booking, bookingId: nat, r: seq<Commission>) {
    && commissions <= r
    && (forall m :: 0 <= m < |ms| && EarnsCommission(ms[m], b) ==> CommissionExists(r, ms[m].id, bookingId))
    && (forall c :: |commissions| <= c < |r| ==>
          EarnedBySome(ms, b, bookingId, r[c]) && !CommissionExists(r[..c], r[c].membershipId, bookingId))
  }

  lemma EligibleStep(commissions: seq<Commission>, ms: seq<Membership>, last: Membership, b: Booking, bookingId: nat,
                     before: seq<Commission>, added: seq<Commission>)
    requires EligibleRows(commissions, ms, b, bookingId, before)
    requires added == if EarnsCommission(last, b) && !CommissionExists(before, last.id, bookingId) then [EarnedRow(last, b, bookingId)] else []
    ensures EligibleRows(commissions, ms + [last], b, bookingId, before + added)
  {
    var all, r := ms + [last], before + added;
    forall m | 0 <= m < |all| && EarnsCommission(all[m], b) ensures CommissionExists(r, all[m].id, bookingId) {
      if CommissionExists(before, all[m].id, bookingId) {
        var c :| 0 <= c < |before| && before[c].membershipId == all[m].id && before[c].bookingId == bookingId;
        assert r[c] == before[c];
      } else {
        assert r[|before|] == EarnedRow(last, b, bookingId);
      }
    }
    forall c | |commissions| <= c < |r|
      ensures EarnedBySome(all, b, bookingId, r[c]) && !CommissionExists(r[..c], r[c].membershipId, bookingId)
    {
      assert r[..c] == before[..c];
      if c < |before| {
        var m :| 0 <= m < |ms| && EarnsCommission(ms[m], b) && before[c] == EarnedRow(ms[m], b, bookingId);
        assert all[m] == ms[m];
      } else {
        assert all[|ms|] == last && before[..c] == before;
      }
    }
  }

  /** createEligible leaves exactly one row per membership that joins: none is forgotten, none invented, none repeated. */
  lemma {:induction false} CreateEligibleExact(commissions: seq<Commission>, ms: seq<Membership>, b: Booking, bookingId: nat)
    ensures EligibleRows(commissions, ms, b, bookingId, CreateEligible(commissions, ms, b, bookingId))
  {
    if ms != [] {
      var n := |ms| - 1;
      var before := CreateEligible(commissions, ms[..n], b, bookingId);
      CreateEligibleExact(commissions, ms[..n], b, bookingId);
      assert ms == ms[..n] + [ms[n]];
      EligibleStep(commissions, ms[..n], ms[n], b, bookingId, before,
        if EarnsCommission(ms[n], b) && !CommissionExists(before, ms[n].id, bookingId) then [EarnedRow(ms[n], b, bookingId)] else []);
      assert before + [] == before;
    }
  }

  /** What settling does to the booking and seat rows, spelled out. */
  lemma SettledRows(db: Db, p: nat, q: Payment, actor: Option<nat>)
    requires p < |db.payments| && q.bookingId < |db.bookings|
    ensures var next := Settled(db, p, q, actor);
      && next.payments == db.payments[p := q]
      && next.tickets == db.tickets && next.trips == db.trips && next.memberships == db.memberships
      && next.passengers == db.passengers && next.records == db.records
      && next.events == db.events + [Event(q.bookingId, db.bookings[q.bookingId].companyId, actor, EventKind.PaymentConfirmed)]
      && |next.bookings| == |db.bookings| && |next.seats| == |db.seats|
      && (forall b :: 0 <= b < |db.bookings| ==>
            next.bookings[b] == if b == q.bookingId && IsPayable(db.bookings[b].status)
               then MoveBooking(db.bookings[b], BookingStatus.Confirmed) else db.bookings[b])
      && (forall i :: 0 <= i < |db.seats| ==>
            next.seats[i] == if db.seats[i].bookingId == q.bookingId && db.seats[i].status.Held? && IsPayable(db.bookings[q.bookingId].status)
               then db.seats[i].(status := SeatStatus.Confirmed) else db.seats[i])
      && next.commissions == CreateEligible(db.commissions, db.memberships, next.bookings[q.bookingId], q.bookingId)
  {
  }

  lemma SettledEventCounts(p: Payment, q: Payment, e: Event)
    requires e.bookingId == q.bookingId == p.bookingId && e.kind.PaymentConfirmed?
    requires q.status.Succeeded? && !p.status.Succeeded? && !p.status.Refunded?
    ensures forall b: nat, kind: EventKind :: Count([e], EventOf(b, kind)) == AddedFor(p, q, b, kind)
  {
    forall b: nat, kind: EventKind
      ensures Count([e], EventOf(b, kind)) == AddedFor(p, q, b, kind)
    {
      CountPush([], e, EventOf(b, kind));
      assert [] + [e] == [e];
    }
  }

  lemma SettledKeepsLog(db: Db, p: nat, q: Payment, actor: Option<nat>)
    requires LogOk(db.bookings, db.payments, db.tickets, db.events)
    requires PaymentMoves(db, p, q) && q.status.Succeeded? && q.bookingId < |db.bookings|
    ensures var next := Settled(db, p, q, actor); LogOk(next.bookings, next.payments, next.tickets, next.events)
  {
    SettledRows(db, p, q, actor);
    var next := Settled(db, p, q, actor);
    var e := Event(q.bookingId, db.bookings[q.bookingId].companyId, actor, EventKind.PaymentConfirmed);
    SettledEventCounts(db.payments[p], q, e);
    LogFollowsPayment(db.bookings, next.bookings, db.payments, p, q, db.tickets, db.events, [e]);
  }

  lemma SettledKeepsMoney(db: Db, p: nat, q: Payment, actor: Option<nat>)
    requires MoneyOk(db.bookings, db.seats, db.payments)
    requires PaymentMoves(db, p, q) && q.bookingId < |db.bookings|
    ensures var next := Settled(db, p, q, actor); MoneyOk(next.bookings, next.seats, next.payments)
  {
    SettledRows(db, p, q, actor);
    MoneyFollowsMove(db, Settled(db, p, q, actor), p, q);
  }

  lemma SettledKeepsPaid(db: Db, p: nat, q: Payment, actor: Option<nat>)
    requires PaidOk(db.bookings, db.payments)
    requires PaymentMoves(db, p, q) && q.status.Succeeded? && q.bookingId < |db.bookings|
    ensures var next := Settled(db, p, q, actor); PaidOk(next.bookings, next.payments)
  {
    SettledRows(db, p, q, actor);
    PaidFollowsMove(db, Settled(db, p, q, actor).bookings, p, q);
  }

  lemma SettledKeepsKeys(db: Db, p: nat, q: Payment, actor: Option<nat>)
    requires KeysOk(db) && SurroundingsOk(db)
    requires PaymentMoves(db, p, q) && q.bookingId < |db.bookings|
    requires CommissionsOk(Settled(db, p, q, actor).bookings, Settled(db, p, q, actor).commissions)
    ensures KeysOk(Settled(db, p, q, actor)) && SurroundingsOk(Settled(db, p, q, actor))
  {
    SettledRows(db, p, q, actor);
  }

  lemma SettledKeepsSeats(db: Db, p: nat, q: Payment, actor: Option<nat>)
    requires SeatsFollowBookings(db.bookings, db.seats) && SeatsUnique(db.seats)
    requires PaymentMoves(db, p, q) && q.bookingId < |db.bookings|
    ensures var next := Settled(db, p, q, actor);
      SeatsFollowBookings(next.bookings, next.seats) && SeatsUnique(next.seats)
  {
    SettledRows(db, p, q, actor);
  }

  lemma SettledKeepsCommissions(db: Db, p: nat, q: Payment, actor: Option<nat>)
    requires SurroundingsOk(db) && CommissionsOk(db.bookings, db.commissions)
    requires PaymentMoves(db, p, q) && q.bookingId < |db.bookings|
    ensures var next := Settled(db, p, q, actor);
      CommissionsOk(next.bookings, next.commissions) && db.commissions <= next.commissions
  {
    SettledRows(db, p, q, actor);
    var next := Settled(db, p, q, actor);
    assert CommissionsOk(next.bookings, db.commissions);
    CreateEligibleKeepsOk(db.commissions, db.memberships, next.bookings, q.bookingId);
  }

  lemma SettledKeepsTickets(db: Db, p: nat, q: Payment, actor: Option<nat>)
    requires SeatsFollowBookings(db.bookings, db.seats)
    requires KeysOk(db) && TicketsOk(db.bookings, db.seats, db.tickets)
    requires PaymentMoves(db, p, q) && q.bookingId < |db.bookings|
    ensures var next := Settled(db, p, q, actor); TicketsOk(next.bookings, next.seats, next.tickets)
  {
    SettledRows(db, p, q, actor);
  }

  lemma SettledEvolves(db: Db, p: nat, q: Payment, actor: Option<nat>)
    requires PaymentMoves(db, p, q) && q.bookingId < |db.bookings|
    requires db.commissions <= Settled(db, p, q, actor).commissions
    ensures Evolves(db, Settled(db, p, q, actor))
  {
    SettledRows(db, p, q, actor);
  }

  lemma SettledKeepsCore(db: Db, p: nat, q: Payment, actor: Option<nat>)
    requires Core(db) && PaymentMoves(db, p, q) && q.status.Succeeded? && q.bookingId < |db.bookings|
    ensures Core(Settled(db, p, q, actor)) && Evolves(db, Settled(db, p, q, actor))
  {
    SettledKeepsLog(db, p, q, actor);
    SettledKeepsMoney(db, p, q, actor);
    SettledKeepsPaid(db, p, q, actor);
    SettledKeepsSeats(db, p, q, actor);
    SettledKeepsCommissions(db, p, q, actor);
    SettledKeepsKeys(db, p, q, actor);
    SettledKeepsTickets(db, p, q, actor);
    SettledEvolves(db, p, q, actor);
  }

  // ---------------------------------------------------------------- refunding

  /** In every good state a refund leaves the commissions alone: a booking that has one is CONFIRMED. */
  lemma RefundLeavesCommissions(db: Db, bookingId: nat)
    requires CommissionsOk(db.bookings, db.commissions)
    ensures ApplyFullRefund(db, bookingId) == db
  {
    if RefundCancelsCommission(db, bookingId) {
      assert CancelCommissions(db.commissions, bookingId) == db.commissions;
    }
  }

  lemma RefundEventCounts(p: Payment, q: Payment, first: Event, second: Event)
    requires first.bookingId == second.bookingId == q.bookingId == p.bookingId
    requires first.kind.RefundCreated? && second.kind.RefundCompleted?
    requires q.status.Refunded? && p.status.Succeeded?
    ensures forall b: nat, kind: EventKind :: Count([first, second], EventOf(b, kind)) == AddedFor(p, q, b, kind)
  {
    forall b: nat, kind: EventKind
      ensures Count([first, second], EventOf(b, kind)) == AddedFor(p, q, b, kind)
    {
      CountPush([], first, EventOf(b, kind));
      CountPush([first], second, EventOf(b, kind));
      assert [] + [first] == [first] && [first] + [second] == [first, second];
    }
  }

  lemma RefundKeepsLog(db: Db, p: nat, q: Payment, actor: nat)
    requires LogOk(db.bookings, db.payments, db.tickets, db.events)
    requires PaymentMoves(db, p, q) && q.status.Refunded? && q.bookingId < |db.bookings|
    requires CommissionsOk(db.bookings, db.commissions)
    ensures var next := RefundEffects(db, db.payments[p := q], q.bookingId, actor);
      LogOk(next.bookings, next.payments, next.tickets, next.events)
  {
    RefundLeavesCommissions(db.(payments := db.payments[p := q]), q.bookingId);
    var next := RefundEffects(db, db.payments[p := q], q.bookingId, actor);
    var first, second := next.events[|db.events|], next.events[|db.events| + 1];
    RefundEventCounts(db.payments[p], q, first, second);
    assert next.events == db.events + [first, second];
    LogFollowsPayment(db.bookings, next.bookings, db.payments, p, q, db.tickets, db.events, [first, second]);
  }

  lemma RefundEvolves(db: Db, p: nat, q: Payment, actor: nat)
    requires PaymentMoves(db, p, q) && q.bookingId < |db.bookings|
    requires CommissionsOk(db.bookings, db.commissions) && KeysOk(db)
    ensures var next := RefundEffects(db, db.payments[p := q], q.bookingId, actor);
      && Evolves(db, next) && KeysOk(next)
      && next == db.(payments := db.payments[p := q], events := next.events)
  {
    RefundLeavesCommissions(db.(payments := db.payments[p := q]), q.bookingId);
  }

  lemma RefundKeepsPaid(db: Db, p: nat, q: Payment, actor: nat)
    requires PaymentMoves(db, p, q) && q.status.Refunded? && q.bookingId < |db.bookings|
    requires CommissionsOk(db.bookings, db.commissions) && KeysOk(db)
    requires PaidOk(db.bookings, db.payments) && MoneyOk(db.bookings, db.seats, db.payments)
    requires db.payments[p].status.Succeeded?
    ensures var next := RefundEffects(db, db.payments[p := q], q.bookingId, actor);
      PaidOk(next.bookings, next.payments) && MoneyOk(next.bookings, next.seats, next.payments)
  {
    var next := RefundEffects(db, db.payments[p := q], q.bookingId, actor);
    RefundEvolves(db, p, q, actor);
    PaidFollowsMove(db, db.bookings, p, q);
    MoneyFollowsMove(db, next, p, q);
  }

  lemma RefundKeepsCore(db: Db, p: nat, q: Payment, actor: nat)
    requires Core(db) && PaymentMoves(db, p, q) && q.status.Refunded? && db.payments[p].status.Succeeded?
    ensures var next := RefundEffects(db, db.payments[p := q], q.bookingId, actor); Core(next) && Evolves(db, next)
  {
    RefundKeepsLog(db, p, q, actor);
    RefundEvolves(db, p, q, actor);
    RefundKeepsPaid(db, p, q, actor);
  }
}
