/** Raw ticket tokens over whole runs: every issued ticket's token is handed out once, by the call that made it. */
module TicketRuns {
  import opened Wrappers
  import opened Counting
  import opened Identity
  import opened Tables
  import opened Reservation
  import opened TicketProofs
  import opened RunProofs

  /** How often one answer hands out the raw token of ticket `t`. */
  function TokensIn(answer: Answer, t: nat): nat {
    if answer.Tickets? then Count(answer.list, TokenOf(t)) else 0
  }

  /** How often the answers of a whole run hand out the raw token of ticket `t`. */
  ghost function TokensHanded(db: Db, calls: seq<Timed>, t: nat): nat {
    if calls == [] then 0
    else
      var n := |calls| - 1;
      TokensHanded(db, calls[..n], t) + TokensIn(Execute(Run(db, calls[..n]), calls[n].call, calls[n].at).1, t)
  }

  /** Ticket ids `from..to` were created between two states. */
  predicate CreatedBetween(t: nat, from: Db, to: Db) {
    |from.tickets| <= t < |to.tickets|
  }

  lemma IssueHandsOutNewTokens(db: Db, bookingId: nat, drafts: nat -> TicketDraft, now: Instant, t: nat)
    requires bookingId < |db.bookings| && Issue(db, bookingId, drafts, now).Success?
    ensures var (next, list) := Issue(db, bookingId, drafts, now).value;
      && |db.tickets| <= |next.tickets|
      && Count(list, TokenOf(t)) == if CreatedBetween(t, db, next) then 1 else 0
  {
    var seatIds := IssuableSeats(db, bookingId, |db.seats|);
    IssueSeatsAppends(db, bookingId, seatIds, drafts, now);
    var issued := IssueSeats(db, bookingId, seatIds, drafts, now);
    TokenCount(issued.tickets, bookingId, issued.raw, t);
  }

  lemma SettlementsMakeNoTickets(db: Db, call: Call, now: Instant)
    requires call.ConfirmCash? || call.RefundPayment? || call.HandleWebhook?
    ensures Execute(db, call, now).0.tickets == db.tickets
  {
    match call
    case ConfirmCash(actor, companyId, p) =>
      if ConfirmCashTx(db, actor, companyId, p, now).Success? { ConfirmCashLeavesAlone(db, actor, companyId, p, now); }
    case RefundPayment(actor, companyId, p) =>
      if RefundPaymentTx(db, actor, companyId, p).Success? { RefundLeavesAlone(db, actor, companyId, p); }
    case HandleWebhook(e) =>
      if HandleWebhookTx(db, e, now).Success? { WebhookLeavesAlone(db, e, now); }
  }

  lemma GateMakesNoTickets(db: Db, call: Call, now: Instant)
    requires call.ValidateTicket? || call.RevokeTicket?
    ensures |Execute(db, call, now).0.tickets| == |db.tickets|
  {
  }

  lemma ClosingsMakeNoTickets(db: Db, call: Call, now: Instant)
    requires call.ChangeSurroundings? || call.CancelOwned? || call.CancelCompany? || call.ExpireBookings?
    ensures Execute(db, call, now).0.tickets == db.tickets
  {
  }

  lemma OnlyIssuesAnswerTickets(db: Db, call: Call, now: Instant)
    requires !call.IssueForOwner? && !call.IssueForCompany?
    ensures !Execute(db, call, now).1.Tickets?
  {
  }

  lemma OtherCallsMakeNoTickets(db: Db, call: Call, now: Instant)
    requires !call.IssueForOwner? && !call.IssueForCompany?
    ensures |Execute(db, call, now).0.tickets| == |db.tickets|
  {
    if call.CreateForPassenger? || call.CreateForAgent? {
      CreatesMakeNoTickets(db, call, now);
    } else if call.PayAsPassenger? || call.PayAsCompany? {
      PaymentsMakeNoTickets(db, call, now);
    } else if call.ConfirmCash? || call.RefundPayment? || call.HandleWebhook? {
      SettlementsMakeNoTickets(db, call, now);
    } else if call.ValidateTicket? || call.RevokeTicket? {
      GateMakesNoTickets(db, call, now);
    } else {
      ClosingsMakeNoTickets(db, call, now);
    }
  }

  lemma {:induction false} RetryKeepsTickets(db: Db, tripId: nat, companyId: nat, branchId: Option<nat>, actor: nat, channel: Channel,
                                             count: nat, references: seq<string>, attempt: nat, now: Instant)
    ensures var r := InsertWithRetry(db, tripId, companyId, branchId, actor, channel, count, references, attempt, now);
      r.Success? ==> r.value.tickets == db.tickets
    decreases |references| - attempt
  {
    if attempt < |references| {
      RetryKeepsTickets(db, tripId, companyId, branchId, actor, channel, count, references, attempt + 1, now);
    }
  }

  lemma {:induction false} SeatingKeepsTickets(db: Db, tripId: nat, bookingId: nat, ps: seq<PassengerInput>)
    requires bookingId < |db.bookings|
    ensures var r := InsertPassengers(db, tripId, bookingId, ps); r.Success? ==> r.value.tickets == db.tickets
  {
    if ps != [] {
      SeatingKeepsTickets(db, tripId, bookingId, ps[..|ps| - 1]);
    }
  }

  lemma HoldMakesNoTickets(db: Db, tripId: nat, companyId: nat, branchId: Option<nat>, actor: nat, channel: Channel,
                           ps: seq<PassengerInput>, references: References, now: Instant)
    ensures var r := CreateHold(db, tripId, companyId, branchId, actor, channel, ps, references, now);
      r.Success? ==> r.value.tickets == db.tickets
  {
    var swept := Sweep(db, companyId, Some(tripId), now);
    RetryKeepsTickets(swept, tripId, companyId, branchId, actor, channel, |ps|, references, 0, now);
    var booked := InsertWithRetry(swept, tripId, companyId, branchId, actor, channel, |ps|, references, 0, now);
    if booked.Success? && |booked.value.bookings| > 0 {
      SeatingKeepsTickets(booked.value, tripId, |booked.value.bookings| - 1, ps);
    }
  }

  lemma PassengerCreateMakesNoTickets(db: Db, actor: nat, text: string, input: BookingInput, refs: References, now: Instant)
    requires CreatePassengerBookingTx(db, actor, text, input, refs, now).Success?
    ensures CreatePassengerBookingTx(db, actor, text, input, refs, now).value.0.tickets == db.tickets
  {
    PassengerCreateShape(db, actor, text, input, refs, now);
    var companyId := db.trips[input.tripId].companyId;
    var key := Key(companyId, actor, Operation.CreatePassengerBooking, text);
    HoldMakesNoTickets(ClaimedDb(db, key, PassengerBooking(input), now), input.tripId, companyId, None, actor, Channel.Web,
                       input.passengers, refs, now);
  }

  lemma AgentCreateMakesNoTickets(db: Db, actor: nat, companyId: nat, branchId: nat, text: string, input: BookingInput, refs: References, now: Instant)
    requires CreateAgentBookingTx(db, actor, companyId, branchId, text, input, refs, now).Success?
    ensures CreateAgentBookingTx(db, actor, companyId, branchId, text, input, refs, now).value.0.tickets == db.tickets
  {
    AgentCreateShape(db, actor, companyId, branchId, text, input, refs, now);
    var key := Key(companyId, actor, Operation.CreateAgentBooking, text);
    HoldMakesNoTickets(ClaimedDb(db, key, AgentBooking(companyId, branchId, input), now), input.tripId, companyId, Some(branchId),
                       actor, Channel.AgentDesk, input.passengers, refs, now);
  }

  lemma CreatesMakeNoTickets(db: Db, call: Call, now: Instant)
    requires call.CreateForPassenger? || call.CreateForAgent?
    ensures Execute(db, call, now).0.tickets == db.tickets
  {
    match call
    case CreateForPassenger(actor, text, input, refs) =>
      if CreatePassengerBookingTx(db, actor, text, input, refs, now).Success? {
        PassengerCreateMakesNoTickets(db, actor, text, input, refs, now);
      }
    case CreateForAgent(actor, companyId, branchId, text, input, refs) =>
      if CreateAgentBookingTx(db, actor, companyId, branchId, text, input, refs, now).Success? {
        AgentCreateMakesNoTickets(db, actor, companyId, branchId, text, input, refs, now);
      }
  }

  lemma {:induction false} PaymentRetryKeepsTickets(db: Db, bookingId: nat, tender: PaymentMethod, references: seq<string>,
                                                    attempt: nat, now: Instant)
    ensures var r := InsertPaymentWithRetry(db, bookingId, tender, references, attempt, now);
      r.Some? ==> r.value.tickets == db.tickets
    decreases |references| - attempt
  {
    if attempt < |references| {
      PaymentRetryKeepsTickets(db, bookingId, tender, references, attempt + 1, now);
    }
  }

  lemma ClaimedPaymentMakesNoTickets(db: Db, actor: nat, key: Key, fingerprint: Fingerprint, bookingId: nat, tender: PaymentMethod,
                                     references: References, providerReference: string, now: Instant)
    requires bookingId < |db.bookings|
    ensures var r := CreateClaimedPayment(db, actor, key, fingerprint, bookingId, tender, references, providerReference, now);
      r.Success? ==> r.value.0.tickets == db.tickets
  {
    var claim := ClaimIdempotency(db, key, fingerprint, now);
    if claim.Claimed? {
      PaymentRetryKeepsTickets(claim.db, bookingId, tender, references, 0, now);
    }
  }

  lemma PaymentsMakeNoTickets(db: Db, call: Call, now: Instant)
    requires call.PayAsPassenger? || call.PayAsCompany?
    ensures Execute(db, call, now).0.tickets == db.tickets
  {
    match call
    case PayAsPassenger(actor, text, bookingId, tender, refs, ref) =>
      if CreatePassengerPaymentTx(db, actor, text, bookingId, tender, refs, ref, now).Success? {
        PassengerPaymentShape(db, actor, text, bookingId, tender, refs, ref, now);
        ClaimedPaymentMakesNoTickets(db, actor, Key(db.bookings[bookingId].companyId, actor, Operation.CreatePayment, text),
          OwnerPayment(actor, bookingId, tender), bookingId, tender, refs, ref, now);
      }
    case PayAsCompany(actor, companyId, text, bookingId, tender, refs, ref) =>
      if CreateCompanyPaymentTx(db, actor, companyId, text, bookingId, tender, refs, ref, now).Success? {
        CompanyPaymentShape(db, actor, companyId, text, bookingId, tender, refs, ref, now);
        ClaimedPaymentMakesNoTickets(db, actor, Key(companyId, actor, Operation.CreatePayment, text),
          CompanyPayment(actor, companyId, bookingId, tender), bookingId, tender, refs, ref, now);
      }
  }

  lemma OwnerIssueHandsOut(db: Db, actor: nat, bookingId: nat, drafts: nat -> TicketDraft, now: Instant, t: nat)
    ensures var (next, answer) := CommittedTickets(db, IssueForOwnerTx(db, actor, bookingId, drafts, now));
      && |db.tickets| <= |next.tickets|
      && TokensIn(answer, t) == if CreatedBetween(t, db, next) then 1 else 0
  {
    if IssueForOwnerTx(db, actor, bookingId, drafts, now).Success? {
      IssueHandsOutNewTokens(db, bookingId, drafts, now, t);
    }
  }

  lemma CompanyIssueHandsOut(db: Db, actor: nat, companyId: nat, bookingId: nat, drafts: nat -> TicketDraft, now: Instant, t: nat)
    ensures var (next, answer) := CommittedTickets(db, IssueForCompanyTx(db, actor, companyId, bookingId, drafts, now));
      && |db.tickets| <= |next.tickets|
      && TokensIn(answer, t) == if CreatedBetween(t, db, next) then 1 else 0
  {
    if IssueForCompanyTx(db, actor, companyId, bookingId, drafts, now).Success? {
      IssueHandsOutNewTokens(db, bookingId, drafts, now, t);
    }
  }

  /** One call hands out a token exactly for the tickets it makes, and no call ever removes a ticket. */
  lemma CallHandsOutNewTokens(db: Db, call: Call, now: Instant, t: nat)
    ensures var (next, answer) := Execute(db, call, now);
      && |db.tickets| <= |next.tickets|
      && TokensIn(answer, t) == if CreatedBetween(t, db, next) then 1 else 0
  {
    match call
    case IssueForOwner(actor, bookingId, drafts) => OwnerIssueHandsOut(db, actor, bookingId, drafts, now, t);
    case IssueForCompany(actor, companyId, bookingId, drafts) => CompanyIssueHandsOut(db, actor, companyId, bookingId, drafts, now, t);
    case _ =>
      OtherCallsMakeNoTickets(db, call, now);
      OnlyIssuesAnswerTickets(db, call, now);
  }

  /** Over any run at all, each ticket made in it has its raw token returned exactly once; no other token ever is. */
  lemma {:induction false} EachTokenHandedOutOnce(db: Db, calls: seq<Timed>, t: nat)
    ensures |db.tickets| <= |Run(db, calls).tickets|
    ensures TokensHanded(db, calls, t) == if CreatedBetween(t, db, Run(db, calls)) then 1 else 0
  {
    if calls != [] {
      var n := |calls| - 1;
      EachTokenHandedOutOnce(db, calls[..n], t);
      CallHandsOutNewTokens(Run(db, calls[..n]), calls[n].call, calls[n].at, t);
    }
  }
}
