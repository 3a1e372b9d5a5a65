/**
 * What each ticket call does, row by row, and exactly when it succeeds: issuing, validating, verifying and revoking, in
 * plain terms of stamps, statuses and rows.
 */
module TicketOutcomes {
  import opened Wrappers
  import opened Counting
  import opened Identity
  import opened Tables
  import opened Reservation
  import opened Invariants
  import opened HoldProofs
  import opened TicketProofs
  import opened RunProofs
  import opened Authorization
  import opened BookingOutcomes

  ghost predicate PaidFor(payments: seq<Payment>, bookingId: nat) {
    exists p :: 0 <= p < |payments| && payments[p].bookingId == bookingId && payments[p].status == PaymentStatus.Succeeded
  }

  ghost predicate MayOnTicket(db: Db, actor: nat, companyId: nat, permission: Permission, t: nat) {
    t < |db.tickets| && MayActOn(db, actor, companyId, permission, db.tickets[t].bookingId)
  }

  // ---------------------------------------------------------------- at the gate

  /** Neither used nor revoked, and its booking confirmed and paid. */
  ghost predicate Valid(db: Db, t: nat)
    requires t < |db.tickets| && db.tickets[t].bookingId < |db.bookings|
  {
    && db.tickets[t].checkedInAt == None && db.tickets[t].cancelledAt == None
    && db.bookings[db.tickets[t].bookingId].status == BookingStatus.Confirmed && PaidFor(db.payments, db.tickets[t].bookingId)
  }

  /** Ticket and seat are stamped together, and logged. */
  ghost predicate CheckedInAt(db: Db, t: nat, actor: nat, now: Instant, next: Db)
    requires t < |db.tickets| && db.tickets[t].bookingId < |db.bookings| && db.tickets[t].seatId < |db.seats|
  {
    var ticket, seat := db.tickets[t], db.seats[db.tickets[t].seatId];
    && next == db.(tickets := next.tickets, seats := next.seats, events := next.events)
    && next.tickets == db.tickets[t := Ticket(ticket.bookingId, ticket.passengerId, ticket.seatId, ticket.number, ticket.tokenHash,
                                              ticket.issuedAt, Some(now), None)]
    && next.seats == db.seats[ticket.seatId := Seat(seat.tripId, seat.bookingId, seat.passengerId, seat.seatNumber, SeatStatus.CheckedIn, seat.heldUntil)]
    && next.events == db.events + [Event(ticket.bookingId, db.bookings[ticket.bookingId].companyId, Some(actor), EventKind.CheckedIn)]
  }

  lemma ReachableTickets(db: Db)
    requires Reachable(db)
    ensures KeysOk(db) && SeatsFollowBookings(db.bookings, db.seats) && TicketsOk(db.bookings, db.seats, db.tickets)
  {
    ReachableIsGood(db);
  }

  lemma ValidateIs(db: Db, actor: nat, companyId: nat, t: nat, now: Instant)
    requires KeysOk(db) && SeatsFollowBookings(db.bookings, db.seats) && TicketsOk(db.bookings, db.seats, db.tickets)
    ensures var r, may := ValidateTicketTx(db, actor, companyId, t, now), MayOnTicket(db, actor, companyId, TicketsValidate, t);
      && (r.Success? <==> may && Valid(db, t))
      && (r.Success? ==> CheckedInAt(db, t, actor, now, r.value))
      && (r.Failure? ==> r.error == if may then TicketNotValidatable else TicketNotFound)
  {
    if t < |db.tickets| {
      FoundMeansMayAct(db, actor, companyId, TicketsValidate, db.tickets[t].bookingId);
    }
  }

  /** In any reachable state, a ticket passes the gate exactly when it is valid and the actor may validate it there. */
  lemma ValidateOutcome(db: Db, actor: nat, companyId: nat, t: nat, now: Instant)
    requires Reachable(db)
    ensures t < |db.tickets| ==> db.tickets[t].bookingId < |db.bookings| && db.tickets[t].seatId < |db.seats|
    ensures var r, may := ValidateTicketTx(db, actor, companyId, t, now), MayOnTicket(db, actor, companyId, TicketsValidate, t);
      && (r.Success? <==> may && Valid(db, t))
      && (r.Success? ==> CheckedInAt(db, t, actor, now, r.value))
      && (r.Failure? ==> r.error == if may then TicketNotValidatable else TicketNotFound)
  {
    ReachableTickets(db);
    ValidateIs(db, actor, companyId, t, now);
  }

  /** Why a ticket is not valid: the first of these that applies. */
  ghost function Reason(db: Db, t: nat): Option<InvalidReason>
    requires t < |db.tickets| && db.tickets[t].bookingId < |db.bookings|
  {
    if db.tickets[t].cancelledAt != None then Some(Revoked)
    else if db.tickets[t].checkedInAt != None then Some(AlreadyUsed)
    else if db.bookings[db.tickets[t].bookingId].status != BookingStatus.Confirmed then Some(BookingNotConfirmed)
    else if !PaidFor(db.payments, db.tickets[t].bookingId) then Some(NotPaid)
    else None
  }

  lemma {:induction false} HashFinds(tickets: seq<Ticket>, hash: string, t: nat)
    requires t < |tickets| && tickets[t].tokenHash == hash
    requires forall u :: 0 <= u < |tickets| && u != t ==> tickets[u].tokenHash != hash
    ensures FindTicketByHash(tickets, hash) == Some(t)
  {
    var n := |tickets| - 1;
    if t < n { HashFinds(tickets[..n], hash, t); }
  }

  lemma HashesDiffer(db: Db, t: nat)
    requires TicketsOk(db.bookings, db.seats, db.tickets) && t < |db.tickets|
    ensures forall u :: 0 <= u < |db.tickets| && u != t ==> db.tickets[u].tokenHash != db.tickets[t].tokenHash
  {
    forall u | 0 <= u < |db.tickets| && u != t ensures db.tickets[u].tokenHash != db.tickets[t].tokenHash {
      if u < t { assert !SameTicket(db.tickets[u], db.tickets[t]); } else { assert !SameTicket(db.tickets[t], db.tickets[u]); }
    }
  }

  lemma WhyInvalidIs(db: Db, t: nat)
    requires t < |db.tickets| && db.tickets[t].bookingId < |db.bookings|
    ensures WhyInvalid(db.tickets[t], db.bookings[db.tickets[t].bookingId].status, IsPaid(db.payments, db.tickets[t].bookingId)) == Reason(db, t)
  {
    PaidMeansPaidFor(db.payments, db.tickets[t].bookingId);
  }

  lemma VerifyIs(db: Db, actor: nat, companyId: nat, t: nat)
    requires t < |db.tickets| && db.tickets[t].bookingId < |db.bookings|
    requires FindTicketByHash(db.tickets, db.tickets[t].tokenHash) == Some(t)
    ensures VerifyTicket(db, actor, companyId, db.tickets[t].tokenHash)
         == if MayOnTicket(db, actor, companyId, TicketsValidate, t) then Success((t, Reason(db, t))) else Failure(TicketNotFound)
  {
    FoundMeansMayAct(db, actor, companyId, TicketsValidate, db.tickets[t].bookingId);
    WhyInvalidIs(db, t);
  }

  /** Verifying the token of a ticket names that very ticket and the first reason it would be refused, to those who may validate it. */
  lemma VerifyOutcome(db: Db, actor: nat, companyId: nat, t: nat)
    requires Reachable(db) && t < |db.tickets|
    ensures db.tickets[t].bookingId < |db.bookings|
    ensures VerifyTicket(db, actor, companyId, db.tickets[t].tokenHash)
         == if MayOnTicket(db, actor, companyId, TicketsValidate, t) then Success((t, Reason(db, t))) else Failure(TicketNotFound)
  {
    ReachableTickets(db);
    HashesDiffer(db, t);
    HashFinds(db.tickets, db.tickets[t].tokenHash, t);
    VerifyIs(db, actor, companyId, t);
  }

  // ---------------------------------------------------------------- revoking

  /** A ticket is revoked exactly when it is neither used nor revoked and the actor may; only its stamp changes. */
  lemma RevokeOutcome(db: Db, actor: nat, companyId: nat, t: nat, now: Instant)
    ensures var r, may := RevokeTicketTx(db, actor, companyId, t, now), MayOnTicket(db, actor, companyId, TicketsIssue, t);
      && (r.Success? <==> may && db.tickets[t].checkedInAt == None && db.tickets[t].cancelledAt == None)
      && (r.Success? ==>
            r.value == db.(tickets := db.tickets[t := Ticket(db.tickets[t].bookingId, db.tickets[t].passengerId, db.tickets[t].seatId,
                                                             db.tickets[t].number, db.tickets[t].tokenHash, db.tickets[t].issuedAt, None, Some(now))]))
      && (r.Failure? ==> r.error == if may then TicketNotValidatable else TicketNotFound)
  {
    if t < |db.tickets| {
      FoundMeansMayAct(db, actor, companyId, TicketsIssue, db.tickets[t].bookingId);
    }
  }

  // ---------------------------------------------------------------- issuing

  predicate Repeats(t: Ticket, draft: TicketDraft) {
    t.number == draft.number || t.tokenHash == draft.hash
  }

  /** Some existing ticket has the number or the hash. */
  predicate Clashes(tickets: seq<Ticket>, draft: TicketDraft) {
    exists t :: 0 <= t < |tickets| && Repeats(tickets[t], draft)
  }

  predicate ConflictAt(t: Ticket, bookingId: nat, passengerId: nat, seatId: nat, draft: TicketDraft) {
    t.seatId == seatId || Repeats(t, draft) || (t.bookingId == bookingId && t.passengerId == passengerId)
  }

  /** On an unticketed seat nothing but the draft itself can conflict. */
  lemma ConflictMeansClash(db: Db, seatIds: seq<nat>, k: nat, bookingId: nat, draft: TicketDraft)
    requires LoopInput(db, seatIds) && k < |seatIds|
    ensures TicketConflicts(db.tickets, bookingId, db.seats[seatIds[k]].passengerId, seatIds[k], draft) <==> Clashes(db.tickets, draft)
  {
    if Clashes(db.tickets, draft) {
      var t :| 0 <= t < |db.tickets| && Repeats(db.tickets[t], draft);
    }
    if t :| 0 <= t < |db.tickets| && ConflictAt(db.tickets[t], bookingId, db.seats[seatIds[k]].passengerId, seatIds[k], draft) {
      assert !SeatTicketed(db.tickets, seatIds[k]) && db.tickets[t].seatId != seatIds[k];
      assert Repeats(db.tickets[t], draft);
    }
  }

  /** The loop adds no ticket at all exactly when every draft clashes with an existing ticket. */
  lemma {:induction false} NothingIssuedIff(db: Db, bookingId: nat, seatIds: seq<nat>, drafts: nat -> TicketDraft, now: Instant)
    requires LoopInput(db, seatIds)
    ensures IssueSeats(db, bookingId, seatIds, drafts, now).tickets == db.tickets
       <==> forall k: nat :: k < |seatIds| ==> Clashes(db.tickets, drafts(k))
  {
    if seatIds != [] {
      var n := |seatIds| - 1;
      LoopInputPrefix(db, seatIds);
      NothingIssuedIff(db, bookingId, seatIds[..n], drafts, now);
      IssueSeatsAppends(db, bookingId, seatIds[..n], drafts, now);
      var before := IssueSeats(db, bookingId, seatIds[..n], drafts, now);
      if before.tickets == db.tickets {
        ConflictMeansClash(db, seatIds, n, bookingId, drafts(n));
        assert db.(tickets := before.tickets) == db;
      } else {
        LongerStaysLonger(db, before, seatIds[n], bookingId, drafts(n), now);
      }
      assert (forall k: nat :: k < n + 1 ==> Clashes(db.tickets, drafts(k)))
        <==> (forall k: nat :: k < n ==> Clashes(db.tickets, drafts(k))) && Clashes(db.tickets, drafts(n));
    }
  }

  lemma LongerStaysLonger(db: Db, before: Issuance, seatId: nat, bookingId: nat, draft: TicketDraft, now: Instant)
    requires db.tickets <= before.tickets && before.tickets != db.tickets && seatId < |db.seats|
    ensures |InsertTicket(db.(tickets := before.tickets), bookingId, seatId, draft, now)| > |db.tickets|
  {
  }

  ghost predicate HasTicket(tickets: seq<Ticket>, bookingId: nat) {
    exists t :: 0 <= t < |tickets| && tickets[t].bookingId == bookingId
  }

  lemma {:induction false} ListIsEmptyIff(tickets: seq<Ticket>, bookingId: nat, raw: map<nat, string>)
    ensures ListTickets(tickets, bookingId, raw) == [] <==> !HasTicket(tickets, bookingId)
  {
    if tickets != [] {
      var n := |tickets| - 1;
      ListIsEmptyIff(tickets[..n], bookingId, raw);
      if HasTicket(tickets[..n], bookingId) {
        var t :| 0 <= t < n && tickets[..n][t].bookingId == bookingId;
        assert tickets[t].bookingId == bookingId;
      }
      if t :| 0 <= t < n && tickets[t].bookingId == bookingId {
        assert tickets[..n][t].bookingId == bookingId;
      }
    }
  }

  /** The seats a booking still needs tickets for, in order. */
  ghost predicate AwaitingTicket(db: Db, bookingId: nat, seatIds: seq<nat>) {
    && AscendingBelow(seatIds, |db.seats|)
    && forall i: nat :: i in seatIds <==>
         && i < |db.seats| && db.seats[i].bookingId == bookingId && db.seats[i].status == SeatStatus.Confirmed
         && (forall t :: 0 <= t < |db.tickets| ==> db.tickets[t].seatId != i)
  }

  lemma IssuableAwait(db: Db, bookingId: nat)
    ensures AwaitingTicket(db, bookingId, IssuableSeats(db, bookingId, |db.seats|))
  {
    var ids := IssuableSeats(db, bookingId, |db.seats|);
    IssuableSeatsExact(db, bookingId, |db.seats|);
    forall i: nat
      ensures i in ids <==> i < |db.seats| && db.seats[i].bookingId == bookingId && db.seats[i].status == SeatStatus.Confirmed
                            && (forall t :: 0 <= t < |db.tickets| ==> db.tickets[t].seatId != i)
    {
      if i < |db.seats| { assert i in ids <==> Issuable(db, bookingId, i); }
    }
  }

  /** One ticket for each awaiting seat, in order, with its own draft. */
  ghost predicate AllTicketed(db: Db, bookingId: nat, seatIds: seq<nat>, drafts: nat -> TicketDraft, now: Instant, tickets: seq<Ticket>)
    requires AscendingBelow(seatIds, |db.seats|)
  {
    && |tickets| == |db.tickets| + |seatIds| && db.tickets <= tickets
    && forall k :: 0 <= k < |seatIds| ==>
         tickets[|db.tickets| + k] == Ticket(bookingId, db.seats[seatIds[k]].passengerId, seatIds[k], drafts(k).number, drafts(k).hash, now, None, None)
  }

  lemma IssueIs(db: Db, bookingId: nat, drafts: nat -> TicketDraft, now: Instant) returns (seatIds: seq<nat>)
    requires KeysOk(db) && bookingId < |db.bookings|
    ensures AwaitingTicket(db, bookingId, seatIds)
    ensures var r := Issue(db, bookingId, drafts, now);
      && (r.Success? <==>
            && db.bookings[bookingId].status == BookingStatus.Confirmed && PaidFor(db.payments, bookingId)
            && (HasTicket(db.tickets, bookingId) || exists k: nat :: k < |seatIds| && !Clashes(db.tickets, drafts(k))))
      && (r.Failure? ==> r.error == TicketNotIssuable)
      && (r.Success? ==> r.value.0 == db.(tickets := r.value.0.tickets) && db.tickets <= r.value.0.tickets)
      && (r.Success? && DraftsFresh(db.tickets, drafts, |seatIds|) ==> AllTicketed(db, bookingId, seatIds, drafts, now, r.value.0.tickets))
  {
    seatIds := IssuableSeats(db, bookingId, |db.seats|);
    var issued := IssueSeats(db, bookingId, seatIds, drafts, now);
    IssuableAwait(db, bookingId);
    IssuableIsLoopInput(db, bookingId);
    NothingIssuedIff(db, bookingId, seatIds, drafts, now);
    IssueSeatsAppends(db, bookingId, seatIds, drafts, now);
    IssueCompleteIffFresh(db, bookingId, seatIds, drafts, now);
    ListIsEmptyIff(issued.tickets, bookingId, issued.raw);
    IssuedHasTicketIff(db, bookingId, seatIds, issued);
    PaidMeansPaidFor(db.payments, bookingId);
  }

  lemma PaidMeansPaidFor(payments: seq<Payment>, bookingId: nat)
    ensures IsPaid(payments, bookingId) <==> PaidFor(payments, bookingId)
  {
  }

  lemma IssuedHasTicketIff(db: Db, bookingId: nat, seatIds: seq<nat>, issued: Issuance)
    requires Appended(db.tickets, issued, bookingId, seatIds)
    ensures HasTicket(issued.tickets, bookingId) <==> HasTicket(db.tickets, bookingId) || issued.tickets != db.tickets
  {
    if t :| 0 <= t < |db.tickets| && db.tickets[t].bookingId == bookingId {
      assert issued.tickets[t].bookingId == bookingId;
    }
    if issued.tickets != db.tickets {
      assert issued.tickets[|db.tickets|].bookingId == bookingId;
    }
    if t :| 0 <= t < |issued.tickets| && issued.tickets[t].bookingId == bookingId {
      if t < |db.tickets| { assert db.tickets[t].bookingId == bookingId; }
    }
  }

  lemma {:induction false} EveryTicketListed(tickets: seq<Ticket>, bookingId: nat, raw: map<nat, string>, t: nat)
    requires t < |tickets| && tickets[t].bookingId == bookingId
    ensures IssuedTicket(t, if t in raw then Some(raw[t]) else None) in ListTickets(tickets, bookingId, raw)
  {
    var n := |tickets| - 1;
    if t < n {
      assert tickets[..n][t] == tickets[t];
      EveryTicketListed(tickets[..n], bookingId, raw, t);
    }
  }

  /** The answer names exactly the booking's tickets, in order; with a token exactly those that are new. */
  ghost predicate AnswerLists(db: Db, bookingId: nat, next: Db, answer: seq<IssuedTicket>) {
    && (forall j, k :: 0 <= j < k < |answer| ==> answer[j].ticketId < answer[k].ticketId)
    && (forall k :: 0 <= k < |answer| ==>
          && answer[k].ticketId < |next.tickets| && next.tickets[answer[k].ticketId].bookingId == bookingId
          && (answer[k].rawToken != None <==> answer[k].ticketId >= |db.tickets|))
    && (forall t :: 0 <= t < |next.tickets| && next.tickets[t].bookingId == bookingId ==>
          exists k :: 0 <= k < |answer| && answer[k].ticketId == t)
  }

  /** What issuing answers. */
  lemma IssueAnswers(db: Db, bookingId: nat, drafts: nat -> TicketDraft, now: Instant)
    requires bookingId < |db.bookings| && Issue(db, bookingId, drafts, now).Success?
    ensures AnswerLists(db, bookingId, Issue(db, bookingId, drafts, now).value.0, Issue(db, bookingId, drafts, now).value.1)
  {
    var seatIds := IssuableSeats(db, bookingId, |db.seats|);
    var issued := IssueSeats(db, bookingId, seatIds, drafts, now);
    IssueSeatsAppends(db, bookingId, seatIds, drafts, now);
    ListTicketsContent(issued.tickets, bookingId, issued.raw);
    var answer := ListTickets(issued.tickets, bookingId, issued.raw);
    forall t: nat | t < |issued.tickets| && issued.tickets[t].bookingId == bookingId
      ensures exists k :: 0 <= k < |answer| && answer[k].ticketId == t
    {
      EveryTicketListed(issued.tickets, bookingId, issued.raw, t);
      var k :| 0 <= k < |answer| && answer[k] == IssuedTicket(t, if t in issued.raw then Some(issued.raw[t]) else None);
    }
  }

  /**
   * The owner is issued tickets exactly for a confirmed, paid booking that has a ticket already or gets one; with unused
   * drafts every awaiting seat gets the ticket drafted for it.
   */
  lemma OwnerIssueOutcome(db: Db, actor: nat, bookingId: nat, drafts: nat -> TicketDraft, now: Instant) returns (seatIds: seq<nat>)
    requires Reachable(db)
    ensures AwaitingTicket(db, bookingId, seatIds)
    ensures var r := IssueForOwnerTx(db, actor, bookingId, drafts, now);
      && (r.Success? <==>
            && IsOwnersOnline(db, actor, bookingId)
            && db.bookings[bookingId].status == BookingStatus.Confirmed && PaidFor(db.payments, bookingId)
            && (HasTicket(db.tickets, bookingId) || exists k: nat :: k < |seatIds| && !Clashes(db.tickets, drafts(k))))
      && (r.Failure? ==> r.error == if IsOwnersOnline(db, actor, bookingId) then TicketNotIssuable else BookingNotFound)
      && (r.Success? ==> r.value.0 == db.(tickets := r.value.0.tickets) && db.tickets <= r.value.0.tickets)
      && (r.Success? && DraftsFresh(db.tickets, drafts, |seatIds|) ==> AllTicketed(db, bookingId, seatIds, drafts, now, r.value.0.tickets))
  {
    ReachableTickets(db);
    if bookingId < |db.bookings| {
      seatIds := IssueIs(db, bookingId, drafts, now);
    } else {
      seatIds := IssuableSeats(db, bookingId, |db.seats|);
      IssuableAwait(db, bookingId);
    }
  }

  /** So is a company, for a booking on whose branch the actor may issue tickets. */
  lemma CompanyIssueOutcome(db: Db, actor: nat, companyId: nat, bookingId: nat, drafts: nat -> TicketDraft, now: Instant) returns (seatIds: seq<nat>)
    requires Reachable(db)
    ensures AwaitingTicket(db, bookingId, seatIds)
    ensures var r, may := IssueForCompanyTx(db, actor, companyId, bookingId, drafts, now), MayActOn(db, actor, companyId, TicketsIssue, bookingId);
      && (r.Success? <==>
            && may && db.bookings[bookingId].status == BookingStatus.Confirmed && PaidFor(db.payments, bookingId)
            && (HasTicket(db.tickets, bookingId) || exists k: nat :: k < |seatIds| && !Clashes(db.tickets, drafts(k))))
      && (r.Failure? ==> r.error == if may then TicketNotIssuable else BookingNotFound)
      && (r.Success? ==> r.value.0 == db.(tickets := r.value.0.tickets) && db.tickets <= r.value.0.tickets)
      && (r.Success? && DraftsFresh(db.tickets, drafts, |seatIds|) ==> AllTicketed(db, bookingId, seatIds, drafts, now, r.value.0.tickets))
  {
    ReachableTickets(db);
    FoundMeansMayAct(db, actor, companyId, TicketsIssue, bookingId);
    if bookingId < |db.bookings| {
      seatIds := IssueIs(db, bookingId, drafts, now);
    } else {
      seatIds := IssuableSeats(db, bookingId, |db.seats|);
      IssuableAwait(db, bookingId);
    }
  }
}
