/** Issuing, validating and revoking tickets: the joint invariant, and what issuance achieves. */
module TicketProofs {
  import opened Wrappers
  import opened Counting
  import opened Identity
  import opened Tables
  import opened Reservation
  import opened Invariants

  // ---------------------------------------------------------------- one inserted ticket

  /** The seat may carry a new ticket: it is a confirmed seat of a confirmed booking. */
  ghost predicate SeatReady(db: Db, bookingId: nat, seatId: nat) {
    && bookingId < |db.bookings| && db.bookings[bookingId].status.Confirmed?
    && seatId < |db.seats| && db.seats[seatId].bookingId == bookingId && db.seats[seatId].status.Confirmed?
  }

  function WithTickets(db: Db, tickets: seq<Ticket>): Db {
    db.(tickets := tickets)
  }

  lemma InsertTicketKeepsTickets(db: Db, bookingId: nat, seatId: nat, draft: TicketDraft, now: Instant)
    requires TicketsOk(db.bookings, db.seats, db.tickets) && SeatReady(db, bookingId, seatId)
    ensures TicketsOk(db.bookings, db.seats, InsertTicket(db, bookingId, seatId, draft, now))
  {
    var next := InsertTicket(db, bookingId, seatId, draft, now);
    forall i | 0 <= i < |db.seats| && db.seats[i].status.CheckedIn?
      ensures SeatTicketed(next, i)
    {
      var t :| 0 <= t < |db.tickets| && db.tickets[t].seatId == i;
      assert next[t] == db.tickets[t];
    }
  }

  lemma InsertTicketKeepsKeys(db: Db, bookingId: nat, seatId: nat, draft: TicketDraft, now: Instant)
    requires KeysOk(db) && SeatReady(db, bookingId, seatId)
    ensures KeysOk(WithTickets(db, InsertTicket(db, bookingId, seatId, draft, now)))
  {
  }

  lemma InsertTicketKeepsLog(db: Db, bookingId: nat, seatId: nat, draft: TicketDraft, now: Instant)
    requires LogOk(db.bookings, db.payments, db.tickets, db.events) && seatId < |db.seats|
    ensures LogOk(db.bookings, db.payments, InsertTicket(db, bookingId, seatId, draft, now), db.events)
  {
    var next := InsertTicket(db, bookingId, seatId, draft, now);
    if next != db.tickets {
      forall b | 0 <= b < |db.bookings|
        ensures LogOf(b, db.bookings[b].status, db.payments, next, db.events)
      {
        assert LogOf(b, db.bookings[b].status, db.payments, db.tickets, db.events);
        CountPush(db.tickets, next[|db.tickets|], UsedTicketOf(b));
      }
    }
  }

  // ---------------------------------------------------------------- the issuance loop

  lemma {:induction false} IssuableSeatsExact(db: Db, bookingId: nat, upTo: nat)
    requires upTo <= |db.seats|
    ensures var r := IssuableSeats(db, bookingId, upTo);
      && (forall i: nat :: i in r <==> i < upTo && Issuable(db, bookingId, i))
      && (forall j, k :: 0 <= j < k < |r| ==> r[j] < r[k])
  {
    if upTo > 0 {
      IssuableSeatsExact(db, bookingId, upTo - 1);
      var before := IssuableSeats(db, bookingId, upTo - 1);
      assert forall k :: 0 <= k < |before| ==> before[k] in before;
    }
  }

  ghost predicate SeatsReady(db: Db, bookingId: nat, seatIds: seq<nat>) {
    forall k :: 0 <= k < |seatIds| ==> SeatReady(db, bookingId, seatIds[k])
  }

  /** What the loop has added: unused tickets of the booking on the given seats, and exactly their tokens. */
  ghost predicate Appended(tickets: seq<Ticket>, r: Issuance, bookingId: nat, seatIds: seq<nat>) {
    && tickets <= r.tickets
    && |r.tickets| <= |tickets| + |seatIds|
    && (forall t: nat :: t in r.raw <==> |tickets| <= t < |r.tickets|)
    && (forall t :: |tickets| <= t < |r.tickets| ==> r.tickets[t].bookingId == bookingId && r.tickets[t].seatId in seatIds)
  }

  lemma AppendedMore(tickets: seq<Ticket>, before: Issuance, bookingId: nat, seatIds: seq<nat>, ticket: Ticket, token: string)
    requires seatIds != [] && Appended(tickets, before, bookingId, seatIds[..|seatIds| - 1])
    requires ticket.bookingId == bookingId && ticket.seatId == seatIds[|seatIds| - 1]
    ensures Appended(tickets, before, bookingId, seatIds)
    ensures Appended(tickets, Issuance(before.tickets + [ticket], before.raw[|before.tickets| := token]), bookingId, seatIds)
  {
    assert forall x :: x in seatIds[..|seatIds| - 1] ==> x in seatIds;
    assert seatIds[|seatIds| - 1] in seatIds;
  }

  /** The loop only appends unused tickets on the given seats, and remembers exactly their tokens. */
  lemma {:induction false} IssueSeatsAppends(db: Db, bookingId: nat, seatIds: seq<nat>, drafts: nat -> TicketDraft, now: Instant)
    requires forall k :: 0 <= k < |seatIds| ==> seatIds[k] < |db.seats|
    ensures Appended(db.tickets, IssueSeats(db, bookingId, seatIds, drafts, now), bookingId, seatIds)
  {
    if seatIds != [] {
      var n := |seatIds| - 1;
      IssueSeatsAppends(db, bookingId, seatIds[..n], drafts, now);
      var before := IssueSeats(db, bookingId, seatIds[..n], drafts, now);
      var ticket := Ticket(bookingId, db.seats[seatIds[n]].passengerId, seatIds[n], drafts(n).number, drafts(n).hash, now, None, None);
      AppendedMore(db.tickets, before, bookingId, seatIds, ticket, drafts(n).raw);
    }
  }

  lemma {:induction false} IssueSeatsKeepTickets(db: Db, bookingId: nat, seatIds: seq<nat>, drafts: nat -> TicketDraft, now: Instant)
    requires TicketsOk(db.bookings, db.seats, db.tickets) && SeatsReady(db, bookingId, seatIds)
    ensures TicketsOk(db.bookings, db.seats, IssueSeats(db, bookingId, seatIds, drafts, now).tickets)
  {
    if seatIds != [] {
      var n := |seatIds| - 1;
      assert SeatsReady(db, bookingId, seatIds[..n]) && SeatReady(db, bookingId, seatIds[n]);
      IssueSeatsKeepTickets(db, bookingId, seatIds[..n], drafts, now);
      var before := IssueSeats(db, bookingId, seatIds[..n], drafts, now);
      InsertTicketKeepsTickets(WithTickets(db, before.tickets), bookingId, seatIds[n], drafts(n), now);
    }
  }

  lemma {:induction false} IssueSeatsKeepKeys(db: Db, bookingId: nat, seatIds: seq<nat>, drafts: nat -> TicketDraft, now: Instant)
    requires KeysOk(db) && SeatsReady(db, bookingId, seatIds)
    ensures KeysOk(WithTickets(db, IssueSeats(db, bookingId, seatIds, drafts, now).tickets))
  {
    if seatIds != [] {
      var n := |seatIds| - 1;
      assert SeatsReady(db, bookingId, seatIds[..n]) && SeatReady(db, bookingId, seatIds[n]);
      IssueSeatsKeepKeys(db, bookingId, seatIds[..n], drafts, now);
      var before := IssueSeats(db, bookingId, seatIds[..n], drafts, now);
      InsertTicketKeepsKeys(WithTickets(db, before.tickets), bookingId, seatIds[n], drafts(n), now);
    }
  }

  lemma {:induction false} IssueSeatsKeepLog(db: Db, bookingId: nat, seatIds: seq<nat>, drafts: nat -> TicketDraft, now: Instant)
    requires LogOk(db.bookings, db.payments, db.tickets, db.events)
    requires forall k :: 0 <= k < |seatIds| ==> seatIds[k] < |db.seats|
    ensures LogOk(db.bookings, db.payments, IssueSeats(db, bookingId, seatIds, drafts, now).tickets, db.events)
  {
    if seatIds != [] {
      var n := |seatIds| - 1;
      IssueSeatsKeepLog(db, bookingId, seatIds[..n], drafts, now);
      var before := IssueSeats(db, bookingId, seatIds[..n], drafts, now);
      InsertTicketKeepsLog(WithTickets(db, before.tickets), bookingId, seatIds[n], drafts(n), now);
    }
  }

  lemma IssuableAreReady(db: Db, bookingId: nat)
    requires bookingId < |db.bookings| && db.bookings[bookingId].status.Confirmed?
    ensures SeatsReady(db, bookingId, IssuableSeats(db, bookingId, |db.seats|))
  {
    var r := IssuableSeats(db, bookingId, |db.seats|);
    IssuableSeatsExact(db, bookingId, |db.seats|);
    forall k | 0 <= k < |r|
      ensures SeatReady(db, bookingId, r[k])
    {
      assert r[k] in r;
    }
  }

  lemma MoreTicketsEvolve(db: Db, tickets: seq<Ticket>)
    requires db.tickets <= tickets
    ensures Evolves(db, WithTickets(db, tickets))
  {
  }

  lemma IssueKeepsCore(db: Db, bookingId: nat, drafts: nat -> TicketDraft, now: Instant)
    requires Core(db) && bookingId < |db.bookings| && Issue(db, bookingId, drafts, now).Success?
    ensures var next := Issue(db, bookingId, drafts, now).value.0; Core(next) && Evolves(db, next)
  {
    var seatIds := IssuableSeats(db, bookingId, |db.seats|);
    var tickets := IssueSeats(db, bookingId, seatIds, drafts, now).tickets;
    IssuableAreReady(db, bookingId);
    IssueSeatsAppends(db, bookingId, seatIds, drafts, now);
    IssueSeatsKeepTickets(db, bookingId, seatIds, drafts, now);
    IssueSeatsKeepKeys(db, bookingId, seatIds, drafts, now);
    IssueSeatsKeepLog(db, bookingId, seatIds, drafts, now);
    MoreTicketsEvolve(db, tickets);
  }

  // ---------------------------------------------------------------- what issuance achieves

  /** Draft `k` repeats no existing ticket's number or hash, and no earlier draft's. */
  ghost predicate DraftUnused(tickets: seq<Ticket>, drafts: nat -> TicketDraft, k: nat) {
    && (forall t :: 0 <= t < |tickets| ==>
          tickets[t].number != drafts(k).number && tickets[t].tokenHash != drafts(k).hash)
    && (forall j: nat :: j < k ==> drafts(j).number != drafts(k).number && drafts(j).hash != drafts(k).hash)
  }

  ghost predicate DraftsFresh(tickets: seq<Ticket>, drafts: nat -> TicketDraft, n: nat) {
    forall k: nat :: k < n ==> DraftUnused(tickets, drafts, k)
  }

  function DraftedTicket(db: Db, bookingId: nat, seatId: nat, draft: TicketDraft, now: Instant): Ticket
    requires seatId < |db.seats|
  {
    Ticket(bookingId, db.seats[seatId].passengerId, seatId, draft.number, draft.hash, now, None, None)
  }

  /** The tickets that `n` issuable seats get when no draft is skipped. */
  ghost predicate AllDrafted(db: Db, bookingId: nat, seatIds: seq<nat>, drafts: nat -> TicketDraft, now: Instant, tickets: seq<Ticket>)
    requires forall k :: 0 <= k < |seatIds| ==> seatIds[k] < |db.seats|
  {
    && |tickets| == |db.tickets| + |seatIds|
    && db.tickets <= tickets
    && forall k :: 0 <= k < |seatIds| ==>
         tickets[|db.tickets| + k] == DraftedTicket(db, bookingId, seatIds[k], drafts(k), now)
  }

  /** What the loop needs: distinct unticketed seats, and one passenger per seat on both tables. */
  ghost predicate LoopInput(db: Db, seatIds: seq<nat>) {
    && (forall i :: 0 <= i < |db.seats| ==> db.seats[i].passengerId == i)
    && (forall t :: 0 <= t < |db.tickets| ==> db.tickets[t].passengerId == db.tickets[t].seatId)
    && (forall k :: 0 <= k < |seatIds| ==> seatIds[k] < |db.seats| && !SeatTicketed(db.tickets, seatIds[k]))
    && (forall j, k :: 0 <= j < k < |seatIds| ==> seatIds[j] < seatIds[k])
  }

  lemma LoopInputPrefix(db: Db, seatIds: seq<nat>)
    requires LoopInput(db, seatIds) && |seatIds| > 0
    ensures LoopInput(db, seatIds[..|seatIds| - 1])
  {
  }

  /**
   * Issuance gives every issuable seat its ticket exactly when the generated numbers and hashes are
   * unused: a collision is skipped silently by ON CONFLICT DO NOTHING, and nothing else ever is.
   */
  lemma {:induction false} IssueCompleteIffFresh(db: Db, bookingId: nat, seatIds: seq<nat>, drafts: nat -> TicketDraft, now: Instant)
    requires LoopInput(db, seatIds)
    ensures var r := IssueSeats(db, bookingId, seatIds, drafts, now).tickets;
      && (|r| == |db.tickets| + |seatIds| <==> DraftsFresh(db.tickets, drafts, |seatIds|))
      && (|r| == |db.tickets| + |seatIds| ==> AllDrafted(db, bookingId, seatIds, drafts, now, r))
  {
    if seatIds != [] {
      var n := |seatIds| - 1;
      LoopInputPrefix(db, seatIds);
      IssueSeatsAppends(db, bookingId, seatIds[..n], drafts, now);
      IssueCompleteIffFresh(db, bookingId, seatIds[..n], drafts, now);
      var before := IssueSeats(db, bookingId, seatIds[..n], drafts, now).tickets;
      assert DraftsFresh(db.tickets, drafts, n + 1) <==> DraftsFresh(db.tickets, drafts, n) && DraftUnused(db.tickets, drafts, n);
      if |before| == |db.tickets| + n {
        LastDraft(db, bookingId, seatIds, drafts, now, before);
        LastDrafted(db, bookingId, seatIds, drafts, now, before);
      }
    }
  }

  lemma LastDrafted(db: Db, bookingId: nat, seatIds: seq<nat>, drafts: nat -> TicketDraft, now: Instant, before: seq<Ticket>)
    requires LoopInput(db, seatIds) && |seatIds| > 0
    requires AllDrafted(db, bookingId, seatIds[..|seatIds| - 1], drafts, now, before)
    ensures var n := |seatIds| - 1;
      AllDrafted(db, bookingId, seatIds, drafts, now, before + [DraftedTicket(db, bookingId, seatIds[n], drafts(n), now)])
  {
    var n := |seatIds| - 1;
    assert forall k :: 0 <= k < n ==> seatIds[..n][k] == seatIds[k];
  }

  /** With all earlier drafts inserted, the last one conflicts exactly on its number or its hash. */
  lemma LastDraft(db: Db, bookingId: nat, seatIds: seq<nat>, drafts: nat -> TicketDraft, now: Instant, before: seq<Ticket>)
    requires LoopInput(db, seatIds) && |seatIds| > 0
    requires AllDrafted(db, bookingId, seatIds[..|seatIds| - 1], drafts, now, before)
    ensures var n := |seatIds| - 1;
      TicketConflicts(before, bookingId, db.seats[seatIds[n]].passengerId, seatIds[n], drafts(n))
      <==> !DraftUnused(db.tickets, drafts, n)
  {
    var n := |seatIds| - 1;
    var base := |db.tickets|;
    forall k | 0 <= k < n
      ensures before[base + k] == DraftedTicket(db, bookingId, seatIds[k], drafts(k), now)
    {
      assert seatIds[..n][k] == seatIds[k];
    }
    assert forall t :: 0 <= t < base ==> before[t] == db.tickets[t];
    var passengerId := db.seats[seatIds[n]].passengerId;
    if t :| 0 <= t < |before| && TicketConflicts([before[t]], bookingId, passengerId, seatIds[n], drafts(n)) {
      if t < base {
        assert !SeatTicketed(db.tickets, seatIds[n]) && db.tickets[t].seatId != seatIds[n];
      } else {
        assert before[base + (t - base)] == DraftedTicket(db, bookingId, seatIds[t - base], drafts(t - base), now);
      }
      ConflictAt(before, t, bookingId, passengerId, seatIds[n], drafts(n));
      assert !DraftUnused(db.tickets, drafts, n);
    } else {
      NoConflict(before, bookingId, passengerId, seatIds[n], drafts(n));
      forall t | 0 <= t < base
        ensures db.tickets[t].number != drafts(n).number && db.tickets[t].tokenHash != drafts(n).hash
      {
        assert !TicketConflicts([before[t]], bookingId, passengerId, seatIds[n], drafts(n));
        assert [before[t]][0] == before[t];
      }
      forall j: nat | j < n
        ensures drafts(j).number != drafts(n).number && drafts(j).hash != drafts(n).hash
      {
        assert !TicketConflicts([before[base + j]], bookingId, passengerId, seatIds[n], drafts(n));
        assert [before[base + j]][0] == before[base + j];
      }
    }
  }

  lemma ConflictAt(tickets: seq<Ticket>, t: nat, bookingId: nat, passengerId: nat, seatId: nat, draft: TicketDraft)
    requires t < |tickets| && TicketConflicts([tickets[t]], bookingId, passengerId, seatId, draft)
    ensures TicketConflicts(tickets, bookingId, passengerId, seatId, draft)
  {
    assert [tickets[t]][0] == tickets[t];
  }

  lemma NoConflict(tickets: seq<Ticket>, bookingId: nat, passengerId: nat, seatId: nat, draft: TicketDraft)
    requires forall t :: 0 <= t < |tickets| ==> !TicketConflicts([tickets[t]], bookingId, passengerId, seatId, draft)
    ensures !TicketConflicts(tickets, bookingId, passengerId, seatId, draft)
  {
    forall t | 0 <= t < |tickets|
      ensures tickets[t].seatId != seatId && tickets[t].number != draft.number && tickets[t].tokenHash != draft.hash
           && !(tickets[t].bookingId == bookingId && tickets[t].passengerId == passengerId)
    {
      assert !TicketConflicts([tickets[t]], bookingId, passengerId, seatId, draft);
      assert [tickets[t]][0] == tickets[t];
    }
  }

  /** Before its own turn a seat has no ticket: earlier rounds only ticket earlier seats. */
  lemma NotYetTicketed(db: Db, bookingId: nat, seatIds: seq<nat>, drafts: nat -> TicketDraft, now: Instant)
    requires LoopInput(db, seatIds) && |seatIds| > 0
    ensures var n := |seatIds| - 1;
      !SeatTicketed(IssueSeats(db, bookingId, seatIds[..n], drafts, now).tickets, seatIds[n])
  {
    var n := |seatIds| - 1;
    LoopInputPrefix(db, seatIds);
    IssueSeatsAppends(db, bookingId, seatIds[..n], drafts, now);
    var before := IssueSeats(db, bookingId, seatIds[..n], drafts, now).tickets;
    assert forall x :: x in seatIds[..n] ==> x < seatIds[n];
    assert forall t :: 0 <= t < |db.tickets| ==> before[t] == db.tickets[t];
  }

  /** If the loop left every one of its seats ticketed, it skipped none. */
  lemma {:induction false} TicketedMeansNoneSkipped(db: Db, bookingId: nat, seatIds: seq<nat>, drafts: nat -> TicketDraft, now: Instant)
    requires LoopInput(db, seatIds)
    requires forall k :: 0 <= k < |seatIds| ==> SeatTicketed(IssueSeats(db, bookingId, seatIds, drafts, now).tickets, seatIds[k])
    ensures |IssueSeats(db, bookingId, seatIds, drafts, now).tickets| == |db.tickets| + |seatIds|
  {
    if seatIds != [] {
      var n := |seatIds| - 1;
      var before := IssueSeats(db, bookingId, seatIds[..n], drafts, now).tickets;
      var r := IssueSeats(db, bookingId, seatIds, drafts, now).tickets;
      NotYetTicketed(db, bookingId, seatIds, drafts, now);
      LoopInputPrefix(db, seatIds);
      assert r != before;
      forall k | 0 <= k < n
        ensures SeatTicketed(before, seatIds[..n][k])
      {
        var t :| 0 <= t < |r| && r[t].seatId == seatIds[k];
        assert seatIds[k] != seatIds[n];
        assert before[t].seatId == seatIds[k];
      }
      TicketedMeansNoneSkipped(db, bookingId, seatIds[..n], drafts, now);
    }
  }

  /** Tickets and seats of a booking correspond one to one, in use as in existence. */
  ghost predicate TicketsMatchSeats(db: Db, bookingId: nat) {
    && (forall i :: 0 <= i < |db.seats| && db.seats[i].bookingId == bookingId ==> SeatTicketed(db.tickets, i))
    && (forall t :: 0 <= t < |db.tickets| && db.tickets[t].bookingId == bookingId ==>
          && db.tickets[t].seatId < |db.seats| && db.seats[db.tickets[t].seatId].bookingId == bookingId
          && (db.tickets[t].checkedInAt.Some? <==> db.seats[db.tickets[t].seatId].status.CheckedIn?)
          && !(db.tickets[t].checkedInAt.Some? && db.tickets[t].cancelledAt.Some?))
    && (forall t, u :: 0 <= t < u < |db.tickets| ==> db.tickets[t].seatId != db.tickets[u].seatId)
  }

  /** In a good state only the missing tickets stand between a confirmed booking and the bijection. */
  lemma MatchMeansAllTicketed(db: Db, bookingId: nat)
    requires KeysOk(db) && TicketsOk(db.bookings, db.seats, db.tickets)
    ensures TicketsMatchSeats(db, bookingId)
       <==> forall i :: 0 <= i < |db.seats| && db.seats[i].bookingId == bookingId ==> SeatTicketed(db.tickets, i)
  {
    forall t, u | 0 <= t < u < |db.tickets|
      ensures db.tickets[t].seatId != db.tickets[u].seatId
    {
      assert !SameTicket(db.tickets[t], db.tickets[u]);
    }
  }

  /** A confirmed booking's seats are either issuable or already ticketed. */
  lemma IssuableOrTicketed(db: Db, bookingId: nat, i: nat)
    requires SeatsFollowBookings(db.bookings, db.seats) && TicketsOk(db.bookings, db.seats, db.tickets)
    requires bookingId < |db.bookings| && db.bookings[bookingId].status.Confirmed?
    requires i < |db.seats| && db.seats[i].bookingId == bookingId
    ensures Issuable(db, bookingId, i) || SeatTicketed(db.tickets, i)
  {
  }

  /** After issuing, tickets and seats of the booking are a bijection exactly when the drafts were unused. */
  lemma IssueMakesBijection(db: Db, bookingId: nat, drafts: nat -> TicketDraft, now: Instant)
    requires Core(db) && bookingId < |db.bookings| && Issue(db, bookingId, drafts, now).Success?
    ensures TicketsMatchSeats(Issue(db, bookingId, drafts, now).value.0, bookingId)
       <==> DraftsFresh(db.tickets, drafts, |IssuableSeats(db, bookingId, |db.seats|)|)
  {
    var next := Issue(db, bookingId, drafts, now).value.0;
    var seatIds := IssuableSeats(db, bookingId, |db.seats|);
    IssueKeepsCore(db, bookingId, drafts, now);
    MatchMeansAllTicketed(next, bookingId);
    IssuableIsLoopInput(db, bookingId);
    LoopTicketsAllIffFresh(db, bookingId, seatIds, drafts, now);
    IssueSeatsAppends(db, bookingId, seatIds, drafts, now);
    SeatsCoveredByLoop(db, bookingId, next.tickets);
  }

  lemma LoopTicketsAllIffFresh(db: Db, bookingId: nat, seatIds: seq<nat>, drafts: nat -> TicketDraft, now: Instant)
    requires LoopInput(db, seatIds)
    ensures (forall k :: 0 <= k < |seatIds| ==> SeatTicketed(IssueSeats(db, bookingId, seatIds, drafts, now).tickets, seatIds[k]))
       <==> DraftsFresh(db.tickets, drafts, |seatIds|)
  {
    var r := IssueSeats(db, bookingId, seatIds, drafts, now).tickets;
    IssueCompleteIffFresh(db, bookingId, seatIds, drafts, now);
    if forall k :: 0 <= k < |seatIds| ==> SeatTicketed(r, seatIds[k]) {
      TicketedMeansNoneSkipped(db, bookingId, seatIds, drafts, now);
    }
    if DraftsFresh(db.tickets, drafts, |seatIds|) {
      forall k | 0 <= k < |seatIds|
        ensures SeatTicketed(r, seatIds[k])
      {
        assert r[|db.tickets| + k] == DraftedTicket(db, bookingId, seatIds[k], drafts(k), now);
      }
    }
  }

  lemma IssuableIsLoopInput(db: Db, bookingId: nat)
    requires KeysOk(db)
    ensures LoopInput(db, IssuableSeats(db, bookingId, |db.seats|))
  {
    var seatIds := IssuableSeats(db, bookingId, |db.seats|);
    IssuableSeatsExact(db, bookingId, |db.seats|);
    assert forall k :: 0 <= k < |seatIds| ==> seatIds[k] in seatIds;
  }

  /** All seats of the booking are ticketed in an extension of the tickets exactly when the issuable ones are. */
  lemma SeatsCoveredByLoop(db: Db, bookingId: nat, tickets: seq<Ticket>)
    requires SeatsFollowBookings(db.bookings, db.seats) && TicketsOk(db.bookings, db.seats, db.tickets)
    requires bookingId < |db.bookings| && db.bookings[bookingId].status.Confirmed?
    requires db.tickets <= tickets
    ensures var seatIds := IssuableSeats(db, bookingId, |db.seats|);
      (forall i :: 0 <= i < |db.seats| && db.seats[i].bookingId == bookingId ==> SeatTicketed(tickets, i))
      <==> (forall k :: 0 <= k < |seatIds| ==> SeatTicketed(tickets, seatIds[k]))
  {
    var seatIds := IssuableSeats(db, bookingId, |db.seats|);
    IssuableSeatsExact(db, bookingId, |db.seats|);
    assert forall k :: 0 <= k < |seatIds| ==> seatIds[k] in seatIds;
    if forall k :: 0 <= k < |seatIds| ==> SeatTicketed(tickets, seatIds[k]) {
      forall i | 0 <= i < |db.seats| && db.seats[i].bookingId == bookingId
        ensures SeatTicketed(tickets, i)
      {
        IssuableOrTicketed(db, bookingId, i);
        if Issuable(db, bookingId, i) {
          assert i in seatIds;
        } else {
          var t :| 0 <= t < |db.tickets| && db.tickets[t].seatId == i;
          assert tickets[t] == db.tickets[t];
        }
      }
    }
  }

  // ---------------------------------------------------------------- repeating, tokens

  lemma {:induction false} NothingIssuable(db: Db, bookingId: nat, upTo: nat)
    requires upTo <= |db.seats|
    requires forall i: nat :: i < upTo ==> !Issuable(db, bookingId, i)
    ensures IssuableSeats(db, bookingId, upTo) == []
  {
    if upTo > 0 {
      NothingIssuable(db, bookingId, upTo - 1);
    }
  }

  /** Once tickets and seats match, issuing again changes nothing and hands out no token. */
  lemma IssueAgainIsNoOp(db: Db, bookingId: nat, drafts: nat -> TicketDraft, now: Instant)
    requires bookingId < |db.bookings| && TicketsMatchSeats(db, bookingId)
    requires Issue(db, bookingId, drafts, now).Success?
    ensures Issue(db, bookingId, drafts, now).value.0 == db
    ensures forall k :: 0 <= k < |Issue(db, bookingId, drafts, now).value.1| ==>
      Issue(db, bookingId, drafts, now).value.1[k].rawToken.None?
  {
    var seatIds := IssuableSeats(db, bookingId, |db.seats|);
    NothingIssuable(db, bookingId, |db.seats|);
    var issued := IssueSeats(db, bookingId, seatIds, drafts, now);
    assert issued == Issuance(db.tickets, map[]);
    ListTicketsContent(db.tickets, bookingId, map[]);
  }

  ghost predicate Lists(r: seq<IssuedTicket>, tickets: seq<Ticket>, bookingId: nat, raw: map<nat, string>) {
    && (forall k :: 0 <= k < |r| ==>
          && r[k].ticketId < |tickets| && tickets[r[k].ticketId].bookingId == bookingId
          && r[k].rawToken == (if r[k].ticketId in raw then Some(raw[r[k].ticketId]) else None))
    && (forall j, k :: 0 <= j < k < |r| ==> r[j].ticketId < r[k].ticketId)
  }

  lemma ListsMore(r: seq<IssuedTicket>, tickets: seq<Ticket>, last: Ticket, bookingId: nat, raw: map<nat, string>)
    requires Lists(r, tickets, bookingId, raw)
    ensures Lists(r, tickets + [last], bookingId, raw)
  {
    assert forall t :: 0 <= t < |tickets| ==> (tickets + [last])[t] == tickets[t];
  }

  lemma ListsLast(r: seq<IssuedTicket>, tickets: seq<Ticket>, last: Ticket, bookingId: nat, raw: map<nat, string>)
    requires Lists(r, tickets, bookingId, raw) && last.bookingId == bookingId
    ensures Lists(r + [IssuedTicket(|tickets|, if |tickets| in raw then Some(raw[|tickets|]) else None)], tickets + [last], bookingId, raw)
  {
    ListsMore(r, tickets, last, bookingId, raw);
  }

  /** The answer lists tickets of the booking in order, with a token exactly for those in `raw`. */
  lemma {:induction false} ListTicketsContent(tickets: seq<Ticket>, bookingId: nat, raw: map<nat, string>)
    ensures Lists(ListTickets(tickets, bookingId, raw), tickets, bookingId, raw)
  {
    if tickets != [] {
      var n := |tickets| - 1;
      var before := ListTickets(tickets[..n], bookingId, raw);
      ListTicketsContent(tickets[..n], bookingId, raw);
      assert tickets == tickets[..n] + [tickets[n]];
      if tickets[n].bookingId == bookingId {
        ListsLast(before, tickets[..n], tickets[n], bookingId, raw);
      } else {
        ListsMore(before, tickets[..n], tickets[n], bookingId, raw);
        assert ListTickets(tickets, bookingId, raw) == before;
      }
    }
  }

  /** How often an answer hands out the raw token of ticket `t`. */
  function TokenOf(t: nat): IssuedTicket -> bool {
    (e: IssuedTicket) => e.ticketId == t && e.rawToken.Some?
  }

  /** One issuance answer hands out a ticket's token once if the call created it, and otherwise never. */
  lemma {:induction false} TokenCount(tickets: seq<Ticket>, bookingId: nat, raw: map<nat, string>, t: nat)
    ensures Count(ListTickets(tickets, bookingId, raw), TokenOf(t))
         == if t < |tickets| && tickets[t].bookingId == bookingId && t in raw then 1 else 0
  {
    if tickets != [] {
      var n := |tickets| - 1;
      var before := ListTickets(tickets[..n], bookingId, raw);
      TokenCount(tickets[..n], bookingId, raw, t);
      if t < n { assert tickets[..n][t] == tickets[t]; }
      if tickets[n].bookingId == bookingId {
        CountPush(before, IssuedTicket(n, if n in raw then Some(raw[n]) else None), TokenOf(t));
      } else {
        assert ListTickets(tickets, bookingId, raw) == before;
      }
    }
  }

  /** Draft `k` is what ticket `t` was made from: its number, its stored hash, and the raw token handed out. */
  ghost predicate MadeFrom(r: Issuance, t: nat, seatIds: seq<nat>, drafts: nat -> TicketDraft, k: nat)
    requires t in r.raw && t < |r.tickets|
  {
    && k < |seatIds| && r.tickets[t].seatId == seatIds[k]
    && r.tickets[t].number == drafts(k).number && r.tickets[t].tokenHash == drafts(k).hash && r.raw[t] == drafts(k).raw
  }

  ghost predicate TokensMade(r: Issuance, seatIds: seq<nat>, drafts: nat -> TicketDraft) {
    forall t :: t in r.raw ==> t < |r.tickets| && exists k: nat :: MadeFrom(r, t, seatIds, drafts, k)
  }

  /** A longer loop keeps what earlier tickets were made from. */
  lemma StillMadeFrom(before: Issuance, r: Issuance, t: nat, seatIds: seq<nat>, drafts: nat -> TicketDraft)
    requires seatIds != [] && TokensMade(before, seatIds[..|seatIds| - 1], drafts)
    requires before.tickets <= r.tickets && t in before.raw && t in r.raw && r.raw[t] == before.raw[t]
    ensures t < |r.tickets| && exists k: nat :: MadeFrom(r, t, seatIds, drafts, k)
  {
    var k: nat :| MadeFrom(before, t, seatIds[..|seatIds| - 1], drafts, k);
    assert r.tickets[t] == before.tickets[t];
    assert MadeFrom(r, t, seatIds, drafts, k);
  }

  /** The stored hash and the returned raw token of a new ticket come from one and the same draft. */
  lemma {:induction false} TokensMatchHashes(db: Db, bookingId: nat, seatIds: seq<nat>, drafts: nat -> TicketDraft, now: Instant)
    requires forall k :: 0 <= k < |seatIds| ==> seatIds[k] < |db.seats|
    ensures TokensMade(IssueSeats(db, bookingId, seatIds, drafts, now), seatIds, drafts)
  {
    if seatIds != [] {
      var n := |seatIds| - 1;
      IssueSeatsAppends(db, bookingId, seatIds[..n], drafts, now);
      TokensMatchHashes(db, bookingId, seatIds[..n], drafts, now);
      var before := IssueSeats(db, bookingId, seatIds[..n], drafts, now);
      var r := IssueSeats(db, bookingId, seatIds, drafts, now);
      forall t | t in r.raw
        ensures t < |r.tickets| && exists k: nat :: MadeFrom(r, t, seatIds, drafts, k)
      {
        if t in before.raw {
          StillMadeFrom(before, r, t, seatIds, drafts);
        } else {
          assert MadeFrom(r, t, seatIds, drafts, n);
        }
      }
    }
  }

  // ---------------------------------------------------------------- check-in and revocation

  /** A ticket that validation would accept sits on a CONFIRMED seat, so ticket and seat move together. */
  lemma CheckInMovesBoth(db: Db, ticketId: nat, actor: nat, now: Instant)
    requires Core(db) && ticketId < |db.tickets| && db.tickets[ticketId].checkedInAt.None?
    ensures var t := db.tickets[ticketId]; var next := CheckIn(db, ticketId, actor, now);
      && next.tickets == db.tickets[ticketId := t.(checkedInAt := Some(now))]
      && db.seats[t.seatId].status.Confirmed?
      && next.seats == db.seats[t.seatId := db.seats[t.seatId].(status := SeatStatus.CheckedIn)]
  {
  }

  lemma CheckInKeepsTickets(db: Db, ticketId: nat, actor: nat, now: Instant)
    requires TicketsOk(db.bookings, db.seats, db.tickets) && ticketId < |db.tickets|
    requires db.tickets[ticketId].checkedInAt.None? && db.tickets[ticketId].cancelledAt.None?
    requires db.seats[db.tickets[ticketId].seatId].status.Confirmed?
    ensures var next := CheckIn(db, ticketId, actor, now); TicketsOk(next.bookings, next.seats, next.tickets)
  {
    var next := CheckIn(db, ticketId, actor, now);
    forall i | 0 <= i < |next.seats| && next.seats[i].status.CheckedIn?
      ensures SeatTicketed(next.tickets, i)
    {
      if i == db.tickets[ticketId].seatId {
        assert next.tickets[ticketId].seatId == i;
      } else {
        assert db.seats[i].status.CheckedIn?;
        var t :| 0 <= t < |db.tickets| && db.tickets[t].seatId == i;
        assert next.tickets[t].seatId == i;
      }
    }
    forall t | 0 <= t < |next.tickets|
      ensures next.tickets[t].checkedInAt.Some? <==> next.seats[next.tickets[t].seatId].status.CheckedIn?
    {
      if t < ticketId {
        assert !SameTicket(db.tickets[t], db.tickets[ticketId]);
      } else if t > ticketId {
        assert !SameTicket(db.tickets[ticketId], db.tickets[t]);
      }
    }
    forall t, u | 0 <= t < u < |next.tickets|
      ensures !SameTicket(next.tickets[t], next.tickets[u])
    {
      assert !SameTicket(db.tickets[t], db.tickets[u]);
    }
  }

  lemma OneLogChecksIn(b: nat, status: BookingStatus, payments: seq<Payment>, tickets: seq<Ticket>, events: seq<Event>,
                       ticketId: nat, at: Instant, e: Event)
    requires LogOf(b, status, payments, tickets, events) && ticketId < |tickets| && tickets[ticketId].checkedInAt.None?
    requires e.bookingId == tickets[ticketId].bookingId && e.kind.CheckedIn?
    ensures LogOf(b, status, payments, tickets[ticketId := tickets[ticketId].(checkedInAt := Some(at))], events + [e])
  {
    CountUpdate(tickets, ticketId, tickets[ticketId].(checkedInAt := Some(at)), UsedTicketOf(b));
    forall kind: EventKind
      ensures Count(events + [e], EventOf(b, kind))
           == Count(events, EventOf(b, kind)) + (if b == e.bookingId && kind.CheckedIn? then 1 else 0)
    {
      CountPush(events, e, EventOf(b, kind));
    }
  }

  lemma CheckInKeepsLog(db: Db, ticketId: nat, actor: nat, now: Instant)
    requires LogOk(db.bookings, db.payments, db.tickets, db.events)
    requires ticketId < |db.tickets| && db.tickets[ticketId].bookingId < |db.bookings| && db.tickets[ticketId].checkedInAt.None?
    ensures var next := CheckIn(db, ticketId, actor, now); LogOk(next.bookings, next.payments, next.tickets, next.events)
  {
    var t := db.tickets[ticketId];
    var e := Event(t.bookingId, db.bookings[t.bookingId].companyId, Some(actor), EventKind.CheckedIn);
    forall b | 0 <= b < |db.bookings|
      ensures LogOf(b, db.bookings[b].status, db.payments, db.tickets[ticketId := t.(checkedInAt := Some(now))], db.events + [e])
    {
      OneLogChecksIn(b, db.bookings[b].status, db.payments, db.tickets, db.events, ticketId, now, e);
    }
  }

  /** Replacing one seat row's status inside the index keeps keys, fits and uniqueness. */
  lemma CheckInKeepsSeats(db: Db, ticketId: nat, actor: nat, now: Instant)
    requires KeysOk(db) && SeatsFollowBookings(db.bookings, db.seats) && SeatsUnique(db.seats)
    requires ticketId < |db.tickets| && db.seats[db.tickets[ticketId].seatId].status.Confirmed?
    ensures var next := CheckIn(db, ticketId, actor, now);
      SeatsFollowBookings(next.bookings, next.seats) && SeatsUnique(next.seats)
  {
    var next := CheckIn(db, ticketId, actor, now);
    forall i, j | 0 <= i < j < |next.seats|
      ensures !Clash(next.seats[i], next.seats[j])
    {
      assert !Clash(db.seats[i], db.seats[j]);
    }
  }

  lemma CheckInKeepsKeys(db: Db, ticketId: nat, actor: nat, now: Instant)
    requires KeysOk(db) && ticketId < |db.tickets|
    ensures KeysOk(CheckIn(db, ticketId, actor, now))
  {
  }

  lemma CheckInKeepsMoney(db: Db, ticketId: nat, actor: nat, now: Instant)
    requires KeysOk(db) && MoneyOk(db.bookings, db.seats, db.payments) && ticketId < |db.tickets|
    ensures var next := CheckIn(db, ticketId, actor, now); MoneyOk(next.bookings, next.seats, next.payments)
  {
    var next := CheckIn(db, ticketId, actor, now);
    forall b | 0 <= b < |next.bookings|
      ensures Count(next.seats, SeatOf(b)) == Count(db.seats, SeatOf(b))
    {
      CountSame(db.seats, next.seats, SeatOf(b));
    }
  }

  lemma CheckInEvolves(db: Db, ticketId: nat, actor: nat, now: Instant)
    requires KeysOk(db) && ticketId < |db.tickets| && db.tickets[ticketId].checkedInAt.None?
    ensures Evolves(db, CheckIn(db, ticketId, actor, now))
  {
  }

  lemma CheckInKeepsCore(db: Db, ticketId: nat, actor: nat, now: Instant)
    requires Core(db) && ticketId < |db.tickets|
    requires db.tickets[ticketId].checkedInAt.None? && db.tickets[ticketId].cancelledAt.None?
    ensures Core(CheckIn(db, ticketId, actor, now)) && Evolves(db, CheckIn(db, ticketId, actor, now))
  {
    CheckInMovesBoth(db, ticketId, actor, now);
    CheckInKeepsTickets(db, ticketId, actor, now);
    CheckInKeepsLog(db, ticketId, actor, now);
    CheckInKeepsSeats(db, ticketId, actor, now);
    CheckInKeepsKeys(db, ticketId, actor, now);
    CheckInKeepsMoney(db, ticketId, actor, now);
    CheckInEvolves(db, ticketId, actor, now);
  }

  function Revoked(db: Db, ticketId: nat, now: Instant): Db
    requires ticketId < |db.tickets|
  {
    db.(tickets := db.tickets[ticketId := db.tickets[ticketId].(cancelledAt := Some(now))])
  }

  lemma RevokeKeepsTicketed(db: Db, ticketId: nat, now: Instant)
    requires ticketId < |db.tickets|
    ensures forall i: nat :: SeatTicketed(Revoked(db, ticketId, now).tickets, i) == SeatTicketed(db.tickets, i)
  {
    var next := Revoked(db, ticketId, now).tickets;
    assert forall t :: 0 <= t < |db.tickets| ==> next[t].seatId == db.tickets[t].seatId;
    forall i: nat ensures SeatTicketed(next, i) == SeatTicketed(db.tickets, i) {
      if t :| 0 <= t < |db.tickets| && db.tickets[t].seatId == i { assert next[t].seatId == i; }
      if t :| 0 <= t < |next| && next[t].seatId == i { assert db.tickets[t].seatId == i; }
    }
  }

  lemma RevokeKeepsKeys(db: Db, ticketId: nat, now: Instant)
    requires KeysOk(db) && ticketId < |db.tickets|
    requires db.tickets[ticketId].checkedInAt.None? && db.tickets[ticketId].cancelledAt.None?
    ensures KeysOk(Revoked(db, ticketId, now)) && Evolves(db, Revoked(db, ticketId, now))
  {
  }

  lemma RevokeKeepsTickets(db: Db, ticketId: nat, now: Instant)
    requires TicketsOk(db.bookings, db.seats, db.tickets)
    requires ticketId < |db.tickets| && db.tickets[ticketId].checkedInAt.None? && db.tickets[ticketId].cancelledAt.None?
    ensures var next := Revoked(db, ticketId, now); TicketsOk(next.bookings, next.seats, next.tickets)
  {
    var next := Revoked(db, ticketId, now);
    RevokeKeepsTicketed(db, ticketId, now);
    forall t, u | 0 <= t < u < |next.tickets|
      ensures !SameTicket(next.tickets[t], next.tickets[u])
    {
      assert !SameTicket(db.tickets[t], db.tickets[u]);
    }
  }

  lemma RevokeKeepsCore(db: Db, ticketId: nat, now: Instant)
    requires Core(db) && ticketId < |db.tickets|
    requires db.tickets[ticketId].checkedInAt.None? && db.tickets[ticketId].cancelledAt.None?
    ensures Core(Revoked(db, ticketId, now)) && Evolves(db, Revoked(db, ticketId, now))
  {
    RevokeKeepsTickets(db, ticketId, now);
    RevokeKeepsKeys(db, ticketId, now);
    var next := Revoked(db, ticketId, now);
    forall b | 0 <= b < |next.bookings|
      ensures LogOf(b, next.bookings[b].status, next.payments, next.tickets, next.events)
    {
      assert LogOf(b, db.bookings[b].status, db.payments, db.tickets, db.events);
      CountUpdate(db.tickets, ticketId, next.tickets[ticketId], UsedTicketOf(b));
    }
  }

  /** Verifying a token answers "valid" exactly when validating its ticket right now would succeed. */
  lemma VerifyAgreesWithValidate(db: Db, actor: nat, companyId: nat, ticketId: nat, now: Instant)
    requires TicketsOk(db.bookings, db.seats, db.tickets) && ticketId < |db.tickets|
    ensures var verdict := VerifyTicket(db, actor, companyId, db.tickets[ticketId].tokenHash);
      && (verdict.Success? ==> verdict.value.0 == ticketId)
      && (verdict.Success? && verdict.value.1.None? <==> ValidateTicketTx(db, actor, companyId, ticketId, now).Success?)
  {
    FindsByHash(db.tickets, ticketId);
  }

  /** Hashes are unique, so looking a ticket up by its hash finds that very ticket. */
  lemma {:induction false} FindsByHash(tickets: seq<Ticket>, t: nat)
    requires t < |tickets|
    requires forall i, j :: 0 <= i < j < |tickets| ==> !SameTicket(tickets[i], tickets[j])
    ensures FindTicketByHash(tickets, tickets[t].tokenHash) == Some(t)
  {
    var n := |tickets| - 1;
    if t < n {
      assert !SameTicket(tickets[t], tickets[n]);
      FindsByHash(tickets[..n], t);
    }
  }
}
