/**
 * The public availability queries, and why their lazy treatment of lapsed holds agrees with the
 * eager sweep, with the fast search count and with what a create at the same instant will accept.
 */
module Availability {
  import opened Wrappers
  import opened Counting
  import opened Identity
  import opened Tables
  import opened Reservation
  import opened Invariants
  import opened HoldProofs
  import opened RunProofs

  /** PUBLIC_TRIP_FILTER. Weaker than bookability: no company_settings row is needed. */
  predicate PublicVisible(db: Db, tripId: nat, now: Instant) {
    && tripId in db.trips
    && IsTripBookable(db.trips[tripId], now)
    && db.trips[tripId].partiesActive
  }

  /** The reservation condition both queries share: a hold counts only while `held_until > now()`. */
  predicate ActiveAt(s: Seat, now: Instant) {
    s.status.Confirmed? || s.status.CheckedIn? || (s.status.Held? && s.heldUntil > now)
  }

  datatype SeatAvailability = Available | Held | Booked
  datatype SeatRow = SeatRow(seatNumber: string, status: SeatAvailability, occupant: Option<Gender>)

  predicate Joins(s: Seat, tripId: nat, seatNumber: string, now: Instant) {
    s.tripId == tripId && s.seatNumber == seatNumber && ActiveAt(s, now)
  }

  function Occupied(db: Db, s: Seat): SeatRow {
    SeatRow(s.seatNumber, if s.status.Held? then SeatAvailability.Held else Booked,
            if s.passengerId < |db.passengers| && db.passengers[s.passengerId].bookingId == s.bookingId
            then Some(db.passengers[s.passengerId].gender) else None)
  }

  /** The rows one label joins to, over the first `n` reservations. */
  function JoinedRows(db: Db, tripId: nat, seatNumber: string, now: Instant, n: nat): seq<SeatRow>
    requires n <= |db.seats|
  {
    if n == 0 then []
    else
      JoinedRows(db, tripId, seatNumber, now, n - 1)
      + (if Joins(db.seats[n - 1], tripId, seatNumber, now) then [Occupied(db, db.seats[n - 1])] else [])
  }

  /** LEFT JOIN: a label nobody holds still yields one row. */
  function LabelRows(db: Db, tripId: nat, seatNumber: string, now: Instant): seq<SeatRow> {
    var joined := JoinedRows(db, tripId, seatNumber, now, |db.seats|);
    if joined == [] then [SeatRow(seatNumber, Available, None)] else joined
  }

  function SeatMapRows(db: Db, tripId: nat, layout: seq<string>, now: Instant): seq<SeatRow> {
    if layout == [] then []
    else
      SeatMapRows(db, tripId, layout[..|layout| - 1], now) + LabelRows(db, tripId, layout[|layout| - 1], now)
  }

  function IsAvailableRow(): SeatRow -> bool {
    (r: SeatRow) => r.status.Available?
  }

  datatype PublicAvailability = PublicAvailability(total: nat, available: nat, rows: seq<SeatRow>)

  function FindPublicAvailability(db: Db, tripId: nat, now: Instant): Option<PublicAvailability> {
    if !PublicVisible(db, tripId, now) then None
    else
      var rows := SeatMapRows(db, tripId, db.trips[tripId].layout, now);
      if rows == [] then None
      else Some(PublicAvailability(db.trips[tripId].totalSeats, Count(rows, IsAvailableRow()), rows))
  }

  function ActiveOn(tripId: nat, now: Instant): Seat -> bool {
    (s: Seat) => s.tripId == tripId && ActiveAt(s, now)
  }

  /** GREATEST(0, total_seats - count(active reservations)). */
  function SearchCount(db: Db, tripId: nat, now: Instant): nat
    requires tripId in db.trips
  {
    var active := Count(db.seats, ActiveOn(tripId, now));
    if active > db.trips[tripId].totalSeats then 0 else db.trips[tripId].totalSeats - active
  }

  // ---------------------------------------------------------------- one row per seat

  predicate TakenAt(seats: seq<Seat>, tripId: nat, seatNumber: string, now: Instant) {
    exists i :: 0 <= i < |seats| && Joins(seats[i], tripId, seatNumber, now)
  }

  lemma {:induction false} JoinedRowsExact(db: Db, tripId: nat, seatNumber: string, now: Instant, n: nat)
    requires n <= |db.seats| && SeatsUnique(db.seats)
    ensures var r := JoinedRows(db, tripId, seatNumber, now, n);
      && |r| <= 1
      && (r != [] <==> TakenAt(db.seats[..n], tripId, seatNumber, now))
      && (r != [] ==> r[0].seatNumber == seatNumber && !r[0].status.Available?)
  {
    if n > 0 {
      JoinedRowsExact(db, tripId, seatNumber, now, n - 1);
      if Joins(db.seats[n - 1], tripId, seatNumber, now) {
        assert db.seats[..n][n - 1] == db.seats[n - 1];
        var earlier := db.seats[..n - 1];
        forall i | 0 <= i < |earlier|
          ensures !Joins(earlier[i], tripId, seatNumber, now)
        {
          assert !Clash(db.seats[i], db.seats[n - 1]);
        }
      } else {
        TakenByEarlier(db.seats, tripId, seatNumber, now, n);
      }
    }
  }

  lemma TakenByEarlier(seats: seq<Seat>, tripId: nat, seatNumber: string, now: Instant, n: nat)
    requires 0 < n <= |seats| && !Joins(seats[n - 1], tripId, seatNumber, now)
    ensures TakenAt(seats[..n], tripId, seatNumber, now) == TakenAt(seats[..n - 1], tripId, seatNumber, now)
  {
    var upTo, earlier := seats[..n], seats[..n - 1];
    if i :| 0 <= i < |upTo| && Joins(upTo[i], tripId, seatNumber, now) {
      assert earlier[i] == seats[i];
    }
    if i :| 0 <= i < |earlier| && Joins(earlier[i], tripId, seatNumber, now) {
      assert upTo[i] == seats[i];
    }
  }

  /** With the active-seat index in place, a label yields one row: AVAILABLE exactly when nobody holds it now. */
  lemma LabelRowsExact(db: Db, tripId: nat, seatNumber: string, now: Instant)
    requires SeatsUnique(db.seats)
    ensures var r := LabelRows(db, tripId, seatNumber, now);
      && |r| == 1 && r[0].seatNumber == seatNumber
      && (r[0].status.Available? <==> !TakenAt(db.seats, tripId, seatNumber, now))
  {
    JoinedRowsExact(db, tripId, seatNumber, now, |db.seats|);
    assert db.seats[..|db.seats|] == db.seats;
  }

  /** One row per label, in order, AVAILABLE exactly when nobody holds it. */
  ghost predicate ShowsLayout(rows: seq<SeatRow>, db: Db, tripId: nat, layout: seq<string>, now: Instant) {
    && |rows| == |layout|
    && forall k :: 0 <= k < |layout| ==>
         rows[k].seatNumber == layout[k] && (rows[k].status.Available? <==> !TakenAt(db.seats, tripId, layout[k], now))
  }

  /** The seat map is one row per layout seat, in layout order. */
  lemma {:induction false} SeatMapExact(db: Db, tripId: nat, layout: seq<string>, now: Instant)
    requires SeatsUnique(db.seats)
    ensures ShowsLayout(SeatMapRows(db, tripId, layout, now), db, tripId, layout, now)
  {
    if layout != [] {
      var n := |layout| - 1;
      SeatMapExact(db, tripId, layout[..n], now);
      LabelRowsExact(db, tripId, layout[n], now);
    }
  }

  // ---------------------------------------------------------------- lazy and eager expiry agree

  /** A seat the sweep releases was already inactive for every reader from `now` on, and stays so. */
  lemma SweepKeepsActivity(db: Db, companyId: nat, scope: Option<nat>, now: Instant, later: Instant, i: nat)
    requires SeatsFollowBookings(db.bookings, db.seats) && i < |db.seats| && now <= later
    ensures var s := Sweep(db, companyId, scope, now).seats[i];
      && ActiveAt(s, later) == ActiveAt(db.seats[i], later)
      && (ActiveAt(s, later) ==> s == db.seats[i])
      && s.tripId == db.seats[i].tripId && s.seatNumber == db.seats[i].seatNumber
  {
  }

  /** The next reservation joins in both tables as the same row, or in neither. */
  lemma JoinsStep(db: Db, other: Db, tripId: nat, seatNumber: string, now: Instant, n: nat)
    requires 0 < n <= |db.seats| && n <= |other.seats| && other.passengers == db.passengers
    requires Joins(other.seats[n - 1], tripId, seatNumber, now) == Joins(db.seats[n - 1], tripId, seatNumber, now)
    requires Joins(db.seats[n - 1], tripId, seatNumber, now) ==> other.seats[n - 1] == db.seats[n - 1]
    requires JoinedRows(other, tripId, seatNumber, now, n - 1) == JoinedRows(db, tripId, seatNumber, now, n - 1)
    ensures JoinedRows(other, tripId, seatNumber, now, n) == JoinedRows(db, tripId, seatNumber, now, n)
  {
  }

  lemma {:induction false} SweepKeepsJoins(db: Db, companyId: nat, scope: Option<nat>, now: Instant, later: Instant,
                                           tripId: nat, seatNumber: string, n: nat)
    requires SeatsFollowBookings(db.bookings, db.seats) && n <= |db.seats| && now <= later
    ensures JoinedRows(Sweep(db, companyId, scope, now), tripId, seatNumber, later, n)
         == JoinedRows(db, tripId, seatNumber, later, n)
  {
    if n > 0 {
      SweepKeepsActivity(db, companyId, scope, now, later, n - 1);
      SweepKeepsJoins(db, companyId, scope, now, later, tripId, seatNumber, n - 1);
      JoinsStep(db, Sweep(db, companyId, scope, now), tripId, seatNumber, later, n);
    }
  }

  lemma {:induction false} SweepKeepsSeatMap(db: Db, companyId: nat, scope: Option<nat>, now: Instant, later: Instant,
                                             tripId: nat, layout: seq<string>)
    requires SeatsFollowBookings(db.bookings, db.seats) && now <= later
    ensures SeatMapRows(Sweep(db, companyId, scope, now), tripId, layout, later) == SeatMapRows(db, tripId, layout, later)
  {
    if layout != [] {
      SweepKeepsSeatMap(db, companyId, scope, now, later, tripId, layout[..|layout| - 1]);
      SweepKeepsJoins(db, companyId, scope, now, later, tripId, layout[|layout| - 1], |db.seats|);
    }
  }

  lemma SweepKeepsSearchCount(db: Db, companyId: nat, scope: Option<nat>, now: Instant, later: Instant, tripId: nat)
    requires SeatsFollowBookings(db.bookings, db.seats) && now <= later && tripId in db.trips
    ensures SearchCount(Sweep(db, companyId, scope, now), tripId, later) == SearchCount(db, tripId, later)
  {
    var swept := Sweep(db, companyId, scope, now);
    forall i | 0 <= i < |db.seats|
      ensures ActiveOn(tripId, later)(swept.seats[i]) == ActiveOn(tripId, later)(db.seats[i])
    {
      SweepKeepsActivity(db, companyId, scope, now, later, i);
    }
    CountSame(swept.seats, db.seats, ActiveOn(tripId, later));
  }

  lemma SweepKeepsPublicMap(db: Db, companyId: nat, scope: Option<nat>, now: Instant, later: Instant, tripId: nat)
    requires SeatsFollowBookings(db.bookings, db.seats) && now <= later
    ensures FindPublicAvailability(Sweep(db, companyId, scope, now), tripId, later) == FindPublicAvailability(db, tripId, later)
  {
    if tripId in db.trips {
      SweepKeepsSeatMap(db, companyId, scope, now, later, tripId, db.trips[tripId].layout);
    }
  }

  /**
   * Running the sweep now changes nothing any reader can see, for any trip, at any instant from now on:
   * not the per-seat map, not the search count.
   */
  lemma SweepIsInvisible(db: Db, companyId: nat, scope: Option<nat>, now: Instant, later: Instant, tripId: nat)
    requires Reachable(db) && now <= later
    ensures var swept := Sweep(db, companyId, scope, now);
      && FindPublicAvailability(swept, tripId, later) == FindPublicAvailability(db, tripId, later)
      && (tripId in db.trips ==> SearchCount(swept, tripId, later) == SearchCount(db, tripId, later))
  {
    ReachableIsGood(db);
    SweepKeepsPublicMap(db, companyId, scope, now, later, tripId);
    if tripId in db.trips {
      SweepKeepsSearchCount(db, companyId, scope, now, later, tripId);
    }
  }

  lemma {:induction false} NothingLapsed(bookings: seq<Booking>, companyId: nat, scope: Option<nat>, now: Instant)
    requires forall b :: 0 <= b < |bookings| ==> !Lapsed(bookings[b], companyId, scope, now)
    ensures LapsedIds(bookings, companyId, scope, now) == []
  {
    if bookings != [] {
      NothingLapsed(bookings[..|bookings| - 1], companyId, scope, now);
    }
  }

  /** A second sweep at the same instant finds nothing, writes nothing and logs nothing. */
  lemma SecondSweepIsEmpty(db: Db, companyId: nat, scope: Option<nat>, now: Instant)
    ensures var swept := Sweep(db, companyId, scope, now);
      LapsedIds(swept.bookings, companyId, scope, now) == [] && Sweep(swept, companyId, scope, now) == swept
  {
    var swept := Sweep(db, companyId, scope, now);
    NothingLapsed(swept.bookings, companyId, scope, now);
    var again := Sweep(swept, companyId, scope, now);
    assert again.bookings == swept.bookings;
    assert again.seats == swept.seats;
    assert again.events == swept.events;
  }

  // ---------------------------------------------------------------- the search count

  function TakenLabel(seats: seq<Seat>, tripId: nat, now: Instant): string -> bool {
    (seatNumber: string) => TakenAt(seats, tripId, seatNumber, now)
  }

  function ActiveWithin(tripId: nat, layout: seq<string>, now: Instant): Seat -> bool {
    (s: Seat) => s.tripId == tripId && ActiveAt(s, now) && s.seatNumber in layout
  }

  function ActiveOutside(tripId: nat, layout: seq<string>, now: Instant): Seat -> bool {
    (s: Seat) => s.tripId == tripId && ActiveAt(s, now) && s.seatNumber !in layout
  }

  function JoinsLabel(tripId: nat, seatNumber: string, now: Instant): Seat -> bool {
    (s: Seat) => Joins(s, tripId, seatNumber, now)
  }

  /** Taken labels and active reservations of the layout are equally many: one reservation per label. */
  lemma {:induction false} TakenLabelsAreReservations(seats: seq<Seat>, tripId: nat, layout: seq<string>, now: Instant)
    requires SeatsUnique(seats)
    requires forall i, j :: 0 <= i < j < |layout| ==> layout[i] != layout[j]
    ensures Count(layout, TakenLabel(seats, tripId, now)) == Count(seats, ActiveWithin(tripId, layout, now))
  {
    if layout == [] {
      CountNone(seats, ActiveWithin(tripId, layout, now));
    } else {
      var n := |layout| - 1;
      var init, last := layout[..n], layout[n];
      TakenLabelsAreReservations(seats, tripId, init, now);
      assert layout == init + [last];
      assert last !in init;
      CountSplit(seats, ActiveWithin(tripId, layout, now), ActiveWithin(tripId, init, now), JoinsLabel(tripId, last, now));
      forall i, j | 0 <= i < j < |seats|
        ensures !(JoinsLabel(tripId, last, now)(seats[i]) && JoinsLabel(tripId, last, now)(seats[j]))
      {
        assert !Clash(seats[i], seats[j]);
      }
      CountUnique(seats, JoinsLabel(tripId, last, now));
    }
  }

  /** Available rows are the untaken labels. */
  lemma {:induction false} AvailableRowsAreUntaken(db: Db, tripId: nat, layout: seq<string>, now: Instant)
    requires SeatsUnique(db.seats)
    ensures Count(SeatMapRows(db, tripId, layout, now), IsAvailableRow())
          + Count(layout, TakenLabel(db.seats, tripId, now)) == |layout|
  {
    if layout != [] {
      var n := |layout| - 1;
      AvailableRowsAreUntaken(db, tripId, layout[..n], now);
      LabelRowsExact(db, tripId, layout[n], now);
      var row := LabelRows(db, tripId, layout[n], now);
      assert row == [row[0]];
      CountPush(SeatMapRows(db, tripId, layout[..n], now), row[0], IsAvailableRow());
    }
  }

  /** Reservations of the trip that are active but name no seat of the current layout. */
  function Strays(db: Db, tripId: nat, now: Instant): nat
    requires tripId in db.trips
  {
    Count(db.seats, ActiveOutside(tripId, db.trips[tripId].layout, now))
  }

  lemma SearchCountLessStrays(db: Db, tripId: nat, now: Instant)
    requires SeatsUnique(db.seats) && tripId in db.trips && LayoutValid(db.trips[tripId])
    ensures var available := Count(SeatMapRows(db, tripId, db.trips[tripId].layout, now), IsAvailableRow());
      && SearchCount(db, tripId, now) == (if Strays(db, tripId, now) > available then 0 else available - Strays(db, tripId, now))
  {
    var layout := db.trips[tripId].layout;
    AvailableRowsAreUntaken(db, tripId, layout, now);
    TakenLabelsAreReservations(db.seats, tripId, layout, now);
    CountSplit(db.seats, ActiveOn(tripId, now), ActiveWithin(tripId, layout, now), ActiveOutside(tripId, layout, now));
  }

  lemma NoStraysMeans(db: Db, tripId: nat, now: Instant)
    requires tripId in db.trips
    ensures Strays(db, tripId, now) == 0
       <==> forall i :: 0 <= i < |db.seats| && ActiveOn(tripId, now)(db.seats[i]) ==> db.seats[i].seatNumber in db.trips[tripId].layout
  {
    CountPositive(db.seats, ActiveOutside(tripId, db.trips[tripId].layout, now));
    StraysExist(db.seats, tripId, db.trips[tripId].layout, now);
  }

  /**
   * The fast count is the number of AVAILABLE rows less the strays, and never below zero. So it never
   * promises more than the map, and equals it exactly when there is no stray or nothing is available.
   */
  lemma SearchCountIsConservative(db: Db, tripId: nat, now: Instant)
    requires Reachable(db) && tripId in db.trips
    ensures var available := Count(SeatMapRows(db, tripId, db.trips[tripId].layout, now), IsAvailableRow());
      && SearchCount(db, tripId, now) == (if Strays(db, tripId, now) > available then 0 else available - Strays(db, tripId, now))
      && SearchCount(db, tripId, now) <= available
      && (SearchCount(db, tripId, now) == available <==>
            available == 0
            || forall i :: 0 <= i < |db.seats| && ActiveOn(tripId, now)(db.seats[i]) ==>
                 db.seats[i].seatNumber in db.trips[tripId].layout)
  {
    ReachableIsGood(db);
    assert LayoutValid(db.trips[tripId]);
    SearchCountLessStrays(db, tripId, now);
    NoStraysMeans(db, tripId, now);
  }

  lemma StraysExist(seats: seq<Seat>, tripId: nat, layout: seq<string>, now: Instant)
    ensures (exists i :: 0 <= i < |seats| && ActiveOutside(tripId, layout, now)(seats[i]))
       <==> !(forall i :: 0 <= i < |seats| && ActiveOn(tripId, now)(seats[i]) ==> seats[i].seatNumber in layout)
  {
    if i :| 0 <= i < |seats| && ActiveOutside(tripId, layout, now)(seats[i]) {
      assert ActiveOn(tripId, now)(seats[i]);
    }
    if i :| 0 <= i < |seats| && ActiveOn(tripId, now)(seats[i]) && seats[i].seatNumber !in layout {
      assert ActiveOutside(tripId, layout, now)(seats[i]);
    }
  }

  // ---------------------------------------------------------------- creating against the map

  /** Sweeping the trip first makes the clock-free unique index coincide with the clock-dependent view. */
  lemma IndexMeetsView(db: Db, tripId: nat, companyId: nat, seatNumber: string, now: Instant)
    requires SeatsFollowBookings(db.bookings, db.seats) && SurroundingsOk(db) && KeysOk(db)
    requires tripId in db.trips && db.trips[tripId].companyId == companyId
    ensures SeatTaken(Sweep(db, companyId, Some(tripId), now).seats, tripId, seatNumber) == TakenAt(db.seats, tripId, seatNumber, now)
  {
    var swept := Sweep(db, companyId, Some(tripId), now);
    if i :| 0 <= i < |swept.seats| && swept.seats[i].tripId == tripId && swept.seats[i].seatNumber == seatNumber
            && OccupiesIndex(swept.seats[i].status) {
      assert db.bookings[db.seats[i].bookingId].tripId == tripId;
      assert Joins(db.seats[i], tripId, seatNumber, now);
    }
    if i :| 0 <= i < |db.seats| && Joins(db.seats[i], tripId, seatNumber, now) {
      SweepKeepsActivity(db, companyId, Some(tripId), now, now, i);
      assert swept.seats[i] == db.seats[i];
    }
  }

  /** The seat shows AVAILABLE in the public map of the trip at this instant. */
  predicate ShownAvailable(db: Db, tripId: nat, seatNumber: string, now: Instant) {
    var found := FindPublicAvailability(db, tripId, now);
    && found.Some?
    && exists k :: 0 <= k < |found.value.rows|
         && found.value.rows[k].seatNumber == seatNumber && found.value.rows[k].status.Available?
  }

  lemma ShownMeansFree(db: Db, tripId: nat, seatNumber: string, now: Instant)
    requires SeatsUnique(db.seats) && PublicVisible(db, tripId, now)
    ensures ShownAvailable(db, tripId, seatNumber, now)
       <==> seatNumber in db.trips[tripId].layout && !TakenAt(db.seats, tripId, seatNumber, now)
  {
    var layout := db.trips[tripId].layout;
    var rows := SeatMapRows(db, tripId, layout, now);
    SeatMapExact(db, tripId, layout, now);
    if seatNumber in layout && !TakenAt(db.seats, tripId, seatNumber, now) {
      var k :| 0 <= k < |layout| && layout[k] == seatNumber;
      assert rows[k].seatNumber == seatNumber && rows[k].status.Available?;
    }
  }

  predicate Distinct(ps: seq<PassengerInput>) {
    forall j, k :: 0 <= j < k < |ps| ==> ps[j].seat != ps[k].seat
  }

  /** The trip can be booked right now: visible to the public, and its company has settings. */
  predicate BookableNow(db: Db, tripId: nat, now: Instant) {
    && tripId in db.trips
    && var trip := db.trips[tripId];
    && trip.isActive && trip.status == TripStatus.Scheduled && now < trip.boardingClosesAt
    && trip.partiesActive && trip.seatHoldMinutes.Some?
  }

  /** The insert loop on the swept tables accepts exactly distinct seats shown AVAILABLE at the same instant. */
  lemma InsertableMeansShown(db: Db, tripId: nat, companyId: nat, ps: seq<PassengerInput>, now: Instant)
    requires SeatsFollowBookings(db.bookings, db.seats) && SurroundingsOk(db) && KeysOk(db) && SeatsUnique(db.seats)
    requires PublicVisible(db, tripId, now) && db.trips[tripId].companyId == companyId
    ensures SeatsInsertable(Sweep(db, companyId, Some(tripId), now), tripId, ps)
       <==> Distinct(ps) && forall k :: 0 <= k < |ps| ==> ShownAvailable(db, tripId, ps[k].seat, now)
  {
    forall k | 0 <= k < |ps|
      ensures ShownAvailable(db, tripId, ps[k].seat, now)
         <==> ps[k].seat in db.trips[tripId].layout
              && !SeatTaken(Sweep(db, companyId, Some(tripId), now).seats, tripId, ps[k].seat)
    {
      ShownMeansFree(db, tripId, ps[k].seat, now);
      IndexMeetsView(db, tripId, companyId, ps[k].seat, now);
    }
  }

  lemma HoldSucceedsIffShown(db: Db, tripId: nat, companyId: nat, branchId: Option<nat>, actor: nat, channel: Channel,
                             ps: seq<PassengerInput>, references: References, now: Instant)
    requires Core(db)
    ensures CreateHold(db, tripId, companyId, branchId, actor, channel, ps, references, now).Success?
       <==> && BookableNow(db, tripId, now) && db.trips[tripId].companyId == companyId
            && SomeReferenceFree(db.bookings, references)
            && Distinct(ps) && (forall k :: 0 <= k < |ps| ==> ShownAvailable(db, tripId, ps[k].seat, now))
  {
    var reference := CreateHoldExact(db, tripId, companyId, branchId, actor, channel, ps, references, now);
    if BookableNow(db, tripId, now) && db.trips[tripId].companyId == companyId {
      InsertableMeansShown(db, tripId, companyId, ps, now);
    }
  }

  /** Neither the map nor the references look at the idempotency records. */
  lemma ViewIgnoresRecords(db: Db, records: map<Key, Record>, tripId: nat, seatNumber: string, now: Instant)
    ensures ShownAvailable(db.(records := records), tripId, seatNumber, now) == ShownAvailable(db, tripId, seatNumber, now)
  {
    if PublicVisible(db, tripId, now) {
      MapIgnoresRecords(db, records, tripId, db.trips[tripId].layout, now);
    }
  }

  lemma {:induction false} MapIgnoresRecords(db: Db, records: map<Key, Record>, tripId: nat, layout: seq<string>, now: Instant)
    ensures SeatMapRows(db.(records := records), tripId, layout, now) == SeatMapRows(db, tripId, layout, now)
  {
    if layout != [] {
      MapIgnoresRecords(db, records, tripId, layout[..|layout| - 1], now);
      JoinsIgnoreRecords(db, records, tripId, layout[|layout| - 1], now, |db.seats|);
    }
  }

  lemma {:induction false} JoinsIgnoreRecords(db: Db, records: map<Key, Record>, tripId: nat, seatNumber: string, now: Instant, n: nat)
    requires n <= |db.seats|
    ensures JoinedRows(db.(records := records), tripId, seatNumber, now, n) == JoinedRows(db, tripId, seatNumber, now, n)
  {
    if n > 0 {
      JoinsIgnoreRecords(db, records, tripId, seatNumber, now, n - 1);
    }
  }

  /** For a fresh key the passenger create is exactly its hold. */
  lemma FreshPassengerCreate(db: Db, actor: nat, text: string, input: BookingInput, references: References, now: Instant)
    requires KeysOk(db) && ValidInput(input) && input.tripId in db.trips
    requires !RecordLive(db, Key(db.trips[input.tripId].companyId, actor, Operation.CreatePassengerBooking, text), now)
    ensures var companyId := db.trips[input.tripId].companyId;
      var key := Key(companyId, actor, Operation.CreatePassengerBooking, text);
      var hold := CreateHold(ClaimedDb(db, key, PassengerBooking(input), now), input.tripId, companyId, None, actor, Channel.Web,
                             input.passengers, references, now);
      var result := CreatePassengerBookingTx(db, actor, text, input, references, now);
      && (result.Success? <==> hold.Success?)
      && (result.Failure? ==> result.error == hold.error)
  {
    var companyId := db.trips[input.tripId].companyId;
    var key := Key(companyId, actor, Operation.CreatePassengerBooking, text);
    var claimed := ClaimedDb(db, key, PassengerBooking(input), now);
    if CreateHold(claimed, input.tripId, companyId, None, actor, Channel.Web, input.passengers, references, now).Success? {
      HoldRows(claimed, input.tripId, companyId, None, actor, Channel.Web, input.passengers, references, now);
    }
  }

  lemma ViewsIgnoreRecords(db: Db, records: map<Key, Record>, tripId: nat, ps: seq<PassengerInput>, now: Instant)
    ensures forall k :: 0 <= k < |ps| ==>
      ShownAvailable(db.(records := records), tripId, ps[k].seat, now) == ShownAvailable(db, tripId, ps[k].seat, now)
  {
    forall k | 0 <= k < |ps|
      ensures ShownAvailable(db.(records := records), tripId, ps[k].seat, now) == ShownAvailable(db, tripId, ps[k].seat, now)
    {
      ViewIgnoresRecords(db, records, tripId, ps[k].seat, now);
    }
  }

  lemma FreshHoldSucceedsIffShown(db: Db, key: Key, fingerprint: Fingerprint, tripId: nat, companyId: nat, actor: nat,
                                  ps: seq<PassengerInput>, references: References, now: Instant)
    requires Core(db)
    ensures CreateHold(ClaimedDb(db, key, fingerprint, now), tripId, companyId, None, actor, Channel.Web, ps, references, now).Success?
       <==> && BookableNow(db, tripId, now) && db.trips[tripId].companyId == companyId
            && SomeReferenceFree(db.bookings, references)
            && Distinct(ps) && (forall k :: 0 <= k < |ps| ==> ShownAvailable(db, tripId, ps[k].seat, now))
  {
    var claimed := ClaimedDb(db, key, fingerprint, now);
    CoreIgnoresRecords(db, claimed.records);
    HoldSucceedsIffShown(claimed, tripId, companyId, None, actor, Channel.Web, ps, references, now);
    ViewsIgnoreRecords(db, claimed.records, tripId, ps, now);
  }

  /**
   * In every reachable state, a valid request under a fresh key is booked at this instant exactly when the
   * trip is bookable, a generated reference is free, and every requested seat shows AVAILABLE in the public
   * map at this same instant.
   */
  lemma CreateSucceedsIffShownAvailable(db: Db, actor: nat, text: string, input: BookingInput, references: References, now: Instant)
    requires Reachable(db) && ValidInput(input) && input.tripId in db.trips
    requires !RecordLive(db, Key(db.trips[input.tripId].companyId, actor, Operation.CreatePassengerBooking, text), now)
    ensures CreatePassengerBookingTx(db, actor, text, input, references, now).Success?
       <==> && BookableNow(db, input.tripId, now)
            && SomeReferenceFree(db.bookings, references)
            && (forall k :: 0 <= k < |input.passengers| ==> ShownAvailable(db, input.tripId, input.passengers[k].seat, now))
  {
    ReachableIsGood(db);
    var companyId := db.trips[input.tripId].companyId;
    var key := Key(companyId, actor, Operation.CreatePassengerBooking, text);
    FreshPassengerCreate(db, actor, text, input, references, now);
    FreshHoldSucceedsIffShown(db, key, PassengerBooking(input), input.tripId, companyId, actor, input.passengers, references, now);
  }

  // ---------------------------------------------------------------- no spurious refusal

  /** The insert loop reports "already reserved" only for a requested seat the index really holds. */
  lemma {:induction false} ReservedBlamesTakenSeat(db: Db, tripId: nat, bookingId: nat, ps: seq<PassengerInput>) returns (k: nat)
    requires bookingId < |db.bookings| && |db.passengers| == |db.seats| && Distinct(ps)
    requires InsertPassengers(db, tripId, bookingId, ps).Failure?
    requires InsertPassengers(db, tripId, bookingId, ps).error.SeatAlreadyReserved?
    ensures k < |ps| && tripId in db.trips && ps[k].seat in db.trips[tripId].layout && SeatTaken(db.seats, tripId, ps[k].seat)
  {
    var n := |ps| - 1;
    var before := InsertPassengers(db, tripId, bookingId, ps[..n]);
    if before.Failure? {
      k := ReservedBlamesTakenSeat(db, tripId, bookingId, ps[..n]);
    } else {
      InsertPassengersExact(db, tripId, bookingId, ps[..n]);
      var added := NewSeats(tripId, bookingId, |db.seats|, ps[..n], db.bookings[bookingId].expiresAt);
      TakenAfterInsert(db.seats, added, tripId, ps[n].seat);
      assert forall j :: 0 <= j < n ==> added[j].seatNumber == ps[j].seat;
      k := n;
    }
  }

  /** And it reports an invalid selection only for a requested seat outside the layout. */
  lemma {:induction false} InvalidBlamesOutsider(db: Db, tripId: nat, bookingId: nat, ps: seq<PassengerInput>) returns (k: nat)
    requires bookingId < |db.bookings| && |db.passengers| == |db.seats| && tripId in db.trips
    requires InsertPassengers(db, tripId, bookingId, ps) == Failure(InvalidSeatSelection)
    ensures k < |ps| && ps[k].seat !in db.trips[tripId].layout
  {
    var n := |ps| - 1;
    if InsertPassengers(db, tripId, bookingId, ps[..n]).Failure? {
      k := InvalidBlamesOutsider(db, tripId, bookingId, ps[..n]);
    } else {
      InsertPassengersExact(db, tripId, bookingId, ps[..n]);
      k := n;
    }
  }

  /** Where createClaimed's "already reserved" comes from: the insert loop over the swept tables. */
  lemma ReservedComesFromLoop(db: Db, tripId: nat, companyId: nat, branchId: Option<nat>, actor: nat, channel: Channel,
                              ps: seq<PassengerInput>, references: References, now: Instant) returns (booked: Db)
    requires CreateHold(db, tripId, companyId, branchId, actor, channel, ps, references, now) == Failure(SeatAlreadyReserved)
    ensures var swept := Sweep(db, companyId, Some(tripId), now);
      && PublicVisible(db, tripId, now) && db.trips[tripId].companyId == companyId
      && booked.seats == swept.seats && booked.passengers == swept.passengers && booked.trips == swept.trips
      && |booked.bookings| == |swept.bookings| + 1
      && InsertPassengers(booked, tripId, |swept.bookings|, ps) == Failure(SeatAlreadyReserved)
  {
    var swept := Sweep(db, companyId, Some(tripId), now);
    InsertWithRetryExact(swept, tripId, companyId, branchId, actor, channel, |ps|, references, 0, now);
    booked := InsertWithRetry(swept, tripId, companyId, branchId, actor, channel, |ps|, references, 0, now).value;
  }

  /** "Already reserved" is only ever answered for a layout seat that the public map shows taken right now. */
  lemma NoSpuriousRefusal(db: Db, tripId: nat, companyId: nat, branchId: Option<nat>, actor: nat, channel: Channel,
                          ps: seq<PassengerInput>, references: References, now: Instant) returns (k: nat)
    requires SeatsFollowBookings(db.bookings, db.seats) && SurroundingsOk(db) && KeysOk(db) && SeatsUnique(db.seats)
    requires Distinct(ps)
    requires CreateHold(db, tripId, companyId, branchId, actor, channel, ps, references, now) == Failure(SeatAlreadyReserved)
    ensures k < |ps| && PublicVisible(db, tripId, now) && ps[k].seat in db.trips[tripId].layout
    ensures !ShownAvailable(db, tripId, ps[k].seat, now)
  {
    var booked := ReservedComesFromLoop(db, tripId, companyId, branchId, actor, channel, ps, references, now);
    k := ReservedBlamesTakenSeat(booked, tripId, |db.bookings|, ps);
    IndexMeetsView(db, tripId, companyId, ps[k].seat, now);
    ShownMeansFree(db, tripId, ps[k].seat, now);
  }

  /** "Invalid selection" is only ever answered when a requested seat is not in the trip's layout. */
  lemma InvalidMeansOutside(db: Db, tripId: nat, companyId: nat, branchId: Option<nat>, actor: nat, channel: Channel,
                            ps: seq<PassengerInput>, references: References, now: Instant) returns (k: nat)
    requires |db.passengers| == |db.seats|
    requires CreateHold(db, tripId, companyId, branchId, actor, channel, ps, references, now) == Failure(InvalidSeatSelection)
    ensures k < |ps| && tripId in db.trips && ps[k].seat !in db.trips[tripId].layout
  {
    var swept := Sweep(db, companyId, Some(tripId), now);
    InsertWithRetryExact(swept, tripId, companyId, branchId, actor, channel, |ps|, references, 0, now);
    var booked := InsertWithRetry(swept, tripId, companyId, branchId, actor, channel, |ps|, references, 0, now).value;
    k := InvalidBlamesOutsider(booked, tripId, |booked.bookings| - 1, ps);
  }

  /** With every reference taken, a bookable trip answers that none is available. */
  lemma NoReferenceIsSaid(db: Db, tripId: nat, companyId: nat, branchId: Option<nat>, actor: nat, channel: Channel,
                          ps: seq<PassengerInput>, references: References, now: Instant)
    requires BookableNow(db, tripId, now) && db.trips[tripId].companyId == companyId && !SomeReferenceFree(db.bookings, references)
    ensures CreateHold(db, tripId, companyId, branchId, actor, channel, ps, references, now) == Failure(BookingReferenceUnavailable)
  {
    var swept := Sweep(db, companyId, Some(tripId), now);
    SameReferencesFree(db, companyId, Some(tripId), now, references);
    InsertWithRetryExact(swept, tripId, companyId, branchId, actor, channel, |ps|, references, 0, now);
  }

  // ---------------------------------------------------------------- what a row shows

  /** Row content: HELD for a hold still running, BOOKED for a confirmed or used seat, with the gender of its passenger. */
  ghost predicate ShowsSeat(db: Db, row: SeatRow, i: nat) {
    && i < |db.seats| && i < |db.passengers|
    && row.seatNumber == db.seats[i].seatNumber
    && row.status == (if db.seats[i].status.Held? then SeatAvailability.Held else Booked)
    && row.occupant == Some(db.passengers[i].gender)
  }

  lemma {:induction false} JoinedRowsShow(db: Db, tripId: nat, seatNumber: string, now: Instant, n: nat, i: nat)
    requires KeysOk(db) && SeatsUnique(db.seats) && i < n <= |db.seats| && Joins(db.seats[i], tripId, seatNumber, now)
    ensures var r := JoinedRows(db, tripId, seatNumber, now, n); |r| == 1 && ShowsSeat(db, r[0], i)
  {
    JoinedRowsExact(db, tripId, seatNumber, now, n);
    assert db.seats[..n][i] == db.seats[i];
    if i < n - 1 {
      JoinedRowsShow(db, tripId, seatNumber, now, n - 1, i);
      assert !Clash(db.seats[i], db.seats[n - 1]);
    } else {
      OnlyRow(db, tripId, seatNumber, now, i);
    }
  }

  lemma OnlyRow(db: Db, tripId: nat, seatNumber: string, now: Instant, i: nat)
    requires KeysOk(db) && SeatsUnique(db.seats) && i < |db.seats| && Joins(db.seats[i], tripId, seatNumber, now)
    ensures JoinedRows(db, tripId, seatNumber, now, i + 1) == [Occupied(db, db.seats[i])]
  {
    JoinedRowsExact(db, tripId, seatNumber, now, i + 1);
  }

  /** In every reachable state, each seat taken at the instant shows its reservation and its passenger's gender, once. */
  lemma SeatMapShowsOccupants(db: Db, tripId: nat, now: Instant, k: nat, i: nat)
    requires Reachable(db) && PublicVisible(db, tripId, now)
    requires k < |db.trips[tripId].layout| && i < |db.seats| && Joins(db.seats[i], tripId, db.trips[tripId].layout[k], now)
    ensures var rows := SeatMapRows(db, tripId, db.trips[tripId].layout, now);
      k < |rows| && ShowsSeat(db, rows[k], i)
  {
    ReachableIsGood(db);
    RowsAreLabels(db, tripId, db.trips[tripId].layout, now, k);
    JoinedRowsShow(db, tripId, db.trips[tripId].layout[k], now, |db.seats|, i);
  }

  lemma {:induction false} RowsAreLabels(db: Db, tripId: nat, layout: seq<string>, now: Instant, k: nat)
    requires SeatsUnique(db.seats) && k < |layout|
    ensures var rows := SeatMapRows(db, tripId, layout, now); |rows| == |layout| && rows[k] == LabelRows(db, tripId, layout[k], now)[0]
  {
    var n := |layout| - 1;
    SeatMapExact(db, tripId, layout, now);
    SeatMapExact(db, tripId, layout[..n], now);
    LabelRowsExact(db, tripId, layout[n], now);
    if k < n {
      RowsAreLabels(db, tripId, layout[..n], now, k);
    }
  }

  /** A seat is free at the instant: no confirmed or used reservation names it, and no hold on it still runs. */
  ghost predicate SeatIsFree(seats: seq<Seat>, tripId: nat, seatNumber: string, now: Instant) {
    forall i :: 0 <= i < |seats| && seats[i].tripId == tripId && seats[i].seatNumber == seatNumber ==>
      && seats[i].status != SeatStatus.Confirmed && seats[i].status != SeatStatus.CheckedIn
      && (seats[i].status == SeatStatus.Held ==> seats[i].heldUntil <= now)
  }

  lemma FreeMeansUntaken(seats: seq<Seat>, tripId: nat, seatNumber: string, now: Instant)
    ensures SeatIsFree(seats, tripId, seatNumber, now) <==> !TakenAt(seats, tripId, seatNumber, now)
  {
    if !TakenAt(seats, tripId, seatNumber, now) {
      forall i | 0 <= i < |seats| && seats[i].tripId == tripId && seats[i].seatNumber == seatNumber
        ensures seats[i].status != SeatStatus.Confirmed && seats[i].status != SeatStatus.CheckedIn
        ensures seats[i].status == SeatStatus.Held ==> seats[i].heldUntil <= now
      {
        assert !Joins(seats[i], tripId, seatNumber, now);
      }
    }
  }

  /** What the public sees: one row per seat of the layout, the AVAILABLE ones counted, AVAILABLE exactly when free. */
  ghost predicate PublicMap(db: Db, tripId: nat, now: Instant, shown: PublicAvailability)
    requires tripId in db.trips
  {
    var layout := db.trips[tripId].layout;
    && shown.total == |layout| == |shown.rows|
    && shown.available + Count(layout, TakenLabel(db.seats, tripId, now)) == |layout|
    && forall k :: 0 <= k < |layout| ==>
         && shown.rows[k].seatNumber == layout[k]
         && (shown.rows[k].status == Available <==> SeatIsFree(db.seats, tripId, layout[k], now))
  }

  lemma PublicMapIs(db: Db, tripId: nat, now: Instant)
    requires SeatsUnique(db.seats) && (tripId in db.trips ==> LayoutValid(db.trips[tripId]))
    ensures var found := FindPublicAvailability(db, tripId, now);
      && (found.Some? <==> tripId in db.trips && Visible(db.trips[tripId], now) && db.trips[tripId].layout != [])
      && (found.Some? ==> PublicMap(db, tripId, now, found.value))
  {
    if tripId in db.trips {
      var layout := db.trips[tripId].layout;
      SeatMapExact(db, tripId, layout, now);
      AvailableRowsAreUntaken(db, tripId, layout, now);
      forall k | 0 <= k < |layout| ensures SeatIsFree(db.seats, tripId, layout[k], now) <==> !TakenAt(db.seats, tripId, layout[k], now) {
        FreeMeansUntaken(db.seats, tripId, layout[k], now);
      }
    }
  }

  predicate Visible(trip: Trip, now: Instant) {
    trip.isActive && trip.status == TripStatus.Scheduled && now < trip.boardingClosesAt && trip.partiesActive
  }

  /** In every reachable state the public map is found exactly for a visible trip with seats, and shows exactly that. */
  lemma PublicMapOutcome(db: Db, tripId: nat, now: Instant)
    requires Reachable(db)
    ensures var found := FindPublicAvailability(db, tripId, now);
      && (found.Some? <==> tripId in db.trips && Visible(db.trips[tripId], now) && db.trips[tripId].layout != [])
      && (found.Some? ==> PublicMap(db, tripId, now, found.value))
  {
    ReachableIsGood(db);
    PublicMapIs(db, tripId, now);
  }

  // ---------------------------------------------------------------- how long a hold lasts

  /** A new hold keeps its seats off the map for exactly the company's hold minutes, and the view frees them by itself. */
  lemma HoldLastsItsMinutes(db: Db, tripId: nat, companyId: nat, branchId: Option<nat>, actor: nat, channel: Channel,
                            ps: seq<PassengerInput>, references: References, now: Instant, k: nat, later: Instant)
    requires KeysOk(db) && SurroundingsOk(db) && SeatsFollowBookings(db.bookings, db.seats)
    requires CreateHold(db, tripId, companyId, branchId, actor, channel, ps, references, now).Success? && k < |ps| && now <= later
    ensures tripId in db.trips && db.trips[tripId].seatHoldMinutes.Some?
    ensures var next := CreateHold(db, tripId, companyId, branchId, actor, channel, ps, references, now).value;
      TakenAt(next.seats, tripId, ps[k].seat, later) <==> later < now + db.trips[tripId].seatHoldMinutes.value * 60_000_000
  {
    var reference := CreateHoldExact(db, tripId, companyId, branchId, actor, channel, ps, references, now);
    var swept := Sweep(db, companyId, Some(tripId), now);
    var until := now + db.trips[tripId].seatHoldMinutes.value * MICROS_PER_MINUTE;
    NewSeatsLast(swept.seats, tripId, |swept.bookings|, ps, until, k, later);
  }

  lemma NewSeatsLast(seats: seq<Seat>, tripId: nat, bookingId: nat, ps: seq<PassengerInput>, until: Instant, k: nat, later: Instant)
    requires k < |ps| && !SeatTaken(seats, tripId, ps[k].seat) && Distinct(ps)
    ensures TakenAt(seats + NewSeats(tripId, bookingId, |seats|, ps, until), tripId, ps[k].seat, later) <==> later < until
  {
    var added := NewSeats(tripId, bookingId, |seats|, ps, until);
    var all := seats + added;
    assert all[|seats| + k] == added[k];
    if later < until {
      assert Joins(all[|seats| + k], tripId, ps[k].seat, later);
    }
    if i :| 0 <= i < |all| && Joins(all[i], tripId, ps[k].seat, later) {
      assert i < |seats| ==> all[i] == seats[i];
    }
  }
}
