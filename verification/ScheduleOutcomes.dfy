/**
 * What each operation on trips and maintenance does, row by row: every commit under any interleaving, and, for a
 * session nobody disturbs, exactly when it commits.
 */
module ScheduleOutcomes {
  import opened Wrappers
  import opened Tables
  import opened BusSchedule
  import opened BusScheduleProofs

  // ---------------------------------------------------------------- the conditions, in plain terms

  /** Every live trip of the bus but one has arrived by `from` or departs at `to` or later. */
  ghost predicate TripsLeave(trips: seq<TripRow>, b: nat, from: Instant, to: Instant, except: Option<nat>) {
    forall i :: 0 <= i < |trips| && Some(i) != except && trips[i].busId == b && trips[i].isActive && trips[i].status != TripStatus.Cancelled ==>
      trips[i].arrival <= from || to <= trips[i].departure
  }

  /** Every live trip of the bus has arrived. */
  ghost predicate TripsArrived(trips: seq<TripRow>, b: nat, at: Instant) {
    forall i :: 0 <= i < |trips| && trips[i].busId == b && trips[i].isActive && trips[i].status != TripStatus.Cancelled ==>
      trips[i].arrival <= at
  }

  /** Every planned window of the bus is over by `from` or begins at `to` or later. */
  ghost predicate PlansLeave(records: seq<WorkRecord>, b: nat, from: Instant, to: Instant) {
    forall i :: 0 <= i < |records| && records[i].busId == b && records[i].status == WorkStatus.Scheduled ==>
      records[i].endsAt <= from || to <= records[i].startedAt
  }

  /** Work in progress reaches to infinity: the window must end before it was planned to begin. */
  ghost predicate ProgressLeaves(records: seq<WorkRecord>, b: nat, to: Instant) {
    forall i :: 0 <= i < |records| && records[i].busId == b && records[i].status == WorkStatus.InProgress ==> to <= records[i].startedAt
  }

  predicate InService(c: Committed, b: nat) {
    b in c.buses && c.buses[b].status == BusStatus.Active && c.buses[b].isActive && !c.buses[b].deleted
  }

  ghost predicate NoActiveWork(records: seq<WorkRecord>, b: nat) {
    forall i :: 0 <= i < |records| && records[i].busId == b ==>
      records[i].status == WorkStatus.Completed || records[i].status == WorkStatus.Cancelled
  }

  /** The maintenance query: planned windows and work in progress both count. */
  lemma WorkQueryMeans(c: Committed, b: nat, from: Instant, to: Instant)
    requires KeysOk(c) && from < to
    ensures HasWorkOverlap(c, b, from, to) <==> !(PlansLeave(c.records, b, from, to) && ProgressLeaves(c.records, b, to))
  {
    if HasWorkOverlap(c, b, from, to) {
      var i :| 0 <= i < |c.records| && c.records[i].busId == b && ActiveWork(c.records[i]) && WorkMeets(c.records[i], from, to);
    } else {
      forall i | 0 <= i < |c.records| && c.records[i].busId == b
        ensures c.records[i].status == WorkStatus.Scheduled ==> c.records[i].endsAt <= from || to <= c.records[i].startedAt
        ensures c.records[i].status == WorkStatus.InProgress ==> to <= c.records[i].startedAt
      {
        assert !(ActiveWork(c.records[i]) && WorkMeets(c.records[i], from, to));
      }
    }
  }

  /** The trip query over a window. */
  lemma TripQueryMeans(c: Committed, b: nat, from: Instant, to: Instant)
    requires TripsAccepted(c.trips) && from < to
    ensures HasTripOverlap(c, b, from, Some(to)) <==> !TripsLeave(c.trips, b, from, to, None)
  {
    if !HasTripOverlap(c, b, from, Some(to)) {
      forall i | 0 <= i < |c.trips| && c.trips[i].busId == b && c.trips[i].isActive && c.trips[i].status != TripStatus.Cancelled
        ensures c.trips[i].arrival <= from || to <= c.trips[i].departure
      {
        assert Live(c.trips[i]) && !Meets(c.trips[i].departure, c.trips[i].arrival, from, to);
      }
    }
  }

  /** The trip query without an end. */
  lemma OpenTripQueryMeans(c: Committed, b: nat, from: Instant)
    requires TripsAccepted(c.trips)
    ensures HasTripOverlap(c, b, from, None) <==> !TripsArrived(c.trips, b, from)
  {
    if !HasTripOverlap(c, b, from, None) {
      forall i | 0 <= i < |c.trips| && c.trips[i].busId == b && c.trips[i].isActive && c.trips[i].status != TripStatus.Cancelled
        ensures c.trips[i].arrival <= from
      {
        assert Live(c.trips[i]);
      }
    }
  }

  /** An active bus has no work in progress, so only planned windows can stand in the way. */
  lemma OnlyPlansBlock(c: Committed, b: nat, from: Instant, to: Instant)
    requires Safe(c) && InService(c, b) && from < to
    ensures HasWorkOverlap(c, b, from, to) <==> !PlansLeave(c.records, b, from, to)
  {
    assert BusSafe(c, b);
    NoWorkOnActiveBus(c, b);
    WorkQueryMeans(c, b, from, to);
  }

  lemma NoActiveMeans(c: Committed, b: nat)
    ensures HasActiveRecord(c.records, b) <==> !NoActiveWork(c.records, b)
  {
    if !HasActiveRecord(c.records, b) {
      forall i | 0 <= i < |c.records| && c.records[i].busId == b
        ensures c.records[i].status == WorkStatus.Completed || c.records[i].status == WorkStatus.Cancelled
      {
        assert !ActiveWork(c.records[i]);
      }
    }
  }

  /** What the constraints on trips ask of an added row. */
  lemma AddedTripAccepted(trips: seq<TripRow>, row: TripRow)
    requires TripsAccepted(trips) && row.isActive && row.status.Scheduled?
    ensures TripsAccepted(trips + [row])
       <==> row.departure < row.arrival && TripsLeave(trips, row.busId, row.departure, row.arrival, None)
  {
    var all := trips + [row];
    if TripsAccepted(all) {
      assert all[|trips|] == row;
      forall i | 0 <= i < |trips| && trips[i].busId == row.busId && trips[i].isActive && trips[i].status != TripStatus.Cancelled
        ensures trips[i].arrival <= row.departure || row.arrival <= trips[i].departure
      {
        assert all[i] == trips[i] && !Meets(all[i].departure, all[i].arrival, all[|trips|].departure, all[|trips|].arrival);
      }
    }
  }

  lemma MovedTripLeaves(trips: seq<TripRow>, id: nat, row: TripRow, i: nat)
    requires id < |trips| && TripsAccepted(trips[id := row]) && row.busId == trips[id].busId && row.status.Scheduled? && row.isActive
    requires i < |trips| && i != id && trips[i].busId == row.busId && Live(trips[i])
    ensures trips[i].arrival <= row.departure || row.arrival <= trips[i].departure
  {
    var all := trips[id := row];
    assert all[i] == trips[i] && all[id] == row && all[i].departure < all[i].arrival && all[id].departure < all[id].arrival;
    if i < id {
      assert !Meets(all[i].departure, all[i].arrival, all[id].departure, all[id].arrival);
    } else {
      assert !Meets(all[id].departure, all[id].arrival, all[i].departure, all[i].arrival);
    }
  }

  lemma MovedTripFits(trips: seq<TripRow>, id: nat, row: TripRow)
    requires TripsAccepted(trips) && id < |trips| && row.busId == trips[id].busId && row.departure < row.arrival
    requires row.isActive ==> TripsLeave(trips, row.busId, row.departure, row.arrival, Some(id))
    ensures TripsAccepted(trips[id := row])
  {
  }

  /** And of a row with a new window. */
  lemma MovedTripAccepted(trips: seq<TripRow>, id: nat, row: TripRow)
    requires TripsAccepted(trips) && id < |trips| && row.busId == trips[id].busId && row.status.Scheduled?
    ensures TripsAccepted(trips[id := row])
       <==> row.departure < row.arrival && (row.isActive ==> TripsLeave(trips, row.busId, row.departure, row.arrival, Some(id)))
  {
    if row.departure < row.arrival && (row.isActive ==> TripsLeave(trips, row.busId, row.departure, row.arrival, Some(id))) {
      MovedTripFits(trips, id, row);
    }
    if TripsAccepted(trips[id := row]) {
      assert trips[id := row][id] == row;
      forall i: nat | i < |trips| && i != id && trips[i].busId == row.busId && trips[i].isActive && trips[i].status != TripStatus.Cancelled && row.isActive
        ensures trips[i].arrival <= row.departure || row.arrival <= trips[i].departure
      {
        MovedTripLeaves(trips, id, row, i);
      }
    }
  }

  // ---------------------------------------------------------------- the results, in plain terms

  /** The row a new trip gets, and its one event. */
  function TripCreatedIn(c: Committed, busId: nat, departure: Instant, arrival: Instant): Committed {
    c.(trips := c.trips + [TripRow(busId, departure, arrival, TripStatus.Scheduled, true, 1)],
       log := c.log + [TripEvent(|c.trips|, TripCreated)])
  }

  function NewDeparture(op: ScheduleOp, row: TripRow): Instant
    requires op.UpdateTrip?
  {
    match op.newDeparture
    case Some(at) => at
    case None => row.departure
  }

  function NewArrival(op: ScheduleOp, row: TripRow): Instant
    requires op.UpdateTrip?
  {
    match op.newArrival
    case Some(at) => at
    case None => row.arrival
  }

  /** An edited trip stores exactly the instants given, keeps the others, and no event is logged. */
  function TripEditedIn(c: Committed, op: ScheduleOp): Committed
    requires op.UpdateTrip? && op.tripId < |c.trips|
  {
    var row := c.trips[op.tripId];
    c.(trips := c.trips[op.tripId :=
         TripRow(row.busId, NewDeparture(op, row), NewArrival(op, row), row.status, row.isActive, row.version + 1)])
  }

  predicate MayAct(c: Committed, tripId: nat, action: TripAction) {
    tripId < |c.trips| &&
    match action
    case StartTrip => c.trips[tripId].status == TripStatus.Scheduled
    case CompleteTrip => c.trips[tripId].status == TripStatus.Ongoing
    case CancelTrip => c.trips[tripId].status == TripStatus.Scheduled
  }

  /** Start: SCHEDULED to ONGOING, DEPARTED. Complete: ONGOING to COMPLETED, ARRIVED. Cancel: SCHEDULED to CANCELLED, CANCELLED. */
  function TripActedIn(c: Committed, tripId: nat, action: TripAction): Committed
    requires tripId < |c.trips|
  {
    var row := c.trips[tripId];
    match action
    case StartTrip =>
      c.(trips := c.trips[tripId := TripRow(row.busId, row.departure, row.arrival, TripStatus.Ongoing, row.isActive, row.version + 1)],
         log := c.log + [TripEvent(tripId, Departed)])
    case CompleteTrip =>
      c.(trips := c.trips[tripId := TripRow(row.busId, row.departure, row.arrival, TripStatus.Completed, row.isActive, row.version + 1)],
         log := c.log + [TripEvent(tripId, Arrived)])
    case CancelTrip =>
      c.(trips := c.trips[tripId := TripRow(row.busId, row.departure, row.arrival, TripStatus.Cancelled, row.isActive, row.version + 1)],
         log := c.log + [TripEvent(tripId, TripCancelled)])
  }

  function RecordCreatedIn(c: Committed, busId: nat, startsAt: Instant, endsAt: Instant): Committed {
    c.(records := c.records + [WorkRecord(busId, startsAt, endsAt, WorkStatus.Scheduled, startsAt)])
  }

  /** Closing work gives a bus under maintenance, unless deleted, back to service; any other bus row stays as it is. */
  function BusRestored(bus: BusRow): BusRow {
    if bus.status == BusStatus.InMaintenance && !bus.deleted then BusRow(BusStatus.Active, bus.isActive, bus.deleted) else bus
  }

  predicate MayWork(c: Committed, recordId: nat, work: WorkAction) {
    recordId < |c.records| &&
    match work
    case StartWork => c.records[recordId].status == WorkStatus.Scheduled
    case CompleteWork => c.records[recordId].status == WorkStatus.InProgress
    case CancelWork => c.records[recordId].status == WorkStatus.Scheduled || c.records[recordId].status == WorkStatus.InProgress
  }

  /**
   * Start: SCHEDULED to IN_PROGRESS, and the bus goes under maintenance. Complete: IN_PROGRESS to COMPLETED; cancel:
   * SCHEDULED or IN_PROGRESS to CANCELLED; either way the bus is given back.
   */
  function WorkDoneIn(c: Committed, recordId: nat, work: WorkAction, at: Instant): Committed
    requires recordId < |c.records| && c.records[recordId].busId in c.buses
  {
    var row := c.records[recordId];
    var bus := c.buses[row.busId];
    match work
    case StartWork =>
      c.(records := c.records[recordId := WorkRecord(row.busId, row.startedAt, row.endsAt, WorkStatus.InProgress, at)],
         buses := c.buses[row.busId := BusRow(BusStatus.InMaintenance, bus.isActive, bus.deleted)])
    case CompleteWork =>
      c.(records := c.records[recordId := WorkRecord(row.busId, row.startedAt, row.endsAt, WorkStatus.Completed, row.actualStart)],
         buses := c.buses[row.busId := BusRestored(bus)])
    case CancelWork =>
      c.(records := c.records[recordId := WorkRecord(row.busId, row.startedAt, row.endsAt, WorkStatus.Cancelled, row.actualStart)],
         buses := c.buses[row.busId := BusRestored(bus)])
  }

  // ---------------------------------------------------------------- what a commit does, under any interleaving

  /** A trip is created only on a bus in service, clear of planned work and of every other live trip. */
  lemma CreateTripCommit(s: System, id: nat)
    requires Inv(s) && id in s.sessions && s.sessions[id].op.CreateTrip? && s.sessions[id].stage.Ready?
    ensures var op, next := s.sessions[id].op, Take(s, Go(id));
      && id !in next.sessions && InService(s.db, op.busId)
      && if op.departure < op.arrival && TripsLeave(s.db.trips, op.busId, op.departure, op.arrival, None)
         then next.db == TripCreatedIn(s.db, op.busId, op.departure, op.arrival)
              && PlansLeave(s.db.records, op.busId, op.departure, op.arrival)
         else next.db == s.db
  {
    var op := s.sessions[id].op;
    assert SessionOk(s.db, s.sessions[id]);
    AddedTripAccepted(s.db.trips, TripRow(op.busId, op.departure, op.arrival, TripStatus.Scheduled, true, 1));
    if op.departure < op.arrival {
      OpenMeansPlansLeave(s.db, op.busId, op.departure, op.arrival);
    }
  }

  lemma OpenMeansPlansLeave(c: Committed, b: nat, from: Instant, to: Instant)
    requires WindowOpen(c, b, from, to) && from < to && KeysOk(c)
    ensures PlansLeave(c.records, b, from, to)
  {
    forall i | 0 <= i < |c.records| && c.records[i].busId == b && c.records[i].status == WorkStatus.Scheduled
      ensures c.records[i].endsAt <= from || to <= c.records[i].startedAt
    {
      assert !Meets(c.records[i].startedAt, c.records[i].endsAt, from, to);
    }
  }

  /** An edit stores the instants given on the SCHEDULED row of the expected version, or changes nothing. */
  lemma UpdateTripCommit(s: System, id: nat)
    requires Inv(s) && id in s.sessions && s.sessions[id].op.UpdateTrip? && s.sessions[id].stage.Ready?
    ensures var op, next := s.sessions[id].op, Take(s, Go(id));
      && id !in next.sessions && op.tripId < |s.db.trips|
      && var row := s.db.trips[op.tripId]; var from, to := NewDeparture(op, row), NewArrival(op, row);
      && row.status == TripStatus.Scheduled && row.version == op.expected && InService(s.db, row.busId)
      && if from < to && (row.isActive ==> TripsLeave(s.db.trips, row.busId, from, to, Some(op.tripId)))
         then next.db == TripEditedIn(s.db, op) && PlansLeave(s.db.records, row.busId, from, to)
         else next.db == s.db
  {
    assert SessionOk(s.db, s.sessions[id]);
    var op := s.sessions[id].op;
    var row := s.db.trips[op.tripId];
    var from, to := NewDeparture(op, row), NewArrival(op, row);
    MovedTripAccepted(s.db.trips, op.tripId, UpdatedRow(op, row));
    if from < to {
      OpenMeansPlansLeave(s.db, row.busId, from, to);
    }
    assert s.db.log + [] == s.db.log;
  }

  lemma TripActionInstalls(c: Committed, op: ScheduleOp, stage: Stage)
    requires op.ActOnTrip? && stage.Ready? && TripActionOk(c, op, stage)
    ensures MayAct(c, op.tripId, op.action)
    ensures Install(c, stage.held, stage.writes) == TripActedIn(c, op.tripId, op.action)
  {
  }

  /** A lifecycle action that reaches its commit moves the row it names along its own edge and logs its own event. */
  lemma TripActionCommit(s: System, id: nat)
    requires Inv(s) && id in s.sessions && s.sessions[id].op.ActOnTrip? && s.sessions[id].stage.Ready?
    ensures var op, next := s.sessions[id].op, Take(s, Go(id));
      && id !in next.sessions && MayAct(s.db, op.tripId, op.action)
      && next.db == TripActedIn(s.db, op.tripId, op.action)
  {
    assert SessionOk(s.db, s.sessions[id]);
    TripActionInstalls(s.db, s.sessions[id].op, s.sessions[id].stage);
    TripActionCommits(s.db, s.sessions[id].op, s.sessions[id].stage);
  }

  /** Work is planned on a usable bus without active work, clear of every live trip. */
  lemma CreateRecordCommit(s: System, id: nat)
    requires Inv(s) && id in s.sessions && s.sessions[id].op.CreateRecord? && s.sessions[id].stage.Ready?
    ensures var op, next := s.sessions[id].op, Take(s, Go(id));
      && id !in next.sessions && op.busId in s.db.buses && s.db.buses[op.busId].isActive && !s.db.buses[op.busId].deleted
      && op.startsAt < op.endsAt && NoActiveWork(s.db.records, op.busId)
      && TripsLeave(s.db.trips, op.busId, op.startsAt, op.endsAt, None)
      && next.db == RecordCreatedIn(s.db, op.busId, op.startsAt, op.endsAt)
  {
    assert SessionOk(s.db, s.sessions[id]);
    var op := s.sessions[id].op;
    NoActiveMeans(s.db, op.busId);
    forall i | 0 <= i < |s.db.trips| && s.db.trips[i].busId == op.busId && s.db.trips[i].isActive && s.db.trips[i].status != TripStatus.Cancelled
      ensures s.db.trips[i].arrival <= op.startsAt || op.endsAt <= s.db.trips[i].departure
    {
      assert Live(s.db.trips[i]) && !Meets(s.db.trips[i].departure, s.db.trips[i].arrival, op.startsAt, op.endsAt);
    }
  }

  /** The record's own bus after the action: nothing else on it is active once this record closes. */
  lemma BusAfterMeans(c: Committed, op: ScheduleOp, b: nat, record: WorkRecord)
    requires Safe(c) && op.ActOnRecord? && RecordMoved(c, op, b, record)
    requires BusAfter(c, b, op.recordId, record, op.work).Some?
    ensures var bus := BusAfter(c, b, op.recordId, record, op.work).value;
      if op.work.StartWork? then c.buses[b].status == BusStatus.Active && !c.buses[b].deleted
                                 && bus == BusRow(BusStatus.InMaintenance, c.buses[b].isActive, c.buses[b].deleted)
      else bus == BusRestored(c.buses[b])
  {
    assert BusSafe(c, b);
    if !op.work.StartWork? {
      OthersIdle(c, b, op.recordId);
      assert !HasActiveRecord(c.records[op.recordId := record], b);
    }
  }

  /** A maintenance action that reaches its commit moves its record, and the row of its bus, exactly as it should. */
  lemma RecordActionCommit(s: System, id: nat)
    requires Inv(s) && id in s.sessions && s.sessions[id].op.ActOnRecord? && s.sessions[id].stage.Ready?
    ensures var op, next := s.sessions[id].op, Take(s, Go(id));
      && id !in next.sessions && MayWork(s.db, op.recordId, op.work)
      && var b := s.db.records[op.recordId].busId;
      && b in s.db.buses && !s.db.buses[b].deleted
      && var at := s.sessions[id].stage.writes.record.actualStart;
      && (op.work.StartWork? ==> s.db.buses[b].status == BusStatus.Active && TripsArrived(s.db.trips, b, at))
      && next.db == WorkDoneIn(s.db, op.recordId, op.work, at)
  {
    assert SessionOk(s.db, s.sessions[id]);
    var op, w := s.sessions[id].op, s.sessions[id].stage.writes;
    var b := s.db.records[op.recordId].busId;
    BusAfterMeans(s.db, op, b, w.record);
    if op.work.StartWork? {
      DoneMeansArrived(s.db, b, w.record.actualStart);
    }
    assert Install(s.db, Some(b), w) == WorkDoneIn(s.db, op.recordId, op.work, w.record.actualStart);
  }

  lemma DoneMeansArrived(c: Committed, b: nat, at: Instant)
    requires TripsDoneBy(c, b, at)
    ensures TripsArrived(c.trips, b, at)
  {
    forall i | 0 <= i < |c.trips| && c.trips[i].busId == b && c.trips[i].isActive && c.trips[i].status != TripStatus.Cancelled
      ensures c.trips[i].arrival <= at
    {
      assert Live(c.trips[i]);
    }
  }

  // ---------------------------------------------------------------- exactly when, for an undisturbed session

  /** The session runs alone for up to `n` statements. */
  function Alone(s: System, id: nat, n: nat): System
    decreases n
  {
    if n == 0 || id !in s.sessions then s else Alone(Take(s, Go(id)), id, n - 1)
  }

  /** Within `n` statements the session is over and leaves the tables `d`. */
  ghost predicate Ends(s: System, id: nat, n: nat, d: Committed) {
    id !in Alone(s, id, n).sessions && Alone(s, id, n).db == d
  }

  /** The statement changes no table and no trip lock, and the session is at its next stage. */
  ghost predicate MovesTo(s: System, id: nat, stage: Stage)
    requires id in s.sessions
  {
    var next := Take(s, Go(id));
    && id in next.sessions && next.sessions[id] == s.sessions[id].(stage := stage)
    && next.db == s.db && next.clock == s.clock && next.tripLocks == s.tripLocks
  }

  /** The statement ends the session and changes no table. */
  ghost predicate GivesUp(s: System, id: nat) {
    id !in Take(s, Go(id)).sessions && Take(s, Go(id)).db == s.db
  }

  lemma EndsNow(s: System, id: nat, n: nat, d: Committed)
    requires n > 0 && id in s.sessions && id !in Take(s, Go(id)).sessions && Take(s, Go(id)).db == d
    ensures Ends(s, id, n, d)
  {
    assert Alone(Take(s, Go(id)), id, n - 1) == Take(s, Go(id));
  }

  /** The state after a statement that moves the session on. */
  lemma MovedState(s: System, id: nat, stage: Stage) returns (next: System)
    requires Inv(s) && id in s.sessions && MovesTo(s, id, stage)
    ensures next == Take(s, Go(id)) && Inv(next)
    ensures id in next.sessions && next.sessions[id] == s.sessions[id].(stage := stage)
    ensures next.db == s.db && next.clock == s.clock && next.tripLocks == s.tripLocks
  {
    next := Take(s, Go(id));
    TakeKeepsInv(s, Go(id));
  }

  lemma EndsLater(s: System, id: nat, n: nat, d: Committed)
    requires n > 0 && id in s.sessions && Ends(Take(s, Go(id)), id, n - 1, d)
    ensures Ends(s, id, n, d)
  {
  }

  lemma TripActionBegins(s: System, id: nat)
    requires id in s.sessions && s.sessions[id].op.ActOnTrip? && s.sessions[id].stage.Begun?
    requires s.sessions[id].op.tripId !in s.tripLocks
    ensures var op, next := s.sessions[id].op, Take(s, Go(id));
      if MayAct(s.db, op.tripId, op.action)
      then next.db == s.db && id in next.sessions && next.sessions[id].op == op && next.sessions[id].stage.Ready?
      else GivesUp(s, id)
  {
  }

  /**
   * A lifecycle action alone: committed exactly when the trip is in the one status the action starts from; in any
   * other status, or without such a trip, nothing changes.
   */
  lemma TripActionAlone(s: System, id: nat, n: nat)
    requires n >= 2 && Inv(s) && id in s.sessions && s.sessions[id].op.ActOnTrip? && s.sessions[id].stage.Begun?
    requires s.sessions[id].op.tripId !in s.tripLocks
    ensures var op := s.sessions[id].op;
      Ends(s, id, n, if MayAct(s.db, op.tripId, op.action) then TripActedIn(s.db, op.tripId, op.action) else s.db)
  {
    var op, next := s.sessions[id].op, Take(s, Go(id));
    TripActionBegins(s, id);
    if MayAct(s.db, op.tripId, op.action) {
      TakeKeepsInv(s, Go(id));
      TripActionCommit(next, id);
      EndsNow(next, id, n - 1, TripActedIn(s.db, op.tripId, op.action));
      EndsLater(s, id, n, TripActedIn(s.db, op.tripId, op.action));
    } else {
      EndsNow(s, id, n, s.db);
    }
  }

  // ---- createTrip

  ghost predicate MayCreateTrip(c: Committed, busId: nat, from: Instant, to: Instant) {
    InService(c, busId) && from < to && PlansLeave(c.records, busId, from, to) && TripsLeave(c.trips, busId, from, to, None)
  }

  /** The tables a trip creation on its own leaves. */
  ghost function TripCreation(c: Committed, op: ScheduleOp): Committed
    requires op.CreateTrip?
  {
    if MayCreateTrip(c, op.busId, op.departure, op.arrival) then TripCreatedIn(c, op.busId, op.departure, op.arrival) else c
  }

  lemma CreateTripLocks(s: System, id: nat)
    requires id in s.sessions && s.sessions[id].op.CreateTrip? && s.sessions[id].stage.Begun?
    requires s.sessions[id].op.busId !in s.busLocks
    ensures var b := s.sessions[id].op.busId; if InService(s.db, b) then MovesTo(s, id, Locked(b, None)) else GivesUp(s, id)
  {
  }

  lemma CreateTripChecks(s: System, id: nat)
    requires id in s.sessions && s.sessions[id].op.CreateTrip? && s.sessions[id].stage.Locked?
    ensures var op, b := s.sessions[id].op, s.sessions[id].stage.busId;
      if HasWorkOverlap(s.db, b, op.departure, op.arrival) then GivesUp(s, id) else MovesTo(s, id, Checked(b, None, s.clock))
  {
  }

  lemma CreateTripInserts(s: System, id: nat)
    requires id in s.sessions && s.sessions[id].op.CreateTrip? && s.sessions[id].stage.Checked?
    ensures var op, b := s.sessions[id].op, s.sessions[id].stage.busId;
      MovesTo(s, id, Ready(Some(b), InsertTrip(TripRow(b, op.departure, op.arrival, TripStatus.Scheduled, true, 1))))
  {
  }

  lemma CreateTripFromChecked(s: System, id: nat, n: nat)
    requires n >= 2 && Inv(s) && id in s.sessions && s.sessions[id].op.CreateTrip? && s.sessions[id].stage.Checked?
    ensures Ends(s, id, n, TripCreation(s.db, s.sessions[id].op))
  {
    var op, next := s.sessions[id].op, Take(s, Go(id));
    CreateTripInserts(s, id);
    TakeKeepsInv(s, Go(id));
    CreateTripCommit(next, id);
    EndsNow(next, id, n - 1, TripCreation(s.db, op));
    EndsLater(s, id, n, TripCreation(s.db, op));
  }

  /** An overlap found under the lock is an overlap with planned work; an empty window never meets any. */
  lemma OverlapMeansPlanned(c: Committed, b: nat, from: Instant, to: Instant)
    requires Safe(c) && InService(c, b)
    ensures HasWorkOverlap(c, b, from, to) <==> from < to && !PlansLeave(c.records, b, from, to)
  {
    if from < to { OnlyPlansBlock(c, b, from, to); }
  }

  lemma CreateTripFromLocked(s: System, id: nat, n: nat)
    requires n >= 3 && Inv(s) && id in s.sessions && s.sessions[id].op.CreateTrip? && s.sessions[id].stage.Locked?
    ensures Ends(s, id, n, TripCreation(s.db, s.sessions[id].op))
  {
    var op := s.sessions[id].op;
    assert SessionOk(s.db, s.sessions[id]);
    CreateTripChecks(s, id);
    OverlapMeansPlanned(s.db, op.busId, op.departure, op.arrival);
    if HasWorkOverlap(s.db, op.busId, op.departure, op.arrival) {
      EndsNow(s, id, n, s.db);
    } else {
      TakeKeepsInv(s, Go(id));
      CreateTripFromChecked(Take(s, Go(id)), id, n - 1);
      EndsLater(s, id, n, TripCreation(s.db, op));
    }
  }

  /**
   * A trip creation alone: committed exactly when the bus is in service, the window is not empty, and every planned
   * window and every live trip of the bus leaves it free. A bus in service has no work in progress.
   */
  lemma CreateTripAlone(s: System, id: nat, n: nat)
    requires n >= 4 && Inv(s) && id in s.sessions && s.sessions[id].op.CreateTrip? && s.sessions[id].stage.Begun?
    requires s.sessions[id].op.busId !in s.busLocks
    ensures Ends(s, id, n, TripCreation(s.db, s.sessions[id].op))
  {
    var op := s.sessions[id].op;
    CreateTripLocks(s, id);
    if InService(s.db, op.busId) {
      var next := MovedState(s, id, Locked(op.busId, None));
      CreateTripFromLocked(next, id, n - 1);
      EndsLater(s, id, n, TripCreation(s.db, op));
    } else {
      EndsNow(s, id, n, s.db);
    }
  }

  // ---- updateTrip

  ghost predicate MayEditTrip(c: Committed, op: ScheduleOp)
    requires op.UpdateTrip?
  {
    && op.tripId < |c.trips|
    && var row := c.trips[op.tripId]; var from, to := NewDeparture(op, row), NewArrival(op, row);
    && row.status == TripStatus.Scheduled && row.version == op.expected && InService(c, row.busId) && from < to
    && PlansLeave(c.records, row.busId, from, to)
    && (row.isActive ==> TripsLeave(c.trips, row.busId, from, to, Some(op.tripId)))
  }

  ghost function TripEdit(c: Committed, op: ScheduleOp): Committed
    requires op.UpdateTrip?
  {
    if MayEditTrip(c, op) then TripEditedIn(c, op) else c
  }

  /** Reading the trip takes no lock. */
  lemma UpdateReads(s: System, id: nat)
    requires id in s.sessions && s.sessions[id].op.UpdateTrip? && s.sessions[id].stage.Begun?
    ensures var op, c := s.sessions[id].op, s.db;
      if op.tripId < |c.trips| && c.trips[op.tripId].status == TripStatus.Scheduled && c.trips[op.tripId].version == op.expected
      then MovesTo(s, id, TripRead(c.trips[op.tripId])) && Take(s, Go(id)).busLocks == s.busLocks else GivesUp(s, id)
  {
  }

  lemma UpdateLocks(s: System, id: nat, row: TripRow)
    requires id in s.sessions && s.sessions[id].op.UpdateTrip? && s.sessions[id].stage == TripRead(row) && row.busId !in s.busLocks
    ensures if InService(s.db, row.busId) then MovesTo(s, id, Locked(row.busId, Some(row))) else GivesUp(s, id)
  {
  }

  lemma UpdateChecks(s: System, id: nat, row: TripRow)
    requires id in s.sessions && s.sessions[id].op.UpdateTrip? && s.sessions[id].stage == Locked(row.busId, Some(row))
    ensures var op := s.sessions[id].op;
      if HasWorkOverlap(s.db, row.busId, NewDeparture(op, row), NewArrival(op, row)) then GivesUp(s, id)
      else MovesTo(s, id, Checked(row.busId, Some(row), s.clock))
  {
  }

  lemma UpdateTripWrites(s: System, id: nat)
    requires id in s.sessions && s.sessions[id].op.UpdateTrip? && s.sessions[id].stage.Checked?
    requires var op := s.sessions[id].op;
      && op.tripId !in s.tripLocks && op.tripId < |s.db.trips|
      && s.db.trips[op.tripId].status == TripStatus.Scheduled && s.db.trips[op.tripId].version == op.expected
    ensures var next := Take(s, Go(id));
      next.db == s.db && id in next.sessions && next.sessions[id].op == s.sessions[id].op && next.sessions[id].stage.Ready?
  {
  }

  /** The session has read the row as it still is. */
  ghost predicate ReadIsCurrent(s: System, id: nat)
    requires id in s.sessions && s.sessions[id].op.UpdateTrip?
  {
    var op := s.sessions[id].op;
    && op.tripId !in s.tripLocks && op.tripId < |s.db.trips|
    && s.db.trips[op.tripId].status == TripStatus.Scheduled && s.db.trips[op.tripId].version == op.expected
  }

  lemma UpdateTripFromChecked(s: System, id: nat, n: nat)
    requires n >= 2 && Inv(s) && id in s.sessions && s.sessions[id].op.UpdateTrip? && s.sessions[id].stage.Checked? && ReadIsCurrent(s, id)
    ensures Ends(s, id, n, TripEdit(s.db, s.sessions[id].op))
  {
    var op, next := s.sessions[id].op, Take(s, Go(id));
    UpdateTripWrites(s, id);
    TakeKeepsInv(s, Go(id));
    UpdateTripCommit(next, id);
    EndsNow(next, id, n - 1, TripEdit(s.db, op));
    EndsLater(s, id, n, TripEdit(s.db, op));
  }

  lemma LockedReadIsCurrent(c: Committed, op: ScheduleOp, stage: Stage)
    requires op.UpdateTrip? && stage.Locked? && UpdateTripOk(c, op, stage)
    requires op.tripId < |c.trips| && c.trips[op.tripId].version == op.expected
    ensures stage.read == Some(c.trips[op.tripId]) && stage.busId == c.trips[op.tripId].busId && InService(c, stage.busId)
  {
  }

  lemma UpdateTripFromLocked(s: System, id: nat, n: nat)
    requires n >= 3 && Inv(s) && id in s.sessions && s.sessions[id].op.UpdateTrip? && s.sessions[id].stage.Locked? && ReadIsCurrent(s, id)
    ensures Ends(s, id, n, TripEdit(s.db, s.sessions[id].op))
  {
    var op := s.sessions[id].op;
    var row := s.db.trips[op.tripId];
    assert SessionOk(s.db, s.sessions[id]);
    LockedReadIsCurrent(s.db, op, s.sessions[id].stage);
    UpdateChecks(s, id, row);
    OverlapMeansPlanned(s.db, row.busId, NewDeparture(op, row), NewArrival(op, row));
    if HasWorkOverlap(s.db, row.busId, NewDeparture(op, row), NewArrival(op, row)) {
      EndsNow(s, id, n, s.db);
    } else {
      TakeKeepsInv(s, Go(id));
      UpdateTripFromChecked(Take(s, Go(id)), id, n - 1);
      EndsLater(s, id, n, TripEdit(s.db, op));
    }
  }

  lemma UpdateTripFromRead(s: System, id: nat, n: nat)
    requires n >= 4 && Inv(s) && id in s.sessions && s.sessions[id].op.UpdateTrip? && ReadIsCurrent(s, id)
    requires s.sessions[id].stage == TripRead(s.db.trips[s.sessions[id].op.tripId])
    requires s.db.trips[s.sessions[id].op.tripId].busId !in s.busLocks
    ensures Ends(s, id, n, TripEdit(s.db, s.sessions[id].op))
  {
    var op := s.sessions[id].op;
    UpdateLocks(s, id, s.db.trips[op.tripId]);
    if InService(s.db, s.db.trips[op.tripId].busId) {
      var next := MovedState(s, id, Locked(s.db.trips[op.tripId].busId, Some(s.db.trips[op.tripId])));
      StillCurrent(s, id, Locked(s.db.trips[op.tripId].busId, Some(s.db.trips[op.tripId])));
      UpdateTripFromLocked(next, id, n - 1);
      EndsLater(s, id, n, TripEdit(s.db, op));
    } else {
      EndsNow(s, id, n, s.db);
    }
  }

  lemma StillCurrent(s: System, id: nat, stage: Stage)
    requires id in s.sessions && s.sessions[id].op.UpdateTrip? && ReadIsCurrent(s, id) && MovesTo(s, id, stage)
    ensures var next := Take(s, Go(id)); next.sessions[id].op == s.sessions[id].op && ReadIsCurrent(next, id)
  {
  }

  /**
   * A trip edit alone: committed exactly when the trip is SCHEDULED in the expected version on a bus in service, and
   * the window with the given instants is not empty and left free by planned work and every other live trip.
   */
  lemma UpdateTripAlone(s: System, id: nat, n: nat)
    requires n >= 5 && Inv(s) && id in s.sessions && s.sessions[id].op.UpdateTrip? && s.sessions[id].stage.Begun?
    requires s.sessions[id].op.tripId !in s.tripLocks
    requires s.sessions[id].op.tripId < |s.db.trips| ==> s.db.trips[s.sessions[id].op.tripId].busId !in s.busLocks
    ensures Ends(s, id, n, TripEdit(s.db, s.sessions[id].op))
  {
    var op := s.sessions[id].op;
    UpdateReads(s, id);
    if ReadIsCurrent(s, id) {
      TakeKeepsInv(s, Go(id));
      StillCurrent(s, id, TripRead(s.db.trips[op.tripId]));
      UpdateTripFromRead(Take(s, Go(id)), id, n - 1);
      EndsLater(s, id, n, TripEdit(s.db, op));
    } else {
      EndsNow(s, id, n, s.db);
    }
  }

  // ---- createRecord

  ghost predicate MayPlanWork(c: Committed, busId: nat, from: Instant, to: Instant) {
    && busId in c.buses && c.buses[busId].isActive && !c.buses[busId].deleted
    && from < to && NoActiveWork(c.records, busId) && TripsLeave(c.trips, busId, from, to, None)
  }

  ghost function RecordCreation(c: Committed, op: ScheduleOp): Committed
    requires op.CreateRecord?
  {
    if MayPlanWork(c, op.busId, op.startsAt, op.endsAt) then RecordCreatedIn(c, op.busId, op.startsAt, op.endsAt) else c
  }

  lemma UnusableIsNotPlanned(c: Committed, op: ScheduleOp)
    requires op.CreateRecord? && !(op.startsAt < op.endsAt && Usable(c, op.busId))
    ensures RecordCreation(c, op) == c
  {
  }

  lemma CreateRecordLocks(s: System, id: nat)
    requires id in s.sessions && s.sessions[id].op.CreateRecord? && s.sessions[id].stage.Begun?
    requires s.sessions[id].op.busId !in s.busLocks
    ensures var op := s.sessions[id].op;
      if op.startsAt < op.endsAt && Usable(s.db, op.busId) then MovesTo(s, id, Locked(op.busId, None)) else GivesUp(s, id)
  {
  }

  lemma CreateRecordCounts(s: System, id: nat)
    requires id in s.sessions && s.sessions[id].op.CreateRecord? && s.sessions[id].stage.Locked?
    ensures var b := s.sessions[id].stage.busId;
      if HasActiveRecord(s.db.records, b) then GivesUp(s, id) else MovesTo(s, id, NoActive(b))
  {
  }

  lemma CreateRecordChecks(s: System, id: nat)
    requires id in s.sessions && s.sessions[id].op.CreateRecord? && s.sessions[id].stage.NoActive?
    ensures var op, b := s.sessions[id].op, s.sessions[id].stage.busId;
      if HasTripOverlap(s.db, b, op.startsAt, Some(op.endsAt)) then GivesUp(s, id) else MovesTo(s, id, Checked(b, None, s.clock))
  {
  }

  lemma CreateRecordInserts(s: System, id: nat)
    requires id in s.sessions && s.sessions[id].op.CreateRecord? && s.sessions[id].stage.Checked?
    ensures var op, b := s.sessions[id].op, s.sessions[id].stage.busId;
      MovesTo(s, id, Ready(Some(b), InsertRecord(WorkRecord(b, op.startsAt, op.endsAt, WorkStatus.Scheduled, op.startsAt))))
  {
  }

  lemma CreateRecordFromChecked(s: System, id: nat, n: nat)
    requires n >= 2 && Inv(s) && id in s.sessions && s.sessions[id].op.CreateRecord? && s.sessions[id].stage.Checked?
    ensures Ends(s, id, n, RecordCreation(s.db, s.sessions[id].op))
  {
    var op, next := s.sessions[id].op, Take(s, Go(id));
    CreateRecordInserts(s, id);
    TakeKeepsInv(s, Go(id));
    CreateRecordCommit(next, id);
    EndsNow(next, id, n - 1, RecordCreation(s.db, op));
    EndsLater(s, id, n, RecordCreation(s.db, op));
  }

  lemma CreateRecordFromNoActive(s: System, id: nat, n: nat)
    requires n >= 3 && Inv(s) && id in s.sessions && s.sessions[id].op.CreateRecord? && s.sessions[id].stage.NoActive?
    ensures Ends(s, id, n, RecordCreation(s.db, s.sessions[id].op))
  {
    var op := s.sessions[id].op;
    assert SessionOk(s.db, s.sessions[id]);
    CreateRecordChecks(s, id);
    TripQueryMeans(s.db, op.busId, op.startsAt, op.endsAt);
    if HasTripOverlap(s.db, op.busId, op.startsAt, Some(op.endsAt)) {
      EndsNow(s, id, n, s.db);
    } else {
      TakeKeepsInv(s, Go(id));
      CreateRecordFromChecked(Take(s, Go(id)), id, n - 1);
      EndsLater(s, id, n, RecordCreation(s.db, op));
    }
  }

  lemma CreateRecordFromLocked(s: System, id: nat, n: nat)
    requires n >= 4 && Inv(s) && id in s.sessions && s.sessions[id].op.CreateRecord? && s.sessions[id].stage.Locked?
    ensures Ends(s, id, n, RecordCreation(s.db, s.sessions[id].op))
  {
    var op := s.sessions[id].op;
    assert SessionOk(s.db, s.sessions[id]);
    CreateRecordCounts(s, id);
    NoActiveMeans(s.db, op.busId);
    if HasActiveRecord(s.db.records, op.busId) {
      EndsNow(s, id, n, s.db);
    } else {
      TakeKeepsInv(s, Go(id));
      CreateRecordFromNoActive(Take(s, Go(id)), id, n - 1);
      EndsLater(s, id, n, RecordCreation(s.db, op));
    }
  }

  lemma CreateRecordFromUsable(s: System, id: nat, n: nat)
    requires n >= 5 && Inv(s) && id in s.sessions && s.sessions[id].op.CreateRecord?
    requires MovesTo(s, id, Locked(s.sessions[id].op.busId, None))
    ensures Ends(s, id, n, RecordCreation(s.db, s.sessions[id].op))
  {
    var op := s.sessions[id].op;
    var next := MovedState(s, id, Locked(op.busId, None));
    CreateRecordFromLocked(next, id, n - 1);
    EndsLater(s, id, n, RecordCreation(s.db, op));
  }

  /**
   * A maintenance plan alone: committed exactly when its window is not empty, the bus is usable and has no active
   * work, and every live trip of the bus leaves the window free.
   */
  lemma CreateRecordAlone(s: System, id: nat, n: nat)
    requires n >= 5 && Inv(s) && id in s.sessions && s.sessions[id].op.CreateRecord? && s.sessions[id].stage.Begun?
    requires s.sessions[id].op.busId !in s.busLocks
    ensures Ends(s, id, n, RecordCreation(s.db, s.sessions[id].op))
  {
    var op := s.sessions[id].op;
    CreateRecordLocks(s, id);
    if op.startsAt < op.endsAt && Usable(s.db, op.busId) {
      CreateRecordFromUsable(s, id, n);
    } else {
      UnusableIsNotPlanned(s.db, op);
      EndsNow(s, id, n, s.db);
    }
  }

  // ---- applyAction

  /** The action may be applied at this instant by a transaction begun at `begunAt`. */
  ghost predicate MayApply(c: Committed, recordId: nat, work: WorkAction, begunAt: Instant, now: Instant) {
    && MayWork(c, recordId, work)
    && var row := c.records[recordId];
    && row.busId in c.buses && !c.buses[row.busId].deleted
    && (work.StartWork? ==> c.buses[row.busId].status == BusStatus.Active && TripsArrived(c.trips, row.busId, now))
    && (work.CompleteWork? ==> row.startedAt <= begunAt)
  }

  ghost function RecordAction(c: Committed, op: ScheduleOp, begunAt: Instant, now: Instant): Committed
    requires op.ActOnRecord?
  {
    if MayApply(c, op.recordId, op.work, begunAt, now) then WorkDoneIn(c, op.recordId, op.work, now) else c
  }

  lemma RecordReads(s: System, id: nat)
    requires id in s.sessions && s.sessions[id].op.ActOnRecord? && s.sessions[id].stage.Begun?
    ensures var op := s.sessions[id].op;
      if op.recordId < |s.db.records|
      then MovesTo(s, id, RecordRead(s.db.records[op.recordId].busId)) && Take(s, Go(id)).busLocks == s.busLocks
      else GivesUp(s, id)
  {
  }

  lemma RecordLocks(s: System, id: nat, b: nat)
    requires id in s.sessions && s.sessions[id].op.ActOnRecord? && s.sessions[id].op.recordId < |s.db.records|
    requires s.sessions[id].stage == RecordRead(b) && b !in s.busLocks
    ensures if b in s.db.buses && !s.db.buses[b].deleted then MovesTo(s, id, Locked(b, None)) else GivesUp(s, id)
  {
  }

  lemma RecordChecks(s: System, id: nat)
    requires id in s.sessions && s.sessions[id].op.ActOnRecord? && s.sessions[id].op.recordId < |s.db.records|
    requires s.sessions[id].stage.Locked? && s.sessions[id].stage.busId in s.db.buses && TripsAccepted(s.db.trips)
    ensures var op, b := s.sessions[id].op, s.sessions[id].stage.busId;
      if op.work.StartWork? ==> TripsArrived(s.db.trips, b, s.clock) && s.db.buses[b].status == BusStatus.Active
      then MovesTo(s, id, Checked(b, None, s.clock)) else GivesUp(s, id)
  {
    OpenTripQueryMeans(s.db, s.sessions[id].stage.busId, s.clock);
  }

  lemma RecordTransitionStatement(s: System, id: nat)
    requires id in s.sessions && s.sessions[id].op.ActOnRecord? && s.sessions[id].op.recordId < |s.db.records|
    requires s.sessions[id].stage.Checked?
    ensures var op, c, stage := s.sessions[id].op, s.db, s.sessions[id].stage; var row := c.records[op.recordId];
      if MayWork(c, op.recordId, op.work) && (op.work.CompleteWork? ==> row.startedAt <= s.sessions[id].begunAt)
      then
        var next := Take(s, Go(id));
        && id in next.sessions && next.db == c
        && next.sessions[id].op == op && next.sessions[id].stage.Changed? && next.sessions[id].stage.busId == stage.busId
        && next.sessions[id].stage.record.actualStart == if op.work.StartWork? then stage.at else row.actualStart
      else GivesUp(s, id)
  {
  }

  /** The bus statement never refuses: start found the bus ACTIVE under the lock it still holds. */
  lemma BusStatement(s: System, id: nat)
    requires Inv(s) && id in s.sessions && s.sessions[id].op.ActOnRecord? && s.sessions[id].stage.Changed?
    ensures var next := Take(s, Go(id));
      && id in next.sessions && next.db == s.db && next.sessions[id].op == s.sessions[id].op && next.sessions[id].stage.Ready?
      && next.sessions[id].stage.writes.ReplaceRecord? && next.sessions[id].stage.writes.record == s.sessions[id].stage.record
  {
    assert SessionOk(s.db, s.sessions[id]);
  }

  /** The instant of the start check matters only to start. */
  lemma OnlyStartStamps(c: Committed, recordId: nat, work: WorkAction, at: Instant, now: Instant)
    requires recordId < |c.records| && c.records[recordId].busId in c.buses && (work.StartWork? ==> at == now)
    ensures WorkDoneIn(c, recordId, work, at) == WorkDoneIn(c, recordId, work, now)
  {
  }

  lemma RecordActionFromChanged(s: System, id: nat, n: nat, now: Instant)
    requires n >= 2 && Inv(s) && id in s.sessions && s.sessions[id].op.ActOnRecord? && s.sessions[id].stage.Changed?
    requires s.sessions[id].op.work.StartWork? ==> s.sessions[id].stage.record.actualStart == now
    ensures s.sessions[id].op.recordId < |s.db.records| && s.db.records[s.sessions[id].op.recordId].busId in s.db.buses
    ensures Ends(s, id, n, WorkDoneIn(s.db, s.sessions[id].op.recordId, s.sessions[id].op.work, now))
  {
    var op, next := s.sessions[id].op, Take(s, Go(id));
    BusStatement(s, id);
    TakeKeepsInv(s, Go(id));
    RecordActionCommit(next, id);
    OnlyStartStamps(s.db, op.recordId, op.work, next.sessions[id].stage.writes.record.actualStart, now);
    var d := WorkDoneIn(s.db, op.recordId, op.work, now);
    EndsNow(next, id, n - 1, d);
    EndsLater(s, id, n, d);
  }

  lemma RecordActionFromChecked(s: System, id: nat, n: nat)
    requires n >= 3 && Inv(s) && id in s.sessions && s.sessions[id].op.ActOnRecord? && s.sessions[id].stage.Checked?
    ensures s.sessions[id].op.recordId < |s.db.records| && s.db.records[s.sessions[id].op.recordId].busId in s.db.buses
    ensures var op, row := s.sessions[id].op, s.db.records[s.sessions[id].op.recordId];
      Ends(s, id, n, if MayWork(s.db, op.recordId, op.work) && (op.work.CompleteWork? ==> row.startedAt <= s.sessions[id].begunAt)
                     then WorkDoneIn(s.db, op.recordId, op.work, s.sessions[id].stage.at) else s.db)
  {
    var op, at := s.sessions[id].op, s.sessions[id].stage.at;
    assert SessionOk(s.db, s.sessions[id]);
    var row := s.db.records[op.recordId];
    RecordTransitionStatement(s, id);
    if MayWork(s.db, op.recordId, op.work) && (op.work.CompleteWork? ==> row.startedAt <= s.sessions[id].begunAt) {
      TakeKeepsInv(s, Go(id));
      RecordActionFromChanged(Take(s, Go(id)), id, n - 1, at);
      EndsLater(s, id, n, WorkDoneIn(s.db, op.recordId, op.work, at));
    } else {
      EndsNow(s, id, n, s.db);
    }
  }

  lemma RecordActionFromLocked(s: System, id: nat, n: nat)
    requires n >= 4 && Inv(s) && id in s.sessions && s.sessions[id].op.ActOnRecord? && s.sessions[id].stage.Locked?
    ensures Ends(s, id, n, RecordAction(s.db, s.sessions[id].op, s.sessions[id].begunAt, s.clock))
  {
    var op, b := s.sessions[id].op, s.sessions[id].stage.busId;
    assert SessionOk(s.db, s.sessions[id]);
    RecordChecks(s, id);
    if op.work.StartWork? ==> TripsArrived(s.db.trips, b, s.clock) && s.db.buses[b].status == BusStatus.Active {
      TakeKeepsInv(s, Go(id));
      RecordActionFromChecked(Take(s, Go(id)), id, n - 1);
      EndsLater(s, id, n, RecordAction(s.db, op, s.sessions[id].begunAt, s.clock));
    } else {
      EndsNow(s, id, n, s.db);
    }
  }

  lemma RecordActionFromRead(s: System, id: nat, n: nat)
    requires n >= 5 && Inv(s) && id in s.sessions && s.sessions[id].op.ActOnRecord? && s.sessions[id].stage.RecordRead?
    requires s.sessions[id].stage.busId !in s.busLocks
    ensures Ends(s, id, n, RecordAction(s.db, s.sessions[id].op, s.sessions[id].begunAt, s.clock))
  {
    var op, b := s.sessions[id].op, s.sessions[id].stage.busId;
    assert SessionOk(s.db, s.sessions[id]);
    RecordLocks(s, id, b);
    if b in s.db.buses && !s.db.buses[b].deleted {
      TakeKeepsInv(s, Go(id));
      RecordActionFromLocked(Take(s, Go(id)), id, n - 1);
      EndsLater(s, id, n, RecordAction(s.db, op, s.sessions[id].begunAt, s.clock));
    } else {
      EndsNow(s, id, n, s.db);
    }
  }

  /**
   * A maintenance action alone: committed exactly when the record is in a status the action starts from, its bus is not
   * deleted, start finds that bus ACTIVE with every live trip arrived, and completion does not come before the planned
   * beginning. The result is `WorkDoneIn`, with the clock as the actual start.
   */
  lemma RecordActionAlone(s: System, id: nat, n: nat)
    requires n >= 6 && Inv(s) && id in s.sessions && s.sessions[id].op.ActOnRecord? && s.sessions[id].stage.Begun?
    requires s.sessions[id].op.recordId < |s.db.records| ==> s.db.records[s.sessions[id].op.recordId].busId !in s.busLocks
    ensures Ends(s, id, n, RecordAction(s.db, s.sessions[id].op, s.sessions[id].begunAt, s.clock))
  {
    var op := s.sessions[id].op;
    RecordReads(s, id);
    if op.recordId < |s.db.records| {
      TakeKeepsInv(s, Go(id));
      RecordActionFromRead(Take(s, Go(id)), id, n - 1);
      EndsLater(s, id, n, RecordAction(s.db, op, s.sessions[id].begunAt, s.clock));
    } else {
      EndsNow(s, id, n, s.db);
    }
  }

  // ---------------------------------------------------------------- who retires a bus

  predicate Retired(c: Committed, b: nat) {
    b in c.buses && (c.buses[b].status == BusStatus.OutOfService || c.buses[b].status == BusStatus.Archived)
  }

  lemma CommitsRetireNoBus(s: System, id: nat, b: nat)
    requires Inv(s) && id in s.sessions && s.sessions[id].stage.Ready? && Retired(Take(s, Go(id)).db, b)
    ensures Retired(s.db, b)
  {
    match s.sessions[id].op
    case CreateTrip(_, _, _) => CreateTripCommit(s, id);
    case UpdateTrip(_, _, _, _) => UpdateTripCommit(s, id);
    case ActOnTrip(_, _) => TripActionCommit(s, id);
    case CreateRecord(_, _, _) => CreateRecordCommit(s, id);
    case ActOnRecord(_, _) => RecordActionCommit(s, id);
  }

  lemma OnlyRetiringRetires(s: System, step: Step, b: nat)
    requires Inv(s) && Retired(Take(s, step).db, b) && !Retired(s.db, b)
    ensures step.RetireBus? && step.busId == b
  {
    if step.Go? && step.id in s.sessions {
      if s.sessions[step.id].stage.Ready? {
        CommitsRetireNoBus(s, step.id, b);
      } else {
        StatementsCommitNothing(s, step.id);
      }
    }
  }

  /** Over every run, a bus is OUT_OF_SERVICE or ARCHIVED only because somebody retired it: no trip and no work ever does. */
  lemma {:induction false} RetiredByHand(s: System, steps: seq<Step>, b: nat) returns (i: nat)
    requires Inv(s) && !Retired(s.db, b) && Retired(BusSchedule.Run(s, steps).db, b)
    ensures i < |steps| && steps[i].RetireBus? && steps[i].busId == b
  {
    var n := |steps| - 1;
    var before := BusSchedule.Run(s, steps[..n]);
    RunKeepsInv(s, steps[..n]);
    if Retired(before.db, b) {
      i := RetiredByHand(s, steps[..n], b);
    } else {
      OnlyRetiringRetires(before, steps[n], b);
      i := n;
    }
  }
}
