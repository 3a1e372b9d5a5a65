/**
 * The trips and maintenance services on mutable tables, one method per statement between two interleaving points.
 * Every method leaves the state exactly as the protocol's step function says.
 */
module ScheduleServices {
  import opened Wrappers
  import opened Tables
  import opened BusSchedule

  class ScheduleDatabase {
    var buses: map<nat, BusRow>
    var trips: seq<TripRow>
    var records: seq<WorkRecord>
    var log: seq<TripEvent>
    var busLocks: map<nat, nat>
    var tripLocks: map<nat, nat>
    var sessions: map<nat, Session>
    var clock: Instant

    function State(): System
      reads this
    {
      System(Committed(buses, trips, records, log), busLocks, tripLocks, sessions, clock)
    }

    constructor (clock: Instant)
      ensures State() == Start(clock)
    {
      buses, trips, records, log := map[], [], [], [];
      busLocks, tripLocks, sessions := map[], map[], map[];
      this.clock := clock;
    }

    // -------------------------------------------------------------- queries

    /** hasLiveTripOverlap; without an end the window reaches to infinity. */
    method HasLiveTripOverlap(busId: nat, from: Instant, to: Option<Instant>) returns (found: bool)
      ensures found == HasTripOverlap(State().db, busId, from, to)
    {
      for i := 0 to |trips|
        invariant forall k :: 0 <= k < i ==>
          !(trips[k].busId == busId && Live(trips[k])
            && (if to.Some? then Meets(trips[k].departure, trips[k].arrival, from, to.value)
                else trips[k].departure < trips[k].arrival && from < trips[k].arrival))
      {
        var t := trips[i];
        if t.busId == busId && Live(t)
           && (if to.Some? then Meets(t.departure, t.arrival, from, to.value) else t.departure < t.arrival && from < t.arrival) {
          return true;
        }
      }
      found := false;
    }

    method HasActiveMaintenanceOverlap(busId: nat, from: Instant, to: Instant) returns (found: bool)
      ensures found == HasWorkOverlap(State().db, busId, from, to)
    {
      for i := 0 to |records|
        invariant forall k :: 0 <= k < i ==>
          !(records[k].busId == busId && ActiveWork(records[k]) && WorkMeets(records[k], from, to))
      {
        if records[i].busId == busId && ActiveWork(records[i]) && WorkMeets(records[i], from, to) {
          return true;
        }
      }
      found := false;
    }

    /** hasActiveRecord, as the transaction that has already written `rows` sees it. */
    method HasActive(rows: seq<WorkRecord>, busId: nat) returns (found: bool)
      ensures found == HasActiveRecord(rows, busId)
    {
      for i := 0 to |rows|
        invariant forall k :: 0 <= k < i ==> !(rows[k].busId == busId && ActiveWork(rows[k]))
      {
        if rows[i].busId == busId && ActiveWork(rows[i]) {
          return true;
        }
      }
      found := false;
    }

    // -------------------------------------------------------------- transaction control

    method Finish(id: nat)
      modifies `busLocks, `tripLocks, `sessions
      ensures State() == Ended(old(State()), id)
    {
      busLocks, tripLocks, sessions := Without(busLocks, id), Without(tripLocks, id), sessions - {id};
    }

    method MoveTo(id: nat, stage: Stage)
      requires id in sessions
      modifies `sessions
      ensures State() == At(old(State()), id, stage)
    {
      sessions := sessions[id := sessions[id].(stage := stage)];
    }

    /** SELECT ... FOR UPDATE on a bus row, and the service's test of the row it returns. */
    method LockBusRow(id: nat, busId: nat, acceptable: bool, read: Option<TripRow>)
      requires id in sessions
      modifies `busLocks, `tripLocks, `sessions
      ensures State() == LockBus(old(State()), id, busId, acceptable, read)
    {
      if busId in busLocks {
        return;
      }
      if !acceptable {
        Finish(id);
      } else {
        busLocks := busLocks[busId := id];
        MoveTo(id, Locked(busId, read));
      }
    }

    method CommitSession(id: nat)
      requires id in sessions && sessions[id].stage.Ready?
      modifies this
      ensures State() == Commit(old(State()), id)
    {
      ghost var before := State();
      var held, writes := sessions[id].stage.held, sessions[id].stage.writes;
      var nextTrips, nextRecords, nextBuses, nextLog := trips, records, buses, log;
      match writes {
        case InsertTrip(trip) =>
          nextLog := log + [TripEvent(|trips|, TripCreated)];
          nextTrips := trips + [trip];
        case ReplaceTrip(t, trip, event) =>
          if t < |trips| {
            nextTrips := trips[t := trip];
            nextLog := log + (if event.Some? then [TripEvent(t, event.value)] else []);
          }
        case InsertRecord(record) =>
          nextRecords := records + [record];
        case ReplaceRecord(r, record, bus) =>
          if r < |records| && held.Some? {
            nextRecords := records[r := record];
            nextBuses := buses[held.value := bus];
          }
      }
      assert Install(before.db, held, writes) == Committed(nextBuses, nextTrips, nextRecords, nextLog);
      if TripsAccepted(nextTrips) {
        buses, trips, records, log := nextBuses, nextTrips, nextRecords, nextLog;
      }
      Finish(id);
    }

    // -------------------------------------------------------------- TripsService

    method CreateTripStep(id: nat)
      requires id in sessions && sessions[id].op.CreateTrip?
      modifies this
      ensures State() == AdvanceCreateTrip(old(State()), id)
    {
      var op := sessions[id].op;
      match sessions[id].stage {
        case Begun => LockBusRow(id, op.busId, Operational(State().db, op.busId), None);
        case Locked(b, _) =>
          var overlaps := HasActiveMaintenanceOverlap(b, op.departure, op.arrival);
          if overlaps { Finish(id); } else { MoveTo(id, Checked(b, None, clock)); }
        case Checked(b, _, _) =>
          MoveTo(id, Ready(Some(b), InsertTrip(TripRow(b, op.departure, op.arrival, TripStatus.Scheduled, true, 1))));
        case _ =>
      }
    }

    /** findInCompany, lockBusAssignment, hasActiveMaintenanceOverlap, and the version-guarded updateDetails. */
    method UpdateTripStep(id: nat)
      requires id in sessions && sessions[id].op.UpdateTrip?
      modifies this
      ensures State() == AdvanceUpdateTrip(old(State()), id)
    {
      var op := sessions[id].op;
      match sessions[id].stage {
        case Begun =>
          if op.tripId >= |trips| || !trips[op.tripId].status.Scheduled? || trips[op.tripId].version != op.expected {
            Finish(id);
          } else {
            MoveTo(id, TripRead(trips[op.tripId]));
          }
        case TripRead(current) => LockBusRow(id, current.busId, Operational(State().db, current.busId), Some(current));
        case Locked(b, read) =>
          if read.None? {
            Finish(id);
          } else {
            var overlaps := HasActiveMaintenanceOverlap(b, Departure(op, read.value), Arrival(op, read.value));
            if overlaps { Finish(id); } else { MoveTo(id, Checked(b, read, clock)); }
          }
        case Checked(b, _, _) =>
          if op.tripId !in tripLocks {
            if op.tripId >= |trips| || !trips[op.tripId].status.Scheduled? || trips[op.tripId].version != op.expected {
              Finish(id);
            } else {
              var row := trips[op.tripId];
              tripLocks := tripLocks[op.tripId := id];
              MoveTo(id, Ready(Some(b), ReplaceTrip(op.tripId, UpdatedRow(op, row), None)));
            }
          }
        case _ =>
      }
    }

    /** applyTransition: one conditional UPDATE through the transition matrix. */
    method TripActionStep(id: nat)
      requires id in sessions && sessions[id].op.ActOnTrip?
      modifies this
      ensures State() == AdvanceTripAction(old(State()), id)
    {
      var op := sessions[id].op;
      if !sessions[id].stage.Begun? || op.tripId in tripLocks {
        return;
      }
      var spec := TripTransition(op.action);
      if op.tripId >= |trips| || trips[op.tripId].status != spec.from {
        Finish(id);
      } else {
        var row := trips[op.tripId];
        tripLocks := tripLocks[op.tripId := id];
        MoveTo(id, Ready(None, ReplaceTrip(op.tripId, row.(status := spec.to, version := row.version + 1), Some(spec.event))));
      }
    }

    // -------------------------------------------------------------- MaintenanceService

    method CreateRecordStep(id: nat)
      requires id in sessions && sessions[id].op.CreateRecord?
      modifies this
      ensures State() == AdvanceCreateRecord(old(State()), id)
    {
      var op := sessions[id].op;
      match sessions[id].stage {
        case Begun =>
          if op.endsAt <= op.startsAt {
            Finish(id);
          } else {
            LockBusRow(id, op.busId, Found(State().db, op.busId) && buses[op.busId].isActive, None);
          }
        case Locked(b, _) =>
          var active := HasActive(records, b);
          if active { Finish(id); } else { MoveTo(id, NoActive(b)); }
        case NoActive(b) =>
          var overlaps := HasLiveTripOverlap(b, op.startsAt, Some(op.endsAt));
          if overlaps { Finish(id); } else { MoveTo(id, Checked(b, None, clock)); }
        case Checked(b, _, _) =>
          MoveTo(id, Ready(Some(b), InsertRecord(WorkRecord(b, op.startsAt, op.endsAt, WorkStatus.Scheduled, op.startsAt))));
        case _ =>
      }
    }

    /** applyAction: read, lock, check on start, transition, and the bus status that goes with it. */
    method RecordActionStep(id: nat)
      requires id in sessions && sessions[id].op.ActOnRecord?
      modifies this
      ensures State() == AdvanceRecordAction(old(State()), id)
    {
      var op := sessions[id].op;
      if op.recordId >= |records| {
        Finish(id);
        return;
      }
      match sessions[id].stage {
        case Begun => MoveTo(id, RecordRead(records[op.recordId].busId));
        case RecordRead(b) => LockBusRow(id, b, Found(State().db, b), None);
        case Locked(b, _) =>
          var overlaps := HasLiveTripOverlap(b, clock, None);
          if op.work.StartWork? && (overlaps || b !in buses || !buses[b].status.Active?) {
            Finish(id);
          } else {
            MoveTo(id, Checked(b, None, clock));
          }
        case Checked(b, _, at) =>
          var row := records[op.recordId];
          if row.status !in WorkSources(op.work) || (op.work.CompleteWork? && sessions[id].begunAt < row.startedAt) {
            Finish(id);
          } else {
            MoveTo(id, Changed(b, row.(status := WorkTarget(op.work), actualStart := if op.work.StartWork? then at else row.actualStart)));
          }
        case Changed(b, record) =>
          if b !in buses {
            Finish(id);
            return;
          }
          var bus := buses[b];
          if op.work.StartWork? {
            if bus.deleted || !bus.status.Active? {
              Finish(id);
              return;
            }
            bus := bus.(status := InMaintenance);
          } else {
            var stillActive := HasActive(records[op.recordId := record], b);
            if !stillActive && !bus.deleted && bus.status.InMaintenance? {
              bus := bus.(status := BusStatus.Active);
            }
          }
          MoveTo(id, Ready(Some(b), ReplaceRecord(op.recordId, record, bus)));
        case _ =>
      }
    }

    /** One more statement of whichever session the scheduler picks. */
    method Go(id: nat)
      requires id in sessions
      modifies this
      ensures State() == Advance(old(State()), id)
    {
      if sessions[id].stage.Ready? {
        CommitSession(id);
        return;
      }
      match sessions[id].op {
        case CreateTrip(_, _, _) => CreateTripStep(id);
        case UpdateTrip(_, _, _, _) => UpdateTripStep(id);
        case ActOnTrip(_, _) => TripActionStep(id);
        case CreateRecord(_, _, _) => CreateRecordStep(id);
        case ActOnRecord(_, _) => RecordActionStep(id);
      }
    }
  }
}
