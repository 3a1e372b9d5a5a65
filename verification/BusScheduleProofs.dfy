/** Under every interleaving of the bus-schedule protocol the committed tables stay safe. */
module BusScheduleProofs {
  import opened Wrappers
  import opened Tables
  import opened BusSchedule

  // ---------------------------------------------------------------- safety of the committed tables

  predicate HasWorkInProgress(records: seq<WorkRecord>, busId: nat) {
    exists i :: 0 <= i < |records| && records[i].busId == busId && records[i].status.InProgress?
  }

  /** At most one active maintenance record. */
  ghost predicate OneActive(c: Committed, b: nat) {
    forall i, j :: 0 <= i < j < |c.records| && c.records[i].busId == b && c.records[j].busId == b ==>
      !(ActiveWork(c.records[i]) && ActiveWork(c.records[j]))
  }

  /** No live trip meets a SCHEDULED window. */
  ghost predicate ScheduledClear(c: Committed, b: nat) {
    forall r, t ::
      (&& 0 <= r < |c.records| && c.records[r].busId == b && c.records[r].status.Scheduled?
       && 0 <= t < |c.trips| && c.trips[t].busId == b && Live(c.trips[t]))
      ==> !Meets(c.trips[t].departure, c.trips[t].arrival, c.records[r].startedAt, c.records[r].endsAt)
  }

  /** No live trip arrives after work in progress actually started. */
  ghost predicate ProgressClear(c: Committed, b: nat) {
    forall r, t ::
      (&& 0 <= r < |c.records| && c.records[r].busId == b && c.records[r].status.InProgress?
       && 0 <= t < |c.trips| && c.trips[t].busId == b && Live(c.trips[t]))
      ==> c.trips[t].arrival <= c.records[r].actualStart
  }

  /** Work in progress and the bus status go together: never ACTIVE under work, never IN_MAINTENANCE without it. */
  ghost predicate StatusCoupled(c: Committed, b: nat) {
    && (HasWorkInProgress(c.records, b) ==> b in c.buses && !c.buses[b].status.Active?)
    && (b in c.buses && c.buses[b].status.InMaintenance? ==> HasWorkInProgress(c.records, b))
  }

  ghost predicate BusSafe(c: Committed, b: nat) {
    OneActive(c, b) && ScheduledClear(c, b) && ProgressClear(c, b) && StatusCoupled(c, b)
  }

  ghost predicate KeysOk(c: Committed) {
    && (forall t :: 0 <= t < |c.trips| ==> c.trips[t].busId in c.buses)
    && (forall r :: 0 <= r < |c.records| ==> c.records[r].busId in c.buses && c.records[r].startedAt < c.records[r].endsAt)
  }

  ghost predicate Safe(c: Committed) {
    KeysOk(c) && TripsAccepted(c.trips) && forall b: nat :: BusSafe(c, b)
  }

  // ---------------------------------------------------------------- what each session may rely on

  /** A trip row read before the lock: if the version still matches, the row is still the one that was read. */
  predicate ReadOk(c: Committed, tripId: nat, read: TripRow) {
    && tripId < |c.trips|
    && read.busId == c.trips[tripId].busId
    && read.version <= c.trips[tripId].version
    && (read.version == c.trips[tripId].version ==> read == c.trips[tripId])
  }

  ghost predicate TripsDoneBy(c: Committed, b: nat, at: Instant) {
    forall t :: 0 <= t < |c.trips| && c.trips[t].busId == b && Live(c.trips[t]) ==> c.trips[t].arrival <= at
  }

  ghost predicate TripsClearOf(c: Committed, b: nat, from: Instant, to: Instant) {
    forall t :: 0 <= t < |c.trips| && c.trips[t].busId == b && Live(c.trips[t]) ==>
      !Meets(c.trips[t].departure, c.trips[t].arrival, from, to)
  }

  /** The window may be put on the bus: it operates, and no SCHEDULED or IN_PROGRESS work is in the way. */
  ghost predicate WindowOpen(c: Committed, b: nat, from: Instant, to: Instant) {
    && Operational(c, b)
    && forall r :: 0 <= r < |c.records| && c.records[r].busId == b && c.records[r].status.Scheduled? ==>
         !Meets(c.records[r].startedAt, c.records[r].endsAt, from, to)
  }

  ghost predicate RecordOn(c: Committed, recordId: nat, b: nat) {
    recordId < |c.records| && c.records[recordId].busId == b
  }

  /** A record row after the transition statement, before COMMIT. */
  ghost predicate RecordMoved(c: Committed, op: ScheduleOp, b: nat, record: WorkRecord)
    requires op.ActOnRecord?
  {
    && RecordOn(c, op.recordId, b)
    && c.records[op.recordId].status in WorkSources(op.work)
    && record == c.records[op.recordId].(status := WorkTarget(op.work), actualStart := record.actualStart)
    && Found(c, b)
    && (op.work.StartWork? ==> TripsDoneBy(c, b, record.actualStart) && c.buses[b].status.Active?)
    && (!op.work.StartWork? ==> record.actualStart == c.records[op.recordId].actualStart)
  }

  ghost predicate CreateTripOk(c: Committed, op: ScheduleOp, stage: Stage)
    requires op.CreateTrip?
  {
    match stage
    case Begun => true
    case Locked(b, _) => b == op.busId && Operational(c, b)
    case Checked(b, _, _) => b == op.busId && WindowOpen(c, b, op.departure, op.arrival)
    case Ready(held, w) =>
      && held == Some(op.busId) && w == InsertTrip(TripRow(op.busId, op.departure, op.arrival, TripStatus.Scheduled, true, 1))
      && WindowOpen(c, op.busId, op.departure, op.arrival)
    case _ => false
  }

  ghost predicate UpdateTripOk(c: Committed, op: ScheduleOp, stage: Stage)
    requires op.UpdateTrip?
  {
    match stage
    case Begun => true
    case TripRead(read) => ReadOk(c, op.tripId, read) && read.version == op.expected
    case Locked(b, read) =>
      read.Some? && ReadOk(c, op.tripId, read.value) && read.value.version == op.expected && read.value.busId == b && Operational(c, b)
    case Checked(b, read, _) =>
      && read.Some? && ReadOk(c, op.tripId, read.value) && read.value.version == op.expected && read.value.busId == b
      && WindowOpen(c, b, Departure(op, read.value), Arrival(op, read.value))
    case Ready(held, w) =>
      && held.Some? && w.ReplaceTrip? && w.id == op.tripId && w.id < |c.trips| && w.event.None?
      && c.trips[w.id].busId == held.value && c.trips[w.id].status.Scheduled? && c.trips[w.id].version == op.expected
      && w.trip == UpdatedRow(op, c.trips[w.id])
      && WindowOpen(c, held.value, w.trip.departure, w.trip.arrival)
    case _ => false
  }

  ghost predicate TripActionOk(c: Committed, op: ScheduleOp, stage: Stage)
    requires op.ActOnTrip?
  {
    match stage
    case Begun => true
    case Ready(held, w) =>
      && held.None? && w.ReplaceTrip? && w.id == op.tripId && w.id < |c.trips|
      && c.trips[w.id].status == TripTransition(op.action).from
      && w.trip == c.trips[w.id].(status := TripTransition(op.action).to, version := c.trips[w.id].version + 1)
      && w.event == Some(TripTransition(op.action).event)
    case _ => false
  }

  /** The bus exists, is not deleted and is in use. */
  predicate Usable(c: Committed, b: nat) {
    b in c.buses && !c.buses[b].deleted && c.buses[b].isActive
  }

  ghost predicate CreateRecordOk(c: Committed, op: ScheduleOp, stage: Stage)
    requires op.CreateRecord?
  {
    match stage
    case Begun => true
    case Locked(b, _) => b == op.busId && Usable(c, b) && op.startsAt < op.endsAt
    case NoActive(b) => b == op.busId && Usable(c, b) && op.startsAt < op.endsAt && !HasActiveRecord(c.records, b)
    case Checked(b, _, _) =>
      && b == op.busId && Usable(c, b) && op.startsAt < op.endsAt && !HasActiveRecord(c.records, b)
      && TripsClearOf(c, b, op.startsAt, op.endsAt)
    case Ready(held, w) =>
      && held == Some(op.busId) && Usable(c, op.busId)
      && w == InsertRecord(WorkRecord(op.busId, op.startsAt, op.endsAt, WorkStatus.Scheduled, op.startsAt))
      && op.startsAt < op.endsAt && !HasActiveRecord(c.records, op.busId)
      && TripsClearOf(c, op.busId, op.startsAt, op.endsAt)
    case _ => false
  }

  ghost predicate RecordActionOk(c: Committed, op: ScheduleOp, stage: Stage)
    requires op.ActOnRecord?
  {
    match stage
    case Begun => true
    case RecordRead(b) => RecordOn(c, op.recordId, b)
    case Locked(b, _) => RecordOn(c, op.recordId, b) && Found(c, b)
    case Checked(b, _, at) =>
      && RecordOn(c, op.recordId, b) && Found(c, b)
      && (op.work.StartWork? ==> TripsDoneBy(c, b, at) && c.buses[b].status.Active?)
    case Changed(b, record) => RecordMoved(c, op, b, record)
    case Ready(held, w) =>
      && held.Some? && w.ReplaceRecord? && w.id == op.recordId
      && RecordMoved(c, op, held.value, w.record)
      && BusAfter(c, held.value, w.id, w.record, op.work) == Some(w.bus)
    case _ => false
  }

  ghost predicate SessionOk(c: Committed, session: Session) {
    match session.op
    case CreateTrip(_, _, _) => CreateTripOk(c, session.op, session.stage)
    case UpdateTrip(_, _, _, _) => UpdateTripOk(c, session.op, session.stage)
    case ActOnTrip(_, _) => TripActionOk(c, session.op, session.stage)
    case CreateRecord(_, _, _) => CreateRecordOk(c, session.op, session.stage)
    case ActOnRecord(_, _) => RecordActionOk(c, session.op, session.stage)
  }

  /** Locks and the sessions that hold them correspond exactly. */
  ghost predicate LocksOk(s: System) {
    && (forall id :: id in s.sessions && HeldBus(s.sessions[id].stage).Some? ==>
          HeldBus(s.sessions[id].stage).value in s.busLocks && s.busLocks[HeldBus(s.sessions[id].stage).value] == id)
    && (forall id :: id in s.sessions && HeldTrip(s.sessions[id].stage).Some? ==>
          HeldTrip(s.sessions[id].stage).value in s.tripLocks && s.tripLocks[HeldTrip(s.sessions[id].stage).value] == id)
    && (forall b :: b in s.busLocks ==>
          s.busLocks[b] in s.sessions && HeldBus(s.sessions[s.busLocks[b]].stage) == Some(b))
    && (forall t :: t in s.tripLocks ==>
          s.tripLocks[t] in s.sessions && HeldTrip(s.sessions[s.tripLocks[t]].stage) == Some(t))
  }

  ghost predicate SessionsOk(s: System) {
    forall id :: id in s.sessions ==> SessionOk(s.db, s.sessions[id])
  }

  // ---------------------------------------------------------------- the event log

  /** The status a trip's own events lead to, replayed one by one; None if they are no legal history. */
  function Replay(log: seq<TripEvent>, tripId: nat): Option<TripStatus> {
    if log == [] then None
    else
      var n := |log| - 1;
      var before := Replay(log[..n], tripId);
      if log[n].tripId != tripId then before
      else
        match log[n].kind
        case TripCreated => if before.None? then Some(TripStatus.Scheduled) else None
        case Departed => if before == Some(TripStatus.Scheduled) then Some(TripStatus.Ongoing) else None
        case Arrived => if before == Some(TripStatus.Ongoing) then Some(TripStatus.Completed) else None
        case TripCancelled => if before == Some(TripStatus.Scheduled) then Some(TripStatus.Cancelled) else None
  }

  ghost predicate LogOk(c: Committed) {
    && (forall t :: 0 <= t < |c.trips| ==> Replay(c.log, t) == Some(c.trips[t].status))
    && (forall t: nat :: t >= |c.trips| ==> Replay(c.log, t) == None)
  }

  ghost predicate Inv(s: System) {
    Safe(s.db) && LogOk(s.db) && LocksOk(s) && SessionsOk(s)
  }

  // ---------------------------------------------------------------- frames

  /** Nothing a session holding bus `b` relies on changed: its row, its records, and no live window was added or moved. */
  ghost predicate BusFrame(c: Committed, d: Committed, b: nat) {
    && (b in c.buses <==> b in d.buses) && (b in c.buses ==> d.buses[b] == c.buses[b])
    && |c.records| <= |d.records|
    && (forall i :: 0 <= i < |c.records| && c.records[i].busId == b ==> d.records[i] == c.records[i])
    && (forall i :: 0 <= i < |d.records| && d.records[i].busId == b ==> i < |c.records| && c.records[i] == d.records[i])
    && (forall i :: 0 <= i < |d.trips| && d.trips[i].busId == b && Live(d.trips[i]) ==>
          && i < |c.trips| && c.trips[i].busId == b && Live(c.trips[i])
          && c.trips[i].departure == d.trips[i].departure && c.trips[i].arrival == d.trips[i].arrival)
  }

  /** Rows are never removed, never change bus, and every change of a trip row raises its version. */
  ghost predicate Grows(c: Committed, d: Committed) {
    && |c.trips| <= |d.trips| && |c.records| <= |d.records|
    && (forall t :: 0 <= t < |c.trips| ==>
          d.trips[t].busId == c.trips[t].busId && (d.trips[t] == c.trips[t] || d.trips[t].version > c.trips[t].version))
    && (forall r :: 0 <= r < |c.records| ==> d.records[r].busId == c.records[r].busId)
  }

  /** A bus nobody touched is as safe as before. */
  lemma BusSafeFrame(c: Committed, d: Committed, b: nat)
    requires BusSafe(c, b) && BusFrame(c, d, b)
    ensures BusSafe(d, b)
  {
    if i :| 0 <= i < |c.records| && c.records[i].busId == b && c.records[i].status.InProgress? {
      assert d.records[i] == c.records[i];
    }
  }

  lemma HasActiveFrame(c: Committed, d: Committed, b: nat)
    requires BusFrame(c, d, b)
    ensures HasActiveRecord(c.records, b) == HasActiveRecord(d.records, b)
  {
    if i :| 0 <= i < |c.records| && c.records[i].busId == b && ActiveWork(c.records[i]) {
      assert d.records[i] == c.records[i];
    }
  }

  lemma BusAfterFrame(c: Committed, d: Committed, b: nat, id: nat, record: WorkRecord, work: WorkAction)
    requires BusFrame(c, d, b) && b in c.buses && id < |c.records| && c.records[id].busId == b && record.busId == b
    ensures BusAfter(c, b, id, record, work) == BusAfter(d, b, id, record, work)
  {
    var cs, ds := c.records[id := record], d.records[id := record];
    if i :| 0 <= i < |cs| && cs[i].busId == b && ActiveWork(cs[i]) {
      assert ds[i] == cs[i];
    }
    if i :| 0 <= i < |ds| && ds[i].busId == b && ActiveWork(ds[i]) {
      assert cs[i] == ds[i];
    }
  }

  /** What a session relies on survives every commit that respects its locks. */
  lemma SessionFrame(c: Committed, d: Committed, session: Session)
    requires SessionOk(c, session) && Grows(c, d)
    requires HeldBus(session.stage).Some? ==> BusFrame(c, d, HeldBus(session.stage).value)
    requires HeldTrip(session.stage).Some? && HeldTrip(session.stage).value < |c.trips| ==>
      d.trips[HeldTrip(session.stage).value] == c.trips[HeldTrip(session.stage).value]
    ensures SessionOk(d, session)
  {
    match session.op
    case CreateTrip(_, _, _) =>
    case UpdateTrip(_, _, _, _) =>
    case ActOnTrip(_, _) =>
    case CreateRecord(_, _, _) =>
      if HeldBus(session.stage).Some? {
        HasActiveFrame(c, d, HeldBus(session.stage).value);
      }
    case ActOnRecord(_, _) =>
      if session.stage.Ready? {
        BusAfterFrame(c, d, session.stage.held.value, session.stage.writes.id, session.stage.writes.record, session.op.work);
      }
  }

  // ---------------------------------------------------------------- what each commit does to the tables

  /** Every bus but `b` is untouched. */
  ghost predicate OnlyBus(c: Committed, d: Committed, b: nat) {
    forall other: nat :: other != b ==> BusFrame(c, d, other)
  }

  lemma SafeFromOneBus(c: Committed, d: Committed, b: nat)
    requires Safe(c) && KeysOk(d) && TripsAccepted(d.trips) && OnlyBus(c, d, b) && BusSafe(d, b)
    ensures Safe(d)
  {
    forall other: nat ensures BusSafe(d, other) {
      if other != b {
        BusSafeFrame(c, d, other);
      }
    }
  }

  lemma NoWorkOnActiveBus(c: Committed, b: nat)
    requires StatusCoupled(c, b) && b in c.buses && c.buses[b].status.Active?
    ensures forall r :: 0 <= r < |c.records| && c.records[r].busId == b ==> !c.records[r].status.InProgress?
  {
  }

  lemma TripOnOpenWindow(c: Committed, d: Committed, b: nat, id: nat)
    requires BusSafe(c, b) && id < |d.trips|
    requires WindowOpen(c, b, d.trips[id].departure, d.trips[id].arrival)
    requires d.buses == c.buses && d.records == c.records
    requires forall t :: 0 <= t < |d.trips| && t != id ==> t < |c.trips| && d.trips[t] == c.trips[t]
    ensures BusSafe(d, b)
  {
    NoWorkOnActiveBus(c, b);
  }

  lemma InsertTripSafe(c: Committed, b: nat, trip: TripRow)
    requires Safe(c) && LogOk(c) && trip.busId == b && trip.status == TripStatus.Scheduled
    requires WindowOpen(c, b, trip.departure, trip.arrival) && TripsAccepted(c.trips + [trip])
    ensures var d := Install(c, Some(b), InsertTrip(trip)); Safe(d) && LogOk(d) && Grows(c, d) && OnlyBus(c, d, b)
  {
    var d := Install(c, Some(b), InsertTrip(trip));
    TripOnOpenWindow(c, d, b, |c.trips|);
    SafeFromOneBus(c, d, b);
    forall t: nat ensures Replay(d.log, t) == if t == |c.trips| then Some(TripStatus.Scheduled) else Replay(c.log, t) {
      assert d.log[..|c.log|] == c.log;
    }
  }

  lemma UpdateTripSafe(c: Committed, b: nat, id: nat, trip: TripRow)
    requires Safe(c) && LogOk(c) && id < |c.trips| && c.trips[id].busId == b && trip.busId == b
    requires trip.status == c.trips[id].status && trip.version == c.trips[id].version + 1
    requires WindowOpen(c, b, trip.departure, trip.arrival) && TripsAccepted(c.trips[id := trip])
    ensures var d := Install(c, Some(b), ReplaceTrip(id, trip, None)); Safe(d) && LogOk(d) && Grows(c, d) && OnlyBus(c, d, b)
  {
    var d := Install(c, Some(b), ReplaceTrip(id, trip, None));
    TripOnOpenWindow(c, d, b, id);
    SafeFromOneBus(c, d, b);
    assert d.log == c.log;
  }

  lemma TripActionSafe(c: Committed, id: nat, action: TripAction)
    requires Safe(c) && LogOk(c) && id < |c.trips| && c.trips[id].status == TripTransition(action).from
    ensures var trip := c.trips[id].(status := TripTransition(action).to, version := c.trips[id].version + 1);
      var d := Install(c, None, ReplaceTrip(id, trip, Some(TripTransition(action).event)));
      Safe(d) && LogOk(d) && Grows(c, d) && forall b: nat :: BusFrame(c, d, b)
  {
    var trip := c.trips[id].(status := TripTransition(action).to, version := c.trips[id].version + 1);
    var d := Install(c, None, ReplaceTrip(id, trip, Some(TripTransition(action).event)));
    assert forall b: nat :: BusFrame(c, d, b);
    forall b: nat ensures BusSafe(d, b) {
      BusSafeFrame(c, d, b);
    }
    forall t: nat ensures Replay(d.log, t) == if t == id then Some(trip.status) else Replay(c.log, t) {
      assert d.log[..|c.log|] == c.log;
    }
  }

  lemma InsertRecordSafe(c: Committed, b: nat, record: WorkRecord)
    requires Safe(c) && LogOk(c) && b in c.buses && record.busId == b && record.status.Scheduled?
    requires record.startedAt < record.endsAt && !HasActiveRecord(c.records, b)
    requires TripsClearOf(c, b, record.startedAt, record.endsAt)
    ensures var d := Install(c, Some(b), InsertRecord(record)); Safe(d) && LogOk(d) && Grows(c, d) && OnlyBus(c, d, b)
  {
    var d := Install(c, Some(b), InsertRecord(record));
    assert forall i :: 0 <= i < |c.records| ==> d.records[i] == c.records[i];
    assert BusSafe(c, b) && !HasWorkInProgress(c.records, b) && !HasWorkInProgress(d.records, b);
    SafeFromOneBus(c, d, b);
  }

  /** Only the moved record can be active on its bus: there was at most one, and it was this one. */
  lemma OthersIdle(c: Committed, b: nat, id: nat)
    requires OneActive(c, b) && RecordOn(c, id, b) && ActiveWork(c.records[id])
    ensures forall r :: 0 <= r < |c.records| && r != id && c.records[r].busId == b ==> !ActiveWork(c.records[r])
  {
  }

  lemma MoveRecordSafe(c: Committed, op: ScheduleOp, b: nat, record: WorkRecord, bus: BusRow)
    requires Safe(c) && LogOk(c) && op.ActOnRecord? && RecordMoved(c, op, b, record)
    requires BusAfter(c, b, op.recordId, record, op.work) == Some(bus)
    ensures var d := Install(c, Some(b), ReplaceRecord(op.recordId, record, bus));
      Safe(d) && LogOk(d) && Grows(c, d) && OnlyBus(c, d, b)
  {
    var d := Install(c, Some(b), ReplaceRecord(op.recordId, record, bus));
    assert BusSafe(c, b);
    MovedStatusCoupled(c, op, b, record, bus);
    MovedOneActive(c, op, b, record, bus);
    SafeFromOneBus(c, d, b);
  }

  lemma MovedOneActive(c: Committed, op: ScheduleOp, b: nat, record: WorkRecord, bus: BusRow)
    requires BusSafe(c, b) && op.ActOnRecord? && RecordMoved(c, op, b, record)
    ensures var d := Install(c, Some(b), ReplaceRecord(op.recordId, record, bus));
      OneActive(d, b) && ScheduledClear(d, b) && ProgressClear(d, b)
  {
    OthersIdle(c, b, op.recordId);
  }

  /** The bus status the transition leaves fits the records it leaves. */
  lemma MovedStatusCoupled(c: Committed, op: ScheduleOp, b: nat, record: WorkRecord, bus: BusRow)
    requires BusSafe(c, b) && op.ActOnRecord? && RecordMoved(c, op, b, record)
    requires BusAfter(c, b, op.recordId, record, op.work) == Some(bus)
    ensures StatusCoupled(Install(c, Some(b), ReplaceRecord(op.recordId, record, bus)), b)
  {
    OthersIdle(c, b, op.recordId);
    var d := Install(c, Some(b), ReplaceRecord(op.recordId, record, bus));
    if op.work.StartWork? {
      assert d.records[op.recordId].status.InProgress?;
    } else {
      assert !HasActiveRecord(d.records, b);
      assert !HasWorkInProgress(d.records, b);
    }
  }

  // ---------------------------------------------------------------- each step keeps the invariant

  lemma EndedKeepsLocks(s: System, id: nat)
    requires LocksOk(s) && id in s.sessions
    ensures LocksOk(Ended(s, id))
  {
  }

  lemma EndedKeepsInv(s: System, id: nat)
    requires Inv(s) && id in s.sessions
    ensures Inv(Ended(s, id))
  {
    EndedKeepsLocks(s, id);
  }

  function MovedOn(s: System, id: nat, bus: Option<nat>, trip: Option<nat>, stage: Stage): System
    requires id in s.sessions
  {
    At(s.(busLocks := if bus.Some? then s.busLocks[bus.value := id] else s.busLocks,
          tripLocks := if trip.Some? then s.tripLocks[trip.value := id] else s.tripLocks), id, stage)
  }

  ghost predicate TakesFreeLocks(s: System, id: nat, bus: Option<nat>, trip: Option<nat>, stage: Stage)
    requires id in s.sessions
  {
    && (bus.Some? ==> bus.value !in s.busLocks && HeldBus(s.sessions[id].stage).None?)
    && (trip.Some? ==> trip.value !in s.tripLocks && HeldTrip(s.sessions[id].stage).None?)
    && HeldBus(stage) == (if bus.Some? then bus else HeldBus(s.sessions[id].stage))
    && HeldTrip(stage) == (if trip.Some? then trip else HeldTrip(s.sessions[id].stage))
  }

  lemma MovedOnKeepsLocks(s: System, id: nat, bus: Option<nat>, trip: Option<nat>, stage: Stage)
    requires LocksOk(s) && id in s.sessions && TakesFreeLocks(s, id, bus, trip, stage)
    ensures LocksOk(MovedOn(s, id, bus, trip, stage))
  {
  }

  /** A session moves on without committing, possibly taking one free lock. */
  lemma MovedOnKeepsInv(s: System, id: nat, bus: Option<nat>, trip: Option<nat>, stage: Stage)
    requires Inv(s) && id in s.sessions && TakesFreeLocks(s, id, bus, trip, stage)
    requires SessionOk(s.db, s.sessions[id].(stage := stage))
    ensures Inv(MovedOn(s, id, bus, trip, stage))
  {
    MovedOnKeepsLocks(s, id, bus, trip, stage);
  }

  /** Two sessions never hold the same bus row, nor the same trip row. */
  lemma LocksExclude(s: System, id: nat, other: nat)
    requires LocksOk(s) && id in s.sessions && other in s.sessions && id != other
    ensures HeldBus(s.sessions[id].stage).Some? ==> HeldBus(s.sessions[other].stage) != HeldBus(s.sessions[id].stage)
    ensures HeldTrip(s.sessions[id].stage).Some? ==> HeldTrip(s.sessions[other].stage) != HeldTrip(s.sessions[id].stage)
  {
  }

  /** A commit may touch only the bus its session holds, if any, and the trip row its session holds, if any. */
  ghost predicate WithinLocks(c: Committed, d: Committed, stage: Stage) {
    && (forall b: nat :: HeldBus(stage) != Some(b) ==> BusFrame(c, d, b))
    && (forall t :: 0 <= t < |c.trips| && t < |d.trips| && HeldTrip(stage) != Some(t) ==> d.trips[t] == c.trips[t])
  }

  /** What another session has established survives the commit. */
  lemma OtherSurvivesCommit(s: System, id: nat, d: Committed, other: nat)
    requires LocksOk(s) && id in s.sessions && other in s.sessions && other != id
    requires Grows(s.db, d) && WithinLocks(s.db, d, s.sessions[id].stage) && SessionOk(s.db, s.sessions[other])
    ensures SessionOk(d, s.sessions[other])
  {
    LocksExclude(s, id, other);
    SessionFrame(s.db, d, s.sessions[other]);
  }

  lemma CommittedKeepsSessions(s: System, id: nat, d: Committed)
    requires LocksOk(s) && SessionsOk(s) && id in s.sessions
    requires Grows(s.db, d) && WithinLocks(s.db, d, s.sessions[id].stage)
    ensures forall other :: other in s.sessions && other != id ==> SessionOk(d, s.sessions[other])
  {
    forall other | other in s.sessions && other != id
      ensures SessionOk(d, s.sessions[other])
    {
      OtherSurvivesCommit(s, id, d, other);
    }
  }

  lemma CommittedKeepsInv(s: System, id: nat, d: Committed)
    requires Inv(s) && id in s.sessions && Safe(d) && LogOk(d) && Grows(s.db, d) && WithinLocks(s.db, d, s.sessions[id].stage)
    ensures Inv(Ended(s.(db := d), id))
  {
    CommittedKeepsSessions(s, id, d);
    EndedKeepsLocks(s.(db := d), id);
  }

  ghost predicate CommitFine(c: Committed, stage: Stage)
    requires stage.Ready?
  {
    var d := Install(c, stage.held, stage.writes);
    Safe(d) && LogOk(d) && Grows(c, d) && WithinLocks(c, d, stage)
  }

  lemma CreateTripCommits(c: Committed, op: ScheduleOp, stage: Stage)
    requires Safe(c) && LogOk(c) && op.CreateTrip? && stage.Ready? && CreateTripOk(c, op, stage)
    requires TripsAccepted(Install(c, stage.held, stage.writes).trips)
    ensures CommitFine(c, stage)
  {
    InsertTripSafe(c, stage.held.value, stage.writes.trip);
  }

  lemma UpdateTripCommits(c: Committed, op: ScheduleOp, stage: Stage)
    requires Safe(c) && LogOk(c) && op.UpdateTrip? && stage.Ready? && UpdateTripOk(c, op, stage)
    requires TripsAccepted(Install(c, stage.held, stage.writes).trips)
    ensures CommitFine(c, stage)
  {
    UpdateTripSafe(c, stage.held.value, stage.writes.id, stage.writes.trip);
  }

  lemma TripActionCommits(c: Committed, op: ScheduleOp, stage: Stage)
    requires Safe(c) && LogOk(c) && op.ActOnTrip? && stage.Ready? && TripActionOk(c, op, stage)
    ensures CommitFine(c, stage)
  {
    var id, spec := stage.writes.id, TripTransition(op.action);
    TripActionSafe(c, id, op.action);
    assert stage.held == None;
    assert stage.writes == ReplaceTrip(id, c.trips[id].(status := spec.to, version := c.trips[id].version + 1), Some(spec.event));
  }

  lemma CreateRecordCommits(c: Committed, op: ScheduleOp, stage: Stage)
    requires Safe(c) && LogOk(c) && op.CreateRecord? && stage.Ready? && CreateRecordOk(c, op, stage)
    requires TripsAccepted(Install(c, stage.held, stage.writes).trips)
    ensures CommitFine(c, stage)
  {
    InsertRecordSafe(c, stage.held.value, stage.writes.record);
  }

  lemma RecordActionCommits(c: Committed, op: ScheduleOp, stage: Stage)
    requires Safe(c) && LogOk(c) && op.ActOnRecord? && stage.Ready? && RecordActionOk(c, op, stage)
    requires TripsAccepted(Install(c, stage.held, stage.writes).trips)
    ensures CommitFine(c, stage)
  {
    MoveRecordSafe(c, op, stage.held.value, stage.writes.record, stage.writes.bus);
  }

  lemma CommitIsSafe(c: Committed, session: Session)
    requires Safe(c) && LogOk(c) && SessionOk(c, session) && session.stage.Ready?
    requires TripsAccepted(Install(c, session.stage.held, session.stage.writes).trips)
    ensures CommitFine(c, session.stage)
  {
    match session.op
    case CreateTrip(_, _, _) => CreateTripCommits(c, session.op, session.stage);
    case UpdateTrip(_, _, _, _) => UpdateTripCommits(c, session.op, session.stage);
    case ActOnTrip(_, _) => TripActionCommits(c, session.op, session.stage);
    case CreateRecord(_, _, _) => CreateRecordCommits(c, session.op, session.stage);
    case ActOnRecord(_, _) => RecordActionCommits(c, session.op, session.stage);
  }

  lemma CommitKeepsInv(s: System, id: nat)
    requires Inv(s) && id in s.sessions && s.sessions[id].stage.Ready?
    ensures Inv(Commit(s, id))
  {
    var d := Install(s.db, s.sessions[id].stage.held, s.sessions[id].stage.writes);
    if TripsAccepted(d.trips) {
      CommitIsSafe(s.db, s.sessions[id]);
      CommittedKeepsInv(s, id, d);
    } else {
      EndedKeepsInv(s, id);
    }
  }

  // ---------------------------------------------------------------- each statement

  lemma LockBusKeepsInv(s: System, id: nat, busId: nat, acceptable: bool, read: Option<TripRow>)
    requires Inv(s) && id in s.sessions
    requires HeldBus(s.sessions[id].stage).None? && HeldTrip(s.sessions[id].stage).None?
    requires acceptable ==> SessionOk(s.db, s.sessions[id].(stage := Locked(busId, read)))
    ensures Inv(LockBus(s, id, busId, acceptable, read))
  {
    if busId !in s.busLocks {
      if acceptable {
        MovedOnKeepsInv(s, id, Some(busId), None, Locked(busId, read));
      } else {
        EndedKeepsInv(s, id);
      }
    }
  }

  lemma StepKeepsInv(s: System, id: nat, stage: Stage)
    requires Inv(s) && id in s.sessions
    requires HeldBus(stage) == HeldBus(s.sessions[id].stage) && HeldTrip(stage) == HeldTrip(s.sessions[id].stage)
    requires SessionOk(s.db, s.sessions[id].(stage := stage))
    ensures Inv(At(s, id, stage))
  {
    MovedOnKeepsInv(s, id, None, None, stage);
  }

  lemma CreateTripKeepsInv(s: System, id: nat)
    requires Inv(s) && id in s.sessions && s.sessions[id].op.CreateTrip?
    ensures Inv(AdvanceCreateTrip(s, id))
  {
    var op, stage := s.sessions[id].op, s.sessions[id].stage;
    EndedKeepsInv(s, id);
    assert SessionOk(s.db, s.sessions[id]);
    match stage
    case Begun => LockBusKeepsInv(s, id, op.busId, Operational(s.db, op.busId), None);
    case Locked(b, _) =>
      if !HasWorkOverlap(s.db, b, op.departure, op.arrival) {
        NoOverlapOpens(s.db, b, op.departure, op.arrival);
        StepKeepsInv(s, id, Checked(b, None, s.clock));
      }
    case Checked(b, _, _) =>
      StepKeepsInv(s, id, Ready(Some(b), InsertTrip(TripRow(b, op.departure, op.arrival, TripStatus.Scheduled, true, 1))));
    case _ =>
  }

  lemma NoOverlapOpens(c: Committed, b: nat, from: Instant, to: Instant)
    requires Operational(c, b) && !HasWorkOverlap(c, b, from, to)
    ensures WindowOpen(c, b, from, to)
  {
    forall r | 0 <= r < |c.records| && c.records[r].busId == b && c.records[r].status.Scheduled?
      ensures !Meets(c.records[r].startedAt, c.records[r].endsAt, from, to)
    {
      assert ActiveWork(c.records[r]) && !WorkMeets(c.records[r], from, to);
    }
  }

  lemma UpdateTripKeepsInv(s: System, id: nat)
    requires Inv(s) && id in s.sessions && s.sessions[id].op.UpdateTrip?
    ensures Inv(AdvanceUpdateTrip(s, id))
  {
    var op, stage := s.sessions[id].op, s.sessions[id].stage;
    EndedKeepsInv(s, id);
    assert SessionOk(s.db, s.sessions[id]);
    match stage
    case Begun =>
      if op.tripId < |s.db.trips| && s.db.trips[op.tripId].version == op.expected {
        StepKeepsInv(s, id, TripRead(s.db.trips[op.tripId]));
      }
    case TripRead(current) => LockBusKeepsInv(s, id, current.busId, Operational(s.db, current.busId), Some(current));
    case Locked(b, read) =>
      if !HasWorkOverlap(s.db, b, Departure(op, read.value), Arrival(op, read.value)) {
        NoOverlapOpens(s.db, b, Departure(op, read.value), Arrival(op, read.value));
        StepKeepsInv(s, id, Checked(b, read, s.clock));
      }
    case Checked(_, _, _) => UpdateCheckedKeepsInv(s, id);
    case _ =>
  }

  lemma UpdateCheckedKeepsInv(s: System, id: nat)
    requires Inv(s) && id in s.sessions && s.sessions[id].op.UpdateTrip? && s.sessions[id].stage.Checked?
    ensures Inv(AdvanceUpdateTrip(s, id))
  {
    var op, b := s.sessions[id].op, s.sessions[id].stage.busId;
    EndedKeepsInv(s, id);
    StaleReadIsNeverWritten(s, id);
    if op.tripId !in s.tripLocks && s.db.trips[op.tripId].status.Scheduled? && s.db.trips[op.tripId].version == op.expected {
      MovedOnKeepsInv(s, id, None, Some(op.tripId),
                      Ready(Some(b), ReplaceTrip(op.tripId, UpdatedRow(op, s.db.trips[op.tripId]), None)));
    }
  }

  /**
   * Why the read before the lock is safe: if the conditional write finds its version, the row it overwrites is
   * the very row that was read, so the window it writes is the one that was checked under the lock.
   */
  lemma StaleReadIsNeverWritten(s: System, id: nat)
    requires SessionsOk(s) && id in s.sessions && s.sessions[id].op.UpdateTrip? && s.sessions[id].stage.Checked?
    ensures s.sessions[id].op.tripId < |s.db.trips| && s.sessions[id].stage.read.Some?
    ensures var op, row := s.sessions[id].op, s.db.trips[s.sessions[id].op.tripId];
      row.version == op.expected ==>
        && row == s.sessions[id].stage.read.value
        && row.busId == s.sessions[id].stage.busId
        && WindowOpen(s.db, row.busId, UpdatedRow(op, row).departure, UpdatedRow(op, row).arrival)
  {
    assert SessionOk(s.db, s.sessions[id]);
  }

  lemma TripActionShape(s: System, id: nat, stage: Stage)
    requires id in s.sessions && s.sessions[id].op.ActOnTrip? && s.sessions[id].stage.Begun?
    requires var op := s.sessions[id].op;
      && op.tripId !in s.tripLocks && op.tripId < |s.db.trips|
      && var row, spec := s.db.trips[op.tripId], TripTransition(op.action);
      && row.status == spec.from
      && stage == Ready(None, ReplaceTrip(op.tripId, row.(status := spec.to, version := row.version + 1), Some(spec.event)))
    ensures AdvanceTripAction(s, id) == MovedOn(s, id, None, Some(s.sessions[id].op.tripId), stage)
    ensures TakesFreeLocks(s, id, None, Some(s.sessions[id].op.tripId), stage)
    ensures SessionOk(s.db, s.sessions[id].(stage := stage))
  {
  }

  lemma TripActionKeepsInv(s: System, id: nat)
    requires Inv(s) && id in s.sessions && s.sessions[id].op.ActOnTrip?
    ensures Inv(AdvanceTripAction(s, id))
  {
    var op := s.sessions[id].op;
    if s.sessions[id].stage.Begun? && op.tripId !in s.tripLocks {
      if op.tripId >= |s.db.trips| || s.db.trips[op.tripId].status != TripTransition(op.action).from {
        EndedKeepsInv(s, id);
      } else {
        var row, spec := s.db.trips[op.tripId], TripTransition(op.action);
        var stage := Ready(None, ReplaceTrip(op.tripId, row.(status := spec.to, version := row.version + 1), Some(spec.event)));
        TripActionShape(s, id, stage);
        MovedOnKeepsInv(s, id, None, Some(op.tripId), stage);
      }
    }
  }

  lemma CreateRecordKeepsInv(s: System, id: nat)
    requires Inv(s) && id in s.sessions && s.sessions[id].op.CreateRecord?
    ensures Inv(AdvanceCreateRecord(s, id))
  {
    var op, stage := s.sessions[id].op, s.sessions[id].stage;
    EndedKeepsInv(s, id);
    assert SessionOk(s.db, s.sessions[id]);
    match stage
    case Begun =>
      if op.startsAt < op.endsAt {
        LockBusKeepsInv(s, id, op.busId, Found(s.db, op.busId) && s.db.buses[op.busId].isActive, None);
      }
    case Locked(b, _) =>
      if !HasActiveRecord(s.db.records, b) { StepKeepsInv(s, id, NoActive(b)); }
    case NoActive(b) =>
      if !HasTripOverlap(s.db, b, op.startsAt, Some(op.endsAt)) { StepKeepsInv(s, id, Checked(b, None, s.clock)); }
    case Checked(b, _, _) =>
      StepKeepsInv(s, id, Ready(Some(b), InsertRecord(WorkRecord(b, op.startsAt, op.endsAt, WorkStatus.Scheduled, op.startsAt))));
    case _ =>
  }

  /** The start check reaches to infinity, so it finds every live trip still to arrive. */
  lemma NoOpenEndedOverlap(c: Committed, b: nat, at: Instant)
    requires TripsAccepted(c.trips) && !HasTripOverlap(c, b, at, None)
    ensures TripsDoneBy(c, b, at)
  {
  }

  lemma CheckedForWork(s: System, id: nat, b: nat)
    requires Safe(s.db) && id in s.sessions && s.sessions[id].op.ActOnRecord? && SessionOk(s.db, s.sessions[id])
    requires s.sessions[id].stage.Locked? && s.sessions[id].stage.busId == b && b in s.db.buses
    requires s.sessions[id].op.work.StartWork? ==> !HasTripOverlap(s.db, b, s.clock, None) && s.db.buses[b].status.Active?
    ensures SessionOk(s.db, s.sessions[id].(stage := Checked(b, None, s.clock)))
  {
    if s.sessions[id].op.work.StartWork? {
      NoOpenEndedOverlap(s.db, b, s.clock);
    }
  }

  lemma RecordLockedKeepsInv(s: System, id: nat)
    requires Inv(s) && id in s.sessions && s.sessions[id].op.ActOnRecord? && s.sessions[id].stage.Locked?
    ensures Inv(AdvanceRecordAction(s, id))
  {
    var op, b := s.sessions[id].op, s.sessions[id].stage.busId;
    EndedKeepsInv(s, id);
    assert SessionOk(s.db, s.sessions[id]);
    if op.recordId < |s.db.records|
       && !(op.work.StartWork? && (HasTripOverlap(s.db, b, s.clock, None) || !s.db.buses[b].status.Active?)) {
      CheckedForWork(s, id, b);
      StepKeepsInv(s, id, Checked(b, None, s.clock));
    }
  }

  lemma RecordChangedKeepsInv(s: System, id: nat)
    requires Inv(s) && id in s.sessions && s.sessions[id].op.ActOnRecord?
    requires s.sessions[id].stage.Checked? || s.sessions[id].stage.Changed?
    ensures Inv(AdvanceRecordAction(s, id))
  {
    var op, stage := s.sessions[id].op, s.sessions[id].stage;
    EndedKeepsInv(s, id);
    assert SessionOk(s.db, s.sessions[id]);
    if op.recordId < |s.db.records| {
      if stage.Checked? {
        var row := s.db.records[op.recordId];
        if row.status in WorkSources(op.work) {
          StepKeepsInv(s, id, Changed(stage.busId,
            row.(status := WorkTarget(op.work), actualStart := if op.work.StartWork? then stage.at else row.actualStart)));
        }
      } else {
        var bus := BusAfter(s.db, stage.busId, op.recordId, stage.record, op.work);
        if bus.Some? {
          StepKeepsInv(s, id, Ready(Some(stage.busId), ReplaceRecord(op.recordId, stage.record, bus.value)));
        }
      }
    }
  }

  lemma RecordActionKeepsInv(s: System, id: nat)
    requires Inv(s) && id in s.sessions && s.sessions[id].op.ActOnRecord?
    ensures Inv(AdvanceRecordAction(s, id))
  {
    var op, stage := s.sessions[id].op, s.sessions[id].stage;
    EndedKeepsInv(s, id);
    if op.recordId < |s.db.records| {
      match stage
      case Begun => StepKeepsInv(s, id, RecordRead(s.db.records[op.recordId].busId));
      case RecordRead(b) => RecordReadKeepsInv(s, id);
      case Locked(_, _) => RecordLockedKeepsInv(s, id);
      case Checked(_, _, _) => RecordChangedKeepsInv(s, id);
      case Changed(_, _) => RecordChangedKeepsInv(s, id);
      case _ =>
    }
  }

  lemma RecordReadKeepsInv(s: System, id: nat)
    requires Inv(s) && id in s.sessions && s.sessions[id].op.ActOnRecord? && s.sessions[id].stage.RecordRead?
    ensures Inv(AdvanceRecordAction(s, id))
  {
    EndedKeepsInv(s, id);
    assert SessionOk(s.db, s.sessions[id]);
    LockBusKeepsInv(s, id, s.sessions[id].stage.busId, Found(s.db, s.sessions[id].stage.busId), None);
  }

  // ---------------------------------------------------------------- the rest of the system

  lemma ChangeBusKeepsInv(s: System, b: nat, row: BusRow)
    requires Inv(s)
    requires if b in s.db.buses then row.status == s.db.buses[b].status || row.status.OutOfService? || row.status.Archived?
             else row.status.Active?
    ensures Inv(ChangeBus(s, b, row))
  {
    if b !in s.busLocks {
      var d := s.db.(buses := s.db.buses[b := row]);
      assert OnlyBus(s.db, d, b);
      assert BusSafe(s.db, b);
      SafeFromOneBus(s.db, d, b);
      forall id | id in s.sessions
        ensures SessionOk(d, s.sessions[id])
      {
        SessionFrame(s.db, d, s.sessions[id]);
      }
    }
  }

  lemma BeginKeepsInv(s: System, id: nat, op: ScheduleOp)
    requires Inv(s) && id !in s.sessions
    ensures Inv(s.(sessions := s.sessions[id := Session(op, s.clock, Begun)]))
  {
  }

  lemma AdvanceKeepsInv(s: System, id: nat)
    requires Inv(s) && id in s.sessions
    ensures Inv(Advance(s, id))
  {
    if s.sessions[id].stage.Ready? {
      CommitKeepsInv(s, id);
    } else {
      match s.sessions[id].op
      case CreateTrip(_, _, _) => CreateTripKeepsInv(s, id);
      case UpdateTrip(_, _, _, _) => UpdateTripKeepsInv(s, id);
      case ActOnTrip(_, _) => TripActionKeepsInv(s, id);
      case CreateRecord(_, _, _) => CreateRecordKeepsInv(s, id);
      case ActOnRecord(_, _) => RecordActionKeepsInv(s, id);
    }
  }

  lemma TakeKeepsInv(s: System, step: Step)
    requires Inv(s)
    ensures Inv(Take(s, step))
  {
    match step
    case Begin(id, op) => if id !in s.sessions { BeginKeepsInv(s, id, op); }
    case Go(id) => if id in s.sessions { AdvanceKeepsInv(s, id); }
    case Abort(id) => if id in s.sessions { EndedKeepsInv(s, id); }
    case Tick(_) =>
    case AddBus(b) => if b !in s.db.buses { ChangeBusKeepsInv(s, b, BusRow(BusStatus.Active, true, false)); }
    case RetireBus(b, to) =>
      if b in s.db.buses && (to.OutOfService? || to.Archived?) { ChangeBusKeepsInv(s, b, s.db.buses[b].(status := to)); }
    case SetBusActive(b, isActive) => if b in s.db.buses { ChangeBusKeepsInv(s, b, s.db.buses[b].(isActive := isActive)); }
    case DeleteBus(b) => if b in s.db.buses { ChangeBusKeepsInv(s, b, s.db.buses[b].(deleted := true)); }
  }

  // ---------------------------------------------------------------- theorems

  lemma {:induction false} RunKeepsInv(s: System, steps: seq<Step>)
    requires Inv(s)
    ensures Inv(BusSchedule.Run(s, steps))
  {
    if steps != [] {
      RunKeepsInv(s, steps[..|steps| - 1]);
      TakeKeepsInv(BusSchedule.Run(s, steps[..|steps| - 1]), steps[|steps| - 1]);
    }
  }

  /**
   * Under every interleaving of any number of creates, updates, actions, aborts, clock ticks and bus changes,
   * no committed state has a live trip meeting a SCHEDULED window on its bus, nor one arriving after work in
   * progress there actually started; each bus has at most one active record, is never ACTIVE under work in
   * progress, and is IN_MAINTENANCE only with work in progress.
   */
  lemma EveryInterleavingIsSafe(clock: Instant, steps: seq<Step>, b: nat)
    ensures var c := BusSchedule.Run(Start(clock), steps).db;
      ScheduledClear(c, b) && ProgressClear(c, b) && OneActive(c, b) && StatusCoupled(c, b)
  {
    RunKeepsInv(Start(clock), steps);
    assert BusSafe(BusSchedule.Run(Start(clock), steps).db, b);
  }

  /** Replaying a trip's events through the transition table always yields its status. */
  lemma LogReplaysToStatus(clock: Instant, steps: seq<Step>, t: nat)
    ensures var c := BusSchedule.Run(Start(clock), steps).db;
      Replay(c.log, t) == if t < |c.trips| then Some(c.trips[t].status) else None
  {
    RunKeepsInv(Start(clock), steps);
  }

  /** The moves a trip row may make in one step: edits only while SCHEDULED, and otherwise one edge of the matrix. */
  predicate TripMoves(t: TripRow, u: TripRow) {
    || u == t
    || (u.busId == t.busId && u.isActive == t.isActive && u.version == t.version + 1
        && ((t.status.Scheduled? && u.status.Scheduled?)
            || (u.departure == t.departure && u.arrival == t.arrival
                && ((t.status.Scheduled? && (u.status.Ongoing? || u.status.Cancelled?)) || (t.status.Ongoing? && u.status.Completed?)))))
  }

  lemma StatementsCommitNothing(s: System, id: nat)
    requires id in s.sessions && !s.sessions[id].stage.Ready?
    ensures Advance(s, id).db == s.db
  {
  }

  /** Only a commit changes trips or records. */
  lemma OnlyCommitsWrite(s: System, step: Step)
    requires !(step.Go? && step.id in s.sessions && s.sessions[step.id].stage.Ready?)
    ensures Take(s, step).db.trips == s.db.trips && Take(s, step).db.records == s.db.records
  {
    if step.Go? && step.id in s.sessions {
      StatementsCommitNothing(s, step.id);
    }
  }

  /** One step edits a trip only while it is SCHEDULED, or moves it along one edge of the matrix. */
  lemma TripsMoveForward(s: System, step: Step, t: nat)
    requires Inv(s) && t < |s.db.trips|
    ensures t < |Take(s, step).db.trips| && TripMoves(s.db.trips[t], Take(s, step).db.trips[t])
  {
    if step.Go? && step.id in s.sessions && s.sessions[step.id].stage.Ready? {
      CommitMovesTrip(s.db, s.sessions[step.id], t);
    } else {
      OnlyCommitsWrite(s, step);
    }
  }

  /**
   * What any number of steps leaves of a trip row: its bus, its window once it is no longer SCHEDULED, everything
   * once it is COMPLETED or CANCELLED, and everything while its version stays.
   */
  predicate TripEvolves(t: TripRow, u: TripRow) {
    && u.busId == t.busId && u.isActive == t.isActive && u.version >= t.version
    && (u.version == t.version ==> u == t)
    && (!t.status.Scheduled? ==> u.departure == t.departure && u.arrival == t.arrival && !u.status.Scheduled?)
    && (t.status.Ongoing? ==> u.status.Ongoing? || u.status.Completed?)
    && (t.status.Completed? || t.status.Cancelled? ==> u == t)
  }

  /** Over every run of every interleaving, a started trip keeps its window, and COMPLETED and CANCELLED are final. */
  lemma {:induction false} TripsEvolveForEver(s: System, steps: seq<Step>, t: nat)
    requires Inv(s) && t < |s.db.trips|
    ensures t < |BusSchedule.Run(s, steps).db.trips| && TripEvolves(s.db.trips[t], BusSchedule.Run(s, steps).db.trips[t])
  {
    if steps != [] {
      var before := steps[..|steps| - 1];
      TripsEvolveForEver(s, before, t);
      RunKeepsInv(s, before);
      TripsMoveForward(BusSchedule.Run(s, before), steps[|steps| - 1], t);
    }
  }

  lemma CommitMovesTrip(c: Committed, session: Session, t: nat)
    requires SessionOk(c, session) && session.stage.Ready? && t < |c.trips|
    ensures var d := Install(c, session.stage.held, session.stage.writes); t < |d.trips| && TripMoves(c.trips[t], d.trips[t])
  {
  }

  /** The moves a maintenance record may make: one edge of its matrix, plan and bus untouched. */
  predicate WorkMoves(r: WorkRecord, q: WorkRecord) {
    || q == r
    || (q.busId == r.busId && q.startedAt == r.startedAt && q.endsAt == r.endsAt
        && ((r.status.Scheduled? && (q.status.InProgress? || q.status.Cancelled?))
            || (r.status.InProgress? && (q.status.Completed? || q.status.Cancelled?) && q.actualStart == r.actualStart)))
  }

  lemma WorkMovesForward(s: System, step: Step, r: nat)
    requires Inv(s) && r < |s.db.records|
    ensures r < |Take(s, step).db.records| && WorkMoves(s.db.records[r], Take(s, step).db.records[r])
  {
    if step.Go? && step.id in s.sessions && s.sessions[step.id].stage.Ready? {
      CommitMovesWork(s.db, s.sessions[step.id], r);
    } else {
      OnlyCommitsWrite(s, step);
    }
  }

  /** What any number of steps leaves of a record: its bus and plan, its actual start once started, all of it once closed. */
  predicate WorkEvolves(r: WorkRecord, q: WorkRecord) {
    && q.busId == r.busId && q.startedAt == r.startedAt && q.endsAt == r.endsAt
    && (r.status.InProgress? ==> q.actualStart == r.actualStart && !q.status.Scheduled?)
    && (!ActiveWork(r) ==> q == r)
  }

  /** Over every run, closed work is final, and started work keeps the instant at which it started. */
  lemma {:induction false} WorkEvolvesForEver(s: System, steps: seq<Step>, r: nat)
    requires Inv(s) && r < |s.db.records|
    ensures r < |BusSchedule.Run(s, steps).db.records| && WorkEvolves(s.db.records[r], BusSchedule.Run(s, steps).db.records[r])
  {
    if steps != [] {
      var before := steps[..|steps| - 1];
      WorkEvolvesForEver(s, before, r);
      RunKeepsInv(s, before);
      WorkMovesForward(BusSchedule.Run(s, before), steps[|steps| - 1], r);
    }
  }

  lemma CommitMovesWork(c: Committed, session: Session, r: nat)
    requires SessionOk(c, session) && session.stage.Ready? && r < |c.records|
    ensures var d := Install(c, session.stage.held, session.stage.writes); r < |d.records| && WorkMoves(c.records[r], d.records[r])
  {
  }

  lemma CommitRespectsRetiredBuses(c: Committed, session: Session, b: nat)
    requires SessionOk(c, session) && session.stage.Ready? && b in c.buses
    requires c.buses[b].status.OutOfService? || c.buses[b].status.Archived?
    ensures var d := Install(c, session.stage.held, session.stage.writes); b in d.buses && d.buses[b] == c.buses[b]
  {
  }

  /** No transaction ever takes a bus out of OUT_OF_SERVICE or ARCHIVED: closing work leaves those alone. */
  lemma TransactionsRespectRetiredBuses(s: System, id: nat, b: nat)
    requires Inv(s) && id in s.sessions && b in s.db.buses
    requires s.db.buses[b].status.OutOfService? || s.db.buses[b].status.Archived?
    ensures b in Advance(s, id).db.buses && Advance(s, id).db.buses[b] == s.db.buses[b]
  {
    if s.sessions[id].stage.Ready? {
      CommitRespectsRetiredBuses(s.db, s.sessions[id], b);
    } else {
      StatementsCommitNothing(s, id);
    }
  }

  /** The unique index on active records never has to reject anything: the check under the lock already excludes it. */
  lemma ActiveIndexNeverFires(s: System, id: nat)
    requires Inv(s) && id in s.sessions && s.sessions[id].stage.Ready? && s.sessions[id].stage.writes.InsertRecord?
    ensures s.sessions[id].stage.held.Some? && !HasActiveRecord(s.db.records, s.sessions[id].stage.held.value)
  {
    assert SessionOk(s.db, s.sessions[id]);
  }

  /** The session a waiting session waits for. */
  predicate WaitsFor(s: System, id: nat, other: nat)
    requires id in s.sessions
  {
    var stage, op := s.sessions[id].stage, s.sessions[id].op;
    || (op.CreateTrip? && stage.Begun? && op.busId in s.busLocks && s.busLocks[op.busId] == other)
    || (op.UpdateTrip? && stage.TripRead? && stage.trip.busId in s.busLocks && s.busLocks[stage.trip.busId] == other)
    || (op.UpdateTrip? && stage.Checked? && op.tripId in s.tripLocks && s.tripLocks[op.tripId] == other)
    || (op.ActOnTrip? && stage.Begun? && op.tripId in s.tripLocks && s.tripLocks[op.tripId] == other)
    || (op.CreateRecord? && stage.Begun? && op.startsAt < op.endsAt && op.busId in s.busLocks && s.busLocks[op.busId] == other)
    || (op.ActOnRecord? && stage.RecordRead? && stage.busId in s.busLocks && s.busLocks[stage.busId] == other)
  }

  lemma TripSessionMoves(s: System, id: nat)
    requires Inv(s) && id in s.sessions && !s.sessions[id].stage.Ready? && forall other :: !WaitsFor(s, id, other)
    requires s.sessions[id].op.CreateTrip? || s.sessions[id].op.UpdateTrip? || s.sessions[id].op.ActOnTrip?
    ensures id in Advance(s, id).sessions ==> Advance(s, id).sessions[id].stage != s.sessions[id].stage
  {
    assert SessionOk(s.db, s.sessions[id]);
    var op, stage := s.sessions[id].op, s.sessions[id].stage;
    assert op.CreateTrip? && stage.Begun? && op.busId in s.busLocks ==> WaitsFor(s, id, s.busLocks[op.busId]);
    assert op.UpdateTrip? && stage.TripRead? && stage.trip.busId in s.busLocks ==> WaitsFor(s, id, s.busLocks[stage.trip.busId]);
    assert op.UpdateTrip? && stage.Checked? && op.tripId in s.tripLocks ==> WaitsFor(s, id, s.tripLocks[op.tripId]);
    assert op.ActOnTrip? && stage.Begun? && op.tripId in s.tripLocks ==> WaitsFor(s, id, s.tripLocks[op.tripId]);
  }

  lemma WorkSessionMoves(s: System, id: nat)
    requires Inv(s) && id in s.sessions && !s.sessions[id].stage.Ready? && forall other :: !WaitsFor(s, id, other)
    requires s.sessions[id].op.CreateRecord? || s.sessions[id].op.ActOnRecord?
    ensures id in Advance(s, id).sessions ==> Advance(s, id).sessions[id].stage != s.sessions[id].stage
  {
    assert SessionOk(s.db, s.sessions[id]);
    var op, stage := s.sessions[id].op, s.sessions[id].stage;
    assert op.CreateRecord? && stage.Begun? && op.startsAt < op.endsAt && op.busId in s.busLocks ==> WaitsFor(s, id, s.busLocks[op.busId]);
    assert op.ActOnRecord? && stage.RecordRead? && stage.busId in s.busLocks ==> WaitsFor(s, id, s.busLocks[stage.busId]);
  }

  /** A session that does not wait moves: its next statement commits, rolls back or reaches a new stage. */
  lemma OnlyWaitersStandStill(s: System, id: nat)
    requires Inv(s) && id in s.sessions && forall other :: !WaitsFor(s, id, other)
    ensures Advance(s, id) != s
  {
    if s.sessions[id].stage.Ready? {
      assert id !in Commit(s, id).sessions;
    } else if s.sessions[id].op.CreateRecord? || s.sessions[id].op.ActOnRecord? {
      WorkSessionMoves(s, id);
    } else {
      TripSessionMoves(s, id);
    }
  }

  /**
   * No deadlock: the bus row is always locked before a trip row, so every chain of waiting has at most two links
   * and whenever any session is open, one of them can move.
   */
  lemma SomeoneCanMove(s: System, id: nat) returns (mover: nat)
    requires Inv(s) && id in s.sessions
    ensures mover in s.sessions && Advance(s, mover) != s
  {
    mover := id;
    if other :| WaitsFor(s, id, other) {
      mover := other;
      WaitersHold(s, id, other);
      if third :| WaitsFor(s, other, third) {
        mover := third;
        WaitersHold(s, other, third);
      }
    }
    OnlyWaitersStandStill(s, mover);
  }

  /** Whoever is waited for holds a lock: a bus-row holder waits at most for a trip row, whose holder only has to commit. */
  lemma WaitersHold(s: System, id: nat, other: nat)
    requires Inv(s) && id in s.sessions && WaitsFor(s, id, other)
    ensures other in s.sessions
    ensures HeldBus(s.sessions[other].stage).Some? || HeldTrip(s.sessions[other].stage).Some?
    ensures HeldBus(s.sessions[id].stage).Some? ==> s.sessions[other].stage.Ready?
    ensures s.sessions[other].stage.Ready? ==> forall third :: !WaitsFor(s, other, third)
  {
  }
}
