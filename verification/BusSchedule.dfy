/**
 * The bus-schedule protocol: trips and maintenance as interleaved transactions over one set of tables.
 * A transaction is a session that advances one statement at a time. Reads see committed rows; writes are
 * buffered until COMMIT; a FOR UPDATE or an UPDATE waits while another session holds the row.
 */
module BusSchedule {
  import opened Wrappers
  import opened Tables

  datatype BusStatus = Active | InMaintenance | OutOfService | Archived
  datatype BusRow = BusRow(status: BusStatus, isActive: bool, deleted: bool)

  datatype TripRow = TripRow(busId: nat, departure: Instant, arrival: Instant, status: TripStatus, isActive: bool, version: nat)

  datatype WorkStatus = Scheduled | InProgress | Completed | Cancelled
  /** `actualStart` is a history variable: the instant at which start was checked. `started_at` stays the planned one. */
  datatype WorkRecord = WorkRecord(busId: nat, startedAt: Instant, endsAt: Instant, status: WorkStatus, actualStart: Instant)

  datatype TripEventKind = TripCreated | Departed | Arrived | TripCancelled
  datatype TripEvent = TripEvent(tripId: nat, kind: TripEventKind)

  datatype Committed = Committed(buses: map<nat, BusRow>, trips: seq<TripRow>, records: seq<WorkRecord>, log: seq<TripEvent>)

  // ---------------------------------------------------------------- transition tables

  datatype TripAction = StartTrip | CompleteTrip | CancelTrip
  datatype TripSpec = TripSpec(from: TripStatus, to: TripStatus, event: TripEventKind)

  function TripTransition(action: TripAction): TripSpec {
    match action
    case StartTrip => TripSpec(TripStatus.Scheduled, TripStatus.Ongoing, Departed)
    case CompleteTrip => TripSpec(TripStatus.Ongoing, TripStatus.Completed, Arrived)
    case CancelTrip => TripSpec(TripStatus.Scheduled, TripStatus.Cancelled, TripCancelled)
  }

  datatype WorkAction = StartWork | CompleteWork | CancelWork

  function WorkSources(action: WorkAction): set<WorkStatus> {
    match action
    case StartWork => {WorkStatus.Scheduled}
    case CompleteWork => {WorkStatus.InProgress}
    case CancelWork => {WorkStatus.Scheduled, WorkStatus.InProgress}
  }

  function WorkTarget(action: WorkAction): WorkStatus {
    match action
    case StartWork => WorkStatus.InProgress
    case CompleteWork => WorkStatus.Completed
    case CancelWork => WorkStatus.Cancelled
  }

  // ---------------------------------------------------------------- the checks, as the queries state them

  predicate Live(t: TripRow) {
    t.isActive && !t.status.Cancelled?
  }

  predicate ActiveWork(r: WorkRecord) {
    r.status.Scheduled? || r.status.InProgress?
  }

  /** `&&` of two half-open ranges; an empty range meets nothing. */
  predicate Meets(s: Instant, e: Instant, from: Instant, to: Instant) {
    s < e && from < to && s < to && from < e
  }

  /** tstzrange(started_at, infinity or scheduled_ends_at) && tstzrange(from, to). */
  predicate WorkMeets(r: WorkRecord, from: Instant, to: Instant) {
    if r.status.InProgress? then from < to && r.startedAt < to else Meets(r.startedAt, r.endsAt, from, to)
  }

  predicate HasWorkOverlap(c: Committed, busId: nat, from: Instant, to: Instant) {
    exists i :: 0 <= i < |c.records| && c.records[i].busId == busId && ActiveWork(c.records[i]) && WorkMeets(c.records[i], from, to)
  }

  predicate HasTripOverlap(c: Committed, busId: nat, from: Instant, to: Option<Instant>) {
    exists i :: 0 <= i < |c.trips| && c.trips[i].busId == busId && Live(c.trips[i])
      && (if to.Some? then Meets(c.trips[i].departure, c.trips[i].arrival, from, to.value)
          else c.trips[i].departure < c.trips[i].arrival && from < c.trips[i].arrival)
  }

  predicate HasActiveRecord(records: seq<WorkRecord>, busId: nat) {
    exists i :: 0 <= i < |records| && records[i].busId == busId && ActiveWork(records[i])
  }

  predicate Found(c: Committed, busId: nat) {
    busId in c.buses && !c.buses[busId].deleted
  }

  predicate Operational(c: Committed, busId: nat) {
    Found(c, busId) && c.buses[busId].isActive && c.buses[busId].status.Active?
  }

  /** ck_trips_times, and the exclusion constraint on live trips of one bus. */
  predicate TripsAccepted(trips: seq<TripRow>) {
    && (forall i :: 0 <= i < |trips| ==> trips[i].departure < trips[i].arrival)
    && (forall i, j :: 0 <= i < j < |trips| && trips[i].busId == trips[j].busId && Live(trips[i]) && Live(trips[j]) ==>
          !Meets(trips[i].departure, trips[i].arrival, trips[j].departure, trips[j].arrival))
  }

  // ---------------------------------------------------------------- sessions

  datatype ScheduleOp =
    | CreateTrip(busId: nat, departure: Instant, arrival: Instant)
    | UpdateTrip(tripId: nat, expected: nat, newDeparture: Option<Instant>, newArrival: Option<Instant>)
    | ActOnTrip(tripId: nat, action: TripAction)
    | CreateRecord(busId: nat, startsAt: Instant, endsAt: Instant)
    | ActOnRecord(recordId: nat, work: WorkAction)

  datatype Writes =
    | InsertTrip(trip: TripRow)
    | ReplaceTrip(id: nat, trip: TripRow, event: Option<TripEventKind>)
    | InsertRecord(record: WorkRecord)
    | ReplaceRecord(id: nat, record: WorkRecord, bus: BusRow)

  datatype Stage =
    | Begun
    | TripRead(trip: TripRow)
    | RecordRead(busId: nat)
    | Locked(busId: nat, read: Option<TripRow>)
    | NoActive(busId: nat)
    | Checked(busId: nat, read: Option<TripRow>, at: Instant)
    | Changed(busId: nat, record: WorkRecord)
    | Ready(held: Option<nat>, writes: Writes)

  /** `begunAt` is the transaction's now(). */
  datatype Session = Session(op: ScheduleOp, begunAt: Instant, stage: Stage)

  datatype System = System(
    db: Committed, busLocks: map<nat, nat>, tripLocks: map<nat, nat>, sessions: map<nat, Session>, clock: Instant)

  function HeldBus(stage: Stage): Option<nat> {
    match stage
    case Begun => None
    case TripRead(_) => None
    case RecordRead(_) => None
    case Locked(b, _) => Some(b)
    case NoActive(b) => Some(b)
    case Checked(b, _, _) => Some(b)
    case Changed(b, _) => Some(b)
    case Ready(held, _) => held
  }

  function HeldTrip(stage: Stage): Option<nat> {
    if stage.Ready? && stage.writes.ReplaceTrip? then Some(stage.writes.id) else None
  }

  function Without(locks: map<nat, nat>, id: nat): map<nat, nat> {
    map k | k in locks && locks[k] != id :: locks[k]
  }

  /** End of a transaction, either way: its locks are released. */
  function Ended(s: System, id: nat): System {
    s.(busLocks := Without(s.busLocks, id), tripLocks := Without(s.tripLocks, id), sessions := s.sessions - {id})
  }

  function At(s: System, id: nat, stage: Stage): System
    requires id in s.sessions
  {
    s.(sessions := s.sessions[id := s.sessions[id].(stage := stage)])
  }

  /** SELECT ... FOR UPDATE on the bus row: waits, fails with no row, or takes the lock and moves on. */
  function LockBus(s: System, id: nat, busId: nat, acceptable: bool, read: Option<TripRow>): System
    requires id in s.sessions
  {
    if busId in s.busLocks then s
    else if !acceptable then Ended(s, id)
    else At(s.(busLocks := s.busLocks[busId := id]), id, Locked(busId, read))
  }

  function Departure(op: ScheduleOp, read: TripRow): Instant
    requires op.UpdateTrip?
  {
    if op.newDeparture.Some? then op.newDeparture.value else read.departure
  }

  function Arrival(op: ScheduleOp, read: TripRow): Instant
    requires op.UpdateTrip?
  {
    if op.newArrival.Some? then op.newArrival.value else read.arrival
  }

  /** The columns updateDetails sets. */
  function UpdatedRow(op: ScheduleOp, row: TripRow): TripRow
    requires op.UpdateTrip?
  {
    row.(departure := Departure(op, row), arrival := Arrival(op, row), version := row.version + 1)
  }

  function AdvanceCreateTrip(s: System, id: nat): System
    requires id in s.sessions && s.sessions[id].op.CreateTrip?
  {
    var op := s.sessions[id].op;
    match s.sessions[id].stage
    case Begun => LockBus(s, id, op.busId, Operational(s.db, op.busId), None)
    case Locked(b, _) =>
      if HasWorkOverlap(s.db, b, op.departure, op.arrival) then Ended(s, id) else At(s, id, Checked(b, None, s.clock))
    case Checked(b, _, _) =>
      At(s, id, Ready(Some(b), InsertTrip(TripRow(b, op.departure, op.arrival, TripStatus.Scheduled, true, 1))))
    case _ => s
  }

  function AdvanceUpdateTrip(s: System, id: nat): System
    requires id in s.sessions && s.sessions[id].op.UpdateTrip?
  {
    var op := s.sessions[id].op;
    match s.sessions[id].stage
    case Begun =>
      if op.tripId >= |s.db.trips| then Ended(s, id)
      else
        var current := s.db.trips[op.tripId];
        if !current.status.Scheduled? || current.version != op.expected then Ended(s, id)
        else At(s, id, TripRead(current))
    case TripRead(current) => LockBus(s, id, current.busId, Operational(s.db, current.busId), Some(current))
    case Locked(b, read) =>
      if read.None? || HasWorkOverlap(s.db, b, Departure(op, read.value), Arrival(op, read.value)) then Ended(s, id)
      else At(s, id, Checked(b, read, s.clock))
    case Checked(b, _, _) =>
      if op.tripId in s.tripLocks then s
      else if op.tripId >= |s.db.trips| then Ended(s, id)
      else
        var row := s.db.trips[op.tripId];
        if !row.status.Scheduled? || row.version != op.expected then Ended(s, id)
        else At(s.(tripLocks := s.tripLocks[op.tripId := id]), id, Ready(Some(b), ReplaceTrip(op.tripId, UpdatedRow(op, row), None)))
    case _ => s
  }

  function AdvanceTripAction(s: System, id: nat): System
    requires id in s.sessions && s.sessions[id].op.ActOnTrip?
  {
    var op := s.sessions[id].op;
    if !s.sessions[id].stage.Begun? || op.tripId in s.tripLocks then s
    else if op.tripId >= |s.db.trips| then Ended(s, id)
    else
      var row := s.db.trips[op.tripId];
      var spec := TripTransition(op.action);
      if row.status != spec.from then Ended(s, id)
      else At(s.(tripLocks := s.tripLocks[op.tripId := id]), id,
              Ready(None, ReplaceTrip(op.tripId, row.(status := spec.to, version := row.version + 1), Some(spec.event))))
  }

  function AdvanceCreateRecord(s: System, id: nat): System
    requires id in s.sessions && s.sessions[id].op.CreateRecord?
  {
    var op := s.sessions[id].op;
    match s.sessions[id].stage
    case Begun =>
      if op.endsAt <= op.startsAt then Ended(s, id)
      else LockBus(s, id, op.busId, Found(s.db, op.busId) && s.db.buses[op.busId].isActive, None)
    case Locked(b, _) => if HasActiveRecord(s.db.records, b) then Ended(s, id) else At(s, id, NoActive(b))
    case NoActive(b) =>
      if HasTripOverlap(s.db, b, op.startsAt, Some(op.endsAt)) then Ended(s, id) else At(s, id, Checked(b, None, s.clock))
    case Checked(b, _, _) =>
      At(s, id, Ready(Some(b), InsertRecord(WorkRecord(b, op.startsAt, op.endsAt, WorkStatus.Scheduled, op.startsAt))))
    case _ => s
  }

  /** setBusInMaintenance, or restoreBusActiveIfInMaintenance once no active record remains: None when start finds no ACTIVE row. */
  function BusAfter(c: Committed, busId: nat, recordId: nat, record: WorkRecord, work: WorkAction): Option<BusRow>
    requires busId in c.buses && recordId < |c.records|
  {
    var bus := c.buses[busId];
    if work.StartWork? then
      if !bus.deleted && bus.status.Active? then Some(bus.(status := InMaintenance)) else None
    else if HasActiveRecord(c.records[recordId := record], busId) then Some(bus)
    else if !bus.deleted && bus.status.InMaintenance? then Some(bus.(status := BusStatus.Active))
    else Some(bus)
  }

  function AdvanceRecordAction(s: System, id: nat): System
    requires id in s.sessions && s.sessions[id].op.ActOnRecord?
  {
    var op := s.sessions[id].op;
    if op.recordId >= |s.db.records| then Ended(s, id)
    else
      match s.sessions[id].stage
      case Begun => At(s, id, RecordRead(s.db.records[op.recordId].busId))
      case RecordRead(b) => LockBus(s, id, b, Found(s.db, b), None)
      case Locked(b, _) =>
        if op.work.StartWork?
           && (HasTripOverlap(s.db, b, s.clock, None) || b !in s.db.buses || !s.db.buses[b].status.Active?)
        then Ended(s, id) else At(s, id, Checked(b, None, s.clock))
      case Checked(b, _, at) =>
        var row := s.db.records[op.recordId];
        if row.status !in WorkSources(op.work) then Ended(s, id)
        else if op.work.CompleteWork? && s.sessions[id].begunAt < row.startedAt then Ended(s, id)
        else At(s, id, Changed(b, row.(status := WorkTarget(op.work), actualStart := if op.work.StartWork? then at else row.actualStart)))
      case Changed(b, record) =>
        if b !in s.db.buses then Ended(s, id)
        else
          var bus := BusAfter(s.db, b, op.recordId, record, op.work);
          if bus.None? then Ended(s, id) else At(s, id, Ready(Some(b), ReplaceRecord(op.recordId, record, bus.value)))
      case _ => s
  }

  /** The committed tables with one transaction's writes installed. */
  function Install(c: Committed, held: Option<nat>, w: Writes): Committed {
    match w
    case InsertTrip(trip) => c.(trips := c.trips + [trip], log := c.log + [TripEvent(|c.trips|, TripCreated)])
    case ReplaceTrip(t, trip, event) =>
      if t < |c.trips|
      then c.(trips := c.trips[t := trip], log := c.log + (if event.Some? then [TripEvent(t, event.value)] else []))
      else c
    case InsertRecord(record) => c.(records := c.records + [record])
    case ReplaceRecord(r, record, bus) =>
      if r < |c.records| && held.Some?
      then c.(records := c.records[r := record], buses := c.buses[held.value := bus])
      else c
  }

  function Commit(s: System, id: nat): System
    requires id in s.sessions && s.sessions[id].stage.Ready?
  {
    var next := Install(s.db, s.sessions[id].stage.held, s.sessions[id].stage.writes);
    if TripsAccepted(next.trips) then Ended(s.(db := next), id) else Ended(s, id)
  }

  /** One more statement of a session. */
  function Advance(s: System, id: nat): System
    requires id in s.sessions
  {
    if s.sessions[id].stage.Ready? then Commit(s, id)
    else
      match s.sessions[id].op
      case CreateTrip(_, _, _) => AdvanceCreateTrip(s, id)
      case UpdateTrip(_, _, _, _) => AdvanceUpdateTrip(s, id)
      case ActOnTrip(_, _) => AdvanceTripAction(s, id)
      case CreateRecord(_, _, _) => AdvanceCreateRecord(s, id)
      case ActOnRecord(_, _) => AdvanceRecordAction(s, id)
  }

  // ---------------------------------------------------------------- runs

  datatype Step =
    | Begin(id: nat, op: ScheduleOp)
    | Go(id: nat)
    | Abort(id: nat)
    | Tick(elapsed: nat)
    | AddBus(busId: nat)
    | RetireBus(busId: nat, to: BusStatus)
    | SetBusActive(busId: nat, isActive: bool)
    | DeleteBus(busId: nat)

  function ChangeBus(s: System, busId: nat, row: BusRow): System {
    if busId in s.busLocks then s else s.(db := s.db.(buses := s.db.buses[busId := row]))
  }

  /** Any step the scheduler, a client or the rest of the system may take next; a step that cannot happen changes nothing. */
  function Take(s: System, step: Step): System {
    match step
    case Begin(id, op) => if id in s.sessions then s else s.(sessions := s.sessions[id := Session(op, s.clock, Begun)])
    case Go(id) => if id in s.sessions then Advance(s, id) else s
    case Abort(id) => if id in s.sessions then Ended(s, id) else s
    case Tick(elapsed) => s.(clock := s.clock + elapsed)
    case AddBus(b) => if b in s.db.buses then s else ChangeBus(s, b, BusRow(BusStatus.Active, true, false))
    case RetireBus(b, to) =>
      if b in s.db.buses && (to.OutOfService? || to.Archived?) then ChangeBus(s, b, s.db.buses[b].(status := to)) else s
    case SetBusActive(b, isActive) => if b in s.db.buses then ChangeBus(s, b, s.db.buses[b].(isActive := isActive)) else s
    case DeleteBus(b) => if b in s.db.buses then ChangeBus(s, b, s.db.buses[b].(deleted := true)) else s
  }

  function Run(s: System, steps: seq<Step>): System {
    if steps == [] then s else Take(Run(s, steps[..|steps| - 1]), steps[|steps| - 1])
  }

  function Start(clock: Instant): System {
    System(Committed(map[], [], [], []), map[], map[], map[], clock)
  }
}
