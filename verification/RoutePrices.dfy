/**
 * The route price history as interleaved transactions: a change closes the open period and opens the next one
 * at the same instant, then mirrors the price on the route. A racing change that finds nothing to close must abort.
 */
module RoutePrices {
  import opened Wrappers
  import opened Tables

  datatype Period = Period(routeId: nat, price: nat, currency: string, from: Instant, to: Option<Instant>)
  datatype Route = Route(defaultPrice: nat, currency: string, deleted: bool)

  datatype PriceChange = PriceChange(routeId: nat, price: nat, currency: string)

  /** Where a createPrice transaction stands. `Closing` has its statement snapshot but not yet the row. */
  datatype Stage =
    | Begun
    | Asserted
    | Closing(seen: Option<nat>)
    | Closed(matched: Option<nat>, boundary: Instant)
    | Opened(matched: Option<nat>, period: Period)
    | Mirrored(matched: Option<nat>, period: Period, found: bool)

  datatype Session = Session(change: PriceChange, stage: Stage)

  datatype System = System(
    routes: seq<Route>, periods: seq<Period>, periodLocks: map<nat, nat>, routeLocks: map<nat, nat>,
    sessions: map<nat, Session>, clock: Instant)

  // ---------------------------------------------------------------- the constraints of route_price_history

  predicate EndsAfter(p: Period, t: Instant) {
    p.to.None? || t < p.to.value
  }

  predicate Overlap(p: Period, q: Period) {
    p.routeId == q.routeId && EndsAfter(p, q.from) && EndsAfter(q, p.from)
  }

  /** ck_route_price_period, ex_route_price_periods and uq_route_open_price_period. */
  predicate PeriodsAccepted(periods: seq<Period>) {
    && (forall i :: 0 <= i < |periods| && periods[i].to.Some? ==> periods[i].from < periods[i].to.value)
    && (forall i, j :: 0 <= i < j < |periods| ==> !Overlap(periods[i], periods[j]))
    && (forall i, j :: 0 <= i < j < |periods| && periods[i].routeId == periods[j].routeId ==>
          periods[i].to.Some? || periods[j].to.Some?)
  }

  // ---------------------------------------------------------------- statements

  function OpenPeriod(periods: seq<Period>, routeId: nat): (r: Option<nat>)
    ensures r.Some? ==> r.value < |periods| && periods[r.value].routeId == routeId && periods[r.value].to.None?
    ensures r.None? ==> forall i :: 0 <= i < |periods| && periods[i].routeId == routeId ==> periods[i].to.Some?
  {
    if periods == [] then None
    else
      var n := |periods| - 1;
      if periods[n].routeId == routeId && periods[n].to.None? then Some(n) else OpenPeriod(periods[..n], routeId)
  }

  function Without(locks: map<nat, nat>, id: nat): map<nat, nat> {
    map k | k in locks && locks[k] != id :: locks[k]
  }

  function Ended(s: System, id: nat): System {
    s.(periodLocks := Without(s.periodLocks, id), routeLocks := Without(s.routeLocks, id), sessions := s.sessions - {id})
  }

  function At(s: System, id: nat, stage: Stage): System
    requires id in s.sessions
  {
    s.(sessions := s.sessions[id := s.sessions[id].(stage := stage)])
  }

  function Installed(periods: seq<Period>, matched: Option<nat>, period: Period): seq<Period> {
    (if matched.Some? && matched.value < |periods|
     then periods[matched.value := periods[matched.value].(to := Some(period.from))] else periods)
    + [period]
  }

  function MirroredRoutes(routes: seq<Route>, change: PriceChange, found: bool): seq<Route> {
    if found && change.routeId < |routes|
    then routes[change.routeId := routes[change.routeId].(defaultPrice := change.price, currency := change.currency)]
    else routes
  }

  /** The next statement of a createPrice transaction; waiting leaves everything as it is. */
  function Advance(s: System, id: nat): System
    requires id in s.sessions
  {
    var change := s.sessions[id].change;
    match s.sessions[id].stage
    case Begun =>
      if change.routeId < |s.routes| && !s.routes[change.routeId].deleted then At(s, id, Asserted) else Ended(s, id)
    case Asserted => At(s, id, Closing(OpenPeriod(s.periods, change.routeId)))
    case Closing(seen) =>
      if seen.Some? && seen.value in s.periodLocks then s
      else if seen.Some? && seen.value < |s.periods| && s.periods[seen.value].to.None?
      then At(s.(periodLocks := s.periodLocks[seen.value := id]), id, Closed(seen, s.clock))
      else At(s, id, Closed(None, s.clock))
    case Closed(matched, boundary) =>
      At(s, id, Opened(matched, Period(change.routeId, change.price, change.currency,
                                       if matched.Some? then boundary else s.clock, None)))
    case Opened(matched, period) =>
      if change.routeId in s.routeLocks then s
      else if change.routeId < |s.routes| && !s.routes[change.routeId].deleted
      then At(s.(routeLocks := s.routeLocks[change.routeId := id]), id, Mirrored(matched, period, true))
      else At(s, id, Mirrored(matched, period, false))
    case Mirrored(matched, period, found) =>
      var periods := Installed(s.periods, matched, period);
      if PeriodsAccepted(periods)
      then Ended(s.(periods := periods, routes := MirroredRoutes(s.routes, change, found)), id)
      else Ended(s, id)
  }

  // ---------------------------------------------------------------- runs

  datatype Step =
    | CreateRoute(price: nat, currency: string, begunAt: Instant)
    | Begin(id: nat, change: PriceChange)
    | Go(id: nat)
    | Abort(id: nat)
    | Tick(elapsed: nat)
    | DeleteRoute(routeId: nat)

  /** createRoute inserts the route and its initial period, open from the transaction's now(), in one transaction. */
  function CreateRouteTx(s: System, price: nat, currency: string, begunAt: Instant): System {
    s.(routes := s.routes + [Route(price, currency, false)],
       periods := s.periods + [Period(|s.routes|, price, currency, begunAt, None)])
  }

  function Take(s: System, step: Step): System {
    match step
    case CreateRoute(price, currency, begunAt) => CreateRouteTx(s, price, currency, begunAt)
    case Begin(id, change) => if id in s.sessions then s else s.(sessions := s.sessions[id := Session(change, Begun)])
    case Go(id) => if id in s.sessions then Advance(s, id) else s
    case Abort(id) => if id in s.sessions then Ended(s, id) else s
    case Tick(elapsed) => s.(clock := s.clock + elapsed)
    case DeleteRoute(r) =>
      if r < |s.routes| && r !in s.routeLocks then s.(routes := s.routes[r := s.routes[r].(deleted := true)]) else s
  }

  function Run(s: System, steps: seq<Step>): System {
    if steps == [] then s else Take(Run(s, steps[..|steps| - 1]), steps[|steps| - 1])
  }

  function Start(clock: Instant): System {
    System([], [], map[], map[], map[], clock)
  }

  // ---------------------------------------------------------------- the timeline

  /** A route's periods in the order they were inserted. */
  function History(periods: seq<Period>, r: nat): seq<Period> {
    if periods == [] then []
    else
      var n := |periods| - 1;
      History(periods[..n], r) + (if periods[n].routeId == r then [periods[n]] else [])
  }

  /** Gapless and non-overlapping: each period ends where the next begins, and only the last is open. */
  ghost predicate Timeline(h: seq<Period>) {
    && |h| > 0
    && (forall k :: 0 <= k < |h| - 1 ==> h[k].to == Some(h[k + 1].from) && h[k].from < h[k + 1].from)
    && h[|h| - 1].to.None?
  }

  predicate Covers(p: Period, t: Instant) {
    p.from <= t && EndsAfter(p, t)
  }

  predicate Mirrors(route: Route, p: Period) {
    route.deleted || (route.defaultPrice == p.price && route.currency == p.currency)
  }

  ghost predicate RouteOk(s: System, r: nat)
    requires r < |s.routes|
  {
    var h := History(s.periods, r);
    Timeline(h) && Mirrors(s.routes[r], h[|h| - 1])
  }

  function MatchedBy(stage: Stage): Option<nat> {
    match stage
    case Begun => None
    case Asserted => None
    case Closing(_) => None
    case Closed(matched, _) => matched
    case Opened(matched, _) => matched
    case Mirrored(matched, _, _) => matched
  }

  ghost predicate SessionOk(s: System, id: nat)
    requires id in s.sessions
  {
    var change, stage := s.sessions[id].change, s.sessions[id].stage;
    && (!stage.Begun? ==> change.routeId < |s.routes|)
    && (MatchedBy(stage).Some? ==>
          && var p := MatchedBy(stage).value;
          && p < |s.periods| && s.periods[p].routeId == change.routeId && s.periods[p].to.None?
          && p in s.periodLocks && s.periodLocks[p] == id)
    && (stage.Closing? && stage.seen.Some? ==> stage.seen.value < |s.periods| && s.periods[stage.seen.value].routeId == change.routeId)
    && (stage.Opened? || stage.Mirrored? ==>
          && stage.period.routeId == change.routeId && stage.period.price == change.price
          && stage.period.currency == change.currency && stage.period.to.None?)
    && (stage.Mirrored? && stage.found ==> change.routeId in s.routeLocks && s.routeLocks[change.routeId] == id)
    && (stage.Mirrored? && !stage.found ==> s.routes[change.routeId].deleted)
  }

  ghost predicate Inv(s: System) {
    && (forall i :: 0 <= i < |s.periods| ==> s.periods[i].routeId < |s.routes|)
    && (forall r: nat :: r < |s.routes| ==> RouteOk(s, r))
    && (forall id :: id in s.sessions ==> SessionOk(s, id))
  }

  // ---------------------------------------------------------------- histories

  lemma HistoryPush(periods: seq<Period>, p: Period, r: nat)
    ensures History(periods + [p], r) == History(periods, r) + (if p.routeId == r then [p] else [])
  {
    assert (periods + [p])[..|periods|] == periods;
  }

  /** The place of row `i` in its route's history. */
  function Place(periods: seq<Period>, i: nat): nat
    requires i < |periods|
  {
    |History(periods[..i], periods[i].routeId)|
  }

  lemma {:induction false} HistoryPlaces(periods: seq<Period>, i: nat)
    requires i < |periods|
    ensures var h := History(periods, periods[i].routeId); Place(periods, i) < |h| && h[Place(periods, i)] == periods[i]
  {
    var n := |periods| - 1;
    if i < n {
      HistoryPlaces(periods[..n], i);
      assert periods[..n][..i] == periods[..i];
    }
  }

  lemma {:induction false} PlacesGrow(periods: seq<Period>, i: nat, j: nat)
    requires i < j < |periods| && periods[i].routeId == periods[j].routeId
    ensures Place(periods, i) < Place(periods, j)
  {
    HistoryPlaces(periods[..j], i);
    assert periods[..j][..i] == periods[..i];
  }

  lemma HistoryAppend(front: seq<Period>, last: Period, r: nat)
    ensures History(front + [last], r) == History(front, r) + (if last.routeId == r then [last] else [])
  {
    assert (front + [last])[..|front|] == front;
  }

  lemma {:induction false} HistoryUpdate(periods: seq<Period>, i: nat, p: Period, r: nat)
    requires i < |periods| && p.routeId == periods[i].routeId
    ensures History(periods[i := p], r)
         == if p.routeId == r && Place(periods, i) < |History(periods, r)| then History(periods, r)[Place(periods, i) := p]
            else History(periods, r)
    decreases |periods|
  {
    var front, last := periods[..|periods| - 1], periods[|periods| - 1];
    HistoryPlaces(periods, i);
    assert periods == front + [last];
    HistoryAppend(front, last, r);
    if i == |front| {
      assert periods[i := p] == front + [p];
      HistoryAppend(front, p, r);
    } else {
      HistoryUpdate(front, i, p, r);
      HistoryPlaces(front, i);
      assert periods[i := p] == front[i := p] + [last] && front[..i] == periods[..i];
      HistoryAppend(front[i := p], last, r);
    }
  }

  /** Every member of a history is some row of the table. */
  lemma {:induction false} HistoryRows(periods: seq<Period>, r: nat, k: nat) returns (i: nat)
    requires k < |History(periods, r)|
    ensures i < |periods| && periods[i].routeId == r && Place(periods, i) == k && History(periods, r)[k] == periods[i]
  {
    var n := |periods| - 1;
    if k < |History(periods[..n], r)| {
      i := HistoryRows(periods[..n], r, k);
      assert periods[..n][..i] == periods[..i];
    } else {
      i := n;
    }
  }

  // ---------------------------------------------------------------- timelines

  lemma {:induction false} TimelineSorted(h: seq<Period>, a: nat, b: nat)
    requires Timeline(h) && a < b < |h|
    ensures h[a].to.Some? && h[a].to.value <= h[b].from && h[a].from < h[b].from
    decreases b - a
  {
    assert h[a].to == Some(h[a + 1].from) && h[a].from < h[a + 1].from;
    if a + 1 < b {
      TimelineSorted(h, a + 1, b);
    }
  }

  /** Closing the last period at `boundary` and opening the next one there extends a timeline. */
  lemma TimelineExtends(h: seq<Period>, p: Period)
    requires Timeline(h) && p.to.None? && h[|h| - 1].from < p.from
    ensures Timeline(h[|h| - 1 := h[|h| - 1].(to := Some(p.from))] + [p])
  {
  }

  /** The only open row of a route with a timeline is the last of its history. */
  lemma OpenIsLast(periods: seq<Period>, i: nat)
    requires i < |periods| && Timeline(History(periods, periods[i].routeId)) && periods[i].to.None?
    ensures Place(periods, i) == |History(periods, periods[i].routeId)| - 1
  {
    HistoryPlaces(periods, i);
    OnlyLastIsOpen(History(periods, periods[i].routeId), Place(periods, i));
  }

  lemma OnlyLastIsOpen(h: seq<Period>, k: nat)
    requires Timeline(h) && k < |h|
    ensures h[k].to.None? <==> k == |h| - 1
    ensures h[k].to.Some? ==> h[k].from < h[k].to.value
  {
    if k < |h| - 1 {
      TimelineSorted(h, k, k + 1);
      assert h[k].to == Some(h[k + 1].from);
    }
  }

  lemma TimelineHasOpen(periods: seq<Period>, r: nat) returns (i: nat)
    requires Timeline(History(periods, r))
    ensures i < |periods| && periods[i].routeId == r && periods[i].to.None?
    ensures History(periods, r)[|History(periods, r)| - 1] == periods[i]
  {
    i := HistoryRows(periods, r, |History(periods, r)| - 1);
  }

  /** Two rows of one route with a timeline do not overlap, and only the later can be open. */
  lemma TimelineRowsApart(periods: seq<Period>, i: nat, j: nat)
    requires i < j < |periods| && periods[i].routeId == periods[j].routeId
    requires Timeline(History(periods, periods[i].routeId))
    ensures !Overlap(periods[i], periods[j]) && periods[i].to.Some?
  {
    HistoryPlaces(periods, i);
    HistoryPlaces(periods, j);
    PlacesGrow(periods, i, j);
    TimelineSorted(History(periods, periods[i].routeId), Place(periods, i), Place(periods, j));
  }

  lemma TimelineRowForward(periods: seq<Period>, i: nat)
    requires i < |periods| && Timeline(History(periods, periods[i].routeId))
    ensures periods[i].to.Some? ==> periods[i].from < periods[i].to.value
  {
    HistoryPlaces(periods, i);
    OnlyLastIsOpen(History(periods, periods[i].routeId), Place(periods, i));
  }

  ghost predicate AllTimelines(periods: seq<Period>) {
    forall i :: 0 <= i < |periods| ==> Timeline(History(periods, periods[i].routeId))
  }

  /** Timelines satisfy the table's constraints. */
  lemma TimelinesAccepted(periods: seq<Period>)
    requires AllTimelines(periods)
    ensures PeriodsAccepted(periods)
  {
    forall i | 0 <= i < |periods| && periods[i].to.Some?
      ensures periods[i].from < periods[i].to.value
    {
      TimelineRowForward(periods, i);
    }
    forall i, j | 0 <= i < j < |periods| && periods[i].routeId == periods[j].routeId
      ensures !Overlap(periods[i], periods[j]) && periods[i].to.Some?
    {
      TimelineRowsApart(periods, i, j);
    }
  }

  // ---------------------------------------------------------------- committing a change

  /** Closing a row changes its own place in its own history. */
  lemma ClosedHistory(periods: seq<Period>, i: nat, boundary: Instant, r: nat)
    requires i < |periods| && periods[i].to.None? && Timeline(History(periods, periods[i].routeId))
    ensures var h := History(periods, r); var next := History(periods[i := periods[i].(to := Some(boundary))], r);
      if r == periods[i].routeId then |h| > 0 && next == h[|h| - 1 := h[|h| - 1].(to := Some(boundary))] else next == h
  {
    OpenIsLast(periods, i);
    HistoryPlaces(periods, i);
    HistoryUpdate(periods, i, periods[i].(to := Some(boundary)), r);
  }

  /** What a change whose close matched the open row leaves of every route's history. */
  lemma ChangeExtendsHistory(periods: seq<Period>, i: nat, p: Period, r: nat)
    requires i < |periods| && periods[i].routeId == p.routeId && periods[i].to.None?
    requires Timeline(History(periods, p.routeId))
    ensures var h := History(periods, r); var next := History(Installed(periods, Some(i), p), r);
      next == if r == p.routeId then h[|h| - 1 := h[|h| - 1].(to := Some(p.from))] + [p] else h
  {
    ClosedHistory(periods, i, p.from, r);
    HistoryPush(periods[i := periods[i].(to := Some(p.from))], p, r);
  }

  /** Every route keeps a timeline, and only the changed route gets a new last period. */
  lemma ChangeKeepsTimeline(periods: seq<Period>, i: nat, p: Period, r: nat)
    requires i < |periods| && periods[i].routeId == p.routeId && periods[i].to.None? && p.to.None?
    requires Timeline(History(periods, p.routeId)) && Timeline(History(periods, r)) && periods[i].from < p.from
    ensures var h := History(periods, r); var next := History(Installed(periods, Some(i), p), r);
      Timeline(next) && next[|next| - 1] == if r == p.routeId then p else h[|h| - 1]
  {
    ChangeExtendsHistory(periods, i, p, r);
    if r == p.routeId {
      OpenIsLast(periods, i);
      HistoryPlaces(periods, i);
      TimelineExtends(History(periods, r), p);
    }
  }

  /** The defensive insert after a close that matched nothing always meets the period that is still open. */
  lemma UnmatchedIsRejected(periods: seq<Period>, p: Period)
    requires Timeline(History(periods, p.routeId)) && p.to.None?
    ensures !PeriodsAccepted(Installed(periods, None, p))
  {
    var i := TimelineHasOpen(periods, p.routeId);
    var next := Installed(periods, None, p);
    assert next[i] == periods[i] && next[|periods|] == p;
  }

  lemma ChangeKeepsTimelines(periods: seq<Period>, i: nat, p: Period)
    requires AllTimelines(periods)
    requires i < |periods| && periods[i].routeId == p.routeId && periods[i].to.None? && p.to.None?
    requires periods[i].from < p.from
    ensures AllTimelines(Installed(periods, Some(i), p))
  {
    var next := Installed(periods, Some(i), p);
    forall j | 0 <= j < |next|
      ensures Timeline(History(next, next[j].routeId))
    {
      var owner := if j < |periods| then j else i;
      assert next[j].routeId == periods[owner].routeId;
      ChangeKeepsTimeline(periods, i, p, periods[owner].routeId);
    }
  }

  /** A matched change is accepted exactly when its boundary lies after the start of the period it closes. */
  lemma MatchedIsAcceptedIffLater(periods: seq<Period>, i: nat, p: Period)
    requires AllTimelines(periods)
    requires i < |periods| && periods[i].routeId == p.routeId && periods[i].to.None? && p.to.None?
    ensures PeriodsAccepted(Installed(periods, Some(i), p)) <==> periods[i].from < p.from
  {
    var next := Installed(periods, Some(i), p);
    if periods[i].from < p.from {
      ChangeKeepsTimelines(periods, i, p);
      TimelinesAccepted(next);
    } else {
      assert next[i].to == Some(p.from) && next[i].from == periods[i].from;
    }
  }

  lemma TimelinesHold(s: System)
    requires Inv(s)
    ensures AllTimelines(s.periods)
  {
    forall j | 0 <= j < |s.periods| ensures Timeline(History(s.periods, s.periods[j].routeId)) {
      assert RouteOk(s, s.periods[j].routeId);
    }
  }

  /** What an accepted commit was: a change of the open period of its route at a later instant. */
  lemma AcceptedMatched(s: System, id: nat)
    requires Inv(s) && id in s.sessions && s.sessions[id].stage.Mirrored?
    requires var stage := s.sessions[id].stage; PeriodsAccepted(Installed(s.periods, stage.matched, stage.period))
    ensures Matched(s, id)
  {
    var change, stage := s.sessions[id].change, s.sessions[id].stage;
    assert SessionOk(s, id) && RouteOk(s, change.routeId);
    TimelinesHold(s);
    if stage.matched.None? {
      UnmatchedIsRejected(s.periods, stage.period);
    } else {
      MatchedIsAcceptedIffLater(s.periods, stage.matched.value, stage.period);
    }
  }

  /** The accepted commit, spelled out. */
  ghost predicate Matched(s: System, id: nat)
    requires id in s.sessions && s.sessions[id].stage.Mirrored?
  {
    var change, stage := s.sessions[id].change, s.sessions[id].stage;
    && stage.matched.Some? && stage.matched.value < |s.periods| && change.routeId < |s.routes|
    && stage.period.routeId == change.routeId && s.periods[stage.matched.value].routeId == change.routeId
    && stage.period.price == change.price && stage.period.currency == change.currency
    && s.periods[stage.matched.value].to.None? && stage.period.to.None?
    && s.periods[stage.matched.value].from < stage.period.from
    && (!stage.found ==> s.routes[change.routeId].deleted)
  }

  lemma CommitKeepsRoute(s: System, id: nat, r: nat)
    requires id in s.sessions && s.sessions[id].stage.Mirrored? && Matched(s, id)
    requires r < |s.routes| && RouteOk(s, r) && Timeline(History(s.periods, s.sessions[id].change.routeId))
    requires PeriodsAccepted(Installed(s.periods, s.sessions[id].stage.matched, s.sessions[id].stage.period))
    ensures r < |Advance(s, id).routes| && RouteOk(Advance(s, id), r)
  {
    var stage := s.sessions[id].stage;
    ChangeKeepsTimeline(s.periods, stage.matched.value, stage.period, r);
  }

  lemma CommitKeepsRoutes(s: System, id: nat)
    requires Inv(s) && id in s.sessions && s.sessions[id].stage.Mirrored?
    requires var stage := s.sessions[id].stage; PeriodsAccepted(Installed(s.periods, stage.matched, stage.period))
    ensures var next := Advance(s, id);
      && (forall i :: 0 <= i < |next.periods| ==> next.periods[i].routeId < |next.routes|)
      && (forall r: nat :: r < |next.routes| ==> RouteOk(next, r))
  {
    AcceptedMatched(s, id);
    var next := Advance(s, id);
    assert RouteOk(s, s.sessions[id].change.routeId);
    forall r: nat | r < |next.routes| ensures RouteOk(next, r) {
      assert RouteOk(s, r);
      CommitKeepsRoute(s, id, r);
    }
  }

  lemma CommitKeepsSessions(s: System, id: nat, other: nat)
    requires id in s.sessions && s.sessions[id].stage.Mirrored? && SessionOk(s, id)
    requires other in s.sessions && other != id && SessionOk(s, other)
    ensures other in Advance(s, id).sessions && SessionOk(Advance(s, id), other)
  {
    var stage, theirs := s.sessions[id].stage, s.sessions[other].stage;
    if MatchedBy(theirs).Some? {
      InstalledElsewhere(s.periods, stage.matched, stage.period, MatchedBy(theirs).value);
    }
    if theirs.Closing? && theirs.seen.Some? {
      InstalledKeepsRoutes(s.periods, stage.matched, stage.period, theirs.seen.value);
    }
  }

  lemma InstalledElsewhere(periods: seq<Period>, matched: Option<nat>, period: Period, p: nat)
    requires p < |periods| && matched != Some(p)
    ensures p < |Installed(periods, matched, period)| && Installed(periods, matched, period)[p] == periods[p]
  {
  }

  lemma InstalledKeepsRoutes(periods: seq<Period>, matched: Option<nat>, period: Period, p: nat)
    requires p < |periods|
    ensures p < |Installed(periods, matched, period)| && Installed(periods, matched, period)[p].routeId == periods[p].routeId
  {
  }

  lemma EndedKeepsInv(s: System, id: nat)
    requires Inv(s)
    ensures Inv(Ended(s, id))
  {
    forall r: nat | r < |s.routes| ensures RouteOk(Ended(s, id), r) {
      assert RouteOk(s, r);
    }
    forall other | other in s.sessions && other != id ensures SessionOk(Ended(s, id), other) {
      assert SessionOk(s, other);
    }
  }

  /** A session moves on without committing, possibly taking one free lock. */
  lemma MovedOnKeepsInv(s: System, next: System, id: nat, stage: Stage)
    requires Inv(s) && id in s.sessions
    requires next.routes == s.routes && next.periods == s.periods
    requires next.sessions == s.sessions[id := s.sessions[id].(stage := stage)]
    requires forall p :: p in s.periodLocks ==> p in next.periodLocks && next.periodLocks[p] == s.periodLocks[p]
    requires forall r :: r in s.routeLocks ==> r in next.routeLocks && next.routeLocks[r] == s.routeLocks[r]
    requires SessionOk(next, id)
    ensures Inv(next)
  {
    forall r: nat | r < |s.routes| ensures RouteOk(next, r) {
      assert RouteOk(s, r);
    }
    forall other | other in next.sessions ensures SessionOk(next, other) {
      if other != id {
        assert SessionOk(s, other);
      }
    }
  }

  lemma StatementKeepsInv(s: System, id: nat)
    requires Inv(s) && id in s.sessions && !s.sessions[id].stage.Mirrored?
    ensures Inv(Advance(s, id))
  {
    var next := Advance(s, id);
    if id !in next.sessions {
      EndedKeepsInv(s, id);
    } else if next != s {
      assert SessionOk(s, id);
      StatementLeavesSessionOk(s, id);
      MovedOnKeepsInv(s, next, id, next.sessions[id].stage);
    }
  }

  lemma StatementLeavesSessionOk(s: System, id: nat)
    requires id in s.sessions && !s.sessions[id].stage.Mirrored? && SessionOk(s, id) && id in Advance(s, id).sessions
    ensures SessionOk(Advance(s, id), id)
  {
  }

  lemma CommitKeepsInv(s: System, id: nat)
    requires Inv(s) && id in s.sessions && s.sessions[id].stage.Mirrored?
    ensures Inv(Advance(s, id))
  {
    var stage := s.sessions[id].stage;
    if PeriodsAccepted(Installed(s.periods, stage.matched, stage.period)) {
      CommitKeepsRoutes(s, id);
      forall other | other in s.sessions && other != id ensures SessionOk(Advance(s, id), other) {
        CommitKeepsSessions(s, id, other);
      }
    } else {
      EndedKeepsInv(s, id);
    }
  }

  lemma CreateRouteKeepsInv(s: System, price: nat, currency: string, begunAt: Instant)
    requires Inv(s)
    ensures Inv(CreateRouteTx(s, price, currency, begunAt))
  {
    var next := CreateRouteTx(s, price, currency, begunAt);
    var first := Period(|s.routes|, price, currency, begunAt, None);
    forall r: nat | r < |next.routes| ensures RouteOk(next, r) {
      HistoryPush(s.periods, first, r);
      if r < |s.routes| {
        assert RouteOk(s, r);
      } else {
        NoHistoryYet(s.periods, r);
      }
    }
    forall id | id in s.sessions ensures SessionOk(next, id) {
      assert SessionOk(s, id);
    }
  }

  lemma {:induction false} NoHistoryYet(periods: seq<Period>, r: nat)
    requires forall i :: 0 <= i < |periods| ==> periods[i].routeId < r
    ensures History(periods, r) == []
  {
    if periods != [] {
      NoHistoryYet(periods[..|periods| - 1], r);
    }
  }

  lemma TakeKeepsInv(s: System, step: Step)
    requires Inv(s)
    ensures Inv(Take(s, step))
  {
    match step
    case CreateRoute(price, currency, begunAt) => CreateRouteKeepsInv(s, price, currency, begunAt);
    case Begin(id, change) =>
      OtherwiseSame(s, Take(s, step));
    case Go(id) =>
      if id in s.sessions {
        if s.sessions[id].stage.Mirrored? { CommitKeepsInv(s, id); } else { StatementKeepsInv(s, id); }
      }
    case Abort(id) => EndedKeepsInv(s, id);
    case Tick(_) => OtherwiseSame(s, Take(s, step));
    case DeleteRoute(_) => OtherwiseSame(s, Take(s, step));
  }

  /** Steps that leave the periods and the locks alone, and at most delete an unlocked route or begin a session. */
  lemma OtherwiseSame(s: System, next: System)
    requires Inv(s) && next.periods == s.periods && next.periodLocks == s.periodLocks && next.routeLocks == s.routeLocks
    requires |next.routes| == |s.routes|
    requires forall r :: 0 <= r < |s.routes| ==>
      next.routes[r] == s.routes[r] || (r !in s.routeLocks && next.routes[r] == s.routes[r].(deleted := true))
    requires forall id :: id in next.sessions ==> next.sessions[id].stage.Begun? || (id in s.sessions && next.sessions[id] == s.sessions[id])
    ensures Inv(next)
  {
    forall r: nat | r < |next.routes| ensures RouteOk(next, r) {
      assert RouteOk(s, r);
    }
    forall id | id in next.sessions ensures SessionOk(next, id) {
      if !next.sessions[id].stage.Begun? {
        assert SessionOk(s, id);
      }
    }
  }

  lemma {:induction false} RunKeepsInv(s: System, steps: seq<Step>)
    requires Inv(s)
    ensures Inv(Run(s, steps))
  {
    if steps != [] {
      RunKeepsInv(s, steps[..|steps| - 1]);
      TakeKeepsInv(Run(s, steps[..|steps| - 1]), steps[|steps| - 1]);
    }
  }

  // ---------------------------------------------------------------- theorems

  /** How many periods of a history cover an instant. */
  function CoverCount(h: seq<Period>, t: Instant): nat {
    if h == [] then 0 else CoverCount(h[..|h| - 1], t) + (if Covers(h[|h| - 1], t) then 1 else 0)
  }

  lemma {:induction false} ChainCovers(h: seq<Period>, t: Instant)
    requires |h| > 0
    requires forall k :: 0 <= k < |h| - 1 ==> h[k].to == Some(h[k + 1].from) && h[k].from < h[k + 1].from
    requires h[|h| - 1].to.Some? ==> h[|h| - 1].from < h[|h| - 1].to.value
    ensures CoverCount(h, t) == if h[0].from <= t && EndsAfter(h[|h| - 1], t) then 1 else 0
  {
    var n := |h| - 1;
    if n == 0 {
      assert CoverCount(h[..0], t) == 0;
    } else {
      assert h[..n][n - 1] == h[n - 1] && h[..n][0] == h[0];
      ChainCovers(h[..n], t);
      ChainStartsFirst(h, n);
    }
  }

  lemma {:induction false} ChainStartsFirst(h: seq<Period>, n: nat)
    requires n < |h| && forall k :: 0 <= k < |h| - 1 ==> h[k].from < h[k + 1].from
    ensures h[0].from <= h[n].from
  {
    if n > 0 { ChainStartsFirst(h, n - 1); }
  }

  /**
   * Under every interleaving, each route's history is a gapless timeline with one open period, the last, which the
   * live route mirrors; and every instant since the route's creation has exactly one price, none before it.
   */
  lemma EveryInstantHasOnePrice(clock: Instant, steps: seq<Step>, r: nat, t: Instant)
    requires r < |Run(Start(clock), steps).routes|
    ensures var s := Run(Start(clock), steps); var h := History(s.periods, r);
      && Timeline(h) && Mirrors(s.routes[r], h[|h| - 1])
      && CoverCount(h, t) == if h[0].from <= t then 1 else 0
  {
    RunKeepsInv(Start(clock), steps);
    var s := Run(Start(clock), steps);
    assert RouteOk(s, r);
    ChainCovers(History(s.periods, r), t);
  }

  /** A racing change whose close matched no row aborts: no table changes. */
  lemma UnmatchedChangeAborts(s: System, id: nat)
    requires Inv(s) && id in s.sessions && s.sessions[id].stage.Mirrored? && s.sessions[id].stage.matched.None?
    ensures Advance(s, id) == Ended(s, id)
  {
    assert SessionOk(s, id) && RouteOk(s, s.sessions[id].change.routeId);
    UnmatchedIsRejected(s.periods, s.sessions[id].stage.period);
  }

  /** A change commits exactly when its close matched the open period at an instant after that period began. */
  lemma ChangeCommitsIff(s: System, id: nat)
    requires Inv(s) && id in s.sessions && s.sessions[id].stage.Mirrored?
    ensures var stage := s.sessions[id].stage;
      |Advance(s, id).periods| == |s.periods| + 1
      <==> stage.matched.Some? && s.periods[stage.matched.value].from < stage.period.from
  {
    var stage := s.sessions[id].stage;
    assert SessionOk(s, id);
    if stage.matched.None? {
      UnmatchedChangeAborts(s, id);
    } else {
      TimelinesHold(s);
      MatchedIsAcceptedIffLater(s.periods, stage.matched.value, stage.period);
    }
  }

  /** The price in force at an instant, if any. */
  function PriceAt(h: seq<Period>, t: Instant): Option<(nat, string)> {
    if h == [] then None
    else if Covers(h[|h| - 1], t) then Some((h[|h| - 1].price, h[|h| - 1].currency))
    else PriceAt(h[..|h| - 1], t)
  }

  /** A committed change is in force from its boundary on, and no instant before the boundary changes its price. */
  lemma ChangeKeepsThePast(s: System, id: nat, r: nat, t: Instant)
    requires Inv(s) && id in s.sessions && s.sessions[id].stage.Mirrored? && r < |s.routes|
    requires |Advance(s, id).periods| == |s.periods| + 1
    ensures var change, p := s.sessions[id].change, s.sessions[id].stage.period;
      PriceAt(History(Advance(s, id).periods, r), t)
      == if r == change.routeId && p.from <= t then Some((change.price, change.currency)) else PriceAt(History(s.periods, r), t)
  {
    var stage := s.sessions[id].stage;
    assert SessionOk(s, id) && RouteOk(s, r) && RouteOk(s, s.sessions[id].change.routeId);
    ChangeCommitsIff(s, id);
    ChangeExtendsHistory(s.periods, stage.matched.value, stage.period, r);
    var h := History(s.periods, r);
    if r == s.sessions[id].change.routeId {
      ClosingKeepsThePast(h, stage.period, t);
    }
  }

  lemma ClosingKeepsThePast(h: seq<Period>, p: Period, t: Instant)
    requires Timeline(h) && p.to.None?
    ensures PriceAt(h[|h| - 1 := h[|h| - 1].(to := Some(p.from))] + [p], t)
         == if p.from <= t then Some((p.price, p.currency)) else PriceAt(h, t)
  {
    var n := |h| - 1;
    var closed := h[n := h[n].(to := Some(p.from))];
    assert (closed + [p])[..n + 1] == closed;
    assert closed[..n] == h[..n];
  }

  /** Append-only: over any run no period disappears, and a closed one never changes again. */
  lemma {:induction false} ClosedPeriodsAreForEver(s: System, steps: seq<Step>, i: nat)
    requires Inv(s) && i < |s.periods|
    ensures var next := Run(s, steps);
      && i < |next.periods|
      && next.periods[i] == s.periods[i].(to := next.periods[i].to)
      && (s.periods[i].to.Some? ==> next.periods[i] == s.periods[i])
  {
    if steps != [] {
      var before := Run(s, steps[..|steps| - 1]);
      ClosedPeriodsAreForEver(s, steps[..|steps| - 1], i);
      RunKeepsInv(s, steps[..|steps| - 1]);
      var step := steps[|steps| - 1];
      if step.Go? && step.id in before.sessions {
        assert SessionOk(before, step.id);
      }
    }
  }
}
