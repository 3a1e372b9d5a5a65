/**
 * createRoute and createPrice on mutable tables, one method per statement between two interleaving points.
 * Every method leaves the state exactly as the step function of RoutePrices says.
 */
module RoutePriceServices {
  import opened Wrappers
  import opened Tables
  import opened RoutePrices

  class PriceDatabase {
    var routes: seq<Route>
    var periods: seq<Period>
    var periodLocks: map<nat, nat>
    var routeLocks: map<nat, nat>
    var sessions: map<nat, Session>
    var clock: Instant

    function State(): System
      reads this
    {
      System(routes, periods, periodLocks, routeLocks, sessions, clock)
    }

    constructor (clock: Instant)
      ensures State() == Start(clock)
    {
      routes, periods := [], [];
      periodLocks, routeLocks, sessions := map[], map[], map[];
      this.clock := clock;
    }

    /** The route and its initial open period, in one transaction. */
    method CreateRoute(price: nat, currency: string, begunAt: Instant) returns (routeId: nat)
      modifies `routes, `periods
      ensures State() == CreateRouteTx(old(State()), price, currency, begunAt) && routeId == old(|routes|)
    {
      routeId := |routes|;
      routes := routes + [Route(price, currency, false)];
      periods := periods + [Period(routeId, price, currency, begunAt, None)];
    }

    method Finish(id: nat)
      modifies `periodLocks, `routeLocks, `sessions
      ensures State() == Ended(old(State()), id)
    {
      periodLocks, routeLocks, sessions := Without(periodLocks, id), Without(routeLocks, id), sessions - {id};
    }

    method MoveTo(id: nat, stage: Stage)
      requires id in sessions
      modifies `sessions
      ensures State() == At(old(State()), id, stage)
    {
      sessions := sessions[id := sessions[id].(stage := stage)];
    }

    /** The snapshot of UPDATE ... WHERE effective_to IS NULL: scanned from the newest row back. */
    method FindOpenPeriod(routeId: nat) returns (found: Option<nat>)
      ensures found == OpenPeriod(periods, routeId)
    {
      var i := |periods|;
      assert periods[..i] == periods;
      while i > 0
        invariant 0 <= i <= |periods|
        invariant OpenPeriod(periods, routeId) == OpenPeriod(periods[..i], routeId)
      {
        assert periods[..i][..i - 1] == periods[..i - 1];
        i := i - 1;
        if periods[i].routeId == routeId && periods[i].to.None? {
          return Some(i);
        }
      }
      found := None;
    }

    /** The close: waits for the row, then matches it only if it is still open. */
    method CloseOpenPeriod(id: nat, seen: Option<nat>)
      requires id in sessions && sessions[id].stage == Closing(seen)
      modifies this
      ensures State() == Advance(old(State()), id)
    {
      if seen.Some? && seen.value in periodLocks {
        return;
      }
      if seen.Some? && seen.value < |periods| && periods[seen.value].to.None? {
        periodLocks := periodLocks[seen.value := id];
        MoveTo(id, Closed(seen, clock));
      } else {
        MoveTo(id, Closed(None, clock));
      }
    }

    /** updateDefaultPrice: waits for the route row; a deleted route matches no row. */
    method Mirror(id: nat, matched: Option<nat>, period: Period)
      requires id in sessions && sessions[id].stage == Opened(matched, period)
      modifies this
      ensures State() == Advance(old(State()), id)
    {
      var routeId := sessions[id].change.routeId;
      if routeId in routeLocks {
        return;
      }
      if routeId < |routes| && !routes[routeId].deleted {
        routeLocks := routeLocks[routeId := id];
        MoveTo(id, Mirrored(matched, period, true));
      } else {
        MoveTo(id, Mirrored(matched, period, false));
      }
    }

    /** COMMIT of the closed row, the new row and the mirror, unless a constraint of the history refuses them. */
    method CommitChange(id: nat, matched: Option<nat>, period: Period, found: bool)
      requires id in sessions && sessions[id].stage == Mirrored(matched, period, found)
      modifies this
      ensures State() == Advance(old(State()), id)
    {
      var next := periods;
      if matched.Some? && matched.value < |periods| {
        next := next[matched.value := next[matched.value].(to := Some(period.from))];
      }
      next := next + [period];
      if PeriodsAccepted(next) {
        var change := sessions[id].change;
        periods := next;
        if found && change.routeId < |routes| {
          routes := routes[change.routeId := routes[change.routeId].(defaultPrice := change.price, currency := change.currency)];
        }
      }
      Finish(id);
    }

    /** One more statement of a createPrice transaction. */
    method Go(id: nat)
      requires id in sessions
      modifies this
      ensures State() == Advance(old(State()), id)
    {
      var change := sessions[id].change;
      match sessions[id].stage {
        case Begun =>
          if change.routeId < |routes| && !routes[change.routeId].deleted {
            MoveTo(id, Asserted);
          } else {
            Finish(id);
          }
        case Asserted =>
          var open := FindOpenPeriod(change.routeId);
          MoveTo(id, Closing(open));
        case Closing(seen) => CloseOpenPeriod(id, seen);
        case Closed(matched, boundary) =>
          MoveTo(id, Opened(matched, Period(change.routeId, change.price, change.currency,
                                            if matched.Some? then boundary else clock, None)));
        case Opened(matched, period) => Mirror(id, matched, period);
        case Mirrored(matched, period, found) => CommitChange(id, matched, period, found);
      }
    }
  }
}
