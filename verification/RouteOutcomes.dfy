/**
 * What creating and repricing a route does, row by row, and what the price of a route at an instant is over whole
 * runs: that of the last committed change at or before it, else the one the route was created with.
 */
module RouteOutcomes {
  import opened Wrappers
  import opened Tables
  import opened RoutePrices

  // ---------------------------------------------------------------- createRoute

  /** A new route is live, carries the given price, and has had it since the instant it was created, not before. */
  lemma NewRouteHasItsPrice(s: System, price: nat, currency: string, begunAt: Instant, t: Instant)
    requires Inv(s)
    ensures var next, r := Take(s, CreateRoute(price, currency, begunAt)), |s.routes|;
      && next.routes == s.routes + [Route(price, currency, false)]
      && History(next.periods, r) == [Period(r, price, currency, begunAt, None)]
      && PriceAt(History(next.periods, r), t) == if begunAt <= t then Some((price, currency)) else None
  {
    var next, r := Take(s, CreateRoute(price, currency, begunAt)), |s.routes|;
    NoHistoryYet(s.periods, r);
    HistoryPush(s.periods, Period(r, price, currency, begunAt, None), r);
    assert [Period(r, price, currency, begunAt, None)][..0] == [];
  }

  /** No other route has another price at any instant. */
  lemma NewRouteLeavesOthers(s: System, price: nat, currency: string, begunAt: Instant, r: nat)
    requires r != |s.routes|
    ensures History(Take(s, CreateRoute(price, currency, begunAt)).periods, r) == History(s.periods, r)
  {
    HistoryPush(s.periods, Period(|s.routes|, price, currency, begunAt, None), r);
  }

  // ---------------------------------------------------------------- prices over runs

  /** A price that was committed for a route, from an instant on. */
  datatype Offer = Offer(from: Instant, price: nat, currency: string)

  /** The offer for route `r` that one step commits, if any. */
  ghost function OfferMade(s: System, step: Step, r: nat): seq<Offer> {
    match step
    case CreateRoute(price, currency, begunAt) => if |s.routes| == r then [Offer(begunAt, price, currency)] else []
    case Go(id) =>
      if id in s.sessions && s.sessions[id].stage.Mirrored? && s.sessions[id].change.routeId == r
         && |Take(s, step).periods| > |s.periods|
      then [Offer(s.sessions[id].stage.period.from, s.sessions[id].change.price, s.sessions[id].change.currency)] else []
    case _ => []
  }

  /** All offers for route `r` a run commits, in the order of their commits. */
  ghost function Offers(s: System, steps: seq<Step>, r: nat): seq<Offer> {
    if steps == [] then []
    else
      var n := |steps| - 1;
      Offers(s, steps[..n], r) + OfferMade(Run(s, steps[..n]), steps[n], r)
  }

  /** The latest of the offers in force at the instant. */
  function InForce(offers: seq<Offer>, t: Instant): Option<(nat, string)> {
    if offers == [] then None
    else
      var last := offers[|offers| - 1];
      if last.from <= t then Some((last.price, last.currency)) else InForce(offers[..|offers| - 1], t)
  }

  lemma InForcePush(offers: seq<Offer>, last: Offer, t: Instant)
    ensures InForce(offers + [last], t) == if last.from <= t then Some((last.price, last.currency)) else InForce(offers, t)
  {
    assert (offers + [last])[..|offers|] == offers;
  }

  lemma NoPriceYet(s: System, r: nat, t: Instant)
    requires Inv(s) && r >= |s.routes|
    ensures PriceAt(History(s.periods, r), t) == None
  {
    NoHistoryYet(s.periods, r);
  }

  /** What one step does to the price of one route at one instant: an offer it makes supersedes, and nothing else does. */
  lemma StepOffers(s: System, step: Step, r: nat, t: Instant)
    requires Inv(s)
    ensures var offer := OfferMade(s, step, r);
      PriceAt(History(Take(s, step).periods, r), t)
      == if |offer| == 1 && offer[0].from <= t then Some((offer[0].price, offer[0].currency)) else PriceAt(History(s.periods, r), t)
  {
    match step
    case CreateRoute(price, currency, begunAt) =>
      if r == |s.routes| {
        NewRouteHasItsPrice(s, price, currency, begunAt, t);
        NoPriceYet(s, r, t);
      } else {
        NewRouteLeavesOthers(s, price, currency, begunAt, r);
      }
    case Go(id) => if id in s.sessions { StatementOffers(s, id, r, t); }
    case _ =>
  }

  lemma StatementOffers(s: System, id: nat, r: nat, t: Instant)
    requires Inv(s) && id in s.sessions
    ensures var offer := OfferMade(s, Go(id), r);
      PriceAt(History(Take(s, Go(id)).periods, r), t)
      == if |offer| == 1 && offer[0].from <= t then Some((offer[0].price, offer[0].currency)) else PriceAt(History(s.periods, r), t)
  {
    if s.sessions[id].stage.Mirrored? && |Take(s, Go(id)).periods| > |s.periods| {
      if r < |s.routes| {
        ChangeKeepsThePast(s, id, r, t);
      } else {
        assert SessionOk(s, id);
        NoPriceYet(s, r, t);
        TakeKeepsInv(s, Go(id));
        NoPriceYet(Take(s, Go(id)), r, t);
      }
    } else {
      UncommittedKeepsPeriods(s, id);
    }
  }

  lemma UncommittedKeepsPeriods(s: System, id: nat)
    requires id in s.sessions && !(s.sessions[id].stage.Mirrored? && |Take(s, Go(id)).periods| > |s.periods|)
    ensures Take(s, Go(id)).periods == s.periods
  {
  }

  /**
   * In every run, the price of a route at an instant is that of its last committed change in force by then, and before
   * any change the price it was created with; before its creation it has none.
   */
  lemma {:induction false} PriceIsTheLastOffer(clock: Instant, steps: seq<Step>, r: nat, t: Instant)
    ensures PriceAt(History(Run(Start(clock), steps).periods, r), t) == InForce(Offers(Start(clock), steps, r), t)
  {
    if steps != [] {
      var n := |steps| - 1;
      var before := Run(Start(clock), steps[..n]);
      PriceIsTheLastOffer(clock, steps[..n], r, t);
      RunKeepsInv(Start(clock), steps[..n]);
      StepOffers(before, steps[n], r, t);
      OneOffer(Offers(Start(clock), steps[..n], r), OfferMade(before, steps[n], r), t);
    }
  }

  lemma OneOffer(offers: seq<Offer>, made: seq<Offer>, t: Instant)
    requires |made| <= 1
    ensures InForce(offers + made, t)
         == if |made| == 1 && made[0].from <= t then Some((made[0].price, made[0].currency)) else InForce(offers, t)
  {
    if |made| == 1 {
      assert made == [made[0]];
      InForcePush(offers, made[0], t);
    } else {
      assert offers + made == offers;
    }
  }

  /** The first offer of a route is the one it was created with, and the route exists from then on. */
  lemma {:induction false} FirstOfferIsCreation(clock: Instant, steps: seq<Step>, r: nat) returns (k: nat)
    requires r < |Run(Start(clock), steps).routes|
    ensures k < |steps| && steps[k].CreateRoute? && Offers(Start(clock), steps, r) != []
    ensures Offers(Start(clock), steps, r)[0] == Offer(steps[k].begunAt, steps[k].price, steps[k].currency)
    ensures |Run(Start(clock), steps[..k]).routes| == r
  {
    var n := |steps| - 1;
    var before := Run(Start(clock), steps[..n]);
    if r < |before.routes| {
      k := FirstOfferIsCreation(clock, steps[..n], r);
      assert steps[..n][..k] == steps[..k];
    } else {
      RunKeepsInv(Start(clock), steps[..n]);
      RoutesGrowByCreation(before, steps[n]);
      NoOffersYet(clock, steps[..n], r);
      k := n;
    }
  }

  lemma RoutesGrowByCreation(s: System, step: Step)
    ensures |Take(s, step).routes| == |s.routes| + if step.CreateRoute? then 1 else 0
  {
  }

  lemma {:induction false} NoOffersYet(clock: Instant, steps: seq<Step>, r: nat)
    requires r >= |Run(Start(clock), steps).routes|
    ensures Offers(Start(clock), steps, r) == []
  {
    if steps != [] {
      var n := |steps| - 1;
      var before := Run(Start(clock), steps[..n]);
      RoutesGrowByCreation(before, steps[n]);
      RunKeepsInv(Start(clock), steps[..n]);
      NoOffersYet(clock, steps[..n], r);
      if steps[n].Go? && steps[n].id in before.sessions {
        assert SessionOk(before, steps[n].id);
      }
    }
  }

  // ---------------------------------------------------------------- createPrice, undisturbed

  /** The transaction runs alone for up to `n` statements. */
  function Alone(s: System, id: nat, n: nat): System
    decreases n
  {
    if n == 0 || id !in s.sessions then s else Alone(Take(s, Go(id)), id, n - 1)
  }

  /** Within `n` statements it is over and leaves these tables. */
  ghost predicate Ends(s: System, id: nat, n: nat, periods: seq<Period>, routes: seq<Route>) {
    var last := Alone(s, id, n);
    id !in last.sessions && last.periods == periods && last.routes == routes
  }

  lemma EndsNow(s: System, id: nat, n: nat)
    requires n > 0 && id in s.sessions && id !in Take(s, Go(id)).sessions
    ensures Ends(s, id, n, Take(s, Go(id)).periods, Take(s, Go(id)).routes)
  {
    assert Alone(Take(s, Go(id)), id, n - 1) == Take(s, Go(id));
  }

  lemma EndsLater(s: System, id: nat, n: nat, periods: seq<Period>, routes: seq<Route>)
    requires n > 0 && id in s.sessions && Ends(Take(s, Go(id)), id, n - 1, periods, routes)
    ensures Ends(s, id, n, periods, routes)
  {
  }

  /** The open period of the route is closed at the instant, and the new price opens there. */
  function Repriced(periods: seq<Period>, i: nat, change: PriceChange, at: Instant): seq<Period>
    requires i < |periods|
  {
    var open := periods[i];
    periods[i := Period(open.routeId, open.price, open.currency, open.from, Some(at))]
    + [Period(change.routeId, change.price, change.currency, at, None)]
  }

  /** The tables a change leaves, if it comes after the open period began. */
  function RepricedPeriods(s: System, i: nat, change: PriceChange, at: Instant): seq<Period>
    requires i < |s.periods|
  {
    if s.periods[i].from < at then Repriced(s.periods, i, change, at) else s.periods
  }

  function RepricedRoutes(s: System, i: nat, change: PriceChange, at: Instant): seq<Route>
    requires i < |s.periods| && change.routeId < |s.routes|
  {
    if s.periods[i].from < at then s.routes[change.routeId := Route(change.price, change.currency, s.routes[change.routeId].deleted)]
    else s.routes
  }

  /** The last statement: COMMIT, or ROLLBACK when a constraint objects. */
  lemma FromMirrored(s: System, id: nat, i: nat, at: Instant, n: nat)
    requires n >= 1 && Inv(s) && id in s.sessions && s.sessions[id].change.routeId < |s.routes|
    requires var change := s.sessions[id].change;
      s.sessions[id].stage == Mirrored(Some(i), Period(change.routeId, change.price, change.currency, at, None), true)
    ensures i < |s.periods|
    ensures Ends(s, id, n, RepricedPeriods(s, i, s.sessions[id].change, at), RepricedRoutes(s, i, s.sessions[id].change, at))
  {
    assert SessionOk(s, id);
    var change := s.sessions[id].change;
    TimelinesHold(s);
    MatchedIsAcceptedIffLater(s.periods, i, Period(change.routeId, change.price, change.currency, at, None));
    EndsNow(s, id, n);
  }

  lemma FromOpened(s: System, id: nat, i: nat, at: Instant, n: nat)
    requires n >= 2 && Inv(s) && id in s.sessions && s.sessions[id].change.routeId < |s.routes|
    requires !s.routes[s.sessions[id].change.routeId].deleted && s.sessions[id].change.routeId !in s.routeLocks
    requires var change := s.sessions[id].change;
      s.sessions[id].stage == Opened(Some(i), Period(change.routeId, change.price, change.currency, at, None))
    ensures i < |s.periods|
    ensures Ends(s, id, n, RepricedPeriods(s, i, s.sessions[id].change, at), RepricedRoutes(s, i, s.sessions[id].change, at))
  {
    TakeKeepsInv(s, Go(id));
    FromMirrored(Take(s, Go(id)), id, i, at, n - 1);
    EndsLater(s, id, n, RepricedPeriods(s, i, s.sessions[id].change, at), RepricedRoutes(s, i, s.sessions[id].change, at));
  }

  lemma FromClosed(s: System, id: nat, i: nat, at: Instant, n: nat)
    requires n >= 3 && Inv(s) && id in s.sessions && s.sessions[id].change.routeId < |s.routes|
    requires !s.routes[s.sessions[id].change.routeId].deleted && s.sessions[id].change.routeId !in s.routeLocks
    requires s.sessions[id].stage == Closed(Some(i), at)
    ensures i < |s.periods|
    ensures Ends(s, id, n, RepricedPeriods(s, i, s.sessions[id].change, at), RepricedRoutes(s, i, s.sessions[id].change, at))
  {
    TakeKeepsInv(s, Go(id));
    FromOpened(Take(s, Go(id)), id, i, at, n - 1);
    EndsLater(s, id, n, RepricedPeriods(s, i, s.sessions[id].change, at), RepricedRoutes(s, i, s.sessions[id].change, at));
  }

  lemma FromClosing(s: System, id: nat, i: nat, n: nat)
    requires n >= 4 && Inv(s) && id in s.sessions && s.sessions[id].change.routeId < |s.routes|
    requires !s.routes[s.sessions[id].change.routeId].deleted && s.sessions[id].change.routeId !in s.routeLocks
    requires s.sessions[id].stage == Closing(Some(i)) && i < |s.periods| && s.periods[i].to.None? && i !in s.periodLocks
    ensures Ends(s, id, n, RepricedPeriods(s, i, s.sessions[id].change, s.clock), RepricedRoutes(s, i, s.sessions[id].change, s.clock))
  {
    TakeKeepsInv(s, Go(id));
    FromClosed(Take(s, Go(id)), id, i, s.clock, n - 1);
    EndsLater(s, id, n, RepricedPeriods(s, i, s.sessions[id].change, s.clock), RepricedRoutes(s, i, s.sessions[id].change, s.clock));
  }

  lemma FromAsserted(s: System, id: nat, i: nat, n: nat)
    requires n >= 5 && Inv(s) && id in s.sessions && s.sessions[id].change.routeId < |s.routes|
    requires !s.routes[s.sessions[id].change.routeId].deleted && s.sessions[id].change.routeId !in s.routeLocks
    requires s.sessions[id].stage.Asserted? && OpenPeriod(s.periods, s.sessions[id].change.routeId) == Some(i) && i !in s.periodLocks
    ensures Ends(s, id, n, RepricedPeriods(s, i, s.sessions[id].change, s.clock), RepricedRoutes(s, i, s.sessions[id].change, s.clock))
  {
    TakeKeepsInv(s, Go(id));
    FromClosing(Take(s, Go(id)), id, i, n - 1);
    EndsLater(s, id, n, RepricedPeriods(s, i, s.sessions[id].change, s.clock), RepricedRoutes(s, i, s.sessions[id].change, s.clock));
  }

  /** Every route has its open period. */
  lemma OpenPeriodExists(s: System, r: nat) returns (i: nat)
    requires Inv(s) && r < |s.routes|
    ensures i < |s.periods| && s.periods[i].routeId == r && s.periods[i].to.None? && OpenPeriod(s.periods, r) == Some(i)
  {
    assert RouteOk(s, r);
    var j := TimelineHasOpen(s.periods, r);
    i := OpenPeriod(s.periods, r).value;
  }

  /** On a missing or deleted route a change gives up at once. */
  lemma NoRouteNoChange(s: System, id: nat, n: nat)
    requires n >= 1 && id in s.sessions && s.sessions[id].stage.Begun?
    requires s.sessions[id].change.routeId < |s.routes| ==> s.routes[s.sessions[id].change.routeId].deleted
    ensures Ends(s, id, n, s.periods, s.routes)
  {
    EndsNow(s, id, n);
  }

  /**
   * A price change alone on a live route: the open period is closed at this instant, the new price opens there and is
   * mirrored on the route, exactly if the open period began earlier; otherwise nothing changes.
   */
  lemma ChangeAlone(s: System, id: nat, n: nat) returns (i: nat)
    requires n >= 6 && Inv(s) && id in s.sessions && s.sessions[id].stage.Begun? && s.sessions[id].change.routeId < |s.routes|
    requires !s.routes[s.sessions[id].change.routeId].deleted && s.sessions[id].change.routeId !in s.routeLocks
    requires forall p :: p in s.periodLocks ==> p < |s.periods| && s.periods[p].routeId != s.sessions[id].change.routeId
    ensures i < |s.periods| && s.periods[i].routeId == s.sessions[id].change.routeId && s.periods[i].to.None?
    ensures Ends(s, id, n, RepricedPeriods(s, i, s.sessions[id].change, s.clock), RepricedRoutes(s, i, s.sessions[id].change, s.clock))
  {
    i := OpenPeriodExists(s, s.sessions[id].change.routeId);
    TakeKeepsInv(s, Go(id));
    FromAsserted(Take(s, Go(id)), id, i, n - 1);
    EndsLater(s, id, n, RepricedPeriods(s, i, s.sessions[id].change, s.clock), RepricedRoutes(s, i, s.sessions[id].change, s.clock));
  }
}
