/** Properties of the route health indicator, stated over whole indicators
    and proved from the contracts of the two scans. */
module RouteHealthProperties {
  import opened Wrappers
  import opened RouteHealth

  /** The details a health value carries under the `available` key. */
  function Available(h: Health): set<string>
    requires AvailableKey in h.details
  {
    h.details[AvailableKey]
  }

  /** The details a health value carries under the `unavailable` key. */
  function Unavailable(h: Health): set<string>
    requires UnavailableKey in h.details
  {
    h.details[UnavailableKey]
  }

  /** Some route of the table targets the service `id`. */
  predicate Targets(routes: seq<Route>, id: string) {
    exists route :: route in routes && route.serviceId == Some(id)
  }

  /** The status is `Down` exactly when some route names a service with no
      instance, and `Up` exactly when every named service has one. */
  lemma StatusDownIffSomeTargetDead(ind: Indicator)
    ensures HealthOf(ind).status == Down <==>
              exists id :: Targets(ind.zuulProperties.routes, id) && ind.discoveryClient(id) == 0
    ensures HealthOf(ind).status == Up <==>
              forall id :: Targets(ind.zuulProperties.routes, id) ==> ind.discoveryClient(id) > 0
  {
  }

  /** A service id is listed as available exactly when some route targets
      it and it has an instance, and as unavailable exactly when some route
      targets it and it has none; so the two lists never share an id. */
  lemma DetailsPartitionTargets(ind: Indicator, id: string)
    ensures id in Available(HealthOf(ind)) <==>
              Targets(ind.zuulProperties.routes, id) && ind.discoveryClient(id) > 0
    ensures id in Unavailable(HealthOf(ind)) <==>
              Targets(ind.zuulProperties.routes, id) && ind.discoveryClient(id) == 0
    ensures !(id in Available(HealthOf(ind)) && id in Unavailable(HealthOf(ind)))
  {
  }

  /** The available and unavailable lists are disjoint and together hold
      exactly the service ids the routes target. */
  lemma DetailsCoverServiceIds(ind: Indicator)
    ensures Available(HealthOf(ind)) !! Unavailable(HealthOf(ind))
    ensures Available(HealthOf(ind)) + Unavailable(HealthOf(ind)) == ServiceIds(ind.zuulProperties.routes)
  {
  }

  /** The table has at most as many distinct targets as routes. */
  lemma {:induction false} ServiceIdsBounded(routes: seq<Route>)
    ensures |ServiceIds(routes)| <= |routes|
  {
    if |routes| > 0 {
      var route, rest := routes[0], routes[1..];
      assert routes == [route] + rest;
      assert forall r :: r in routes <==> r == route || r in rest;
      ServiceIdsBounded(rest);
      if route.serviceId.Some? {
        assert ServiceIds(routes) == {route.serviceId.value} + ServiceIds(rest);
      } else {
        assert ServiceIds(routes) == ServiceIds(rest);
      }
    }
  }

  /** Each service id appears once however many routes share it: the two
      lists together hold one entry per distinct target, never more entries
      than there are routes. */
  lemma DetailsCountDistinctTargets(ind: Indicator)
    ensures |Available(HealthOf(ind))| + |Unavailable(HealthOf(ind))| ==
              |ServiceIds(ind.zuulProperties.routes)|
    ensures |Available(HealthOf(ind))| + |Unavailable(HealthOf(ind))| <= |ind.zuulProperties.routes|
  {
    DetailsCoverServiceIds(ind);
    ServiceIdsBounded(ind.zuulProperties.routes);
  }

  /** Adding a route whose service id another route already targets leaves
      the health value unchanged. */
  lemma SharedTargetAddsNothing(registry: Registry, routes: seq<Route>, route: Route)
    requires route.serviceId.Some? && Targets(routes, route.serviceId.value)
    ensures HealthOf(Indicator(registry, ZuulProperties(routes + [route]))) ==
              HealthOf(Indicator(registry, ZuulProperties(routes)))
  {
    assert forall r :: r in routes + [route] <==> r in routes || r == route;
    assert LiveServices(routes + [route], registry) == LiveServices(routes, registry);
    assert DeadServices(routes + [route], registry) == DeadServices(routes, registry);
  }

  /** A route without a service id changes nothing, wherever it sits in the
      table: it never makes the status `Down` and enters neither list. */
  lemma UntargetedRouteIgnored(registry: Registry, before: seq<Route>, route: Route, after: seq<Route>)
    requires route.serviceId.None?
    ensures HealthOf(Indicator(registry, ZuulProperties(before + [route] + after))) ==
              HealthOf(Indicator(registry, ZuulProperties(before + after)))
  {
    var with, without := before + [route] + after, before + after;
    assert forall r :: r in with <==> r in without || r == route;
    assert LiveServices(with, registry) == LiveServices(without, registry);
    assert DeadServices(with, registry) == DeadServices(without, registry);
  }

  /** Two tables holding the same routes, in any order and with any
      repetition, give the same health value: iteration order is irrelevant. */
  lemma SameRoutesSameHealth(registry: Registry, a: seq<Route>, b: seq<Route>)
    requires forall r :: r in a <==> r in b
    ensures HealthOf(Indicator(registry, ZuulProperties(a))) ==
              HealthOf(Indicator(registry, ZuulProperties(b)))
  {
    assert LiveServices(a, registry) == LiveServices(b, registry);
    assert DeadServices(a, registry) == DeadServices(b, registry);
  }

  /** An empty route table is healthy with both lists present and empty. */
  lemma EmptyTableIsUp(registry: Registry)
    ensures HealthOf(Indicator(registry, ZuulProperties([]))) ==
              Health(Up, map[AvailableKey := {}, UnavailableKey := {}])
  {
  }
}
