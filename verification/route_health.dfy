/** The Zuul route health indicator: given the gateway's route table and a
    discovery-client snapshot, it reports UP or DOWN and lists which target
    services have live instances and which have none. */
module RouteHealth {
  import opened Wrappers

  /** The discovery client, reduced to what the indicator asks of it: the
      number of live instances registered under a service id. One value of
      this type is one fixed snapshot of the registry. */
  type Registry = string -> nat

  /** A Zuul route. Only the service id matters to the indicator; `None`
      stands for a route without a service id (a plain URL route). */
  datatype Route = Route(path: string, serviceId: Option<string>)

  /** The Zuul properties object: the routes in iteration order. */
  datatype ZuulProperties = ZuulProperties(routes: seq<Route>)

  /** Actuator status. `Unknown` is where the health builder starts. */
  datatype Status = Unknown | Up | Down

  /** The detail keys the indicator attaches. */
  const AvailableKey: string := "available"
  const UnavailableKey: string := "unavailable"

  /** A built health value: a status and named details. */
  datatype Health = Health(status: Status, details: map<string, set<string>>)

  /** A constructed indicator: its two collaborators, both non-null. */
  datatype Indicator = Indicator(discoveryClient: Registry, zuulProperties: ZuulProperties)

  const DiscoveryClientNullMessage: string := "Parameter 'discoveryClient' can not be null"
  const ZuulPropertiesNullMessage: string := "Parameter 'zuulPropertes' can not be null"

  // ---------------------------------------------------------------------
  // Reference definitions: what the two scans are meant to compute, stated
  // over the route table as a whole.
  // ---------------------------------------------------------------------

  /** A route that names a service which has no live instance. */
  predicate IsDeadRoute(route: Route, registry: Registry) {
    route.serviceId.Some? && registry(route.serviceId.value) == 0
  }

  /** Every service id some route of the table targets. */
  function ServiceIds(routes: seq<Route>): set<string> {
    set route | route in routes && route.serviceId.Some? :: route.serviceId.value
  }

  /** Targeted service ids with at least one live instance. */
  function LiveServices(routes: seq<Route>, registry: Registry): set<string> {
    set route | route in routes && route.serviceId.Some? && registry(route.serviceId.value) > 0
      :: route.serviceId.value
  }

  /** Targeted service ids with no live instance. */
  function DeadServices(routes: seq<Route>, registry: Registry): set<string> {
    set route | route in routes && IsDeadRoute(route, registry) :: route.serviceId.value
  }

  // ---------------------------------------------------------------------
  // The indicator.
  // ---------------------------------------------------------------------

  /** The constructor: both collaborators must be non-null, checked in
      order, and a null one raises an invalid-argument error. */
  function NewIndicator(discoveryClient: Option<Registry>, zuulProperties: Option<ZuulProperties>)
    : (r: Result<Indicator, string>)
    ensures r.Success? <==> discoveryClient.Some? && zuulProperties.Some?
    ensures discoveryClient.None? ==> r.Failure? && r.error == DiscoveryClientNullMessage
    ensures discoveryClient.Some? && zuulProperties.None? ==>
              r.Failure? && r.error == ZuulPropertiesNullMessage
    ensures r.Success? ==> r.value.discoveryClient == discoveryClient.value
    ensures r.Success? ==> r.value.zuulProperties == zuulProperties.value
  {
    if discoveryClient.None? then Failure(DiscoveryClientNullMessage)
    else if zuulProperties.None? then Failure(ZuulPropertiesNullMessage)
    else Success(Indicator(discoveryClient.value, zuulProperties.value))
  }

  /** The status scan: walks the routes in order and answers `Down` at the
      first route whose service has no instance, `Up` if there is none. */
  function RouteStatus(routes: seq<Route>, registry: Registry): (s: Status)
    ensures s == Up || s == Down
    ensures s == Down <==> exists route :: route in routes && IsDeadRoute(route, registry)
  {
    if |routes| == 0 then Up
    else if IsDeadRoute(routes[0], registry) then Down
    else
      assert forall route :: route in routes ==> route == routes[0] || route in routes[1..];
      RouteStatus(routes[1..], registry)
  }

  /** The two sets the details scan builds. */
  datatype Details = Details(available: set<string>, unavailable: set<string>)

  /** The details scan from a given pair of accumulated sets: each route
      with a service id adds that id to `available` when the registry has
      an instance of it and to `unavailable` otherwise. */
  function CollectDetails(routes: seq<Route>, registry: Registry, acc: Details): (d: Details)
    ensures d.available == acc.available + LiveServices(routes, registry)
    ensures d.unavailable == acc.unavailable + DeadServices(routes, registry)
  {
    if |routes| == 0 then acc
    else
      var route := routes[0];
      var rest := routes[1..];
      assert routes == [route] + rest;
      var next :=
        if route.serviceId.None? then acc
        else if registry(route.serviceId.value) != 0
        then acc.(available := acc.available + {route.serviceId.value})
        else acc.(unavailable := acc.unavailable + {route.serviceId.value});
      LiveServicesCons(route, rest, registry);
      DeadServicesCons(route, rest, registry);
      CollectDetails(rest, registry, next)
  }

  /** `withAdditionalDetails`: the details scan from two empty sets, with
      both results attached under their keys whatever they hold. */
  function AdditionalDetails(routes: seq<Route>, registry: Registry): (details: map<string, set<string>>)
    ensures details.Keys == {AvailableKey, UnavailableKey}
    ensures details[AvailableKey] == LiveServices(routes, registry)
    ensures details[UnavailableKey] == DeadServices(routes, registry)
  {
    var d := CollectDetails(routes, registry, Details({}, {}));
    map[AvailableKey := d.available, UnavailableKey := d.unavailable]
  }

  /** `health()`: the status of the first scan with the details of the
      second, both over the same registry snapshot. */
  function HealthOf(indicator: Indicator): (h: Health)
    ensures h.status == Up || h.status == Down
    ensures h.details.Keys == {AvailableKey, UnavailableKey}
    ensures h.details[AvailableKey] == LiveServices(indicator.zuulProperties.routes, indicator.discoveryClient)
    ensures h.details[UnavailableKey] == DeadServices(indicator.zuulProperties.routes, indicator.discoveryClient)
    ensures h.status == Down <==> h.details[UnavailableKey] != {}
  {
    var routes := indicator.zuulProperties.routes;
    var registry := indicator.discoveryClient;
    StatusAgreesWithDetails(routes, registry);
    Health(RouteStatus(routes, registry), AdditionalDetails(routes, registry))
  }

  // ---------------------------------------------------------------------
  // Helper lemmas for the proofs above.
  // ---------------------------------------------------------------------

  /** Unfolds `LiveServices` by one route at the front of the table. */
  lemma LiveServicesCons(route: Route, rest: seq<Route>, registry: Registry)
    ensures LiveServices([route] + rest, registry) ==
              (if route.serviceId.Some? && registry(route.serviceId.value) > 0
               then {route.serviceId.value} else {}) + LiveServices(rest, registry)
  {
  }

  /** Unfolds `DeadServices` by one route at the front of the table. */
  lemma DeadServicesCons(route: Route, rest: seq<Route>, registry: Registry)
    ensures DeadServices([route] + rest, registry) ==
              (if IsDeadRoute(route, registry) then {route.serviceId.value} else {})
              + DeadServices(rest, registry)
  {
  }

  /** The two independent scans agree: the status scan reports `Down`
      exactly when the details scan finds an unavailable service. */
  lemma StatusAgreesWithDetails(routes: seq<Route>, registry: Registry)
    ensures RouteStatus(routes, registry) == Down <==> DeadServices(routes, registry) != {}
  {
    if RouteStatus(routes, registry) == Down {
      var route :| route in routes && IsDeadRoute(route, registry);
      assert route.serviceId.value in DeadServices(routes, registry);
    }
  }
}
