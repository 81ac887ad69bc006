/** The indicator's test scenarios, stated as lemmas about concrete inputs.
    The registry stands for a mocked discovery client: an unstubbed lookup
    returns an empty instance list, a stubbed one a single instance. */
module RouteHealthScenarios {
  import opened Wrappers
  import opened RouteHealth

  /** The route the tests register: path `/zuul`, service `proxied-service`. */
  const ProxiedRoute: Route := Route("/zuul", Some("proxied-service"))

  /** A discovery client with no instance of any service. */
  function NoInstances(): Registry
  {
    id => 0
  }

  /** A discovery client with one instance of `service` and none of anything else. */
  function OneInstanceOf(service: string): Registry
  {
    id => if id == service then 1 else 0
  }

  /** No routes: the indicator reports `Up`. */
  lemma NoRoutesReportsUp()
    ensures HealthOf(Indicator(NoInstances(), ZuulProperties([]))).status == Up
  {
  }

  /** The proxied service has no instance: `Down`, nothing available, the
      service unavailable. */
  lemma DeadServiceReportsDown()
    ensures HealthOf(Indicator(NoInstances(), ZuulProperties([ProxiedRoute]))) ==
              Health(Down, map[AvailableKey := {}, UnavailableKey := {"proxied-service"}])
  {
    var routes := [ProxiedRoute];
    assert forall r :: r in routes <==> r == ProxiedRoute;
    assert LiveServices(routes, NoInstances()) == {};
    assert DeadServices(routes, NoInstances()) == {"proxied-service"};
  }

  /** The proxied service has one instance: `Up`, the service available,
      nothing unavailable. */
  lemma LiveServiceReportsUp()
    ensures HealthOf(Indicator(OneInstanceOf("proxied-service"), ZuulProperties([ProxiedRoute]))) ==
              Health(Up, map[AvailableKey := {"proxied-service"}, UnavailableKey := {}])
  {
    var routes, registry := [ProxiedRoute], OneInstanceOf("proxied-service");
    assert forall r :: r in routes <==> r == ProxiedRoute;
    assert LiveServices(routes, registry) == {"proxied-service"};
    assert DeadServices(routes, registry) == {};
  }

  /** Two routes sharing one live service give a single available entry. */
  lemma SharedServiceListedOnce()
    ensures HealthOf(Indicator(OneInstanceOf("svc-x"),
                               ZuulProperties([Route("/a", Some("svc-x")), Route("/b", Some("svc-x"))]))) ==
              Health(Up, map[AvailableKey := {"svc-x"}, UnavailableKey := {}])
  {
    var a, b := Route("/a", Some("svc-x")), Route("/b", Some("svc-x"));
    var routes, registry := [a, b], OneInstanceOf("svc-x");
    assert forall r :: r in routes <==> r == a || r == b;
    assert LiveServices(routes, registry) == {"svc-x"};
    assert DeadServices(routes, registry) == {};
  }

  /** An empty-string service id is a real target, not a missing one: with
      no instance of it the indicator reports `Down`. */
  lemma EmptyServiceIdIsATarget()
    ensures HealthOf(Indicator(NoInstances(), ZuulProperties([Route("/e", Some(""))]))).status == Down
  {
  }

  /** A route without a service id alone never brings the indicator down,
      whatever the registry holds. */
  lemma UrlRouteReportsUp(registry: Registry)
    ensures HealthOf(Indicator(registry, ZuulProperties([Route("/u", None)]))) ==
              Health(Up, map[AvailableKey := {}, UnavailableKey := {}])
  {
  }

  /** The constructor rejects a null collaborator, each with the message of
      its failed `Assert.notNull`: `DiscoveryClientNullMessage` or
      `ZuulPropertiesNullMessage`. */
  lemma NullCollaboratorsRejected(registry: Registry)
    ensures NewIndicator(None, Some(ZuulProperties([]))) == Failure(DiscoveryClientNullMessage)
    ensures NewIndicator(Some(registry), None).Failure?
    ensures NewIndicator(Some(registry), None).error == ZuulPropertiesNullMessage
  {
  }
}
