# Zuul route health indicator, modelled in Dafny

The Spring Cloud Zuul route health indicator reports on an API gateway's
routes. It reads the routes from Zuul's properties and asks the discovery
client for the live instances of each route's service id. From these it
builds an actuator `Health` value:

- The status is `DOWN` when some route names a service with no instance,
  and `UP` otherwise.
- Two details are always attached. `available` holds the named services
  that have an instance. `unavailable` holds those that have none.

The status and the details come from two separate scans of the route table.
The main theorem of this model is that, over one registry snapshot, the two
scans agree: the status is `DOWN` exactly when `unavailable` is non-empty.

Files:

- `wrappers.dfy`: `Option` (a Java reference that may be null) and
  `Result` (a value or a thrown error).
- `route_health.dfy`: module `RouteHealth`. It holds the data model
  (`Route`, `ZuulProperties`, `Status`, `Health`, `Indicator`), the
  reference sets `ServiceIds`, `LiveServices` and `DeadServices`, and the
  operations. `NewIndicator` is the constructor. `RouteStatus` is
  `getRouteStatus`. `CollectDetails` and `AdditionalDetails` are
  `withAdditionalDetails`. `HealthOf` is `health()`.
- `route_health_properties.dfy`: module `RouteHealthProperties`, the
  properties of whole health values.
- `route_health_scenarios.dfy`: module `RouteHealthScenarios`, the
  indicator's test cases as lemmas about concrete inputs.

Modelling choices:

- The discovery client is a pure function `Registry = string -> nat`. It
  gives the number of live instances under a service id. Only emptiness of
  the instance list matters to the indicator.
- One `Registry` value is one fixed snapshot. Both scans read the same
  snapshot. This is an assumption. The Java code queries the live client
  once per targeted route in each scan (lines 57 and 71), and the status
  scan stops at the first dead route. A registry that changes between
  these queries could make status and details disagree.
- An `Indicator` value stands for the indicator's state at the moment
  `health()` is called. The Java indicator holds a reference to a mutable
  `ZuulProperties` and reads `getRoutes().values()` afresh in each scan
  (lines 56 and 69). The model takes one route table for both scans.
- The route table is a `seq<Route>` in the iteration order of
  `getRoutes().values()`. `SameRoutesSameHealth` shows that the order does
  not matter.
- A route with no service id has `serviceId == None`. An empty string is a
  real service id. The code tests only for null (lines 57 and 70), and
  `EmptyServiceIdIsATarget` pins this down.
- The details are a map from key to set. Both keys are always present, even
  when a set is empty (lines 79-80).
- The health builder starts as `UNKNOWN` (line 50), so `Status` has an
  `Unknown` case. `HealthOf` proves that the result is never `Unknown`.
- The constructor's null checks become `Option` arguments and a `Result`.
  A null argument gives a `Failure` carrying the message of the failed
  assertion. The discovery client is checked first.

## Model

| member | source | states |
|---|---|---|
| RouteHealth.NewIndicator | src/main/java/io/jmnarloch/spring/cloud/zuul/ZuulRouteHealthIndicator.java:40-45 | construction succeeds exactly when both collaborators are non-null; a null discovery client is reported first, then a null properties object, each with its own message; on success the indicator holds the given discovery client and properties |
| RouteHealth.RouteStatus | src/main/java/io/jmnarloch/spring/cloud/zuul/ZuulRouteHealthIndicator.java:55-62 | the early-return scan gives UP or DOWN, never anything else, and gives DOWN exactly when some route names a service with no instance |
| RouteHealth.CollectDetails | src/main/java/io/jmnarloch/spring/cloud/zuul/ZuulRouteHealthIndicator.java:69-77 | from any accumulated pair of sets, the loop adds exactly the targeted services with an instance to `available` and exactly those without one to `unavailable` |
| RouteHealth.AdditionalDetails | src/main/java/io/jmnarloch/spring/cloud/zuul/ZuulRouteHealthIndicator.java:64-82 | the details hold exactly the two keys `available` and `unavailable`, present even when empty, bound to the live and the dead targeted services |
| RouteHealth.HealthOf | src/main/java/io/jmnarloch/spring/cloud/zuul/ZuulRouteHealthIndicator.java:48-53 | the health value has status UP or DOWN, carries both detail keys with the live and dead targeted services, and is DOWN exactly when `unavailable` is non-empty |
| RouteHealth.StatusAgreesWithDetails | src/main/java/io/jmnarloch/spring/cloud/zuul/ZuulRouteHealthIndicator.java:55-77 | over one registry snapshot, the status scan says DOWN if and only if the details scan finds an unavailable service |
| RouteHealthProperties.StatusDownIffSomeTargetDead | src/main/java/io/jmnarloch/spring/cloud/zuul/ZuulRouteHealthIndicator.java:55-62 | the status is DOWN exactly when some targeted service id has no instance, and UP exactly when every targeted service id has one |
| RouteHealthProperties.DetailsPartitionTargets | src/main/java/io/jmnarloch/spring/cloud/zuul/ZuulRouteHealthIndicator.java:69-77 | an id is available exactly when some route targets it and it has an instance, unavailable exactly when some route targets it and it has none, and never both |
| RouteHealthProperties.DetailsCoverServiceIds | src/main/java/io/jmnarloch/spring/cloud/zuul/ZuulRouteHealthIndicator.java:66-77 | `available` and `unavailable` are disjoint and their union is the set of non-null service ids of the routes |
| RouteHealthProperties.ServiceIdsBounded | src/main/java/io/jmnarloch/spring/cloud/zuul/ZuulRouteHealthIndicator.java:66-77 | a route table has no more distinct service ids than routes |
| RouteHealthProperties.DetailsCountDistinctTargets | src/main/java/io/jmnarloch/spring/cloud/zuul/ZuulRouteHealthIndicator.java:66-77 | the two detail sets hold one entry per distinct targeted service, so together no more entries than there are routes |
| RouteHealthProperties.SharedTargetAddsNothing | src/main/java/io/jmnarloch/spring/cloud/zuul/ZuulRouteHealthIndicator.java:69-77 | adding a route whose service id another route already targets leaves the health value unchanged |
| RouteHealthProperties.UntargetedRouteIgnored | src/main/java/io/jmnarloch/spring/cloud/zuul/ZuulRouteHealthIndicator.java:55-77 | inserting a route with a null service id anywhere in the table leaves status and both detail sets unchanged |
| RouteHealthProperties.SameRoutesSameHealth | src/main/java/io/jmnarloch/spring/cloud/zuul/ZuulRouteHealthIndicator.java:55-77 | two tables with the same routes, in any order and with any repetition, give the same health value |
| RouteHealthProperties.EmptyTableIsUp | src/main/java/io/jmnarloch/spring/cloud/zuul/ZuulRouteHealthIndicator.java:55-82 | an empty route table gives UP with both detail sets present and empty |
| RouteHealthScenarios.NoRoutesReportsUp | src/test/java/io/jmnarloch/spring/cloud/zuul/ZuulRouteHealthIndicatorTest.java:59-71 | with no routes and a client that knows no instance, the status is UP |
| RouteHealthScenarios.DeadServiceReportsDown | src/test/java/io/jmnarloch/spring/cloud/zuul/ZuulRouteHealthIndicatorTest.java:73-88 | the route `/zuul` to `proxied-service` with no instance gives DOWN, `available = {}`, `unavailable = {"proxied-service"}` |
| RouteHealthScenarios.LiveServiceReportsUp | src/test/java/io/jmnarloch/spring/cloud/zuul/ZuulRouteHealthIndicatorTest.java:90-109 | the same route with one instance gives UP, `available = {"proxied-service"}`, `unavailable = {}` |
| RouteHealthScenarios.SharedServiceListedOnce | src/main/java/io/jmnarloch/spring/cloud/zuul/ZuulRouteHealthIndicator.java:66-77 | two routes to one live service `svc-x` give UP with the single entry `available = {"svc-x"}` |
| RouteHealthScenarios.EmptyServiceIdIsATarget | src/main/java/io/jmnarloch/spring/cloud/zuul/ZuulRouteHealthIndicator.java:55-62 | a route whose service id is the empty string, with no instance, makes the status DOWN |
| RouteHealthScenarios.UrlRouteReportsUp | src/main/java/io/jmnarloch/spring/cloud/zuul/ZuulRouteHealthIndicator.java:55-82 | for any registry, a lone route with a null service id gives UP with both detail sets empty |
| RouteHealthScenarios.NullCollaboratorsRejected | src/main/java/io/jmnarloch/spring/cloud/zuul/ZuulRouteHealthIndicator.java:40-45 | a null discovery client or a null properties object is rejected with the matching message |

## Left out

- `ZuulRouteHealthIndicatorAutoConfiguration.java`: the Spring conditional bean registration. It is framework wiring with no computable behaviour.
- The actuator `Health.Builder` API and the JSON rendering of a health value. The model builds the final status and details directly.
- `DiscoveryClient` and `ServiceInstance` contents. Only the number of instances under a service id is modelled.
- Registry changes during a health check. Both scans read one fixed snapshot, as stated above.
- Route table changes after construction or between the two scans. The Java indicator keeps a reference to the mutable `ZuulProperties`, and routes can be added after it is built. An `Indicator` value stands for the route table as it is when `health()` runs, and both scans see that one table.
- Exceptions thrown by the discovery client during a lookup. A lookup always answers in the model.
- The other fields of a Zuul route (id, url, prefix stripping, retry) and the keys of the routes map. The indicator reads only the service id.
