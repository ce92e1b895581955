/** The service-status state machine of the incident simulator: six services,
    each running, degraded, critical or down; incidents that record themselves
    as the current incident and may degrade a service; a recovery step that
    moves one unhealthy service one step towards running; and the read-outs
    the simulator derives from the table (affected services, health counters,
    access-log status codes). Random choices are parameters; logging, files,
    identifiers, timestamps and metrics are not modelled. */
module Ecommerce {
  import opened Wrappers

  datatype Status = Running | Degraded | Critical | Down

  datatype ServiceConfig = ServiceConfig(port: int, status: Status, cpuUsage: int, version: string)

  /** The services table in its insertion order. */
  const ServiceOrder: seq<string> :=
    ["user-service", "product-service", "order-service", "payment-service", "inventory-service", "notification-service"]

  const InitialServices: map<string, ServiceConfig> := map[
    "user-service" := ServiceConfig(8001, Running, 0, "v1.2.3"),
    "product-service" := ServiceConfig(8002, Running, 0, "v2.1.0"),
    "order-service" := ServiceConfig(8003, Running, 0, "v1.5.7"),
    "payment-service" := ServiceConfig(8004, Running, 0, "v3.0.1"),
    "inventory-service" := ServiceConfig(8005, Running, 0, "v1.8.2"),
    "notification-service" := ServiceConfig(8006, Running, 0, "v1.0.9")
  ]

  /** The table keeps its six services, their ports and their versions; only
      statuses change. */
  predicate SameServices(services: map<string, ServiceConfig>) {
    && services.Keys == InitialServices.Keys
    && forall s :: s in services ==>
         services[s].port == InitialServices[s].port && services[s].version == InitialServices[s].version
  }

  /** An entry of `get_affected_services()`. */
  datatype Affected = Affected(service: string, status: Status, port: int, version: string)

  /** The services of `order` that are not running, in that order, each with
      its status, port and version. */
  function AffectedIn(services: map<string, ServiceConfig>, order: seq<string>): (r: seq<Affected>)
    requires forall i :: 0 <= i < |order| ==> order[i] in services
    ensures forall a :: a in r ==>
      a.service in order && services[a.service].status != Running &&
      a == Affected(a.service, services[a.service].status, services[a.service].port, services[a.service].version)
    ensures forall i :: 0 <= i < |order| && services[order[i]].status != Running ==>
      exists a :: a in r && a.service == order[i]
    ensures |r| == |NotRunning(services, order)|
    ensures forall i :: 0 <= i < |r| ==> r[i].service == NotRunning(services, order)[i]
    decreases |order|
  {
    if order == [] then []
    else
      var prev := AffectedIn(services, order[..|order| - 1]);
      var s := order[|order| - 1];
      var c := services[s];
      var r := if c.status != Running then prev + [Affected(s, c.status, c.port, c.version)] else prev;
      assert forall i :: 0 <= i < |order| - 1 ==> order[..|order| - 1][i] == order[i];
      r
  }

  /** Extending the visited prefix by one service adds its entry when it is
      not running. */
  lemma AffectedStep(services: map<string, ServiceConfig>, order: seq<string>, i: nat)
    requires i < |order| && forall j :: 0 <= j < |order| ==> order[j] in services
    ensures var c := services[order[i]];
      AffectedIn(services, order[..i + 1]) ==
        AffectedIn(services, order[..i]) + (if c.status != Running then [Affected(order[i], c.status, c.port, c.version)] else [])
  {
    assert order[..i + 1][..i] == order[..i];
  }

  /** The names of the services of `order` that are not running, in order. */
  function NotRunning(services: map<string, ServiceConfig>, order: seq<string>): (r: seq<string>)
    requires forall i :: 0 <= i < |order| ==> order[i] in services
    ensures forall s :: s in r <==> s in order && services[s].status != Running
    ensures forall i :: 0 <= i < |r| ==> r[i] in services
    decreases |order|
  {
    if order == [] then []
    else
      var prev := NotRunning(services, order[..|order| - 1]);
      var s := order[|order| - 1];
      assert forall x :: x in order <==> x in order[..|order| - 1] || x == s;
      if services[s].status != Running then prev + [s] else prev
  }

  /** The overall status the health check reports. */
  datatype OverallHealth = Healthy | DegradedOverall | CriticalOverall

  /** The overall status after visiting `order`: each service that is not
      running overwrites it with its own category, so the last such service
      decides, not the worst one. */
  function OverallAfter(services: map<string, ServiceConfig>, order: seq<string>): OverallHealth
    requires forall i :: 0 <= i < |order| ==> order[i] in services
    decreases |order|
  {
    if order == [] then Healthy
    else
      var prev := OverallAfter(services, order[..|order| - 1]);
      match services[order[|order| - 1]].status
      case Running => prev
      case Degraded => DegradedOverall
      case Critical => CriticalOverall
      case Down => CriticalOverall
  }

  /** How many services of `order` are critical or down. */
  function CriticalCount(services: map<string, ServiceConfig>, order: seq<string>): nat
    requires forall i :: 0 <= i < |order| ==> order[i] in services
    decreases |order|
  {
    if order == [] then 0
    else
      var st := services[order[|order| - 1]].status;
      CriticalCount(services, order[..|order| - 1]) + (if st == Critical || st == Down then 1 else 0)
  }

  /** How many services of `order` are degraded. */
  function DegradedCount(services: map<string, ServiceConfig>, order: seq<string>): nat
    requires forall i :: 0 <= i < |order| ==> order[i] in services
    decreases |order|
  {
    if order == [] then 0
    else
      var st := services[order[|order| - 1]].status;
      DegradedCount(services, order[..|order| - 1]) + (if st == Degraded then 1 else 0)
  }

  /** The report is HEALTHY exactly when every service visited is running. */
  lemma {:induction false} HealthyIffAllRunning(services: map<string, ServiceConfig>, order: seq<string>)
    requires forall i :: 0 <= i < |order| ==> order[i] in services
    ensures OverallAfter(services, order) == Healthy <==> forall i :: 0 <= i < |order| ==> services[order[i]].status == Running
    decreases |order|
  {
    if order != [] {
      var init := order[..|order| - 1];
      HealthyIffAllRunning(services, init);
      assert forall i :: 0 <= i < |init| ==> init[i] == order[i];
    }
  }

  /** Every service that is not running is counted once, as critical or as
      degraded. */
  lemma {:induction false} CountsCoverNotRunning(services: map<string, ServiceConfig>, order: seq<string>)
    requires forall i :: 0 <= i < |order| ==> order[i] in services
    ensures CriticalCount(services, order) + DegradedCount(services, order) == |NotRunning(services, order)|
    decreases |order|
  {
    if order != [] {
      CountsCoverNotRunning(services, order[..|order| - 1]);
    }
  }

  /** The category a service that is not running gives the overall status. */
  function Category(st: Status): OverallHealth {
    match st
    case Running => Healthy
    case Degraded => DegradedOverall
    case Critical => CriticalOverall
    case Down => CriticalOverall
  }

  /** The overall status is HEALTHY when every service runs, and otherwise the
      category of the LAST service that is not running, whatever the others
      are. */
  lemma {:induction false} LastNotRunningDecides(services: map<string, ServiceConfig>, order: seq<string>)
    requires forall i :: 0 <= i < |order| ==> order[i] in services
    ensures var nr := NotRunning(services, order);
      OverallAfter(services, order) == if nr == [] then Healthy else Category(services[nr[|nr| - 1]].status)
    decreases |order|
  {
    if order != [] {
      LastNotRunningDecides(services, order[..|order| - 1]);
    }
  }

  /** A critical service followed by a degraded one: the report says
      DEGRADED although a service is critical. */
  lemma LastNotWorst()
    ensures var services := InitialServices["user-service" := ServiceConfig(8001, Critical, 0, "v1.2.3")]
                                           ["notification-service" := ServiceConfig(8006, Degraded, 0, "v1.0.9")];
      && OverallAfter(services, ServiceOrder) == DegradedOverall
      && CriticalCount(services, ServiceOrder) == 1
  {
    var services := InitialServices["user-service" := ServiceConfig(8001, Critical, 0, "v1.2.3")]
                                   ["notification-service" := ServiceConfig(8006, Degraded, 0, "v1.0.9")];
    var o := ServiceOrder;
    assert o[..1] == ["user-service"];
    assert o[..2][..1] == o[..1] && o[..3][..2] == o[..2] && o[..4][..3] == o[..3];
    assert o[..5][..4] == o[..4] && o[..6][..5] == o[..5] && o[..5] == o[..|o| - 1];
    assert OverallAfter(services, o[..1]) == CriticalOverall;
    assert CriticalCount(services, o[..1]) == 1;
    assert CriticalCount(services, o[..2]) == 1;
    assert CriticalCount(services, o[..3]) == 1;
    assert CriticalCount(services, o[..4]) == 1;
    assert CriticalCount(services, o[..5]) == 1;
  }

  /** One recovery step: down to critical, critical to degraded, degraded to
      running. */
  function Recover(st: Status): Status {
    match st
    case Down => Critical
    case Critical => Degraded
    case Degraded => Running
    case Running => Running
  }

  /** Distance from running, in recovery steps. */
  function Severity(st: Status): nat {
    match st
    case Running => 0
    case Degraded => 1
    case Critical => 2
    case Down => 3
  }

  /** A recovery step brings a service that is not running exactly one step
      closer to running, and leaves a running one alone. */
  lemma RecoverIsOneStep(st: Status)
    ensures st != Running ==> Severity(Recover(st)) + 1 == Severity(st)
    ensures st == Running ==> Recover(st) == Running
    ensures Recover(st) == Running <==> st == Running || st == Degraded
  {
  }

  /** The status codes an access-log line may carry for a service in each
      status (the weights of the random pick are not modelled). */
  function CandidateCodes(st: Status): seq<int> {
    match st
    case Running => [200, 201, 400, 404, 422]
    case Degraded => [200, 500, 502, 503, 504]
    case Critical => [500, 502, 503, 504]
    case Down => [502, 503, 504]
  }

  /** The service an endpoint's port belongs to: the port's position in the
      table, counting from 8001. */
  function ServiceForPort(port: int): string
    requires 8001 <= port <= 8006
  {
    ServiceOrder[port - 8001]
  }

  /** The status code of one access-log line for `port`; `draw` is the pick. */
  function AccessLogStatus(services: map<string, ServiceConfig>, port: int, draw: nat): (code: int)
    requires SameServices(services) && 8001 <= port <= 8006
    requires draw < |CandidateCodes(services[ServiceForPort(port)].status)|
    ensures code in CandidateCodes(services[ServiceForPort(port)].status)
  {
    CandidateCodes(services[ServiceForPort(port)].status)[draw]
  }

  /** The port of an endpoint names the service listening on it, and the code
      logged for it follows that service's health: client outcomes only when
      running, server errors only when critical or down. */
  lemma AccessLogFollowsHealth(services: map<string, ServiceConfig>, port: int, draw: nat)
    requires SameServices(services) && 8001 <= port <= 8006
    requires draw < |CandidateCodes(services[ServiceForPort(port)].status)|
    ensures services[ServiceForPort(port)].port == port
    ensures var st := services[ServiceForPort(port)].status;
      var code := AccessLogStatus(services, port, draw);
      && (st == Running ==> code < 500)
      && (st == Critical || st == Down ==> code >= 500)
      && (st == Degraded ==> code == 200 || code >= 500)
  {
    assert ServiceOrder[port - 8001] in InitialServices;
  }

  datatype Resolution = Open | Resolved

  /** The incident record the simulator keeps as its current incident; the
      timestamp, fingerprint, details and metrics are not modelled. */
  datatype Incident = Incident(
    incidentId: string, incidentType: string, service: string, severity: string,
    affectedServices: seq<Affected>, resolutionStatus: Resolution)

  /** What an incident method does: the service and severity it records, and
      whether it marks that service degraded. */
  datatype Handler = Handler(service: string, severity: string, degrades: bool)

  /** The incident methods the simulator defines, by scenario name. */
  const Handlers: map<string, Handler> := map[
    "database_connection_leak" := Handler("order-service", "critical", true),
    "database_deadlock" := Handler("inventory-service", "high", false),
    "database_slow_queries" := Handler("product-service", "medium", false),
    "database_replication_lag" := Handler("database", "medium", false),
    "database_connection_timeout" := Handler("payment-service", "high", true),
    "api_rate_limiting" := Handler("payment-service", "medium", false),
    "service_mesh_failure" := Handler("istio-proxy", "critical", false),
    "circuit_breaker_open" := Handler("order-service", "high", false),
    "load_balancer_failure" := Handler("nginx-lb", "critical", false),
    "cache_thrashing" := Handler("product-service", "medium", false),
    "thread_pool_exhaustion" := Handler("user-service", "high", false),
    "garbage_collection_pressure" := Handler("product-service", "high", false),
    "dns_resolution_failure" := Handler("dns", "high", false),
    "kubernetes_pod_eviction" := Handler("order-service", "critical", false),
    "auto_scaling_failure" := Handler("user-service", "high", false),
    "sql_injection_attempt" := Handler("user-service", "critical", false),
    "ddos_attack" := Handler("load-balancer", "critical", false),
    "certificate_expiration" := Handler("payment-service", "critical", false),
    "unauthorized_access_attempt" := Handler("admin-panel", "high", false),
    "deployment_rollback_failure" := Handler("product-service", "critical", false),
    "health_check_failure" := Handler("inventory-service", "high", false),
    "version_compatibility_issue" := Handler("order-service", "high", false),
    "environment_variable_missing" := Handler("notification-service", "medium", false)
  ]

  /** The scenario catalogue: six categories of five scenarios each. */
  const IncidentScenarios: seq<(string, seq<string>)> := [
    ("database_issues", ["database_connection_leak", "database_deadlock", "database_slow_queries",
                         "database_replication_lag", "database_connection_timeout"]),
    ("api_failures", ["third_party_api_failure", "api_rate_limiting", "service_mesh_failure",
                      "circuit_breaker_open", "load_balancer_failure"]),
    ("performance_bottlenecks", ["memory_leak", "high_cpu_usage", "cache_thrashing",
                                 "thread_pool_exhaustion", "garbage_collection_pressure"]),
    ("infrastructure_issues", ["disk_space_issue", "network_timeout", "dns_resolution_failure",
                               "kubernetes_pod_eviction", "auto_scaling_failure"]),
    ("security_incidents", ["authentication_failure", "sql_injection_attempt", "ddos_attack",
                            "certificate_expiration", "unauthorized_access_attempt"]),
    ("deployment_issues", ["configuration_error", "deployment_rollback_failure", "health_check_failure",
                           "version_compatibility_issue", "environment_variable_missing"])
  ]

  /** The scenarios the dispatcher names but no incident method implements. */
  const Unimplemented := {"third_party_api_failure", "memory_leak", "high_cpu_usage", "disk_space_issue",
                          "network_timeout", "authentication_failure", "configuration_error"}

  /** A scenario of the catalogue lacks an incident method exactly when it
      is one of the seven unimplemented ones. */
  lemma MissingHandlers(category: nat, choice: nat)
    requires category < |IncidentScenarios| && choice < |IncidentScenarios[category].1|
    ensures IncidentScenarios[category].1[choice] !in Handlers <==> IncidentScenarios[category].1[choice] in Unimplemented
  {
  }

  /** Only the connection leak and the connection timeout degrade a service,
      and both name a service of the table. */
  lemma DegradingHandlers(scenario: string)
    requires scenario in Handlers && Handlers[scenario].degrades
    ensures scenario == "database_connection_leak" || scenario == "database_connection_timeout"
    ensures Handlers[scenario].service in InitialServices
  {
  }

  /** How the incident dispatcher ends. */
  datatype IncidentOutcome = Raised(scenario: string) | MissingHandler(scenario: string)

  /** The status table after an incident method ran on it. */
  function AfterHandler(services: map<string, ServiceConfig>, h: Handler): map<string, ServiceConfig>
    requires h.degrades ==> h.service in services
  {
    if h.degrades then services[h.service := services[h.service].(status := Degraded)] else services
  }

  /** A reachable state's statuses: nothing ever marks a service critical or
      down, so every service is running or degraded. */
  predicate OnlyRunningOrDegraded(services: map<string, ServiceConfig>) {
    forall s :: s in services ==> services[s].status == Running || services[s].status == Degraded
  }

  /** In a reachable state the health check never counts a critical service
      and never reports CRITICAL. */
  lemma {:induction false} NoCriticalWhenReachable(services: map<string, ServiceConfig>, order: seq<string>)
    requires forall i :: 0 <= i < |order| ==> order[i] in services
    requires OnlyRunningOrDegraded(services)
    ensures CriticalCount(services, order) == 0
    ensures OverallAfter(services, order) != CriticalOverall
    decreases |order|
  {
    if order != [] {
      NoCriticalWhenReachable(services, order[..|order| - 1]);
    }
  }

  class EcommercePlatform {
    var services: map<string, ServiceConfig>
    var currentIncident: Option<Incident>

    ghost predicate Valid()
      reads this
    {
      SameServices(services)
    }

    constructor ()
      ensures Valid() && OnlyRunningOrDegraded(services)
      ensures services == InitialServices && currentIncident == None
    {
      services := InitialServices;
      currentIncident := None;
    }

    /** `get_affected_services()`. */
    method GetAffectedServices() returns (affected: seq<Affected>)
      requires Valid()
      ensures affected == AffectedIn(services, ServiceOrder)
    {
      affected := [];
      for i := 0 to |ServiceOrder|
        invariant affected == AffectedIn(services, ServiceOrder[..i])
      {
        var service := ServiceOrder[i];
        var config := services[service];
        AffectedStep(services, ServiceOrder, i);
        if config.status != Running {
          affected := affected + [Affected(service, config.status, config.port, config.version)];
        }
      }
      assert ServiceOrder[..|ServiceOrder|] == ServiceOrder;
    }

    /** `health_check()`: the overall status and the two counters. */
    method HealthCheck() returns (overallHealth: OverallHealth, criticalCount: nat, degradedCount: nat)
      requires Valid()
      ensures overallHealth == OverallAfter(services, ServiceOrder)
      ensures criticalCount == CriticalCount(services, ServiceOrder)
      ensures degradedCount == DegradedCount(services, ServiceOrder)
    {
      overallHealth, criticalCount, degradedCount := Healthy, 0, 0;
      for i := 0 to |ServiceOrder|
        invariant overallHealth == OverallAfter(services, ServiceOrder[..i])
        invariant criticalCount == CriticalCount(services, ServiceOrder[..i])
        invariant degradedCount == DegradedCount(services, ServiceOrder[..i])
      {
        var status := services[ServiceOrder[i]].status;
        assert ServiceOrder[..i + 1][..i] == ServiceOrder[..i];
        match status {
          case Running =>
          case Degraded =>
            degradedCount := degradedCount + 1;
            overallHealth := DegradedOverall;
          case Critical =>
            criticalCount := criticalCount + 1;
            overallHealth := CriticalOverall;
          case Down =>
            criticalCount := criticalCount + 1;
            overallHealth := CriticalOverall;
        }
      }
      assert ServiceOrder[..|ServiceOrder|] == ServiceOrder;
    }

    /** `save_incident_metadata(...)`: the new current incident is open and
      records the affected services as they are now. */
    method SaveIncidentMetadata(incidentId: string, incidentType: string, serviceName: string, severity: string)
      returns (id: string)
      requires Valid()
      modifies this
      ensures id == incidentId && services == old(services)
      ensures currentIncident ==
        Some(Incident(incidentId, incidentType, serviceName, severity, AffectedIn(services, ServiceOrder), Open))
    {
      var affected := GetAffectedServices();
      currentIncident := Some(Incident(incidentId, incidentType, serviceName, severity, affected, Open));
      id := incidentId;
    }

    /** One incident method, `_<scenario>()`: it saves the incident and, for
      the two that do, marks its service degraded; no other status changes. */
    method RaiseIncident(incidentId: string, scenario: string)
      requires Valid() && scenario in Handlers
      modifies this
      ensures Valid()
      ensures OnlyRunningOrDegraded(old(services)) ==> OnlyRunningOrDegraded(services)
      ensures services == AfterHandler(old(services), Handlers[scenario])
      ensures currentIncident == Some(Incident(incidentId, scenario, Handlers[scenario].service,
        Handlers[scenario].severity, AffectedIn(old(services), ServiceOrder), Open))
    {
      var h := Handlers[scenario];
      var _ := SaveIncidentMetadata(incidentId, scenario, h.service, h.severity);
      if h.degrades {
        DegradingHandlers(scenario);
        services := services[h.service := services[h.service].(status := Degraded)];
      }
    }

    /** `simulate_incident()`: `category` and `choice` are the two random
      picks. A scenario without an incident method fails the lookup of that
      method and changes nothing. */
    method SimulateIncident(incidentId: string, category: nat, choice: nat) returns (outcome: IncidentOutcome)
      requires Valid()
      requires category < |IncidentScenarios| && choice < |IncidentScenarios[category].1|
      modifies this
      ensures Valid()
      ensures OnlyRunningOrDegraded(old(services)) ==> OnlyRunningOrDegraded(services)
      ensures var scenario := IncidentScenarios[category].1[choice];
        && (scenario in Handlers ==>
              && outcome == Raised(scenario)
              && services == AfterHandler(old(services), Handlers[scenario])
              && currentIncident == Some(Incident(incidentId, scenario, Handlers[scenario].service,
                   Handlers[scenario].severity, AffectedIn(old(services), ServiceOrder), Open)))
        && (scenario !in Handlers ==>
              outcome == MissingHandler(scenario) && services == old(services) && currentIncident == old(currentIncident))
    {
      var scenario := IncidentScenarios[category].1[choice];
      if scenario in Handlers {
        RaiseIncident(incidentId, scenario);
        outcome := Raised(scenario);
      } else {
        outcome := MissingHandler(scenario);
      }
    }

    /** `simulate_recovery_scenario()`: `pick` is the random choice among the
      services that are not running. */
    method SimulateRecoveryScenario(pick: nat)
      requires Valid()
      requires NotRunning(services, ServiceOrder) != [] ==> pick < |NotRunning(services, ServiceOrder)|
      modifies this
      ensures Valid()
      ensures OnlyRunningOrDegraded(old(services)) ==> OnlyRunningOrDegraded(services)
      ensures old(NotRunning(services, ServiceOrder)) == [] ==>
        services == old(services) && currentIncident == old(currentIncident)
      ensures old(NotRunning(services, ServiceOrder)) != [] ==>
        var s := old(NotRunning(services, ServiceOrder))[pick];
        && services == old(services)[s := old(services)[s].(status := Recover(old(services)[s].status))]
        && currentIncident ==
             if old(currentIncident).Some? && old(currentIncident).value.service == s && services[s].status == Running
             then Some(old(currentIncident).value.(resolutionStatus := Resolved))
             else old(currentIncident)
    {
      var recoveringServices := NotRunning(services, ServiceOrder);
      if recoveringServices != [] {
        var serviceToRecover := recoveringServices[pick];
        var oldStatus := services[serviceToRecover].status;
        if oldStatus == Down {
          services := services[serviceToRecover := services[serviceToRecover].(status := Critical)];
        } else if oldStatus == Critical {
          services := services[serviceToRecover := services[serviceToRecover].(status := Degraded)];
        } else if oldStatus == Degraded {
          services := services[serviceToRecover := services[serviceToRecover].(status := Running)];
        }
        if currentIncident.Some? && currentIncident.value.service == serviceToRecover {
          if services[serviceToRecover].status == Running {
            currentIncident := Some(currentIncident.value.(resolutionStatus := Resolved));
          }
        }
      }
    }
  }
}
