/**
  Clients of ServiceAvailabilityHandler that use only its contracts: a
  health endpoint gated on the deployment app.war.
 */
module Scenarios {
  import opened Wrappers
  import opened Platform
  import opened Gating
  import opened ServiceAvailability

  /** A regex library in which "/health.*" matches exactly the paths starting "/health". */
  function HealthRegex(): Regex
  {
    Regex(_ => true, (p: string, path: string) => p == "/health.*" && |path| >= 7 && path[..7] == "/health")
  }

  method ConfiguredHandler(server: MBeanServer) returns (h: ServiceAvailabilityHandler)
    ensures h.Valid() && h.server == server && h.regex == HealthRegex() && fresh(h.applicationReady)
    ensures h.State() == Unconfigured.(pathPrefixPattern := Some("/health.*"), deploymentName := Some("app.war"))
  {
    h := new ServiceAvailabilityHandler(HealthRegex(), server);
    h.SetPathPrefixPattern("/health.*");
    h.SetDeploymentName("app.war");
  }

  /** The deployment exists: gated until its own "deployment-deployed" arrives. */
  method GatedUntilDeployed()
  {
    var server := new MBeanServer(_ => true, {"jboss.as:deployment=app.war"});
    var h := ConfiguredHandler(server);
    assert ObjectNameFor(Some("app.war")) == "jboss.as:deployment=app.war";

    var r := h.HandleRequest(Exchange("/health/live", 200));
    assert r == Success(Handled(Exchange("/health/live", 503), false));
    assert |server.subscriptions| == 1 && h.listener == Some(server.subscriptions[0].listener);

    r := h.HandleRequest(Exchange("/other", 200));
    assert r == Success(Handled(Exchange("/other", 200), true));

    var l := server.subscriptions[0].listener;
    l.HandleNotification(Notification("jboss.as:deployment=other.war", DeploymentDeployed));
    r := h.HandleRequest(Exchange("/health/live", 200));
    assert r == Success(Handled(Exchange("/health/live", 503), false));

    l.HandleNotification(Notification("jboss.as:deployment=app.war", DeploymentDeployed));
    r := h.HandleRequest(Exchange("/health/live", 200));
    assert r == Success(Handled(Exchange("/health/live", 200), true));
  }

  /** The deployment's MBean is missing: registration fails and the gate opens at once. */
  method FailsOpenWithoutMBean()
  {
    var server := new MBeanServer(_ => true, {});
    var h := ConfiguredHandler(server);
    var r := h.HandleRequest(Exchange("/health/live", 200));
    assert r == Success(Handled(Exchange("/health/live", 200), true));
    assert server.subscriptions == [];
  }
}
