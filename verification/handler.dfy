/**
  ServiceAvailabilityHandler: an Undertow handler that answers 503 on gated
  paths until a JBoss deployment reports "deployment-deployed" over JMX.
  The class keeps the Java fields and is proved against module Gating.
 */
module ServiceAvailability {
  import opened Wrappers
  import opened Platform
  import opened Gating

  /** A listener registered on an MBean, under the object name it was given. */
  datatype Subscription = Subscription(objectName: string, listener: AvailabilityListener)

  /**
    The platform MBean server, reduced to what registration needs: which
    names ObjectName accepts (its syntax is not modelled), which MBeans
    exist, and the listeners added so far.
   */
  class MBeanServer {
    const parses: string -> bool
    var mbeans: set<string>
    var subscriptions: seq<Subscription>

    constructor (parses: string -> bool, mbeans: set<string>)
      ensures this.parses == parses && this.mbeans == mbeans && subscriptions == []
    {
      this.parses := parses;
      this.mbeans := mbeans;
      subscriptions := [];
    }

    /** Registration under `name` would succeed. */
    predicate Accepts(name: string)
      reads this
    {
      parses(name) && name in mbeans
    }

    /** addNotificationListener(on, listener, null, null); a missing MBean,
        which JMX reports by throwing InstanceNotFoundException, answers false. */
    method AddNotificationListener(name: string, listener: AvailabilityListener) returns (added: bool)
      modifies this`subscriptions
      ensures added <==> name in mbeans
      ensures subscriptions == old(subscriptions) + if added then [Subscription(name, listener)] else []
    {
      added := name in mbeans;
      if added {
        subscriptions := subscriptions + [Subscription(name, listener)];
      }
    }
  }

  /** ApplicationAvailabilityMbeanRegistrar.register: true only once the
      listener is added; a malformed name or a missing MBean gives false. */
  method Register(objectName: string, listener: AvailabilityListener, server: MBeanServer) returns (registered: bool)
    modifies server`subscriptions
    ensures registered <==> server.Accepts(objectName)
    ensures server.subscriptions == old(server.subscriptions) + if registered then [Subscription(objectName, listener)] else []
  {
    if !server.parses(objectName) {
      // MalformedObjectNameException: logged and swallowed
      return false;
    }
    registered := server.AddNotificationListener(objectName, listener);
  }

  /** ApplicationAvailabilityChangeNotificationListener: sets the shared cell
      when its own deployment reports itself deployed. */
  class AvailabilityListener {
    const objectName: string
    const applicationReady: AtomicBoolean

    constructor (objectName: string, applicationReady: AtomicBoolean)
      ensures this.objectName == objectName && this.applicationReady == applicationReady
    {
      this.objectName := objectName;
      this.applicationReady := applicationReady;
    }

    method HandleNotification(n: Notification)
      modifies applicationReady
      ensures applicationReady.value == ListenerUpdate(old(applicationReady.value), objectName, n)
    {
      var matchesObjectName := n.source == objectName;
      if !matchesObjectName {
        return;
      }
      var deploymentDeployed := DeploymentDeployed == n.kind;
      if !deploymentDeployed {
        return;
      }
      applicationReady.Set(true);
    }
  }

  class ServiceAvailabilityHandler {
    const regex: Regex
    const server: MBeanServer
    const applicationReady: AtomicBoolean
    var pathPattern: Option<Pattern>
    var pathPrefixPattern: Option<string>
    var deploymentName: Option<string>
    var initialized: bool
    /** The listener init handed to the MBean server, once registered. */
    ghost var listener: Option<AvailabilityListener>

    /** The registered listener writes the same cell the handler reads. */
    ghost predicate Valid()
      reads this
    {
      && (listener.Some? ==> listener.value.applicationReady == applicationReady)
      && (initialized ==> pathPattern.Some?)
    }

    ghost function State(): HandlerState
      reads this, applicationReady
    {
      HandlerState(pathPrefixPattern, deploymentName, pathPattern, initialized, applicationReady.value,
        if listener.Some? then Some(listener.value.objectName) else None)
    }

    constructor (regex: Regex, server: MBeanServer)
      ensures Valid() && State() == Unconfigured
      ensures this.regex == regex && this.server == server && fresh(applicationReady)
    {
      this.regex := regex;
      this.server := server;
      applicationReady := new AtomicBoolean(false);
      pathPattern := None;
      pathPrefixPattern := None;
      deploymentName := None;
      initialized := false;
      listener := None;
    }

    method SetPathPrefixPattern(pattern: string)
      requires Valid()
      modifies this`pathPrefixPattern
      ensures Valid()
      ensures State() == old(State()).(pathPrefixPattern := Some(pattern))
    {
      pathPrefixPattern := Some(pattern);
    }

    method SetDeploymentName(name: string)
      requires Valid()
      modifies this`deploymentName
      ensures Valid()
      ensures State() == old(State()).(deploymentName := Some(name))
    {
      deploymentName := Some(name);
    }

    method Init() returns (result: Result<(), PatternFault>)
      requires Valid()
      modifies this`pathPattern, this`listener, applicationReady, server`subscriptions
      ensures Valid()
      ensures var spec := InitStep(old(State()), regex, old(server.Accepts(ObjectNameFor(deploymentName))));
        && (result.Failure? <==> spec.Failure?)
        && (spec.Failure? ==> result.error == spec.error && State() == old(State()))
        && (spec.Success? ==> State() == spec.value)
      ensures listener == old(listener) || (listener.Some? && fresh(listener.value))
      ensures server.subscriptions == old(server.subscriptions)
        + if listener == old(listener) then [] else [Subscription(ObjectNameFor(deploymentName), listener.value)]
    {
      var compiled := Compile(regex, pathPrefixPattern);
      if compiled.Failure? {
        return Failure(compiled.error);
      }
      pathPattern := Some(compiled.value);
      var deploymentObjectName := ObjectNameFor(deploymentName);
      var l := new AvailabilityListener(deploymentObjectName, applicationReady);
      var registered := Register(deploymentObjectName, l, server);
      if registered {
        listener := Some(l);
      } else {
        // fail open
        applicationReady.Set(true);
      }
      return Success(());
    }

    method HandleRequest(ex: Exchange) returns (result: Result<Handled, PatternFault>)
      requires Valid()
      modifies this, applicationReady, server`subscriptions
      ensures Valid()
      ensures (State(), result) == RequestStep(old(State()), regex, old(server.Accepts(ObjectNameFor(deploymentName))), ex)
      ensures listener == old(listener) || (listener.Some? && fresh(listener.value))
      ensures server.subscriptions == old(server.subscriptions)
        + if listener == old(listener) then [] else [Subscription(ObjectNameFor(deploymentName), listener.value)]
    {
      if !initialized {
        var r := Init();
        if r.Failure? {
          return Failure(r.error);
        }
        initialized := true;
      }
      if !Matches(regex, pathPattern.value, ex.requestPath) {
        return Success(Handled(ex, true));
      }
      if applicationReady.Get() {
        return Success(Handled(ex, true));
      }
      return Success(Handled(ex.(statusCode := ServiceUnavailable), false));
    }
  }
}
