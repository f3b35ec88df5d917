/**
  The behaviour of ServiceAvailabilityHandler as pure functions over its
  state. The class in module ServiceAvailability is proved against these.
 */
module Gating {
  import opened Wrappers
  import opened Platform

  /** "jboss.as:deployment=%s" up to its one placeholder. */
  const ObjectNamePrefix: string := "jboss.as:deployment="

  /** The status set on a gated request while the deployment is not ready. */
  const ServiceUnavailable: int := 503

  /** The only notification type that marks the deployment ready. */
  const DeploymentDeployed: string := "deployment-deployed"

  /** The parts of an HTTP exchange the handler looks at or changes. */
  datatype Exchange = Exchange(requestPath: string, statusCode: int)

  /** The exchange after handling, and whether it was passed to the next handler. */
  datatype Handled = Handled(exchange: Exchange, delegated: bool)

  /**
    The handler's state. `ready` is the shared AtomicBoolean; `listening` is
    the object name of the listener the MBean server holds for this handler,
    if registration succeeded.
   */
  datatype HandlerState = HandlerState(
    pathPrefixPattern: Option<string>,
    deploymentName: Option<string>,
    pathPattern: Option<Pattern>,
    initialized: bool,
    ready: bool,
    listening: Option<string>)

  /** A freshly constructed handler: nothing configured, not ready. */
  const Unconfigured: HandlerState := HandlerState(None, None, None, false, false, None)

  /** Once initialized, a compiled pattern is in place. */
  ghost predicate Consistent(s: HandlerState)
  {
    s.initialized ==> s.pathPattern.Some?
  }

  /** An initialized handler is never stuck shut: it is ready, or a listener
      is subscribed that can make it ready. */
  ghost predicate NotStuck(s: HandlerState)
  {
    s.initialized ==> s.ready || s.listening.Some?
  }

  /** String.format("%s", v): a null argument prints as "null". */
  function FormatArg(v: Option<string>): string
  {
    match v
    case None => "null"
    case Some(x) => x
  }

  /** The object name the handler subscribes to for its deployment. */
  function ObjectNameFor(deploymentName: Option<string>): (name: string)
    ensures |name| == |ObjectNamePrefix| + |FormatArg(deploymentName)|
    ensures name[..|ObjectNamePrefix|] == ObjectNamePrefix
    ensures name[|ObjectNamePrefix|..] == FormatArg(deploymentName)
  {
    ObjectNamePrefix + FormatArg(deploymentName)
  }

  /** An unset deployment name is formatted as "null". */
  lemma UnsetDeploymentNameFormatsAsNull()
    ensures ObjectNameFor(None) == "jboss.as:deployment=null"
    ensures ObjectNameFor(None) == ObjectNameFor(Some("null"))
  {
  }

  /** The per-request decision once the pattern is compiled. */
  function Respond(ex: Exchange, pathMatches: bool, ready: bool): (h: Handled)
    ensures !pathMatches ==> h == Handled(ex, true)
    ensures pathMatches && ready ==> h == Handled(ex, true)
    ensures pathMatches && !ready ==> !h.delegated && h.exchange.statusCode == ServiceUnavailable
    ensures h.exchange.requestPath == ex.requestPath
  {
    if !pathMatches then Handled(ex, true)
    else if ready then Handled(ex, true)
    else Handled(ex.(statusCode := ServiceUnavailable), false)
  }

  /** The listener's filter: the event's source and type must both match. */
  predicate IsReadySignal(objectName: string, n: Notification)
  {
    n.source == objectName && n.kind == DeploymentDeployed
  }

  /** ApplicationAvailabilityChangeNotificationListener.handleNotification,
      on the value of the shared readiness cell. */
  function ListenerUpdate(ready: bool, objectName: string, n: Notification): (r: bool)
    ensures ready ==> r
    ensures r != ready ==> IsReadySignal(objectName, n)
    ensures IsReadySignal(objectName, n) ==> r
  {
    if n.source != objectName then ready
    else if n.kind != DeploymentDeployed then ready
    else true
  }

  /** Repeating a notification changes nothing more. */
  lemma ListenerUpdateIdempotent(ready: bool, objectName: string, n: Notification)
    ensures ListenerUpdate(ListenerUpdate(ready, objectName, n), objectName, n)
         == ListenerUpdate(ready, objectName, n)
  {
  }

  /** A listener for one deployment ignores the deployed event of another. */
  lemma OtherDeploymentIgnored(ready: bool, mine: string, other: string)
    requires mine != other
    ensures ListenerUpdate(ready, ObjectNameFor(Some(mine)), Notification(ObjectNameFor(Some(other)), DeploymentDeployed)) == ready
  {
  }

  /** init(): compile the pattern, subscribe, and fail open if subscribing fails.
      `registers` is what the MBean registrar answers for the subscription. */
  function InitStep(s: HandlerState, regex: Regex, registers: bool): (r: Result<HandlerState, PatternFault>)
    ensures r.Failure? <==> Compile(regex, s.pathPrefixPattern).Failure?
    ensures r.Failure? ==> r.error == Compile(regex, s.pathPrefixPattern).error
    ensures r.Success? ==> r.value.pathPattern == Some(Compile(regex, s.pathPrefixPattern).value)
    ensures r.Success? ==>
      && r.value.pathPrefixPattern == s.pathPrefixPattern
      && r.value.deploymentName == s.deploymentName
      && r.value.initialized == s.initialized
    ensures r.Success? ==> (r.value.ready <==> s.ready || !registers)
    ensures r.Success? ==> r.value.listening == if registers then Some(ObjectNameFor(s.deploymentName)) else s.listening
  {
    match Compile(regex, s.pathPrefixPattern)
    case Failure(f) => Failure(f)
    case Success(p) =>
      var name := ObjectNameFor(s.deploymentName);
      if registers then Success(s.(pathPattern := Some(p), listening := Some(name)))
      else Success(s.(pathPattern := Some(p), ready := true))
  }

  /** handleRequest: lazy init on first use, then gate the exchange. A thrown
      init leaves the state as it was. */
  function RequestStep(s: HandlerState, regex: Regex, registers: bool, ex: Exchange)
    : (r: (HandlerState, Result<Handled, PatternFault>))
    requires Consistent(s)
    ensures Consistent(r.0)
    ensures r.1.Failure? ==> !s.initialized && r.0 == s
    ensures r.1.Success? ==> r.0.initialized
    ensures s.initialized ==> r.0 == s && r.1.Success?
    ensures s.ready ==> r.0.ready
    ensures !s.initialized ==> (r.1.Failure? <==> InitStep(s, regex, registers).Failure?)
    ensures !s.initialized && r.1.Failure? ==> r.1.error == InitStep(s, regex, registers).error
    ensures !s.initialized && r.1.Success? ==> r.0 == InitStep(s, regex, registers).value.(initialized := true)
    ensures r.1.Success? ==> r.1.value == Respond(ex, Matches(regex, r.0.pathPattern.value, ex.requestPath), r.0.ready)
  {
    if s.initialized then
      (s, Success(Respond(ex, Matches(regex, s.pathPattern.value, ex.requestPath), s.ready)))
    else
      match InitStep(s, regex, registers)
      case Failure(f) => (s, Failure(f))
      case Success(s1) =>
        var s2 := s1.(initialized := true);
        (s2, Success(Respond(ex, Matches(regex, s2.pathPattern.value, ex.requestPath), s2.ready)))
  }

  /** The first request runs init: with the pattern compiling, a failed
      registration opens the gate at once, and a successful one leaves a
      matching path answered 503 until the deployment reports in. */
  lemma FirstRequestRunsInit(s: HandlerState, regex: Regex, ex: Exchange)
    requires Consistent(s) && !s.initialized
    requires Compile(regex, s.pathPrefixPattern).Success?
    ensures RequestStep(s, regex, false, ex).0.ready
    ensures RequestStep(s, regex, false, ex).1 == Success(Handled(ex, true))
    ensures !s.ready && Matches(regex, Compile(regex, s.pathPrefixPattern).value, ex.requestPath) ==>
      RequestStep(s, regex, true, ex).1 == Success(Handled(ex.(statusCode := ServiceUnavailable), false))
  {
  }

  /** The subscribed listener's event is a ready signal. */
  predicate Signals(listening: Option<string>, n: Notification)
  {
    listening.Some? && IsReadySignal(listening.value, n)
  }

  /** A notification reaching the handler's listener, if it has one. */
  function NotificationStep(s: HandlerState, n: Notification): (r: HandlerState)
    ensures r == s.(ready := r.ready)
    ensures s.ready ==> r.ready
    ensures r.ready != s.ready ==> Signals(s.listening, n)
    ensures Signals(s.listening, n) ==> r.ready
  {
    match s.listening
    case None => s
    case Some(name) => s.(ready := ListenerUpdate(s.ready, name, n))
  }
}
