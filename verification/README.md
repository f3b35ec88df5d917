# Service availability gate

A Dafny model of `ServiceAvailabilityHandler`, an Undertow HTTP handler from
undertow-extensions. Until a JBoss deployment reports itself deployed, the
handler answers `503 Service Unavailable` to every request whose path fully
matches a configured pattern. From then on it passes all traffic to the next
handler. The deployed report arrives as a JMX notification. The handler learns
readiness through a one-way latch: an `AtomicBoolean` it shares with its
notification listener.

Layout:

- `wrappers.dfy`: `Option` (a Java null) and `Result` (a thrown exception).
- `platform.dfy`: the Java library pieces. `java.util.regex` becomes an
  uninterpreted `Regex` with two parts: which sources compile, and which
  inputs a source fully matches. `AtomicBoolean` becomes a shared cell.
- `gating.dfy`: the handler's behaviour as pure step functions over
  `HandlerState`:
  - `InitStep`: `init()`.
  - `RequestStep`: `handleRequest`.
  - `NotificationStep` and `ListenerUpdate`: the listener.
  - `Respond`: the gate decision.
- `traces.dfy`: properties of every sequential trace of setter calls,
  requests and notifications.
- `handler.dfy`: the classes, with their Java fields and `modifies`
  frames, each proved against the step functions:
  - `ServiceAvailabilityHandler`;
  - `AvailabilityListener`;
  - the registrar `Register`;
  - a stand-in `MBeanServer`.
- `scenarios.dfy`: two clients that use only the class contracts. One
  follows a health endpoint from 503 through an ignored foreign event to
  delegation. The other shows the fail-open path when the MBean is missing.

Where the code does something a reader might not expect, the model follows the code:

- An unset path pattern makes `Pattern.compile(null)` throw, so the first
  request fails (`NullPattern`). The handler stays uninitialized, and the
  next request retries `init`.
- An unset deployment name is formatted by `String.format` as `"null"`.
  The handler then subscribes to `jboss.as:deployment=null`
  (`UnsetDeploymentNameFormatsAsNull`).
- Only a thrown `init` leaves `initialized` false. Registration failures
  never throw. They open the gate instead.

## Model

| member | source | states |
|---|---|---|
| `Platform.Compile` | service-availability-http-handler/src/main/java/de/tdlabs/undertow/handler/sa/ServiceAvailabilityHandler.java:68 | compiling succeeds exactly when the pattern is set and valid; a null pattern gives a NullPointerException fault, a bad one a syntax fault naming the source |
| `Platform.Matches` | service-availability-http-handler/src/main/java/de/tdlabs/undertow/handler/sa/ServiceAvailabilityHandler.java:53 | the uninterpreted full-match stub for `pattern.matcher(path).matches()`: it defers to the regex library's whole-path match on the compiled pattern's source and carries no contract of its own |
| `Gating.ObjectNameFor` | service-availability-http-handler/src/main/java/de/tdlabs/undertow/handler/sa/ServiceAvailabilityHandler.java:70 | the subscription name is "jboss.as:deployment=" followed by the deployment name as %s formats it |
| `Gating.UnsetDeploymentNameFormatsAsNull` | service-availability-http-handler/src/main/java/de/tdlabs/undertow/handler/sa/ServiceAvailabilityHandler.java:70 | an unset deployment name subscribes to "jboss.as:deployment=null", the same name as a deployment literally named "null" |
| `Gating.Respond` | service-availability-http-handler/src/main/java/de/tdlabs/undertow/handler/sa/ServiceAvailabilityHandler.java:53-63 | a non-matching path is delegated with its exchange untouched; a matching path is delegated untouched when ready; otherwise it gets status 503 and is not delegated |
| `Gating.ListenerUpdate` | service-availability-http-handler/src/main/java/de/tdlabs/undertow/handler/sa/ServiceAvailabilityHandler.java:131-145 | the listener never clears readiness; it changes it only for an event whose source equals its object name and whose type is "deployment-deployed", and such an event always leaves it ready |
| `Gating.ListenerUpdateIdempotent` | service-availability-http-handler/src/main/java/de/tdlabs/undertow/handler/sa/ServiceAvailabilityHandler.java:144 | delivering the same notification twice gives the same readiness as delivering it once |
| `Gating.OtherDeploymentIgnored` | service-availability-http-handler/src/main/java/de/tdlabs/undertow/handler/sa/ServiceAvailabilityHandler.java:133-136 | a listener for one deployment ignores the "deployment-deployed" event of any other deployment |
| `Gating.InitStep` | service-availability-http-handler/src/main/java/de/tdlabs/undertow/handler/sa/ServiceAvailabilityHandler.java:66-77 | init fails exactly when the pattern does not compile; otherwise it stores the compiled pattern, subscribes under the deployment's object name when registration succeeds, and marks the handler ready when registration fails (fail open), leaving readiness alone when it succeeds |
| `Gating.RequestStep` | service-availability-http-handler/src/main/java/de/tdlabs/undertow/handler/sa/ServiceAvailabilityHandler.java:44-64 | an uninitialized handler runs init: the request fails exactly when init does, with init's fault, leaving the whole state unchanged; otherwise the new state is init's result marked initialized; an initialized handler's state is never changed by a request; readiness is never cleared; the reply is the gate decision on the compiled pattern and readiness after init |
| `Gating.FirstRequestRunsInit` | service-availability-http-handler/src/main/java/de/tdlabs/undertow/handler/sa/ServiceAvailabilityHandler.java:48-51 | when the pattern compiles, a first request whose registration fails is delegated and leaves the handler ready (fail open); with registration succeeding, a first matching request on a not-ready handler gets 503 and is not delegated |
| `Gating.NotificationStep` | service-availability-http-handler/src/main/java/de/tdlabs/undertow/handler/sa/ServiceAvailabilityHandler.java:131-145 | a notification can only change readiness, never clears it, and changes it only when it is a ready signal for the subscribed name; an unsubscribed handler ignores all notifications |
| `Traces.Step` | service-availability-http-handler/src/main/java/de/tdlabs/undertow/handler/sa/ServiceAvailabilityHandler.java:44-93 | every setter call, request or notification keeps a compiled pattern in place once initialized, never clears readiness, and replies exactly when it is a request |
| `Traces.Run` | service-availability-http-handler/src/main/java/de/tdlabs/undertow/handler/sa/ServiceAvailabilityHandler.java:44-145 | a trace yields one reply per event and a consistent final state |
| `Traces.ReadyIsOneWay` | service-availability-http-handler/src/main/java/de/tdlabs/undertow/handler/sa/ServiceAvailabilityHandler.java:66-145 | once ready, the handler is still ready after any sequence of setter calls, requests and notifications (every write stores true) |
| `Traces.NeverStuckShut` | service-availability-http-handler/src/main/java/de/tdlabs/undertow/handler/sa/ServiceAvailabilityHandler.java:73-76 | over any trace, an initialized handler is ready or has a subscribed listener that can make it ready, so failing open keeps the gate from staying shut for good |
| `Traces.InitializedIsStable` | service-availability-http-handler/src/main/java/de/tdlabs/undertow/handler/sa/ServiceAvailabilityHandler.java:48-51 | once initialized, no later event re-runs init: the compiled pattern and the subscription stay as they are, whatever the setters are called with |
| `Traces.ReadyDelegatesEveryRequest` | service-availability-http-handler/src/main/java/de/tdlabs/undertow/handler/sa/ServiceAvailabilityHandler.java:58-61 | an initialized, ready handler delegates every later request with its exchange untouched |
| `Traces.GateClosedUntilSignal` | service-availability-http-handler/src/main/java/de/tdlabs/undertow/handler/sa/ServiceAvailabilityHandler.java:53-63 | while no ready signal for the subscribed name arrives, an initialized handler that is not ready stays not ready, answers 503 without delegating to every matching path, and delegates every other path untouched |
| `Traces.SignalOpensGate` | service-availability-http-handler/src/main/java/de/tdlabs/undertow/handler/sa/ServiceAvailabilityHandler.java:138-144 | after a ready signal for the subscribed name, the handler is ready and delegates every later request untouched |
| `Traces.RegistrarCalledAtMostOnce` | service-availability-http-handler/src/main/java/de/tdlabs/undertow/handler/sa/ServiceAvailabilityHandler.java:48-51 | over any trace, init reaches the registrar at most once, and never once the handler is initialized |
| `Traces.DuplicateNotificationIsIdempotent` | service-availability-http-handler/src/main/java/de/tdlabs/undertow/handler/sa/ServiceAvailabilityHandler.java:144 | a notification delivered twice in a row leaves the same final state and the same later replies as one delivery |
| `ServiceAvailability.MBeanServer.AddNotificationListener` | service-availability-http-handler/src/main/java/de/tdlabs/undertow/handler/sa/ServiceAvailabilityHandler.java:103-105 | the listener is added under the name exactly when that MBean exists; otherwise nothing changes |
| `ServiceAvailability.Register` | service-availability-http-handler/src/main/java/de/tdlabs/undertow/handler/sa/ServiceAvailabilityHandler.java:98-115 | register answers true exactly when the name parses and the MBean exists, and only then has the listener been added; a malformed name or a missing instance answers false, adds nothing and throws nothing |
| `ServiceAvailability.AvailabilityListener.constructor` | service-availability-http-handler/src/main/java/de/tdlabs/undertow/handler/sa/ServiceAvailabilityHandler.java:126-129 | the listener keeps the object name it filters on and a reference to the handler's readiness cell |
| `ServiceAvailability.AvailabilityListener.HandleNotification` | service-availability-http-handler/src/main/java/de/tdlabs/undertow/handler/sa/ServiceAvailabilityHandler.java:131-145 | the shared readiness cell becomes the listener's filter applied to its old value, so it is set only by this deployment's "deployment-deployed" event |
| `ServiceAvailability.ServiceAvailabilityHandler.constructor` | service-availability-http-handler/src/main/java/de/tdlabs/undertow/handler/sa/ServiceAvailabilityHandler.java:28-42 | a new handler is uninitialized, unconfigured, not ready, unsubscribed, with a fresh readiness cell of its own |
| `ServiceAvailability.ServiceAvailabilityHandler.SetPathPrefixPattern` | service-availability-http-handler/src/main/java/de/tdlabs/undertow/handler/sa/ServiceAvailabilityHandler.java:83-85 | only the configured pattern string changes |
| `ServiceAvailability.ServiceAvailabilityHandler.SetDeploymentName` | service-availability-http-handler/src/main/java/de/tdlabs/undertow/handler/sa/ServiceAvailabilityHandler.java:91-93 | only the configured deployment name changes |
| `ServiceAvailability.ServiceAvailabilityHandler.Init` | service-availability-http-handler/src/main/java/de/tdlabs/undertow/handler/sa/ServiceAvailabilityHandler.java:66-77 | the handler's new state is InitStep of the old one, with the registrar's real answer; a fresh listener sharing the readiness cell is added to the MBean server exactly when registration succeeds |
| `ServiceAvailability.ServiceAvailabilityHandler.HandleRequest` | service-availability-http-handler/src/main/java/de/tdlabs/undertow/handler/sa/ServiceAvailabilityHandler.java:44-64 | the new state and the reply are RequestStep of the old state; the MBean server gains at most the one fresh listener of a first init |

## Left out

- Concurrency is not modelled. This covers the unsynchronised check-then-set
  of `intialized`, by which two first requests can both run `init`. It also
  covers the memory ordering of `AtomicBoolean` and delivery of
  notifications on other threads. Interleavings are sequential traces of
  steps only (`Traces.Run`).
- Regular-expression semantics are left uninterpreted: `java.util.regex` is
  a foreign library.
- ObjectName syntax is a parameter of the MBean server stand-in
  (`parses`). Names are compared as strings, not as canonical object names.
- JMX routing of notifications to listeners is not modelled. Clients call
  the registered listener directly, and a trace delivers a notification
  only to the listener that registration added.
- Exceptions other than those modelled are left out. These are runtime
  exceptions from the MBean server beyond the two the registrar catches,
  exceptions from the next handler, and `setStatusCode` on a response
  already started.
- A notification whose source is null would throw when read. The model
  takes the source's string form as given. A null notification type is
  treated like any other type that is not "deployment-deployed".
- The setters accept only non-null strings. Resetting a setting to null is
  not modelled.
- The next handler is represented only by the `delegated` flag. What it
  does with the exchange is outside this core. Of `HttpServerExchange`,
  only the request path and the status code are kept.
- Logging (lines 74, 109, 111, 143) and the getters (lines 79-89) are not
  modelled; neither has a behavioural effect.
