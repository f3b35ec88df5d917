/**
  Sequential interleavings of configuration, requests and notifications, and
  what holds over every such trace: the readiness latch is one-way, the gate
  stays closed until the subscribed deployment reports itself deployed and
  stays open afterwards, and init subscribes at most once.
 */
module Traces {
  import opened Wrappers
  import opened Platform
  import opened Gating

  /** One thing that can happen to the handler. A request carries the answer
      the MBean registrar would give, should this request run init. */
  datatype Event =
    | SetPathPrefixPattern(pattern: string)
    | SetDeploymentName(name: string)
    | Request(exchange: Exchange, registers: bool)
    | Notify(notification: Notification)

  /** What an event hands back: requests get a result, the rest nothing. */
  datatype Reply = NoReply | Replied(result: Result<Handled, PatternFault>)

  /** The final state and one reply per event. */
  datatype Outcome = Outcome(state: HandlerState, replies: seq<Reply>)

  function Step(s: HandlerState, regex: Regex, e: Event): (r: (HandlerState, Reply))
    requires Consistent(s)
    ensures Consistent(r.0)
    ensures s.ready ==> r.0.ready
    ensures r.1.Replied? <==> e.Request?
  {
    match e
    case SetPathPrefixPattern(p) => (s.(pathPrefixPattern := Some(p)), NoReply)
    case SetDeploymentName(d) => (s.(deploymentName := Some(d)), NoReply)
    case Request(ex, registers) =>
      var (s1, res) := RequestStep(s, regex, registers, ex);
      (s1, Replied(res))
    case Notify(n) => (NotificationStep(s, n), NoReply)
  }

  function Run(s: HandlerState, regex: Regex, es: seq<Event>): (o: Outcome)
    requires Consistent(s)
    ensures Consistent(o.state)
    ensures |o.replies| == |es|
    decreases |es|
  {
    if es == [] then Outcome(s, [])
    else
      var (s1, r1) := Step(s, regex, es[0]);
      var rest := Run(s1, regex, es[1..]);
      Outcome(rest.state, [r1] + rest.replies)
  }

  /** Running two traces one after the other is running their concatenation. */
  lemma {:induction false} RunAppend(s: HandlerState, regex: Regex, a: seq<Event>, b: seq<Event>)
    requires Consistent(s)
    ensures var mid := Run(s, regex, a);
            Run(s, regex, a + b) == Outcome(Run(mid.state, regex, b).state, mid.replies + Run(mid.state, regex, b).replies)
    decreases |a|
  {
    if a == [] {
      assert a + b == b;
    } else {
      var s1 := Step(s, regex, a[0]).0;
      assert (a + b)[1..] == a[1..] + b;
      RunAppend(s1, regex, a[1..], b);
    }
  }

  /** The readiness latch is one-way: once ready, ready after any trace. */
  lemma {:induction false} ReadyIsOneWay(s: HandlerState, regex: Regex, es: seq<Event>)
    requires Consistent(s)
    ensures s.ready ==> Run(s, regex, es).state.ready
    decreases |es|
  {
    if es != [] {
      ReadyIsOneWay(Step(s, regex, es[0]).0, regex, es[1..]);
    }
  }

  /** Failing open keeps the gate from being stuck: over any trace, an
      initialized handler is ready or has a subscribed listener. */
  lemma {:induction false} NeverStuckShut(s: HandlerState, regex: Regex, es: seq<Event>)
    requires Consistent(s) && NotStuck(s)
    ensures NotStuck(Run(s, regex, es).state)
    decreases |es|
  {
    if es != [] {
      NeverStuckShut(Step(s, regex, es[0]).0, regex, es[1..]);
    }
  }

  /** Once initialized, nothing re-runs init: the compiled pattern and the
      subscription stay, whatever setters are called later. */
  lemma {:induction false} InitializedIsStable(s: HandlerState, regex: Regex, es: seq<Event>)
    requires Consistent(s) && s.initialized
    ensures Run(s, regex, es).state.initialized
    ensures Run(s, regex, es).state.pathPattern == s.pathPattern
    ensures Run(s, regex, es).state.listening == s.listening
    decreases |es|
  {
    if es != [] {
      InitializedIsStable(Step(s, regex, es[0]).0, regex, es[1..]);
    }
  }

  /** Once initialized and ready, every request is passed on untouched. */
  lemma {:induction false} ReadyDelegatesEveryRequest(s: HandlerState, regex: Regex, es: seq<Event>)
    requires Consistent(s) && s.initialized && s.ready
    ensures forall i :: 0 <= i < |es| && es[i].Request? ==>
      Run(s, regex, es).replies[i] == Replied(Success(Handled(es[i].exchange, true)))
    decreases |es|
  {
    if es != [] {
      var s1 := Step(s, regex, es[0]).0;
      ReadyDelegatesEveryRequest(s1, regex, es[1..]);
      var o := Run(s, regex, es);
      forall i | 0 < i < |es| && es[i].Request?
        ensures o.replies[i] == Replied(Success(Handled(es[i].exchange, true)))
      {
        assert es[i] == es[1..][i - 1];
      }
    }
  }

  /** Event `e`, if it is a notification, is not a ready signal for `listening`. */
  predicate Quiet(listening: Option<string>, e: Event)
  {
    e.Notify? ==> !Signals(listening, e.notification)
  }

  /** Until a ready signal arrives, a subscribed handler answers 503 to every
      matching path and passes every other path on untouched. */
  lemma {:induction false} GateClosedUntilSignal(s: HandlerState, regex: Regex, es: seq<Event>)
    requires Consistent(s) && s.initialized && !s.ready
    requires forall i :: 0 <= i < |es| ==> Quiet(s.listening, es[i])
    ensures !Run(s, regex, es).state.ready
    ensures forall i :: 0 <= i < |es| && es[i].Request? ==>
      var ex := es[i].exchange;
      Run(s, regex, es).replies[i] ==
        if Matches(regex, s.pathPattern.value, ex.requestPath)
        then Replied(Success(Handled(ex.(statusCode := ServiceUnavailable), false)))
        else Replied(Success(Handled(ex, true)))
    decreases |es|
  {
    if es != [] {
      var s1 := Step(s, regex, es[0]).0;
      assert Quiet(s.listening, es[0]);
      assert s1 == s.(pathPrefixPattern := s1.pathPrefixPattern, deploymentName := s1.deploymentName);
      forall i | 0 <= i < |es[1..]| ensures Quiet(s1.listening, es[1..][i]) {
        assert Quiet(s.listening, es[i + 1]);
      }
      GateClosedUntilSignal(s1, regex, es[1..]);
      forall i | 0 < i < |es| && es[i].Request?
        ensures es[i] == es[1..][i - 1]
      {
      }
    }
  }

  /** A ready signal to the subscribed listener opens the gate for good: every
      later request is passed on untouched. */
  lemma {:induction false} SignalOpensGate(s: HandlerState, regex: Regex, es: seq<Event>, j: nat)
    requires Consistent(s) && s.initialized
    requires j < |es| && es[j].Notify? && Signals(s.listening, es[j].notification)
    ensures Run(s, regex, es).state.ready
    ensures forall i :: j < i < |es| && es[i].Request? ==>
      Run(s, regex, es).replies[i] == Replied(Success(Handled(es[i].exchange, true)))
  {
    var pre, post := es[..j + 1], es[j + 1..];
    assert es == pre + post;
    RunAppend(s, regex, pre, post);
    RunAppend(s, regex, es[..j], [es[j]]);
    assert pre == es[..j] + [es[j]];
    InitializedIsStable(s, regex, es[..j]);
    var mid := Run(s, regex, pre).state;
    assert mid.ready;
    assert mid.initialized;
    ReadyIsOneWay(mid, regex, post);
    ReadyDelegatesEveryRequest(mid, regex, post);
    var o := Run(s, regex, es);
    forall i | j < i < |es| && es[i].Request?
      ensures o.replies[i] == Replied(Success(Handled(es[i].exchange, true)))
    {
      assert es[i] == post[i - (j + 1)];
      assert o.replies[i] == Run(mid, regex, post).replies[i - (j + 1)];
    }
  }

  /** Whether event `e` in state `s` reaches the registrar: a request that
      runs init and gets past compiling the pattern. */
  predicate ReachesRegistrar(s: HandlerState, regex: Regex, e: Event)
  {
    e.Request? && !s.initialized && Compile(regex, s.pathPrefixPattern).Success?
  }

  /** How many events of a trace reach the registrar. */
  function RegistrarCalls(s: HandlerState, regex: Regex, es: seq<Event>): nat
    requires Consistent(s)
    decreases |es|
  {
    if es == [] then 0
    else
      var s1 := Step(s, regex, es[0]).0;
      (if ReachesRegistrar(s, regex, es[0]) then 1 else 0) + RegistrarCalls(s1, regex, es[1..])
  }

  /** init calls the registrar at most once over any trace, and never once initialized. */
  lemma {:induction false} RegistrarCalledAtMostOnce(s: HandlerState, regex: Regex, es: seq<Event>)
    requires Consistent(s)
    ensures RegistrarCalls(s, regex, es) <= if s.initialized then 0 else 1
    decreases |es|
  {
    if es != [] {
      var s1 := Step(s, regex, es[0]).0;
      RegistrarCalledAtMostOnce(s1, regex, es[1..]);
      if ReachesRegistrar(s, regex, es[0]) {
        assert s1.initialized;
      }
    }
  }

  /** Delivering the same notification twice in a row leaves the same state
      and the same later replies as delivering it once. */
  lemma DuplicateNotificationIsIdempotent(s: HandlerState, regex: Regex, pre: seq<Event>, n: Notification, post: seq<Event>)
    requires Consistent(s)
    ensures Run(s, regex, pre + [Notify(n), Notify(n)] + post).state == Run(s, regex, pre + [Notify(n)] + post).state
    ensures Run(s, regex, pre + [Notify(n), Notify(n)] + post).replies[|pre| + 2..]
         == Run(s, regex, pre + [Notify(n)] + post).replies[|pre| + 1..]
  {
    var mid := Run(s, regex, pre).state;
    var once := NotificationStep(mid, n);
    assert NotificationStep(once, n) == once;
    RunAppend(s, regex, pre, [Notify(n), Notify(n)] + post);
    RunAppend(s, regex, pre, [Notify(n)] + post);
    assert pre + [Notify(n), Notify(n)] + post == pre + ([Notify(n), Notify(n)] + post);
    assert pre + [Notify(n)] + post == pre + ([Notify(n)] + post);
    assert ([Notify(n), Notify(n)] + post)[1..] == [Notify(n)] + post;
    assert ([Notify(n)] + post)[1..] == post;
  }
}
