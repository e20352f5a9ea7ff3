/**
 * The promise-action orchestrator `executePromiseSaga`: run the executors as one
 * joined group, then each `then` link, classify a failure, call `catch` or log and
 * rethrow, and finally call `finally`.
 *
 * The saga effects are replaced by inputs: the outcome of the join is given, and
 * `executeAppAction` is an oracle that answers the follow-up call made at a given
 * position of the trace. The run produces the trace of follow-up calls (and the
 * `log.error` it emits) and its terminal outcome.
 */
module PromiseSaga {
  import opened Wrappers

  /** A JavaScript value as far as the saga looks at it: only its truthiness matters. */
  datatype Value =
    | Falsy                    // undefined, null, false, 0, NaN
    | EmptyObject              // {}
    | Str(s: string)           // a string; the empty string is falsy
    | List(items: seq<Value>)  // an array, always truthy
    | Opaque(id: nat)          // any other object the collaborators return

  predicate Truthy(v: Value) {
    match v
    case Falsy => false
    case Str(s) => s != ""
    case _ => true
  }

  /** JavaScript's `a || b`. */
  function Or(a: Value, b: Value): (r: Value)
    ensures r == a || r == b
    ensures Truthy(a) ==> r == a
    ensures Truthy(b) ==> Truthy(r)
  {
    if Truthy(a) then a else b
  }

  /** The placeholder argument set `[{}]`. */
  const Placeholder: Value := List([EmptyObject])

  /** The parts of `triggerMeta` that the saga forwards. */
  datatype TriggerMeta = TriggerMeta(source: string, triggerPropertyName: string)

  /**
   * The errors the saga can see. `TriggerFailure` and `PluginTriggerFailure` are
   * the two classes the saga's file declares, built by their constructors'
   * `(reason, error?)` and `(reason, responseData)` arguments; the plugin error's
   * `super(reason)` passes no inner error, so it keeps none. `UserCancelled` and
   * `UncaughtPromise` are the two classes it imports; `OtherError` is any other
   * thrown `Error`.
   */
  datatype SagaError =
    | UserCancelled(message: string)
    | TriggerFailure(message: string, error: Option<SagaError>)
    | PluginTriggerFailure(message: string, responseData: Value)
    | UncaughtPromise(message: string, meta: TriggerMeta, cause: SagaError)
    | OtherError(message: string)

  /** The descriptor: `executor`, optional `then`, `catch` and `finally`. */
  datatype PromiseTrigger = PromiseTrigger(
    executor: seq<Value>,
    thenLinks: Option<seq<string>>,
    catchAction: Option<string>,
    finallyAction: Option<string>)

  /** `if (trigger.catch)` / `if (trigger.finally)`: the empty string is falsy. */
  predicate Given(action: Option<string>) {
    action.Some? && action.value != ""
  }

  /** The object passed to `executeAppAction`. */
  datatype Payload = Payload(
    dynamicString: string,
    eventType: string,
    responseData: Value,
    source: string,
    triggerPropertyName: string)

  /** One observable step of a run, tagged by the part of the saga that issues it. */
  datatype Event =
    | ThenCall(payload: Payload)
    | CatchCall(payload: Payload)
    | FinallyCall(payload: Payload)
    | LogError(error: SagaError)

  /** What one `executeAppAction` call does: complete with a value or throw. */
  datatype CallResult = Completed(value: Value) | Raised(error: SagaError)

  /** The outside world's answer to the k-th follow-up call of a run. */
  type Oracle = (nat, Payload) -> CallResult

  /** What `yield all(...)` does: results in executor order, or one error. */
  datatype JoinOutcome = Joined(responses: seq<Value>) | JoinRaised(error: SagaError)

  /** How the saga ends: it returns, or it throws. */
  datatype Outcome = Returned | Threw(error: SagaError)

  datatype Run = Run(trace: seq<Event>, outcome: Outcome)

  /** The part of a run inside the `try` block: the calls made and the error caught, if any. */
  datatype TryResult = TryResult(calls: seq<Event>, failure: Option<SagaError>)

  function MakePayload(action: string, eventType: string, args: Value, meta: TriggerMeta): Payload
  {
    Payload(action, eventType, args, meta.source, meta.triggerPropertyName)
  }

  function Prepend(calls: seq<Event>, r: TryResult): TryResult {
    TryResult(calls + r.calls, r.failure)
  }

  // ---------------------------------------------------------------------------
  // Specification of a run
  // ---------------------------------------------------------------------------

  /**
   * The argument set every `then` link receives: the single response when there is
   * exactly one, otherwise `[{}]`, and `[{}]` again in place of a falsy value.
   */
  function ThenArguments(responses: seq<Value>): (r: Value)
    ensures Truthy(r)
    ensures |responses| == 1 && Truthy(responses[0]) ==> r == responses[0]
    ensures |responses| != 1 || !Truthy(responses[0]) ==> r == Placeholder
  {
    var responseData := if |responses| == 1 then responses[0] else Placeholder;
    Or(responseData, Placeholder)
  }

  /** The `then` links from the i-th on, each given the same arguments, stopping at the first that throws. */
  function ChainFrom(links: seq<string>, i: nat, args: Value, eventType: string, meta: TriggerMeta,
                     oracle: Oracle): TryResult
    requires i <= |links|
    decreases |links| - i
  {
    if i == |links| then TryResult([], None)
    else
      var payload := MakePayload(links[i], eventType, args, meta);
      match oracle(i, payload)
      case Raised(e) => TryResult([ThenCall(payload)], Some(e))
      case Completed(_) => Prepend([ThenCall(payload)], ChainFrom(links, i + 1, args, eventType, meta, oracle))
  }

  /** The `try` block: a failed join or a failed link both end it with that error. */
  function TryBlock(trigger: PromiseTrigger, eventType: string, meta: TriggerMeta, join: JoinOutcome,
                    oracle: Oracle): TryResult
  {
    match join
    case JoinRaised(e) => TryResult([], Some(e))
    case Joined(responses) =>
      if trigger.thenLinks.Some? && |trigger.thenLinks.value| > 0 then
        ChainFrom(trigger.thenLinks.value, 0, ThenArguments(responses), eventType, meta, oracle)
      else TryResult([], None)
  }

  /** The argument set of the `catch` action for a non-cancel error. */
  function CatchArguments(e: SagaError): (r: Value)
    ensures Truthy(r)
    ensures e.PluginTriggerFailure? && Truthy(e.responseData) ==> r == e.responseData
    ensures e.PluginTriggerFailure? && !Truthy(e.responseData) ==> r == Placeholder
    ensures !e.PluginTriggerFailure? ==> r == List([Str(e.message)])
  {
    var responseData := if e.PluginTriggerFailure? then e.responseData else List([Str(e.message)]);
    Or(responseData, Placeholder)
  }

  /** The step after the `try`/`catch` statement, reached with the trace so far. */
  function RunFinally(trigger: PromiseTrigger, eventType: string, meta: TriggerMeta, oracle: Oracle,
                      trace: seq<Event>): Run
  {
    if Given(trigger.finallyAction) then
      var payload := MakePayload(trigger.finallyAction.value, eventType, Placeholder, meta);
      var t := trace + [FinallyCall(payload)];
      match oracle(|trace|, payload)
      case Raised(e) => Run(t, Threw(e))
      case Completed(_) => Run(t, Returned)
    else Run(trace, Returned)
  }

  /**
   * The `catch` block for error `e`, caught after the calls `calls` of the `try`
   * block; the same for a join failure and a link failure.
   */
  function HandleFailure(trigger: PromiseTrigger, eventType: string, meta: TriggerMeta, oracle: Oracle,
                         calls: seq<Event>, e: SagaError): Run
  {
    if e.UserCancelled? then RunFinally(trigger, eventType, meta, oracle, calls)
    else if Given(trigger.catchAction) then
      var payload := MakePayload(trigger.catchAction.value, eventType, CatchArguments(e), meta);
      var t := calls + [CatchCall(payload)];
      match oracle(|calls|, payload)
      case Raised(e2) => Run(t, Threw(e2))
      case Completed(_) => RunFinally(trigger, eventType, meta, oracle, t)
    else Run(calls + [LogError(e)], Threw(UncaughtPromise(e.message, meta, e)))
  }

  /** A whole run of the saga. */
  function PromiseRun(trigger: PromiseTrigger, eventType: string, meta: TriggerMeta, join: JoinOutcome,
                      oracle: Oracle): Run
  {
    var tried := TryBlock(trigger, eventType, meta, join, oracle);
    match tried.failure
    case None => RunFinally(trigger, eventType, meta, oracle, tried.calls)
    case Some(e) => HandleFailure(trigger, eventType, meta, oracle, tried.calls, e)
  }

  // ---------------------------------------------------------------------------
  // The saga itself
  // ---------------------------------------------------------------------------

  /** One turn of the `then` loop: the chain from link `i` on, after the calls so far. */
  lemma ChainStep(links: seq<string>, i: nat, args: Value, eventType: string, meta: TriggerMeta,
                  oracle: Oracle, calls: seq<Event>)
    requires i < |links|
    ensures var payload := MakePayload(links[i], eventType, args, meta);
      Prepend(calls, ChainFrom(links, i, args, eventType, meta, oracle))
        == match oracle(i, payload)
           case Raised(e) => TryResult(calls + [ThenCall(payload)], Some(e))
           case Completed(_) => Prepend(calls + [ThenCall(payload)], ChainFrom(links, i + 1, args, eventType, meta, oracle))
  {
  }

  /**
   * The loop over the `then` links: each link is executed with the same arguments,
   * in order, until one raises; `trace` holds the calls made and `failure` the error
   * that stopped the loop.
   */
  method RunThenLinks(links: seq<string>, thenArguments: Value, eventType: string, meta: TriggerMeta,
                      oracle: Oracle)
    returns (trace: seq<Event>, failure: Option<SagaError>)
    ensures TryResult(trace, failure) == ChainFrom(links, 0, thenArguments, eventType, meta, oracle)
  {
    trace := [];
    failure := None;
    var i := 0;
    while i < |links| && failure.None?
      invariant 0 <= i <= |links|
      invariant |trace| == i
      invariant failure.None? ==>
        ChainFrom(links, 0, thenArguments, eventType, meta, oracle)
          == Prepend(trace, ChainFrom(links, i, thenArguments, eventType, meta, oracle))
      invariant failure.Some? ==>
        ChainFrom(links, 0, thenArguments, eventType, meta, oracle) == TryResult(trace, failure)
    {
      var payload := MakePayload(links[i], eventType, thenArguments, meta);
      ChainStep(links, i, thenArguments, eventType, meta, oracle, trace);
      match oracle(i, payload) {
        case Raised(e) =>
          failure := Some(e);
        case Completed(_) =>
          // the link's result goes to `responseData`, which is never read again
      }
      trace := trace + [ThenCall(payload)];
      i := i + 1;
    }
  }

  /** `executePromiseSaga(trigger, eventType, triggerMeta)`. */
  method ExecutePromiseSaga(trigger: PromiseTrigger, eventType: string, meta: TriggerMeta,
                            join: JoinOutcome, oracle: Oracle)
    returns (trace: seq<Event>, outcome: Outcome)
    requires join.Joined? ==> |join.responses| == |trigger.executor|
    ensures Run(trace, outcome) == PromiseRun(trigger, eventType, meta, join, oracle)
  {
    trace := [];
    var failure: Option<SagaError> := None;
    // try
    match join {
      case JoinRaised(e) =>
        failure := Some(e);
      case Joined(responses) =>
        if trigger.thenLinks.Some? && |trigger.thenLinks.value| > 0 {
          var links := trigger.thenLinks.value;
          var responseData := Placeholder;
          if |responses| == 1 {
            responseData := responses[0];
          }
          var thenArguments := Or(responseData, Placeholder);
          trace, failure := RunThenLinks(links, thenArguments, eventType, meta, oracle);
        }
    }
    assert TryResult(trace, failure) == TryBlock(trigger, eventType, meta, join, oracle);
    // catch
    if failure.Some? {
      var e := failure.value;
      assert PromiseRun(trigger, eventType, meta, join, oracle)
        == HandleFailure(trigger, eventType, meta, oracle, trace, e);
      if e.UserCancelled? {
        // passes on to the finally step
      } else if Given(trigger.catchAction) {
        var responseData := List([Str(e.message)]);
        if e.PluginTriggerFailure? {
          responseData := e.responseData;
        }
        var catchArguments := Or(responseData, Placeholder);
        var payload := MakePayload(trigger.catchAction.value, eventType, catchArguments, meta);
        var position := |trace|;
        trace := trace + [CatchCall(payload)];
        var result := oracle(position, payload);
        if result.Raised? {
          outcome := Threw(result.error);
          return;
        }
      } else {
        trace := trace + [LogError(e)];
        outcome := Threw(UncaughtPromise(e.message, meta, e));
        return;
      }
    }
    // finally
    assert PromiseRun(trigger, eventType, meta, join, oracle) == RunFinally(trigger, eventType, meta, oracle, trace);
    if Given(trigger.finallyAction) {
      var payload := MakePayload(trigger.finallyAction.value, eventType, Placeholder, meta);
      var position := |trace|;
      trace := trace + [FinallyCall(payload)];
      var result := oracle(position, payload);
      if result.Raised? {
        outcome := Threw(result.error);
        return;
      }
    }
    outcome := Returned;
  }

  // ---------------------------------------------------------------------------
  // Properties of a run
  // ---------------------------------------------------------------------------

  /** The payload the k-th `then` link is called with. */
  function LinkPayload(links: seq<string>, k: nat, args: Value, eventType: string, meta: TriggerMeta): Payload
    requires k < |links|
  {
    MakePayload(links[k], eventType, args, meta)
  }

  /**
   * The chain calls the links from the i-th on in declared order, every one with the
   * same arguments, and calls every remaining link when none throws.
   */
  lemma {:induction false} ChainCallsInOrder(links: seq<string>, i: nat, args: Value, eventType: string,
                                             meta: TriggerMeta, oracle: Oracle)
    requires i <= |links|
    ensures var r := ChainFrom(links, i, args, eventType, meta, oracle);
      && |r.calls| <= |links| - i
      && (forall k :: 0 <= k < |r.calls| ==>
            r.calls[k] == ThenCall(LinkPayload(links, i + k, args, eventType, meta)))
      && (r.failure.None? ==> |r.calls| == |links| - i)
    decreases |links| - i
  {
    if i < |links| {
      var payload := LinkPayload(links, i, args, eventType, meta);
      if oracle(i, payload).Completed? {
        ChainCallsInOrder(links, i + 1, args, eventType, meta, oracle);
        var rest := ChainFrom(links, i + 1, args, eventType, meta, oracle);
        var r := ChainFrom(links, i, args, eventType, meta, oracle);
        assert r.calls == [ThenCall(payload)] + rest.calls;
        forall k | 0 < k < |r.calls|
          ensures r.calls[k] == ThenCall(LinkPayload(links, i + k, args, eventType, meta))
        {
          assert r.calls[k] == rest.calls[k - 1];
        }
      }
    }
  }

  /**
   * The chain stops exactly at the first link that throws: it makes only `then` calls,
   * every call but the last completed, and the last one raised the chain's failure or, with no failure,
   * completed as well.
   */
  lemma {:induction false} ChainStopsAtFirstFailure(links: seq<string>, i: nat, args: Value, eventType: string,
                                                    meta: TriggerMeta, oracle: Oracle)
    requires i <= |links|
    ensures var r := ChainFrom(links, i, args, eventType, meta, oracle);
      && (forall k :: 0 <= k < |r.calls| ==> r.calls[k].ThenCall?)
      && (forall k :: 0 <= k < |r.calls| - 1 ==> oracle(i + k, r.calls[k].payload).Completed?)
      && (r.failure.None? && |r.calls| > 0 ==>
            oracle(i + |r.calls| - 1, r.calls[|r.calls| - 1].payload).Completed?)
      && (r.failure.Some? ==>
            (|r.calls| > 0
             && oracle(i + |r.calls| - 1, r.calls[|r.calls| - 1].payload) == Raised(r.failure.value)))
    decreases |links| - i
  {
    if i < |links| {
      var payload := LinkPayload(links, i, args, eventType, meta);
      if oracle(i, payload).Completed? {
        ChainStopsAtFirstFailure(links, i + 1, args, eventType, meta, oracle);
        var rest := ChainFrom(links, i + 1, args, eventType, meta, oracle);
        var r := ChainFrom(links, i, args, eventType, meta, oracle);
        assert r.calls == [ThenCall(payload)] + rest.calls;
        forall k | 0 < k < |r.calls|
          ensures r.calls[k] == rest.calls[k - 1]
          ensures oracle(i + k, r.calls[k].payload) == oracle((i + 1) + (k - 1), rest.calls[k - 1].payload)
        {
        }
      }
    }
  }

  /**
   * The `try` block: a failed join makes no `then` call and hands its error on; with
   * the join done, the calls are a prefix of the declared links in order, each with
   * `ThenArguments(responses)`; an absent or empty `then` makes no call; a failing link
   * is the last call; with no failure every link was called.
   */
  lemma TryBlockShape(trigger: PromiseTrigger, eventType: string, meta: TriggerMeta, join: JoinOutcome,
                      oracle: Oracle)
    ensures var r := TryBlock(trigger, eventType, meta, join, oracle);
      var links := if trigger.thenLinks.Some? then trigger.thenLinks.value else [];
      && (forall k :: 0 <= k < |r.calls| ==> r.calls[k].ThenCall?)
      && (join.JoinRaised? ==> r == TryResult([], Some(join.error)))
      && (join.Joined? ==>
            && |r.calls| <= |links|
            && (forall k :: 0 <= k < |r.calls| ==>
                  r.calls[k] == ThenCall(MakePayload(links[k], eventType, ThenArguments(join.responses), meta)))
            && (forall k :: 0 <= k < |r.calls| - 1 ==> oracle(k, r.calls[k].payload).Completed?)
            && (r.failure.None? ==> |r.calls| == |links|)
            && (r.failure.Some? ==>
                  (|r.calls| > 0
                   && oracle(|r.calls| - 1, r.calls[|r.calls| - 1].payload) == Raised(r.failure.value))))
  {
    if join.Joined? && trigger.thenLinks.Some? && |trigger.thenLinks.value| > 0 {
      ChainCallsInOrder(trigger.thenLinks.value, 0, ThenArguments(join.responses), eventType, meta, oracle);
      ChainStopsAtFirstFailure(trigger.thenLinks.value, 0, ThenArguments(join.responses), eventType, meta, oracle);
    }
  }

  /** A link's result never reaches another link: changing what links return changes no link's arguments. */
  lemma {:induction false} LinkResultsNotThreaded(links: seq<string>, i: nat, args: Value, eventType: string,
                                                  meta: TriggerMeta, oracle: Oracle, other: Oracle)
    requires i <= |links|
    requires forall k: nat, p: Payload :: oracle(k, p).Completed? <==> other(k, p).Completed?
    requires forall k: nat, p: Payload :: oracle(k, p).Raised? ==> oracle(k, p) == other(k, p)
    ensures ChainFrom(links, i, args, eventType, meta, oracle) == ChainFrom(links, i, args, eventType, meta, other)
    decreases |links| - i
  {
    if i < |links| {
      LinkResultsNotThreaded(links, i + 1, args, eventType, meta, oracle, other);
    }
  }

  /** The calls the `try` block makes. */
  function TryCalls(trigger: PromiseTrigger, eventType: string, meta: TriggerMeta, join: JoinOutcome,
                    oracle: Oracle): seq<Event>
  {
    TryBlock(trigger, eventType, meta, join, oracle).calls
  }

  /** Every run's trace starts with the `try` block's calls. */
  lemma RunExtendsTry(trigger: PromiseTrigger, eventType: string, meta: TriggerMeta, join: JoinOutcome,
                      oracle: Oracle)
    ensures var calls := TryCalls(trigger, eventType, meta, join, oracle);
      var run := PromiseRun(trigger, eventType, meta, join, oracle);
      |calls| <= |run.trace| && run.trace[..|calls|] == calls
      && (forall k :: |calls| <= k < |run.trace| ==> !run.trace[k].ThenCall?)
  {
  }

  /**
   * A cancellation, from the join or from a link, calls no `catch` and throws nothing
   * of its own: the run goes on to `finally`, and only a failing `finally` makes it throw.
   */
  lemma CancelledFallsThroughToFinally(trigger: PromiseTrigger, eventType: string, meta: TriggerMeta,
                                       join: JoinOutcome, oracle: Oracle, msg: string)
    requires TryBlock(trigger, eventType, meta, join, oracle).failure == Some(UserCancelled(msg))
    ensures var calls := TryCalls(trigger, eventType, meta, join, oracle);
      var run := PromiseRun(trigger, eventType, meta, join, oracle);
      && run == RunFinally(trigger, eventType, meta, oracle, calls)
      && (forall k :: 0 <= k < |run.trace| ==> !run.trace[k].CatchCall? && !run.trace[k].LogError?)
      && (run.outcome.Threw? ==>
            Given(trigger.finallyAction) && |run.trace| > 0 && run.trace[|run.trace| - 1].FinallyCall?)
  {
    TryBlockShape(trigger, eventType, meta, join, oracle);
  }

  /**
   * A non-cancel error with `catch` present calls `catch` exactly once, right after the
   * `try` block's calls, with `CatchArguments(e)`; the run throws only if that call or
   * `finally` throws.
   */
  lemma CaughtErrorCallsCatchOnce(trigger: PromiseTrigger, eventType: string, meta: TriggerMeta,
                                  join: JoinOutcome, oracle: Oracle, e: SagaError)
    requires TryBlock(trigger, eventType, meta, join, oracle).failure == Some(e)
    requires !e.UserCancelled? && Given(trigger.catchAction)
    ensures var calls := TryCalls(trigger, eventType, meta, join, oracle);
      var run := PromiseRun(trigger, eventType, meta, join, oracle);
      var payload := MakePayload(trigger.catchAction.value, eventType, CatchArguments(e), meta);
      && |run.trace| > |calls|
      && run.trace[|calls|] == CatchCall(payload)
      && (forall k :: 0 <= k < |run.trace| && run.trace[k].CatchCall? ==> k == |calls|)
      && (forall k :: 0 <= k < |run.trace| ==> !run.trace[k].LogError?)
      && (oracle(|calls|, payload).Raised? ==> run.outcome == Threw(oracle(|calls|, payload).error))
      && (oracle(|calls|, payload).Completed? ==>
            run == RunFinally(trigger, eventType, meta, oracle, calls + [CatchCall(payload)]))
  {
    TryBlockShape(trigger, eventType, meta, join, oracle);
  }

  /**
   * A non-cancel error with no `catch` is logged and rethrown as
   * `UncaughtAppsmithPromiseError(e.message, triggerMeta, e)`; `finally` is not called.
   */
  lemma UncaughtErrorSkipsFinally(trigger: PromiseTrigger, eventType: string, meta: TriggerMeta,
                                  join: JoinOutcome, oracle: Oracle, e: SagaError)
    requires TryBlock(trigger, eventType, meta, join, oracle).failure == Some(e)
    requires !e.UserCancelled? && !Given(trigger.catchAction)
    ensures var calls := TryCalls(trigger, eventType, meta, join, oracle);
      var run := PromiseRun(trigger, eventType, meta, join, oracle);
      && run.trace == calls + [LogError(e)]
      && run.outcome == Threw(UncaughtPromise(e.message, meta, e))
      && (forall k :: 0 <= k < |run.trace| ==> !run.trace[k].FinallyCall? && !run.trace[k].CatchCall?)
  {
    TryBlockShape(trigger, eventType, meta, join, oracle);
  }

  /** When the `catch` action itself throws, the run throws that error and `finally` is not called. */
  lemma FailingCatchSkipsFinally(trigger: PromiseTrigger, eventType: string, meta: TriggerMeta,
                                 join: JoinOutcome, oracle: Oracle, e: SagaError)
    requires TryBlock(trigger, eventType, meta, join, oracle).failure == Some(e)
    requires !e.UserCancelled? && Given(trigger.catchAction)
    requires var calls := TryCalls(trigger, eventType, meta, join, oracle);
      oracle(|calls|, MakePayload(trigger.catchAction.value, eventType, CatchArguments(e), meta)).Raised?
    ensures var calls := TryCalls(trigger, eventType, meta, join, oracle);
      var run := PromiseRun(trigger, eventType, meta, join, oracle);
      var payload := MakePayload(trigger.catchAction.value, eventType, CatchArguments(e), meta);
      && run == Run(calls + [CatchCall(payload)], Threw(oracle(|calls|, payload).error))
      && (forall k :: 0 <= k < |run.trace| ==> !run.trace[k].FinallyCall?)
  {
    TryBlockShape(trigger, eventType, meta, join, oracle);
  }

  /** The run reaches the statement after `try`/`catch`: success, cancellation, or a `catch` call that completed. */
  predicate ReachesFinally(trigger: PromiseTrigger, eventType: string, meta: TriggerMeta, join: JoinOutcome,
                           oracle: Oracle)
  {
    var tried := TryBlock(trigger, eventType, meta, join, oracle);
    match tried.failure
    case None => true
    case Some(e) =>
      e.UserCancelled?
      || (Given(trigger.catchAction)
          && oracle(|tried.calls|, MakePayload(trigger.catchAction.value, eventType, CatchArguments(e), meta)).Completed?)
  }

  /**
   * `finally` is called iff it is present and reached; then it is called exactly once,
   * as the last event, with `[{}]`, and the run throws iff that call throws.
   */
  lemma FinallyOnceAndLast(trigger: PromiseTrigger, eventType: string, meta: TriggerMeta,
                           join: JoinOutcome, oracle: Oracle)
    ensures var run := PromiseRun(trigger, eventType, meta, join, oracle);
      && ((exists k :: 0 <= k < |run.trace| && run.trace[k].FinallyCall?)
            <==> Given(trigger.finallyAction) && ReachesFinally(trigger, eventType, meta, join, oracle))
      && (Given(trigger.finallyAction) && ReachesFinally(trigger, eventType, meta, join, oracle) ==>
            var payload := MakePayload(trigger.finallyAction.value, eventType, Placeholder, meta);
            && |run.trace| > 0
            && var last := |run.trace| - 1;
            && run.trace[last] == FinallyCall(payload)
            && (forall k :: 0 <= k < last ==> !run.trace[k].FinallyCall?)
            && (run.outcome.Threw? <==> oracle(last, payload).Raised?))
  {
    TryBlockShape(trigger, eventType, meta, join, oracle);
    var run := PromiseRun(trigger, eventType, meta, join, oracle);
    if Given(trigger.finallyAction) && ReachesFinally(trigger, eventType, meta, join, oracle) {
      assert run.trace[|run.trace| - 1].FinallyCall?;
    }
  }

  /** Every follow-up call of `trace` carries the given `eventType`, `source` and `triggerPropertyName`. */
  predicate CarriesContext(trace: seq<Event>, eventType: string, meta: TriggerMeta) {
    forall k :: 0 <= k < |trace| && !trace[k].LogError? ==>
      && trace[k].payload.eventType == eventType
      && trace[k].payload.source == meta.source
      && trace[k].payload.triggerPropertyName == meta.triggerPropertyName
  }

  /** The `finally` step keeps the context of the trace it extends. */
  lemma FinallyKeepsContext(trigger: PromiseTrigger, eventType: string, meta: TriggerMeta, oracle: Oracle,
                            trace: seq<Event>)
    requires CarriesContext(trace, eventType, meta)
    ensures CarriesContext(RunFinally(trigger, eventType, meta, oracle, trace).trace, eventType, meta)
  {
  }

  /** Every follow-up call carries the run's `eventType`, `source` and `triggerPropertyName`. */
  lemma SameContextEverywhere(trigger: PromiseTrigger, eventType: string, meta: TriggerMeta,
                              join: JoinOutcome, oracle: Oracle)
    ensures CarriesContext(PromiseRun(trigger, eventType, meta, join, oracle).trace, eventType, meta)
  {
    TryBlockShape(trigger, eventType, meta, join, oracle);
    var tried := TryBlock(trigger, eventType, meta, join, oracle);
    assert CarriesContext(tried.calls, eventType, meta);
    match tried.failure {
      case None =>
        FinallyKeepsContext(trigger, eventType, meta, oracle, tried.calls);
      case Some(e) =>
        if e.UserCancelled? {
          FinallyKeepsContext(trigger, eventType, meta, oracle, tried.calls);
        } else if Given(trigger.catchAction) {
          var payload := MakePayload(trigger.catchAction.value, eventType, CatchArguments(e), meta);
          var t := tried.calls + [CatchCall(payload)];
          assert CarriesContext(t, eventType, meta);
          FinallyKeepsContext(trigger, eventType, meta, oracle, t);
        }
    }
  }

  /**
   * A run that does not reach `finally` (a non-cancel error with no `catch`, or a
   * `catch` call that throws) always throws; a run that reaches it with no `finally`
   * present returns.
   */
  lemma ThrowsUnlessFinallyReached(trigger: PromiseTrigger, eventType: string, meta: TriggerMeta,
                                   join: JoinOutcome, oracle: Oracle)
    ensures var run := PromiseRun(trigger, eventType, meta, join, oracle);
      && (!ReachesFinally(trigger, eventType, meta, join, oracle) ==> run.outcome.Threw?)
      && (ReachesFinally(trigger, eventType, meta, join, oracle) && !Given(trigger.finallyAction) ==>
            run.outcome == Returned)
  {
  }

  /**
   * `catch` is called only on the failure path: a `catch` call is in the trace iff the
   * `try` block failed with an error other than a cancellation and `catch` is present.
   */
  lemma CatchCalledIff(trigger: PromiseTrigger, eventType: string, meta: TriggerMeta,
                       join: JoinOutcome, oracle: Oracle)
    ensures var tried := TryBlock(trigger, eventType, meta, join, oracle);
      var run := PromiseRun(trigger, eventType, meta, join, oracle);
      ((exists k :: 0 <= k < |run.trace| && run.trace[k].CatchCall?)
         <==> tried.failure.Some? && !tried.failure.value.UserCancelled? && Given(trigger.catchAction))
  {
    TryBlockShape(trigger, eventType, meta, join, oracle);
    var tried := TryBlock(trigger, eventType, meta, join, oracle);
    if tried.failure.Some? && !tried.failure.value.UserCancelled? && Given(trigger.catchAction) {
      CaughtErrorCallsCatchOnce(trigger, eventType, meta, join, oracle, tried.failure.value);
    }
  }

  /**
   * The error is logged only when it is not caught: a log entry is in the trace iff the
   * `try` block failed with an error other than a cancellation and `catch` is absent.
   */
  lemma LoggedIff(trigger: PromiseTrigger, eventType: string, meta: TriggerMeta,
                  join: JoinOutcome, oracle: Oracle)
    ensures var tried := TryBlock(trigger, eventType, meta, join, oracle);
      var run := PromiseRun(trigger, eventType, meta, join, oracle);
      ((exists k :: 0 <= k < |run.trace| && run.trace[k].LogError?)
         <==> tried.failure.Some? && !tried.failure.value.UserCancelled? && !Given(trigger.catchAction))
  {
    TryBlockShape(trigger, eventType, meta, join, oracle);
    var tried := TryBlock(trigger, eventType, meta, join, oracle);
    if tried.failure.Some? && !tried.failure.value.UserCancelled? && !Given(trigger.catchAction) {
      UncaughtErrorSkipsFinally(trigger, eventType, meta, join, oracle, tried.failure.value);
      assert PromiseRun(trigger, eventType, meta, join, oracle).trace[|tried.calls|].LogError?;
    }
  }
}
