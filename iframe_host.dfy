/** The host side of `DNSLeakIframeService` (src/services/dnsLeakIframeService.ts): the static
    fields that make the test single-flight, and the events that drive them. Each run is
    numbered; the iframe, the message handler and the 15 s timer a run creates carry its
    number. A handler runs to completion, and the promise's `finally` (a microtask) runs
    before the next event, so each event below is one atomic step. */
module IframeHost {
  import opened Js
  import opened DnsTypes

  /** A run of the test; it also names the iframe, the message handler and the timer the run
      created. */
  type RunId = nat

  /** The identity of a callback function passed by a caller. */
  type CallbackId = nat

  datatype Failure = LoadFailed | TimedOut

  /** How a run's promise settled. */
  datatype Outcome = Resolved(result: LeakTestResult) | Rejected(reason: Failure)

  function Copies<T>(x: T, n: nat): (r: seq<T>)
    ensures |r| == n && forall i :: 0 <= i < n ==> r[i] == x
  {
    seq(n, _ => x)
  }

  function AsSet(o: Option<RunId>): set<RunId> {
    match o
    case Some(r) => {r}
    case None => {}
  }

  /** The service as written: the 15 s timer of a run is never cleared. */
  class Host {
    var iframe: Option<RunId>
    var testPromise: Option<RunId>
    var resolveTest: Option<RunId>
    var rejectTest: Option<RunId>
    var onServerDetected: Option<CallbackId>
    /** iframes in the document */
    var attached: set<RunId>
    /** message handlers registered on the window */
    var listeners: set<RunId>
    /** 15 s timers not yet fired */
    var timers: set<RunId>
    /** settled promises */
    var outcomes: map<RunId, Outcome>
    /** every invocation of a caller's callback, in order */
    var calls: seq<(CallbackId, DnsServer)>
    var nextRun: RunId

    ghost predicate Valid()
      reads this
    {
      && attached == AsSet(iframe)
      && iframe == testPromise && resolveTest == testPromise && rejectTest == testPromise
      && (testPromise.None? ==> onServerDetected.None?)
      && (testPromise.Some? ==> testPromise.value in listeners && testPromise.value in timers
                                && testPromise.value !in outcomes && testPromise.value < nextRun)
      && (forall r :: r in listeners ==> r < nextRun)
      && (forall r :: r in timers ==> r < nextRun)
      && (forall r :: r in outcomes ==> r < nextRun)
    }

    constructor ()
      ensures Valid()
      ensures testPromise.None? && listeners == {} && timers == {} && outcomes == map[] && calls == [] && nextRun == 0
    {
      iframe, testPromise, resolveTest, rejectTest, onServerDetected := None, None, None, None, None;
      attached, listeners, timers, outcomes, calls, nextRun := {}, {}, {}, map[], [], 0;
    }

    /** `cleanup()`: removes the iframe if there is one, then forgets it; a second call
        changes nothing. */
    method Cleanup()
      modifies this
      ensures iframe.None? && attached == old(attached) - AsSet(old(iframe))
      ensures testPromise == old(testPromise) && resolveTest == old(resolveTest) && rejectTest == old(rejectTest)
      ensures onServerDetected == old(onServerDetected) && listeners == old(listeners) && timers == old(timers)
      ensures outcomes == old(outcomes) && calls == old(calls) && nextRun == old(nextRun)
    {
      if iframe.Some? {
        attached := attached - {iframe.value};
        iframe := None;
      }
    }

    /** The promise's `finally`: clears the four handles. */
    method Finally()
      modifies this
      ensures testPromise.None? && resolveTest.None? && rejectTest.None? && onServerDetected.None?
      ensures iframe == old(iframe) && attached == old(attached) && listeners == old(listeners) && timers == old(timers)
      ensures outcomes == old(outcomes) && calls == old(calls) && nextRun == old(nextRun)
    {
      testPromise, resolveTest, rejectTest, onServerDetected := None, None, None, None;
    }

    /** `performDNSLeakTest(userIP, onServerDetected)`: while a run is in flight, returns it and
        changes nothing; otherwise starts a new run with its iframe, handler and timer. */
    method Start(callback: Option<CallbackId>) returns (run: RunId)
      requires Valid()
      modifies this
      ensures Valid()
      ensures old(testPromise).Some? ==> run == old(testPromise).value && unchanged(this)
      ensures old(testPromise).None? ==>
        && run == old(nextRun) && nextRun == run + 1
        && testPromise == Some(run) && iframe == Some(run) && attached == {run}
        && onServerDetected == callback
        && listeners == old(listeners) + {run} && timers == old(timers) + {run}
        && outcomes == old(outcomes) && calls == old(calls)
    {
      if testPromise.Some? {
        return testPromise.value;
      }
      run := nextRun;
      onServerDetected, nextRun, testPromise, resolveTest, rejectTest, iframe, attached, listeners, timers :=
        callback, nextRun + 1, Some(run), Some(run), Some(run), Some(run), attached + {run}, listeners + {run}, timers + {run};
    }

    /** A DNS_SERVER_DETECTED message from the live page: every registered handler passes the
        server to the current callback, if there is one. */
    method ServerDetectedMessage(server: DnsServer)
      requires Valid() && iframe.Some?
      modifies this
      ensures Valid()
      ensures calls == old(calls) + (if onServerDetected.Some? then Copies((onServerDetected.value, server), |listeners|) else [])
      ensures iframe == old(iframe) && testPromise == old(testPromise) && onServerDetected == old(onServerDetected)
      ensures attached == old(attached) && listeners == old(listeners) && timers == old(timers) && outcomes == old(outcomes)
      ensures nextRun == old(nextRun)
    {
      if onServerDetected.Some? {
        calls := calls + Copies((onServerDetected.value, server), |listeners|);
      }
    }

    /** A DNS_TEST_COMPLETED message from the live page: every handler removes itself and
        cleans up; the first one resolves the current run, whose `finally` clears the handles. */
    method TestCompletedMessage(result: LeakTestResult)
      requires Valid() && iframe.Some?
      modifies this
      ensures Valid()
      ensures outcomes == old(outcomes)[old(testPromise).value := Resolved(result)]
      ensures listeners == {} && iframe.None? && attached == {} && testPromise.None?
      ensures timers == old(timers) && calls == old(calls) && nextRun == old(nextRun)
    {
      var run := testPromise.value;
      listeners := {};
      Cleanup();
      outcomes := outcomes[run := Resolved(result)];
      Finally();
    }

    /** The iframe's `onerror`: its run's handler is removed, the iframe cleaned up and the
        current run rejected. */
    method LoadError()
      requires Valid() && iframe.Some?
      modifies this
      ensures Valid()
      ensures outcomes == old(outcomes)[old(testPromise).value := Rejected(LoadFailed)]
      ensures listeners == old(listeners) - {old(iframe).value} && iframe.None? && attached == {} && testPromise.None?
      ensures timers == old(timers) && calls == old(calls) && nextRun == old(nextRun)
    {
      var run := testPromise.value;
      listeners := listeners - {run};
      Cleanup();
      outcomes := outcomes[run := Rejected(LoadFailed)];
      Finally();
    }

    /** The 15 s timer of `run` fires: it removes that run's handler, cleans up whatever
        iframe is current and rejects whatever run is current, which need not be `run`. */
    method Timeout(run: RunId)
      requires Valid() && run in timers
      modifies this
      ensures Valid()
      ensures timers == old(timers) - {run} && listeners == old(listeners) - {run}
      ensures iframe.None? && attached == {} && testPromise.None?
      ensures outcomes == if old(rejectTest).Some? then old(outcomes)[old(rejectTest).value := Rejected(TimedOut)] else old(outcomes)
      ensures calls == old(calls) && nextRun == old(nextRun)
    {
      timers := timers - {run};
      listeners := listeners - {run};
      Cleanup();
      if rejectTest.Some? {
        outcomes := outcomes[rejectTest.value := Rejected(TimedOut)];
      }
      Finally();
    }
  }

  /** Run 0 completes in time and run 1 starts before run 0's timer fires: that timer then
      removes run 1's iframe and rejects run 1 with a timeout, and run 1's handler stays
      registered with no run left to remove it. */
  method StaleTimerScenario(result: LeakTestResult) returns (h: Host)
    ensures h.outcomes == map[0 := Resolved(result), 1 := Rejected(TimedOut)]
    ensures h.listeners == {1} && h.timers == {1} && h.testPromise.None?
    ensures fresh(h) && h.Valid() && h.calls == [] && h.nextRun == 2
  {
    h := new Host();
    var first := h.Start(None);
    h.TestCompletedMessage(result);
    var second := h.Start(None);
    h.Timeout(first);
  }

  /** After the scenario above, a third run's callback receives every detected server twice,
      once from its own handler and once from run 1's leftover one. */
  method DuplicateCallbackScenario(result: LeakTestResult, callback: CallbackId, server: DnsServer) returns (h: Host)
    ensures h.calls == [(callback, server), (callback, server)]
  {
    h := StaleTimerScenario(result);
    var third := h.Start(Some(callback));
    assert h.listeners == {1, 2} && |h.listeners| == 2;
    h.ServerDetectedMessage(server);
  }

  /** The service with the timer of a run cleared when that run settles (`clearTimeout` next
      to the other clean-up in `finally`). */
  class GuardedHost {
    var iframe: Option<RunId>
    var testPromise: Option<RunId>
    var resolveTest: Option<RunId>
    var rejectTest: Option<RunId>
    var onServerDetected: Option<CallbackId>
    var attached: set<RunId>
    var listeners: set<RunId>
    var timers: set<RunId>
    var outcomes: map<RunId, Outcome>
    var calls: seq<(CallbackId, DnsServer)>
    var nextRun: RunId

    /** Nothing of a run outlives it: the iframe, the handler and the timer exist exactly
        while their run is in flight. */
    ghost predicate Valid()
      reads this
    {
      && attached == AsSet(iframe)
      && iframe == testPromise && resolveTest == testPromise && rejectTest == testPromise
      && (testPromise.None? ==> onServerDetected.None?)
      && listeners == AsSet(testPromise) && timers == AsSet(testPromise)
      && (testPromise.Some? ==> testPromise.value !in outcomes && testPromise.value < nextRun)
      && (forall r :: r in outcomes ==> r < nextRun)
    }

    constructor ()
      ensures Valid()
      ensures testPromise.None? && outcomes == map[] && calls == [] && nextRun == 0
    {
      iframe, testPromise, resolveTest, rejectTest, onServerDetected := None, None, None, None, None;
      attached, listeners, timers, outcomes, calls, nextRun := {}, {}, {}, map[], [], 0;
    }

    method Cleanup()
      modifies this
      ensures iframe.None? && attached == old(attached) - AsSet(old(iframe))
      ensures testPromise == old(testPromise) && resolveTest == old(resolveTest) && rejectTest == old(rejectTest)
      ensures onServerDetected == old(onServerDetected) && listeners == old(listeners) && timers == old(timers)
      ensures outcomes == old(outcomes) && calls == old(calls) && nextRun == old(nextRun)
    {
      if iframe.Some? {
        attached := attached - {iframe.value};
        iframe := None;
      }
    }

    /** `finally`, now also clearing the settled run's timer. */
    method Finally()
      modifies this
      ensures testPromise.None? && resolveTest.None? && rejectTest.None? && onServerDetected.None?
      ensures timers == old(timers) - AsSet(old(testPromise))
      ensures iframe == old(iframe) && attached == old(attached) && listeners == old(listeners)
      ensures outcomes == old(outcomes) && calls == old(calls) && nextRun == old(nextRun)
    {
      timers := timers - AsSet(testPromise);
      testPromise, resolveTest, rejectTest, onServerDetected := None, None, None, None;
    }

    method Start(callback: Option<CallbackId>) returns (run: RunId)
      requires Valid()
      modifies this
      ensures Valid()
      ensures old(testPromise).Some? ==> run == old(testPromise).value && unchanged(this)
      ensures old(testPromise).None? ==>
        && run == old(nextRun) && nextRun == run + 1
        && testPromise == Some(run) && onServerDetected == callback
        && outcomes == old(outcomes) && calls == old(calls)
    {
      if testPromise.Some? {
        return testPromise.value;
      }
      run := nextRun;
      onServerDetected, nextRun, testPromise, resolveTest, rejectTest, iframe, attached, listeners, timers :=
        callback, nextRun + 1, Some(run), Some(run), Some(run), Some(run), attached + {run}, listeners + {run}, timers + {run};
    }

    /** The callback now receives each detected server exactly once. */
    method ServerDetectedMessage(server: DnsServer)
      requires Valid() && iframe.Some?
      modifies this
      ensures Valid()
      ensures calls == old(calls) + (if onServerDetected.Some? then [(onServerDetected.value, server)] else [])
      ensures testPromise == old(testPromise) && onServerDetected == old(onServerDetected)
      ensures outcomes == old(outcomes) && nextRun == old(nextRun)
    {
      if onServerDetected.Some? {
        assert |listeners| == 1;
        calls := calls + Copies((onServerDetected.value, server), |listeners|);
      }
    }

    method TestCompletedMessage(result: LeakTestResult)
      requires Valid() && iframe.Some?
      modifies this
      ensures Valid()
      ensures outcomes == old(outcomes)[old(testPromise).value := Resolved(result)]
      ensures testPromise.None? && calls == old(calls) && nextRun == old(nextRun)
    {
      var run := testPromise.value;
      listeners := {};
      Cleanup();
      outcomes := outcomes[run := Resolved(result)];
      Finally();
    }

    method LoadError()
      requires Valid() && iframe.Some?
      modifies this
      ensures Valid()
      ensures outcomes == old(outcomes)[old(testPromise).value := Rejected(LoadFailed)]
      ensures testPromise.None? && calls == old(calls) && nextRun == old(nextRun)
    {
      var run := testPromise.value;
      listeners := listeners - {run};
      Cleanup();
      outcomes := outcomes[run := Rejected(LoadFailed)];
      Finally();
    }

    /** A timer that fires belongs to the run in flight, and it rejects that run and no other. */
    method Timeout(run: RunId)
      requires Valid() && run in timers
      modifies this
      ensures Valid()
      ensures old(testPromise) == Some(run)
      ensures outcomes == old(outcomes)[run := Rejected(TimedOut)]
      ensures testPromise.None? && calls == old(calls) && nextRun == old(nextRun)
    {
      listeners := listeners - {run};
      Cleanup();
      outcomes := outcomes[rejectTest.value := Rejected(TimedOut)];
      Finally();
    }
  }

  /** The scenario that exposed the stale timer, on the corrected host: run 1 is still in
      flight after run 0 completed, and no timer of run 0 is left to fire. */
  method GuardedScenario(result: LeakTestResult) returns (h: GuardedHost)
    ensures h.outcomes == map[0 := Resolved(result)]
    ensures h.testPromise == Some(1) && h.timers == {1} && h.listeners == {1}
  {
    h := new GuardedHost();
    var first := h.Start(None);
    h.TestCompletedMessage(result);
    var second := h.Start(None);
  }
}
