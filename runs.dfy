/** Sequences of stimuli delivered to the service one at a time, as its
    single main thread delivers them, and what holds over every such run. */
module BleRuns {
  import opened BleTypes
  import opened BleLifecycle

  /** One stimulus. Handlers that query the adapter carry what it reports. */
  datatype Event =
    | StartCommand(filterExtra: Option<seq<ScanFilter>>, radio: Radio)  // onStartCommand
    | RadioStateChanged(stateExtra: Option<int>, radio: Radio)         // ACTION_STATE_CHANGED broadcast
    | TimerElapsed(radio: Radio)                                       // the restart handler's delay runs out
    | SingleResult(callbackType: int, result: ScanResult)              // onScanResult
    | BatchResults(results: seq<ScanResult>)                           // onBatchScanResults
    | ScanFailed(errorCode: int)                                       // onScanFailed
    | Destroy                                                          // onDestroy

  /** One handler run to completion. The handler runs the restart runnable
      only when one is posted; a failed scan and a batch of results are only
      logged by the service, so they change nothing here. */
  function Step(s: State, e: Event): (t: State)
    ensures e.SingleResult? ==> t == ScanResultStep(s, e.result)
    ensures e.BatchResults? || e.ScanFailed? ==> t == s
    ensures e.Destroy? ==> t == StopScanStep(s)
    ensures e.TimerElapsed? && s.pending == [] ==> t == s
    ensures !e.StartCommand? ==> t.requested == s.requested && t.filters == s.filters
    ensures s.requested ==> t.requested
    ensures s.scannerObtained ==> t.scannerObtained
    ensures s.log <= t.log
    ensures !e.SingleResult? ==> forall i :: |s.log| <= i < |t.log| ==> !t.log[i].Forward?
  {
    match e
    case StartCommand(extra, radio) => StartCommandStep(s, extra, radio)
    case RadioStateChanged(extra, radio) => ReceiveStep(s, extra, radio)
    case TimerElapsed(radio) => if s.pending == [] then s else RestartStep(s, radio)
    case SingleResult(_, result) => ScanResultStep(s, result)
    case BatchResults(_) => s
    case ScanFailed(_) => s
    case Destroy => StopScanStep(s)
  }

  /** The state after handling `es` in order, starting from `s`. */
  function Run(s: State, es: seq<Event>): State
    decreases |es|
  {
    if es == [] then s else Run(Step(s, es[0]), es[1..])
  }

  /** The results forwarded in a log, in order. */
  function Forwarded(log: seq<Action>): seq<ScanResult>
    decreases |log|
  {
    if log == [] then []
    else (if log[0].Forward? then [log[0].result] else []) + Forwarded(log[1..])
  }

  /** The results carried by single-result callbacks, in order. */
  function SingleResults(es: seq<Event>): seq<ScanResult>
    decreases |es|
  {
    if es == [] then []
    else (if es[0].SingleResult? then [es[0].result] else []) + SingleResults(es[1..])
  }

  /** No stimulus is an onStartCommand. */
  predicate NoStartCommand(es: seq<Event>) {
    forall i :: 0 <= i < |es| ==> !es[i].StartCommand?
  }

  lemma {:induction false} ForwardedAppend(a: seq<Action>, b: seq<Action>)
    ensures Forwarded(a + b) == Forwarded(a) + Forwarded(b)
    decreases |a|
  {
    if a == [] {
      assert a + b == b;
    } else {
      assert (a + b)[1..] == a[1..] + b;
      ForwardedAppend(a[1..], b);
    }
  }

  lemma {:induction false} SingleResultsCons(e: Event, es: seq<Event>)
    ensures SingleResults([e] + es) == (if e.SingleResult? then [e.result] else []) + SingleResults(es)
  {
    assert ([e] + es)[1..] == es;
  }

  lemma {:induction false} ForwardedNone(d: seq<Action>)
    requires forall i :: 0 <= i < |d| ==> !d[i].Forward?
    ensures Forwarded(d) == []
    decreases |d|
  {
    if d != [] {
      ForwardedNone(d[1..]);
    }
  }

  /** Only the scan-result handler forwards anything, and it forwards its
      result exactly once. */
  lemma StepForwards(s: State, e: Event)
    ensures Forwarded(Step(s, e).log) == Forwarded(s.log) + (if e.SingleResult? then [e.result] else [])
  {
    var t := Step(s, e);
    var tail := t.log[|s.log|..];
    assert t.log == s.log + tail;
    ForwardedAppend(s.log, tail);
    if e.SingleResult? {
      assert tail == [Forward(e.result)];
    } else {
      ForwardedNone(tail);
    }
  }

  /** The outbound log is append-only: a run only ever adds to it. */
  lemma {:induction false} RunExtendsLog(s: State, es: seq<Event>)
    ensures s.log <= Run(s, es).log
    decreases |es|
  {
    if es != [] {
      RunExtendsLog(Step(s, es[0]), es[1..]);
    }
  }

  /** Every single scan result is forwarded exactly once, unchanged and in
      order, and nothing else is ever forwarded: batched results never are. */
  lemma {:induction false} RunForwardsSingleResults(s: State, es: seq<Event>)
    ensures Forwarded(Run(s, es).log) == Forwarded(s.log) + SingleResults(es)
    decreases |es|
  {
    if es != [] {
      var s1 := Step(s, es[0]);
      StepForwards(s, es[0]);
      RunForwardsSingleResults(s1, es[1..]);
      SingleResultsCons(es[0], es[1..]);
      assert [es[0]] + es[1..] == es;
    }
  }

  /** Once a scan has been requested it stays requested: no handler ever
      clears the flag. */
  lemma {:induction false} RunKeepsRequest(s: State, es: seq<Event>)
    requires s.requested
    ensures Run(s, es).requested
    decreases |es|
  {
    if es != [] {
      RunKeepsRequest(Step(s, es[0]), es[1..]);
    }
  }

  /** stopScan never drops the scanner handle: once obtained it is kept. */
  lemma {:induction false} RunKeepsScanner(s: State, es: seq<Event>)
    requires s.scannerObtained
    ensures Run(s, es).scannerObtained
    decreases |es|
  {
    if es != [] {
      RunKeepsScanner(Step(s, es[0]), es[1..]);
    }
  }

  /** Without a new onStartCommand the request flag and the filter list
      stay exactly as they were. */
  lemma {:induction false} RunKeepsFilters(s: State, es: seq<Event>)
    requires NoStartCommand(es)
    ensures Run(s, es).filters == s.filters && Run(s, es).requested == s.requested
    decreases |es|
  {
    if es != [] {
      assert !es[0].StartCommand?;
      RunKeepsFilters(Step(s, es[0]), es[1..]);
    }
  }

  /** No restart callback is ever duplicated: from a state whose timer is
      idle or holds one 29-minute callback, every run keeps it that way. */
  lemma {:induction false} RunKeepsRestartTimer(s: State, es: seq<Event>)
    requires RestartTimerOk(s)
    ensures RestartTimerOk(Run(s, es))
    decreases |es|
  {
    if es != [] {
      RunKeepsRestartTimer(Step(s, es[0]), es[1..]);
    }
  }

  /** No scan is ever started unless one was requested: from a state with no
      request, a run without onStartCommand issues no scanner start. */
  lemma {:induction false} RunWithoutRequestStartsNothing(s: State, es: seq<Event>)
    requires !s.requested && NoStartCommand(es)
    ensures |s.log| <= |Run(s, es).log|
    ensures forall i :: |s.log| <= i < |Run(s, es).log| ==> !Run(s, es).log[i].StartScan?
    decreases |es|
  {
    if es != [] {
      var s1 := Step(s, es[0]);
      assert !es[0].StartCommand?;
      assert forall i :: |s.log| <= i < |s1.log| ==> !s1.log[i].StartScan?;
      RunWithoutRequestStartsNothing(s1, es[1..]);
      RunExtendsLog(s1, es[1..]);
      var t := Run(s1, es[1..]);
      forall i | |s.log| <= i < |t.log|
        ensures !t.log[i].StartScan?
      {
        if i < |s1.log| {
          assert t.log[i] == s1.log[i];
        }
      }
    }
  }

  /** A radio OFF then ON, with no new onStartCommand, resumes scanning with
      the filters the service already held. */
  lemma OffThenOnResumes(s: State, off: Radio, on: Radio)
    requires s.requested && on.present && on.enabled
    ensures var t := Run(s, [RadioStateChanged(Some(STATE_OFF), off), RadioStateChanged(Some(STATE_ON), on)]);
      t.log == s.log + (if s.scannerObtained then [StopScan] else []) +
               [StartScan(s.filters, ChooseSettings(on.batchingSupported))] &&
      t.pending == [SCAN_PERIODIC_RESTART_PERIOD] && t.requested && t.filters == s.filters
  {
    var es := [RadioStateChanged(Some(STATE_OFF), off), RadioStateChanged(Some(STATE_ON), on)];
    var s1 := Step(s, es[0]);
    assert s1 == StopScanStep(s);
    assert es[1..][1..] == [];
    assert Run(s, es) == Run(s1, es[1..]) == Step(s1, es[1]);
  }

  /** A second STATE_ON while a scan is already running starts another scan
      with no stop in between: nothing guards against a duplicate event. */
  lemma DuplicateOnStartsTwice(s: State, on: Radio)
    requires s.requested && on.present && on.enabled
    ensures var start := StartScan(s.filters, ChooseSettings(on.batchingSupported));
      Run(s, [RadioStateChanged(Some(STATE_ON), on), RadioStateChanged(Some(STATE_ON), on)]).log ==
      s.log + [start, start]
  {
    var es := [RadioStateChanged(Some(STATE_ON), on), RadioStateChanged(Some(STATE_ON), on)];
    var s1 := Step(s, es[0]);
    assert es[1..][1..] == [];
    assert Run(s, es) == Run(s1, es[1..]) == Step(s1, es[1]);
  }

  /** From a fresh service with the radio off: onStartCommand only asks for
      the radio; the ON broadcast starts one scan with the delivered filters;
      a result is forwarded unchanged; onDestroy stops the scan and leaves no
      restart pending. */
  lemma EndToEnd(a: ScanFilter, b: ScanFilter, adv: ScanResult, off: Radio, on: Radio)
    requires off.present && !off.enabled && on.present && on.enabled
    ensures var t := Run(Initial(), [StartCommand(Some([a, b]), off), RadioStateChanged(Some(STATE_ON), on),
                                     SingleResult(1, adv), Destroy]);
      t.log == [EnableRadio, StartScan(Some([a, b]), ChooseSettings(on.batchingSupported)), Forward(adv), StopScan] &&
      t.pending == [] && t.requested && t.filters == Some([a, b])
  {
    var es := [StartCommand(Some([a, b]), off), RadioStateChanged(Some(STATE_ON), on), SingleResult(1, adv), Destroy];
    var s1 := Step(Initial(), es[0]);
    var s2 := Step(s1, es[1]);
    var s3 := Step(s2, es[2]);
    var s4 := Step(s3, es[3]);
    assert s1.log == [EnableRadio];
    assert es[1..][1..][1..][1..] == [];
    assert Run(Initial(), es) == Run(s1, es[1..]) == Run(s2, es[1..][1..]) == Run(s3, es[1..][1..][1..]) == s4;
  }

  /** A second onStartCommand while a scan is running starts another scan
      with the newly delivered filters, with no stop before it. */
  lemma RepeatedStartCommandStartsTwice(s: State, f1: Option<seq<ScanFilter>>, f2: Option<seq<ScanFilter>>, on: Radio)
    requires on.present && on.enabled
    ensures var settings := ChooseSettings(on.batchingSupported);
      var t := Run(s, [StartCommand(f1, on), StartCommand(f2, on)]);
      t.log == s.log + [StartScan(f1, settings), StartScan(f2, settings)] &&
      t.filters == f2 && t.pending == [SCAN_PERIODIC_RESTART_PERIOD]
  {
    var es := [StartCommand(f1, on), StartCommand(f2, on)];
    var s1 := Step(s, es[0]);
    assert es[1..][1..] == [];
    assert Run(s, es) == Run(s1, es[1..]) == Step(s1, es[1]);
  }

  /** The intermediate power states TURNING_ON and TURNING_OFF change nothing. */
  lemma TurningStatesIgnored(s: State, radio: Radio, state: int)
    requires state == STATE_TURNING_ON || state == STATE_TURNING_OFF
    ensures Step(s, RadioStateChanged(Some(state), radio)) == s
  {
  }
}
