# BLE scan service: a verified model of the scan lifecycle

ThingsHub's `BleScanService` is an Android background service that scans for
Bluetooth Low Energy advertisements from a fixed set of sensor devices and
re-broadcasts every advertisement delivered to it as a single scan
result. Its scan lifecycle is modelled here:

- `onStartCommand` records the filter list delivered in the intent and marks a
  scan as requested. It then starts a scan if the radio is on, or asks the
  adapter to enable the radio if it is off.
- `startScan` is guarded: it needs an adapter, the radio on, and a request. It
  picks scan settings from the adapter's batching capability, starts the scan,
  and re-arms a single 29-minute restart callback.
- `stopScan` stops the scanner, if one was ever obtained, and cancels the
  restart callback.
- The restart runnable does `stopScan` and then `startScan`.
- The Bluetooth state receiver maps STATE_ON to `startScan` and STATE_OFF to
  `stopScan`. A broadcast with no state reads as OFF. Every other state is
  ignored.
- The scan callback forwards each single result unchanged. It drops batch
  results and scan failures.

Files:

- `types.dfy` (module `BleTypes`) holds the values: scan filters, scan
  results, scan settings, the adapter snapshot `Radio(present, enabled,
  batchingSupported)`, and the outbound `Action`s (`StartScan(filters,
  settings)`, `StopScan`, `EnableRadio`, `Forward(result)`). It also holds the
  constants: the 29-minute restart period, the 1000 ms report delay and the
  adapter power states.
- `lifecycle.dfy` (module `BleLifecycle`) has one pure transition on the
  `State` value per handler.
- `runs.dfy` (module `BleRuns`) holds the event type, `Step`, and `Run`, which
  applies events one at a time the way the service's main thread delivers
  them. It also holds the lemmas that hold over every run.
- `service.dfy` (module `BleService`) holds the class `BleScanService`. Its
  fields are the source's fields. Its methods update them in place, and each
  method's `ensures` ties the new state to the transition function.

The service's fields map to the model like this:

- `isScanRequested` and `scanFilterList` are kept as they are.
- `mBluetoothLeScanner != null` becomes `scannerObtained`.
- The restart handler's queue becomes `pendingRestarts`, the delays of the
  posted restart callbacks. `removeCallbacks` empties it and `postDelayed`
  appends to it.
- Every call to the scanner, the adapter or the broadcast channel becomes an
  entry in the append-only `log`.

The code is modelled as written:

- Nothing clears `isScanRequested`.
- `stopScan` never drops the scanner handle.
- A duplicate STATE_ON starts a second scan with no stop in between
  (`DuplicateOnStartsTwice`).
- A repeated `onStartCommand` while scanning starts a second scan with the new
  filters, with no stop first (`RepeatedStartCommandStartsTwice`).
- Batch results are never forwarded. When the adapter supports batching, the
  settings ask for a report delay of 1000 ms, and the scanner then delivers its
  results as batches. This means nothing is forwarded on such an adapter.
- The intended design of this component includes a stop request that clears
  the request flag, a guard against a duplicate radio-on event, a session
  generation counter, and flattening of batched results. The code has none of
  these, and the model follows the code.

## Model

| member | source | states |
|---|---|---|
| BleLifecycle.Initial | things/src/main/java/se/berg/thomas/thingshub/BleScanService.java:27-31 | a fresh service has no request, an empty filter list, no scanner, no pending restart and an empty log; the restart-timer invariant holds |
| BleLifecycle.ChooseSettings | things/src/main/java/se/berg/thomas/thingshub/BleScanService.java:89-105 | both choices use ALL_MATCHES, AGGRESSIVE and LOW_LATENCY; the report delay is positive, and a match count is set, exactly when batching is supported; the batched choice uses delay 1000 and one match per advertisement |
| BleLifecycle.StartScanStep | things/src/main/java/se/berg/thomas/thingshub/BleScanService.java:79-121 | without an adapter, with the radio off, or with no request, nothing changes (timer and log included); otherwise exactly one start with the current filters and the capability-chosen settings is logged, the scanner is obtained and exactly one 29-minute restart is pending whatever was pending before; request and filters never change; the timer invariant is kept |
| BleLifecycle.StopScanStep | things/src/main/java/se/berg/thomas/thingshub/BleScanService.java:123-133 | no restart is left pending; a scanner stop is logged exactly when a scanner was ever obtained; request flag, filters and scanner handle stay as they were |
| BleLifecycle.StartCommandStep | things/src/main/java/se/berg/thomas/thingshub/BleScanService.java:51-70 | the delivered filters replace the old list and a scan is requested; with the radio on, exactly one start with those filters is logged and one restart is pending; with the radio off, exactly one enable request is logged and the timer is untouched; with no adapter nothing is logged |
| BleLifecycle.StartCommandOutcome | things/src/main/java/se/berg/thomas/thingshub/BleScanService.java:61-69 | the handler faults exactly when there is no adapter and otherwise returns START_REDELIVER_INTENT |
| BleLifecycle.RestartStep | things/src/main/java/se/berg/thomas/thingshub/BleScanService.java:136-143 | the restart is a stop (when a scanner exists) followed, when the guard holds, by one start with the same unchanged filters, after which exactly one restart is pending; when the guard fails the timer ends idle; the scanner handle is obtained exactly if it already was or the start happened; request and filters are unchanged; the timer invariant holds afterwards whatever it was before |
| BleLifecycle.PowerState | things/src/main/java/se/berg/thomas/thingshub/BleScanService.java:152 | a broadcast without a state extra reads as STATE_OFF; otherwise the carried state is used |
| BleLifecycle.ReceiveStep | things/src/main/java/se/berg/thomas/thingshub/BleScanService.java:149-168 | STATE_ON behaves exactly like startScan, STATE_OFF and a missing state exactly like stopScan, and any other state changes nothing; request and filters are never changed |
| BleLifecycle.ScanResultStep | things/src/main/java/se/berg/thomas/thingshub/BleScanService.java:172-179 | the result is forwarded once, unchanged, and no other part of the state changes |
| BleRuns.Step | things/src/main/java/se/berg/thomas/thingshub/BleScanService.java:136-191 | batch results and scan failures change nothing; onDestroy is stopScan; a timer tick with nothing posted does nothing; only onStartCommand changes request or filters; the request flag and the scanner handle are never lost; the log only grows, and only a single result adds a Forward |
| BleRuns.StepForwards | things/src/main/java/se/berg/thomas/thingshub/BleScanService.java:170-192 | each handler forwards exactly its single result, or nothing |
| BleRuns.RunExtendsLog | things/src/main/java/se/berg/thomas/thingshub/BleScanService.java:51-192 | over any sequence of events the outbound log is only appended to |
| BleRuns.RunForwardsSingleResults | things/src/main/java/se/berg/thomas/thingshub/BleScanService.java:170-192 | over any run, the results forwarded are exactly the single results delivered, once each, unchanged and in order; batch results are never forwarded |
| BleRuns.RunKeepsRequest | things/src/main/java/se/berg/thomas/thingshub/BleScanService.java:30-56 | once requested, a scan stays requested across every event, radio OFF and ON included |
| BleRuns.RunKeepsScanner | things/src/main/java/se/berg/thomas/thingshub/BleScanService.java:123-133 | once a scanner is obtained it is never dropped, so every later stopScan issues a scanner stop |
| BleRuns.RunKeepsFilters | things/src/main/java/se/berg/thomas/thingshub/BleScanService.java:54-56 | without a new onStartCommand the filter list and the request flag stay exactly as they were |
| BleRuns.RunKeepsRestartTimer | things/src/main/java/se/berg/thomas/thingshub/BleScanService.java:111-114 | over any run, at most one restart callback is pending, always with the 29-minute delay, and only once a scanner exists |
| BleRuns.RunWithoutRequestStartsNothing | things/src/main/java/se/berg/thomas/thingshub/BleScanService.java:84-87 | with no request and no onStartCommand, no run ever issues a scanner start |
| BleRuns.OffThenOnResumes | things/src/main/java/se/berg/thomas/thingshub/BleScanService.java:152-165 | radio OFF then ON, with no new onStartCommand, stops and then restarts scanning with the same filters, and re-arms exactly one restart |
| BleRuns.DuplicateOnStartsTwice | things/src/main/java/se/berg/thomas/thingshub/BleScanService.java:155-157 | two STATE_ON broadcasts in a row log two starts with no stop between them |
| BleRuns.EndToEnd | things/src/main/java/se/berg/thomas/thingshub/BleScanService.java:51-179 | radio off, onStartCommand([a, b]) only asks to enable the radio; ON starts one scan with [a, b]; a result is forwarded unchanged; onDestroy stops it and leaves nothing pending |
| BleRuns.RepeatedStartCommandStartsTwice | things/src/main/java/se/berg/thomas/thingshub/BleScanService.java:54-63 | two onStartCommand calls with the radio on log two starts, the second with the newly delivered filters, and no stop between them |
| BleRuns.TurningStatesIgnored | things/src/main/java/se/berg/thomas/thingshub/BleScanService.java:163-165 | a TURNING_ON or TURNING_OFF broadcast changes nothing |
| BleService.BleScanService.constructor | things/src/main/java/se/berg/thomas/thingshub/BleScanService.java:27-48 | the new service's state is the initial state |
| BleService.BleScanService.OnStartCommand | things/src/main/java/se/berg/thomas/thingshub/BleScanService.java:51-70 | the fields change as StartCommandStep says, and the returned outcome is StartCommandOutcome |
| BleService.BleScanService.OnDestroy | things/src/main/java/se/berg/thomas/thingshub/BleScanService.java:73-77 | the fields change exactly as stopScan changes them |
| BleService.BleScanService.StartScan | things/src/main/java/se/berg/thomas/thingshub/BleScanService.java:79-121 | the fields change as StartScanStep says |
| BleService.BleScanService.StopScan | things/src/main/java/se/berg/thomas/thingshub/BleScanService.java:123-133 | the fields change as StopScanStep says |
| BleService.BleScanService.PeriodicRestart | things/src/main/java/se/berg/thomas/thingshub/BleScanService.java:136-143 | the fields change as RestartStep says |
| BleService.BleScanService.OnReceive | things/src/main/java/se/berg/thomas/thingshub/BleScanService.java:149-168 | the fields change as ReceiveStep says |
| BleService.BleScanService.OnScanResult | things/src/main/java/se/berg/thomas/thingshub/BleScanService.java:172-179 | the fields change as ScanResultStep says |
| BleService.BleScanService.OnBatchScanResults | things/src/main/java/se/berg/thomas/thingshub/BleScanService.java:182-185 | no field changes |
| BleService.BleScanService.OnScanFailed | things/src/main/java/se/berg/thomas/thingshub/BleScanService.java:188-191 | no field changes |

## Left out

- The adapter becomes a parameter. Each handler receives a snapshot of what
  the adapter reports while it runs (`Radio`). Both `isEnabled()` reads in
  `startScan` therefore see the same answer, so the second check (line 107)
  always passes in the model.
- The restart handler is taken to exist, as it always does after `onCreate`.
  The `mScanPeriodicRestartHandler != null` test is left out, and so is the
  null-manager path of `onCreate`.
- Real time is left out. A restart callback is a pending entry that holds its
  delay, and `TimerElapsed` is the moment the handler runs it.
- A missing adapter in `onStartCommand` throws a null-pointer exception. The
  model records this as `NullAdapterFault`, after the fields have been set.
  The process crash that follows is not modelled, and later events are still
  handled.
- Receiver registration in `onStartCommand` is left out. So are the repeated
  `registerReceiver` calls, because they are platform glue.
- `Log` calls are left out because they have no effect on the state.
  `onBind` is left out because it only throws an unimplemented exception.
- The broadcast's intent and the `ACTION_ADV` / `EXTRA_SCAN_RESULT` names are
  left out. They come from `ThingsHubCommon`, which is not part of this model.
  A forward is the logged action `Forward(result)`.
- `getBluetoothLeScanner()` is assumed to return a scanner while the radio is
  on. Its null case is not modelled.
- `numOfMatches == None` stands for a match count the code never sets. The
  model does not substitute the builder's default for it. A report delay of 0
  is the builder's own default, so the unbatched settings use it as is.
- `MainActivity.java` is left out because it is UI and permission
  boilerplate that only delivers the filter list.
