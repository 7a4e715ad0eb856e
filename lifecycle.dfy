/** The scan lifecycle of the BLE scan service as pure transitions on its
    state. Each function is one handler of the service; the class in
    BleService is specified by them. */
module BleLifecycle {
  import opened BleTypes

  /** The service's state.
      - `requested`: isScanRequested
      - `filters`: scanFilterList (None when the intent carried no list)
      - `scannerObtained`: mBluetoothLeScanner != null
      - `pending`: the delays of the restart callbacks posted to the restart
        handler and not yet removed, in posting order
      - `log`: every outbound call made so far, oldest first */
  datatype State = State(
    requested: bool,
    filters: Option<seq<ScanFilter>>,
    scannerObtained: bool,
    pending: seq<nat>,
    log: seq<Action>)

  /** What onStartCommand hands back to the platform. */
  datatype StartOutcome =
    | RedeliverIntent     // START_REDELIVER_INTENT
    | NullAdapterFault    // isEnabled() called on a null adapter

  /** The restart timer is either idle, or holds exactly one callback with
      the 29-minute delay, and then a scanner has been obtained. */
  predicate RestartTimerOk(s: State) {
    s.pending == [] || (s.pending == [SCAN_PERIODIC_RESTART_PERIOD] && s.scannerObtained)
  }

  /** The state right after onCreate. */
  function Initial(): (s: State)
    ensures !s.requested && s.filters == Some([]) && !s.scannerObtained
    ensures RestartTimerOk(s) && s.pending == [] && s.log == []
  {
    State(false, Some([]), false, [], [])
  }

  /** The guard of startScan: an adapter, its radio on, and a scan requested. */
  predicate Ready(s: State, radio: Radio) {
    radio.present && radio.enabled && s.requested
  }

  /** The scan settings startScan builds. */
  function ChooseSettings(batchingSupported: bool): (st: ScanSettings)
    ensures st.callbackType == AllMatches && st.matchMode == Aggressive && st.scanMode == LowLatency
    ensures batchingSupported <==> st.reportDelayMillis > 0
    ensures batchingSupported <==> st.numOfMatches.Some?
    ensures batchingSupported ==> st.reportDelayMillis == BATCH_REPORT_DELAY_MILLIS && st.numOfMatches == Some(OneAdvertisement)
  {
    if batchingSupported then
      ScanSettings(AllMatches, Aggressive, Some(OneAdvertisement), BATCH_REPORT_DELAY_MILLIS, LowLatency)
    else
      ScanSettings(AllMatches, Aggressive, None, 0, LowLatency)
  }

  /** startScan: when not ready, nothing at all changes. Otherwise one scan is
      started with the current filters, the scanner handle is kept, and the
      restart timer ends up holding exactly one 29-minute callback, whatever it
      held before. */
  function StartScanStep(s: State, radio: Radio): (t: State)
    ensures !Ready(s, radio) ==> t == s
    ensures Ready(s, radio) ==>
      t.log == s.log + [StartScan(s.filters, ChooseSettings(radio.batchingSupported))] &&
      t.pending == [SCAN_PERIODIC_RESTART_PERIOD] && t.scannerObtained
    ensures t.requested == s.requested && t.filters == s.filters
    ensures RestartTimerOk(s) ==> RestartTimerOk(t)
  {
    if !radio.present || !radio.enabled || !s.requested then s
    else
      var settings := ChooseSettings(radio.batchingSupported);
      // removeCallbacks drops every posted restart, then one is posted
      s.(scannerObtained := true,
         log := s.log + [StartScan(s.filters, settings)],
         pending := [] + [SCAN_PERIODIC_RESTART_PERIOD])
  }

  /** stopScan: no restart callback is left, a scanner stop is issued exactly
      when a scanner was ever obtained, and the request flag, the filters and
      the scanner handle are left as they were. */
  function StopScanStep(s: State): (t: State)
    ensures t.pending == []
    ensures t.log == s.log + (if s.scannerObtained then [StopScan] else [])
    ensures t.requested == s.requested && t.filters == s.filters && t.scannerObtained == s.scannerObtained
    ensures RestartTimerOk(t)
  {
    var log := if s.scannerObtained then s.log + [StopScan] else s.log;
    s.(log := log, pending := [])
  }

  /** onStartCommand: the delivered filter list replaces the old one and a scan
      is requested from then on. With the radio on, exactly one scan is started
      with the delivered filters; with an adapter whose radio is off, one enable
      request is made and no scan starts; with no adapter at all the handler
      faults before calling out, so nothing is issued. */
  function StartCommandStep(s: State, filterExtra: Option<seq<ScanFilter>>, radio: Radio): (t: State)
    ensures t.requested && t.filters == filterExtra && t.scannerObtained == (s.scannerObtained || (radio.present && radio.enabled))
    ensures radio.present && radio.enabled ==>
      t.log == s.log + [StartScan(filterExtra, ChooseSettings(radio.batchingSupported))] &&
      t.pending == [SCAN_PERIODIC_RESTART_PERIOD]
    ensures radio.present && !radio.enabled ==> t.log == s.log + [EnableRadio] && t.pending == s.pending
    ensures !radio.present ==> t.log == s.log && t.pending == s.pending
    ensures RestartTimerOk(s) ==> RestartTimerOk(t)
  {
    var s1 := s.(filters := filterExtra, requested := true);
    if !radio.present then s1
    else if radio.enabled then StartScanStep(s1, radio)
    else s1.(log := s1.log + [EnableRadio])
  }

  /** The outcome onStartCommand returns: it faults exactly when there is no
      adapter. */
  function StartCommandOutcome(radio: Radio): (r: StartOutcome)
    ensures r == NullAdapterFault <==> !radio.present
  {
    if radio.present then RedeliverIntent else NullAdapterFault
  }

  /** The periodic restart runnable: stopScan, then startScan with the same
      filters. When the guard holds the stop (if any) comes right before one
      start and one restart is pending again; otherwise the timer is left
      idle. */
  function RestartStep(s: State, radio: Radio): (t: State)
    ensures t.requested == s.requested && t.filters == s.filters
    ensures t.scannerObtained == (s.scannerObtained || Ready(s, radio))
    ensures Ready(s, radio) ==>
      t.log == s.log + (if s.scannerObtained then [StopScan] else []) +
               [StartScan(s.filters, ChooseSettings(radio.batchingSupported))] &&
      t.pending == [SCAN_PERIODIC_RESTART_PERIOD]
    ensures !Ready(s, radio) ==>
      t.log == s.log + (if s.scannerObtained then [StopScan] else []) && t.pending == []
    ensures RestartTimerOk(t)
  {
    StartScanStep(StopScanStep(s), radio)
  }

  /** The power state read from the broadcast; a missing extra reads as OFF. */
  function PowerState(stateExtra: Option<int>): (state: int)
    ensures stateExtra == None ==> state == STATE_OFF
    ensures stateExtra.Some? ==> state == stateExtra.value
  {
    match stateExtra
    case None => STATE_OFF
    case Some(v) => v
  }

  /** The Bluetooth state receiver: ON is startScan, OFF (or no state at all)
      is stopScan, and every other state leaves everything unchanged. */
  function ReceiveStep(s: State, stateExtra: Option<int>, radio: Radio): (t: State)
    ensures stateExtra == Some(STATE_ON) ==> t == StartScanStep(s, radio)
    ensures stateExtra == None || stateExtra == Some(STATE_OFF) ==> t == StopScanStep(s)
    ensures stateExtra.Some? && stateExtra.value != STATE_ON && stateExtra.value != STATE_OFF ==> t == s
    ensures t.requested == s.requested && t.filters == s.filters
  {
    var state := PowerState(stateExtra);
    if state == STATE_ON then StartScanStep(s, radio)
    else if state == STATE_OFF then StopScanStep(s)
    else s
  }

  /** onScanResult: the result is forwarded once, unchanged; nothing else changes. */
  function ScanResultStep(s: State, result: ScanResult): (t: State)
    ensures t.log == s.log + [Forward(result)]
    ensures t.(log := s.log) == s
  {
    s.(log := s.log + [Forward(result)])
  }
}
