/** The BLE scan service itself: an object whose handlers update its fields
    in place and call out to the scanner, the adapter and the broadcast
    channel. Every outbound call is appended to `log`. */
module BleService {
  import opened BleTypes
  import opened BleLifecycle

  class BleScanService {
    var isScanRequested: bool
    var scanFilterList: Option<seq<ScanFilter>>
    /** mBluetoothLeScanner != null */
    var scannerObtained: bool
    /** Delays of the restart callbacks posted to mScanPeriodicRestartHandler
        and not yet removed, in posting order. */
    var pendingRestarts: seq<nat>
    var log: seq<Action>

    /** The service's state as a value. */
    function Model(): State
      reads this
    {
      State(isScanRequested, scanFilterList, scannerObtained, pendingRestarts, log)
    }

    /** The field initialisers and onCreate: nothing requested, an empty
        filter list, no scanner, an idle restart handler. */
    constructor ()
      ensures Model() == Initial()
    {
      isScanRequested := false;
      scanFilterList := Some([]);
      scannerObtained := false;
      pendingRestarts := [];
      log := [];
    }

    method OnStartCommand(filterExtra: Option<seq<ScanFilter>>, radio: Radio) returns (outcome: StartOutcome)
      modifies this
      ensures Model() == StartCommandStep(old(Model()), filterExtra, radio)
      ensures outcome == StartCommandOutcome(radio)
    {
      scanFilterList := filterExtra;
      isScanRequested := true;
      if !radio.present {
        // isEnabled() on the null adapter throws
        return NullAdapterFault;
      }
      if radio.enabled {
        StartScan(radio);
      } else {
        log := log + [EnableRadio];
      }
      outcome := RedeliverIntent;
    }

    method OnDestroy()
      modifies this
      ensures Model() == StopScanStep(old(Model()))
    {
      StopScan();
    }

    method StartScan(radio: Radio)
      modifies this
      ensures Model() == StartScanStep(old(Model()), radio)
    {
      if !radio.present || !radio.enabled || !isScanRequested {
        return;
      }
      var settings := ChooseSettings(radio.batchingSupported);
      if radio.enabled {
        scannerObtained := true;
        log := log + [Action.StartScan(scanFilterList, settings)];
        pendingRestarts := [];                                             // removeCallbacks
        pendingRestarts := pendingRestarts + [SCAN_PERIODIC_RESTART_PERIOD];  // postDelayed
      }
    }

    method StopScan()
      modifies this
      ensures Model() == StopScanStep(old(Model()))
    {
      if scannerObtained {
        log := log + [Action.StopScan];
      }
      pendingRestarts := [];
    }

    /** scanPeriodicRestartRunnable.run */
    method PeriodicRestart(radio: Radio)
      modifies this
      ensures Model() == RestartStep(old(Model()), radio)
    {
      StopScan();
      StartScan(radio);
    }

    /** mBluetoothReceiver.onReceive for ACTION_STATE_CHANGED */
    method OnReceive(stateExtra: Option<int>, radio: Radio)
      modifies this
      ensures Model() == ReceiveStep(old(Model()), stateExtra, radio)
    {
      var state := PowerState(stateExtra);
      if state == STATE_ON {
        StartScan(radio);
      } else if state == STATE_OFF {
        StopScan();
      }
    }

    /** mScanCallback.onScanResult */
    method OnScanResult(callbackType: int, result: ScanResult)
      modifies this
      ensures Model() == ScanResultStep(old(Model()), result)
    {
      log := log + [Forward(result)];
    }

    /** mScanCallback.onBatchScanResults: only logged. */
    method OnBatchScanResults(results: seq<ScanResult>)
      ensures Model() == old(Model())
    {
    }

    /** mScanCallback.onScanFailed: only logged, no recovery. */
    method OnScanFailed(errorCode: int)
      ensures Model() == old(Model())
    {
    }
  }
}
