/** Values the BLE scan service exchanges with the platform: filters, scan
    results, scan settings, the adapter's reported state and the outbound
    actions the service issues. */
module BleTypes {

  datatype Option<+T> = None | Some(value: T)

  /** A scan filter as the activity builds it: one device hardware address. */
  datatype ScanFilter = ScanFilter(deviceAddress: string)

  /** One advertisement as the scanner reports it. */
  datatype ScanResult = ScanResult(deviceAddress: string, scanRecord: seq<bv8>, rssi: int, timestampNanos: int)

  datatype CallbackType = AllMatches | FirstMatch | MatchLost
  datatype MatchMode = Aggressive | Sticky
  datatype MatchNum = OneAdvertisement | FewAdvertisement | MaxAdvertisement
  datatype ScanMode = Opportunistic | LowPower | Balanced | LowLatency

  /** The settings handed to the scanner. `numOfMatches == None` means the
      builder was never asked to set a match count; a report delay of 0 means
      results are reported one by one rather than batched. */
  datatype ScanSettings = ScanSettings(
    callbackType: CallbackType,
    matchMode: MatchMode,
    numOfMatches: Option<MatchNum>,
    reportDelayMillis: nat,
    scanMode: ScanMode)

  /** What the Bluetooth adapter reports at the moment a handler runs:
      whether there is an adapter at all, whether its radio is on, and whether
      it supports offloaded scan batching. */
  datatype Radio = Radio(present: bool, enabled: bool, batchingSupported: bool)

  /** Calls the service makes on the outside world, in the order made. */
  datatype Action =
    | StartScan(filters: Option<seq<ScanFilter>>, settings: ScanSettings)  // scanner.startScan(filters, settings, callback)
    | StopScan                                                               // scanner.stopScan(callback)
    | EnableRadio                                                            // adapter.enable()
    | Forward(result: ScanResult)                                            // broadcast of ACTION_ADV carrying the result

  /** Delay of the periodic scan restart: 29 minutes, in milliseconds. */
  const SCAN_PERIODIC_RESTART_PERIOD: nat := 29 * 60 * 1000

  /** Report delay used when the adapter supports batching, in milliseconds. */
  const BATCH_REPORT_DELAY_MILLIS: nat := 1000

  /** BluetoothAdapter power states carried by ACTION_STATE_CHANGED. */
  const STATE_OFF: int := 10
  const STATE_TURNING_ON: int := 11
  const STATE_ON: int := 12
  const STATE_TURNING_OFF: int := 13
}
