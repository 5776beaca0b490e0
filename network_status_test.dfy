/// The test suite of `NetworkStatus`, one method per case, driving the object
/// through its public methods. A watcher that pushes what it receives onto an
/// `updates` array is the watcher's log; awaiting the next tick is not needed,
/// since every step here is already complete when its call returns.
module NetworkStatusTest {
  import opened DeliveryElectron

  /** The initial `online` value is used when the app is ready. */
  method UsesOnlineOnConstruction() returns (whenOnline: bool, whenOffline: bool)
    ensures whenOnline && !whenOffline
  {
    var checker := new NetworkStatus(true, true);
    whenOnline := checker.isConnected;
    checker := new NetworkStatus(false, true);
    whenOffline := checker.isConnected;
  }

  /** A watcher hears the current value, then the change. */
  method AlertsWatchersOnChange() returns (updates: seq<bool>)
    ensures updates == [true, false]
  {
    var checker := new NetworkStatus(true, true);
    checker.Watch();
    checker.OnMetadataUpdate("device", map["online" := false]);
    updates := checker.logs[0];
  }

  /** A repeated value is not reported again. */
  method SendsNoDuplicates() returns (updates: seq<bool>)
    ensures updates == [true, false, true]
  {
    var checker := new NetworkStatus(true, true);
    checker.Watch();
    checker.OnMetadataUpdate("device", map["online" := false]);
    checker.OnMetadataUpdate("device", map["online" := true]);
    checker.OnMetadataUpdate("device", map["online" := true]);
    updates := checker.logs[0];
  }

  /** Another section, or a device update without `online`, is ignored. */
  method IgnoresIrrelevantUpdates() returns (updates: seq<bool>)
    ensures updates == [true]
  {
    var checker := new NetworkStatus(true, true);
    checker.Watch();
    checker.OnMetadataUpdate("app", map["online" := false]);
    checker.OnMetadataUpdate("device", map["usingBattery" := true]);
    updates := checker.logs[0];
  }

  /** Before the app is ready the watcher is offline, whatever the initial value. */
  method OfflineUntilAppReady() returns (fromOnline: bool, fromOffline: bool)
    ensures !fromOnline && !fromOffline
  {
    var checker := new NetworkStatus(true, false);
    fromOnline := checker.isConnected;
    checker := new NetworkStatus(false, false);
    fromOffline := checker.isConnected;
  }

  /**
   * Updates while the app is not ready are held back; becoming ready reports the
   * latest one; later changes are reported as they come.
   */
  method GoesOnlineOnlyOnceReady()
    returns (connectedAtStart: bool,
             before: seq<bool>, connectedBefore: bool,
             atReady: seq<bool>, connectedAtReady: bool,
             after: seq<bool>, connectedAfter: bool)
    ensures !connectedAtStart
    ensures before == [false] && !connectedBefore
    ensures atReady == [false, true] && connectedAtReady
    ensures after == [false, true, false] && !connectedAfter
  {
    var checker := new NetworkStatus(true, false);
    connectedAtStart := checker.isConnected;
    checker.Watch();
    checker.OnMetadataUpdate("device", map["online" := true]);
    checker.OnMetadataUpdate("device", map["online" := false]);
    checker.OnMetadataUpdate("device", map["online" := true]);
    before, connectedBefore := checker.logs[0], checker.isConnected;
    checker.BecomeReady();
    atReady, connectedAtReady := checker.logs[0], checker.isConnected;
    checker.OnMetadataUpdate("device", map["online" := false]);
    after, connectedAfter := checker.logs[0], checker.isConnected;
  }
}
