# NetworkStatus: the connectivity watcher of the Electron delivery package

`NetworkStatus` derives one boolean, `isConnected`, from the initial `{ online }`
metadata snapshot and from the `MetadataUpdate` events that follow it. The value
is gated on the host application being ready. Watchers registered with `watch`
are told about changes. The implementation file
(`packages/delivery-electron/network-status`) is not part of this model. Its
behaviour is taken from its test suite,
`packages/delivery-electron/test/network-status.test.ts`, which fixes it step
by step.

The project has three modules:

- `Connectivity` (`connectivity.dfy`) is the watcher as a pure state machine.
  A `Status` holds the raw `online` value, the readiness flag, `isConnected`
  and one notification log per watcher, in registration order. `Create`,
  `Watch`, `OnMetadataUpdate` and `BecomeReady` are the transitions. `Run`
  folds a sequence of inputs. `Valid` is the invariant every transition keeps:
  - `isConnected == ready && rawOnline`;
  - every watcher's log ends with the current value and never receives the same value twice in a row;
  - before readiness every log is exactly `[false]`.
  The lemmas prove the trace properties. While ready, a watcher hears exactly
  the changed values (`Changes`, a reference definition of "each value that
  differs from the one reported before it"). While not ready, nothing is
  reported. Becoming ready reports the latest raw value at most once.
- `DeliveryElectron` (`network_status.dfy`) is the object itself, the class
  `NetworkStatus`. Its methods update its fields in place, and `Notify` loops
  over the watchers to append a value to each log. The constructor's state is
  `Create(online, appReady)`. The new states of `Watch`, `OnMetadataUpdate` and
  `BecomeReady` are the matching transitions of the old state, and they keep
  the invariant. `Notify` runs in the middle of an update and keeps no
  invariant: its new logs are `Broadcast` of the old ones, and it changes no
  other field.
- `NetworkStatusTest` (`network_status_test.dfy`) has one method per test case.
  Each method drives the class and proves the outcome the test expects.

An event is modelled as a direct call of `OnMetadataUpdate(section, values)`.
The host's `whenReady()` resolving is modelled as an explicit call of
`BecomeReady()`. If it never resolves, that call never happens. A watcher
callback is modelled as its log: the sequence of values it was called with.

`watch` hands the current value to a new watcher at once: every `updates`
array starts with it (test lines 29, 60 and 100).

## Model

| member | source | states |
|---|---|---|
| Connectivity.Create | packages/delivery-electron/test/network-status.test.ts:10-16 | With a ready app the initial `isConnected` is the snapshot's `online`. With an app that is not ready it is `false`. There are no watchers yet, and the invariant holds. |
| Connectivity.Watch | packages/delivery-electron/test/network-status.test.ts:48-61 | A new watcher's log is exactly `[isConnected]`. Earlier logs and the connectivity state are unchanged, and the invariant is kept. |
| Connectivity.Broadcast | packages/delivery-electron/test/network-status.test.ts:21-23 | A notification appends the value to every watcher's log and does nothing else to any log. |
| Connectivity.OnMetadataUpdate | packages/delivery-electron/test/network-status.test.ts:18-61 | An event outside `device`, or without `online`, changes nothing. A relevant event records its raw value. While ready it becomes `isConnected`. While not ready `isConnected` and the logs stay as they were. Each watcher gets one value exactly when `isConnected` changes. The invariant is kept. |
| Connectivity.BecomeReady | packages/delivery-electron/test/network-status.test.ts:71-108 | After the call the app is ready. On the first call `isConnected` becomes the raw value and each watcher gets it once, exactly when it differs from the old value. A call when already ready changes nothing. The invariant is kept. |
| Connectivity.Run | packages/delivery-electron/test/network-status.test.ts:71-116 | Any sequence of events, registrations and readiness steps keeps the invariant. Readiness is never lost, and no watcher is lost. |
| Connectivity.DeferredUpdates | packages/delivery-electron/test/network-status.test.ts:93-101 | While the app is not ready, any run of events leaves `isConnected` false, notifies nobody and leaves the raw value at the latest relevant `online`. |
| Connectivity.LiveUpdates | packages/delivery-electron/test/network-status.test.ts:32-46 | While ready, after any run of events each watcher's log grows by exactly the values that differ from the one reported before them, in event order. `isConnected` ends at the latest relevant value. |
| Connectivity.ReadyReportsLatest | packages/delivery-electron/test/network-status.test.ts:103-108 | Becoming ready after deferred events sets `isConnected` to the latest raw value. Each watcher, whose log was `[false]`, gets at most one notification, `true`, and only if that value is `true`. |
| Connectivity.BecomeReadyOnce | packages/delivery-electron/test/network-status.test.ts:75-80 | The readiness transition is one-shot: a second step changes nothing. |
| Connectivity.DuplicateIgnored | packages/delivery-electron/test/network-status.test.ts:39-45 | While ready, any relevant `device` event, whatever other keys it carries, whose `online` repeats the current value leaves the whole state unchanged. |
| Connectivity.ReachableValid | packages/delivery-electron/test/network-status.test.ts:10-116 | Every state reachable from construction, by any sequence of events, registrations and readiness steps, keeps the invariant: `isConnected` is false before readiness and the raw value after, and every log ends with the current value with no value twice in a row. |
| Connectivity.DistinctValuesAllReported | packages/delivery-electron/test/network-status.test.ts:32-46 | When successive `online` values already differ, every one of them is reported, in order. |
| Connectivity.StartupSession | packages/delivery-electron/test/network-status.test.ts:71-116 | For a session of construction with the app not ready, one watcher, events, readiness and more events: the watcher hears `false`, then the latest early value if it is `true`, then every later change. |
| DeliveryElectron.NetworkStatus.constructor | packages/delivery-electron/test/network-status.test.ts:11-15 | The object's state is `Connectivity.Create(online, appReady)` and is valid. |
| DeliveryElectron.NetworkStatus.Watch | packages/delivery-electron/test/network-status.test.ts:21-23 | In place, the new state is `Connectivity.Watch` of the old one: the new log `[isConnected]` is appended. |
| DeliveryElectron.NetworkStatus.OnMetadataUpdate | packages/delivery-electron/test/network-status.test.ts:25-29 | In place, the new state is `Connectivity.OnMetadataUpdate` of the old one, and the invariant is kept. |
| DeliveryElectron.NetworkStatus.BecomeReady | packages/delivery-electron/test/network-status.test.ts:75-80 | In place, and guarded, the new state is `Connectivity.BecomeReady` of the old one, and the invariant is kept. |
| DeliveryElectron.NetworkStatus.Notify | packages/delivery-electron/test/network-status.test.ts:21-23 | Its loop over the watchers, in registration order, leaves the logs equal to `Connectivity.Broadcast` of the old logs. |
| NetworkStatusTest.UsesOnlineOnConstruction | packages/delivery-electron/test/network-status.test.ts:10-16 | With a ready app, `isConnected` is `true` for `online: true` and `false` for `online: false`. |
| NetworkStatusTest.AlertsWatchersOnChange | packages/delivery-electron/test/network-status.test.ts:18-30 | The watcher receives `[true, false]`. |
| NetworkStatusTest.SendsNoDuplicates | packages/delivery-electron/test/network-status.test.ts:32-46 | For events false, true, true the watcher receives `[true, false, true]`. |
| NetworkStatusTest.IgnoresIrrelevantUpdates | packages/delivery-electron/test/network-status.test.ts:48-61 | For an `app` event and a `device` event without `online`, the watcher receives only `[true]`. |
| NetworkStatusTest.OfflineUntilAppReady | packages/delivery-electron/test/network-status.test.ts:63-69 | With an app that is not ready, `isConnected` is `false` for both initial values. |
| NetworkStatusTest.GoesOnlineOnlyOnceReady | packages/delivery-electron/test/network-status.test.ts:71-116 | Offline right after construction. The updates are `[false]` and offline before readiness, `[false, true]` and online at readiness, and `[false, true, false]` and offline after the last event. |

## Left out

- The Node `EventEmitter` subscription is left out. It is external plumbing, so an event is a direct method call.
- The second `error` argument of `MetadataUpdate` is left out. It is always `null`, and the watcher ignores it.
- Promises, `async`/`await` and `process.nextTick` are left out. The model has no scheduler. `whenReady()` resolving is the explicit `BecomeReady` step, and a promise that never resolves means that step never happens.
- Callbacks as first-class, effectful closures are left out. Each watcher is its notification log, so a callback that throws or re-enters is not modelled.
- `values` is a `map<string, bool>`. Entries other than `online` are ignored, and their values are not modelled. An `online` value that is not a boolean is not modelled either.
- `test/browser/features/lib/server.rb` is left out. It is a static-file fixture server used by browser tests, not application logic.
