/// The `NetworkStatus` object of the Electron delivery package: it keeps the
/// connectivity state in fields that its methods update in place, and appends
/// each notification to the logs of the registered watchers one by one. Every
/// method is tied to the matching transition of the `Connectivity` state machine.
module DeliveryElectron {
  import Connectivity

  class NetworkStatus {
    var rawOnline: bool
    var ready: bool
    var isConnected: bool
    var logs: seq<seq<bool>>   // logs[k]: values delivered to the k-th watcher

    /** The object's state as a value of the state machine. */
    ghost function Model(): Connectivity.Status
      reads this
    {
      Connectivity.Status(rawOnline, ready, isConnected, logs)
    }

    ghost predicate Valid()
      reads this
    {
      Connectivity.Valid(Model())
    }

    /**
     * `new NetworkStatus({ emitter }, { online }, app)`, where `appReady` is what
     * `app.isReady()` answers at construction.
     */
    constructor (online: bool, appReady: bool)
      ensures Valid()
      ensures Model() == Connectivity.Create(online, appReady)
    {
      rawOnline := online;
      ready := appReady;
      isConnected := if appReady then online else false;
      logs := [];
    }

    /** `watch(cb)`: registers a watcher and hands it the current value. */
    method Watch()
      requires Valid()
      modifies this
      ensures Valid()
      ensures Model() == Connectivity.Watch(old(Model()))
      ensures logs == old(logs) + [[isConnected]]
    {
      logs := logs + [[isConnected]];
    }

    /** The handler of a `MetadataUpdate` event. */
    method OnMetadataUpdate(section: string, values: map<string, bool>)
      requires Valid()
      modifies this
      ensures Valid()
      ensures Model() == Connectivity.OnMetadataUpdate(old(Model()), section, values)
    {
      if section == Connectivity.DeviceSection && Connectivity.OnlineKey in values {
        rawOnline := values[Connectivity.OnlineKey];
        if ready && rawOnline != isConnected {
          isConnected := rawOnline;
          Notify(isConnected);
        }
      }
    }

    /** The host's `whenReady()` resolving; guarded so that only the first call acts. */
    method BecomeReady()
      requires Valid()
      modifies this
      ensures Valid()
      ensures Model() == Connectivity.BecomeReady(old(Model()))
    {
      if !ready {
        ready := true;
        if rawOnline != isConnected {
          isConnected := rawOnline;
          Notify(isConnected);
        }
      }
    }

    /** Calls every watcher with `v`, in registration order. */
    method Notify(v: bool)
      modifies this`logs
      ensures logs == Connectivity.Broadcast(old(logs), v)
    {
      var i := 0;
      while i < |logs|
        invariant 0 <= i <= |logs| == |old(logs)|
        invariant forall k :: 0 <= k < i ==> logs[k] == old(logs)[k] + [v]
        invariant forall k :: i <= k < |logs| ==> logs[k] == old(logs)[k]
      {
        logs := logs[i := logs[i] + [v]];
        i := i + 1;
      }
    }
  }
}
