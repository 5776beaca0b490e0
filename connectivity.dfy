/// The connectivity watcher of the Electron delivery package, as a pure state
/// machine. A `Status` holds everything the watcher keeps: the last raw `online`
/// value seen, whether the host application is ready, the gated `isConnected`
/// value that consumers read, and one notification log per registered watcher
/// (in registration order) standing for the values each callback has received.
module Connectivity {

  /** The metadata section and key that carry the device's connectivity. */
  const DeviceSection: string := "device"
  const OnlineKey: string := "online"

  datatype Status = Status(
    rawOnline: bool,         // latest `online` value of a relevant event (or the initial one)
    ready: bool,             // whether the host application has finished starting up
    isConnected: bool,       // the gated value that consumers read
    logs: seq<seq<bool>>     // logs[k]: values delivered to the k-th watcher, in order
  )

  /** No value in a log repeats the one delivered just before it. */
  predicate NoRepeats(log: seq<bool>) {
    forall i :: 0 < i < |log| ==> log[i] != log[i - 1]
  }

  /** A watcher's log is up to date: it has received the current value last, and never the same value twice in a row. */
  predicate UpToDate(log: seq<bool>, current: bool) {
    |log| > 0 && log[|log| - 1] == current && NoRepeats(log)
  }

  /**
   * The invariant every reachable status keeps: `isConnected` is the raw value
   * while the host is ready and `false` before; every watcher's log ends with the
   * current value and never holds the same value twice in a row; before readiness every log is just [false].
   */
  predicate Valid(s: Status) {
    && s.isConnected == (s.ready && s.rawOnline)
    && (forall k :: 0 <= k < |s.logs| ==> UpToDate(s.logs[k], s.isConnected))
    && (!s.ready ==> forall k :: 0 <= k < |s.logs| ==> s.logs[k] == [false])
  }

  /** Only `device` updates that carry an `online` key are relevant. */
  predicate IsRelevant(section: string, values: map<string, bool>) {
    section == DeviceSection && OnlineKey in values
  }

  /** Delivers `v` to every registered watcher, in registration order. */
  function Broadcast(logs: seq<seq<bool>>, v: bool): (r: seq<seq<bool>>)
    ensures |r| == |logs|
    ensures forall k :: 0 <= k < |logs| ==> r[k] == logs[k] + [v]
  {
    if logs == [] then [] else [logs[0] + [v]] + Broadcast(logs[1..], v)
  }

  /** Construction from the initial snapshot `{ online }` and the host's `isReady()`. */
  function Create(online: bool, appReady: bool): (s: Status)
    ensures Valid(s) && s.logs == [] && s.ready == appReady && s.rawOnline == online
    ensures appReady ==> s.isConnected == online
    ensures !appReady ==> !s.isConnected
  {
    Status(online, appReady, if appReady then online else false, [])
  }

  /** `watch(cb)`: registers a new watcher, which at once receives the current value. */
  function Watch(s: Status): (r: Status)
    ensures |r.logs| == |s.logs| + 1 && r.logs[|s.logs|] == [s.isConnected]
    ensures forall k :: 0 <= k < |s.logs| ==> r.logs[k] == s.logs[k]
    ensures r.rawOnline == s.rawOnline && r.ready == s.ready && r.isConnected == s.isConnected
    ensures Valid(s) ==> Valid(r)
  {
    s.(logs := s.logs + [[s.isConnected]])
  }

  /**
   * A `MetadataUpdate` event. An irrelevant one changes nothing; a relevant one
   * records its `online` value and, while the host is ready and the value differs
   * from the one last reported, makes it the connected value and reports it to
   * every watcher.
   */
  function OnMetadataUpdate(s: Status, section: string, values: map<string, bool>): (r: Status)
    ensures !IsRelevant(section, values) ==> r == s
    ensures IsRelevant(section, values) ==> r.rawOnline == values[OnlineKey]
    ensures r.ready == s.ready && |r.logs| == |s.logs|
    ensures !s.ready ==> r.isConnected == s.isConnected && r.logs == s.logs
    ensures s.ready && IsRelevant(section, values) ==> r.isConnected == values[OnlineKey]
    ensures forall k :: 0 <= k < |s.logs| ==>
      r.logs[k] == if r.isConnected != s.isConnected then s.logs[k] + [r.isConnected] else s.logs[k]
    ensures Valid(s) ==> Valid(r)
  {
    if !IsRelevant(section, values) then s
    else
      var v := values[OnlineKey];
      if s.ready && v != s.isConnected then
        s.(rawOnline := v, isConnected := v, logs := Broadcast(s.logs, v))
      else
        s.(rawOnline := v)
  }

  /**
   * The host's `whenReady()` resolving. The first time, the connected value
   * becomes the latest raw value, reported once if it changed; once ready, a
   * further call changes nothing.
   */
  function BecomeReady(s: Status): (r: Status)
    ensures r.ready && r.rawOnline == s.rawOnline && |r.logs| == |s.logs|
    ensures s.ready ==> r == s
    ensures !s.ready ==> r.isConnected == s.rawOnline
    ensures forall k :: 0 <= k < |s.logs| ==>
      r.logs[k] == if r.isConnected != s.isConnected then s.logs[k] + [r.isConnected] else s.logs[k]
    ensures Valid(s) ==> Valid(r)
  {
    if s.ready then s
    else if s.rawOnline != s.isConnected then
      s.(ready := true, isConnected := s.rawOnline, logs := Broadcast(s.logs, s.rawOnline))
    else
      s.(ready := true)
  }

  /** What can happen to a watcher, in the order it happens. */
  datatype Input =
    | Metadata(section: string, values: map<string, bool>)
    | AppReady
    | AddWatcher

  function Step(s: Status, input: Input): Status {
    match input
    case Metadata(section, values) => OnMetadataUpdate(s, section, values)
    case AppReady => BecomeReady(s)
    case AddWatcher => Watch(s)
  }

  /** The status after a whole sequence of inputs. */
  function Run(s: Status, inputs: seq<Input>): (r: Status)
    decreases |inputs|
    ensures Valid(s) ==> Valid(r)
    ensures s.ready ==> r.ready
    ensures |r.logs| >= |s.logs|
  {
    if inputs == [] then s else Run(Step(s, inputs[0]), inputs[1..])
  }

  predicate OnlyMetadata(inputs: seq<Input>) {
    forall i :: 0 <= i < |inputs| ==> inputs[i].Metadata?
  }

  /** The `online` value an input carries, if it is a relevant event. */
  function Reading(input: Input): seq<bool> {
    match input
    case Metadata(section, values) => if IsRelevant(section, values) then [values[OnlineKey]] else []
    case _ => []
  }

  /** The `online` values of the relevant events among `inputs`, in order. */
  function OnlineValues(inputs: seq<Input>): seq<bool>
    decreases |inputs|
  {
    if inputs == [] then [] else Reading(inputs[0]) + OnlineValues(inputs[1..])
  }

  /** The last of `vs`, or `d` when there is none. */
  function LastOr(d: bool, vs: seq<bool>): bool {
    if vs == [] then d else vs[|vs| - 1]
  }

  /**
   * Reference definition of what a watcher hears: starting from the reported
   * value `last`, each value of `vs` that differs from the one reported before it.
   */
  function Changes(last: bool, vs: seq<bool>): seq<bool>
    decreases |vs|
  {
    if vs == [] then []
    else if vs[0] == last then Changes(last, vs[1..])
    else [vs[0]] + Changes(vs[0], vs[1..])
  }

  lemma ConsFacts(d: bool, v: bool, rest: seq<bool>)
    ensures ([v] + rest)[0] == v && ([v] + rest)[1..] == rest
    ensures LastOr(d, [v] + rest) == LastOr(v, rest)
  {
  }

  /** Running `a` then `b` is running `a + b`. */
  lemma {:induction false} RunAppend(s: Status, a: seq<Input>, b: seq<Input>)
    ensures Run(s, a + b) == Run(Run(s, a), b)
    decreases |a|
  {
    if a == [] {
      assert a + b == b;
    } else {
      assert (a + b)[0] == a[0];
      assert (a + b)[1..] == a[1..] + b;
      RunAppend(Step(s, a[0]), a[1..], b);
    }
  }

  lemma OnlyMetadataTail(inputs: seq<Input>)
    requires inputs != [] && OnlyMetadata(inputs)
    ensures inputs[0].Metadata? && OnlyMetadata(inputs[1..])
  {
    forall i | 0 <= i < |inputs[1..]| ensures inputs[1..][i].Metadata? {
      assert inputs[1..][i] == inputs[i + 1];
    }
  }

  /** Two rounds of notifications add up to one round of both. */
  lemma AppendTwice(logs0: seq<seq<bool>>, logs1: seq<seq<bool>>, logs2: seq<seq<bool>>, c1: seq<bool>, c2: seq<bool>)
    requires |logs1| == |logs0| && |logs2| == |logs1|
    requires forall k :: 0 <= k < |logs0| ==> logs1[k] == logs0[k] + c1
    requires forall k :: 0 <= k < |logs1| ==> logs2[k] == logs1[k] + c2
    ensures forall k :: 0 <= k < |logs0| ==> logs2[k] == logs0[k] + (c1 + c2)
  {
    forall k | 0 <= k < |logs0| ensures logs2[k] == logs0[k] + (c1 + c2) {
      assert logs2[k] == (logs0[k] + c1) + c2;
    }
  }

  /**
   * While the host is not ready, any sequence of events produces no notification
   * and leaves `isConnected` false; only the raw value follows the events.
   */
  lemma {:induction false} DeferredUpdates(s: Status, inputs: seq<Input>)
    requires Valid(s) && !s.ready && OnlyMetadata(inputs)
    ensures !Run(s, inputs).ready && !Run(s, inputs).isConnected
    ensures Run(s, inputs).logs == s.logs
    ensures Run(s, inputs).rawOnline == LastOr(s.rawOnline, OnlineValues(inputs))
    decreases |inputs|
  {
    if inputs != [] {
      var s1 := Step(s, inputs[0]);
      OnlyMetadataTail(inputs);
      DeferredUpdates(s1, inputs[1..]);
      var rest := OnlineValues(inputs[1..]);
      if Reading(inputs[0]) == [] {
        assert s1 == s;
      } else {
        ConsFacts(s.rawOnline, s1.rawOnline, rest);
      }
    }
  }

  /**
   * While the host is ready, each watcher hears exactly the relevant `online`
   * values that differ from the one reported before them, and `isConnected`
   * ends as the last one (or stays as it was).
   */
  lemma {:induction false} LiveUpdates(s: Status, inputs: seq<Input>)
    requires Valid(s) && s.ready && OnlyMetadata(inputs)
    ensures Run(s, inputs).ready && |Run(s, inputs).logs| == |s.logs|
    ensures Run(s, inputs).isConnected == LastOr(s.isConnected, OnlineValues(inputs))
    ensures forall k :: 0 <= k < |s.logs| ==>
      Run(s, inputs).logs[k] == s.logs[k] + Changes(s.isConnected, OnlineValues(inputs))
    decreases |inputs|
  {
    if inputs != [] {
      var s1 := Step(s, inputs[0]);
      OnlyMetadataTail(inputs);
      LiveStep(s, inputs[0]);
      LiveUpdates(s1, inputs[1..]);
      var r := Run(s1, inputs[1..]);
      assert Run(s, inputs) == r;
      var head, rest := Reading(inputs[0]), OnlineValues(inputs[1..]);
      assert OnlineValues(inputs) == head + rest;
      ChangesSplit(s.isConnected, head, rest);
      AppendTwice(s.logs, s1.logs, r.logs, Changes(s.isConnected, head), Changes(s1.isConnected, rest));
    }
  }

  /** One event while ready: what `LiveUpdates` says, for a single input. */
  lemma LiveStep(s: Status, input: Input)
    requires Valid(s) && s.ready && input.Metadata?
    ensures Valid(Step(s, input)) && Step(s, input).ready && |Step(s, input).logs| == |s.logs|
    ensures Step(s, input).isConnected == LastOr(s.isConnected, Reading(input))
    ensures forall k :: 0 <= k < |s.logs| ==>
      Step(s, input).logs[k] == s.logs[k] + Changes(s.isConnected, Reading(input))
  {
  }

  /** What a watcher hears over a reading of at most one value, then more. */
  lemma ChangesSplit(last: bool, r: seq<bool>, rest: seq<bool>)
    requires |r| <= 1
    ensures Changes(last, r + rest) == Changes(last, r) + Changes(LastOr(last, r), rest)
    ensures LastOr(last, r + rest) == LastOr(LastOr(last, r), rest)
  {
    if r == [] {
      assert r + rest == rest;
    } else {
      assert (r + rest)[0] == r[0];
      assert (r + rest)[1..] == rest;
      assert r[1..] == [];
    }
  }

  /**
   * Becoming ready after a run of deferred events reports, at most once, the
   * latest raw value, and only when it is `true` (the gated value was `false`).
   */
  lemma ReadyReportsLatest(s: Status, inputs: seq<Input>)
    requires Valid(s) && !s.ready && OnlyMetadata(inputs)
    ensures BecomeReady(Run(s, inputs)).isConnected == LastOr(s.rawOnline, OnlineValues(inputs))
    ensures |BecomeReady(Run(s, inputs)).logs| == |s.logs|
    ensures forall k :: 0 <= k < |s.logs| ==>
      BecomeReady(Run(s, inputs)).logs[k] == [false] + Changes(false, [LastOr(s.rawOnline, OnlineValues(inputs))])
  {
    DeferredUpdates(s, inputs);
  }

  /** The readiness transition happens once: a second one changes nothing. */
  lemma BecomeReadyOnce(s: Status)
    ensures BecomeReady(BecomeReady(s)) == BecomeReady(s)
  {
  }

  /** While ready, a relevant event repeating the current value changes nothing at all. */
  lemma DuplicateIgnored(s: Status, section: string, values: map<string, bool>)
    requires Valid(s) && s.ready && IsRelevant(section, values) && values[OnlineKey] == s.isConnected
    ensures OnMetadataUpdate(s, section, values) == s
  {
  }

  /** Every status reachable from construction keeps the invariant. */
  lemma ReachableValid(online: bool, appReady: bool, inputs: seq<Input>)
    ensures Valid(Run(Create(online, appReady), inputs))
  {
  }

  /** When successive values already differ, every one of them is reported. */
  lemma {:induction false} DistinctValuesAllReported(last: bool, vs: seq<bool>)
    requires NoRepeats([last] + vs)
    ensures Changes(last, vs) == vs
    decreases |vs|
  {
    if vs != [] {
      assert ([last] + vs)[1] == vs[0];
      assert ([last] + vs)[0] == last;
      assert NoRepeats(vs) by {
        forall i | 0 < i < |vs| ensures vs[i] != vs[i - 1] {
          assert ([last] + vs)[i + 1] == vs[i];
          assert ([last] + vs)[i] == vs[i - 1];
        }
      }
      assert [vs[0]] + vs[1..] == vs;
      DistinctValuesAllReported(vs[0], vs[1..]);
    }
  }

  /**
   * A whole session with a host that starts not ready: one watcher registers,
   * `early` events arrive, the host becomes ready, `late` events arrive. The
   * watcher hears `false`, then the latest early value if it is `true`, then
   * every late change.
   */
  lemma StartupSession(online: bool, early: seq<Input>, late: seq<Input>)
    requires OnlyMetadata(early) && OnlyMetadata(late)
    ensures var latest := LastOr(online, OnlineValues(early));
      Run(Create(online, false), [AddWatcher] + early + [AppReady] + late).logs
        == [[false] + Changes(false, [latest]) + Changes(latest, OnlineValues(late))]
  {
    var s0 := Create(online, false);
    var s1 := Watch(s0);
    assert Run(s0, [AddWatcher]) == s1;
    RunAppend(s0, [AddWatcher], early);
    var s2 := Run(s1, early);
    DeferredUpdates(s1, early);
    RunAppend(s0, [AddWatcher] + early, [AppReady]);
    var s3 := BecomeReady(s2);
    assert Run(s2, [AppReady]) == s3;
    RunAppend(s0, [AddWatcher] + early + [AppReady], late);
    LiveUpdates(s3, late);
    var latest := LastOr(online, OnlineValues(early));
    assert s3.isConnected == latest;
    assert s3.logs[0] == [false] + Changes(false, [latest]);
  }
}
