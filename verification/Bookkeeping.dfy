/** What each step does to the bookkeeping: due times, boosts, and the known hosts. */
module Bookkeeping {
  import opened Prelude
  import opened Text
  import opened Devices
  import opened Json
  import opened Timing
  import opened Poller
  import opened PollOutcomes
  import HostRecovery
  import PollerSafety

  // --------------------------------------------------------------- after a poll

  /** How long a poll puts off the next one: 30 seconds, one, two and then five minutes after the first, second, third
      and any further failure in a row; otherwise around 8 seconds within the boost window, around 12 within two minutes
      of a change, around 45 else. */
  ghost predicate Spaced(m: PollMeta, startedAt: int) {
    var wait := m.nextDueAt - startedAt;
    var boosted := IsSet(m.boostUntilAt) && startedAt < m.boostUntilAt.value;
    var hot := IsSet(m.lastChangeAt) && startedAt - m.lastChangeAt.value < 120_000;
    if m.failureCount == 1 then wait == 30_000
    else if m.failureCount == 2 then wait == 60_000
    else if m.failureCount == 3 then wait == 120_000
    else if m.failureCount > 3 then wait == 300_000
    else if boosted then 7_200 <= wait <= 8_800
    else if hot then 10_200 <= wait <= 13_800
    else 38_250 <= wait <= 51_750
  }

  lemma SpacedBy(m: PollMeta, startedAt: int, random: real)
    requires m.nextDueAt == startedAt + NextIntervalMs(m, startedAt, random)
    ensures Spaced(m, startedAt)
  {
    IntervalBounds(m, startedAt, random);
    hide WithJitterMs;
  }

  /** The bookkeeping of the polled device, if any, or what is created at the start of the poll. */
  function Before(s: Server, id: nat): PollMeta
    requires id < |s.tasks|
  {
    MetaAt(s, s.tasks[id].uuid, s.tasks[id].startedAt)
  }

  lemma RecordMeta(s: Server, id: nat, c: DeviceState, now: int, random: real)
    requires id < |s.tasks|
    ensures var t := CompletePoll(s, id, c, now, random); var task := s.tasks[id]; var prev := s.stateByUuid.Get(task.uuid);
      var before := Before(s, id);
      && HostRecovery.SameBut(t.metaByUuid, s.metaByUuid, task.uuid) && task.uuid in t.metaByUuid.at
      && var m := t.metaByUuid.at[task.uuid];
         && m.failureCount == (if c.stale then before.failureCount + 1 else 0)
         && m.lastSuccessAt == (if c.stale then before.lastSuccessAt else Some(task.startedAt))
         && m.lastChangeAt == (if !c.stale && HasMaterialStateChange(prev, c) then Some(task.startedAt) else before.lastChangeAt)
         && m.boostUntilAt == before.boostUntilAt && m.telemetryNextDueAt == before.telemetryNextDueAt
         && m.telemetryFailureCount == before.telemetryFailureCount && m.telemetryLastSuccessAt == before.telemetryLastSuccessAt
         && Spaced(m, task.startedAt)
  {
    hide NextIntervalMs;
    hide HasMaterialStateChange;
    hide ResultOf;
    hide EventsAfter;
    hide StoredAfter;
    hide Broadcast;
    hide Spaced;
    var task := s.tasks[id];
    var prev := s.stateByUuid.Get(task.uuid);
    var m := MetaAfter(Before(s, id), prev, c, task.startedAt, random);
    SpacedMeta(Before(s, id), prev, c, task.startedAt, random);
    SameSpacing(m, m.(lastResolveAttemptAt := Some(now)), task.startedAt);
  }

  lemma SpacedMeta(meta: PollMeta, prev: Option<DeviceState>, c: DeviceState, startedAt: int, random: real)
    ensures Spaced(MetaAfter(meta, prev, c, startedAt, random), startedAt)
  {
    hide HasMaterialStateChange;
    hide NextIntervalMs;
    var m := MetaAfter(meta, prev, c, startedAt, random);
    SameInterval(m, m.(nextDueAt := meta.nextDueAt), startedAt, random);
    SpacedBy(m, startedAt, random);
    hide Spaced;
  }

  lemma SameInterval(a: PollMeta, b: PollMeta, startedAt: int, random: real)
    requires a.failureCount == b.failureCount && a.boostUntilAt == b.boostUntilAt && a.lastChangeAt == b.lastChangeAt
    ensures NextIntervalMs(a, startedAt, random) == NextIntervalMs(b, startedAt, random)
  {
    hide WithJitterMs;
  }

  lemma SameSpacing(a: PollMeta, b: PollMeta, startedAt: int)
    requires a.failureCount == b.failureCount && a.boostUntilAt == b.boostUntilAt && a.lastChangeAt == b.lastChangeAt
    requires a.nextDueAt == b.nextDueAt
    ensures Spaced(a, startedAt) <==> Spaced(b, startedAt)
  {
  }

  /** What a completed poll notes about its device: one more failure, or none and a success at its start; a change at
      its start if the reply materially changed what was cached; and when the device is due next. It leaves boost and
      telemetry alone, and all other devices. */
  lemma PollNotes(js: Js, s: Server, step: Step)
    requires Enabled(s, step) && step.PollCompletes?
    ensures var t := Next(js, s, step); var task := s.tasks[step.task]; var before := Before(s, step.task);
      && HostRecovery.SameBut(t.metaByUuid, s.metaByUuid, task.uuid) && task.uuid in t.metaByUuid.at
      && task.uuid in t.stateByUuid.at
      && var m := t.metaByUuid.at[task.uuid];
         && m.failureCount == (if Usable(js, step.attempt) then 0 else before.failureCount + 1)
         && m.lastSuccessAt == (if Usable(js, step.attempt) then Some(task.startedAt) else before.lastSuccessAt)
         && m.lastChangeAt
            == (if Usable(js, step.attempt)
                   && (task.uuid !in s.stateByUuid.at
                       || MaterialOf(s.stateByUuid.at[task.uuid]) != MaterialOf(t.stateByUuid.at[task.uuid]))
                then Some(task.startedAt) else before.lastChangeAt)
         && m.boostUntilAt == before.boostUntilAt && m.telemetryNextDueAt == before.telemetryNextDueAt
         && m.telemetryFailureCount == before.telemetryFailureCount && m.telemetryLastSuccessAt == before.telemetryLastSuccessAt
         && Spaced(m, task.startedAt)
  {
    hide Candidate;
    hide CompletePoll;
    hide HasMaterialStateChange;
    hide Before;
    hide Spaced;
    hide StoredAfter;
    hide ShowsReply;
    hide ShowsNothing;
    hide HostRecovery.SameBut;
    hide Usable;
    var task := s.tasks[step.task];
    var c := Candidate(js, s, task, step.attempt, step.now);
    if Usable(js, step.attempt) {
      UsableOutcome(js, s, task, step.attempt, step.now);
    } else {
      FailedOutcome(js, s, task, step.attempt, step.now);
    }
    PollerSafety.CompleteFrame(s, step.task, c, step.now, step.random);
    RecordMeta(s, step.task, c, step.now, step.random);
    MaterialChangeMeaning(s.stateByUuid.Get(task.uuid), c);
    StoredIs(s.stateByUuid.Get(task.uuid), c);
  }

  // --------------------------------------------------------- boosts, ticks, calls

  /** `m` is the bookkeeping before, or new, but due now and boosted for 30 seconds. */
  ghost predicate Boosted(before: Option<PollMeta>, m: Option<PollMeta>, now: int) {
    m == Some((if before.Some? then before.value else CreateMeta(now)).(boostUntilAt := Some(now + 30_000), nextDueAt := now))
  }

  /** A boost makes the device due now and keeps it boosted for 30 seconds; it does nothing for the empty uuid. */
  lemma BoostsSo(js: Js, s: Server, step: Step)
    requires step.Boosts? && Enabled(s, step)
    ensures var t := Next(js, s, step);
      && t == s.(metaByUuid := t.metaByUuid)
      && HostRecovery.SameBut(t.metaByUuid, s.metaByUuid, step.uuid)
      && if step.uuid == "" then t == s else Boosted(s.metaByUuid.Get(step.uuid), t.metaByUuid.Get(step.uuid), step.now)
  {
    BoostIs(s, step.uuid, step.now);
    hide BoostDevice;
  }

  lemma BoostIs(s: Server, uuid: string, now: int)
    ensures var t := BoostDevice(s, uuid, now);
      && t == s.(metaByUuid := t.metaByUuid)
      && HostRecovery.SameBut(t.metaByUuid, s.metaByUuid, uuid)
      && if uuid == "" then t == s else Boosted(s.metaByUuid.Get(uuid), t.metaByUuid.Get(uuid), now)
  {
  }

  /** A tick that finds the last one done goes for the hosts if it last did more than five seconds ago, and looks for due
      devices at once otherwise. */
  lemma TickBeginsSo(js: Js, s: Server, step: Step)
    requires step.TickBegins? && Enabled(s, step)
    ensures var t := Next(js, s, step);
      && t == s.(tick := t.tick)
      && (s.tick.Idle? ==> (t.tick.Syncing? <==> step.now > s.lastSyncHostsAt + 5_000) && (t.tick.Scanning? <==> !t.tick.Syncing?))
      && (!s.tick.Idle? ==> t == s)
  {
  }

  lemma {:induction false} BoostAllIs(s: Server, uuids: seq<string>, now: int, u: string)
    requires NoDup(uuids)
    ensures var t := BoostAll(s, uuids, now);
      if u in uuids && u != "" then Boosted(s.metaByUuid.Get(u), t.metaByUuid.Get(u), now)
      else t.metaByUuid.Get(u) == s.metaByUuid.Get(u)
    decreases |uuids|
  {
    hide BoostDevice;
    hide Boosted;
    if uuids != [] {
      BoostIs(s, uuids[0], now);
      assert uuids[0] !in uuids[1..];
      assert u in uuids <==> u == uuids[0] || u in uuids[1..];
      BoostAllIs(BoostDevice(s, uuids[0], now), uuids[1..], now, u);
      hide NoDup;
    }
  }

  /** A new call asks for the named devices, trimmed and without blanks, or for all known ones if none is named; each
      once. All of them are boosted, and no worker has begun. */
  lemma CallBegins(js: Js, s: Server, step: Step, u: string)
    requires step.PollNowBegins? && Enabled(s, step) && s.knownHosts.Valid()
    ensures var t := Next(js, s, step);
      && t == s.(metaByUuid := t.metaByUuid, calls := t.calls)
      && |t.calls| == |s.calls| + 1 && t.calls[..|s.calls|] == s.calls
      && var call := t.calls[|s.calls|];
         && call.reason == step.reason && call.queue == call.requested && NoDup(call.requested)
         && call.states == [] && call.errors == []
         && (forall w :: 0 <= w < |call.workers| ==> call.workers[w].Ready?)
         && |call.workers| == (if |call.requested| == 0 then 1 else if |call.requested| <= 6 then |call.requested| else 6)
         && (if step.requested.Some? && step.requested.value != []
             then u in call.requested <==> u != "" && exists v :: v in step.requested.value && Trim(v) == u
             else u in call.requested <==> u in s.knownHosts.at)
         && (if u in call.requested && u != "" then Boosted(s.metaByUuid.Get(u), t.metaByUuid.Get(u), step.now)
             else t.metaByUuid.Get(u) == s.metaByUuid.Get(u))
  {
    hide BoostAll;
    hide Distinct;
    hide Boosted;
    hide Trim;
    BoostAllIs(s, RequestedUuids(s, step.requested), step.now, u);
    hide NoDup;
  }

  // ------------------------------------------------------------------ known hosts

  /** The last entry with an address that a configuration has for a device. */
  function Configured(hosts: seq<(string, KnownHost)>, u: string): Option<KnownHost> {
    if hosts == [] then None
    else
      var n := |hosts| - 1;
      if hosts[n].0 == u && hosts[n].1.host != "" then Some(hosts[n].1) else Configured(hosts[..n], u)
  }

  lemma {:induction false} ConfiguredSplit(hosts: seq<(string, KnownHost)>, u: string)
    requires hosts != []
    ensures Configured(hosts, u)
         == if Configured(hosts[1..], u).Some? then Configured(hosts[1..], u) else Configured(hosts[..1], u)
  {
    var n := |hosts| - 1;
    if n > 0 {
      assert hosts[1..][..n - 1] == hosts[..n][1..] && hosts[..n][..1] == hosts[..1];
      ConfiguredSplit(hosts[..n], u);
    } else {
      assert hosts[1..] == [] && hosts[..1] == hosts;
    }
  }

  lemma {:induction false} AddHostsIs(s: Server, hosts: seq<(string, KnownHost)>, now: int, u: string)
    ensures var t := AddHosts(s, hosts, now); var c := Configured(hosts, u);
      && t.knownHosts.Get(u) == (if c.Some? then c else s.knownHosts.Get(u))
      && t.metaByUuid.Get(u) == (if u in s.metaByUuid.at || c.None? then s.metaByUuid.Get(u) else Some(CreateMeta(now)))
      && t.lastSyncHostsAt == s.lastSyncHostsAt
    decreases |hosts|
  {
    if hosts != [] {
      ConfiguredSplit(hosts, u);
      assert hosts[..1][..0] == [];
      if hosts[0].1.host == "" {
        AddHostsIs(s, hosts[1..], now, u);
      } else {
        AddHostsIs(EnsureMeta(s.(knownHosts := s.knownHosts.Set(hosts[0].0, hosts[0].1)), hosts[0].0, now), hosts[1..], now, u);
      }
    }
  }

  /** After a sync, the known hosts are exactly the configured entries with an address; each has bookkeeping, which is
      new and due now if there was none, and as before otherwise. */
  lemma SyncsSo(js: Js, s: Server, step: Step, u: string)
    requires step.HostsSync? && Enabled(s, step)
    ensures var t := Next(js, s, step); var c := Configured(step.hosts, u);
      && t.knownHosts.Get(u) == c && t.lastSyncHostsAt == step.now
      && t.metaByUuid.Get(u) == (if u in s.metaByUuid.at || c.None? then s.metaByUuid.Get(u)
                                 else Some(PollMeta(step.now, 0, None, None, None, None, step.now, 0, None)))
      && (step.forTick ==> t.tick.Scanning?)
  {
    hide AddHosts;
    AddHostsIs(s.(lastSyncHostsAt := step.now, knownHosts := JsMap([], map[])), step.hosts, step.now, u);
  }

  lemma SameHosts(js: Js, s: Server, step: Step)
    requires Enabled(s, step) && !step.HostsSync? && !step.RecoveryEnds?
    ensures Next(js, s, step).knownHosts == s.knownHosts
  {
    hide Greeting;
    hide Candidate;
    if step.PollCompletes? {
      PollerSafety.CompleteFrame(s, step.task, Candidate(js, s, s.tasks[step.task], step.attempt, step.now), step.now, step.random);
      hide CompletePoll;
    } else if step.TelemetryCompletes? {
      PollerSafety.TelemetryFrame(s, step.task, step.reading, step.now);
      hide CompleteTelemetry;
    }
  }

  /** The host last told for a device, by the configuration or by a recovery. */
  ghost function HostTold(js: Js, steps: seq<Step>, u: string): Option<KnownHost>
    requires Run(js, Init(), steps)
    decreases |steps|
  {
    if steps == [] then None
    else
      var n := |steps| - 1;
      HostToldIn(After(js, Init(), steps[..n]), steps[n], u, HostTold(js, steps[..n], u))
  }

  function HostToldIn(s: Server, step: Step, u: string, before: Option<KnownHost>): Option<KnownHost>
    requires Enabled(s, step)
  {
    match step
    case HostsSync(_, hosts, _) => Configured(hosts, u)
    case RecoveryEnds(_, r, found) => if found.Some? && s.recoveries[r].uuid == u then found else before
    case _ => before
  }

  lemma HostStep(js: Js, s: Server, step: Step, u: string)
    requires Enabled(s, step)
    ensures Next(js, s, step).knownHosts.Get(u) == HostToldIn(s, step, u, s.knownHosts.Get(u))
  {
    hide Next;
    hide Configured;
    if step.HostsSync? {
      SyncsSo(js, s, step, u);
    } else if step.RecoveryEnds? {
      HostRecovery.RecoveryEndsSo(js, s, step);
    } else {
      SameHosts(js, s, step);
    }
  }

  /** In every reachable state, the known host of a device is the one last told: by the latest sync, unless a recovery
      found one since. */
  lemma {:induction false} KnownHostIsLatest(js: Js, steps: seq<Step>, u: string)
    requires Run(js, Init(), steps)
    ensures After(js, Init(), steps).knownHosts.Get(u) == HostTold(js, steps, u)
    decreases |steps|
  {
    hide Next;
    hide Enabled;
    hide HostToldIn;
    if steps != [] {
      var n := |steps| - 1;
      KnownHostIsLatest(js, steps[..n], u);
      HostStep(js, After(js, Init(), steps[..n]), steps[n], u);
    }
  }

  // ----------------------------------------------------------------- subscriptions

  lemma {:induction false} ValuesAre<V(!new)>(m: JsMap<V>, keys: seq<string>)
    requires forall k :: k in keys ==> k in m.at
    ensures |ValuesIn(m, keys)| == |keys|
    ensures forall i :: 0 <= i < |keys| ==> ValuesIn(m, keys)[i] == m.at[keys[i]]
  {
    if keys != [] {
      assert keys[0] in keys && forall k :: k in keys[1..] ==> k in keys;
      ValuesAre(m, keys[1..]);
    }
  }

  /** `list` holds the values of the map, each once per key, in an order. */
  ghost predicate ValuesSorted<V(!new)>(m: JsMap<V>, le: (V, V) -> bool, list: seq<V>) {
    && |list| == |m.keys| && Sorted(le, list)
    && forall x :: x in list <==> exists u :: u in m.at && m.at[u] == x
  }

  lemma SortedValues<V(!new)>(m: JsMap<V>, le: (V, V) -> bool)
    requires m.Valid() && TotalPreorder(le)
    ensures ValuesSorted(m, le, StableSort(le, ValuesIn(m, m.keys)))
  {
    hide TotalPreorder;
    hide Sorted;
    hide NoDup;
    var values := ValuesIn(m, m.keys);
    ValuesAre(m, m.keys);
    StableSortSorts(le, values);
    StableSortMembers(le, values);
    hide StableSort;
    forall x
      ensures x in values <==> exists u :: u in m.at && m.at[u] == x
    {
      if x in values {
        var i :| 0 <= i < |values| && values[i] == x;
        assert m.keys[i] in m.keys;
      }
      if u :| u in m.at && m.at[u] == x {
        var i :| 0 <= i < |m.keys| && m.keys[i] == u;
        assert values[i] == x;
      }
    }
  }

  lemma OrderByKey<V(!new)>(le: (string, string) -> bool, key: V -> string, byKey: (V, V) -> bool)
    requires TotalPreorder(le) && forall a, b :: byKey(a, b) <==> le(key(a), key(b))
    ensures TotalPreorder(byKey)
  {
    forall a: V, b: V
      ensures byKey(a, b) || byKey(b, a)
    {
      assert le(key(a), key(b)) || le(key(b), key(a));
    }
    forall a: V, b: V, c: V | byKey(a, b) && byKey(b, c)
      ensures byKey(a, c)
    {
      assert le(key(a), key(b)) && le(key(b), key(c)) ==> le(key(a), key(c));
    }
  }

  lemma UuidOrders(js: Js)
    requires Collates(js)
    ensures TotalPreorder(StateUuidLe(js)) && TotalPreorder(PowerUuidLe(js))
  {
    OrderByKey(js.localeLe, (s: DeviceState) => s.uuid, StateUuidLe(js));
    OrderByKey(js.localeLe, (p: PowerReading) => p.uuid, PowerUuidLe(js));
    hide TotalPreorder;
  }

  /** A new subscriber gets a fresh number and is first told all cached states, and then all readings, both ordered by
      uuid; nobody else is told anything. */
  lemma SubscribesSo(js: Js, s: Server, step: Step)
    requires step.Subscribes? && Enabled(s, step) && Collates(js) && s.stateByUuid.Valid() && s.powerByUuid.Valid()
    ensures var t := Next(js, s, step); var id := s.nextSubscriberId;
      && t == s.(subscribers := t.subscribers, nextSubscriberId := id + 1)
      && t.subscribers.Keys == s.subscribers.Keys + {id}
      && (forall other :: other in s.subscribers && other != id ==> t.subscribers[other] == s.subscribers[other])
      && var queue := t.subscribers[id];
         |queue| == 2 && queue[0].Snapshot? && queue[1].PowerSnapshot?
         && ValuesSorted(s.stateByUuid, (a: DeviceState, b: DeviceState) => js.localeLe(a.uuid, b.uuid), queue[0].states)
         && ValuesSorted(s.powerByUuid, (a: PowerReading, b: PowerReading) => js.localeLe(a.uuid, b.uuid), queue[1].readings)
  {
    hide TotalPreorder;
    hide StableSort;
    hide ValuesIn;
    hide NoDup;
    UuidOrders(js);
    SortedValues(s.stateByUuid, StateUuidLe(js));
    SortedValues(s.powerByUuid, PowerUuidLe(js));
    SameOrder(s, js, StableSort(StateUuidLe(js), ValuesIn(s.stateByUuid, s.stateByUuid.keys)),
              StableSort(PowerUuidLe(js), ValuesIn(s.powerByUuid, s.powerByUuid.keys)));
    hide ValuesSorted;
  }

  lemma SameOrder(s: Server, js: Js, states: seq<DeviceState>, readings: seq<PowerReading>)
    requires ValuesSorted(s.stateByUuid, StateUuidLe(js), states) && ValuesSorted(s.powerByUuid, PowerUuidLe(js), readings)
    ensures ValuesSorted(s.stateByUuid, (a: DeviceState, b: DeviceState) => js.localeLe(a.uuid, b.uuid), states)
    ensures ValuesSorted(s.powerByUuid, (a: PowerReading, b: PowerReading) => js.localeLe(a.uuid, b.uuid), readings)
  {
  }
}
