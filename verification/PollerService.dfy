/** The service itself: an object whose maps, sets and queues change in place. Each method is one stretch of code
    between two `await`s, and does to the object what the step function of that stretch does to its state. */
module PollerService {
  import opened Prelude
  import opened Text
  import opened Devices
  import opened Json
  import opened Timing
  import P = Poller

  lemma BroadcastTwo(subscribers: map<nat, seq<P.Event>>, a: seq<P.Event>, b: seq<P.Event>)
    ensures P.Broadcast(P.Broadcast(subscribers, a), b) == P.Broadcast(subscribers, a + b)
  {
    var twice, once := P.Broadcast(P.Broadcast(subscribers, a), b), P.Broadcast(subscribers, a + b);
    assert twice.Keys == once.Keys;
    forall id | id in subscribers
      ensures twice[id] == once[id]
    {
      assert (subscribers[id] + a) + b == subscribers[id] + (a + b);
    }
  }

  lemma BroadcastNone(subscribers: map<nat, seq<P.Event>>)
    ensures P.Broadcast(subscribers, []) == subscribers
  {
    var none := P.Broadcast(subscribers, []);
    assert none.Keys == subscribers.Keys;
    forall id | id in subscribers
      ensures none[id] == subscribers[id]
    {
      assert subscribers[id] + [] == subscribers[id];
    }
  }

  lemma {:induction false} FilterAppend<T(!new)>(p: T -> bool, a: seq<T>, x: T)
    ensures Filter(p, a + [x]) == if p(x) then Filter(p, a) + [x] else Filter(p, a)
  {
    if a != [] {
      assert (a + [x])[1..] == a[1..] + [x];
      FilterAppend(p, a[1..], x);
    }
  }

  lemma FilterNext<T(!new)>(p: T -> bool, s: seq<T>, k: nat)
    requires k < |s|
    ensures Filter(p, s[..k + 1]) == if p(s[k]) then Filter(p, s[..k]) + [s[k]] else Filter(p, s[..k])
  {
    assert s[..k + 1] == s[..k] + [s[k]];
    FilterAppend(p, s[..k], s[k]);
  }

  lemma {:induction false} InsertSame<T(!new)>(le: (T, T) -> bool, other: (T, T) -> bool, x: T, s: seq<T>)
    requires forall a, b :: le(a, b) == other(a, b)
    ensures Insert(le, x, s) == Insert(other, x, s)
  {
    if s != [] {
      InsertSame(le, other, x, s[1..]);
    }
  }

  /** Comparators that answer alike sort alike. */
  lemma {:induction false} StableSortSame<T(!new)>(le: (T, T) -> bool, other: (T, T) -> bool, s: seq<T>)
    requires forall a, b :: le(a, b) == other(a, b)
    ensures StableSort(le, s) == StableSort(other, s)
  {
    if s != [] {
      StableSortSame(le, other, s[1..]);
      InsertSame(le, other, s[0], StableSort(le, s[1..]));
    }
  }

  lemma DueHaveMeta(s: P.Server, now: int)
    requires s.metaByUuid.Valid()
    ensures forall u :: u in P.Due(s, now) ==> u in s.metaByUuid.at
  {
    StableSortMembers(P.DueLe(s), Filter(P.IsDue(s, now), s.metaByUuid.keys));
  }

  /** Launching polls of devices with bookkeeping adds none. */
  lemma {:induction false} LaunchKeepsMeta(s: P.Server, due: seq<string>, now: int)
    requires forall u :: u in due ==> u in s.metaByUuid.at
    ensures P.LaunchPolls(s, due, now).metaByUuid == s.metaByUuid
    decreases |due|
  {
    if due != [] && |s.inFlight| < P.POLL_MAX_CONCURRENCY && due[0] != "" {
      assert due[0] in due && forall u :: u in due[1..] ==> u in due;
      LaunchKeepsMeta(P.StartPoll(s, due[0], Source.Poller, P.ByTick, now).0, due[1..], now);
    }
  }

  lemma SetSame<V>(m: JsMap<V>, k: string)
    ensures m.Get(k).Some? ==> m.Set(k, m.Get(k).value) == m
  {
    assert k in m.at ==> m.at[k := m.at[k]] == m.at;
  }

  /** The broadcasts of a completing poll, one after the other. */
  lemma EventsInTurn(subscribers: map<nat, seq<P.Event>>, prev: Option<DeviceState>, c: DeviceState)
    ensures var first := if HasMaterialStateChange(prev, c) then P.Broadcast(subscribers, [P.StateChanged(c)]) else subscribers;
      P.Broadcast(subscribers, P.EventsAfter(prev, c))
      == if c.stale && (prev.None? || !prev.value.stale) then P.Broadcast(first, [P.WentStale(c)]) else first
  {
    hide HasMaterialStateChange;
    hide P.Broadcast;
    BroadcastNone(subscribers);
    var changed := if HasMaterialStateChange(prev, c) then [P.StateChanged(c)] else [];
    var alarm := if c.stale && (prev.None? || !prev.value.stale) then [P.WentStale(c)] else [];
    assert P.EventsAfter(prev, c) == changed + alarm;
    BroadcastTwo(subscribers, changed, alarm);
    BroadcastNone(P.Broadcast(subscribers, changed));
  }

  lemma ReadingEventsInTurn(subscribers: map<nat, seq<P.Event>>, prev: Option<PowerReading>, p: PowerReading)
    ensures var first := if P.PowerMoved(prev, p) then P.Broadcast(subscribers, [P.PowerChanged(p)]) else subscribers;
      P.Broadcast(subscribers, P.PowerEvents(prev, p))
      == if p.stale && (prev.None? || !prev.value.stale) then P.Broadcast(first, [P.MeterWentStale(p)]) else first
  {
    hide P.PowerMoved;
    hide P.Broadcast;
    BroadcastNone(subscribers);
    var changed := if P.PowerMoved(prev, p) then [P.PowerChanged(p)] else [];
    var alarm := if p.stale && (prev.None? || !prev.value.stale) then [P.MeterWentStale(p)] else [];
    assert P.PowerEvents(prev, p) == changed + alarm;
    BroadcastTwo(subscribers, changed, alarm);
    BroadcastNone(P.Broadcast(subscribers, changed));
  }

  class StatePollerService {
    var stateByUuid: JsMap<DeviceState>
    var metaByUuid: JsMap<PollMeta>
    var knownHosts: JsMap<P.KnownHost>
    var powerByUuid: JsMap<PowerReading>
    var inFlight: map<string, nat>
    var telemetryInFlight: map<string, nat>
    var resolving: set<string>
    var subscribers: map<nat, seq<P.Event>>
    var nextSubscriberId: nat
    var lastSyncHostsAt: int
    var tick: P.TickPhase
    var tasks: seq<P.Task>
    var telemetryTasks: seq<P.TelemetryTask>
    var recoveries: seq<P.Recovery>
    var calls: seq<P.Call>

    ghost function State(): P.Server
      reads this
    {
      P.Server(stateByUuid, metaByUuid, knownHosts, powerByUuid, inFlight, telemetryInFlight, resolving, subscribers,
               nextSubscriberId, lastSyncHostsAt, tick, tasks, telemetryTasks, recoveries, calls)
    }

    constructor ()
      ensures State() == P.Init()
    {
      stateByUuid, metaByUuid, knownHosts, powerByUuid := JsMap([], map[]), JsMap([], map[]), JsMap([], map[]), JsMap([], map[]);
      inFlight, telemetryInFlight, resolving, subscribers, nextSubscriberId := map[], map[], {}, map[], 1;
      lastSyncHostsAt, tick, tasks, telemetryTasks, recoveries, calls := 0, P.Idle, [], [], [], [];
    }

    /** `ensureMeta` */
    method EnsureMeta(uuid: string, now: int) returns (meta: PollMeta)
      modifies this`metaByUuid
      ensures State() == P.EnsureMeta(old(State()), uuid, now)
      ensures metaByUuid.Get(uuid) == Some(meta)
    {
      if uuid in metaByUuid.at {
        return metaByUuid.at[uuid];
      }
      meta := CreateMeta(now);
      metaByUuid := metaByUuid.Set(uuid, meta);
    }

    method BoostDevice(uuid: string, now: int)
      modifies this`metaByUuid
      ensures State() == P.BoostDevice(old(State()), uuid, now)
    {
      if uuid == "" {
        return;
      }
      MoveUp(uuid, now);
    }

    /** The device is due now, and often for a while. */
    method MoveUp(uuid: string, now: int)
      modifies this`metaByUuid
      ensures metaByUuid == old(metaByUuid).Set(
        uuid, P.MetaAt(old(State()), uuid, now).(boostUntilAt := Some(now + BOOST_WINDOW_MS), nextDueAt := now))
    {
      var meta := EnsureMeta(uuid, now);
      meta := meta.(boostUntilAt := Some(now + BOOST_WINDOW_MS));
      meta := meta.(nextDueAt := now);
      metaByUuid := metaByUuid.Set(uuid, meta);
    }

    /** `broadcast`: one push per subscriber. */
    method Broadcast(e: P.Event)
      modifies this`subscribers
      ensures subscribers == P.Broadcast(old(subscribers), [e])
    {
      var ids := subscribers.Keys;
      while ids != {}
        invariant ids <= subscribers.Keys && subscribers.Keys == old(subscribers).Keys
        invariant forall id :: id in subscribers ==>
          subscribers[id] == if id in ids then old(subscribers)[id] else old(subscribers)[id] + [e]
        decreases |ids|
      {
        var id :| id in ids;
        ids := ids - {id};
        subscribers := subscribers[id := subscribers[id] + [e]];
      }
    }

    // -------------------------------------------------------------- host recovery

    /** `tryResolveHost` up to its first `await` */
    method TryResolveHost(uuid: string, now: int)
      modifies this`metaByUuid, this`resolving, this`recoveries
      ensures State() == P.TryResolveHost(old(State()), uuid, now)
    {
      if uuid in resolving {
        return;
      }
      var meta := EnsureMeta(uuid, now);
      if IsSet(meta.lastResolveAttemptAt) && now - meta.lastResolveAttemptAt.value < RESOLVE_COOLDOWN_MS {
        return;
      }
      resolving := resolving + {uuid};
      metaByUuid := metaByUuid.Set(uuid, meta.(lastResolveAttemptAt := Some(now)));
      recoveries := recoveries + [P.Recovery(uuid, now, true)];
    }

    /** The end of `tryResolveHost`: a host was found and saved, or not. */
    method EndRecovery(r: nat, found: Option<P.KnownHost>, now: int)
      requires r < |recoveries|
      modifies this`metaByUuid, this`resolving, this`recoveries, this`knownHosts
      ensures State() == P.EndRecovery(old(State()), r, found, now)
    {
      var uuid := recoveries[r].uuid;
      if found.Some? {
        knownHosts := knownHosts.Set(uuid, found.value);
        MoveUp(uuid, now);
      }
      resolving := resolving - {uuid};
      recoveries := recoveries[r := recoveries[r].(running := false)];
    }

    // ------------------------------------------------------------- one state poll

    /** `pollDevice` up to its first `await` */
    method StartPoll(uuid: string, reason: Source, owner: P.Owner, now: int) returns (id: nat)
      modifies this`metaByUuid, this`tasks, this`inFlight
      ensures (State(), id) == P.StartPoll(old(State()), uuid, reason, owner, now)
    {
      if uuid in inFlight {
        return inFlight[uuid];
      }
      var _ := EnsureMeta(uuid, now);
      id := |tasks|;
      tasks := tasks + [P.Task(uuid, now, reason, owner, None, false)];
      inFlight := inFlight[uuid := id];
    }

    /** Cache a fresh state and broadcast it if it changed materially, otherwise only note who polled. */
    method CacheFresh(uuid: string, next: DeviceState) returns (changed: bool)
      requires !next.stale
      modifies this`stateByUuid, this`subscribers
      ensures changed == HasMaterialStateChange(old(stateByUuid).Get(uuid), next)
      ensures stateByUuid == old(stateByUuid).Set(uuid, P.StoredAfter(old(stateByUuid).Get(uuid), next))
      ensures subscribers == P.Broadcast(old(subscribers), P.EventsAfter(old(stateByUuid).Get(uuid), next))
    {
      hide HasMaterialStateChange;
      hide P.Broadcast;
      var prev := stateByUuid.Get(uuid);
      EventsInTurn(subscribers, prev, next);
      hide P.EventsAfter;
      changed := HasMaterialStateChange(prev, next);
      if changed {
        stateByUuid := stateByUuid.Set(uuid, next);
        Broadcast(P.StateChanged(next));
      } else if prev.None? {
        stateByUuid := stateByUuid.Set(uuid, next);
      } else {
        stateByUuid := stateByUuid.Set(uuid, prev.value.(source := next.source));
      }
    }

    /** Cache and broadcast a stale state if that is news, and raise the alarm if the device was not stale before. */
    method CacheStale(uuid: string, staleNext: DeviceState)
      requires staleNext.stale
      modifies this`stateByUuid, this`subscribers
      ensures stateByUuid == old(stateByUuid).Set(uuid, P.StoredAfter(old(stateByUuid).Get(uuid), staleNext))
      ensures subscribers == P.Broadcast(old(subscribers), P.EventsAfter(old(stateByUuid).Get(uuid), staleNext))
    {
      hide HasMaterialStateChange;
      hide P.Broadcast;
      var prev := stateByUuid.Get(uuid);
      EventsInTurn(subscribers, prev, staleNext);
      SetSame(stateByUuid, uuid);
      hide P.EventsAfter;
      var becameStale := prev.None? || !prev.value.stale;
      if HasMaterialStateChange(prev, staleNext) {
        stateByUuid := stateByUuid.Set(uuid, staleNext);
        Broadcast(P.StateChanged(staleNext));
      } else if prev.None? {
        stateByUuid := stateByUuid.Set(uuid, staleNext);
      }
      if becameStale {
        Broadcast(P.WentStale(staleNext));
      }
    }

    /** The bookkeeping of a success. */
    method NoteSuccess(t: P.Task, changed: bool, ghost prev: Option<DeviceState>, ghost next: DeviceState, random: real)
      requires !next.stale && changed == HasMaterialStateChange(prev, next)
      modifies this`metaByUuid
      ensures metaByUuid == old(metaByUuid).Set(
        t.uuid, P.MetaAfter(P.MetaAt(old(State()), t.uuid, t.startedAt), prev, next, t.startedAt, random))
    {
      hide HasMaterialStateChange;
      hide NextIntervalMs;
      var meta := if t.uuid in metaByUuid.at then metaByUuid.at[t.uuid] else CreateMeta(t.startedAt);
      if changed {
        meta := meta.(lastChangeAt := Some(t.startedAt));
      }
      meta := meta.(failureCount := 0, lastSuccessAt := Some(t.startedAt));
      metaByUuid := metaByUuid.Set(t.uuid, meta.(nextDueAt := t.startedAt + NextIntervalMs(meta, t.startedAt, random)));
    }

    /** The bookkeeping of a failure. */
    method NoteFailure(t: P.Task, ghost prev: Option<DeviceState>, ghost next: DeviceState, random: real)
      requires next.stale
      modifies this`metaByUuid
      ensures metaByUuid == old(metaByUuid).Set(
        t.uuid, P.MetaAfter(P.MetaAt(old(State()), t.uuid, t.startedAt), prev, next, t.startedAt, random))
    {
      hide NextIntervalMs;
      var meta := if t.uuid in metaByUuid.at then metaByUuid.at[t.uuid] else CreateMeta(t.startedAt);
      meta := meta.(failureCount := meta.failureCount + 1);
      metaByUuid := metaByUuid.Set(t.uuid, meta.(nextDueAt := t.startedAt + NextIntervalMs(meta, t.startedAt, random)));
    }

    /** The end of a poll that read a state. */
    method PollSucceeded(id: nat, next: DeviceState, now: int, random: real)
      requires id < |tasks| && !next.stale && next.uuid == tasks[id].uuid
      modifies this`stateByUuid, this`metaByUuid, this`subscribers, this`tasks
      ensures State() == P.CompletePoll(old(State()), id, next, now, random)
    {
      hide HasMaterialStateChange;
      hide P.MetaAfter;
      hide P.Broadcast;
      hide P.StoredAfter;
      hide P.EventsAfter;
      var t := tasks[id];
      ghost var prev := stateByUuid.Get(t.uuid);
      var changed := CacheFresh(t.uuid, next);
      NoteSuccess(t, changed, prev, next, random);
      tasks := tasks[id := t.(result := Some(P.Polled(stateByUuid.at[t.uuid])))];
    }

    /** The end of a poll that failed; the third failure in a row and later ones look for the device's host. */
    method PollFailed(id: nat, staleNext: DeviceState, now: int, random: real)
      requires id < |tasks| && staleNext.stale && staleNext.error.Some? && staleNext.uuid == tasks[id].uuid
      modifies this`stateByUuid, this`metaByUuid, this`subscribers, this`tasks, this`resolving, this`recoveries
      ensures State() == P.CompletePoll(old(State()), id, staleNext, now, random)
    {
      RecordFailure(id, staleNext, now, random);
      hide P.Record;
      var uuid := tasks[id].uuid;
      if uuid in metaByUuid.at && metaByUuid.at[uuid].failureCount >= 3 {
        TryResolveHost(uuid, now);
      }
    }

    method RecordFailure(id: nat, staleNext: DeviceState, now: int, random: real)
      requires id < |tasks| && staleNext.stale && staleNext.error.Some? && staleNext.uuid == tasks[id].uuid
      modifies this`stateByUuid, this`metaByUuid, this`subscribers, this`tasks
      ensures State() == P.Record(old(State()), id, staleNext, now, random)
      ensures |tasks| == old(|tasks|) && tasks[id].uuid == old(tasks[id].uuid)
    {
      hide HasMaterialStateChange;
      hide P.MetaAfter;
      hide P.Broadcast;
      hide P.StoredAfter;
      hide P.EventsAfter;
      var t := tasks[id];
      ghost var prev := stateByUuid.Get(t.uuid);
      NoteFailure(t, prev, staleNext, random);
      CacheStale(t.uuid, staleNext);
      tasks := tasks[id := t.(result := Some(P.PollFailed(P.PollError(t.uuid, P.PollCode(staleNext.error.value), staleNext.error.value, now))))];
    }

    /** `pollDevice` after its last `await`, whatever it waited for came to. */
    method FinishPoll(js: Js, id: nat, attempt: P.Attempt, now: int, random: real)
      requires id < |tasks|
      modifies this`stateByUuid, this`metaByUuid, this`subscribers, this`tasks, this`resolving, this`recoveries
      ensures State() == P.CompletePoll(old(State()), id, P.Candidate(js, old(State()), old(tasks[id]), attempt, now), now, random)
    {
      hide P.CompletePoll;
      hide P.ReadOut;
      var t := tasks[id];
      var prev := stateByUuid.Get(t.uuid);
      var knownHost := if t.uuid in knownHosts.at then knownHosts.at[t.uuid].host else "";
      match attempt {
        case Threw(message) => PollFailed(id, P.StaleState(t.uuid, knownHost, prev, now, t.reason, message), now, random);
        case Replied(host, resp) =>
          var r := P.ReadOut(js, resp);
          if r.None? {
            PollFailed(id, P.StaleState(t.uuid, knownHost, prev, now, t.reason, P.UNAVAILABLE), now, random);
          } else {
            PollSucceeded(id, P.FreshState(t.uuid, host, r.value, prev, now, t.reason), now, random);
          }
      }
    }

    /** The `finally` of `pollDevice` */
    method ReleasePoll(id: nat)
      requires id < |tasks|
      modifies this`inFlight, this`tasks
      ensures State() == P.ReleasePoll(old(State()), id)
    {
      inFlight := inFlight - {tasks[id].uuid};
      tasks := tasks[id := tasks[id].(released := true)];
    }

    // ----------------------------------------------------------- a telemetry poll

    /** `pollTelemetry` up to its first `await` */
    method StartTelemetry(uuid: string, now: int)
      modifies this`metaByUuid, this`telemetryTasks, this`telemetryInFlight
      ensures State() == P.StartTelemetry(old(State()), uuid, now)
    {
      if uuid in telemetryInFlight {
        return;
      }
      var _ := EnsureMeta(uuid, now);
      telemetryInFlight := telemetryInFlight[uuid := |telemetryTasks|];
      telemetryTasks := telemetryTasks + [P.TelemetryTask(uuid, now, false, false)];
    }

    method CacheReading(uuid: string, next: PowerReading)
      modifies this`powerByUuid, this`subscribers
      ensures powerByUuid == old(powerByUuid).Set(uuid, next)
      ensures subscribers == P.Broadcast(old(subscribers), P.PowerEvents(old(powerByUuid).Get(uuid), next))
    {
      var prev := powerByUuid.Get(uuid);
      ReadingEventsInTurn(subscribers, prev, next);
      hide P.Broadcast;
      hide P.PowerMoved;
      hide P.PowerEvents;
      var becameStale := next.stale && (prev.None? || !prev.value.stale);
      var changed := P.PowerMoved(prev, next);
      powerByUuid := powerByUuid.Set(uuid, next);
      if changed {
        Broadcast(P.PowerChanged(next));
      }
      if becameStale {
        Broadcast(P.MeterWentStale(next));
      }
    }

    /** The bookkeeping of a telemetry poll. */
    method NoteTelemetry(t: P.TelemetryTask, reading: P.TelemetryAttempt)
      modifies this`metaByUuid
      ensures metaByUuid == old(metaByUuid).Set(
        t.uuid, P.TelemetryMeta(P.MetaAt(old(State()), t.uuid, t.startedAt), reading, t.startedAt))
    {
      hide P.TelemetryDue;
      var meta := if t.uuid in metaByUuid.at then metaByUuid.at[t.uuid] else CreateMeta(t.startedAt);
      match reading {
        case NoMeter =>
          meta := meta.(telemetryNextDueAt := t.startedAt + Max(60_000, TELEMETRY_INTERVAL_MS));
        case Measured(_, _, _) =>
          meta := meta.(telemetryFailureCount := 0, telemetryLastSuccessAt := Some(t.startedAt));
          meta := meta.(telemetryNextDueAt := P.TelemetryDue(t.startedAt, meta.telemetryFailureCount));
        case TelemetryThrew(_) =>
          meta := meta.(telemetryFailureCount := meta.telemetryFailureCount + 1);
          meta := meta.(telemetryNextDueAt := P.TelemetryDue(t.startedAt, meta.telemetryFailureCount));
      }
      metaByUuid := metaByUuid.Set(t.uuid, meta);
    }

    /** `pollTelemetry` after its last `await` */
    method FinishTelemetry(id: nat, reading: P.TelemetryAttempt, now: int)
      requires id < |telemetryTasks|
      modifies this`metaByUuid, this`powerByUuid, this`subscribers, this`telemetryTasks
      ensures State() == P.CompleteTelemetry(old(State()), id, reading, now)
    {
      hide P.PowerEvents;
      hide P.Broadcast;
      hide P.TelemetryMeta;
      hide P.FreshPower;
      hide P.StalePower;
      var t := telemetryTasks[id];
      var prev := powerByUuid.Get(t.uuid);
      NoteTelemetry(t, reading);
      match reading {
        case NoMeter =>
        case Measured(_, _, _) => CacheReading(t.uuid, P.FreshPower(t.uuid, reading, prev, now));
        case TelemetryThrew(message) =>
          var knownHost := if t.uuid in knownHosts.at then knownHosts.at[t.uuid].host else "";
          CacheReading(t.uuid, P.StalePower(t.uuid, knownHost, prev, now, message));
      }
      telemetryTasks := telemetryTasks[id := t.(done := true)];
    }

    method ReleaseTelemetry(id: nat)
      requires id < |telemetryTasks|
      modifies this`telemetryInFlight, this`telemetryTasks
      ensures State() == P.ReleaseTelemetry(old(State()), id)
    {
      telemetryInFlight := telemetryInFlight - {telemetryTasks[id].uuid};
      telemetryTasks := telemetryTasks[id := telemetryTasks[id].(released := true)];
    }

    // ------------------------------------------------------------------------ tick

    /** `tick` up to the host sync it may await */
    method BeginTick(now: int)
      modifies this`tick
      ensures State() == old(State()).(tick :=
        if old(tick) != P.Idle then old(tick) else if now - lastSyncHostsAt > SYNC_HOSTS_EVERY_MS then P.Syncing else P.Scanning)
    {
      if tick != P.Idle {
        return;
      }
      tick := if now - lastSyncHostsAt > SYNC_HOSTS_EVERY_MS then P.Syncing else P.Scanning;
    }

    /** `syncKnownHosts` once the configuration is read */
    method SyncKnownHosts(hosts: seq<(string, P.KnownHost)>, now: int)
      modifies this`lastSyncHostsAt, this`knownHosts, this`metaByUuid
      ensures State() == P.SyncKnownHosts(old(State()), hosts, now)
    {
      lastSyncHostsAt := now;
      knownHosts := JsMap([], map[]);
      ghost var cleared := State();
      hide P.EnsureMeta;
      for k := 0 to |hosts|
        invariant P.AddHosts(State(), hosts[k..], now) == P.AddHosts(cleared, hosts, now)
      {
        assert hosts[k..][0] == hosts[k] && hosts[k..][1..] == hosts[k + 1..];
        if hosts[k].1.host == "" {
          continue;
        }
        knownHosts := knownHosts.Set(hosts[k].0, hosts[k].1);
        var _ := EnsureMeta(hosts[k].0, now);
      }
      assert hosts[|hosts|..] == [];
    }

    /** The devices due for a state poll and for a telemetry poll, in the order of their bookkeeping. */
    method CollectDue(now: int) returns (due: seq<string>, dueTelemetry: seq<string>)
      requires metaByUuid.Valid()
      ensures due == Filter(P.IsDue(State(), now), metaByUuid.keys)
      ensures dueTelemetry == Filter(P.IsTelemetryDue(State(), now), metaByUuid.keys)
    {
      hide NoDup;
      var keys := metaByUuid.keys;
      due, dueTelemetry := [], [];
      for k := 0 to |keys|
        invariant due == Filter(P.IsDue(State(), now), keys[..k])
        invariant dueTelemetry == Filter(P.IsTelemetryDue(State(), now), keys[..k])
      {
        FilterNext(P.IsDue(State(), now), keys, k);
        FilterNext(P.IsTelemetryDue(State(), now), keys, k);
        var uuid := keys[k];
        assert uuid in keys;
        var meta := metaByUuid.at[uuid];
        if uuid !in knownHosts.at {
          continue;
        }
        if uuid in inFlight {
          continue;
        }
        if meta.nextDueAt <= now {
          due := due + [uuid];
        }
        if uuid !in telemetryInFlight && meta.telemetryNextDueAt <= now {
          dueTelemetry := dueTelemetry + [uuid];
        }
      }
      assert keys[..|keys|] == keys;
    }

    method LaunchDue(list: seq<string>, now: int)
      modifies this`metaByUuid, this`tasks, this`inFlight
      ensures State() == P.LaunchPolls(old(State()), list, now)
    {
      hide P.StartPoll;
      var due := list;
      while due != [] && |inFlight| < P.POLL_MAX_CONCURRENCY
        invariant P.LaunchPolls(State(), due, now) == P.LaunchPolls(old(State()), list, now)
        decreases |due|
      {
        var uuid := due[0];
        if uuid == "" {
          break;
        }
        due := due[1..];
        var _ := StartPoll(uuid, Source.Poller, P.ByTick, now);
      }
    }

    method LaunchDueTelemetry(list: seq<string>, now: int)
      modifies this`metaByUuid, this`telemetryTasks, this`telemetryInFlight
      ensures State() == P.LaunchTelemetry(old(State()), list, now)
    {
      hide P.StartTelemetry;
      var due := list;
      while due != [] && |telemetryInFlight| < P.TELEMETRY_MAX_CONCURRENCY
        invariant P.LaunchTelemetry(State(), due, now) == P.LaunchTelemetry(old(State()), list, now)
        decreases |due|
      {
        var uuid := due[0];
        if uuid == "" {
          break;
        }
        due := due[1..];
        StartTelemetry(uuid, now);
      }
    }

    /** The rest of `tick`: look for due devices, and launch what the caps allow. */
    method ScanDevices(now: int)
      requires metaByUuid.Valid()
      modifies this`metaByUuid, this`tasks, this`inFlight, this`telemetryTasks, this`telemetryInFlight, this`tick
      ensures State() == P.ScanTick(old(State()), now)
    {
      ghost var s := State();
      var due, dueTelemetry := CollectDue(now);
      DueHaveMeta(s, now);
      due := SortByDue(due);
      LaunchDue(due, now);
      LaunchKeepsMeta(s, due, now);
      hide P.LaunchPolls;
      hide P.LaunchTelemetry;
      hide P.IsDue;
      hide P.IsTelemetryDue;
      hide NoDup;
      dueTelemetry := SortByTelemetryDue(dueTelemetry);
      LaunchDueTelemetry(dueTelemetry, now);
      tick := P.Idle;
    }

    method SortByDue(list: seq<string>) returns (sorted: seq<string>)
      ensures sorted == StableSort(P.DueLe(State()), list)
    {
      var metas := metaByUuid.at;
      var le := (a: string, b: string) =>
        (if a in metas then metas[a].nextDueAt else 0) <= (if b in metas then metas[b].nextDueAt else 0);
      StableSortSame(le, P.DueLe(State()), list);
      return StableSort(le, list);
    }

    method SortByTelemetryDue(list: seq<string>) returns (sorted: seq<string>)
      ensures forall s: P.Server :: s.metaByUuid == metaByUuid ==> sorted == StableSort(P.TelemetryDueLe(s), list)
    {
      var metas := metaByUuid.at;
      var le := (a: string, b: string) =>
        (if a in metas then metas[a].telemetryNextDueAt else 0) <= (if b in metas then metas[b].telemetryNextDueAt else 0);
      forall s: P.Server | s.metaByUuid == metaByUuid
        ensures StableSort(le, list) == StableSort(P.TelemetryDueLe(s), list)
      {
        StableSortSame(le, P.TelemetryDueLe(s), list);
      }
      return StableSort(le, list);
    }

    // --------------------------------------------------------------------- pollNow

    /** `pollNow` after its host sync, up to the creation of its workers */
    method BeginPollNow(requested: Option<seq<string>>, reason: Source, now: int)
      modifies this`metaByUuid, this`calls
      ensures State() == P.BeginPollNow(old(State()), requested, reason, now)
    {
      hide P.BoostDevice;
      var uuids := if requested.Some? && requested.value != [] then P.Distinct(requested.value) else knownHosts.keys;
      for k := 0 to |uuids|
        invariant P.BoostAll(State(), uuids[k..], now) == P.BoostAll(old(State()), uuids, now)
      {
        assert uuids[k..][0] == uuids[k] && uuids[k..][1..] == uuids[k + 1..];
        BoostDevice(uuids[k], now);
      }
      assert uuids[|uuids|..] == [];
      calls := calls + [P.Call(reason, uuids, uuids, seq(P.WorkerCount(|uuids|), _ => P.Ready), [], [])];
    }

    /** A worker at the top of its loop */
    method WorkerTake(c: nat, w: nat, now: int)
      requires c < |calls| && w < |calls[c].workers|
      modifies this`metaByUuid, this`tasks, this`inFlight, this`calls
      ensures State() == P.WorkerTakes(old(State()), c, w, now)
    {
      hide P.EnsureMeta;
      var call := calls[c];
      if call.queue == [] {
        calls := calls[c := call.(workers := call.workers[w := P.Finished])];
        return;
      }
      var uuid := call.queue[0];
      call := call.(queue := call.queue[1..]);
      if uuid == "" {
        calls := calls[c := call.(workers := call.workers[w := P.Finished])];
        return;
      }
      var id := StartPoll(uuid, call.reason, P.ByWorker(c, w), now);
      calls := calls[c := call.(workers := call.workers[w := P.Waiting(id)])];
    }

    /** A worker whose poll has come to a result */
    method WorkerCollect(c: nat, w: nat)
      requires c < |calls| && w < |calls[c].workers| && calls[c].workers[w].Waiting?
      requires calls[c].workers[w].task < |tasks| && tasks[calls[c].workers[w].task].result.Some?
      modifies this`calls
      ensures State() == old(State()).(
        calls := old(calls)[c := P.Collected(old(calls)[c], w, tasks[old(calls)[c].workers[w].task].result.value)])
    {
      var call := calls[c];
      match tasks[call.workers[w].task].result.value {
        case Polled(state) => call := call.(states := call.states + [state]);
        case PollFailed(error) => call := call.(errors := call.errors + [error]);
      }
      calls := calls[c := call.(workers := call.workers[w := P.Ready])];
    }

    // ---------------------------------------------------------------------- stream

    method PushToSubscriber(id: nat, e: P.Event)
      modifies this`subscribers
      ensures subscribers == if id in old(subscribers) then old(subscribers)[id := old(subscribers)[id] + [e]] else old(subscribers)
    {
      if id !in subscribers {
        return;
      }
      subscribers := subscribers[id := subscribers[id] + [e]];
    }

    /** The `start` of `createStreamResponse` */
    method Subscribe(js: Js) returns (id: nat)
      modifies this`subscribers, this`nextSubscriberId
      ensures State() == P.Subscribe(js, old(State())) && id == old(nextSubscriberId)
    {
      hide StableSort;
      hide P.ValuesIn;
      id := nextSubscriberId;
      nextSubscriberId := nextSubscriberId + 1;
      subscribers := subscribers[id := []];
      PushToSubscriber(id, P.Snapshot(StableSort(P.StateUuidLe(js), P.ValuesIn(stateByUuid, stateByUuid.keys))));
      PushToSubscriber(id, P.PowerSnapshot(StableSort(P.PowerUuidLe(js), P.ValuesIn(powerByUuid, powerByUuid.keys))));
      assert subscribers[id] == P.Greeting(js, old(State()));
    }

    /** Its `cancel` */
    method Unsubscribe(id: nat)
      modifies this`subscribers
      ensures State() == old(State()).(subscribers := old(subscribers) - {id})
    {
      if id in subscribers {
        subscribers := subscribers - {id};
      }
    }

    method EndTick()
      modifies this`tick
      ensures State() == old(State()).(tick := P.Idle)
    {
      tick := P.Idle;
    }

    /** A subscriber's connection takes the next event. */
    method Pull(id: nat)
      requires id in subscribers && subscribers[id] != []
      modifies this`subscribers
      ensures State() == old(State()).(subscribers := old(subscribers)[id := old(subscribers)[id][1..]])
    {
      subscribers := subscribers[id := subscribers[id][1..]];
    }

    // ------------------------------------------------------- the service is its model

    method PerformTick(js: Js, step: P.Step)
      requires metaByUuid.Valid() && P.Enabled(State(), step)
      requires step.TickBegins? || step.HostsSync? || step.TickScans? || step.TickAborts?
      modifies this
      ensures State() == P.Next(js, old(State()), step)
    {
      hide P.ScanTick;
      hide P.SyncKnownHosts;
      match step {
        case TickBegins(now) => BeginTick(now);
        case HostsSync(now, hosts, forTick) =>
          SyncKnownHosts(hosts, now);
          if forTick {
            tick := P.Scanning;
          }
        case TickScans(now) => ScanDevices(now);
        case TickAborts => EndTick();
      }
    }

    method PerformPoll(js: Js, step: P.Step)
      requires P.Enabled(State(), step)
      requires step.PollCompletes? || step.PollReleases? || step.TelemetryCompletes? || step.TelemetryReleases? || step.RecoveryEnds?
      modifies this
      ensures State() == P.Next(js, old(State()), step)
    {
      hide P.CompletePoll;
      hide P.CompleteTelemetry;
      hide P.EndRecovery;
      hide P.Candidate;
      hide P.ReleasePoll;
      hide P.ReleaseTelemetry;
      match step {
        case PollCompletes(now, id, attempt, random) => FinishPoll(js, id, attempt, now, random);
        case PollReleases(id) => ReleasePoll(id);
        case TelemetryCompletes(now, id, reading) => FinishTelemetry(id, reading, now);
        case TelemetryReleases(id) => ReleaseTelemetry(id);
        case RecoveryEnds(now, r, found) => EndRecovery(r, found, now);
      }
    }

    method PerformCall(js: Js, step: P.Step)
      requires P.Enabled(State(), step)
      requires step.Boosts? || step.PollNowBegins? || step.WorkerTake? || step.WorkerCollect? || step.Subscribes? || step.Unsubscribes? || step.Pulls?
      modifies this
      ensures State() == P.Next(js, old(State()), step)
    {
      hide P.BoostDevice;
      hide P.BeginPollNow;
      hide P.WorkerTakes;
      hide P.Collected;
      hide P.Subscribe;
      match step {
        case Boosts(now, uuid) => BoostDevice(uuid, now);
        case PollNowBegins(now, requested, reason) => BeginPollNow(requested, reason, now);
        case WorkerTake(now, c, w) => WorkerTake(c, w, now);
        case WorkerCollect(c, w) => WorkerCollect(c, w);
        case Subscribes => var _ := Subscribe(js);
        case Unsubscribes(id) => Unsubscribe(id);
        case Pulls(id) => Pull(id);
      }
    }

    /** The service is its model: whatever stretch of code runs next, the object changes as the step system says. */
    method Perform(js: Js, step: P.Step)
      requires metaByUuid.Valid() && P.Enabled(State(), step)
      modifies this
      ensures State() == P.Next(js, old(State()), step)
    {
      hide P.Next;
      hide P.Enabled;
      match step {
        case TickBegins(_) => PerformTick(js, step);
        case HostsSync(_, _, _) => PerformTick(js, step);
        case TickScans(_) => PerformTick(js, step);
        case TickAborts => PerformTick(js, step);
        case PollCompletes(_, _, _, _) => PerformPoll(js, step);
        case PollReleases(_) => PerformPoll(js, step);
        case TelemetryCompletes(_, _, _) => PerformPoll(js, step);
        case TelemetryReleases(_) => PerformPoll(js, step);
        case RecoveryEnds(_, _, _) => PerformPoll(js, step);
        case _ => PerformCall(js, step);
      }
    }
  }
}
