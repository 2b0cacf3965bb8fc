/** No starvation: once a device is overdue, ticks launch every other device at most once before it. */
module PollerFairness {
  import opened Prelude
  import opened Devices
  import opened Json
  import opened Timing
  import opened Poller
  import opened ScanOrder
  import PollerSafety

  /** A known idle device and its due time. */
  predicate Waits(s: Server, d: string, due: int) {
    d in s.knownHosts.at && d !in s.inFlight && d in s.metaByUuid.at && s.metaByUuid.at[d].nextDueAt == due
  }

  predicate Pending(s: Server, e: string) {
    e in s.inFlight && s.inFlight[e] < |s.tasks| && s.tasks[s.inFlight[e]].result.None?
  }

  /** `e` cannot come before a device due at `due` any more: a poll begun since `from` is pending, or it is due later. */
  predicate Later(s: Server, e: string, due: int, from: int) {
    e in s.metaByUuid.at
    && if Pending(s, e) then s.tasks[s.inFlight[e]].startedAt >= from else s.metaByUuid.at[e].nextDueAt > due
  }

  function TimeOf(step: Step): Option<int> {
    match step
    case TickBegins(now) => Some(now)
    case HostsSync(now, _, _) => Some(now)
    case TickScans(now) => Some(now)
    case Boosts(now, _) => Some(now)
    case PollNowBegins(now, _, _) => Some(now)
    case WorkerTake(now, _, _) => Some(now)
    case PollCompletes(now, _, _, _) => Some(now)
    case TelemetryCompletes(now, _, _) => Some(now)
    case RecoveryEnds(now, _, _) => Some(now)
    case _ => None
  }

  /** A step that comes from `from` on and does not single out `d`: it does not boost, re-resolve or poll it (boosts
      and workers pass over an empty uuid), and keeps it known. */
  predicate Undisturbed(s: Server, step: Step, d: string, from: int)
    requires Enabled(s, step)
  {
    && (TimeOf(step).Some? ==> TimeOf(step).value >= from)
    && match step
       case HostsSync(now, hosts, _) => d in SyncKnownHosts(s, hosts, now).knownHosts.at
       case Boosts(_, uuid) => uuid != d || d == ""
       case PollNowBegins(_, requested, _) => d !in RequestedUuids(s, requested) || d == ""
       case WorkerTake(_, c, _) => s.calls[c].queue == [] || s.calls[c].queue[0] != d || d == ""
       case RecoveryEnds(_, r, found) => found.None? || s.recoveries[r].uuid != d
       case _ => true
  }

  /** The devices a step launches. */
  function LaunchesOf(s: Server, step: Step): seq<string> {
    match step case TickScans(now) => Launched(s, Due(s, now), now) case _ => []
  }

  // ---------------------------------------------------------------- one scan

  lemma {:induction false} LaunchedPrefix(s: Server, due: seq<string>, now: int)
    ensures Launched(s, due, now) <= due
    decreases |due|
  {
    if due != [] && |s.inFlight| < POLL_MAX_CONCURRENCY && due[0] != "" {
      LaunchedPrefix(StartPoll(s, due[0], Source.Poller, ByTick, now).0, due[1..], now);
    }
  }

  /** A known idle device that is due. */
  predicate Scannable(s: Server, now: int, u: string) {
    u in s.metaByUuid.at && u in s.knownHosts.at && u !in s.inFlight && s.metaByUuid.at[u].nextDueAt <= now
  }

  function DueTimes(s: Server): string -> int { u => DueAt(s, u) }

  /** A scan looks at `a` before `b`. */
  predicate Ahead(s: Server, a: string, b: string) { Precedes(DueTimes(s), s.metaByUuid.keys, a, b) }

  /** The scan's list: every due device once, in the order in which it looks at them. */
  lemma DueIs(s: Server, now: int)
    requires s.metaByUuid.Valid()
    ensures NoDup(Due(s, now))
    ensures forall u :: u in Due(s, now) <==> Scannable(s, now, u)
    ensures InTurn(DueTimes(s), s.metaByUuid.keys, Due(s, now))
  {
    hide NoDup;
    hide InTurn;
    hide Filter;
    hide StableSort;
    ScanList(DueTimes(s), s.metaByUuid.keys, IsDue(s, now), DueLe(s));
  }

  /** Nothing that is later gets launched in front of an overdue device. */
  lemma LaterStaysBehind(s: Server, now: int, d: string, due: int, from: int, e: string)
    requires s.metaByUuid.Valid() && PollerSafety.FlightsOk(s.tasks, s.inFlight)
    requires Waits(s, d, due) && due < from <= now && Later(s, e, due, from)
    ensures e !in Before(Launched(s, Due(s, now), now), d)
  {
    hide PollerSafety.FlightsOk;
    hide NoDup;
    hide InTurn;
    hide Due;
    hide Launched;
    DueIs(s, now);
    LaunchedPrefix(s, Due(s, now), now);
    FrontPrecedes(DueTimes(s), s.metaByUuid.keys, Due(s, now), Before(Launched(s, Due(s, now), now), d), d);
  }

  lemma FrontNoDup(s: Server, now: int, d: string)
    requires s.metaByUuid.Valid()
    ensures NoDup(Before(Launched(s, Due(s, now), now), d)) && NoDup(Launched(s, Due(s, now), now))
  {
    hide Due;
    hide Launched;
    hide NoDup;
    DueIs(s, now);
    LaunchedPrefix(s, Due(s, now), now);
    PrefixNoDup(Launched(s, Due(s, now), now), Due(s, now));
    PrefixNoDup(Before(Launched(s, Due(s, now), now), d), Launched(s, Due(s, now), now));
  }

  lemma StartLater(s: Server, uuid: string, reason: Source, owner: Owner, now: int, e: string, due: int, from: int)
    requires PollerSafety.FlightsOk(s.tasks, s.inFlight) && from <= now
    requires Later(s, e, due, from) || (uuid == e && e !in s.inFlight)
    ensures Later(StartPoll(s, uuid, reason, owner, now).0, e, due, from)
  {
  }

  lemma {:induction false} LaunchLater(s: Server, list: seq<string>, now: int, e: string, due: int, from: int)
    requires PollerSafety.FlightsOk(s.tasks, s.inFlight) && from <= now && NoDup(list)
    requires forall u :: u in list ==> u !in s.inFlight
    requires Later(s, e, due, from) || e in Launched(s, list, now)
    ensures Later(LaunchPolls(s, list, now), e, due, from)
    decreases |list|
  {
    hide PollerSafety.FlightsOk;
    hide Later;
    if list != [] && |s.inFlight| < POLL_MAX_CONCURRENCY && list[0] != "" {
      var t := StartPoll(s, list[0], Source.Poller, ByTick, now).0;
      PollerSafety.StartFlight(s, list[0], Source.Poller, ByTick, now);
      if Later(s, e, due, from) || e == list[0] {
        StartLater(s, list[0], Source.Poller, ByTick, now, e, due, from);
      }
      assert list[0] !in list[1..];
      LaunchLater(t, list[1..], now, e, due, from);
    }
  }

  lemma {:induction false} TelemetryLater(s: Server, list: seq<string>, now: int, e: string, due: int, from: int)
    requires Later(s, e, due, from)
    ensures Later(LaunchTelemetry(s, list, now), e, due, from)
    decreases |list|
  {
    if list != [] && |s.telemetryInFlight| < TELEMETRY_MAX_CONCURRENCY && list[0] != "" {
      TelemetryLater(StartTelemetry(s, list[0], now), list[1..], now, e, due, from);
    }
  }

  lemma ScanLater(s: Server, now: int, e: string, due: int, from: int)
    requires s.metaByUuid.Valid() && PollerSafety.FlightsOk(s.tasks, s.inFlight) && from <= now
    requires Later(s, e, due, from) || e in Launched(s, Due(s, now), now)
    ensures Later(ScanTick(s, now), e, due, from)
  {
    DueIs(s, now);
    hide Due;
    hide DueTelemetry;
    LaunchLater(s, Due(s, now), now, e, due, from);
    TelemetryLater(LaunchPolls(s, Due(s, now), now), DueTelemetry(s, now), now, e, due, from);
    hide PollerSafety.FlightsOk;
    hide Launched;
    hide LaunchPolls;
    hide LaunchTelemetry;
  }

  // ------------------------------------------------------- the other steps keep it

  lemma {:induction false} BoostAllLater(s: Server, uuids: seq<string>, now: int, e: string, due: int, from: int)
    requires Later(s, e, due, from) && due < now
    ensures Later(BoostAll(s, uuids, now), e, due, from)
    decreases |uuids|
  {
    if uuids != [] {
      BoostAllLater(BoostDevice(s, uuids[0], now), uuids[1..], now, e, due, from);
    }
  }

  lemma {:induction false} AddHostsLater(s: Server, hosts: seq<(string, KnownHost)>, now: int, e: string, due: int, from: int)
    requires Later(s, e, due, from)
    ensures Later(AddHosts(s, hosts, now), e, due, from)
    decreases |hosts|
  {
    if hosts != [] {
      if hosts[0].1.host == "" {
        AddHostsLater(s, hosts[1..], now, e, due, from);
      } else {
        AddHostsLater(EnsureMeta(s.(knownHosts := s.knownHosts.Set(hosts[0].0, hosts[0].1)), hosts[0].0, now), hosts[1..], now, e, due, from);
      }
    }
  }

  lemma CompleteLater(s: Server, id: nat, c: DeviceState, now: int, random: real, e: string, due: int, from: int)
    requires PollerSafety.FlightsOk(s.tasks, s.inFlight) && id < |s.tasks| && s.tasks[id].result.None?
    requires Later(s, e, due, from) && due < from
    ensures Later(CompletePoll(s, id, c, now, random), e, due, from)
  {
    PollerSafety.CompleteFrame(s, id, c, now, random);
    CompletedDue(s, id, c, now, random, e);
    hide CompletePoll;
  }

  /** A completed poll is due again 7.2 seconds to five minutes after its start; other devices' due times stay. */
  lemma CompletedDue(s: Server, id: nat, c: DeviceState, now: int, random: real, e: string)
    requires id < |s.tasks|
    ensures var t := CompletePoll(s, id, c, now, random);
      && (s.tasks[id].uuid == e ==>
            e in t.metaByUuid.at && 7_200 <= t.metaByUuid.at[e].nextDueAt - s.tasks[id].startedAt <= 300_000)
      && (s.tasks[id].uuid != e && e in s.metaByUuid.at ==>
            e in t.metaByUuid.at && t.metaByUuid.at[e].nextDueAt == s.metaByUuid.at[e].nextDueAt)
  {
    var u := s.tasks[id].uuid;
    MetaDue(MetaAt(s, u, s.tasks[id].startedAt), s.stateByUuid.Get(u), c, s.tasks[id].startedAt, random);
    hide MetaAfter;
    hide ResultOf;
    hide EventsAfter;
    hide StoredAfter;
  }

  lemma MetaDue(meta: PollMeta, prev: Option<DeviceState>, c: DeviceState, startedAt: int, random: real)
    ensures 7_200 <= MetaAfter(meta, prev, c, startedAt, random).nextDueAt - startedAt <= 300_000
  {
    hide HasMaterialStateChange;
    hide NextIntervalMs;
    var m := MetaAfter(meta, prev, c, startedAt, random);
    IntervalBounds(
      if c.stale then meta.(failureCount := meta.failureCount + 1)
      else if HasMaterialStateChange(prev, c) then
        meta.(lastChangeAt := Some(startedAt), failureCount := 0, lastSuccessAt := Some(startedAt))
      else meta.(failureCount := 0, lastSuccessAt := Some(startedAt)),
      startedAt, random);
  }

  lemma LaterKept(js: Js, s: Server, step: Step, e: string, due: int, from: int)
    requires PollerSafety.FlightsOk(s.tasks, s.inFlight) && s.metaByUuid.Valid()
    requires Enabled(s, step) && (TimeOf(step).Some? ==> TimeOf(step).value >= from) && due < from
    requires Later(s, e, due, from) || e in LaunchesOf(s, step)
    ensures Later(Next(js, s, step), e, due, from)
  {
    hide Later;
    hide PollerSafety.FlightsOk;
    hide Launched;
    hide StartPoll;
    hide Greeting;
    hide RequestedUuids;
    hide AddHosts;
    hide BoostAll;
    hide LaunchPolls;
    hide LaunchTelemetry;
    match step {
      case TickScans(now) => ScanLater(s, now, e, due, from);
      case HostsSync(now, hosts, _) =>
        LaterFrame(s, s.(lastSyncHostsAt := now, knownHosts := JsMap([], map[])), e, due, from);
        AddHostsLater(s.(lastSyncHostsAt := now, knownHosts := JsMap([], map[])), hosts, now, e, due, from);
        LaterFrame(SyncKnownHosts(s, hosts, now), Next(js, s, step), e, due, from);
      case Boosts(now, uuid) => BoostLater(s, uuid, now, e, due, from);
      case PollNowBegins(now, requested, reason) =>
        BoostAllLater(s, RequestedUuids(s, requested), now, e, due, from);
        LaterFrame(BoostAll(s, RequestedUuids(s, requested), now), Next(js, s, step), e, due, from);
      case WorkerTake(now, c, w) => TakeLater(js, s, c, w, now, e, due, from);
      case PollCompletes(now, id, attempt, random) =>
        CompleteLater(s, id, Candidate(js, s, s.tasks[id], attempt, now), now, random, e, due, from);
      case PollReleases(id) => ReleaseLater(s, id, e, due, from);
      case TelemetryCompletes(now, id, reading) => TelemetryCompleteLater(s, id, reading, now, e, due, from);
      case RecoveryEnds(now, r, found) => RecoveryLater(s, r, found, now, e, due, from);
      case _ => LaterFrame(s, Next(js, s, step), e, due, from);
    }
  }

  lemma LaterFrame(s: Server, t: Server, e: string, due: int, from: int)
    requires Later(s, e, due, from) && t.tasks == s.tasks && t.inFlight == s.inFlight && t.metaByUuid == s.metaByUuid
    ensures Later(t, e, due, from)
  {
  }

  lemma BoostLater(s: Server, uuid: string, now: int, e: string, due: int, from: int)
    requires Later(s, e, due, from) && due < now
    ensures Later(BoostDevice(s, uuid, now), e, due, from)
  {
  }

  lemma TakeLater(js: Js, s: Server, c: nat, w: nat, now: int, e: string, due: int, from: int)
    requires PollerSafety.FlightsOk(s.tasks, s.inFlight) && c < |s.calls| && w < |s.calls[c].workers| && from <= now
    requires Later(s, e, due, from)
    ensures Later(WorkerTakes(s, c, w, now), e, due, from)
  {
    hide Later;
    hide PollerSafety.FlightsOk;
    hide StartPoll;
    var t := WorkerTakes(s, c, w, now);
    if s.calls[c].queue != [] && s.calls[c].queue[0] != "" {
      var s1 := StartPoll(s, s.calls[c].queue[0], s.calls[c].reason, ByWorker(c, w), now).0;
      StartLater(s, s.calls[c].queue[0], s.calls[c].reason, ByWorker(c, w), now, e, due, from);
      LaterFrame(s1, t, e, due, from);
    } else {
      LaterFrame(s, t, e, due, from);
    }
  }

  lemma ReleaseLater(s: Server, id: nat, e: string, due: int, from: int)
    requires PollerSafety.FlightsOk(s.tasks, s.inFlight) && id < |s.tasks| && s.tasks[id].result.Some? && !s.tasks[id].released
    requires Later(s, e, due, from)
    ensures Later(ReleasePoll(s, id), e, due, from)
  {
  }

  lemma TelemetryCompleteLater(s: Server, id: nat, reading: TelemetryAttempt, now: int, e: string, due: int, from: int)
    requires id < |s.telemetryTasks| && Later(s, e, due, from)
    ensures Later(CompleteTelemetry(s, id, reading, now), e, due, from)
  {
    hide PowerCandidate;
    hide PowerEvents;
    hide TelemetryDue;
  }

  lemma RecoveryLater(s: Server, r: nat, found: Option<KnownHost>, now: int, e: string, due: int, from: int)
    requires r < |s.recoveries| && Later(s, e, due, from) && due < now
    ensures Later(EndRecovery(s, r, found, now), e, due, from)
  {
  }

  // ------------------------------------------------------- the waiting device

  lemma {:induction false} LaunchWaits(s: Server, list: seq<string>, now: int, d: string, due: int)
    requires Waits(s, d, due) && d !in Launched(s, list, now)
    ensures Waits(LaunchPolls(s, list, now), d, due)
    decreases |list|
  {
    if list != [] && |s.inFlight| < POLL_MAX_CONCURRENCY && list[0] != "" {
      LaunchWaits(StartPoll(s, list[0], Source.Poller, ByTick, now).0, list[1..], now, d, due);
    }
  }

  lemma {:induction false} TelemetryWaits(s: Server, list: seq<string>, now: int, d: string, due: int)
    requires Waits(s, d, due)
    ensures Waits(LaunchTelemetry(s, list, now), d, due)
    decreases |list|
  {
    if list != [] && |s.telemetryInFlight| < TELEMETRY_MAX_CONCURRENCY && list[0] != "" {
      TelemetryWaits(StartTelemetry(s, list[0], now), list[1..], now, d, due);
    }
  }

  lemma {:induction false} BoostAllWaits(s: Server, uuids: seq<string>, now: int, d: string, due: int)
    requires Waits(s, d, due) && (d !in uuids || d == "")
    ensures Waits(BoostAll(s, uuids, now), d, due)
    decreases |uuids|
  {
    if uuids != [] {
      assert forall u :: u in uuids[1..] ==> u in uuids;
      BoostAllWaits(BoostDevice(s, uuids[0], now), uuids[1..], now, d, due);
    }
  }

  /** A sync leaves polls alone, and the due times of devices with bookkeeping. */
  lemma {:induction false} AddHostsDue(s: Server, hosts: seq<(string, KnownHost)>, now: int, d: string)
    requires d in s.metaByUuid.at
    ensures var t := AddHosts(s, hosts, now);
      t.inFlight == s.inFlight && d in t.metaByUuid.at && t.metaByUuid.at[d].nextDueAt == s.metaByUuid.at[d].nextDueAt
    decreases |hosts|
  {
    if hosts != [] {
      if hosts[0].1.host == "" {
        AddHostsDue(s, hosts[1..], now, d);
      } else {
        AddHostsDue(EnsureMeta(s.(knownHosts := s.knownHosts.Set(hosts[0].0, hosts[0].1)), hosts[0].0, now), hosts[1..], now, d);
      }
    }
  }

  lemma CompleteWaits(s: Server, id: nat, c: DeviceState, now: int, random: real, d: string, due: int)
    requires PollerSafety.FlightsOk(s.tasks, s.inFlight) && id < |s.tasks| && s.tasks[id].result.None?
    requires Waits(s, d, due)
    ensures Waits(CompletePoll(s, id, c, now, random), d, due)
  {
    PollerSafety.CompleteFrame(s, id, c, now, random);
    CompletedDue(s, id, c, now, random, d);
    hide CompletePoll;
  }

  lemma WaitsFrame(s: Server, t: Server, d: string, due: int)
    requires Waits(s, d, due) && t.knownHosts == s.knownHosts && t.inFlight == s.inFlight && t.metaByUuid == s.metaByUuid
    ensures Waits(t, d, due)
  {
  }

  lemma TakeWaits(s: Server, c: nat, w: nat, now: int, d: string, due: int)
    requires c < |s.calls| && w < |s.calls[c].workers| && Waits(s, d, due)
    requires s.calls[c].queue == [] || s.calls[c].queue[0] != d || d == ""
    ensures Waits(WorkerTakes(s, c, w, now), d, due)
  {
  }

  lemma TelemetryCompleteWaits(s: Server, id: nat, reading: TelemetryAttempt, now: int, d: string, due: int)
    requires id < |s.telemetryTasks| && Waits(s, d, due)
    ensures Waits(CompleteTelemetry(s, id, reading, now), d, due)
  {
    hide PowerCandidate;
    hide PowerEvents;
    hide TelemetryDue;
  }

  lemma ScanWaits(s: Server, now: int, d: string, due: int)
    requires Waits(s, d, due) && d !in Launched(s, Due(s, now), now)
    ensures Waits(ScanTick(s, now), d, due)
  {
    hide Due;
    hide DueTelemetry;
    LaunchWaits(s, Due(s, now), now, d, due);
    TelemetryWaits(LaunchPolls(s, Due(s, now), now), DueTelemetry(s, now), now, d, due);
    hide LaunchPolls;
    hide LaunchTelemetry;
    hide Launched;
  }

  lemma RecoveryWaits(s: Server, r: nat, found: Option<KnownHost>, now: int, d: string, due: int)
    requires r < |s.recoveries| && Waits(s, d, due) && (found.None? || s.recoveries[r].uuid != d)
    ensures Waits(EndRecovery(s, r, found, now), d, due)
  {
  }

  lemma BoostWaits(s: Server, uuid: string, now: int, d: string, due: int)
    requires Waits(s, d, due) && (uuid != d || d == "")
    ensures Waits(BoostDevice(s, uuid, now), d, due)
  {
  }

  lemma SyncWaits(s: Server, hosts: seq<(string, KnownHost)>, now: int, d: string, due: int)
    requires Waits(s, d, due) && d in SyncKnownHosts(s, hosts, now).knownHosts.at
    ensures Waits(SyncKnownHosts(s, hosts, now), d, due)
  {
    hide AddHosts;
    AddHostsDue(s.(lastSyncHostsAt := now, knownHosts := JsMap([], map[])), hosts, now, d);
  }

  lemma WaitsKept(js: Js, s: Server, step: Step, d: string, due: int, from: int)
    requires PollerSafety.FlightsOk(s.tasks, s.inFlight)
    requires Enabled(s, step) && Undisturbed(s, step, d, from) && d !in LaunchesOf(s, step)
    requires Waits(s, d, due)
    ensures Waits(Next(js, s, step), d, due)
  {
    hide Waits;
    hide PollerSafety.FlightsOk;
    hide Launched;
    hide StartPoll;
    hide Greeting;
    hide RequestedUuids;
    hide AddHosts;
    hide BoostAll;
    hide LaunchPolls;
    hide LaunchTelemetry;
    match step {
      case TickScans(now) => ScanWaits(s, now, d, due);
      case HostsSync(now, hosts, _) =>
        SyncWaits(s, hosts, now, d, due);
        WaitsFrame(SyncKnownHosts(s, hosts, now), Next(js, s, step), d, due);
      case Boosts(now, uuid) => BoostWaits(s, uuid, now, d, due);
      case PollNowBegins(now, requested, reason) =>
        BoostAllWaits(s, RequestedUuids(s, requested), now, d, due);
        WaitsFrame(BoostAll(s, RequestedUuids(s, requested), now), Next(js, s, step), d, due);
      case WorkerTake(now, c, w) => TakeWaits(s, c, w, now, d, due);
      case PollCompletes(now, id, attempt, random) =>
        CompleteWaits(s, id, Candidate(js, s, s.tasks[id], attempt, now), now, random, d, due);
      case PollReleases(id) => ReleaseWaits(s, id, d, due);
      case TelemetryCompletes(now, id, reading) => TelemetryCompleteWaits(s, id, reading, now, d, due);
      case RecoveryEnds(now, r, found) => RecoveryWaits(s, r, found, now, d, due);
      case _ => WaitsFrame(s, Next(js, s, step), d, due);
    }
  }

  lemma ReleaseWaits(s: Server, id: nat, d: string, due: int)
    requires id < |s.tasks| && Waits(s, d, due)
    ensures Waits(ReleasePoll(s, id), d, due)
  {
  }

  // -------------------------------------------------------------- main results

  /** The devices that ticks launch during a run. */
  ghost function Launches(js: Js, s: Server, steps: seq<Step>): seq<string>
    requires Run(js, s, steps)
    decreases |steps|
  {
    if steps == [] then []
    else
      var n := |steps| - 1;
      Launches(js, s, steps[..n]) + LaunchesOf(After(js, s, steps[..n]), steps[n])
  }

  ghost predicate AllUndisturbed(js: Js, s: Server, steps: seq<Step>, d: string, from: int)
    requires Run(js, s, steps)
    decreases |steps|
  {
    steps != [] ==>
      var n := |steps| - 1;
      AllUndisturbed(js, s, steps[..n], d, from) && Undisturbed(After(js, s, steps[..n]), steps[n], d, from)
  }

  /** The empty uuid is due, and a scan looks at it before every other due device. */
  ghost predicate EmptyLeads(s: Server, now: int) {
    Scannable(s, now, "") && forall u :: Scannable(s, now, u) && u != "" ==> Ahead(s, "", u)
  }

  /** A scan launches something exactly when a slot is free, a device is due, and the empty uuid does not come first. */
  lemma ScanLaunches(s: Server, now: int)
    requires s.metaByUuid.Valid()
    ensures Launched(s, Due(s, now), now) != []
       <==> |s.inFlight| < POLL_MAX_CONCURRENCY && (exists u :: Scannable(s, now, u)) && !EmptyLeads(s, now)
  {
    hide NoDup;
    hide InTurn;
    hide Due;
    hide Scannable;
    DueIs(s, now);
    var due := Due(s, now);
    if due != [] {
      assert due[0] in due;
      HeadPrecedes(DueTimes(s), s.metaByUuid.keys, due, "");
    }
  }

  /** A scan that finds a free slot, and in which the empty uuid does not come first. */
  ghost predicate FreeScan(s: Server, step: Step) {
    step.TickScans? && |s.inFlight| < POLL_MAX_CONCURRENCY && !EmptyLeads(s, step.now)
  }

  ghost function FreeScans(js: Js, s: Server, steps: seq<Step>): nat
    requires Run(js, s, steps)
    decreases |steps|
  {
    if steps == [] then 0
    else
      var n := |steps| - 1;
      FreeScans(js, s, steps[..n]) + (if FreeScan(After(js, s, steps[..n]), steps[n]) then 1 else 0)
  }

  ghost predicate Waiting(s: Server, launches: seq<string>, d: string, due: int, from: int) {
    && PollerSafety.SafetyInv(s)
    && Waits(s, d, due)
    && NoDup(launches)
    && forall e :: e in launches ==> Later(s, e, due, from)
  }

  lemma WaitingParts(s: Server)
    requires PollerSafety.SafetyInv(s)
    ensures PollerSafety.FlightsOk(s.tasks, s.inFlight) && s.metaByUuid.Valid()
  {
  }

  /** The launches so far, followed by those of the next scan in front of `d`, are without repeats. */
  lemma NextScanFront(s: Server, launches: seq<string>, now: int, d: string, due: int, from: int)
    requires Waiting(s, launches, d, due, from) && due < from <= now
    ensures NoDup(launches + Before(Launched(s, Due(s, now), now), d))
  {
    WaitingParts(s);
    hide PollerSafety.SafetyInv;
    hide PollerSafety.FlightsOk;
    hide Waits;
    hide Later;
    hide NoDup;
    hide Due;
    hide Launched;
    FrontNoDup(s, now, d);
    forall e | e in launches
      ensures e !in Before(Launched(s, Due(s, now), now), d)
    {
      LaterStaysBehind(s, now, d, due, from, e);
    }
    NoDupAppend(launches, Before(Launched(s, Due(s, now), now), d));
  }

  lemma WaitingStep(js: Js, s: Server, launches: seq<string>, step: Step, d: string, due: int, from: int)
    requires Waiting(s, launches, d, due, from) && due < from
    requires Enabled(s, step) && Undisturbed(s, step, d, from) && d !in LaunchesOf(s, step)
    ensures Waiting(Next(js, s, step), launches + LaunchesOf(s, step), d, due, from)
    ensures FreeScan(s, step) <==> LaunchesOf(s, step) != []
  {
    WaitingParts(s);
    PollerSafety.SafetyStep(js, s, step);
    WaitsKept(js, s, step, d, due, from);
    if step.TickScans? {
      NextScanFront(s, launches, step.now, d, due, from);
      FreeScanLaunches(s, step.now, d, due);
    } else {
      assert launches + [] == launches;
    }
    forall e | e in launches + LaunchesOf(s, step)
      ensures Later(Next(js, s, step), e, due, from)
    {
      LaterKept(js, s, step, e, due, from);
    }
    hide PollerSafety.SafetyInv;
    hide PollerSafety.FlightsOk;
    hide Waits;
    hide Later;
    hide NoDup;
    hide Due;
    hide Launched;
    hide Next;
    hide Enabled;
  }

  lemma FreeScanLaunches(s: Server, now: Clock, d: string, due: int)
    requires s.metaByUuid.Valid() && Waits(s, d, due) && due <= now
    ensures FreeScan(s, TickScans(now)) <==> Launched(s, Due(s, now), now) != []
  {
    ScanLaunches(s, now);
    assert Scannable(s, now, d);
    hide Launched;
    hide Due;
    hide EmptyLeads;
  }

  lemma {:induction false} WaitingKept(js: Js, s: Server, steps: seq<Step>, d: string, due: int, from: int)
    requires PollerSafety.SafetyInv(s) && Waits(s, d, due) && due < from
    requires Run(js, s, steps) && AllUndisturbed(js, s, steps, d, from) && d !in Launches(js, s, steps)
    ensures Waiting(After(js, s, steps), Launches(js, s, steps), d, due, from)
    ensures FreeScans(js, s, steps) <= |Launches(js, s, steps)|
    decreases |steps|
  {
    hide PollerSafety.SafetyInv;
    hide Waits;
    hide Later;
    hide LaunchesOf;
    hide Next;
    hide Enabled;
    hide Undisturbed;
    hide FreeScan;
    if steps != [] {
      var n := |steps| - 1;
      WaitingKept(js, s, steps[..n], d, due, from);
      WaitingStep(js, After(js, s, steps[..n]), Launches(js, s, steps[..n]), steps[n], d, due, from);
      hide Waiting;
    }
  }

  /** Take any reachable state and any run from it whose clock stays past the due time of a known idle device `d`,
      and which neither singles out `d` nor launches it yet. Then ticks launched each other device at most once, also
      counting those the next scan launches in front of `d`; and so at most as many scans found a free slot and no empty
      uuid in front as there are other devices with bookkeeping. The remaining scans launch nothing (`ScanLaunches`). */
  lemma {:induction false} NoStarvation(js: Js, before: seq<Step>, steps: seq<Step>, d: string, due: int, from: int, now: int)
    requires Run(js, Init(), before) && Waits(After(js, Init(), before), d, due) && due < from <= now
    requires Run(js, After(js, Init(), before), steps) && AllUndisturbed(js, After(js, Init(), before), steps, d, from)
    requires d !in Launches(js, After(js, Init(), before), steps)
    ensures var s := After(js, Init(), before); var t := After(js, s, steps); var launches := Launches(js, s, steps);
      && NoDup(launches + Before(Launched(t, Due(t, now), now), d))
      && FreeScans(js, s, steps) <= |launches| < |t.metaByUuid.at|
  {
    hide PollerSafety.SafetyInv;
    hide Run;
    hide After;
    hide Init;
    hide NoDup;
    hide Due;
    hide Launched;
    hide AllUndisturbed;
    hide Launches;
    PollerSafety.SafetyKept(js, before);
    var s := After(js, Init(), before);
    WaitingKept(js, s, steps, d, due, from);
    var t := After(js, s, steps);
    NextScanFront(t, Launches(js, s, steps), now, d, due, from);
    NoDupSize(Launches(js, s, steps), t.metaByUuid.at.Keys - {d});
  }

  /** As long as the empty uuid is known and due, a scan launches no device that comes after it: the launch loop ends
      there. */
  lemma EmptyUuidBlocks(s: Server, now: int, u: string)
    requires s.metaByUuid.Valid() && Waits(s, "", DueAt(s, "")) && DueAt(s, "") <= now
    ensures u in Launched(s, Due(s, now), now) ==> u != "" && Ahead(s, u, "")
  {
    hide Due;
    hide Launched;
    hide NoDup;
    hide InTurn;
    hide Precedes;
    DueIs(s, now);
    LaunchedPrefix(s, Due(s, now), now);
    NeverEmpty(s, Due(s, now), now);
    assert Scannable(s, now, "");
    FrontPrecedes(DueTimes(s), s.metaByUuid.keys, Due(s, now), Launched(s, Due(s, now), now), "");
  }

  /** An overdue device that comes before the empty uuid keeps it from coming first. */
  lemma OverdueLeads(s: Server, now: int, d: string, due: int)
    requires Waits(s, d, due) && due <= now && d != "" && (Scannable(s, now, "") ==> Ahead(s, d, ""))
    ensures !EmptyLeads(s, now)
  {
    assert Scannable(s, now, d);
  }

  lemma {:induction false} EmptyWaitsKept(js: Js, s: Server, steps: seq<Step>, due: int)
    requires PollerSafety.SafetyInv(s) && Waits(s, "", due) && Run(js, s, steps) && AllUndisturbed(js, s, steps, "", 0)
    ensures PollerSafety.SafetyInv(After(js, s, steps)) && Waits(After(js, s, steps), "", due)
    decreases |steps|
  {
    hide PollerSafety.SafetyInv;
    hide Waits;
    hide Next;
    hide Enabled;
    hide Undisturbed;
    hide LaunchesOf;
    if steps != [] {
      var n := |steps| - 1;
      var t := After(js, s, steps[..n]);
      EmptyWaitsKept(js, s, steps[..n], due);
      WaitingParts(t);
      NeverLaunchesEmpty(t, steps[n]);
      PollerSafety.SafetyStep(js, t, steps[n]);
      WaitsKept(js, t, steps[n], "", due, 0);
      hide PollerSafety.FlightsOk;
    }
  }

  lemma NeverLaunchesEmpty(s: Server, step: Step)
    ensures "" !in LaunchesOf(s, step)
  {
    hide Due;
    hide Launched;
    if step.TickScans? {
      NeverEmpty(s, Due(s, step.now), step.now);
    }
  }

  /** The case that bound leaves out. An empty uuid among the known hosts starves the others for good: nothing but a
      sync that drops it or a recovery of it ever moves its due time, and until then no scan launches any device that
      comes after it. */
  lemma EmptyUuidStarves(js: Js, before: seq<Step>, steps: seq<Step>, due: int, now: int, u: string)
    requires Run(js, Init(), before) && Waits(After(js, Init(), before), "", due) && due <= now
    requires Run(js, After(js, Init(), before), steps) && AllUndisturbed(js, After(js, Init(), before), steps, "", 0)
    ensures var t := After(js, After(js, Init(), before), steps);
      DueAt(t, "") == due && (u in Launched(t, Due(t, now), now) ==> Ahead(t, u, ""))
  {
    hide PollerSafety.SafetyInv;
    hide Run;
    hide After;
    hide Init;
    hide AllUndisturbed;
    PollerSafety.SafetyKept(js, before);
    EmptyWaitsKept(js, After(js, Init(), before), steps, due);
    var t := After(js, After(js, Init(), before), steps);
    WaitingParts(t);
    hide PollerSafety.FlightsOk;
    hide Due;
    hide Launched;
    EmptyUuidBlocks(t, now, u);
  }

  lemma TwoSteps(js: Js, a: Step, b: Step)
    requires Enabled(Init(), a) && Enabled(Next(js, Init(), a), b)
    ensures Run(js, Init(), [a, b]) && After(js, Init(), [a, b]) == Next(js, Next(js, Init(), a), b)
  {
    hide Next;
    hide Enabled;
    hide Init;
    assert [a, b][..1] == [a] && [a][..0] == [];
    assert Run(js, Init(), []);
    assert Run(js, Init(), [a]) && After(js, Init(), [a]) == Next(js, Init(), a);
  }

  lemma AddOne(s: Server, u: string, h: KnownHost, now: int)
    requires h.host != ""
    ensures AddHosts(s, [(u, h)], now) == EnsureMeta(s.(knownHosts := s.knownHosts.Set(u, h)), u, now)
  {
    assert [(u, h)][1..] == [];
  }

  lemma AddTwo(s: Server, u: string, v: string, h: KnownHost, now: int)
    requires h.host != ""
    ensures AddHosts(s, [(u, h), (v, h)], now)
         == AddHosts(EnsureMeta(s.(knownHosts := s.knownHosts.Set(u, h)), u, now), [(v, h)], now)
  {
    hide EnsureMeta;
    assert [(u, h), (v, h)][1..] == [(v, h)];
  }

  function FirstSync(h: KnownHost): Server { SyncKnownHosts(Init(), [("", h)], 1) }

  function SecondSync(h: KnownHost): Server { SyncKnownHosts(FirstSync(h), [("", h), ("a", h)], 2) }

  lemma TwoSyncs(h: KnownHost)
    requires h.host != ""
    ensures var s := SecondSync(h);
      && s.metaByUuid == JsMap(["", "a"], map["" := CreateMeta(1), "a" := CreateMeta(2)])
      && s.knownHosts.at == map["" := h, "a" := h] && s.inFlight == map[]
      && s.metaByUuid.Valid() && DueAt(s, "") == 1 && DueAt(s, "a") == 2
  {
    var cleared := FirstSync(h).(lastSyncHostsAt := 2, knownHosts := JsMap([], map[]));
    AddOne(Init().(lastSyncHostsAt := 1, knownHosts := JsMap([], map[])), "", h, 1);
    AddTwo(cleared, "", "a", h, 2);
    AddOne(EnsureMeta(cleared.(knownHosts := cleared.knownHosts.Set("", h)), "", 2), "a", h, 2);
    hide AddHosts;
    assert FirstSync(h).metaByUuid == JsMap([""], map["" := CreateMeta(1)]);
  }

  /** An instance: two syncs, of which the first finds only the empty uuid. The device "a" is then due, and no poll is
      running, but no scan ever launches it. */
  lemma EmptyUuidInstance(js: Js, h: KnownHost, now: int)
    requires h.host != "" && now >= 2
    ensures var steps := [HostsSync(1, [("", h)], false), HostsSync(2, [("", h), ("a", h)], false)];
      && Run(js, Init(), steps)
      && var s := After(js, Init(), steps);
         Waits(s, "a", 2) && s.inFlight == map[] && "a" !in Launched(s, Due(s, now), now)
  {
    hide Next;
    hide Enabled;
    hide Init;
    hide Run;
    hide After;
    hide SyncKnownHosts;
    hide Launched;
    hide Due;
    hide Waits;
    SyncIs(js, Init(), [("", h)], 1);
    SyncIs(js, FirstSync(h), [("", h), ("a", h)], 2);
    TwoSteps(js, HostsSync(1, [("", h)], false), HostsSync(2, [("", h), ("a", h)], false));
    NeverItsTurn(h, now);
  }

  lemma SyncIs(js: Js, s: Server, hosts: seq<(string, KnownHost)>, now: Clock)
    ensures Enabled(s, HostsSync(now, hosts, false)) && Next(js, s, HostsSync(now, hosts, false)) == SyncKnownHosts(s, hosts, now)
  {
    hide SyncKnownHosts;
  }

  lemma NeverItsTurn(h: KnownHost, now: int)
    requires h.host != "" && now >= 2
    ensures var s := SecondSync(h); Waits(s, "a", 2) && s.inFlight == map[] && "a" !in Launched(s, Due(s, now), now)
  {
    hide SecondSync;
    hide Launched;
    hide Due;
    hide Place;
    hide NoDup;
    var s := SecondSync(h);
    TwoSyncs(h);
    EmptyUuidBlocks(s, now, "a");
  }

  lemma {:induction false} NeverEmpty(s: Server, due: seq<string>, now: int)
    ensures "" !in Launched(s, due, now)
    decreases |due|
  {
    if due != [] && |s.inFlight| < POLL_MAX_CONCURRENCY && due[0] != "" {
      NeverEmpty(StartPoll(s, due[0], Source.Poller, ByTick, now).0, due[1..], now);
    }
  }
}
