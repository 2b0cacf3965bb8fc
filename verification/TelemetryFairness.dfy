/** No starvation among telemetry polls: once a meter is overdue, ticks read every other meter at most once before it. */
module TelemetryFairness {
  import opened Prelude
  import opened Devices
  import opened Json
  import opened Timing
  import opened Poller
  import opened ScanOrder
  import PollerFairness
  import PollerSafety

  /** A known device, whose meter is not being read, and the due time of its meter. */
  predicate Waits(s: Server, d: string, due: int) {
    d in s.knownHosts.at && d !in s.telemetryInFlight && d in s.metaByUuid.at && s.metaByUuid.at[d].telemetryNextDueAt == due
  }

  predicate Pending(s: Server, e: string) {
    e in s.telemetryInFlight && s.telemetryInFlight[e] < |s.telemetryTasks| && !s.telemetryTasks[s.telemetryInFlight[e]].done
  }

  /** `e` cannot come before a meter due at `due` any more. */
  predicate Later(s: Server, e: string, due: int, from: int) {
    e in s.metaByUuid.at
    && if Pending(s, e) then s.telemetryTasks[s.telemetryInFlight[e]].startedAt >= from
       else s.metaByUuid.at[e].telemetryNextDueAt > due
  }

  /** A step that comes from `from` on, keeps `d` known, and does not scan while the state of `d` is being polled. */
  predicate Undisturbed(s: Server, step: Step, d: string, from: int)
    requires Enabled(s, step)
  {
    && (PollerFairness.TimeOf(step).Some? ==> PollerFairness.TimeOf(step).value >= from)
    && match step
       case HostsSync(now, hosts, _) => d in SyncKnownHosts(s, hosts, now).knownHosts.at
       case TickScans(_) => d !in s.inFlight
       case _ => true
  }

  /** The devices the second loop of a scan starts a telemetry poll of, in order. */
  function Launched(s: Server, due: seq<string>, now: int): seq<string>
    decreases |due|
  {
    if due == [] || |s.telemetryInFlight| >= TELEMETRY_MAX_CONCURRENCY || due[0] == "" then []
    else [due[0]] + Launched(StartTelemetry(s, due[0], now), due[1..], now)
  }

  function ScanLaunched(s: Server, now: int): seq<string> {
    Launched(LaunchPolls(s, Due(s, now), now), DueTelemetry(s, now), now)
  }

  function LaunchesOf(s: Server, step: Step): seq<string> {
    match step case TickScans(now) => ScanLaunched(s, now) case _ => []
  }

  // ---------------------------------------------------------------- one scan

  lemma {:induction false} LaunchedPrefix(s: Server, due: seq<string>, now: int)
    ensures Launched(s, due, now) <= due && "" !in Launched(s, due, now)
    ensures Launched(s, due, now) != [] <==> due != [] && |s.telemetryInFlight| < TELEMETRY_MAX_CONCURRENCY && due[0] != ""
    decreases |due|
  {
    if due != [] && |s.telemetryInFlight| < TELEMETRY_MAX_CONCURRENCY && due[0] != "" {
      LaunchedPrefix(StartTelemetry(s, due[0], now), due[1..], now);
    }
  }

  /** A known device that is due for a telemetry poll, with no poll of either kind in flight. */
  predicate Scannable(s: Server, now: int, u: string) {
    u in s.metaByUuid.at && u in s.knownHosts.at && u !in s.inFlight && u !in s.telemetryInFlight
    && s.metaByUuid.at[u].telemetryNextDueAt <= now
  }

  function DueTimes(s: Server): string -> int { u => TelemetryDueAt(s, u) }

  predicate Ahead(s: Server, a: string, b: string) { Precedes(DueTimes(s), s.metaByUuid.keys, a, b) }

  lemma DueIs(s: Server, now: int)
    requires s.metaByUuid.Valid()
    ensures NoDup(DueTelemetry(s, now))
    ensures forall u :: u in DueTelemetry(s, now) <==> Scannable(s, now, u)
    ensures InTurn(DueTimes(s), s.metaByUuid.keys, DueTelemetry(s, now))
  {
    hide NoDup;
    hide InTurn;
    hide Filter;
    hide StableSort;
    ScanList(DueTimes(s), s.metaByUuid.keys, IsTelemetryDue(s, now), TelemetryDueLe(s));
  }

  lemma ScanPrefix(s: Server, now: int)
    ensures ScanLaunched(s, now) <= DueTelemetry(s, now) && "" !in ScanLaunched(s, now)
    ensures ScanLaunched(s, now) != []
       <==> DueTelemetry(s, now) != [] && |s.telemetryInFlight| < TELEMETRY_MAX_CONCURRENCY && DueTelemetry(s, now)[0] != ""
  {
    hide Due;
    hide DueTelemetry;
    hide Launched;
    LaunchedPrefix(LaunchPolls(s, Due(s, now), now), DueTelemetry(s, now), now);
  }

  /** The empty uuid is due for a telemetry poll, and a scan looks at it before every other such device. */
  ghost predicate EmptyLeads(s: Server, now: int) {
    Scannable(s, now, "") && forall u :: Scannable(s, now, u) && u != "" ==> Ahead(s, "", u)
  }

  /** A scan starts a telemetry poll exactly when a slot is free, a meter is due, and the empty uuid does not come
      first. */
  lemma ScanLaunches(s: Server, now: int)
    requires s.metaByUuid.Valid()
    ensures ScanLaunched(s, now) != []
       <==> |s.telemetryInFlight| < TELEMETRY_MAX_CONCURRENCY && (exists u :: Scannable(s, now, u)) && !EmptyLeads(s, now)
  {
    hide NoDup;
    hide InTurn;
    hide DueTelemetry;
    hide ScanLaunched;
    hide Scannable;
    DueIs(s, now);
    ScanPrefix(s, now);
    var due := DueTelemetry(s, now);
    if due != [] {
      assert due[0] in due;
      HeadPrecedes(DueTimes(s), s.metaByUuid.keys, due, "");
    }
  }

  lemma LaterStaysBehind(s: Server, now: int, d: string, due: int, from: int, e: string)
    requires s.metaByUuid.Valid() && Waits(s, d, due) && d !in s.inFlight && due < from <= now && Later(s, e, due, from)
    ensures e !in Before(ScanLaunched(s, now), d)
  {
    hide NoDup;
    hide InTurn;
    hide DueTelemetry;
    hide ScanLaunched;
    DueIs(s, now);
    ScanPrefix(s, now);
    FrontPrecedes(DueTimes(s), s.metaByUuid.keys, DueTelemetry(s, now), Before(ScanLaunched(s, now), d), d);
  }

  lemma FrontNoDup(s: Server, now: int, d: string)
    requires s.metaByUuid.Valid()
    ensures NoDup(Before(ScanLaunched(s, now), d)) && NoDup(ScanLaunched(s, now))
  {
    hide DueTelemetry;
    hide ScanLaunched;
    hide NoDup;
    DueIs(s, now);
    ScanPrefix(s, now);
    PrefixNoDup(ScanLaunched(s, now), DueTelemetry(s, now));
    PrefixNoDup(Before(ScanLaunched(s, now), d), ScanLaunched(s, now));
  }

  // ------------------------------------------------------------ due times of meters

  /** Bookkeeping only grows, and the due times of meters stay. */
  ghost predicate MetersKept(before: JsMap<PollMeta>, after: JsMap<PollMeta>) {
    forall u :: u in before.at ==> u in after.at && after.at[u].telemetryNextDueAt == before.at[u].telemetryNextDueAt
  }

  lemma {:induction false} BoostAllMeters(s: Server, uuids: seq<string>, now: int)
    ensures MetersKept(s.metaByUuid, BoostAll(s, uuids, now).metaByUuid)
    decreases |uuids|
  {
    if uuids != [] {
      BoostAllMeters(BoostDevice(s, uuids[0], now), uuids[1..], now);
    }
  }

  lemma {:induction false} LaunchPollsMeters(s: Server, due: seq<string>, now: int)
    ensures MetersKept(s.metaByUuid, LaunchPolls(s, due, now).metaByUuid)
    decreases |due|
  {
    if due != [] && |s.inFlight| < POLL_MAX_CONCURRENCY && due[0] != "" {
      LaunchPollsMeters(StartPoll(s, due[0], Source.Poller, ByTick, now).0, due[1..], now);
    }
  }

  lemma {:induction false} LaunchTelemetryMeters(s: Server, due: seq<string>, now: int)
    ensures MetersKept(s.metaByUuid, LaunchTelemetry(s, due, now).metaByUuid)
    decreases |due|
  {
    if due != [] && |s.telemetryInFlight| < TELEMETRY_MAX_CONCURRENCY && due[0] != "" {
      LaunchTelemetryMeters(StartTelemetry(s, due[0], now), due[1..], now);
    }
  }

  lemma {:induction false} AddHostsMeters(s: Server, hosts: seq<(string, KnownHost)>, now: int)
    ensures MetersKept(s.metaByUuid, AddHosts(s, hosts, now).metaByUuid)
    decreases |hosts|
  {
    if hosts != [] {
      if hosts[0].1.host == "" {
        AddHostsMeters(s, hosts[1..], now);
      } else {
        AddHostsMeters(EnsureMeta(s.(knownHosts := s.knownHosts.Set(hosts[0].0, hosts[0].1)), hosts[0].0, now), hosts[1..], now);
      }
    }
  }

  lemma CompletePollMeters(s: Server, id: nat, c: DeviceState, now: int, random: real)
    requires id < |s.tasks|
    ensures MetersKept(s.metaByUuid, CompletePoll(s, id, c, now, random).metaByUuid)
  {
    hide NextIntervalMs;
    hide HasMaterialStateChange;
    hide ResultOf;
    hide EventsAfter;
    hide StoredAfter;
  }

  lemma ScanMeters(s: Server, now: int)
    ensures MetersKept(s.metaByUuid, ScanTick(s, now).metaByUuid)
  {
    hide Due;
    hide DueTelemetry;
    hide LaunchPolls;
    hide LaunchTelemetry;
    LaunchPollsMeters(s, Due(s, now), now);
    LaunchTelemetryMeters(LaunchPolls(s, Due(s, now), now), DueTelemetry(s, now), now);
  }

  lemma OtherMeters(js: Js, s: Server, step: Step)
    requires Enabled(s, step) && !step.TelemetryCompletes?
    ensures MetersKept(s.metaByUuid, Next(js, s, step).metaByUuid)
  {
    hide Greeting;
    hide StartPoll;
    hide RequestedUuids;
    hide AddHosts;
    hide BoostAll;
    hide ScanTick;
    hide CompletePoll;
    hide Candidate;
    hide MetersKept;
    hide WorkerTakes;
    match step {
      case TickScans(now) => ScanMeters(s, now);
      case Boosts(now, uuid) => BoostMeters(s, uuid, now);
      case HostsSync(now, hosts, _) =>
        AddHostsMeters(s.(lastSyncHostsAt := now, knownHosts := JsMap([], map[])), hosts, now);
      case PollNowBegins(now, requested, reason) => BoostAllMeters(s, RequestedUuids(s, requested), now);
      case WorkerTake(now, c, w) => TakeMeters(s, c, w, now);
      case PollCompletes(now, id, attempt, random) =>
        CompletePollMeters(s, id, Candidate(js, s, s.tasks[id], attempt, now), now, random);
      case RecoveryEnds(now, r, found) => RecoveryMeters(s, r, found, now);
      case _ => NoneMoved(s.metaByUuid);
    }
  }

  lemma NoneMoved(m: JsMap<PollMeta>)
    ensures MetersKept(m, m)
  {
  }

  lemma BoostMeters(s: Server, uuid: string, now: int)
    ensures MetersKept(s.metaByUuid, BoostDevice(s, uuid, now).metaByUuid)
  {
  }

  lemma TakeMeters(s: Server, c: nat, w: nat, now: int)
    requires c < |s.calls| && w < |s.calls[c].workers|
    ensures MetersKept(s.metaByUuid, WorkerTakes(s, c, w, now).metaByUuid)
  {
  }

  lemma RecoveryMeters(s: Server, r: nat, found: Option<KnownHost>, now: int)
    requires r < |s.recoveries|
    ensures MetersKept(s.metaByUuid, EndRecovery(s, r, found, now).metaByUuid)
  {
  }

  /** A completed telemetry poll makes its meter due again 10 seconds to five minutes after its start, and moves no other
      due time of a meter. */
  lemma CompletedDue(s: Server, id: nat, reading: TelemetryAttempt, now: int, e: string)
    requires id < |s.telemetryTasks|
    ensures var t := CompleteTelemetry(s, id, reading, now); var task := s.telemetryTasks[id];
      && (task.uuid == e ==>
            e in t.metaByUuid.at && 10_000 <= t.metaByUuid.at[e].telemetryNextDueAt - task.startedAt <= 300_000)
      && (task.uuid != e && e in s.metaByUuid.at ==>
            e in t.metaByUuid.at && t.metaByUuid.at[e].telemetryNextDueAt == s.metaByUuid.at[e].telemetryNextDueAt)
  {
    hide PowerCandidate;
    hide PowerEvents;
  }

  // -------------------------------------------------------------- steps keep it

  lemma {:induction false} LaunchLater(s: Server, list: seq<string>, now: int, e: string, due: int, from: int)
    requires PollerSafety.TelemetryOk(s.telemetryTasks, s.telemetryInFlight) && from <= now && NoDup(list)
    requires forall u :: u in list ==> u !in s.telemetryInFlight
    requires Later(s, e, due, from) || e in Launched(s, list, now)
    ensures Later(LaunchTelemetry(s, list, now), e, due, from)
    decreases |list|
  {
    hide PollerSafety.TelemetryOk;
    hide Later;
    if list != [] && |s.telemetryInFlight| < TELEMETRY_MAX_CONCURRENCY && list[0] != "" {
      var t := StartTelemetry(s, list[0], now);
      assert list[0] in list && list[0] !in list[1..] && forall u :: u in list[1..] ==> u in list;
      PollerSafety.TelemetryAppend(s.telemetryTasks, s.telemetryInFlight, TelemetryTask(list[0], now, false, false));
      if Later(s, e, due, from) || e == list[0] {
        StartLater(s, list[0], now, e, due, from);
      }
      LaunchLater(t, list[1..], now, e, due, from);
    }
  }

  lemma StartLater(s: Server, uuid: string, now: int, e: string, due: int, from: int)
    requires PollerSafety.TelemetryOk(s.telemetryTasks, s.telemetryInFlight) && from <= now && uuid !in s.telemetryInFlight
    requires Later(s, e, due, from) || uuid == e
    ensures Later(StartTelemetry(s, uuid, now), e, due, from)
  {
  }

  lemma LaterFrame(s: Server, t: Server, e: string, due: int, from: int)
    requires Later(s, e, due, from) && MetersKept(s.metaByUuid, t.metaByUuid)
    requires t.telemetryTasks == s.telemetryTasks && t.telemetryInFlight == s.telemetryInFlight
    ensures Later(t, e, due, from)
  {
  }

  lemma ScanLater(s: Server, now: int, e: string, due: int, from: int)
    requires s.metaByUuid.Valid() && PollerSafety.TelemetryOk(s.telemetryTasks, s.telemetryInFlight) && from <= now
    requires Later(s, e, due, from) || e in ScanLaunched(s, now)
    ensures Later(ScanTick(s, now), e, due, from)
  {
    DueIs(s, now);
    hide PollerSafety.TelemetryOk;
    hide Due;
    hide DueTelemetry;
    hide LaunchPolls;
    hide LaunchTelemetry;
    hide Launched;
    hide Later;
    hide MetersKept;
    hide NoDup;
    var s1 := LaunchPolls(s, Due(s, now), now);
    LaunchPollsMeters(s, Due(s, now), now);
    if Later(s, e, due, from) {
      LaterFrame(s, s1, e, due, from);
    }
    LaunchLater(s1, DueTelemetry(s, now), now, e, due, from);
    NoneMoved(LaunchTelemetry(s1, DueTelemetry(s, now), now).metaByUuid);
    LaterFrame(LaunchTelemetry(s1, DueTelemetry(s, now), now), ScanTick(s, now), e, due, from);
  }

  lemma CompleteLater(s: Server, id: nat, reading: TelemetryAttempt, now: int, e: string, due: int, from: int)
    requires PollerSafety.TelemetryOk(s.telemetryTasks, s.telemetryInFlight)
    requires id < |s.telemetryTasks| && !s.telemetryTasks[id].done && Later(s, e, due, from) && due < from
    ensures Later(CompleteTelemetry(s, id, reading, now), e, due, from)
  {
    PollerSafety.TelemetryFrame(s, id, reading, now);
    CompletedDue(s, id, reading, now, e);
    hide CompleteTelemetry;
  }

  lemma ReleaseLater(s: Server, id: nat, e: string, due: int, from: int)
    requires PollerSafety.TelemetryOk(s.telemetryTasks, s.telemetryInFlight)
    requires id < |s.telemetryTasks| && s.telemetryTasks[id].done && !s.telemetryTasks[id].released && Later(s, e, due, from)
    ensures Later(ReleaseTelemetry(s, id), e, due, from)
  {
  }

  lemma LaterKept(js: Js, s: Server, step: Step, e: string, due: int, from: int)
    requires PollerSafety.TelemetryOk(s.telemetryTasks, s.telemetryInFlight) && s.metaByUuid.Valid()
    requires Enabled(s, step) && (PollerFairness.TimeOf(step).Some? ==> PollerFairness.TimeOf(step).value >= from) && due < from
    requires Later(s, e, due, from) || e in LaunchesOf(s, step)
    ensures Later(Next(js, s, step), e, due, from)
  {
    hide Later;
    hide PollerSafety.TelemetryOk;
    hide ScanLaunched;
    hide ScanTick;
    hide CompleteTelemetry;
    hide ReleaseTelemetry;
    hide MetersKept;
    if step.TickScans? {
      ScanLater(s, step.now, e, due, from);
    } else if step.TelemetryCompletes? {
      CompleteLater(s, step.task, step.reading, step.now, e, due, from);
    } else if step.TelemetryReleases? {
      ReleaseLater(s, step.task, e, due, from);
    } else {
      OtherMeters(js, s, step);
      PollerSafety.SameTelemetry(js, s, step);
      LaterFrame(s, Next(js, s, step), e, due, from);
      hide Next;
    }
  }

  lemma {:induction false} LaunchWaits(s: Server, list: seq<string>, now: int, d: string, due: int)
    requires Waits(s, d, due) && d !in Launched(s, list, now)
    ensures Waits(LaunchTelemetry(s, list, now), d, due)
    decreases |list|
  {
    if list != [] && |s.telemetryInFlight| < TELEMETRY_MAX_CONCURRENCY && list[0] != "" {
      LaunchWaits(StartTelemetry(s, list[0], now), list[1..], now, d, due);
    }
  }

  lemma WaitsFrame(s: Server, t: Server, d: string, due: int)
    requires Waits(s, d, due) && d in t.knownHosts.at && MetersKept(s.metaByUuid, t.metaByUuid)
    requires d !in t.telemetryInFlight
    ensures Waits(t, d, due)
  {
  }

  lemma ScanWaits(s: Server, now: int, d: string, due: int)
    requires Waits(s, d, due) && d !in ScanLaunched(s, now)
    ensures Waits(ScanTick(s, now), d, due)
  {
    hide Due;
    hide DueTelemetry;
    hide LaunchPolls;
    hide LaunchTelemetry;
    hide Launched;
    hide MetersKept;
    var s1 := LaunchPolls(s, Due(s, now), now);
    LaunchPollsMeters(s, Due(s, now), now);
    WaitsFrame(s, s1, d, due);
    LaunchWaits(s1, DueTelemetry(s, now), now, d, due);
  }

  lemma CompleteWaits(s: Server, id: nat, reading: TelemetryAttempt, now: int, d: string, due: int)
    requires PollerSafety.TelemetryOk(s.telemetryTasks, s.telemetryInFlight)
    requires id < |s.telemetryTasks| && !s.telemetryTasks[id].done && Waits(s, d, due)
    ensures Waits(CompleteTelemetry(s, id, reading, now), d, due)
  {
    PollerSafety.TelemetryFrame(s, id, reading, now);
    CompletedDue(s, id, reading, now, d);
    hide CompleteTelemetry;
  }

  lemma ReleaseWaits(s: Server, id: nat, d: string, due: int)
    requires id < |s.telemetryTasks| && Waits(s, d, due)
    ensures Waits(ReleaseTelemetry(s, id), d, due)
  {
  }

  /** Only a sync makes devices unknown. */
  lemma KnownKept(js: Js, s: Server, step: Step, d: string)
    requires Enabled(s, step) && !step.HostsSync? && d in s.knownHosts.at
    ensures d in Next(js, s, step).knownHosts.at
  {
    hide Greeting;
    hide Candidate;
    hide PowerCandidate;
    hide PowerEvents;
    if step.PollCompletes? {
      var c := Candidate(js, s, s.tasks[step.task], step.attempt, step.now);
      PollerSafety.CompleteFrame(s, step.task, c, step.now, step.random);
      hide CompletePoll;
    }
  }

  lemma SyncKeepsKnown(js: Js, s: Server, step: Step, d: string, from: int)
    requires Enabled(s, step) && step.HostsSync? && Undisturbed(s, step, d, from)
    ensures d in Next(js, s, step).knownHosts.at
  {
    hide AddHosts;
  }

  lemma WaitsKept(js: Js, s: Server, step: Step, d: string, due: int, from: int)
    requires PollerSafety.TelemetryOk(s.telemetryTasks, s.telemetryInFlight)
    requires Enabled(s, step) && Undisturbed(s, step, d, from) && d !in LaunchesOf(s, step) && Waits(s, d, due)
    ensures Waits(Next(js, s, step), d, due)
  {
    hide PollerSafety.TelemetryOk;
    hide ScanLaunched;
    hide ScanTick;
    hide CompleteTelemetry;
    hide ReleaseTelemetry;
    hide MetersKept;
    if step.TickScans? {
      ScanWaits(s, step.now, d, due);
    } else if step.TelemetryCompletes? {
      CompleteWaits(s, step.task, step.reading, step.now, d, due);
    } else if step.TelemetryReleases? {
      ReleaseWaits(s, step.task, d, due);
    } else {
      OtherMeters(js, s, step);
      PollerSafety.SameTelemetry(js, s, step);
      if step.HostsSync? {
        SyncKeepsKnown(js, s, step, d, from);
      } else {
        KnownKept(js, s, step, d);
      }
      WaitsFrame(s, Next(js, s, step), d, due);
      hide Next;
    }
    hide Waits;
  }

  // -------------------------------------------------------------- main results

  ghost function Launches(js: Js, s: Server, steps: seq<Step>): seq<string>
    requires Run(js, s, steps)
    decreases |steps|
  {
    if steps == [] then []
    else
      var n := |steps| - 1;
      Launches(js, s, steps[..n]) + LaunchesOf(After(js, s, steps[..n]), steps[n])
  }

  ghost predicate AllUndisturbed(js: Js, s: Server, steps: seq<Step>, d: string, from: int)
    requires Run(js, s, steps)
    decreases |steps|
  {
    steps != [] ==>
      var n := |steps| - 1;
      AllUndisturbed(js, s, steps[..n], d, from) && Undisturbed(After(js, s, steps[..n]), steps[n], d, from)
  }

  /** A scan that finds a free slot, and in which the empty uuid does not come first. */
  ghost predicate FreeScan(s: Server, step: Step) {
    step.TickScans? && |s.telemetryInFlight| < TELEMETRY_MAX_CONCURRENCY && !EmptyLeads(s, step.now)
  }

  ghost function FreeScans(js: Js, s: Server, steps: seq<Step>): nat
    requires Run(js, s, steps)
    decreases |steps|
  {
    if steps == [] then 0
    else
      var n := |steps| - 1;
      FreeScans(js, s, steps[..n]) + (if FreeScan(After(js, s, steps[..n]), steps[n]) then 1 else 0)
  }

  ghost predicate Waiting(s: Server, launches: seq<string>, d: string, due: int, from: int) {
    && PollerSafety.SafetyInv(s)
    && Waits(s, d, due)
    && NoDup(launches)
    && forall e :: e in launches ==> Later(s, e, due, from)
  }

  lemma WaitingParts(s: Server)
    requires PollerSafety.SafetyInv(s)
    ensures PollerSafety.TelemetryOk(s.telemetryTasks, s.telemetryInFlight) && s.metaByUuid.Valid()
  {
    hide PollerSafety.TelemetryOk;
    hide PollerSafety.PollsOk;
    hide PollerSafety.RecoveriesOk;
    hide NoDup;
  }

  lemma NextScanFront(s: Server, launches: seq<string>, now: int, d: string, due: int, from: int)
    requires Waiting(s, launches, d, due, from) && d !in s.inFlight && due < from <= now
    ensures NoDup(launches + Before(ScanLaunched(s, now), d))
  {
    WaitingParts(s);
    hide PollerSafety.SafetyInv;
    hide PollerSafety.TelemetryOk;
    hide Waits;
    hide Later;
    hide NoDup;
    hide ScanLaunched;
    FrontNoDup(s, now, d);
    forall e | e in launches
      ensures e !in Before(ScanLaunched(s, now), d)
    {
      LaterStaysBehind(s, now, d, due, from, e);
    }
    NoDupAppend(launches, Before(ScanLaunched(s, now), d));
  }

  lemma FreeScanLaunches(s: Server, now: Clock, d: string, due: int)
    requires s.metaByUuid.Valid() && Waits(s, d, due) && d !in s.inFlight && due <= now
    ensures FreeScan(s, TickScans(now)) <==> ScanLaunched(s, now) != []
  {
    hide ScanLaunched;
    hide EmptyLeads;
    hide NoDup;
    ScanLaunches(s, now);
    assert Scannable(s, now, d);
  }

  lemma WaitingStep(js: Js, s: Server, launches: seq<string>, step: Step, d: string, due: int, from: int)
    requires Waiting(s, launches, d, due, from) && due < from
    requires Enabled(s, step) && Undisturbed(s, step, d, from) && d !in LaunchesOf(s, step)
    ensures Waiting(Next(js, s, step), launches + LaunchesOf(s, step), d, due, from)
    ensures FreeScan(s, step) <==> LaunchesOf(s, step) != []
  {
    hide PollerSafety.SafetyInv;
    hide PollerSafety.TelemetryOk;
    hide Waits;
    hide Later;
    hide NoDup;
    hide ScanLaunched;
    hide EmptyLeads;
    hide Next;
    WaitingParts(s);
    PollerSafety.SafetyStep(js, s, step);
    WaitsKept(js, s, step, d, due, from);
    if step.TickScans? {
      NextScanFront(s, launches, step.now, d, due, from);
      FreeScanLaunches(s, step.now, d, due);
    } else {
      assert launches + [] == launches;
    }
    forall e | e in launches + LaunchesOf(s, step)
      ensures Later(Next(js, s, step), e, due, from)
    {
      LaterKept(js, s, step, e, due, from);
    }
  }

  lemma {:induction false} WaitingKept(js: Js, s: Server, steps: seq<Step>, d: string, due: int, from: int)
    requires PollerSafety.SafetyInv(s) && Waits(s, d, due) && due < from
    requires Run(js, s, steps) && AllUndisturbed(js, s, steps, d, from) && d !in Launches(js, s, steps)
    ensures Waiting(After(js, s, steps), Launches(js, s, steps), d, due, from)
    ensures FreeScans(js, s, steps) <= |Launches(js, s, steps)|
    decreases |steps|
  {
    hide PollerSafety.SafetyInv;
    hide Waits;
    hide Later;
    hide LaunchesOf;
    hide Next;
    hide Enabled;
    hide Undisturbed;
    hide FreeScan;
    if steps != [] {
      var n := |steps| - 1;
      WaitingKept(js, s, steps[..n], d, due, from);
      WaitingStep(js, After(js, s, steps[..n]), Launches(js, s, steps[..n]), steps[n], d, due, from);
      hide Waiting;
    }
  }

  /** Take any reachable state and any run from it whose clock stays past the due time of a known device's meter that is
      not being read yet, and whose scans come while the device's state is not being polled either. Then ticks read
      each other meter at most once, also counting those the next scan reads in front of it; and so at most as many
      scans found a free slot and no empty uuid in front as there are other devices with bookkeeping. */
  lemma {:induction false} NoStarvation(js: Js, before: seq<Step>, steps: seq<Step>, d: string, due: int, from: int, now: int)
    requires Run(js, Init(), before) && Waits(After(js, Init(), before), d, due) && due < from <= now
    requires Run(js, After(js, Init(), before), steps) && AllUndisturbed(js, After(js, Init(), before), steps, d, from)
    requires d !in Launches(js, After(js, Init(), before), steps)
    requires d !in After(js, After(js, Init(), before), steps).inFlight
    ensures var s := After(js, Init(), before); var t := After(js, s, steps); var launches := Launches(js, s, steps);
      && NoDup(launches + Before(ScanLaunched(t, now), d))
      && FreeScans(js, s, steps) <= |launches| < |t.metaByUuid.at|
  {
    hide PollerSafety.SafetyInv;
    hide Run;
    hide After;
    hide Init;
    hide NoDup;
    hide ScanLaunched;
    hide AllUndisturbed;
    hide Launches;
    PollerSafety.SafetyKept(js, before);
    var s := After(js, Init(), before);
    WaitingKept(js, s, steps, d, due, from);
    var t := After(js, s, steps);
    NextScanFront(t, Launches(js, s, steps), now, d, due, from);
    NoDupSize(Launches(js, s, steps), t.metaByUuid.at.Keys - {d});
  }

  /** As long as the empty uuid is due for a telemetry poll, a scan reads no meter that comes after it. */
  lemma EmptyUuidBlocks(s: Server, now: int, u: string)
    requires s.metaByUuid.Valid() && Scannable(s, now, "")
    ensures u in ScanLaunched(s, now) ==> u != "" && Ahead(s, u, "")
  {
    hide NoDup;
    hide InTurn;
    hide DueTelemetry;
    hide ScanLaunched;
    hide Precedes;
    DueIs(s, now);
    ScanPrefix(s, now);
    FrontPrecedes(DueTimes(s), s.metaByUuid.keys, DueTelemetry(s, now), ScanLaunched(s, now), "");
  }
}
