/** The state poller as a step system. JavaScript runs one synchronous stretch of code at a time, so every stretch
    between two `await`s is one step; the result of an awaited call, the clock and the random numbers are inputs of
    the step that consumes them. */
module Poller {
  import opened Prelude
  import opened Text
  import opened Devices
  import opened Json
  import opened Timing
  import LanExtract

  const POLL_MAX_CONCURRENCY := 6
  const TELEMETRY_MAX_CONCURRENCY := 4

  /** The stream events about devices. Clients listen to all but the last. */
  datatype Event =
    | Snapshot(states: seq<DeviceState>)
    | PowerSnapshot(readings: seq<PowerReading>)
    | StateChanged(state: DeviceState)
    | WentStale(state: DeviceState)
    | PowerChanged(reading: PowerReading)
    | MeterWentStale(reading: PowerReading)

  datatype KnownHost = KnownHost(host: string, mac: Option<string>)

  datatype PollError = PollError(uuid: string, code: string, message: string, at: int)

  /** The code an error text stands for. */
  function PollCode(message: string): string {
    var m := LowerCase(message);
    if Includes(m, "missing meross key") then "missing_key"
    else if Includes(m, "no lan host known") then "host_unavailable"
    else if Includes(m, "state unavailable") || Includes(m, "togglex state not found") || Includes(m, "device state not found") then
      "state_unavailable"
    else "lan_error"
  }

  datatype PollResult = Polled(state: DeviceState) | PollFailed(error: PollError)

  /** Who awaits a poll's own task: nobody but the tick that started it, or a worker of a `pollNow` call. */
  datatype Owner = ByTick | ByWorker(call: nat, worker: nat)

  /** The promise of one state poll: it has a result once the poll is complete, and is released once it has left
      `inFlight`. */
  datatype Task = Task(uuid: string, startedAt: int, reason: Source, owner: Owner, result: Option<PollResult>, released: bool)

  datatype TelemetryTask = TelemetryTask(uuid: string, startedAt: int, done: bool, released: bool)

  datatype Recovery = Recovery(uuid: string, startedAt: int, running: bool)

  /** A worker of a `pollNow` call: at the top of its loop, awaiting a task, or returned. */
  datatype Worker = Ready | Waiting(task: nat) | Finished

  datatype Call = Call(
    reason: Source,
    requested: seq<string>,
    queue: seq<string>,
    workers: seq<Worker>,
    states: seq<DeviceState>,
    errors: seq<PollError>)

  /** A tick in progress: awaiting the host sync, or about to look for due devices. */
  datatype TickPhase = Idle | Syncing | Scanning

  /** The service's fields, and the activations still or once running: polls, telemetry polls, recoveries and
      `pollNow` calls, each list in order of start. A subscriber is its queue of undelivered events. */
  datatype Server = Server(
    stateByUuid: JsMap<DeviceState>,
    metaByUuid: JsMap<PollMeta>,
    knownHosts: JsMap<KnownHost>,
    powerByUuid: JsMap<PowerReading>,
    inFlight: map<string, nat>,
    telemetryInFlight: map<string, nat>,
    resolving: set<string>,
    subscribers: map<nat, seq<Event>>,
    nextSubscriberId: nat,
    lastSyncHostsAt: int,
    tick: TickPhase,
    tasks: seq<Task>,
    telemetryTasks: seq<TelemetryTask>,
    recoveries: seq<Recovery>,
    calls: seq<Call>)

  function Init(): Server {
    Server(JsMap([], map[]), JsMap([], map[]), JsMap([], map[]), JsMap([], map[]), map[], map[], {}, map[], 1, 0, Idle,
           [], [], [], [])
  }

  function MetaAt(s: Server, uuid: string, now: int): PollMeta {
    if uuid in s.metaByUuid.at then s.metaByUuid.at[uuid] else CreateMeta(now)
  }

  function EnsureMeta(s: Server, uuid: string, now: int): Server {
    if uuid in s.metaByUuid.at then s else s.(metaByUuid := s.metaByUuid.Set(uuid, CreateMeta(now)))
  }

  function BoostDevice(s: Server, uuid: string, now: int): Server {
    if uuid == "" then s
    else s.(metaByUuid := s.metaByUuid.Set(
              uuid, MetaAt(s, uuid, now).(boostUntilAt := Some(now + BOOST_WINDOW_MS), nextDueAt := now)))
  }

  function Broadcast(subscribers: map<nat, seq<Event>>, events: seq<Event>): map<nat, seq<Event>> {
    map id | id in subscribers :: subscribers[id] + events
  }

  // -------------------------------------------------------------- one state poll

  /** `pollDevice` up to its first `await`: join the poll in flight, or start one. */
  function StartPoll(s: Server, uuid: string, reason: Source, owner: Owner, now: int): (r: (Server, nat))
    ensures r.0.stateByUuid == s.stateByUuid && r.0.knownHosts == s.knownHosts && r.0.calls == s.calls
    ensures r.0.subscribers == s.subscribers && r.0.powerByUuid == s.powerByUuid
    ensures r.0.telemetryInFlight == s.telemetryInFlight && r.0.telemetryTasks == s.telemetryTasks
    ensures r.0.resolving == s.resolving && r.0.recoveries == s.recoveries && r.0.nextSubscriberId == s.nextSubscriberId
  {
    if uuid in s.inFlight then (s, s.inFlight[uuid])
    else
      var id := |s.tasks|;
      (EnsureMeta(s, uuid, now).(
         tasks := s.tasks + [Task(uuid, now, reason, owner, None, false)],
         inFlight := s.inFlight[uuid := id]),
       id)
  }

  /** What came back from the device: a response of the host in the configuration, or an exception. */
  datatype Attempt = Replied(host: string, resp: Value) | Threw(message: string)

  /** The part of a state that is read out of a response. */
  datatype Readout = Readout(
    kind: Kind,
    channel: nat,
    onoff: Bit,
    channels: seq<Channel>,
    lights: seq<Light>,
    light: Option<Light>,
    timerxDigest: seq<DigestEntry>,
    triggerxDigest: seq<DigestEntry>)

  const UNAVAILABLE := "Device state not found in Appliance.System.All digest (state unavailable)."

  /** `None` when the response holds neither channels nor lights. */
  function ReadOut(js: Js, resp: Value): Option<Readout> {
    var toggles := LanExtract.LanToggleX(js, resp);
    var channels := StableSort(ChannelLe, if toggles.Some? then toggles.value else []);
    var lanLights := LanExtract.LanLight(js, resp);
    var lights := if lanLights.Some? then lanLights.value else [];
    var light0 := PrimaryLight(lights);
    var ch0 := PrimaryChannel(channels);
    if channels == [] && lights == [] then None
    else Some(Readout(
      if light0.Some? && ch0.Some? then Mixed else if light0.Some? then LightOnly else ToggleX,
      if light0.Some? then light0.value.channel else ch0.value.channel,
      if light0.Some? then light0.value.onoff else ch0.value.onoff,
      channels,
      lights,
      light0,
      LanExtract.LanScheduleDigest(js, resp, KTimerx),
      LanExtract.LanScheduleDigest(js, resp, KTriggerx)))
  }

  /** Versions grow even when the clock does not. */
  function NextVersion(version: Option<int>, now: int): int {
    if version.None? then now else Max(now, version.value + 1)
  }

  function VersionOf(prev: Option<DeviceState>): Option<int> {
    if prev.None? then None else Some(prev.value.updatedAt)
  }

  function ReadingVersion(prev: Option<PowerReading>): Option<int> {
    if prev.None? then None else Some(prev.value.updatedAt)
  }

  function FreshState(uuid: string, host: string, r: Readout, prev: Option<DeviceState>, now: int, reason: Source): DeviceState {
    DeviceState(uuid, host, r.kind, r.channel, r.onoff, r.channels, r.lights, r.light, r.timerxDigest, r.triggerxDigest,
                NextVersion(VersionOf(prev), now), reason, false, None)
  }

  function StaleState(uuid: string, knownHost: string, prev: Option<DeviceState>, now: int, reason: Source, message: string): DeviceState {
    match prev
    case None =>
      DeviceState(uuid, knownHost, ToggleX, 0, 0, [], [], None, [], [], now, reason, true, Some(message))
    case Some(p) =>
      DeviceState(uuid, p.host, p.kind, p.channel, p.onoff, p.channels, p.lights, p.light, p.timerxDigest, p.triggerxDigest,
                  NextVersion(VersionOf(prev), now), reason, true, Some(message))
  }

  /** The state a completing poll comes up with: fresh after a usable response, stale otherwise. */
  function Candidate(js: Js, s: Server, t: Task, attempt: Attempt, now: int): DeviceState {
    var prev := s.stateByUuid.Get(t.uuid);
    var known := s.knownHosts.Get(t.uuid);
    var knownHost := if known.Some? then known.value.host else "";
    match attempt
    case Threw(message) => StaleState(t.uuid, knownHost, prev, now, t.reason, message)
    case Replied(host, resp) =>
      match ReadOut(js, resp)
      case None => StaleState(t.uuid, knownHost, prev, now, t.reason, UNAVAILABLE)
      case Some(r) => FreshState(t.uuid, host, r, prev, now, t.reason)
  }

  /** What is cached: the candidate if it is a material change, otherwise the old state, with the new source if the
      poll succeeded. */
  function StoredAfter(prev: Option<DeviceState>, candidate: DeviceState): DeviceState {
    if HasMaterialStateChange(prev, candidate) then candidate
    else if prev.None? then candidate
    else if candidate.stale then prev.value
    else prev.value.(source := candidate.source)
  }

  /** What is broadcast. */
  function EventsAfter(prev: Option<DeviceState>, candidate: DeviceState): seq<Event> {
    (if HasMaterialStateChange(prev, candidate) then [StateChanged(candidate)] else [])
    + (if candidate.stale && (prev.None? || !prev.value.stale) then [WentStale(candidate)] else [])
  }

  function MetaAfter(meta: PollMeta, prev: Option<DeviceState>, candidate: DeviceState, startedAt: int, random: real): PollMeta {
    var m := if candidate.stale then meta.(failureCount := meta.failureCount + 1)
             else if HasMaterialStateChange(prev, candidate) then
               meta.(lastChangeAt := Some(startedAt), failureCount := 0, lastSuccessAt := Some(startedAt))
             else meta.(failureCount := 0, lastSuccessAt := Some(startedAt));
    m.(nextDueAt := startedAt + NextIntervalMs(m, startedAt, random))
  }

  function ResultOf(prev: Option<DeviceState>, candidate: DeviceState, now: int): PollResult {
    if candidate.stale then
      var message := if candidate.error.Some? then candidate.error.value else "";
      PollFailed(PollError(candidate.uuid, PollCode(message), message, now))
    else Polled(StoredAfter(prev, candidate))
  }

  /** `tryResolveHost` up to its first `await`. */
  function TryResolveHost(s: Server, uuid: string, now: int): Server {
    if uuid in s.resolving then s
    else
      var meta := MetaAt(s, uuid, now);
      var s1 := EnsureMeta(s, uuid, now);
      if IsSet(meta.lastResolveAttemptAt) && now - meta.lastResolveAttemptAt.value < RESOLVE_COOLDOWN_MS then s1
      else s1.(
        resolving := s.resolving + {uuid},
        metaByUuid := s1.metaByUuid.Set(uuid, meta.(lastResolveAttemptAt := Some(now))),
        recoveries := s.recoveries + [Recovery(uuid, now, true)])
  }

  /** A poll's stretch after its last `await`, before the recovery it may trigger. */
  function Record(s: Server, id: nat, candidate: DeviceState, now: int, random: real): Server
    requires id < |s.tasks|
  {
    var t := s.tasks[id];
    var prev := s.stateByUuid.Get(t.uuid);
    s.(
      stateByUuid := s.stateByUuid.Set(t.uuid, StoredAfter(prev, candidate)),
      metaByUuid := s.metaByUuid.Set(
        t.uuid, MetaAfter(MetaAt(s, t.uuid, t.startedAt), prev, candidate, t.startedAt, random)),
      subscribers := Broadcast(s.subscribers, EventsAfter(prev, candidate)),
      tasks := s.tasks[id := t.(result := Some(ResultOf(prev, candidate, now)))])
  }

  function CompletePoll(s: Server, id: nat, candidate: DeviceState, now: int, random: real): Server
    requires id < |s.tasks|
  {
    var s1 := Record(s, id, candidate, now, random);
    if candidate.stale && MetaAt(s1, s.tasks[id].uuid, now).failureCount >= 3 then TryResolveHost(s1, s.tasks[id].uuid, now)
    else s1
  }

  function ReleasePoll(s: Server, id: nat): Server
    requires id < |s.tasks|
  {
    s.(inFlight := s.inFlight - {s.tasks[id].uuid}, tasks := s.tasks[id := s.tasks[id].(released := true)])
  }

  function EndRecovery(s: Server, r: nat, found: Option<KnownHost>, now: int): Server
    requires r < |s.recoveries|
  {
    var uuid := s.recoveries[r].uuid;
    var s1 := s.(resolving := s.resolving - {uuid}, recoveries := s.recoveries[r := s.recoveries[r].(running := false)]);
    if found.None? then s1
    else s1.(
      knownHosts := s.knownHosts.Set(uuid, found.value),
      metaByUuid := s.metaByUuid.Set(
        uuid, MetaAt(s, uuid, now).(boostUntilAt := Some(now + BOOST_WINDOW_MS), nextDueAt := now)))
  }

  // ------------------------------------------------------------------- telemetry

  function StartTelemetry(s: Server, uuid: string, now: int): (r: Server)
    ensures r.stateByUuid == s.stateByUuid && r.knownHosts == s.knownHosts && r.calls == s.calls
    ensures r.subscribers == s.subscribers && r.powerByUuid == s.powerByUuid
    ensures r.inFlight == s.inFlight && r.tasks == s.tasks && r.resolving == s.resolving && r.recoveries == s.recoveries
    ensures r.nextSubscriberId == s.nextSubscriberId
  {
    if uuid in s.telemetryInFlight then s
    else EnsureMeta(s, uuid, now).(
           telemetryTasks := s.telemetryTasks + [TelemetryTask(uuid, now, false, false)],
           telemetryInFlight := s.telemetryInFlight[uuid := |s.telemetryTasks|])
  }

  /** A measurement, an exception, or a device that the cloud inventory says has no meter. */
  datatype TelemetryAttempt = Measured(host: string, channel: nat, measures: Measures) | TelemetryThrew(message: string) | NoMeter

  function NoMeasures(): Measures { Measures(None, None, None, None, None, None) }

  function FreshPower(uuid: string, a: TelemetryAttempt, prev: Option<PowerReading>, now: int): PowerReading
    requires a.Measured?
  {
    PowerReading(uuid, a.host, a.channel, a.measures, NextVersion(ReadingVersion(prev), now), false, None)
  }

  function StalePower(uuid: string, knownHost: string, prev: Option<PowerReading>, now: int, message: string): PowerReading {
    match prev
    case None => PowerReading(uuid, knownHost, 0, NoMeasures(), now, true, Some(message))
    case Some(p) => PowerReading(uuid, p.host, p.channel, p.measures, NextVersion(ReadingVersion(prev), now), true, Some(message))
  }

  predicate PowerMoved(prev: Option<PowerReading>, next: PowerReading) {
    if prev.None? then true
    else if prev.value.stale != next.stale then true
    else if next.stale then prev.value.error != next.error || prev.value.measures.powerW != next.measures.powerW
    else
      prev.value.measures.powerW != next.measures.powerW
      || prev.value.measures.voltageV != next.measures.voltageV
      || prev.value.measures.currentA != next.measures.currentA
  }

  function TelemetryDue(startedAt: int, failureCount: nat): int {
    startedAt + Max(TELEMETRY_INTERVAL_MS, FailureBackoffMs(failureCount))
  }

  function TelemetryMeta(meta: PollMeta, attempt: TelemetryAttempt, startedAt: int): PollMeta {
    match attempt
    case NoMeter => meta.(telemetryNextDueAt := startedAt + Max(60_000, TELEMETRY_INTERVAL_MS))
    case Measured(_, _, _) =>
      meta.(telemetryFailureCount := 0, telemetryLastSuccessAt := Some(startedAt), telemetryNextDueAt := TelemetryDue(startedAt, 0))
    case TelemetryThrew(_) =>
      meta.(telemetryFailureCount := meta.telemetryFailureCount + 1,
            telemetryNextDueAt := TelemetryDue(startedAt, meta.telemetryFailureCount + 1))
  }

  /** The reading a completing telemetry poll comes up with, if any. */
  function PowerCandidate(s: Server, uuid: string, attempt: TelemetryAttempt, now: int): Option<PowerReading> {
    var prev := s.powerByUuid.Get(uuid);
    var known := s.knownHosts.Get(uuid);
    match attempt
    case NoMeter => None
    case Measured(_, _, _) => Some(FreshPower(uuid, attempt, prev, now))
    case TelemetryThrew(message) => Some(StalePower(uuid, if known.Some? then known.value.host else "", prev, now, message))
  }

  function CompleteTelemetry(s: Server, id: nat, attempt: TelemetryAttempt, now: int): Server
    requires id < |s.telemetryTasks|
  {
    var t := s.telemetryTasks[id];
    var s1 := s.(
      telemetryTasks := s.telemetryTasks[id := t.(done := true)],
      metaByUuid := s.metaByUuid.Set(t.uuid, TelemetryMeta(MetaAt(s, t.uuid, t.startedAt), attempt, t.startedAt)));
    match PowerCandidate(s, t.uuid, attempt, now)
    case None => s1
    case Some(p) => s1.(
      powerByUuid := s.powerByUuid.Set(t.uuid, p),
      subscribers := Broadcast(s.subscribers, PowerEvents(s.powerByUuid.Get(t.uuid), p)))
  }

  function PowerEvents(prev: Option<PowerReading>, next: PowerReading): seq<Event> {
    (if PowerMoved(prev, next) then [PowerChanged(next)] else [])
    + (if next.stale && (prev.None? || !prev.value.stale) then [MeterWentStale(next)] else [])
  }

  function ReleaseTelemetry(s: Server, id: nat): Server
    requires id < |s.telemetryTasks|
  {
    s.(telemetryInFlight := s.telemetryInFlight - {s.telemetryTasks[id].uuid},
       telemetryTasks := s.telemetryTasks[id := s.telemetryTasks[id].(released := true)])
  }

  // ------------------------------------------------------------------------ tick

  function DueAt(s: Server, uuid: string): int {
    if uuid in s.metaByUuid.at then s.metaByUuid.at[uuid].nextDueAt else 0
  }

  function TelemetryDueAt(s: Server, uuid: string): int {
    if uuid in s.metaByUuid.at then s.metaByUuid.at[uuid].telemetryNextDueAt else 0
  }

  function IsDue(s: Server, now: int): string -> bool {
    u => u in s.knownHosts.at && u !in s.inFlight && DueAt(s, u) <= now
  }

  function IsTelemetryDue(s: Server, now: int): string -> bool {
    u => u in s.knownHosts.at && u !in s.inFlight && u !in s.telemetryInFlight && TelemetryDueAt(s, u) <= now
  }

  function DueLe(s: Server): (string, string) -> bool { (a, b) => DueAt(s, a) <= DueAt(s, b) }

  function TelemetryDueLe(s: Server): (string, string) -> bool { (a, b) => TelemetryDueAt(s, a) <= TelemetryDueAt(s, b) }

  /** The due devices, the longest overdue first. */
  function Due(s: Server, now: int): seq<string> { StableSort(DueLe(s), Filter(IsDue(s, now), s.metaByUuid.keys)) }

  function DueTelemetry(s: Server, now: int): seq<string> {
    StableSort(TelemetryDueLe(s), Filter(IsTelemetryDue(s, now), s.metaByUuid.keys))
  }

  /** Starts polls of the listed devices while a slot is free, and stops for good at an empty uuid. */
  function LaunchPolls(s: Server, due: seq<string>, now: int): (r: Server)
    ensures r.stateByUuid == s.stateByUuid && r.knownHosts == s.knownHosts && r.calls == s.calls
    ensures r.subscribers == s.subscribers && r.powerByUuid == s.powerByUuid
    ensures r.telemetryInFlight == s.telemetryInFlight && r.telemetryTasks == s.telemetryTasks
    ensures r.resolving == s.resolving && r.recoveries == s.recoveries && r.nextSubscriberId == s.nextSubscriberId
    decreases |due|
  {
    if due == [] || |s.inFlight| >= POLL_MAX_CONCURRENCY || due[0] == "" then s
    else LaunchPolls(StartPoll(s, due[0], Source.Poller, ByTick, now).0, due[1..], now)
  }

  /** The devices that loop starts a poll of, in order. */
  function Launched(s: Server, due: seq<string>, now: int): seq<string>
    decreases |due|
  {
    if due == [] || |s.inFlight| >= POLL_MAX_CONCURRENCY || due[0] == "" then []
    else [due[0]] + Launched(StartPoll(s, due[0], Source.Poller, ByTick, now).0, due[1..], now)
  }

  function LaunchTelemetry(s: Server, due: seq<string>, now: int): (r: Server)
    ensures r.stateByUuid == s.stateByUuid && r.knownHosts == s.knownHosts && r.calls == s.calls
    ensures r.subscribers == s.subscribers && r.powerByUuid == s.powerByUuid
    ensures r.inFlight == s.inFlight && r.tasks == s.tasks && r.resolving == s.resolving && r.recoveries == s.recoveries
    ensures r.nextSubscriberId == s.nextSubscriberId
    decreases |due|
  {
    if due == [] || |s.telemetryInFlight| >= TELEMETRY_MAX_CONCURRENCY || due[0] == "" then s
    else LaunchTelemetry(StartTelemetry(s, due[0], now), due[1..], now)
  }

  function ScanTick(s: Server, now: int): Server {
    LaunchTelemetry(LaunchPolls(s, Due(s, now), now), DueTelemetry(s, now), now).(tick := Idle)
  }

  // ----------------------------------------------------------- hosts and pollNow

  /** The entries with a host, in order; each also gets its bookkeeping. */
  function AddHosts(s: Server, hosts: seq<(string, KnownHost)>, now: int): (r: Server)
    ensures r.stateByUuid == s.stateByUuid && r.calls == s.calls && r.subscribers == s.subscribers
    ensures r.powerByUuid == s.powerByUuid && r.inFlight == s.inFlight && r.tasks == s.tasks
    ensures r.telemetryInFlight == s.telemetryInFlight && r.telemetryTasks == s.telemetryTasks
    ensures r.resolving == s.resolving && r.recoveries == s.recoveries && r.nextSubscriberId == s.nextSubscriberId
    decreases |hosts|
  {
    if hosts == [] then s
    else if hosts[0].1.host == "" then AddHosts(s, hosts[1..], now)
    else
      AddHosts(EnsureMeta(s.(knownHosts := s.knownHosts.Set(hosts[0].0, hosts[0].1)), hosts[0].0, now), hosts[1..], now)
  }

  function SyncKnownHosts(s: Server, hosts: seq<(string, KnownHost)>, now: int): Server {
    AddHosts(s.(lastSyncHostsAt := now, knownHosts := JsMap([], map[])), hosts, now)
  }

  /** The trimmed uuids that are not empty, each once, in the order of their first mention. */
  function Distinct(uuids: seq<string>): (r: seq<string>)
    ensures NoDup(r) && "" !in r
    ensures forall u :: u in r <==> u != "" && exists v :: v in uuids && Trim(v) == u
  {
    if uuids == [] then []
    else
      var n := |uuids| - 1;
      var rest := Distinct(uuids[..n]);
      var u := Trim(uuids[n]);
      assert uuids == uuids[..n] + [uuids[n]];
      if u == "" || u in rest then rest else rest + [u]
  }

  function RequestedUuids(s: Server, requested: Option<seq<string>>): seq<string> {
    if requested.Some? && requested.value != [] then Distinct(requested.value) else s.knownHosts.keys
  }

  function BoostAll(s: Server, uuids: seq<string>, now: int): (r: Server)
    ensures r == s.(metaByUuid := r.metaByUuid)
    decreases |uuids|
  {
    if uuids == [] then s else BoostAll(BoostDevice(s, uuids[0], now), uuids[1..], now)
  }

  function WorkerCount(n: nat): nat { Max(1, Min(POLL_MAX_CONCURRENCY, if n == 0 then 1 else n)) }

  /** `pollNow` after its host sync, up to the creation of its workers. */
  function BeginPollNow(s: Server, requested: Option<seq<string>>, reason: Source, now: int): Server {
    var uuids := RequestedUuids(s, requested);
    BoostAll(s, uuids, now).(
      calls := s.calls + [Call(reason, uuids, uuids, seq(WorkerCount(|uuids|), _ => Ready), [], [])])
  }

  /** A worker at the top of its loop: it returns when the queue is empty, or on an empty uuid. */
  function WorkerTakes(s: Server, c: nat, w: nat, now: int): Server
    requires c < |s.calls| && w < |s.calls[c].workers|
  {
    var call := s.calls[c];
    if call.queue == [] then s.(calls := s.calls[c := call.(workers := call.workers[w := Finished])])
    else
      var uuid := call.queue[0];
      var rest := call.queue[1..];
      if uuid == "" then s.(calls := s.calls[c := call.(queue := rest, workers := call.workers[w := Finished])])
      else
        var (s1, id) := StartPoll(s, uuid, call.reason, ByWorker(c, w), now);
        s1.(calls := s.calls[c := call.(queue := rest, workers := call.workers[w := Waiting(id)])])
  }

  function Collected(call: Call, w: nat, result: PollResult): Call
    requires w < |call.workers|
  {
    match result
    case Polled(state) => call.(workers := call.workers[w := Ready], states := call.states + [state])
    case PollFailed(error) => call.(workers := call.workers[w := Ready], errors := call.errors + [error])
  }

  // ----------------------------------------------------------------------- stream

  function StateUuidLe(js: Js): (DeviceState, DeviceState) -> bool {
    (a: DeviceState, b: DeviceState) => js.localeLe(a.uuid, b.uuid)
  }

  function PowerUuidLe(js: Js): (PowerReading, PowerReading) -> bool {
    (a: PowerReading, b: PowerReading) => js.localeLe(a.uuid, b.uuid)
  }

  /** The values of a map in insertion order. */
  function ValuesIn<V>(m: JsMap<V>, keys: seq<string>): seq<V> {
    if keys == [] then []
    else if keys[0] in m.at then [m.at[keys[0]]] + ValuesIn(m, keys[1..])
    else ValuesIn(m, keys[1..])
  }

  function Greeting(js: Js, s: Server): seq<Event> {
    [Snapshot(StableSort(StateUuidLe(js), ValuesIn(s.stateByUuid, s.stateByUuid.keys))),
     PowerSnapshot(StableSort(PowerUuidLe(js), ValuesIn(s.powerByUuid, s.powerByUuid.keys)))]
  }

  function Subscribe(js: Js, s: Server): Server {
    s.(subscribers := s.subscribers[s.nextSubscriberId := Greeting(js, s)], nextSubscriberId := s.nextSubscriberId + 1)
  }

  // ------------------------------------------------------------------------ steps

  datatype Step =
    | TickBegins(now: Clock)
    | HostsSync(now: Clock, hosts: seq<(string, KnownHost)>, forTick: bool)
    | TickScans(now: Clock)
    | TickAborts
    | Boosts(now: Clock, uuid: string)
    | PollNowBegins(now: Clock, requested: Option<seq<string>>, reason: Source)
    | WorkerTake(now: Clock, call: nat, worker: nat)
    | WorkerCollect(call: nat, worker: nat)
    | PollCompletes(now: Clock, task: nat, attempt: Attempt, random: real)
    | PollReleases(task: nat)
    | TelemetryCompletes(now: Clock, task: nat, reading: TelemetryAttempt)
    | TelemetryReleases(task: nat)
    | RecoveryEnds(now: Clock, recovery: nat, found: Option<KnownHost>)
    | Subscribes
    | Unsubscribes(id: nat)
    | Pulls(id: nat)

  predicate Enabled(s: Server, step: Step) {
    match step
    case HostsSync(_, _, forTick) => forTick ==> s.tick.Syncing?
    case TickScans(_) => s.tick.Scanning?
    case TickAborts => s.tick.Syncing?
    case WorkerTake(_, c, w) => c < |s.calls| && w < |s.calls[c].workers| && s.calls[c].workers[w].Ready?
    case WorkerCollect(c, w) =>
      && c < |s.calls| && w < |s.calls[c].workers| && s.calls[c].workers[w].Waiting?
      && var id := s.calls[c].workers[w].task;
         id < |s.tasks| && s.tasks[id].result.Some? && (s.tasks[id].owner == ByWorker(c, w) ==> s.tasks[id].released)
    case PollCompletes(_, id, _, _) => id < |s.tasks| && s.tasks[id].result.None?
    case PollReleases(id) => id < |s.tasks| && s.tasks[id].result.Some? && !s.tasks[id].released
    case TelemetryCompletes(_, id, _) => id < |s.telemetryTasks| && !s.telemetryTasks[id].done
    case TelemetryReleases(id) => id < |s.telemetryTasks| && s.telemetryTasks[id].done && !s.telemetryTasks[id].released
    case RecoveryEnds(_, r, _) => r < |s.recoveries| && s.recoveries[r].running
    case Pulls(id) => id in s.subscribers && s.subscribers[id] != []
    case _ => true
  }

  function Next(js: Js, s: Server, step: Step): Server
    requires Enabled(s, step)
  {
    match step
    case TickBegins(now) =>
      if s.tick != Idle then s
      else s.(tick := if now - s.lastSyncHostsAt > SYNC_HOSTS_EVERY_MS then Syncing else Scanning)
    case HostsSync(now, hosts, forTick) =>
      var s1 := SyncKnownHosts(s, hosts, now);
      if forTick then s1.(tick := Scanning) else s1
    case TickScans(now) => ScanTick(s, now)
    case TickAborts => s.(tick := Idle)
    case Boosts(now, uuid) => BoostDevice(s, uuid, now)
    case PollNowBegins(now, requested, reason) => BeginPollNow(s, requested, reason, now)
    case WorkerTake(now, c, w) => WorkerTakes(s, c, w, now)
    case WorkerCollect(c, w) =>
      s.(calls := s.calls[c := Collected(s.calls[c], w, s.tasks[s.calls[c].workers[w].task].result.value)])
    case PollCompletes(now, id, attempt, random) =>
      CompletePoll(s, id, Candidate(js, s, s.tasks[id], attempt, now), now, random)
    case PollReleases(id) => ReleasePoll(s, id)
    case TelemetryCompletes(now, id, attempt) => CompleteTelemetry(s, id, attempt, now)
    case TelemetryReleases(id) => ReleaseTelemetry(s, id)
    case RecoveryEnds(now, r, found) => EndRecovery(s, r, found, now)
    case Subscribes => Subscribe(js, s)
    case Unsubscribes(id) => s.(subscribers := s.subscribers - {id})
    case Pulls(id) => s.(subscribers := s.subscribers[id := s.subscribers[id][1..]])
  }

  /** A run from `s`: every step is possible where it is taken. */
  ghost predicate Run(js: Js, s: Server, steps: seq<Step>)
    decreases |steps|, 0
  {
    steps != [] ==>
      && Run(js, s, steps[..|steps| - 1])
      && Enabled(After(js, s, steps[..|steps| - 1]), steps[|steps| - 1])
  }

  ghost function After(js: Js, s: Server, steps: seq<Step>): Server
    requires Run(js, s, steps)
    decreases |steps|, 1
  {
    if steps == [] then s else Next(js, After(js, s, steps[..|steps| - 1]), steps[|steps| - 1])
  }
}
