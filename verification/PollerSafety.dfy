/** What every run of the poller keeps: single flight, the concurrency caps, the recovery cooldown, and that a
    `pollNow` call answers for each requested device exactly once. */
module PollerSafety {
  import opened Prelude
  import opened Devices
  import opened Json
  import opened Timing
  import opened Poller

  // --------------------------------------------------------------- single flight

  /** `inFlight` holds exactly the polls not yet released, one per uuid. */
  ghost predicate FlightsOk(tasks: seq<Task>, inFlight: map<string, nat>) {
    && (forall u :: u in inFlight ==>
          inFlight[u] < |tasks| && tasks[inFlight[u]].uuid == u && !tasks[inFlight[u]].released)
    && (forall id :: 0 <= id < |tasks| && !tasks[id].released ==>
          tasks[id].uuid in inFlight && inFlight[tasks[id].uuid] == id)
    && (forall id :: 0 <= id < |tasks| && tasks[id].released ==> tasks[id].result.Some?)
  }

  ghost predicate TelemetryOk(tasks: seq<TelemetryTask>, inFlight: map<string, nat>) {
    && (forall u :: u in inFlight ==>
          inFlight[u] < |tasks| && tasks[inFlight[u]].uuid == u && !tasks[inFlight[u]].released)
    && (forall id :: 0 <= id < |tasks| && !tasks[id].released ==>
          tasks[id].uuid in inFlight && inFlight[tasks[id].uuid] == id)
    && (forall id :: 0 <= id < |tasks| && tasks[id].released ==> tasks[id].done)
    && |inFlight| <= TELEMETRY_MAX_CONCURRENCY
  }

  function OpenTasks(tasks: seq<Task>): set<int> { set id | 0 <= id < |tasks| && !tasks[id].released }

  function OpenByTick(tasks: seq<Task>): set<int> {
    set id | 0 <= id < |tasks| && !tasks[id].released && tasks[id].owner.ByTick?
  }

  function OpenByWorkers(tasks: seq<Task>): set<int> {
    set id | 0 <= id < |tasks| && !tasks[id].released && tasks[id].owner.ByWorker?
  }

  function OpenTelemetry(tasks: seq<TelemetryTask>): set<int> { set id | 0 <= id < |tasks| && !tasks[id].released }

  /** The workers of all `pollNow` calls that have not returned. */
  function ActiveWorkers(calls: seq<Call>): set<(int, int)> {
    set c, w | 0 <= c < |calls| && 0 <= w < |calls[c].workers| && !calls[c].workers[w].Finished? :: (c, w)
  }

  /** An open poll started by a worker is the one that worker waits for. */
  ghost predicate OwnersOk(tasks: seq<Task>, calls: seq<Call>) {
    forall id :: 0 <= id < |tasks| && !tasks[id].released && tasks[id].owner.ByWorker? ==>
      var o := tasks[id].owner;
      o.call < |calls| && o.worker < |calls[o.call].workers| && calls[o.call].workers[o.worker] == Waiting(id)
  }

  lemma OpenAtMostInFlight(tasks: seq<Task>, inFlight: map<string, nat>)
    requires FlightsOk(tasks, inFlight)
    ensures |OpenTasks(tasks)| <= |inFlight| && |OpenByTick(tasks)| <= |inFlight|
  {
    InjectionSize(OpenTasks(tasks), inFlight.Keys, (id: int) requires 0 <= id < |tasks| => tasks[id].uuid);
    InjectionSize(OpenByTick(tasks), inFlight.Keys, (id: int) requires 0 <= id < |tasks| => tasks[id].uuid);
  }

  lemma OpenTelemetryBound(tasks: seq<TelemetryTask>, inFlight: map<string, nat>)
    requires TelemetryOk(tasks, inFlight)
    ensures |OpenTelemetry(tasks)| <= TELEMETRY_MAX_CONCURRENCY
  {
    InjectionSize(OpenTelemetry(tasks), inFlight.Keys, (id: int) requires 0 <= id < |tasks| => tasks[id].uuid);
  }

  lemma OpenByWorkersBound(tasks: seq<Task>, calls: seq<Call>)
    requires OwnersOk(tasks, calls)
    ensures |OpenByWorkers(tasks)| <= |ActiveWorkers(calls)|
  {
    InjectionSize(OpenByWorkers(tasks), ActiveWorkers(calls),
                  (id: int) requires 0 <= id < |tasks| && tasks[id].owner.ByWorker? =>
                    (tasks[id].owner.call as int, tasks[id].owner.worker as int));
  }

  ghost predicate PollsOk(s: Server) {
    && FlightsOk(s.tasks, s.inFlight)
    && OwnersOk(s.tasks, s.calls)
    && |OpenByTick(s.tasks)| <= POLL_MAX_CONCURRENCY
  }

  lemma StartFlight(s: Server, uuid: string, reason: Source, owner: Owner, now: int)
    requires FlightsOk(s.tasks, s.inFlight)
    ensures var (t, id) := StartPoll(s, uuid, reason, owner, now);
      && FlightsOk(t.tasks, t.inFlight)
      && id < |t.tasks| && t.tasks[id].uuid == uuid
      && (uuid in s.inFlight ==> t.tasks == s.tasks && t.inFlight == s.inFlight)
      && (uuid !in s.inFlight ==> t.tasks == s.tasks + [Task(uuid, now, reason, owner, None, false)] && id == |s.tasks|)
      && (uuid !in s.inFlight ==> |t.inFlight| == |s.inFlight| + 1)
  {
  }

  lemma OneMoreByTick(tasks: seq<Task>, t: Task)
    ensures t.owner.ByTick? ==> |OpenByTick(tasks + [t])| <= |OpenByTick(tasks)| + 1
    ensures t.owner.ByWorker? ==> OpenByTick(tasks + [t]) == OpenByTick(tasks)
  {
    if t.owner.ByTick? {
      assert OpenByTick(tasks + [t]) <= OpenByTick(tasks) + {|tasks|};
      InjectionSize(OpenByTick(tasks + [t]), OpenByTick(tasks) + {|tasks|}, (id: int) => id);
    }
  }

  /** Starting a poll for an owner that may: the tick when there is a free slot, or a worker that then waits. */
  lemma StartKeepsTick(s: Server, uuid: string, now: int)
    requires PollsOk(s) && |s.inFlight| < POLL_MAX_CONCURRENCY
    ensures PollsOk(StartPoll(s, uuid, Source.Poller, ByTick, now).0)
  {
    StartFlight(s, uuid, Source.Poller, ByTick, now);
    OpenAtMostInFlight(s.tasks, s.inFlight);
    OneMoreByTick(s.tasks, Task(uuid, now, Source.Poller, ByTick, None, false));
    hide FlightsOk;
    hide OpenByTick;
  }

  lemma {:induction false} LaunchKeepsPolls(s: Server, due: seq<string>, now: int)
    requires PollsOk(s)
    ensures PollsOk(LaunchPolls(s, due, now))
    decreases |due|
  {
    hide StartPoll;
    hide PollsOk;
    if due != [] && |s.inFlight| < POLL_MAX_CONCURRENCY && due[0] != "" {
      StartKeepsTick(s, due[0], now);
      LaunchKeepsPolls(StartPoll(s, due[0], Source.Poller, ByTick, now).0, due[1..], now);
    }
  }

  /** Changing one worker that waits for nothing keeps the others' polls theirs. */
  lemma OwnersUpdate(tasks: seq<Task>, calls: seq<Call>, c: nat, w: nat, call: Call, next: Worker)
    requires OwnersOk(tasks, calls) && c < |calls| && w < |calls[c].workers|
    requires calls[c].workers[w].Waiting? ==> calls[c].workers[w].task < |tasks|
    requires calls[c].workers[w].Waiting? ==>
      var t := tasks[calls[c].workers[w].task]; t.released || t.owner != ByWorker(c, w)
    requires call.workers == calls[c].workers[w := next]
    ensures OwnersOk(tasks, calls[c := call])
  {
  }

  lemma OwnersGrow(tasks: seq<Task>, calls: seq<Call>, t: Task)
    requires OwnersOk(tasks, calls)
    requires t.owner.ByWorker? ==> t.owner.call < |calls| && t.owner.worker < |calls[t.owner.call].workers|
    requires t.owner.ByWorker? ==> calls[t.owner.call].workers[t.owner.worker] == Waiting(|tasks|)
    ensures OwnersOk(tasks + [t], calls)
  {
  }

  lemma {:induction false} WorkerTakeKeepsPolls(s: Server, c: nat, w: nat, now: int)
    requires PollsOk(s) && c < |s.calls| && w < |s.calls[c].workers| && s.calls[c].workers[w].Ready?
    ensures PollsOk(WorkerTakes(s, c, w, now))
  {
    hide FlightsOk;
    hide OpenByTick;
    hide StartPoll;
    hide OwnersOk;
    var call := s.calls[c];
    var t := WorkerTakes(s, c, w, now);
    OwnersUpdate(s.tasks, s.calls, c, w, t.calls[c], t.calls[c].workers[w]);
    if call.queue != [] && call.queue[0] != "" {
      StartFlight(s, call.queue[0], call.reason, ByWorker(c, w), now);
      var task := Task(call.queue[0], now, call.reason, ByWorker(c, w), None, false);
      OneMoreByTick(s.tasks, task);
      if call.queue[0] !in s.inFlight {
        OwnersGrow(s.tasks, t.calls, task);
      }
    }
  }

  /** A result or a release changes a task, and nothing else about it. */
  lemma ResultKeepsPolls(s: Server, id: nat, r: PollResult)
    requires PollsOk(s) && id < |s.tasks|
    ensures PollsOk(s.(tasks := s.tasks[id := s.tasks[id].(result := Some(r))]))
  {
    var tasks := s.tasks[id := s.tasks[id].(result := Some(r))];
    assert OpenByTick(tasks) == OpenByTick(s.tasks);
  }

  lemma CompleteFrame(s: Server, id: nat, candidate: DeviceState, now: int, random: real)
    requires id < |s.tasks|
    ensures var t := CompletePoll(s, id, candidate, now, random);
      && t.tasks == s.tasks[id := s.tasks[id].(result := Some(ResultOf(s.stateByUuid.Get(s.tasks[id].uuid), candidate, now)))]
      && t.inFlight == s.inFlight && t.calls == s.calls && t.knownHosts == s.knownHosts && t.powerByUuid == s.powerByUuid
      && t.telemetryTasks == s.telemetryTasks && t.telemetryInFlight == s.telemetryInFlight
      && t.tick == s.tick && t.nextSubscriberId == s.nextSubscriberId
      && t.stateByUuid == s.stateByUuid.Set(s.tasks[id].uuid, StoredAfter(s.stateByUuid.Get(s.tasks[id].uuid), candidate))
      && t.subscribers == Broadcast(s.subscribers, EventsAfter(s.stateByUuid.Get(s.tasks[id].uuid), candidate))
  {
    hide MetaAfter;
    hide StoredAfter;
    hide EventsAfter;
    hide ResultOf;
    hide Broadcast;
  }

  lemma PollsFrame(s: Server, t: Server)
    requires PollsOk(s) && t.tasks == s.tasks && t.inFlight == s.inFlight && t.calls == s.calls
    ensures PollsOk(t)
  {
    hide FlightsOk;
    hide OwnersOk;
  }

  lemma CompleteKeepsPolls(s: Server, id: nat, candidate: DeviceState, now: int, random: real)
    requires PollsOk(s) && id < |s.tasks|
    ensures PollsOk(CompletePoll(s, id, candidate, now, random))
  {
    hide CompletePoll;
    hide PollsOk;
    CompleteFrame(s, id, candidate, now, random);
    var r := ResultOf(s.stateByUuid.Get(s.tasks[id].uuid), candidate, now);
    ResultKeepsPolls(s, id, r);
    PollsFrame(s.(tasks := s.tasks[id := s.tasks[id].(result := Some(r))]), CompletePoll(s, id, candidate, now, random));
  }

  lemma ReleaseKeepsPolls(s: Server, id: nat)
    requires PollsOk(s) && id < |s.tasks| && s.tasks[id].result.Some? && !s.tasks[id].released
    ensures PollsOk(ReleasePoll(s, id))
  {
    var t := ReleasePoll(s, id);
    assert OpenByTick(t.tasks) <= OpenByTick(s.tasks);
    InjectionSize(OpenByTick(t.tasks), OpenByTick(s.tasks), (i: int) => i);
  }

  lemma CollectKeepsPolls(s: Server, c: nat, w: nat)
    requires PollsOk(s) && Enabled(s, WorkerCollect(c, w))
    ensures PollsOk(s.(calls := s.calls[c := Collected(s.calls[c], w, s.tasks[s.calls[c].workers[w].task].result.value)]))
  {
    hide FlightsOk;
    hide OwnersOk;
    var call := Collected(s.calls[c], w, s.tasks[s.calls[c].workers[w].task].result.value);
    OwnersUpdate(s.tasks, s.calls, c, w, call, Ready);
  }

  lemma PollsStep(js: Js, s: Server, step: Step)
    requires PollsOk(s) && Enabled(s, step)
    ensures PollsOk(Next(js, s, step))
  {
    hide PollsOk;
    match step {
      case TickScans(now) =>
        LaunchKeepsPolls(s, Due(s, now), now);
        PollsFrame(LaunchPolls(s, Due(s, now), now), Next(js, s, step));
      case PollNowBegins(_, requested, reason) =>
        BeginKeepsPolls(s, requested, reason, step.now);
      case WorkerTake(now, c, w) => WorkerTakeKeepsPolls(s, c, w, now);
      case WorkerCollect(c, w) => CollectKeepsPolls(s, c, w);
      case PollCompletes(now, id, attempt, random) =>
        CompleteKeepsPolls(s, id, Candidate(js, s, s.tasks[id], attempt, now), now, random);
      case PollReleases(id) => ReleaseKeepsPolls(s, id);
      case _ =>
        SameFlights(js, s, step);
        PollsFrame(s, Next(js, s, step));
    }
  }

  lemma BeginKeepsPolls(s: Server, requested: Option<seq<string>>, reason: Source, now: int)
    requires PollsOk(s)
    ensures PollsOk(BeginPollNow(s, requested, reason, now))
  {
    hide FlightsOk;
    hide RequestedUuids;
  }

  predicate StartsOrEndsPolls(step: Step) {
    step.TickScans? || step.PollNowBegins? || step.WorkerTake? || step.WorkerCollect? || step.PollCompletes? || step.PollReleases?
  }

  lemma SameFlights(js: Js, s: Server, step: Step)
    requires Enabled(s, step) && !StartsOrEndsPolls(step)
    ensures var t := Next(js, s, step); t.tasks == s.tasks && t.inFlight == s.inFlight && t.calls == s.calls
  {
    hide AddHosts;
    hide Greeting;
    hide PowerCandidate;
    hide TelemetryMeta;
    hide PowerEvents;
    hide Broadcast;
    hide ScanTick;
    hide BeginPollNow;
    hide WorkerTakes;
    hide CompletePoll;
    hide Candidate;
    hide Collected;
    hide ReleasePoll;
    hide StartPoll;
  }

  lemma TelemetryFrame(s: Server, id: nat, attempt: TelemetryAttempt, now: int)
    requires id < |s.telemetryTasks|
    ensures var t := CompleteTelemetry(s, id, attempt, now);
      t.tasks == s.tasks && t.inFlight == s.inFlight && t.calls == s.calls && t.recoveries == s.recoveries
      && t.resolving == s.resolving && t.stateByUuid == s.stateByUuid && t.knownHosts == s.knownHosts
      && t.telemetryInFlight == s.telemetryInFlight
      && t.telemetryTasks == s.telemetryTasks[id := s.telemetryTasks[id].(done := true)]
  {
  }

  // ------------------------------------------------------------------- telemetry

  lemma TelemetryAppend(tasks: seq<TelemetryTask>, inFlight: map<string, nat>, t: TelemetryTask)
    requires TelemetryOk(tasks, inFlight) && |inFlight| < TELEMETRY_MAX_CONCURRENCY
    requires t.uuid !in inFlight && !t.released
    ensures TelemetryOk(tasks + [t], inFlight[t.uuid := |tasks|])
  {
  }

  lemma TelemetryDone(tasks: seq<TelemetryTask>, inFlight: map<string, nat>, id: nat)
    requires TelemetryOk(tasks, inFlight) && id < |tasks|
    ensures TelemetryOk(tasks[id := tasks[id].(done := true)], inFlight)
  {
  }

  lemma TelemetryRelease(tasks: seq<TelemetryTask>, inFlight: map<string, nat>, id: nat)
    requires TelemetryOk(tasks, inFlight) && id < |tasks| && tasks[id].done && !tasks[id].released
    ensures TelemetryOk(tasks[id := tasks[id].(released := true)], inFlight - {tasks[id].uuid})
  {
    var less := inFlight - {tasks[id].uuid};
    assert less.Keys == inFlight.Keys - {tasks[id].uuid};
  }

  lemma {:induction false} LaunchKeepsTelemetry(s: Server, due: seq<string>, now: int)
    requires TelemetryOk(s.telemetryTasks, s.telemetryInFlight)
    ensures var t := LaunchTelemetry(s, due, now); TelemetryOk(t.telemetryTasks, t.telemetryInFlight)
    decreases |due|
  {
    hide TelemetryOk;
    if due != [] && |s.telemetryInFlight| < TELEMETRY_MAX_CONCURRENCY && due[0] != "" {
      if due[0] !in s.telemetryInFlight {
        TelemetryAppend(s.telemetryTasks, s.telemetryInFlight, TelemetryTask(due[0], now, false, false));
      }
      LaunchKeepsTelemetry(StartTelemetry(s, due[0], now), due[1..], now);
    }
  }

  predicate TouchesTelemetry(step: Step) { step.TickScans? || step.TelemetryCompletes? || step.TelemetryReleases? }

  lemma SameTelemetry(js: Js, s: Server, step: Step)
    requires Enabled(s, step) && !TouchesTelemetry(step)
    ensures var t := Next(js, s, step); t.telemetryTasks == s.telemetryTasks && t.telemetryInFlight == s.telemetryInFlight
  {
    hide AddHosts;
    hide Greeting;
    hide StartPoll;
    hide BoostAll;
    hide CompletePoll;
    if step.PollCompletes? {
      CompleteFrame(s, step.task, Candidate(js, s, s.tasks[step.task], step.attempt, step.now), step.now, step.random);
    }
  }

  lemma TelemetryStep(js: Js, s: Server, step: Step)
    requires TelemetryOk(s.telemetryTasks, s.telemetryInFlight) && Enabled(s, step)
    ensures var t := Next(js, s, step); TelemetryOk(t.telemetryTasks, t.telemetryInFlight)
  {
    hide TelemetryOk;
    match step {
      case TickScans(now) =>
        LaunchKeepsTelemetry(LaunchPolls(s, Due(s, now), now), DueTelemetry(s, now), now);
      case TelemetryCompletes(now, id, reading) =>
        TelemetryFrame(s, id, reading, now);
        TelemetryDone(s.telemetryTasks, s.telemetryInFlight, id);
      case TelemetryReleases(id) => TelemetryRelease(s.telemetryTasks, s.telemetryInFlight, id);
      case _ => SameTelemetry(js, s, step);
    }
  }

  // --------------------------------------------------------------- bookkeeping

  /** No bookkeeping is ever lost, and none forgets its last recovery. */
  ghost predicate ResolveKept(before: JsMap<PollMeta>, after: JsMap<PollMeta>) {
    forall u :: u in before.at ==> u in after.at && after.at[u].lastResolveAttemptAt == before.at[u].lastResolveAttemptAt
  }

  function Failures(m: JsMap<PollMeta>, uuid: string): nat {
    if uuid in m.at then m.at[uuid].failureCount else 0
  }

  ghost predicate MetaKept(before: JsMap<PollMeta>, after: JsMap<PollMeta>) {
    ResolveKept(before, after) && forall u :: Failures(after, u) == Failures(before, u)
  }

  lemma {:induction false} BoostAllKeeps(s: Server, uuids: seq<string>, now: int)
    ensures MetaKept(s.metaByUuid, BoostAll(s, uuids, now).metaByUuid)
    decreases |uuids|
  {
    if uuids != [] {
      BoostAllKeeps(BoostDevice(s, uuids[0], now), uuids[1..], now);
    }
  }

  lemma {:induction false} LaunchPollsKeeps(s: Server, due: seq<string>, now: int)
    ensures MetaKept(s.metaByUuid, LaunchPolls(s, due, now).metaByUuid)
    decreases |due|
  {
    if due != [] && |s.inFlight| < POLL_MAX_CONCURRENCY && due[0] != "" {
      LaunchPollsKeeps(StartPoll(s, due[0], Source.Poller, ByTick, now).0, due[1..], now);
    }
  }

  lemma {:induction false} LaunchTelemetryKeeps(s: Server, due: seq<string>, now: int)
    ensures MetaKept(s.metaByUuid, LaunchTelemetry(s, due, now).metaByUuid)
    decreases |due|
  {
    if due != [] && |s.telemetryInFlight| < TELEMETRY_MAX_CONCURRENCY && due[0] != "" {
      LaunchTelemetryKeeps(StartTelemetry(s, due[0], now), due[1..], now);
    }
  }

  lemma {:induction false} AddHostsKeeps(s: Server, hosts: seq<(string, KnownHost)>, now: int)
    ensures MetaKept(s.metaByUuid, AddHosts(s, hosts, now).metaByUuid)
    decreases |hosts|
  {
    if hosts != [] {
      if hosts[0].1.host == "" {
        AddHostsKeeps(s, hosts[1..], now);
      } else {
        AddHostsKeeps(EnsureMeta(s.(knownHosts := s.knownHosts.Set(hosts[0].0, hosts[0].1)), hosts[0].0, now), hosts[1..], now);
      }
    }
  }

  lemma RecordKeeps(s: Server, id: nat, candidate: DeviceState, now: int, random: real)
    requires id < |s.tasks|
    ensures ResolveKept(s.metaByUuid, Record(s, id, candidate, now, random).metaByUuid)
  {
    hide NextIntervalMs;
    hide HasMaterialStateChange;
    hide ResultOf;
    hide EventsAfter;
    hide StoredAfter;
  }

  lemma TelemetryMetaKeeps(s: Server, id: nat, attempt: TelemetryAttempt, now: int)
    requires id < |s.telemetryTasks|
    ensures MetaKept(s.metaByUuid, CompleteTelemetry(s, id, attempt, now).metaByUuid)
  {
    hide PowerCandidate;
    hide PowerEvents;
    hide TelemetryDue;
  }

  // ------------------------------------------------------------------- recoveries

  /** `resolving` holds exactly the running recoveries, one per uuid; recoveries of a uuid start at least the
      cooldown apart, and its bookkeeping remembers the latest. */
  ghost predicate RecoveriesOk(recoveries: seq<Recovery>, resolving: set<string>, metas: JsMap<PollMeta>) {
    && (forall r :: 0 <= r < |recoveries| && recoveries[r].running ==> recoveries[r].uuid in resolving)
    && (forall q, r :: 0 <= q < r < |recoveries| && recoveries[q].running && recoveries[r].running ==>
          recoveries[q].uuid != recoveries[r].uuid)
    && (forall r :: 0 <= r < |recoveries| ==> Remembered(recoveries[r], metas))
    && (forall q, r :: 0 <= q < r < |recoveries| && recoveries[q].uuid == recoveries[r].uuid ==>
          recoveries[r].startedAt - recoveries[q].startedAt >= RESOLVE_COOLDOWN_MS)
  }

  ghost predicate Remembered(r: Recovery, metas: JsMap<PollMeta>) {
    r.uuid in metas.at && metas.at[r.uuid].lastResolveAttemptAt.Some?
    && 0 < r.startedAt <= metas.at[r.uuid].lastResolveAttemptAt.value
  }

  lemma RecoveriesKept(recoveries: seq<Recovery>, resolving: set<string>, before: JsMap<PollMeta>, after: JsMap<PollMeta>)
    requires RecoveriesOk(recoveries, resolving, before) && ResolveKept(before, after)
    ensures RecoveriesOk(recoveries, resolving, after)
  {
    forall r | 0 <= r < |recoveries|
      ensures Remembered(recoveries[r], after)
    {
      assert Remembered(recoveries[r], before);
    }
  }

  /** A new recovery: none is running for its uuid, and the last one is long enough ago. */
  lemma RecoveriesAppend(recoveries: seq<Recovery>, resolving: set<string>, metas: JsMap<PollMeta>, uuid: string, now: Clock, meta: PollMeta)
    requires RecoveriesOk(recoveries, resolving, metas) && uuid !in resolving && meta.lastResolveAttemptAt == Some(now)
    requires uuid in metas.at && IsSet(metas.at[uuid].lastResolveAttemptAt) ==>
      now - metas.at[uuid].lastResolveAttemptAt.value >= RESOLVE_COOLDOWN_MS
    ensures RecoveriesOk(recoveries + [Recovery(uuid, now, true)], resolving + {uuid}, metas.Set(uuid, meta))
  {
    var more := recoveries + [Recovery(uuid, now, true)];
    forall r | 0 <= r < |more|
      ensures Remembered(more[r], metas.Set(uuid, meta))
      ensures r < |recoveries| && more[r].uuid == uuid ==> now - more[r].startedAt >= RESOLVE_COOLDOWN_MS
    {
      assert r < |recoveries| ==> Remembered(recoveries[r], metas);
    }
  }

  lemma TryResolveKeeps(s: Server, uuid: string, now: Clock)
    requires RecoveriesOk(s.recoveries, s.resolving, s.metaByUuid)
    ensures var t := TryResolveHost(s, uuid, now); RecoveriesOk(t.recoveries, t.resolving, t.metaByUuid)
  {
    hide RecoveriesOk;
    var s1 := EnsureMeta(s, uuid, now);
    if uuid !in s.resolving {
      RecoveriesKept(s.recoveries, s.resolving, s.metaByUuid, s1.metaByUuid);
      var meta := MetaAt(s, uuid, now);
      if !(IsSet(meta.lastResolveAttemptAt) && now - meta.lastResolveAttemptAt.value < RESOLVE_COOLDOWN_MS) {
        RecoveriesAppend(s.recoveries, s.resolving, s1.metaByUuid, uuid, now, meta.(lastResolveAttemptAt := Some(now)));
      }
    }
  }

  lemma EndRecoveryKeeps(s: Server, r: nat, found: Option<KnownHost>, now: int)
    requires RecoveriesOk(s.recoveries, s.resolving, s.metaByUuid) && r < |s.recoveries| && s.recoveries[r].running
    ensures var t := EndRecovery(s, r, found, now); RecoveriesOk(t.recoveries, t.resolving, t.metaByUuid)
  {
    var t := EndRecovery(s, r, found, now);
    forall q | 0 <= q < |t.recoveries|
      ensures Remembered(t.recoveries[q], t.metaByUuid)
    {
      assert Remembered(s.recoveries[q], s.metaByUuid);
      assert Remembered(s.recoveries[r], s.metaByUuid);
    }
  }

  lemma RecoveriesStep(js: Js, s: Server, step: Step)
    requires RecoveriesOk(s.recoveries, s.resolving, s.metaByUuid) && Enabled(s, step)
    ensures var t := Next(js, s, step); RecoveriesOk(t.recoveries, t.resolving, t.metaByUuid)
  {
    hide RecoveriesOk;
    match step {
      case PollCompletes(now, id, attempt, random) =>
        var candidate := Candidate(js, s, s.tasks[id], attempt, now);
        var s1 := Record(s, id, candidate, now, random);
        RecordKeeps(s, id, candidate, now, random);
        RecoveriesKept(s.recoveries, s.resolving, s.metaByUuid, s1.metaByUuid);
        TryResolveKeeps(s1, s.tasks[id].uuid, now);
      case RecoveryEnds(now, r, found) => EndRecoveryKeeps(s, r, found, now);
      case _ =>
        OtherMetaKept(js, s, step);
        hide ResolveKept;
        RecoveriesKept(s.recoveries, s.resolving, s.metaByUuid, Next(js, s, step).metaByUuid);
    }
  }

  lemma ScanMetaKept(s: Server, now: int)
    ensures MetaKept(s.metaByUuid, ScanTick(s, now).metaByUuid)
  {
    hide Due;
    hide DueTelemetry;
    hide LaunchPolls;
    hide LaunchTelemetry;
    LaunchPollsKeeps(s, Due(s, now), now);
    LaunchTelemetryKeeps(LaunchPolls(s, Due(s, now), now), DueTelemetry(s, now), now);
  }

  lemma OtherMetaKept(js: Js, s: Server, step: Step)
    requires Enabled(s, step) && !step.PollCompletes? && !step.RecoveryEnds?
    ensures var t := Next(js, s, step);
      MetaKept(s.metaByUuid, t.metaByUuid) && t.recoveries == s.recoveries && t.resolving == s.resolving
  {
    hide Greeting;
    hide StartPoll;
    hide RequestedUuids;
    hide AddHosts;
    hide BoostAll;
    hide LaunchPolls;
    hide LaunchTelemetry;
    hide Due;
    hide DueTelemetry;
    hide MetaKept;
    match step {
      case TickScans(now) => ScanMetaKept(s, now);
      case Boosts(now, uuid) => BoostKeeps(s, uuid, now);
      case HostsSync(now, hosts, _) =>
        AddHostsKeeps(s.(lastSyncHostsAt := now, knownHosts := JsMap([], map[])), hosts, now);
      case PollNowBegins(now, requested, reason) => BoostAllKeeps(s, RequestedUuids(s, requested), now);
      case TelemetryCompletes(now, id, reading) =>
        TelemetryMetaKeeps(s, id, reading, now);
        TelemetryFrame(s, id, reading, now);
      case WorkerTake(now, c, w) => WorkerTakeMetaKept(s, c, w, now);
      case _ => NothingLost(s.metaByUuid);
    }
  }

  lemma NothingLost(m: JsMap<PollMeta>)
    ensures MetaKept(m, m)
  {
  }

  lemma BoostKeeps(s: Server, uuid: string, now: int)
    ensures MetaKept(s.metaByUuid, BoostDevice(s, uuid, now).metaByUuid)
  {
  }

  lemma WorkerTakeMetaKept(s: Server, c: nat, w: nat, now: int)
    requires c < |s.calls| && w < |s.calls[c].workers|
    ensures MetaKept(s.metaByUuid, WorkerTakes(s, c, w, now).metaByUuid)
  {
  }

  // ------------------------------------------------------------------------ maps

  /** The maps are well formed: their key lists have no repeats and match their contents. */
  ghost predicate MapsOk(s: Server) {
    s.stateByUuid.Valid() && s.metaByUuid.Valid() && s.knownHosts.Valid() && s.powerByUuid.Valid()
  }

  lemma {:induction false} BoostAllMaps(s: Server, uuids: seq<string>, now: int)
    requires MapsOk(s)
    ensures MapsOk(BoostAll(s, uuids, now))
    decreases |uuids|
  {
    hide NoDup;
    if uuids != [] {
      BoostMaps(s, uuids[0], now);
      BoostAllMaps(BoostDevice(s, uuids[0], now), uuids[1..], now);
    }
  }

  lemma EnsureMetaMaps(s: Server, uuid: string, now: int)
    requires MapsOk(s)
    ensures MapsOk(EnsureMeta(s, uuid, now))
  {
    hide NoDup;
    s.metaByUuid.SetValid(uuid, CreateMeta(now));
  }

  lemma {:induction false} LaunchPollsMaps(s: Server, due: seq<string>, now: int)
    requires MapsOk(s)
    ensures MapsOk(LaunchPolls(s, due, now))
    decreases |due|
  {
    hide NoDup;
    if due != [] && |s.inFlight| < POLL_MAX_CONCURRENCY && due[0] != "" {
      EnsureMetaMaps(s, due[0], now);
      LaunchPollsMaps(StartPoll(s, due[0], Source.Poller, ByTick, now).0, due[1..], now);
    }
  }

  lemma {:induction false} LaunchTelemetryMaps(s: Server, due: seq<string>, now: int)
    requires MapsOk(s)
    ensures MapsOk(LaunchTelemetry(s, due, now))
    decreases |due|
  {
    hide NoDup;
    if due != [] && |s.telemetryInFlight| < TELEMETRY_MAX_CONCURRENCY && due[0] != "" {
      EnsureMetaMaps(s, due[0], now);
      LaunchTelemetryMaps(StartTelemetry(s, due[0], now), due[1..], now);
    }
  }

  lemma {:induction false} AddHostsMaps(s: Server, hosts: seq<(string, KnownHost)>, now: int)
    requires MapsOk(s)
    ensures MapsOk(AddHosts(s, hosts, now))
    decreases |hosts|
  {
    hide NoDup;
    if hosts != [] {
      if hosts[0].1.host == "" {
        AddHostsMaps(s, hosts[1..], now);
      } else {
        var s1 := s.(knownHosts := s.knownHosts.Set(hosts[0].0, hosts[0].1));
        s.knownHosts.SetValid(hosts[0].0, hosts[0].1);
        EnsureMetaMaps(s1, hosts[0].0, now);
        AddHostsMaps(EnsureMeta(s1, hosts[0].0, now), hosts[1..], now);
      }
    }
  }

  lemma CompletePollMaps(s: Server, id: nat, candidate: DeviceState, now: int, random: real)
    requires MapsOk(s) && id < |s.tasks|
    ensures MapsOk(CompletePoll(s, id, candidate, now, random))
  {
    hide NoDup;
    hide MetaAfter;
    hide StoredAfter;
    hide EventsAfter;
    hide ResultOf;
    var u := s.tasks[id].uuid;
    var prev := s.stateByUuid.Get(u);
    s.metaByUuid.SetValid(u, MetaAfter(MetaAt(s, u, s.tasks[id].startedAt), prev, candidate, s.tasks[id].startedAt, random));
    s.stateByUuid.SetValid(u, StoredAfter(prev, candidate));
    var s1 := Record(s, id, candidate, now, random);
    EnsureMetaMaps(s1, u, now);
    s1.metaByUuid.SetValid(u, MetaAt(s1, u, now).(lastResolveAttemptAt := Some(now)));
  }

  lemma CompleteTelemetryMaps(s: Server, id: nat, attempt: TelemetryAttempt, now: int)
    requires MapsOk(s) && id < |s.telemetryTasks|
    ensures MapsOk(CompleteTelemetry(s, id, attempt, now))
  {
    hide NoDup;
    hide TelemetryMeta;
    hide PowerEvents;
    var t := s.telemetryTasks[id];
    s.metaByUuid.SetValid(t.uuid, TelemetryMeta(MetaAt(s, t.uuid, t.startedAt), attempt, t.startedAt));
    var p := PowerCandidate(s, t.uuid, attempt, now);
    if p.Some? {
      s.powerByUuid.SetValid(t.uuid, p.value);
    }
  }

  lemma EndRecoveryMaps(s: Server, r: nat, found: Option<KnownHost>, now: int)
    requires MapsOk(s) && r < |s.recoveries|
    ensures MapsOk(EndRecovery(s, r, found, now))
  {
    hide NoDup;
    var u := s.recoveries[r].uuid;
    if found.Some? {
      s.knownHosts.SetValid(u, found.value);
      s.metaByUuid.SetValid(u, MetaAt(s, u, now).(boostUntilAt := Some(now + BOOST_WINDOW_MS), nextDueAt := now));
    }
  }

  lemma MapsStep(js: Js, s: Server, step: Step)
    requires MapsOk(s) && Enabled(s, step)
    ensures MapsOk(Next(js, s, step))
  {
    hide MapsOk;
    hide NoDup;
    hide Greeting;
    hide BoostDevice;
    hide BoostAll;
    hide RequestedUuids;
    hide AddHosts;
    hide LaunchPolls;
    hide LaunchTelemetry;
    hide Due;
    hide DueTelemetry;
    hide CompletePoll;
    hide CompleteTelemetry;
    hide EndRecovery;
    hide Candidate;
    match step {
      case TickScans(now) =>
        LaunchPollsMaps(s, Due(s, now), now);
        LaunchTelemetryMaps(LaunchPolls(s, Due(s, now), now), DueTelemetry(s, now), now);
        MapsFrame(LaunchTelemetry(LaunchPolls(s, Due(s, now), now), DueTelemetry(s, now), now), ScanTick(s, now));
      case HostsSync(now, hosts, _) =>
        ClearedMaps(s, now);
        AddHostsMaps(s.(lastSyncHostsAt := now, knownHosts := JsMap([], map[])), hosts, now);
        MapsFrame(SyncKnownHosts(s, hosts, now), Next(js, s, step));
      case Boosts(now, uuid) => BoostMaps(s, uuid, now);
      case PollNowBegins(now, requested, reason) =>
        BoostAllMaps(s, RequestedUuids(s, requested), now);
        MapsFrame(BoostAll(s, RequestedUuids(s, requested), now), Next(js, s, step));
      case WorkerTake(now, c, w) => TakeMaps(s, c, w, now);
      case PollCompletes(now, id, attempt, random) =>
        CompletePollMaps(s, id, Candidate(js, s, s.tasks[id], attempt, now), now, random);
      case TelemetryCompletes(now, id, reading) => CompleteTelemetryMaps(s, id, reading, now);
      case RecoveryEnds(now, r, found) => EndRecoveryMaps(s, r, found, now);
      case _ => MapsFrame(s, Next(js, s, step));
    }
  }

  lemma MapsFrame(s: Server, t: Server)
    requires MapsOk(s) && t.stateByUuid == s.stateByUuid && t.metaByUuid == s.metaByUuid
    requires t.knownHosts == s.knownHosts && t.powerByUuid == s.powerByUuid
    ensures MapsOk(t)
  {
    hide NoDup;
  }

  lemma ClearedMaps(s: Server, now: int)
    requires MapsOk(s)
    ensures MapsOk(s.(lastSyncHostsAt := now, knownHosts := JsMap([], map[])))
  {
    EmptyNoDup<string>();
    hide NoDup;
  }

  lemma BoostMaps(s: Server, uuid: string, now: int)
    requires MapsOk(s)
    ensures MapsOk(BoostDevice(s, uuid, now))
  {
    hide NoDup;
    s.metaByUuid.SetValid(uuid, MetaAt(s, uuid, now).(boostUntilAt := Some(now + BOOST_WINDOW_MS), nextDueAt := now));
  }

  lemma TakeMaps(s: Server, c: nat, w: nat, now: int)
    requires MapsOk(s) && c < |s.calls| && w < |s.calls[c].workers|
    ensures MapsOk(WorkerTakes(s, c, w, now))
  {
    hide NoDup;
    if s.calls[c].queue != [] {
      EnsureMetaMaps(s, s.calls[c].queue[0], now);
    }
  }

  // ----------------------------------------------------------------- main results

  ghost predicate SafetyInv(s: Server) {
    && PollsOk(s)
    && TelemetryOk(s.telemetryTasks, s.telemetryInFlight)
    && RecoveriesOk(s.recoveries, s.resolving, s.metaByUuid)
    && MapsOk(s)
  }

  lemma EmptyNoDup<T>()
    ensures NoDup<T>([])
  {
  }

  lemma SafeAtStart()
    ensures SafetyInv(Init())
  {
    hide PollsOk;
    hide TelemetryOk;
    hide RecoveriesOk;
    hide MapsOk;
    PollsAtStart();
    OthersAtStart();
    MapsAtStart();
  }

  lemma PollsAtStart()
    ensures PollsOk(Init())
  {
    assert OpenByTick([]) == {};
  }

  lemma OthersAtStart()
    ensures TelemetryOk(Init().telemetryTasks, Init().telemetryInFlight)
    ensures RecoveriesOk(Init().recoveries, Init().resolving, Init().metaByUuid)
  {
  }

  lemma MapsAtStart()
    ensures MapsOk(Init())
  {
    EmptyNoDup<string>();
  }

  lemma SafetyStep(js: Js, s: Server, step: Step)
    requires SafetyInv(s) && Enabled(s, step)
    ensures SafetyInv(Next(js, s, step))
  {
    hide PollsOk;
    hide TelemetryOk;
    hide RecoveriesOk;
    hide MapsOk;
    hide Next;
    PollsStep(js, s, step);
    TelemetryStep(js, s, step);
    RecoveriesStep(js, s, step);
    MapsStep(js, s, step);
  }

  lemma {:induction false} SafetyKept(js: Js, steps: seq<Step>)
    requires Run(js, Init(), steps)
    ensures SafetyInv(After(js, Init(), steps))
    decreases |steps|
  {
    hide Init;
    hide Next;
    hide Enabled;
    hide SafetyInv;
    if steps == [] {
      SafeAtStart();
    } else {
      SafetyKept(js, steps[..|steps| - 1]);
      SafetyStep(js, After(js, Init(), steps[..|steps| - 1]), steps[|steps| - 1]);
    }
  }

  /** In every reachable state, each device has at most one state poll, one telemetry poll and one recovery in
      progress; ticks never have more than 6 state polls or 4 telemetry polls running; all state polls together never
      exceed 6 plus the workers of active `pollNow` calls; and recoveries of a device start five minutes apart. */
  lemma {:induction false} SingleFlightAndCaps(js: Js, steps: seq<Step>)
    requires Run(js, Init(), steps)
    ensures var s := After(js, Init(), steps);
      && (forall i, j :: 0 <= i < j < |s.tasks| && !s.tasks[i].released && !s.tasks[j].released ==>
            s.tasks[i].uuid != s.tasks[j].uuid)
      && (forall i, j :: 0 <= i < j < |s.telemetryTasks| && !s.telemetryTasks[i].released && !s.telemetryTasks[j].released ==>
            s.telemetryTasks[i].uuid != s.telemetryTasks[j].uuid)
      && (forall i, j :: 0 <= i < j < |s.recoveries| && s.recoveries[i].running && s.recoveries[j].running ==>
            s.recoveries[i].uuid != s.recoveries[j].uuid)
      && |OpenByTick(s.tasks)| <= 6
      && |OpenTelemetry(s.telemetryTasks)| <= 4
      && |OpenTasks(s.tasks)| <= 6 + |ActiveWorkers(s.calls)|
      && (forall i, j :: 0 <= i < j < |s.recoveries| && s.recoveries[i].uuid == s.recoveries[j].uuid ==>
            s.recoveries[j].startedAt - s.recoveries[i].startedAt >= 300_000)
  {
    hide Init;
    hide Run;
    hide After;
    hide OpenByTick;
    SafetyKept(js, steps);
    CapsFromInv(After(js, Init(), steps));
  }

  lemma CapsFromInv(s: Server)
    requires SafetyInv(s)
    ensures forall i, j :: 0 <= i < j < |s.tasks| && !s.tasks[i].released && !s.tasks[j].released ==>
      s.tasks[i].uuid != s.tasks[j].uuid
    ensures forall i, j :: 0 <= i < j < |s.telemetryTasks| && !s.telemetryTasks[i].released && !s.telemetryTasks[j].released ==>
      s.telemetryTasks[i].uuid != s.telemetryTasks[j].uuid
    ensures |OpenTelemetry(s.telemetryTasks)| <= TELEMETRY_MAX_CONCURRENCY
    ensures |OpenTasks(s.tasks)| <= POLL_MAX_CONCURRENCY + |ActiveWorkers(s.calls)|
  {
    OpenTelemetryBound(s.telemetryTasks, s.telemetryInFlight);
    OpenByWorkersBound(s.tasks, s.calls);
    OpenTasksSplit(s.tasks);
    FlightsDiffer(s.tasks, s.inFlight);
    TelemetryDiffer(s.telemetryTasks, s.telemetryInFlight);
    hide FlightsOk;
    hide TelemetryOk;
    hide OwnersOk;
    hide RecoveriesOk;
    hide MapsOk;
    hide OpenTasks;
    hide OpenByTick;
    hide OpenByWorkers;
    hide OpenTelemetry;
    hide ActiveWorkers;
  }

  lemma FlightsDiffer(tasks: seq<Task>, inFlight: map<string, nat>)
    requires FlightsOk(tasks, inFlight)
    ensures forall i, j :: 0 <= i < j < |tasks| && !tasks[i].released && !tasks[j].released ==> tasks[i].uuid != tasks[j].uuid
  {
  }

  lemma TelemetryDiffer(tasks: seq<TelemetryTask>, inFlight: map<string, nat>)
    requires TelemetryOk(tasks, inFlight)
    ensures forall i, j :: 0 <= i < j < |tasks| && !tasks[i].released && !tasks[j].released ==> tasks[i].uuid != tasks[j].uuid
  {
  }

  lemma OpenTasksSplit(tasks: seq<Task>)
    ensures |OpenTasks(tasks)| <= |OpenByTick(tasks)| + |OpenByWorkers(tasks)|
  {
    assert OpenTasks(tasks) == OpenByTick(tasks) + OpenByWorkers(tasks);
    assert OpenByTick(tasks) !! OpenByWorkers(tasks);
  }
}
