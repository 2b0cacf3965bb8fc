/** What the cached power readings show, told from the measurements alone. */
module Readings {
  import opened Prelude
  import opened Devices
  import opened Json
  import opened Timing
  import opened Poller
  import CacheNormal
  import HostRecovery
  import PollerSafety

  /** A version: the clock's, or one more than the version before where the clock lags. */
  function Versioned(prev: Option<PowerReading>, now: int): int {
    if prev.Some? && prev.value.updatedAt >= now then prev.value.updatedAt + 1 else now
  }

  /** A measurement replaces the reading; a failure marks it stale, with the failure's text, and keeps what was
      measured last; a device without a meter keeps what it had. */
  ghost predicate Follows(s: Server, uuid: string, attempt: TelemetryAttempt, now: int, next: Option<PowerReading>) {
    var prev := s.powerByUuid.Get(uuid);
    match attempt
    case NoMeter => next == prev
    case Measured(host, channel, measures) =>
      next == Some(PowerReading(uuid, host, channel, measures, Versioned(prev, now), false, None))
    case TelemetryThrew(message) =>
      && next.Some? && next.value.uuid == uuid && next.value.stale && next.value.error == Some(message)
      && next.value.updatedAt == Versioned(prev, now)
      && match prev
         case Some(p) => next.value.host == p.host && next.value.channel == p.channel && next.value.measures == p.measures
         case None =>
           && next.value.host == (if uuid in s.knownHosts.at then s.knownHosts.at[uuid].host else "")
           && next.value.channel == 0 && next.value.measures == Measures(None, None, None, None, None, None)
  }

  /** The reading is news: the first one, or another staleness, or other values, or another error. */
  ghost predicate News(prev: Option<PowerReading>, next: PowerReading) {
    prev.Some? ==>
      || prev.value.stale != next.stale
      || prev.value.measures.powerW != next.measures.powerW
      || (!next.stale && (prev.value.measures.voltageV != next.measures.voltageV || prev.value.measures.currentA != next.measures.currentA))
      || (next.stale && prev.value.error != next.error)
  }

  /** What every subscriber is told: the reading if it is news, and an alarm if the meter was not stale before. */
  ghost predicate Told(before: map<nat, seq<Event>>, after: map<nat, seq<Event>>, prev: Option<PowerReading>, next: Option<PowerReading>, attempt: TelemetryAttempt) {
    && after.Keys == before.Keys
    && forall id :: id in before ==>
         after[id] == before[id]
                      + (if next.Some? && !attempt.NoMeter? && News(prev, next.value) then [PowerChanged(next.value)] else [])
                      + (if next.Some? && attempt.TelemetryThrew? && (prev.None? || !prev.value.stale) then [MeterWentStale(next.value)] else [])
  }

  /** A telemetry poll that completes. */
  lemma TelemetryShows(js: Js, s: Server, step: Step)
    requires Enabled(s, step) && step.TelemetryCompletes?
    ensures var t := Next(js, s, step); var uuid := s.telemetryTasks[step.task].uuid;
      && HostRecovery.SameBut(t.powerByUuid, s.powerByUuid, uuid)
      && Follows(s, uuid, step.reading, step.now, t.powerByUuid.Get(uuid))
      && Told(s.subscribers, t.subscribers, s.powerByUuid.Get(uuid), t.powerByUuid.Get(uuid), step.reading)
  {
    hide CompleteTelemetry;
    hide PowerEvents;
    hide News;
    var uuid := s.telemetryTasks[step.task].uuid;
    CacheNormal.TelemetryEffect(s, step.task, step.reading, step.now);
    var p := PowerCandidate(s, uuid, step.reading, step.now);
    if p.Some? {
      NewsTold(s.powerByUuid.Get(uuid), p.value);
    }
  }

  lemma NewsTold(prev: Option<PowerReading>, next: PowerReading)
    ensures PowerEvents(prev, next)
         == (if News(prev, next) then [PowerChanged(next)] else [])
            + (if next.stale && (prev.None? || !prev.value.stale) then [MeterWentStale(next)] else [])
  {
  }

  /** What a telemetry poll notes: after a measurement, the meter is due ten seconds after the poll began; after the n-th
      failure in a row, as long after as a state poll; without a meter, a minute after. */
  ghost predicate Noted(before: PollMeta, m: PollMeta, attempt: TelemetryAttempt, startedAt: int) {
    var wait := m.telemetryNextDueAt - startedAt;
    && m == before.(telemetryNextDueAt := m.telemetryNextDueAt, telemetryFailureCount := m.telemetryFailureCount,
                    telemetryLastSuccessAt := m.telemetryLastSuccessAt)
    && match attempt
       case NoMeter =>
         wait == 60_000 && m.telemetryFailureCount == before.telemetryFailureCount
         && m.telemetryLastSuccessAt == before.telemetryLastSuccessAt
       case Measured(_, _, _) =>
         wait == 10_000 && m.telemetryFailureCount == 0 && m.telemetryLastSuccessAt == Some(startedAt)
       case TelemetryThrew(_) =>
         m.telemetryFailureCount == before.telemetryFailureCount + 1
         && m.telemetryLastSuccessAt == before.telemetryLastSuccessAt
         && wait == (if m.telemetryFailureCount == 1 then 30_000 else if m.telemetryFailureCount == 2 then 60_000
                     else if m.telemetryFailureCount == 3 then 120_000 else 300_000)
  }

  lemma MetaNoted(before: PollMeta, attempt: TelemetryAttempt, startedAt: int)
    ensures Noted(before, TelemetryMeta(before, attempt, startedAt), attempt, startedAt)
  {
  }

  lemma TelemetryNotes(js: Js, s: Server, step: Step)
    requires Enabled(s, step) && step.TelemetryCompletes?
    ensures var t := Next(js, s, step); var task := s.telemetryTasks[step.task];
      && HostRecovery.SameBut(t.metaByUuid, s.metaByUuid, task.uuid) && task.uuid in t.metaByUuid.at
      && Noted(MetaAt(s, task.uuid, task.startedAt), t.metaByUuid.at[task.uuid], step.reading, task.startedAt)
  {
    hide PowerCandidate;
    hide PowerEvents;
    hide Broadcast;
    hide TelemetryMeta;
    hide MetaAt;
    hide Noted;
    var task := s.telemetryTasks[step.task];
    MetaNoted(MetaAt(s, task.uuid, task.startedAt), step.reading, task.startedAt);
  }

  // --------------------------------------------------------------------- all runs

  /** The telemetry polls of a device that completed and found a meter, or failed. */
  ghost function Attempts(js: Js, steps: seq<Step>, uuid: string): seq<TelemetryAttempt>
    requires Run(js, Init(), steps)
    decreases |steps|
  {
    if steps == [] then []
    else
      var n := |steps| - 1;
      Attempts(js, steps[..n], uuid) + AttemptIn(After(js, Init(), steps[..n]), steps[n], uuid)
  }

  function AttemptIn(s: Server, step: Step, uuid: string): seq<TelemetryAttempt>
    requires Enabled(s, step)
  {
    if step.TelemetryCompletes? && s.telemetryTasks[step.task].uuid == uuid && !step.reading.NoMeter? then [step.reading] else []
  }

  function LastMeasured(attempts: seq<TelemetryAttempt>): Option<TelemetryAttempt> {
    if attempts == [] then None
    else if attempts[|attempts| - 1].Measured? then Some(attempts[|attempts| - 1])
    else LastMeasured(attempts[..|attempts| - 1])
  }

  /** The reading shows the last measurement, and is stale exactly if a failure came last, whose text it has. */
  ghost predicate Shows(cached: Option<PowerReading>, uuid: string, attempts: seq<TelemetryAttempt>) {
    match cached
    case None => attempts == []
    case Some(p) =>
      && attempts != [] && p.uuid == uuid
      && (match attempts[|attempts| - 1]
          case TelemetryThrew(message) => p.stale && p.error == Some(message)
          case Measured(_, _, _) => !p.stale && p.error == None
          case NoMeter => false)
      && (match LastMeasured(attempts)
          case None => p.channel == 0 && p.measures == Measures(None, None, None, None, None, None)
          case Some(m) => m.Measured? && p.host == m.host && p.channel == m.channel && p.measures == m.measures)
  }

  lemma OneMoreAttempt(s: Server, uuid: string, attempts: seq<TelemetryAttempt>, attempt: TelemetryAttempt, now: int, next: Option<PowerReading>)
    requires Shows(s.powerByUuid.Get(uuid), uuid, attempts) && Follows(s, uuid, attempt, now, next) && !attempt.NoMeter?
    ensures Shows(next, uuid, attempts + [attempt])
  {
    assert (attempts + [attempt])[..|attempts|] == attempts;
  }

  lemma ReadingStep(js: Js, s: Server, step: Step, uuid: string, attempts: seq<TelemetryAttempt>)
    requires Enabled(s, step) && Shows(s.powerByUuid.Get(uuid), uuid, attempts)
    ensures Shows(Next(js, s, step).powerByUuid.Get(uuid), uuid, attempts + AttemptIn(s, step, uuid))
  {
    hide Next;
    hide Shows;
    hide Told;
    assert attempts + [] == attempts;
    if step.TelemetryCompletes? {
      TelemetryShows(js, s, step);
      if AttemptIn(s, step, uuid) != [] {
        OneMoreAttempt(s, uuid, attempts, step.reading, step.now, Next(js, s, step).powerByUuid.Get(uuid));
      }
    } else {
      CacheNormal.SamePower(js, s, step);
    }
  }

  lemma NothingRead(uuid: string)
    ensures Shows(Init().powerByUuid.Get(uuid), uuid, [])
  {
  }

  /** In every reachable state, a device has a reading once a telemetry poll of it measured or failed; it shows the last
      measurement, and is stale with the latest failure's text exactly if a failure came last. */
  lemma {:induction false} ReadingIsLastMeasured(js: Js, steps: seq<Step>, uuid: string)
    requires Run(js, Init(), steps)
    ensures Shows(After(js, Init(), steps).powerByUuid.Get(uuid), uuid, Attempts(js, steps, uuid))
    decreases |steps|
  {
    hide Next;
    hide Enabled;
    hide Shows;
    hide AttemptIn;
    hide Init;
    if steps == [] {
      NothingRead(uuid);
    } else {
      var n := |steps| - 1;
      ReadingIsLastMeasured(js, steps[..n], uuid);
      ReadingStep(js, After(js, Init(), steps[..n]), steps[n], uuid, Attempts(js, steps[..n], uuid));
    }
  }
}
