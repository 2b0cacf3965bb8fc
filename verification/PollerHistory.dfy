/** What the stream tells about one device: its poll outcomes with adjacent material duplicates removed, one alarm
    per run of failures, and versions that grow whatever the clock does. */
module PollerHistory {
  import opened Prelude
  import opened Devices
  import opened Json
  import opened Timing
  import opened Poller
  import PollerSafety

  // ------------------------------------------------------------ a list of outcomes

  /** What the cache holds after these outcomes of polls of one device. */
  function Cached(outs: seq<DeviceState>): Option<DeviceState> {
    if outs == [] then None
    else Some(StoredAfter(Cached(outs[..|outs| - 1]), outs[|outs| - 1]))
  }

  /** What is broadcast about the device on the way. */
  function Emitted(outs: seq<DeviceState>): seq<Event> {
    if outs == [] then []
    else Emitted(outs[..|outs| - 1]) + EventsAfter(Cached(outs[..|outs| - 1]), outs[|outs| - 1])
  }

  function TrailingFailures(outs: seq<DeviceState>): nat {
    if outs == [] || !outs[|outs| - 1].stale then 0 else TrailingFailures(outs[..|outs| - 1]) + 1
  }

  /** How many maximal runs of failures there are. */
  function FailureRuns(outs: seq<DeviceState>): nat {
    if outs == [] then 0
    else
      var n := |outs| - 1;
      FailureRuns(outs[..n]) + (if outs[n].stale && (n == 0 || !outs[n - 1].stale) then 1 else 0)
  }

  function Materials(states: seq<DeviceState>): seq<Material> {
    if states == [] then [] else Materials(states[..|states| - 1]) + [MaterialOf(states[|states| - 1])]
  }

  /** Drops each element that equals the one before it. */
  function Destutter<T(==)>(s: seq<T>): seq<T> {
    if |s| <= 1 then s
    else
      var n := |s| - 1;
      if s[n] == s[n - 1] then Destutter(s[..n]) else Destutter(s[..n]) + [s[n]]
  }

  /** The states of the `device_state` events, in order. */
  function StatesIn(events: seq<Event>): seq<DeviceState> {
    if events == [] then []
    else
      var n := |events| - 1;
      StatesIn(events[..n]) + (if events[n].StateChanged? then [events[n].state] else [])
  }

  function CountStale(events: seq<Event>): nat {
    if events == [] then 0
    else CountStale(events[..|events| - 1]) + (if events[|events| - 1].WentStale? then 1 else 0)
  }

  /** How many of the states are stale. */
  function StaleStates(states: seq<DeviceState>): nat {
    if states == [] then 0
    else StaleStates(states[..|states| - 1]) + (if states[|states| - 1].stale then 1 else 0)
  }

  ghost predicate VersionsGrow(states: seq<DeviceState>) {
    forall i, j :: 0 <= i < j < |states| ==> states[i].updatedAt < states[j].updatedAt
  }

  /** Every `device_stale` repeats the `device_state` just before it. */
  ghost predicate AlarmsRepeat(events: seq<Event>) {
    forall i :: 0 <= i < |events| && events[i].WentStale? ==> i > 0 && events[i - 1] == StateChanged(events[i].state)
  }

  /** How an outcome relates to the state cached before: it is newer, and a failure copies everything material but
      the stale mark. */
  predicate Follows(prev: Option<DeviceState>, next: DeviceState) {
    prev.Some? ==>
      && next.updatedAt > prev.value.updatedAt
      && (next.stale ==> MaterialOf(next) == MaterialOf(prev.value).(stale := true))
  }

  ghost predicate Genuine(outs: seq<DeviceState>) {
    outs != [] ==> Genuine(outs[..|outs| - 1]) && Follows(Cached(outs[..|outs| - 1]), outs[|outs| - 1])
  }

  lemma {:induction false} StatesInAppend(a: seq<Event>, b: seq<Event>)
    ensures StatesIn(a + b) == StatesIn(a) + StatesIn(b) && CountStale(a + b) == CountStale(a) + CountStale(b)
    decreases |b|
  {
    if b == [] {
      assert a + b == a;
    } else {
      var n := |b| - 1;
      StatesInAppend(a, b[..n]);
      assert (a + b)[..|a + b| - 1] == a + b[..n] && (a + b)[|a + b| - 1] == b[n];
    }
  }

  lemma {:induction false} MaterialsAt(states: seq<DeviceState>)
    ensures |Materials(states)| == |states|
    ensures forall i :: 0 <= i < |states| ==> Materials(states)[i] == MaterialOf(states[i])
  {
    if states != [] {
      MaterialsAt(states[..|states| - 1]);
    }
  }

  /** The cache always agrees with the latest outcome on everything material. */
  lemma {:induction false} CachedIsLatest(outs: seq<DeviceState>)
    requires outs != []
    ensures MaterialOf(Cached(outs).value) == MaterialOf(outs[|outs| - 1])
    ensures Cached(outs).value.stale <==> TrailingFailures(outs) > 0
  {
    hide HasMaterialStateChange;
    MaterialChangeMeaning(Cached(outs[..|outs| - 1]), outs[|outs| - 1]);
  }

  lemma OneEvent(e: Event)
    ensures StatesIn([e]) == (if e.StateChanged? then [e.state] else []) && CountStale([e]) == if e.WentStale? then 1 else 0
  {
    assert [e][..0] == [];
  }

  lemma EventsShape(prev: Option<DeviceState>, c: DeviceState)
    ensures StatesIn(EventsAfter(prev, c)) == if HasMaterialStateChange(prev, c) then [c] else []
    ensures CountStale(EventsAfter(prev, c)) == if c.stale && (prev.None? || !prev.value.stale) then 1 else 0
    ensures AlarmsRepeat(EventsAfter(prev, c))
  {
    MaterialChangeMeaning(prev, c);
    hide HasMaterialStateChange;
    OneEvent(StateChanged(c));
    OneEvent(WentStale(c));
    StatesInAppend([StateChanged(c)], [WentStale(c)]);
    assert [StateChanged(c)] + [WentStale(c)] == [StateChanged(c), WentStale(c)];
  }

  lemma EventsForms(prev: Option<DeviceState>, c: DeviceState)
    ensures var events := EventsAfter(prev, c);
      if HasMaterialStateChange(prev, c) then events == [StateChanged(c)] || events == [StateChanged(c), WentStale(c)]
      else events == []
  {
    MaterialChangeMeaning(prev, c);
    hide HasMaterialStateChange;
  }

  lemma ReadingEventsForms(prev: Option<PowerReading>, p: PowerReading)
    ensures var events := PowerEvents(prev, p);
      if PowerMoved(prev, p) then events == [PowerChanged(p)] || events == [PowerChanged(p), MeterWentStale(p)]
      else events == []
  {
  }

  lemma DestutterAppend<T>(s: seq<T>, x: T)
    ensures Destutter(s + [x]) == if s != [] && s[|s| - 1] == x then Destutter(s) else Destutter(s) + [x]
  {
    assert (s + [x])[..|s|] == s;
  }

  lemma MaterialsAppend(states: seq<DeviceState>, x: DeviceState)
    ensures Materials(states + [x]) == Materials(states) + [MaterialOf(x)]
    ensures |Materials(states)| == |states|
    ensures states != [] ==> Materials(states)[|states| - 1] == MaterialOf(states[|states| - 1])
  {
    assert (states + [x])[..|states|] == states;
    MaterialsAt(states);
  }

  lemma CachedAppend(outs: seq<DeviceState>, c: DeviceState)
    ensures Cached(outs + [c]) == Some(StoredAfter(Cached(outs), c))
    ensures Emitted(outs + [c]) == Emitted(outs) + EventsAfter(Cached(outs), c)
  {
    assert (outs + [c])[..|outs|] == outs;
  }

  /** What one more outcome adds. */
  lemma OneMore(outs: seq<DeviceState>, c: DeviceState)
    ensures var changed := outs == [] || MaterialOf(c) != MaterialOf(outs[|outs| - 1]);
      && changed == HasMaterialStateChange(Cached(outs), c)
      && StatesIn(Emitted(outs + [c])) == if changed then StatesIn(Emitted(outs)) + [c] else StatesIn(Emitted(outs))
  {
    CachedAppend(outs, c);
    hide Emitted;
    hide StatesIn;
    hide EventsAfter;
    StatesInAppend(Emitted(outs), EventsAfter(Cached(outs), c));
    EventsShape(Cached(outs), c);
    MaterialChangeMeaning(Cached(outs), c);
    if outs != [] {
      CachedIsLatest(outs);
    }
    hide HasMaterialStateChange;
    hide MaterialOf;
  }

  lemma DestutteredStep(outs: seq<DeviceState>, c: DeviceState)
    requires Materials(StatesIn(Emitted(outs))) == Destutter(Materials(outs))
    ensures Materials(StatesIn(Emitted(outs + [c]))) == Destutter(Materials(outs + [c]))
  {
    OneMore(outs, c);
    MaterialsAppend(outs, c);
    MaterialsAppend(StatesIn(Emitted(outs)), c);
    DestutterAppend(Materials(outs), MaterialOf(c));
    hide Emitted;
    hide StatesIn;
    hide Materials;
    hide Destutter;
    hide HasMaterialStateChange;
    hide MaterialOf;
  }

  /** The broadcast states are the outcomes without adjacent material duplicates. */
  lemma {:induction false} EmittedIsDestuttered(outs: seq<DeviceState>)
    ensures Materials(StatesIn(Emitted(outs))) == Destutter(Materials(outs))
  {
    hide *;
    if outs == [] {
      DestutteredNone();
    } else {
      var n := |outs| - 1;
      EmittedIsDestuttered(outs[..n]);
      DestutteredStep(outs[..n], outs[n]);
      assert outs == outs[..n] + [outs[n]];
    }
  }

  lemma DestutteredNone()
    ensures Materials(StatesIn(Emitted([]))) == Destutter(Materials([]))
  {
  }

  lemma FailureRunsAppend(outs: seq<DeviceState>, c: DeviceState)
    ensures FailureRuns(outs + [c])
         == FailureRuns(outs) + (if c.stale && (outs == [] || !outs[|outs| - 1].stale) then 1 else 0)
  {
    assert (outs + [c])[..|outs|] == outs;
  }

  lemma NothingEmitted()
    ensures Emitted([]) == [] && StatesIn([]) == [] && StaleStates([]) == 0 && CountStale([]) == 0 && FailureRuns([]) == 0
  {
  }

  lemma CachedStale(outs: seq<DeviceState>)
    ensures if outs == [] then Cached(outs).None? else Cached(outs).Some? && Cached(outs).value.stale == outs[|outs| - 1].stale
  {
    if outs != [] {
      CachedIsLatest(outs);
    }
  }

  lemma AlarmStep(outs: seq<DeviceState>, c: DeviceState)
    requires CountStale(Emitted(outs)) == FailureRuns(outs)
    ensures CountStale(Emitted(outs + [c])) == FailureRuns(outs + [c])
  {
    hide *;
    CachedAppend(outs, c);
    FailureRunsAppend(outs, c);
    StatesInAppend(Emitted(outs), EventsAfter(Cached(outs), c));
    EventsShape(Cached(outs), c);
    CachedStale(outs);
  }

  /** Each run of failures raises one alarm. */
  lemma {:induction false} OneAlarmPerRun(outs: seq<DeviceState>)
    ensures CountStale(Emitted(outs)) == FailureRuns(outs)
  {
    hide *;
    if outs == [] {
      NothingEmitted();
    } else {
      var n := |outs| - 1;
      OneAlarmPerRun(outs[..n]);
      AlarmStep(outs[..n], outs[n]);
      assert outs == outs[..n] + [outs[n]];
    }
  }

  lemma StaleStatesAppend(states: seq<DeviceState>, c: DeviceState)
    ensures StaleStates(states + [c]) == StaleStates(states) + (if c.stale then 1 else 0)
  {
    assert (states + [c])[..|states|] == states;
  }

  lemma GenuineParts(outs: seq<DeviceState>)
    requires Genuine(outs) && outs != []
    ensures Genuine(outs[..|outs| - 1]) && Follows(Cached(outs[..|outs| - 1]), outs[|outs| - 1])
  {
  }

  lemma StaleStateStep(outs: seq<DeviceState>, c: DeviceState)
    requires Follows(Cached(outs), c) && StaleStates(StatesIn(Emitted(outs))) == FailureRuns(outs)
    ensures StaleStates(StatesIn(Emitted(outs + [c]))) == FailureRuns(outs + [c])
  {
    hide Emitted;
    hide StatesIn;
    hide StaleStates;
    hide FailureRuns;
    hide HasMaterialStateChange;
    OneMore(outs, c);
    StaleStatesAppend(StatesIn(Emitted(outs)), c);
    FailureRunsAppend(outs, c);
    if outs != [] {
      CachedIsLatest(outs);
    }
    hide Cached;
  }

  /** Each run of failures broadcasts exactly one stale state. */
  lemma {:induction false} OneStaleStatePerRun(outs: seq<DeviceState>)
    requires Genuine(outs)
    ensures StaleStates(StatesIn(Emitted(outs))) == FailureRuns(outs)
  {
    hide *;
    if outs == [] {
      NothingEmitted();
    } else {
      var n := |outs| - 1;
      GenuineParts(outs);
      OneStaleStatePerRun(outs[..n]);
      StaleStateStep(outs[..n], outs[n]);
      assert outs == outs[..n] + [outs[n]];
    }
  }

  /** The first failure of a run broadcasts the stale state and the alarm; the others broadcast nothing. */
  lemma FailureEvents(outs: seq<DeviceState>, c: DeviceState)
    requires Genuine(outs + [c]) && c.stale
    ensures Emitted(outs + [c]) == Emitted(outs) + if TrailingFailures(outs) == 0 then [StateChanged(c), WentStale(c)] else []
  {
    assert (outs + [c])[..|outs + [c]| - 1] == outs;
    MaterialChangeMeaning(Cached(outs), c);
    hide HasMaterialStateChange;
    if outs != [] {
      CachedIsLatest(outs);
    }
    hide StoredAfter;
  }

  /** Versions grow from one broadcast state to the next, and the cache carries the version last broadcast. */
  lemma {:induction false} EmittedVersions(outs: seq<DeviceState>)
    requires Genuine(outs)
    ensures Newest(StatesIn(Emitted(outs)), Cached(outs))
  {
    if outs != [] {
      var n := |outs| - 1;
      EmittedVersions(outs[..n]);
      OneMore(outs[..n], outs[n]);
      assert outs == outs[..n] + [outs[n]];
      NewestStep(StatesIn(Emitted(outs[..n])), Cached(outs[..n]), outs[n]);
      hide Emitted;
      hide StatesIn;
      hide HasMaterialStateChange;
      hide MaterialOf;
      hide Newest;
    }
  }

  ghost predicate Newest(states: seq<DeviceState>, cached: Option<DeviceState>) {
    && VersionsGrow(states)
    && (cached.None? <==> states == [])
    && (cached.Some? ==> cached.value.updatedAt == states[|states| - 1].updatedAt)
  }

  lemma NewestStep(states: seq<DeviceState>, cached: Option<DeviceState>, c: DeviceState)
    requires Newest(states, cached) && Follows(cached, c)
    ensures Newest(if HasMaterialStateChange(cached, c) then states + [c] else states, Some(StoredAfter(cached, c)))
  {
    hide MaterialOf;
    MaterialChangeMeaning(cached, c);
    hide HasMaterialStateChange;
  }

  lemma AlarmsAppend(a: seq<Event>, b: seq<Event>)
    requires AlarmsRepeat(a) && AlarmsRepeat(b)
    ensures AlarmsRepeat(a + b)
  {
  }

  lemma {:induction false} EmittedAlarms(outs: seq<DeviceState>)
    ensures AlarmsRepeat(Emitted(outs))
  {
    if outs != [] {
      var n := |outs| - 1;
      EmittedAlarms(outs[..n]);
      EventsShape(Cached(outs[..n]), outs[n]);
      AlarmsAppend(Emitted(outs[..n]), EventsAfter(Cached(outs[..n]), outs[n]));
      hide AlarmsRepeat;
      hide EventsAfter;
      hide Cached;
    }
  }

  // --------------------------------------------------------------------- all runs

  /** The outcome for `uuid` that a step completes, and the events that a step broadcasts. */
  function OutcomeOf(js: Js, s: Server, step: Step, uuid: string): seq<DeviceState>
    requires Enabled(s, step)
  {
    if step.PollCompletes? && s.tasks[step.task].uuid == uuid then
      [Candidate(js, s, s.tasks[step.task], step.attempt, step.now)]
    else []
  }

  function EventsOf(js: Js, s: Server, step: Step): seq<Event>
    requires Enabled(s, step)
  {
    match step
    case PollCompletes(now, id, attempt, _) =>
      EventsAfter(s.stateByUuid.Get(s.tasks[id].uuid), Candidate(js, s, s.tasks[id], attempt, now))
    case TelemetryCompletes(now, id, reading) =>
      var p := PowerCandidate(s, s.telemetryTasks[id].uuid, reading, now);
      if p.None? then [] else PowerEvents(s.powerByUuid.Get(s.telemetryTasks[id].uuid), p.value)
    case _ => []
  }

  predicate IsAbout(e: Event, uuid: string) { (e.StateChanged? || e.WentStale?) && e.state.uuid == uuid }

  function About(events: seq<Event>, uuid: string): seq<Event> {
    if events == [] then []
    else
      var n := |events| - 1;
      About(events[..n], uuid) + (if IsAbout(events[n], uuid) then [events[n]] else [])
  }

  lemma {:induction false} AboutAppend(a: seq<Event>, b: seq<Event>, uuid: string)
    ensures About(a + b, uuid) == About(a, uuid) + About(b, uuid)
    decreases |b|
  {
    if b == [] {
      assert a + b == a;
    } else {
      var n := |b| - 1;
      AboutAppend(a, b[..n], uuid);
      assert (a + b)[..|a + b| - 1] == a + b[..n] && (a + b)[|a + b| - 1] == b[n];
    }
  }

  lemma {:induction false} AboutAll(events: seq<Event>, uuid: string)
    ensures (forall e :: e in events ==> IsAbout(e, uuid)) ==> About(events, uuid) == events
    ensures (forall e :: e in events ==> !IsAbout(e, uuid)) ==> About(events, uuid) == []
  {
    if events != [] {
      var n := |events| - 1;
      assert events == events[..n] + [events[n]];
      assert forall e :: e in events[..n] ==> e in events;
      AboutAll(events[..n], uuid);
    }
  }

  ghost function Outcomes(js: Js, steps: seq<Step>, uuid: string): seq<DeviceState>
    requires Run(js, Init(), steps)
    decreases |steps|
  {
    if steps == [] then []
    else
      var n := |steps| - 1;
      Outcomes(js, steps[..n], uuid) + OutcomeOf(js, After(js, Init(), steps[..n]), steps[n], uuid)
  }

  /** Everything broadcast during a run. */
  ghost function Broadcasts(js: Js, steps: seq<Step>): seq<Event>
    requires Run(js, Init(), steps)
    decreases |steps|
  {
    if steps == [] then []
    else
      var n := |steps| - 1;
      Broadcasts(js, steps[..n]) + EventsOf(js, After(js, Init(), steps[..n]), steps[n])
  }

  lemma SameStates(js: Js, s: Server, step: Step)
    requires Enabled(s, step) && !step.PollCompletes?
    ensures Next(js, s, step).stateByUuid == s.stateByUuid
  {
    hide Greeting;
    if step.TelemetryCompletes? {
      PollerSafety.TelemetryFrame(s, step.task, step.reading, step.now);
      hide CompleteTelemetry;
    }
  }

  lemma SameFailures(js: Js, s: Server, step: Step, uuid: string)
    requires Enabled(s, step) && !step.PollCompletes?
    ensures PollerSafety.Failures(Next(js, s, step).metaByUuid, uuid) == PollerSafety.Failures(s.metaByUuid, uuid)
  {
    if step.RecoveryEnds? {
      hide Candidate;
    } else {
      PollerSafety.OtherMetaKept(js, s, step);
      hide Next;
      hide Enabled;
      hide PollerSafety.Failures;
    }
  }

  lemma CompletedFailures(s: Server, id: nat, c: DeviceState, now: int, random: real, uuid: string)
    requires id < |s.tasks|
    ensures PollerSafety.Failures(CompletePoll(s, id, c, now, random).metaByUuid, uuid)
         == if s.tasks[id].uuid != uuid then PollerSafety.Failures(s.metaByUuid, uuid)
            else if c.stale then PollerSafety.Failures(s.metaByUuid, uuid) + 1 else 0
  {
    hide NextIntervalMs;
    hide HasMaterialStateChange;
    hide ResultOf;
    hide EventsAfter;
    hide StoredAfter;
  }

  lemma CandidateFollows(js: Js, s: Server, t: Task, attempt: Attempt, now: int)
    ensures var c := Candidate(js, s, t, attempt, now); c.uuid == t.uuid && Follows(s.stateByUuid.Get(t.uuid), c)
  {
    hide ReadOut;
  }

  lemma EventsAbout(prev: Option<DeviceState>, c: DeviceState, uuid: string)
    ensures About(EventsAfter(prev, c), uuid) == if c.uuid == uuid then EventsAfter(prev, c) else []
  {
    hide HasMaterialStateChange;
    AboutAll(EventsAfter(prev, c), uuid);
  }

  lemma PowerEventsAbout(prev: Option<PowerReading>, p: PowerReading, uuid: string)
    ensures About(PowerEvents(prev, p), uuid) == []
  {
    hide PowerMoved;
    AboutAll(PowerEvents(prev, p), uuid);
  }

  /** One step, seen from one device: nothing, or one more outcome. */
  lemma HistoryStep(js: Js, s: Server, step: Step, uuid: string)
    requires Enabled(s, step)
    ensures var t := Next(js, s, step); var outcome := OutcomeOf(js, s, step, uuid); var prev := s.stateByUuid.Get(uuid);
      && |outcome| <= 1
      && (outcome == [] ==>
            t.stateByUuid.Get(uuid) == prev && About(EventsOf(js, s, step), uuid) == []
            && PollerSafety.Failures(t.metaByUuid, uuid) == PollerSafety.Failures(s.metaByUuid, uuid))
      && (outcome != [] ==>
            && Follows(prev, outcome[0])
            && t.stateByUuid.Get(uuid) == Some(StoredAfter(prev, outcome[0]))
            && About(EventsOf(js, s, step), uuid) == EventsAfter(prev, outcome[0])
            && PollerSafety.Failures(t.metaByUuid, uuid)
               == if outcome[0].stale then PollerSafety.Failures(s.metaByUuid, uuid) + 1 else 0)
  {
    hide Candidate;
    hide CompletePoll;
    hide StoredAfter;
    hide EventsAfter;
    hide Follows;
    hide About;
    hide PollerSafety.Failures;
    if step.PollCompletes? {
      var c := Candidate(js, s, s.tasks[step.task], step.attempt, step.now);
      CandidateFollows(js, s, s.tasks[step.task], step.attempt, step.now);
      PollerSafety.CompleteFrame(s, step.task, c, step.now, step.random);
      CompletedFailures(s, step.task, c, step.now, step.random, uuid);
      EventsAbout(s.stateByUuid.Get(s.tasks[step.task].uuid), c, uuid);
    } else {
      SameStates(js, s, step);
      SameFailures(js, s, step, uuid);
      NothingAbout(js, s, step, uuid);
      hide Next;
      hide EventsOf;
    }
  }

  lemma NothingAbout(js: Js, s: Server, step: Step, uuid: string)
    requires Enabled(s, step) && !step.PollCompletes?
    ensures About(EventsOf(js, s, step), uuid) == []
  {
    hide PowerCandidate;
    hide PowerEvents;
    if step.TelemetryCompletes? {
      var uuid' := s.telemetryTasks[step.task].uuid;
      var p := PowerCandidate(s, uuid', step.reading, step.now);
      if p.Some? {
        PowerEventsAbout(s.powerByUuid.Get(uuid'), p.value, uuid);
      }
    }
  }

  /** What a run has done so far for a device is determined by the list of its outcomes. */
  ghost predicate Explained(s: Server, events: seq<Event>, outs: seq<DeviceState>, uuid: string) {
    && Genuine(outs)
    && s.stateByUuid.Get(uuid) == Cached(outs)
    && About(events, uuid) == Emitted(outs)
    && PollerSafety.Failures(s.metaByUuid, uuid) == TrailingFailures(outs)
  }

  lemma ExplainedStep(js: Js, s: Server, events: seq<Event>, outs: seq<DeviceState>, uuid: string, step: Step)
    requires Explained(s, events, outs, uuid) && Enabled(s, step)
    ensures Explained(Next(js, s, step), events + EventsOf(js, s, step), outs + OutcomeOf(js, s, step, uuid), uuid)
  {
    HistoryStep(js, s, step, uuid);
    AboutAppend(events, EventsOf(js, s, step), uuid);
    hide Next;
    hide Enabled;
    hide EventsOf;
    hide OutcomeOf;
    ExplainedMore(s, Next(js, s, step), events, events + EventsOf(js, s, step), outs, OutcomeOf(js, s, step, uuid), uuid);
    hide *;
  }

  lemma ExplainedMore(s: Server, t: Server, events: seq<Event>, all: seq<Event>, outs: seq<DeviceState>, outcome: seq<DeviceState>, uuid: string)
    requires Explained(s, events, outs, uuid) && |outcome| <= 1
    requires outcome == [] ==>
      t.stateByUuid.Get(uuid) == s.stateByUuid.Get(uuid) && About(all, uuid) == About(events, uuid) + []
      && PollerSafety.Failures(t.metaByUuid, uuid) == PollerSafety.Failures(s.metaByUuid, uuid)
    requires outcome != [] ==> var prev := s.stateByUuid.Get(uuid);
      && Follows(prev, outcome[0])
      && t.stateByUuid.Get(uuid) == Some(StoredAfter(prev, outcome[0]))
      && About(all, uuid) == About(events, uuid) + EventsAfter(prev, outcome[0])
      && PollerSafety.Failures(t.metaByUuid, uuid)
         == if outcome[0].stale then PollerSafety.Failures(s.metaByUuid, uuid) + 1 else 0
    ensures Explained(t, all, outs + outcome, uuid)
  {
    hide PollerSafety.Failures;
    hide About;
    hide StoredAfter;
    hide EventsAfter;
    hide Follows;
    if outcome == [] {
      assert outs + outcome == outs;
    } else {
      assert outcome == [outcome[0]];
      OneMoreOutcome(outs, outcome[0]);
      hide Genuine;
      hide Cached;
      hide Emitted;
      hide TrailingFailures;
    }
  }

  lemma OneMoreOutcome(outs: seq<DeviceState>, c: DeviceState)
    ensures Genuine(outs + [c]) <==> Genuine(outs) && Follows(Cached(outs), c)
    ensures Cached(outs + [c]) == Some(StoredAfter(Cached(outs), c))
    ensures Emitted(outs + [c]) == Emitted(outs) + EventsAfter(Cached(outs), c)
    ensures TrailingFailures(outs + [c]) == if c.stale then TrailingFailures(outs) + 1 else 0
  {
    assert (outs + [c])[..|outs|] == outs;
  }

  lemma {:induction false} RunExplained(js: Js, steps: seq<Step>, uuid: string)
    requires Run(js, Init(), steps)
    ensures Explained(After(js, Init(), steps), Broadcasts(js, steps), Outcomes(js, steps, uuid), uuid)
    decreases |steps|
  {
    hide Next;
    hide Enabled;
    hide Explained;
    hide EventsOf;
    hide OutcomeOf;
    if steps == [] {
      assert Explained(Init(), [], [], uuid) by {
        NothingYet(uuid);
      }
    } else {
      var n := |steps| - 1;
      RunExplained(js, steps[..n], uuid);
      ExplainedStep(js, After(js, Init(), steps[..n]), Broadcasts(js, steps[..n]), Outcomes(js, steps[..n], uuid), uuid, steps[n]);
    }
  }

  lemma NothingYet(uuid: string)
    ensures Explained(Init(), [], [], uuid)
  {
  }

  /** In every run, the `device_state` events of a device are its poll outcomes with adjacent material duplicates
      removed; each run of consecutive failures broadcasts exactly one stale `device_state` and one `device_stale`,
      which repeats the `device_state` just before it; and the versions broadcast strictly increase. */
  lemma {:induction false} BroadcastsAreDestutteredPolls(js: Js, steps: seq<Step>, uuid: string)
    requires Run(js, Init(), steps)
    ensures var outs := Outcomes(js, steps, uuid); var events := About(Broadcasts(js, steps), uuid);
      && Materials(StatesIn(events)) == Destutter(Materials(outs))
      && StaleStates(StatesIn(events)) == CountStale(events) == FailureRuns(outs)
      && AlarmsRepeat(events)
      && VersionsGrow(StatesIn(events))
  {
    hide Run;
    hide Init;
    hide After;
    var outs := Outcomes(js, steps, uuid);
    RunExplained(js, steps, uuid);
    EmittedIsDestuttered(outs);
    OneAlarmPerRun(outs);
    OneStaleStatePerRun(outs);
    EmittedAlarms(outs);
    EmittedVersions(outs);
    hide *;
  }

  /** In every reachable state, a device is cached once a poll of it completed; the cache agrees with the latest
      outcome on everything material, carries the version last broadcast, and is stale exactly while the failure
      count is positive, which counts the failures since the last success. */
  lemma {:induction false} CacheIsLatestOutcome(js: Js, steps: seq<Step>, uuid: string)
    requires Run(js, Init(), steps)
    ensures var s := After(js, Init(), steps); var outs := Outcomes(js, steps, uuid);
      && (uuid in s.stateByUuid.at <==> outs != [])
      && (uuid in s.stateByUuid.at ==>
            && MaterialOf(s.stateByUuid.at[uuid]) == MaterialOf(outs[|outs| - 1])
            && (s.stateByUuid.at[uuid].stale <==> PollerSafety.Failures(s.metaByUuid, uuid) > 0)
            && var states := StatesIn(About(Broadcasts(js, steps), uuid));
               states != [] && s.stateByUuid.at[uuid].updatedAt == states[|states| - 1].updatedAt)
      && PollerSafety.Failures(s.metaByUuid, uuid) == TrailingFailures(outs)
  {
    hide Run;
    hide Init;
    hide After;
    hide Outcomes;
    hide Broadcasts;
    hide MaterialOf;
    hide StatesIn;
    hide About;
    hide Emitted;
    hide PollerSafety.Failures;
    var outs := Outcomes(js, steps, uuid);
    RunExplained(js, steps, uuid);
    EmittedVersions(outs);
    if outs != [] {
      CachedIsLatest(outs);
    }
  }

  /** What is broadcast reaches the queue of every subscriber, in order. */
  lemma QueueGrows(js: Js, s: Server, step: Step, id: nat)
    requires Enabled(s, step) && id in s.subscribers && id < s.nextSubscriberId
    requires step != Unsubscribes(id) && step != Pulls(id)
    ensures var t := Next(js, s, step); id in t.subscribers && t.subscribers[id] == s.subscribers[id] + EventsOf(js, s, step)
  {
    hide Greeting;
    hide Candidate;
    hide CompletePoll;
    hide EventsAfter;
    hide PowerCandidate;
    hide PowerEvents;
    hide TelemetryMeta;
    if step.PollCompletes? {
      var c := Candidate(js, s, s.tasks[step.task], step.attempt, step.now);
      PollerSafety.CompleteFrame(s, step.task, c, step.now, step.random);
    }
  }
}
