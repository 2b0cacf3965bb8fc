/** Everything the server caches and broadcasts is in the normal form that the client's parser leaves alone. */
module CacheNormal {
  import opened Prelude
  import opened Text
  import opened Devices
  import opened Json
  import opened Poller
  import LanExtract
  import StreamParse
  import PollerHistory
  import PollerSafety

  /** A state in normal form: positive version, ordered lists. */
  ghost predicate Normal(js: Js, s: DeviceState) { s.updatedAt > 0 && ListsNormal(js, s) }

  ghost predicate NormalReading(p: PowerReading) { p.updatedAt > 0 && (p.stale <==> p.error.Some?) }

  ghost predicate StatesNormal(js: Js, m: JsMap<DeviceState>) {
    forall u :: u in m.at ==> m.at[u].uuid == u && Normal(js, m.at[u])
  }

  ghost predicate ReadingsNormal(m: JsMap<PowerReading>) {
    forall u :: u in m.at ==> m.at[u].uuid == u && NormalReading(m.at[u])
  }

  ghost predicate CachesNormal(js: Js, s: Server) { StatesNormal(js, s.stateByUuid) && ReadingsNormal(s.powerByUuid) }

  // --------------------------------------------------------------- poll outcomes

  /** What is read out of a response, and what a failure copies, is in normal form. */
  lemma CandidateNormal(js: Js, s: Server, t: Task, attempt: Attempt, now: Clock)
    requires Collates(js) && StatesNormal(js, s.stateByUuid)
    ensures Normal(js, Candidate(js, s, t, attempt, now)) && Candidate(js, s, t, attempt, now).uuid == t.uuid
  {
    hide ReadOut;
    hide TotalPreorder;
    hide Sorted;
    hide DigestNormal;
    EmptyNormal(js);
    if t.uuid in s.stateByUuid.at {
      assert Normal(js, s.stateByUuid.at[t.uuid]);
    }
    if attempt.Replied? {
      ReadOutNormal(js, attempt.resp);
    }
  }

  lemma EmptyNormal(js: Js)
    ensures Sorted(ChannelLe, []) && Sorted(LightLe, []) && DigestNormal(js, [])
  {
  }

  lemma ReadOutNormal(js: Js, resp: Value)
    requires Collates(js)
    ensures var r := ReadOut(js, resp); r.Some? ==>
      && Sorted(ChannelLe, r.value.channels) && Sorted(LightLe, r.value.lights)
      && DigestNormal(js, r.value.timerxDigest) && DigestNormal(js, r.value.triggerxDigest)
  {
    hide LanExtract.LanToggleX;
    hide LanExtract.LanLight;
    hide LanExtract.LanScheduleDigest;
    hide DigestNormal;
    hide PrimaryLight;
    hide PrimaryChannel;
    hide StableSort;
    var toggles := LanExtract.LanToggleX(js, resp);
    StableSortSorts(ChannelLe, if toggles.Some? then toggles.value else []);
    LanExtract.LightsNormal(js, resp);
    LanExtract.SchedulesNormal(js, resp, KTimerx);
    LanExtract.SchedulesNormal(js, resp, KTriggerx);
  }

  /** In an ordered list the entry on channel 0, if there is one, is the first; so the primary entry always is. */
  lemma PrimaryIsFirst(channels: seq<Channel>, lights: seq<Light>)
    requires Sorted(ChannelLe, channels) && Sorted(LightLe, lights)
    ensures PrimaryChannel(channels) == if channels == [] then None else Some(channels[0])
    ensures PrimaryLight(lights) == if lights == [] then None else Some(lights[0])
  {
    if channels != [] && channels[0].channel != 0 {
      NoChannelZero(channels);
    }
    if lights != [] && lights[0].channel != 0 {
      NoLightZero(lights);
    }
  }

  lemma {:induction false} NoChannelZero(channels: seq<Channel>)
    requires forall c :: c in channels ==> c.channel != 0
    ensures ChannelOnZero(channels).None?
  {
    if channels != [] {
      assert channels[0] in channels && forall c :: c in channels[1..] ==> c in channels;
      NoChannelZero(channels[1..]);
    }
  }

  lemma {:induction false} NoLightZero(lights: seq<Light>)
    requires forall l :: l in lights ==> l.channel != 0
    ensures LightOnZero(lights).None?
  {
    if lights != [] {
      assert lights[0] in lights && forall l :: l in lights[1..] ==> l in lights;
      NoLightZero(lights[1..]);
    }
  }

  /** What a response comes to: nothing if it names no channel and no light; otherwise a state whose kind says which
      of the two it names, and which shows the light on the lowest channel, or, without lights, the lowest channel. */
  lemma ReadOutMeans(js: Js, resp: Value)
    requires Collates(js)
    ensures var toggles := LanExtract.LanToggleX(js, resp); var lights := LanExtract.LanLight(js, resp); var r := ReadOut(js, resp);
      && (r.None? <==> toggles.None? && lights.None?)
      && (r.Some? ==>
            && (r.value.kind.Mixed? <==> toggles.Some? && lights.Some?)
            && (r.value.kind.LightOnly? <==> toggles.None?)
            && (r.value.kind.ToggleX? <==> lights.None?)
            && multiset(r.value.channels) == multiset(if toggles.Some? then toggles.value else [])
            && r.value.lights == (if lights.Some? then lights.value else [])
            && (lights.Some? ==> r.value.lights != [] && r.value.light == Some(r.value.lights[0])
                                 && (forall l :: l in r.value.lights ==> r.value.channel <= l.channel)
                                 && r.value.channel == r.value.lights[0].channel && r.value.onoff == r.value.lights[0].onoff)
            && (lights.None? ==> r.value.channels != [] && r.value.light.None?
                                 && (forall c :: c in r.value.channels ==> r.value.channel <= c.channel)
                                 && Channel(r.value.channel, r.value.onoff) == r.value.channels[0]))
  {
    hide LanExtract.LanToggleX;
    hide LanExtract.LanLight;
    hide LanExtract.LanScheduleDigest;
    hide PrimaryLight;
    hide PrimaryChannel;
    hide StableSort;
    hide TotalPreorder;
    LanExtract.TogglesNormal(js, resp);
    LanExtract.LightsNormal(js, resp);
    var toggles, lights := LanExtract.LanToggleX(js, resp), LanExtract.LanLight(js, resp);
    var channels := StableSort(ChannelLe, if toggles.Some? then toggles.value else []);
    ChannelsSort(if toggles.Some? then toggles.value else []);
    EmptyNormal(js);
    PrimaryIsFirst(channels, if lights.Some? then lights.value else []);
  }

  lemma ChannelsSort(channels: seq<Channel>)
    ensures Sorted(ChannelLe, StableSort(ChannelLe, channels))
  {
    StableSortSorts(ChannelLe, channels);
  }

  lemma StoredNormal(js: Js, prev: Option<DeviceState>, c: DeviceState)
    requires Normal(js, c) && (prev.Some? ==> Normal(js, prev.value) && prev.value.uuid == c.uuid)
    ensures Normal(js, StoredAfter(prev, c)) && StoredAfter(prev, c).uuid == c.uuid
  {
    hide HasMaterialStateChange;
    hide Sorted;
    hide DigestNormal;
  }

  lemma StatesSet(js: Js, m: JsMap<DeviceState>, u: string, state: DeviceState)
    requires StatesNormal(js, m) && Normal(js, state) && state.uuid == u
    ensures StatesNormal(js, m.Set(u, state))
  {
    hide Normal;
  }

  lemma PrevNormal(js: Js, m: JsMap<DeviceState>, u: string)
    requires StatesNormal(js, m) && m.Get(u).Some?
    ensures Normal(js, m.Get(u).value) && m.Get(u).value.uuid == u
  {
    hide Normal;
  }

  lemma CompleteStates(js: Js, s: Server, id: nat, attempt: Attempt, now: Clock, random: real)
    requires Collates(js) && id < |s.tasks| && StatesNormal(js, s.stateByUuid)
    ensures StatesNormal(js, CompletePoll(s, id, Candidate(js, s, s.tasks[id], attempt, now), now, random).stateByUuid)
  {
    hide Normal;
    hide StatesNormal;
    hide CompletePoll;
    hide StoredAfter;
    hide EventsAfter;
    hide ResultOf;
    hide Broadcast;
    hide Candidate;
    hide TotalPreorder;
    var u := s.tasks[id].uuid;
    var c := Candidate(js, s, s.tasks[id], attempt, now);
    CandidateNormal(js, s, s.tasks[id], attempt, now);
    PollerSafety.CompleteFrame(s, id, c, now, random);
    var prev := s.stateByUuid.Get(u);
    if prev.Some? {
      PrevNormal(js, s.stateByUuid, u);
    }
    StoredNormal(js, prev, c);
    StatesSet(js, s.stateByUuid, u, StoredAfter(prev, c));
  }

  lemma PowerNormal(s: Server, uuid: string, reading: TelemetryAttempt, now: Clock)
    requires ReadingsNormal(s.powerByUuid)
    ensures var p := PowerCandidate(s, uuid, reading, now); p.Some? ==> NormalReading(p.value) && p.value.uuid == uuid
  {
    if uuid in s.powerByUuid.at {
      assert NormalReading(s.powerByUuid.at[uuid]);
    }
  }

  /** What a completing telemetry poll changes besides its bookkeeping. */
  lemma TelemetryEffect(s: Server, id: nat, reading: TelemetryAttempt, now: int)
    requires id < |s.telemetryTasks|
    ensures var t := CompleteTelemetry(s, id, reading, now); var u := s.telemetryTasks[id].uuid;
      var p := PowerCandidate(s, u, reading, now);
      && t.powerByUuid == (if p.None? then s.powerByUuid else s.powerByUuid.Set(u, p.value))
      && t.subscribers == (if p.None? then s.subscribers else Broadcast(s.subscribers, PowerEvents(s.powerByUuid.Get(u), p.value)))
  {
    hide PowerCandidate;
    hide PowerEvents;
    hide TelemetryMeta;
    hide Broadcast;
  }

  lemma CompleteReadings(s: Server, id: nat, reading: TelemetryAttempt, now: Clock)
    requires id < |s.telemetryTasks| && ReadingsNormal(s.powerByUuid)
    ensures ReadingsNormal(CompleteTelemetry(s, id, reading, now).powerByUuid)
  {
    TelemetryEffect(s, id, reading, now);
    PowerNormal(s, s.telemetryTasks[id].uuid, reading, now);
    hide CompleteTelemetry;
    hide PowerCandidate;
    hide NormalReading;
  }

  // --------------------------------------------------------------------- all runs

  lemma SamePower(js: Js, s: Server, step: Step)
    requires Enabled(s, step) && !step.TelemetryCompletes?
    ensures Next(js, s, step).powerByUuid == s.powerByUuid
  {
    hide Greeting;
    hide Candidate;
    if step.PollCompletes? {
      PollerSafety.CompleteFrame(s, step.task, Candidate(js, s, s.tasks[step.task], step.attempt, step.now), step.now, step.random);
      hide CompletePoll;
    }
  }

  lemma CachesStep(js: Js, s: Server, step: Step)
    requires Collates(js) && CachesNormal(js, s) && Enabled(s, step)
    ensures CachesNormal(js, Next(js, s, step))
  {
    hide StatesNormal;
    hide ReadingsNormal;
    if step.PollCompletes? {
      CompleteStates(js, s, step.task, step.attempt, step.now, step.random);
      SamePower(js, s, step);
      hide CompletePoll;
    } else if step.TelemetryCompletes? {
      CompleteReadings(s, step.task, step.reading, step.now);
      PollerHistory.SameStates(js, s, step);
      hide CompleteTelemetry;
    } else {
      PollerHistory.SameStates(js, s, step);
      SamePower(js, s, step);
      hide Next;
    }
  }

  /** All of it. */
  ghost predicate NormalInv(js: Js, s: Server) {
    PollerSafety.SafetyInv(s) && CachesNormal(js, s)
  }

  lemma {:induction false} NormalStep(js: Js, s: Server, step: Step)
    requires Collates(js) && NormalInv(js, s) && Enabled(s, step)
    ensures NormalInv(js, Next(js, s, step))
  {
    PollerSafety.SafetyStep(js, s, step);
    CachesStep(js, s, step);
    hide PollerSafety.SafetyInv;
    hide CachesNormal;
    hide Next;
    hide Enabled;
  }

  lemma NormalAtStart(js: Js)
    ensures NormalInv(js, Init())
  {
    PollerSafety.SafeAtStart();
    hide PollerSafety.SafetyInv;
  }

  lemma {:induction false} NormalKept(js: Js, steps: seq<Step>)
    requires Collates(js) && Run(js, Init(), steps)
    ensures NormalInv(js, After(js, Init(), steps))
    decreases |steps|
  {
    hide Next;
    hide Enabled;
    hide NormalInv;
    hide TotalPreorder;
    if steps == [] {
      NormalAtStart(js);
    } else {
      var n := |steps| - 1;
      NormalKept(js, steps[..n]);
      NormalStep(js, After(js, Init(), steps[..n]), steps[n]);
    }
  }

  /** In every run, whatever the devices answer: a cached state or reading, and a state that a poll is about to
      broadcast, reads back on the client as exactly what was written if and only if the device's uuid has no
      surrounding blanks. */
  lemma ClientReadsBack(js: Js, steps: seq<Step>, uuid: string)
    requires Collates(js) && Run(js, Init(), steps)
    ensures var s := After(js, Init(), steps);
      && (uuid in s.stateByUuid.at ==> (ReadsBack(js, s.stateByUuid.at[uuid]) <==> Trimmed(uuid)))
      && (uuid in s.powerByUuid.at ==> (ReadingReadsBack(js, s.powerByUuid.at[uuid]) <==> Trimmed(uuid)))
      && forall id: nat, attempt, now: Clock :: id < |s.tasks| ==>
           (ReadsBack(js, Candidate(js, s, s.tasks[id], attempt, now)) <==> Trimmed(s.tasks[id].uuid))
  {
    NormalKept(js, steps);
    var s := After(js, Init(), steps);
    hide Run;
    hide After;
    hide Init;
    hide TotalPreorder;
    hide Candidate;
    hide ListsNormal;
    hide Trimmed;
    hide PollerSafety.SafetyInv;
    hide ReadsBack;
    hide ReadingReadsBack;
    if uuid in s.stateByUuid.at {
      NormalReadsBack(js, s.stateByUuid.at[uuid]);
    }
    if uuid in s.powerByUuid.at {
      NormalReadingReadsBack(js, s.powerByUuid.at[uuid]);
    }
    forall id: nat, attempt, now: Clock | id < |s.tasks|
      ensures ReadsBack(js, Candidate(js, s, s.tasks[id], attempt, now)) <==> Trimmed(s.tasks[id].uuid)
    {
      CandidateNormal(js, s, s.tasks[id], attempt, now);
      NormalReadsBack(js, Candidate(js, s, s.tasks[id], attempt, now));
    }
  }

  ghost predicate ReadsBack(js: Js, s: DeviceState) {
    StreamParse.ParseStreamState(js, Some(StreamParse.StateJson(s))) == Some(StreamParse.AsStream(s))
  }

  ghost predicate ReadingReadsBack(js: Js, p: PowerReading) {
    StreamParse.ParsePower(js, Some(StreamParse.PowerJson(p))) == Some(StreamParse.AsClientPower(p))
  }

  lemma NormalReadsBack(js: Js, s: DeviceState)
    requires Collates(js) && Normal(js, s)
    ensures ReadsBack(js, s) <==> Trimmed(s.uuid)
  {
    StreamParse.ParseIsIdentity(js, s);
  }

  lemma NormalReadingReadsBack(js: Js, p: PowerReading)
    requires NormalReading(p)
    ensures ReadingReadsBack(js, p) <==> Trimmed(p.uuid)
  {
    StreamParse.PowerParseIsIdentity(js, p);
  }
}
