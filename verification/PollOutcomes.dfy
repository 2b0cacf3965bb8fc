/** What the cache shows and what `pollNow` answers, told from the devices' replies alone. */
module PollOutcomes {
  import opened Prelude
  import opened Text
  import opened Devices
  import opened Json
  import opened Poller
  import LanExtract
  import CacheNormal
  import PollerHistory
  import PollerSafety
  import PollNow

  // ----------------------------------------------------------------- one outcome

  /** A reply that names a channel or a light. */
  predicate Usable(js: Js, attempt: Attempt) {
    attempt.Replied? && (LanExtract.LanToggleX(js, attempt.resp).Some? || LanExtract.LanLight(js, attempt.resp).Some?)
  }

  /** The lists are in order, and the state shows the light on the lowest channel or, without lights, the lowest
      channel; its kind says which of the two there are. */
  ghost predicate Coherent(s: DeviceState) {
    && Sorted(ChannelLe, s.channels) && Sorted(LightLe, s.lights)
    && s.light == (if s.lights == [] then None else Some(s.lights[0]))
    && (s.lights != [] ==> s.channel == s.lights[0].channel && s.onoff == s.lights[0].onoff)
    && (s.lights == [] && s.channels != [] ==> s.channel == s.channels[0].channel && s.onoff == s.channels[0].onoff)
    && (s.lights == [] && s.channels == [] ==> s.channel == 0 && s.onoff == 0)
    && s.kind == if s.lights == [] then ToggleX else if s.channels == [] then LightOnly else Mixed
  }

  /** The state shows what the host replied. */
  ghost predicate ShowsReply(js: Js, s: DeviceState, host: string, resp: Value) {
    var toggles, lights := LanExtract.LanToggleX(js, resp), LanExtract.LanLight(js, resp);
    && s.host == host
    && s.channels == (if toggles.Some? then toggles.value else [])
    && s.lights == (if lights.Some? then lights.value else [])
    && s.timerxDigest == LanExtract.LanScheduleDigest(js, resp, KTimerx)
    && s.triggerxDigest == LanExtract.LanScheduleDigest(js, resp, KTriggerx)
    && Coherent(s)
  }

  /** Nothing was ever read from the device. */
  ghost predicate ShowsNothing(s: DeviceState) {
    s.channels == [] && s.lights == [] && s.timerxDigest == [] && s.triggerxDigest == [] && Coherent(s)
  }

  /** The text of a poll that failed. */
  function FailureText(attempt: Attempt): string {
    match attempt
    case Threw(message) => message
    case Replied(_, _) => "Device state not found in Appliance.System.All digest (state unavailable)."
  }

  /** A usable reply makes a fresh state that shows it, under the polled device's uuid and the poll's reason, with a
      version that is the clock's or, where the clock lags, one more than the version before. */
  lemma UsableOutcome(js: Js, s: Server, t: Task, attempt: Attempt, now: int)
    requires Usable(js, attempt)
    ensures var c := Candidate(js, s, t, attempt, now);
      && c.uuid == t.uuid && c.source == t.reason && !c.stale && c.error == None
      && ShowsReply(js, c, attempt.host, attempt.resp)
      && (t.uuid !in s.stateByUuid.at ==> c.updatedAt == now)
      && (t.uuid in s.stateByUuid.at ==> c.updatedAt == Max(now, s.stateByUuid.at[t.uuid].updatedAt + 1))
  {
    hide LanExtract.LanToggleX;
    hide LanExtract.LanLight;
    hide LanExtract.LanScheduleDigest;
    hide PrimaryLight;
    hide PrimaryChannel;
    hide StableSort;
    hide Sorted;
    var toggles, lights := LanExtract.LanToggleX(js, attempt.resp), LanExtract.LanLight(js, attempt.resp);
    LanExtract.TogglesNormal(js, attempt.resp);
    LanExtract.LightsNormal(js, attempt.resp);
    NoneSorted();
    var channels := if toggles.Some? then toggles.value else [];
    AlreadySorted(channels);
    CacheNormal.PrimaryIsFirst(channels, if lights.Some? then lights.value else []);
  }

  lemma NoneSorted()
    ensures Sorted(ChannelLe, []) && Sorted(LightLe, [])
  {
  }

  lemma AlreadySorted(channels: seq<Channel>)
    requires Sorted(ChannelLe, channels)
    ensures StableSort(ChannelLe, channels) == channels
  {
    StableSortFixed(ChannelLe, channels);
  }

  /** Any other attempt makes a stale state with the failure's text, which is otherwise the state cached before, or an
      empty one with the host known so far. */
  lemma FailedOutcome(js: Js, s: Server, t: Task, attempt: Attempt, now: int)
    requires !Usable(js, attempt)
    ensures var c := Candidate(js, s, t, attempt, now);
      && c.uuid == t.uuid && c.source == t.reason && c.stale && c.error == Some(FailureText(attempt))
      && (t.uuid !in s.stateByUuid.at ==>
            c.updatedAt == now && ShowsNothing(c)
            && c.host == if t.uuid in s.knownHosts.at then s.knownHosts.at[t.uuid].host else "")
      && (t.uuid in s.stateByUuid.at ==>
            var p := s.stateByUuid.at[t.uuid];
            c.updatedAt == Max(now, p.updatedAt + 1) && MaterialOf(c) == MaterialOf(p).(stale := true))
  {
    hide LanExtract.LanToggleX;
    hide LanExtract.LanLight;
    hide LanExtract.LanScheduleDigest;
    hide PrimaryLight;
    hide PrimaryChannel;
    hide StableSort;
    if attempt.Replied? {
      LanExtract.TogglesNormal(js, attempt.resp);
      LanExtract.LightsNormal(js, attempt.resp);
    }
  }

  /** What a state shows depends on its material part only. */
  lemma SameShown(js: Js, a: DeviceState, b: DeviceState, host: string, resp: Value)
    requires MaterialOf(a).(stale := b.stale) == MaterialOf(b)
    ensures ShowsReply(js, a, host, resp) <==> ShowsReply(js, b, host, resp)
    ensures ShowsNothing(a) <==> ShowsNothing(b)
    ensures Coherent(a) <==> Coherent(b)
  {
    hide LanExtract.LanToggleX;
    hide LanExtract.LanLight;
    hide LanExtract.LanScheduleDigest;
    hide Sorted;
  }

  /** The code of a failure: that of a word that occurs in its text, in any case, where a missing key goes before a
      missing host, and that before a missing state. */
  lemma CodeOfText(a: string, word: string, b: string)
    ensures var code, all := PollCode(a + word + b), LowerCase(a + word + b);
      var noKey, noHost := Includes(all, "missing meross key"), Includes(all, "no lan host known");
      && (LowerCase(word) == "missing meross key" ==> code == "missing_key")
      && (LowerCase(word) == "no lan host known" && !noKey ==> code == "host_unavailable")
      && (LowerCase(word) == "state unavailable" && !noKey && !noHost ==> code == "state_unavailable")
      && (LowerCase(word) == "togglex state not found" && !noKey && !noHost ==> code == "state_unavailable")
      && (LowerCase(word) == "device state not found" && !noKey && !noHost ==> code == "state_unavailable")
      && (code == "lan_error" <==>
            !noKey && !noHost && !Includes(all, "state unavailable") && !Includes(all, "togglex state not found")
            && !Includes(all, "device state not found"))
  {
    hide LowerCase;
    hide Includes;
    LowerCaseAppend(a, word);
    LowerCaseAppend(a + word, b);
    var all := LowerCase(a + word + b);
    assert all[|LowerCase(a)|..|LowerCase(a)| + |LowerCase(word)|] == LowerCase(word);
    IncludesAt(all, LowerCase(word), |LowerCase(a)|);
  }

  // ------------------------------------------------------------- the cache explained

  /** A completed poll of a device: who asked, and what came of it. */
  datatype Report = Report(reason: Source, attempt: Attempt)

  /** The last usable reply, if any. */
  function LastReply(js: Js, reports: seq<Report>): Option<Attempt> {
    if reports == [] then None
    else if Usable(js, reports[|reports| - 1].attempt) then Some(reports[|reports| - 1].attempt)
    else LastReply(js, reports[..|reports| - 1])
  }

  /** The first report of the run of failures that the list ends with. */
  function FirstFailure(js: Js, reports: seq<Report>): Option<Report> {
    if reports == [] || Usable(js, reports[|reports| - 1].attempt) then None
    else
      var before := FirstFailure(js, reports[..|reports| - 1]);
      if before.Some? then before else Some(reports[|reports| - 1])
  }

  /** What is cached of a device after these polls of it. The material part is that of the last usable reply, and it is
      stale while the polls since failed, with the text and the reason of the first of them. */
  ghost predicate Remembers(js: Js, cached: Option<DeviceState>, uuid: string, reports: seq<Report>) {
    match cached
    case None => reports == []
    case Some(c) =>
      var reply, failure := LastReply(js, reports), FirstFailure(js, reports);
      && reports != []
      && c.uuid == uuid
      && (match failure
          case None => !c.stale && c.error == None && c.source == reports[|reports| - 1].reason
          case Some(f) => c.stale && c.error == Some(FailureText(f.attempt)) && c.source == f.reason)
      && (match reply
          case None => ShowsNothing(c)
          case Some(r) => r.Replied? && ShowsReply(js, c, r.host, r.resp))
  }

  lemma LastsAppend(js: Js, reports: seq<Report>, r: Report)
    ensures LastReply(js, reports + [r]) == if Usable(js, r.attempt) then Some(r.attempt) else LastReply(js, reports)
    ensures FirstFailure(js, reports + [r])
         == if Usable(js, r.attempt) then None
            else if FirstFailure(js, reports).Some? then FirstFailure(js, reports) else Some(r)
  {
    hide Usable;
    assert (reports + [r])[..|reports|] == reports;
  }

  lemma StoredIs(prev: Option<DeviceState>, c: DeviceState)
    ensures StoredAfter(prev, c)
         == if prev.None? || MaterialOf(prev.value) != MaterialOf(c) then c
            else if c.stale then prev.value
            else prev.value.(source := c.source)
  {
    MaterialChangeMeaning(prev, c);
    hide HasMaterialStateChange;
  }

  lemma OneMoreUsable(js: Js, s: Server, t: Task, reports: seq<Report>, attempt: Attempt, now: int)
    requires Remembers(js, s.stateByUuid.Get(t.uuid), t.uuid, reports) && Usable(js, attempt)
    ensures Remembers(js, Some(StoredAfter(s.stateByUuid.Get(t.uuid), Candidate(js, s, t, attempt, now))), t.uuid,
                      reports + [Report(t.reason, attempt)])
  {
    hide Candidate;
    hide StoredAfter;
    hide ShowsReply;
    hide ShowsNothing;
    hide LastReply;
    hide FirstFailure;
    var prev := s.stateByUuid.Get(t.uuid);
    var c := Candidate(js, s, t, attempt, now);
    LastsAppend(js, reports, Report(t.reason, attempt));
    UsableOutcome(js, s, t, attempt, now);
    StoredIs(prev, c);
    SameShown(js, StoredAfter(prev, c), c, attempt.host, attempt.resp);
  }

  lemma OneMoreFailed(js: Js, s: Server, t: Task, reports: seq<Report>, attempt: Attempt, now: int)
    requires Remembers(js, s.stateByUuid.Get(t.uuid), t.uuid, reports) && !Usable(js, attempt)
    ensures Remembers(js, Some(StoredAfter(s.stateByUuid.Get(t.uuid), Candidate(js, s, t, attempt, now))), t.uuid,
                      reports + [Report(t.reason, attempt)])
  {
    hide Candidate;
    hide StoredAfter;
    hide ShowsReply;
    hide ShowsNothing;
    hide Coherent;
    hide LastReply;
    hide FirstFailure;
    hide Usable;
    hide FailureText;
    var prev := s.stateByUuid.Get(t.uuid);
    var c := Candidate(js, s, t, attempt, now);
    LastsAppend(js, reports, Report(t.reason, attempt));
    FailedOutcome(js, s, t, attempt, now);
    StoredIs(prev, c);
    if prev.Some? {
      var r := LastReply(js, reports);
      if r.Some? {
        SameShown(js, prev.value, c, r.value.host, r.value.resp);
      } else {
        SameShown(js, prev.value, c, "", None);
      }
    } else {
      NothingReported(js);
    }
  }

  lemma NothingReported(js: Js)
    ensures LastReply(js, []) == None && FirstFailure(js, []) == None
  {
  }

  /** One more poll. */
  lemma OneMoreReport(js: Js, s: Server, t: Task, reports: seq<Report>, attempt: Attempt, now: int)
    requires Remembers(js, s.stateByUuid.Get(t.uuid), t.uuid, reports)
    ensures Remembers(js, Some(StoredAfter(s.stateByUuid.Get(t.uuid), Candidate(js, s, t, attempt, now))), t.uuid,
                      reports + [Report(t.reason, attempt)])
  {
    hide *;
    if Usable(js, attempt) {
      OneMoreUsable(js, s, t, reports, attempt, now);
    } else {
      OneMoreFailed(js, s, t, reports, attempt, now);
    }
  }

  /** The polls of a device that complete in a step, and in a run. */
  function ReportOf(s: Server, step: Step, uuid: string): seq<Report>
    requires Enabled(s, step)
  {
    if step.PollCompletes? && s.tasks[step.task].uuid == uuid then [Report(s.tasks[step.task].reason, step.attempt)] else []
  }

  ghost function Reports(js: Js, steps: seq<Step>, uuid: string): seq<Report>
    requires Run(js, Init(), steps)
    decreases |steps|
  {
    if steps == [] then []
    else
      var n := |steps| - 1;
      Reports(js, steps[..n], uuid) + ReportOf(After(js, Init(), steps[..n]), steps[n], uuid)
  }

  lemma CacheStep(js: Js, s: Server, step: Step, uuid: string, reports: seq<Report>)
    requires Enabled(s, step) && Remembers(js, s.stateByUuid.Get(uuid), uuid, reports)
    ensures Remembers(js, Next(js, s, step).stateByUuid.Get(uuid), uuid, reports + ReportOf(s, step, uuid))
  {
    hide Candidate;
    hide StoredAfter;
    hide Remembers;
    hide Next;
    hide PollerHistory.Follows;
    hide PollerHistory.About;
    hide PollerHistory.EventsOf;
    hide EventsAfter;
    hide PollerSafety.Failures;
    PollerHistory.HistoryStep(js, s, step, uuid);
    if ReportOf(s, step, uuid) != [] {
      OneMoreReport(js, s, s.tasks[step.task], reports, step.attempt, step.now);
    } else {
      assert reports + ReportOf(s, step, uuid) == reports;
    }
  }

  lemma NothingCached(js: Js, uuid: string)
    ensures Remembers(js, Init().stateByUuid.Get(uuid), uuid, [])
  {
  }

  /** In every reachable state: a device is cached once a poll of it completed. The cache shows the last usable reply,
      wherever it came from, and nothing if there was none. It is fresh exactly if the latest poll brought that reply,
      and otherwise has the text of the first failure since. */
  lemma {:induction false} CacheShowsLastReply(js: Js, steps: seq<Step>, uuid: string)
    requires Run(js, Init(), steps)
    ensures Remembers(js, After(js, Init(), steps).stateByUuid.Get(uuid), uuid, Reports(js, steps, uuid))
    decreases |steps|
  {
    hide Next;
    hide Enabled;
    hide Remembers;
    hide ReportOf;
    hide Init;
    if steps == [] {
      NothingCached(js, uuid);
    } else {
      var n := |steps| - 1;
      CacheShowsLastReply(js, steps[..n], uuid);
      CacheStep(js, After(js, Init(), steps[..n]), steps[n], uuid, Reports(js, steps[..n], uuid));
    }
  }

  /** In particular: a cached state with a light shows the light on the lowest channel, and one without lights the
      lowest channel; and it is stale exactly if it has an error. */
  lemma CacheIsCoherent(js: Js, steps: seq<Step>, uuid: string)
    requires Run(js, Init(), steps) && uuid in After(js, Init(), steps).stateByUuid.at
    ensures var s := After(js, Init(), steps).stateByUuid.at[uuid];
      && (s.stale <==> s.error.Some?)
      && (s.lights != [] ==> s.light == Some(s.lights[0]) && s.channel == s.lights[0].channel && s.onoff == s.lights[0].onoff)
      && (s.lights == [] ==> s.light == None && (s.channels != [] ==> Channel(s.channel, s.onoff) == s.channels[0]))
      && (forall l :: l in s.lights ==> s.channel <= l.channel)
      && (s.lights == [] ==> forall c :: c in s.channels ==> s.channel <= c.channel)
  {
    hide Run;
    hide After;
    hide Init;
    hide Reports;
    CacheShowsLastReply(js, steps, uuid);
    RememberedIsCoherent(js, After(js, Init(), steps).stateByUuid.at[uuid], uuid, Reports(js, steps, uuid));
    hide *;
  }

  lemma RememberedIsCoherent(js: Js, s: DeviceState, uuid: string, reports: seq<Report>)
    requires Remembers(js, Some(s), uuid, reports)
    ensures Coherent(s) && (s.stale <==> s.error.Some?)
  {
    hide LastReply;
    hide FirstFailure;
    hide Coherent;
    hide LanExtract.LanToggleX;
    hide LanExtract.LanLight;
    hide LanExtract.LanScheduleDigest;
  }
}
