/** From the device to the screen: what a client shows of a device is what the device itself last replied. */
module EndToEnd {
  import opened Prelude
  import opened Text
  import opened Devices
  import opened Json
  import opened PollOutcomes
  import opened DevicesMachine
  import opened Replica
  import P = Poller
  import LanExtract
  import PollerHistory

  /** The completed polls of a device since the server last started. */
  ghost function ReportsSinceStart(js: Js, cidr: string, steps: seq<SystemStep>, u: string): seq<Report>
    requires SystemRun(js, cidr, steps)
    decreases |steps|
  {
    if steps == [] then []
    else
      var n := |steps| - 1;
      ReportsAfter(SystemAfter(js, cidr, steps[..n]), steps[n], u, ReportsSinceStart(js, cidr, steps[..n], u))
  }

  function ReportsAfter(y: System, step: SystemStep, u: string, before: seq<Report>): seq<Report>
    requires CanDo(y, step)
  {
    match step
    case ServerMoves(t) => before + ReportOf(y.server, t, u)
    case ServerRestarts => []
    case _ => before
  }

  lemma PullsKeep(js: Js, s: P.Server, id: nat)
    requires P.Enabled(s, P.Pulls(id))
    ensures P.Next(js, s, P.Pulls(id)).stateByUuid == s.stateByUuid
  {
    PollerHistory.SameStates(js, s, P.Pulls(id));
  }

  lemma SubscribeKeeps(js: Js, s: P.Server)
    ensures P.Subscribe(js, s).stateByUuid == s.stateByUuid
  {
    hide P.Greeting;
  }

  lemma SystemStepRemembers(js: Js, y: System, step: SystemStep, u: string, reports: seq<Report>)
    requires CanDo(y, step) && Remembers(js, y.server.stateByUuid.Get(u), u, reports)
    ensures Remembers(js, Do(js, y, step).server.stateByUuid.Get(u), u, ReportsAfter(y, step, u, reports))
  {
    hide Remembers;
    hide P.Next;
    hide P.Subscribe;
    hide P.Enabled;
    hide ReportOf;
    hide Receive;
    hide Act;
    match step {
      case ServerMoves(t) => CacheStep(js, y.server, t, u, reports);
      case Connects => SubscribeKeeps(js, y.server);
      case Delivers => PullsKeep(js, y.server, y.link.value);
      case ServerRestarts => NothingCached(js, u);
      case _ =>
    }
  }

  lemma StartRemembers(js: Js, cidr: string, u: string)
    ensures Remembers(js, Start(cidr).server.stateByUuid.Get(u), u, [])
  {
    NothingCached(js, u);
  }

  lemma {:induction false} SystemRemembers(js: Js, cidr: string, steps: seq<SystemStep>, u: string)
    requires SystemRun(js, cidr, steps)
    ensures Remembers(js, SystemAfter(js, cidr, steps).server.stateByUuid.Get(u), u, ReportsSinceStart(js, cidr, steps, u))
    decreases |steps|
  {
    hide Remembers;
    hide Do;
    hide CanDo;
    hide ReportsAfter;
    hide Start;
    if steps == [] {
      StartRemembers(js, cidr, u);
    } else {
      var n := |steps| - 1;
      SystemRemembers(js, cidr, steps[..n], u);
      SystemStepRemembers(js, SystemAfter(js, cidr, steps[..n]), steps[n], u, ReportsSinceStart(js, cidr, steps[..n], u));
    }
  }

  /** The client's state shows these channels and lights; on and off as the light on the lowest channel or, without
      lights, as the lowest channel. */
  ghost predicate Displays(x: ClientState, channels: seq<Channel>, lights: seq<Light>) {
    && x.channels == Some(channels) && x.lights == Some(lights)
    && x.light == (if lights == [] then None else Some(lights[0]))
    && (lights != [] ==> x.channel == lights[0].channel && x.onoff == lights[0].onoff)
    && (lights == [] && channels != [] ==> x.channel == channels[0].channel && x.onoff == channels[0].onoff)
    && x.kind == Some(if lights == [] then "togglex" else if channels == [] then "light" else "mixed")
  }

  ghost predicate DisplaysReply(js: Js, x: ClientState, host: string, resp: Value) {
    var toggles, lights := LanExtract.LanToggleX(js, resp), LanExtract.LanLight(js, resp);
    && x.host == host
    && Displays(x, if toggles.Some? then toggles.value else [], if lights.Some? then lights.value else [])
    && x.timerxDigest == Some(LanExtract.LanScheduleDigest(js, resp, KTimerx))
    && x.triggerxDigest == Some(LanExtract.LanScheduleDigest(js, resp, KTriggerx))
  }

  /** The client's state tells the polls so far: it shows the last usable reply, or nothing before the first; it is stale
      exactly if a poll failed since, and then has the text of the first that did. */
  ghost predicate DisplaysReports(js: Js, x: ClientState, reports: seq<Report>) {
    var reply, failure := LastReply(js, reports), FirstFailure(js, reports);
    && (match reply
        case Some(r) => r.Replied? && DisplaysReply(js, x, r.host, r.resp)
        case None => Displays(x, [], []))
    && (x.stale <==> failure.Some?)
    && (failure.None? ==> x.error == None)
    && (failure.Some? ==> x.error == if FailureText(failure.value.attempt) == "" then None else Some(FailureText(failure.value.attempt)))
  }

  lemma RememberedIsDisplayed(js: Js, x: ClientState, s: DeviceState, u: string, reports: seq<Report>)
    requires Remembers(js, Some(s), u, reports) && UpToSource(x, s)
    ensures DisplaysReports(js, x, reports)
  {
    hide LanExtract.LanToggleX;
    hide LanExtract.LanLight;
    hide LanExtract.LanScheduleDigest;
    hide LastReply;
    hide FirstFailure;
    hide Sorted;
    hide FailureText;
  }

  /** Take any run of the server and a client, whatever devices reply and however polls fail, with restarts, lost
      connections and toggles in between. Once the client has received what was sent to it, it shows each polled device
      that it did not write itself, and whose uuid is trimmed and no other's once trimmed, as that device itself last
      replied to a poll since the server started. */
  lemma {:induction false} ClientShowsLastReply(js: Js, cidr: string, steps: seq<SystemStep>, u: string)
    requires Collates(js) && SystemRun(js, cidr, steps) && SystemAfter(js, cidr, steps).link.Some?
    requires ReportsSinceStart(js, cidr, steps, u) != []
    requires Sole(SystemAfter(js, cidr, steps).server.stateByUuid, u)
    ensures var y := SystemAfter(js, cidr, steps);
      && y.link.value in y.server.subscribers
      && var drained := Drain(js, y.client, y.server.subscribers[y.link.value]);
         u !in drained.dirty ==>
           u in drained.config.context.deviceStates
           && DisplaysReports(js, drained.config.context.deviceStates[u], ReportsSinceStart(js, cidr, steps, u))
  {
    hide SystemRun;
    hide SystemAfter;
    hide ReportsSinceStart;
    hide Drain;
    hide UpToSource;
    hide Shows;
    hide ShowsReading;
    hide SameReading;
    hide DisplaysReports;
    hide Trim;
    hide LastReply;
    hide FirstFailure;
    hide ShowsReply;
    hide ShowsNothing;
    ReplicaAgrees(js, cidr, steps, u);
    SystemRemembers(js, cidr, steps, u);
    var y := SystemAfter(js, cidr, steps);
    var drained := Drain(js, y.client, y.server.subscribers[y.link.value]);
    if u !in drained.dirty {
      RememberedIsDisplayed(js, drained.config.context.deviceStates[u], y.server.stateByUuid.at[u], u,
                            ReportsSinceStart(js, cidr, steps, u));
    }
  }
}
