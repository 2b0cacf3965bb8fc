/** `pollNow`: workers draining a shared queue, joining whatever polls are in flight, answer for each requested device
    exactly once. */
module PollNow {
  import opened Prelude
  import opened Devices
  import opened Json
  import opened Poller
  import PollerSafety

  function ResultUuid(r: PollResult): string {
    match r case Polled(state) => state.uuid case PollFailed(error) => error.uuid
  }

  /** States are cached under their own uuid, and a poll's result is about the device it polled. */
  ghost predicate CacheOk(m: JsMap<DeviceState>) { forall u :: u in m.at ==> m.at[u].uuid == u }

  ghost predicate ResultsOk(tasks: seq<Task>) {
    forall id :: 0 <= id < |tasks| && tasks[id].result.Some? ==> ResultUuid(tasks[id].result.value) == tasks[id].uuid
  }

  // ------------------------------------------------------------------ conservation

  /** How often `uuid` occurs among the states and the errors of a call. */
  function StatesFor(states: seq<DeviceState>, uuid: string): nat {
    if states == [] then 0
    else StatesFor(states[..|states| - 1], uuid) + (if states[|states| - 1].uuid == uuid then 1 else 0)
  }

  function ErrorsFor(errors: seq<PollError>, uuid: string): nat {
    if errors == [] then 0
    else ErrorsFor(errors[..|errors| - 1], uuid) + (if errors[|errors| - 1].uuid == uuid then 1 else 0)
  }

  function Answers(c: Call, uuid: string): nat { StatesFor(c.states, uuid) + ErrorsFor(c.errors, uuid) }

  predicate Awaits(tasks: seq<Task>, w: Worker, uuid: string) {
    w.Waiting? && w.task < |tasks| && tasks[w.task].uuid == uuid
  }

  /** How many workers wait for a poll of `uuid`, and how many have returned. */
  function AwaitedBy(tasks: seq<Task>, ws: seq<Worker>, uuid: string): nat {
    if ws == [] then 0 else AwaitedBy(tasks, ws[1..], uuid) + (if Awaits(tasks, ws[0], uuid) then 1 else 0)
  }

  function FinishedCount(ws: seq<Worker>): nat {
    if ws == [] then 0 else FinishedCount(ws[1..]) + (if ws[0].Finished? then 1 else 0)
  }

  function Occurrences(uuids: seq<string>, uuid: string): nat {
    if uuids == [] then 0 else Occurrences(uuids[1..], uuid) + (if uuids[0] == uuid then 1 else 0)
  }

  /** A requested device is answered, awaited by a worker, or still queued. */
  ghost predicate Balanced(tasks: seq<Task>, c: Call, uuid: string) {
    Occurrences(c.requested, uuid) == Answers(c, uuid) + AwaitedBy(tasks, c.workers, uuid) + Occurrences(c.queue, uuid)
  }

  /** The books of a call. A worker that returned early did so on the empty uuid, of which there is one, so another
      worker is left to drain the queue. */
  ghost predicate CallOk(tasks: seq<Task>, c: Call) {
    && NoDup(c.requested)
    && NoDup(c.queue)
    && |c.workers| >= 1
    && (forall w :: 0 <= w < |c.workers| && c.workers[w].Waiting? ==> c.workers[w].task < |tasks|)
    && (forall uuid :: uuid != "" ==> Balanced(tasks, c, uuid))
    && Answers(c, "") == 0 && AwaitedBy(tasks, c.workers, "") == 0
    && (FinishedCount(c.workers) == 0 ==> |c.queue| <= |c.requested| && |c.workers| == WorkerCount(|c.requested|))
    && (FinishedCount(c.workers) > 0 ==>
          c.queue == [] || ("" !in c.queue && FinishedCount(c.workers) == 1 && |c.workers| >= 2))
  }

  ghost predicate CallsOk(tasks: seq<Task>, calls: seq<Call>) {
    forall c :: 0 <= c < |calls| ==> CallOk(tasks, calls[c])
  }

  lemma {:induction false} AwaitedUpdate(tasks: seq<Task>, ws: seq<Worker>, w: nat, next: Worker, uuid: string)
    requires w < |ws|
    ensures AwaitedBy(tasks, ws[w := next], uuid)
         == AwaitedBy(tasks, ws, uuid) - (if Awaits(tasks, ws[w], uuid) then 1 else 0) + (if Awaits(tasks, next, uuid) then 1 else 0)
  {
    if w == 0 {
      assert ws[w := next][1..] == ws[1..];
    } else {
      assert ws[w := next][1..] == ws[1..][w - 1 := next];
      AwaitedUpdate(tasks, ws[1..], w - 1, next, uuid);
    }
  }

  lemma {:induction false} FinishedUpdate(ws: seq<Worker>, w: nat, next: Worker)
    requires w < |ws|
    ensures FinishedCount(ws[w := next])
         == FinishedCount(ws) - (if ws[w].Finished? then 1 else 0) + (if next.Finished? then 1 else 0)
  {
    if w == 0 {
      assert ws[w := next][1..] == ws[1..];
    } else {
      assert ws[w := next][1..] == ws[1..][w - 1 := next];
      FinishedUpdate(ws[1..], w - 1, next);
    }
  }

  /** Later tasks, and results and releases of earlier ones, change nothing about who is awaited. */
  ghost predicate Extends(tasks: seq<Task>, more: seq<Task>) {
    |tasks| <= |more| && forall id :: 0 <= id < |tasks| ==> more[id].uuid == tasks[id].uuid
  }

  lemma {:induction false} AwaitedExtends(tasks: seq<Task>, more: seq<Task>, ws: seq<Worker>, uuid: string)
    requires Extends(tasks, more)
    requires forall w :: 0 <= w < |ws| && ws[w].Waiting? ==> ws[w].task < |tasks|
    ensures AwaitedBy(more, ws, uuid) == AwaitedBy(tasks, ws, uuid)
  {
    if ws != [] {
      assert ws[0].Waiting? ==> ws[0].task < |tasks|;
      AwaitedExtends(tasks, more, ws[1..], uuid);
    }
  }

  lemma CallsExtend(tasks: seq<Task>, more: seq<Task>, calls: seq<Call>)
    requires CallsOk(tasks, calls) && Extends(tasks, more)
    ensures CallsOk(more, calls)
  {
    hide NoDup;
    forall c | 0 <= c < |calls|
      ensures CallOk(more, calls[c])
    {
      assert CallOk(tasks, calls[c]);
      AwaitedExtends(tasks, more, calls[c].workers, "");
      forall uuid | uuid != ""
        ensures Balanced(more, calls[c], uuid)
      {
        assert Balanced(tasks, calls[c], uuid);
        AwaitedExtends(tasks, more, calls[c].workers, uuid);
      }
    }
  }

  lemma {:induction false} AllReady(tasks: seq<Task>, ws: seq<Worker>, uuid: string)
    requires forall w :: 0 <= w < |ws| ==> ws[w].Ready?
    ensures AwaitedBy(tasks, ws, uuid) == 0 && FinishedCount(ws) == 0
  {
    if ws != [] {
      AllReady(tasks, ws[1..], uuid);
    }
  }

  lemma NewCall(tasks: seq<Task>, reason: Source, uuids: seq<string>)
    requires NoDup(uuids)
    ensures CallOk(tasks, Call(reason, uuids, uuids, seq(WorkerCount(|uuids|), _ => Ready), [], []))
  {
    hide NoDup;
    var c := Call(reason, uuids, uuids, seq(WorkerCount(|uuids|), _ => Ready), [], []);
    AllReady(tasks, c.workers, "");
    forall uuid | uuid != ""
      ensures Balanced(tasks, c, uuid)
    {
      AllReady(tasks, c.workers, uuid);
    }
  }

  lemma QueuePop(queue: seq<string>)
    requires NoDup(queue) && queue != []
    ensures NoDup(queue[1..]) && queue[0] !in queue[1..]
  {
  }

  /** A worker takes the next device and waits for its poll. */
  lemma TakeOk(tasks: seq<Task>, c: Call, w: nat, id: nat)
    requires CallOk(tasks, c) && w < |c.workers| && c.workers[w].Ready? && c.queue != [] && c.queue[0] != ""
    requires id < |tasks| && tasks[id].uuid == c.queue[0]
    ensures CallOk(tasks, c.(queue := c.queue[1..], workers := c.workers[w := Waiting(id)]))
  {
    hide NoDup;
    QueuePop(c.queue);
    FinishedUpdate(c.workers, w, Waiting(id));
    AwaitedUpdate(tasks, c.workers, w, Waiting(id), "");
    var t := c.(queue := c.queue[1..], workers := c.workers[w := Waiting(id)]);
    forall uuid | uuid != ""
      ensures Balanced(tasks, t, uuid)
    {
      assert Balanced(tasks, c, uuid);
      AwaitedUpdate(tasks, c.workers, w, Waiting(id), uuid);
    }
  }

  /** A worker returns: the queue is empty, or the empty uuid is next. */
  lemma ReturnOk(tasks: seq<Task>, c: Call, w: nat)
    requires CallOk(tasks, c) && w < |c.workers| && c.workers[w].Ready?
    requires c.queue == [] || c.queue[0] == ""
    ensures CallOk(tasks, c.(queue := if c.queue == [] then [] else c.queue[1..], workers := c.workers[w := Finished]))
  {
    hide NoDup;
    FinishedUpdate(c.workers, w, Finished);
    AwaitedUpdate(tasks, c.workers, w, Finished, "");
    var t := c.(queue := if c.queue == [] then [] else c.queue[1..], workers := c.workers[w := Finished]);
    forall uuid | uuid != ""
      ensures Balanced(tasks, t, uuid)
    {
      assert Balanced(tasks, c, uuid);
      AwaitedUpdate(tasks, c.workers, w, Finished, uuid);
    }
    if c.queue != [] {
      QueuePop(c.queue);
      assert c.queue[0] in c.queue;
    }
  }

  lemma CollectOk(tasks: seq<Task>, c: Call, w: nat, r: PollResult)
    requires CallOk(tasks, c) && w < |c.workers| && c.workers[w].Waiting?
    requires c.workers[w].task < |tasks| && ResultUuid(r) == tasks[c.workers[w].task].uuid
    ensures CallOk(tasks, Collected(c, w, r))
  {
    hide NoDup;
    FinishedUpdate(c.workers, w, Ready);
    AwaitedUpdate(tasks, c.workers, w, Ready, "");
    OneMoreAnswer(c, w, r, "");
    var t := Collected(c, w, r);
    forall uuid | uuid != ""
      ensures Balanced(tasks, t, uuid)
    {
      assert Balanced(tasks, c, uuid);
      AwaitedUpdate(tasks, c.workers, w, Ready, uuid);
      OneMoreAnswer(c, w, r, uuid);
    }
  }

  lemma OneMoreAnswer(c: Call, w: nat, r: PollResult, uuid: string)
    requires w < |c.workers|
    ensures Answers(Collected(c, w, r), uuid) == Answers(c, uuid) + (if ResultUuid(r) == uuid then 1 else 0)
  {
    match r {
      case Polled(state) => assert (c.states + [state])[..|c.states|] == c.states;
      case PollFailed(error) => assert (c.errors + [error])[..|c.errors|] == c.errors;
    }
  }

  // --------------------------------------------------------------------- all runs

  ghost predicate Inv(s: Server) {
    && CacheOk(s.stateByUuid) && ResultsOk(s.tasks) && CallsOk(s.tasks, s.calls)
  }

  lemma {:induction false} LaunchExtends(s: Server, due: seq<string>, now: int)
    requires ResultsOk(s.tasks)
    ensures ResultsOk(LaunchPolls(s, due, now).tasks) && Extends(s.tasks, LaunchPolls(s, due, now).tasks)
    decreases |due|
  {
    if due != [] && |s.inFlight| < POLL_MAX_CONCURRENCY && due[0] != "" {
      LaunchExtends(StartPoll(s, due[0], Source.Poller, ByTick, now).0, due[1..], now);
    }
  }

  lemma CompleteOk(s: Server, id: nat, candidate: DeviceState, now: int, random: real)
    requires Inv(s) && id < |s.tasks| && candidate.uuid == s.tasks[id].uuid
    ensures Inv(CompletePoll(s, id, candidate, now, random))
  {
    hide CallOk;
    hide CompletePoll;
    hide HasMaterialStateChange;
    PollerSafety.CompleteFrame(s, id, candidate, now, random);
    CallsExtend(s.tasks, CompletePoll(s, id, candidate, now, random).tasks, s.calls);
  }

  lemma TakeStep(s: Server, c: nat, w: nat, now: int)
    requires Inv(s) && PollerSafety.FlightsOk(s.tasks, s.inFlight)
    requires c < |s.calls| && w < |s.calls[c].workers| && s.calls[c].workers[w].Ready?
    ensures Inv(WorkerTakes(s, c, w, now))
  {
    hide CallOk;
    hide PollerSafety.FlightsOk;
    hide StartPoll;
    var call := s.calls[c];
    if call.queue == [] || call.queue[0] == "" {
      ReturnOk(s.tasks, call, w);
    } else {
      PollerSafety.StartFlight(s, call.queue[0], call.reason, ByWorker(c, w), now);
      var (t, id) := StartPoll(s, call.queue[0], call.reason, ByWorker(c, w), now);
      CallsExtend(s.tasks, t.tasks, s.calls);
      TakeOk(t.tasks, call, w, id);
    }
  }

  lemma RequestedNoDup(s: Server, requested: Option<seq<string>>)
    requires s.knownHosts.Valid()
    ensures NoDup(RequestedUuids(s, requested))
  {
  }

  lemma ScanStep(s: Server, now: int)
    requires Inv(s)
    ensures Inv(ScanTick(s, now))
  {
    hide CallOk;
    hide LaunchPolls;
    LaunchExtends(s, Due(s, now), now);
    CallsExtend(s.tasks, LaunchPolls(s, Due(s, now), now).tasks, s.calls);
  }

  lemma BeginStep(s: Server, requested: Option<seq<string>>, reason: Source, now: int)
    requires Inv(s) && s.knownHosts.Valid()
    ensures Inv(BeginPollNow(s, requested, reason, now))
  {
    hide CallOk;
    hide RequestedUuids;
    hide BoostAll;
    RequestedNoDup(s, requested);
    NewCall(s.tasks, reason, RequestedUuids(s, requested));
  }

  lemma CollectStep(s: Server, c: nat, w: nat)
    requires Inv(s) && Enabled(s, WorkerCollect(c, w))
    ensures Inv(s.(calls := s.calls[c := Collected(s.calls[c], w, s.tasks[s.calls[c].workers[w].task].result.value)]))
  {
    hide CallOk;
    hide Collected;
    CollectOk(s.tasks, s.calls[c], w, s.tasks[s.calls[c].workers[w].task].result.value);
  }

  lemma ReleaseStep(s: Server, id: nat)
    requires Inv(s) && id < |s.tasks|
    ensures Inv(ReleasePoll(s, id))
  {
    hide CallOk;
    CallsExtend(s.tasks, ReleasePoll(s, id).tasks, s.calls);
  }

  lemma SameBooks(s: Server, t: Server)
    requires Inv(s) && t.stateByUuid == s.stateByUuid && t.tasks == s.tasks && t.calls == s.calls
    ensures Inv(t)
  {
    hide CallOk;
  }

  lemma PollNowStep(js: Js, s: Server, step: Step)
    requires Inv(s) && PollerSafety.SafetyInv(s) && Enabled(s, step)
    ensures Inv(Next(js, s, step))
  {
    SafetyParts(s);
    hide Inv;
    hide PollerSafety.FlightsOk;
    hide PollerSafety.SafetyInv;
    match step {
      case TickScans(now) => ScanStep(s, now);
      case PollNowBegins(now, requested, reason) => BeginStep(s, requested, reason, now);
      case WorkerTake(now, c, w) => TakeStep(s, c, w, now);
      case WorkerCollect(c, w) => CollectStep(s, c, w);
      case PollCompletes(now, id, attempt, random) =>
        CandidateUuid(js, s, s.tasks[id], attempt, now);
        CompleteOk(s, id, Candidate(js, s, s.tasks[id], attempt, now), now, random);
      case PollReleases(id) => ReleaseStep(s, id);
      case _ =>
        OtherSteps(js, s, step);
        SameBooks(s, Next(js, s, step));
    }
  }

  lemma CandidateUuid(js: Js, s: Server, t: Task, attempt: Attempt, now: int)
    ensures Candidate(js, s, t, attempt, now).uuid == t.uuid
  {
  }

  lemma SafetyParts(s: Server)
    requires PollerSafety.SafetyInv(s)
    ensures PollerSafety.FlightsOk(s.tasks, s.inFlight) && s.knownHosts.Valid()
  {
  }

  lemma OtherSteps(js: Js, s: Server, step: Step)
    requires Enabled(s, step) && !PollerSafety.StartsOrEndsPolls(step)
    ensures var t := Next(js, s, step); t.stateByUuid == s.stateByUuid && t.tasks == s.tasks && t.calls == s.calls
  {
    hide AddHosts;
    hide Greeting;
    if step.TelemetryCompletes? {
      PollerSafety.TelemetryFrame(s, step.task, step.reading, step.now);
      hide CompleteTelemetry;
    }
  }

  lemma {:induction false} Kept(js: Js, steps: seq<Step>)
    requires Run(js, Init(), steps)
    ensures Inv(After(js, Init(), steps))
    decreases |steps|
  {
    hide Next;
    hide Enabled;
    hide Inv;
    hide PollerSafety.SafetyInv;
    if steps == [] {
      StartOk();
    } else {
      Kept(js, steps[..|steps| - 1]);
      PollerSafety.SafetyKept(js, steps[..|steps| - 1]);
      PollNowStep(js, After(js, Init(), steps[..|steps| - 1]), steps[|steps| - 1]);
    }
  }

  lemma StartOk()
    ensures Inv(Init())
  {
  }

  /** When all workers of a call have returned, each requested device other than the empty uuid appears exactly once
      across its states and errors, and nothing else appears: for every interleaving of the workers and of all other
      polls they may have joined. */
  lemma {:induction false} AnswersEachOnce(js: Js, steps: seq<Step>, c: nat, uuid: string)
    requires Run(js, Init(), steps) && c < |After(js, Init(), steps).calls|
    requires var call := After(js, Init(), steps).calls[c]; forall w :: 0 <= w < |call.workers| ==> call.workers[w].Finished?
    ensures Answers(After(js, Init(), steps).calls[c], uuid)
         == if uuid in After(js, Init(), steps).calls[c].requested && uuid != "" then 1 else 0
  {
    hide Run;
    hide After;
    hide CallOk;
    hide Init;
    Kept(js, steps);
    var s := After(js, Init(), steps);
    DoneCall(s.tasks, s.calls[c], uuid);
  }

  lemma {:induction false} AllFinished(tasks: seq<Task>, ws: seq<Worker>, uuid: string)
    requires forall w :: 0 <= w < |ws| ==> ws[w].Finished?
    ensures AwaitedBy(tasks, ws, uuid) == 0 && FinishedCount(ws) == |ws|
  {
    if ws != [] {
      AllFinished(tasks, ws[1..], uuid);
    }
  }

  lemma {:induction false} OccursOnce(uuids: seq<string>, uuid: string)
    requires NoDup(uuids)
    ensures Occurrences(uuids, uuid) == if uuid in uuids then 1 else 0
  {
    if uuids != [] {
      assert uuids == [uuids[0]] + uuids[1..];
      OccursOnce(uuids[1..], uuid);
    }
  }

  lemma DoneCall(tasks: seq<Task>, call: Call, uuid: string)
    requires CallOk(tasks, call) && forall w :: 0 <= w < |call.workers| ==> call.workers[w].Finished?
    ensures Answers(call, uuid) == if uuid in call.requested && uuid != "" then 1 else 0
  {
    hide NoDup;
    AllFinished(tasks, call.workers, uuid);
    OccursOnce(call.requested, uuid);
    assert call.queue == [];
    if uuid != "" {
      assert Balanced(tasks, call, uuid);
    }
  }
}
