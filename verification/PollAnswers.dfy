/** What `pollNow` answers: for each poll its workers awaited, what the device replied to that very poll. */
module PollAnswers {
  import opened Prelude
  import opened Devices
  import opened Json
  import opened Poller
  import opened PollOutcomes
  import PollerSafety
  import PollNow

  // ------------------------------------------------------------------- one poll

  /** How a poll ended. */
  datatype Completion = Completion(attempt: Attempt, now: int)

  /** The result of a poll that ended so. */
  ghost predicate Tells(js: Js, t: Task, d: Completion, r: PollResult) {
    if Usable(js, d.attempt) then
      r.Polled? && r.state.uuid == t.uuid && r.state.source == t.reason && !r.state.stale && r.state.error == None
      && ShowsReply(js, r.state, d.attempt.host, d.attempt.resp)
    else
      var text := FailureText(d.attempt);
      r == PollFailed(PollError(t.uuid, PollCode(text), text, d.now))
  }

  lemma CompleteEffect(js: Js, s: Server, step: Step)
    requires Enabled(s, step) && step.PollCompletes?
    ensures var t := Next(js, s, step); var task := s.tasks[step.task]; var prev := s.stateByUuid.Get(task.uuid);
      var c := Candidate(js, s, task, step.attempt, step.now);
      && t.calls == s.calls
      && t.tasks == s.tasks[step.task := task.(result := Some(ResultOf(prev, c, step.now)))]
      && t.stateByUuid == s.stateByUuid.Set(task.uuid, StoredAfter(prev, c))
  {
    hide Candidate;
    hide StoredAfter;
    hide ResultOf;
    hide CompletePoll;
    PollerSafety.CompleteFrame(s, step.task, Candidate(js, s, s.tasks[step.task], step.attempt, step.now), step.now, step.random);
  }

  /** A poll that completes with a usable reply answers with what is then cached of the device; any other answers with
      the device, the code and the text of its failure, and the time. */
  lemma AnswerOfCompletion(js: Js, s: Server, step: Step)
    requires Enabled(s, step) && step.PollCompletes?
    ensures var t := Next(js, s, step); var uuid := s.tasks[step.task].uuid;
      && step.task < |t.tasks|
      && if Usable(js, step.attempt) then
           uuid in t.stateByUuid.at && t.tasks[step.task].result == Some(Polled(t.stateByUuid.at[uuid]))
         else
           var text := FailureText(step.attempt);
           t.tasks[step.task].result == Some(PollFailed(PollError(uuid, PollCode(text), text, step.now)))
  {
    hide Candidate;
    hide Next;
    hide PollCode;
    hide HasMaterialStateChange;
    hide StoredAfter;
    hide Usable;
    hide ShowsReply;
    hide ShowsNothing;
    CompleteEffect(js, s, step);
    if Usable(js, step.attempt) {
      UsableOutcome(js, s, s.tasks[step.task], step.attempt, step.now);
    } else {
      FailedOutcome(js, s, s.tasks[step.task], step.attempt, step.now);
    }
  }

  // ------------------------------------------------------------------- all polls

  /** How each poll of a run ended, if it did. */
  function Completions(steps: seq<Step>): map<nat, Completion> {
    if steps == [] then map[]
    else
      var before := Completions(steps[..|steps| - 1]);
      match steps[|steps| - 1]
      case PollCompletes(now, id, attempt, _) => before[id := Completion(attempt, now)]
      case _ => before
  }

  ghost predicate AllTold(js: Js, tasks: seq<Task>, done: map<nat, Completion>) {
    && (forall id :: id in done ==> id < |tasks| && tasks[id].result.Some?)
    && (forall id :: 0 <= id < |tasks| && tasks[id].result.Some? ==>
          id in done && Tells(js, tasks[id], done[id], tasks[id].result.value))
  }

  /** A poll asks for its owner's reason. */
  ghost predicate ReasonOk(t: Task, calls: seq<Call>) {
    match t.owner
    case ByTick => t.reason == Source.Poller
    case ByWorker(c, _) => c < |calls| && t.reason == calls[c].reason
  }

  ghost predicate ReasonsOk(tasks: seq<Task>, calls: seq<Call>) {
    forall id :: 0 <= id < |tasks| ==> ReasonOk(tasks[id], calls)
  }

  /** Later tasks are new polls without a result; earlier ones keep what they are about and what they came to. */
  ghost predicate TasksGrow(tasks: seq<Task>, more: seq<Task>) {
    && |tasks| <= |more|
    && (forall id :: 0 <= id < |tasks| ==>
          more[id].uuid == tasks[id].uuid && more[id].reason == tasks[id].reason && more[id].owner == tasks[id].owner
          && more[id].result == tasks[id].result)
    && (forall id :: |tasks| <= id < |more| ==> more[id].result.None?)
  }

  /** Later calls are new and have no answers yet; earlier ones keep theirs. */
  ghost predicate CallsGrow(calls: seq<Call>, more: seq<Call>) {
    && |calls| <= |more|
    && (forall c :: 0 <= c < |calls| ==>
          more[c].reason == calls[c].reason && more[c].requested == calls[c].requested
          && more[c].states == calls[c].states && more[c].errors == calls[c].errors)
    && (forall c :: |calls| <= c < |more| ==> more[c].states == [] && more[c].errors == [])
  }

  lemma {:induction false} LaunchGrows(s: Server, due: seq<string>, now: int, calls: seq<Call>)
    requires ReasonsOk(s.tasks, calls)
    ensures TasksGrow(s.tasks, LaunchPolls(s, due, now).tasks) && ReasonsOk(LaunchPolls(s, due, now).tasks, calls)
    decreases |due|
  {
    if due != [] && |s.inFlight| < POLL_MAX_CONCURRENCY && due[0] != "" {
      LaunchGrows(StartPoll(s, due[0], Source.Poller, ByTick, now).0, due[1..], now, calls);
    }
  }

  lemma ScanGrows(s: Server, now: int)
    requires ReasonsOk(s.tasks, s.calls)
    ensures var t := ScanTick(s, now); TasksGrow(s.tasks, t.tasks) && t.calls == s.calls && ReasonsOk(t.tasks, t.calls)
  {
    hide LaunchPolls;
    hide LaunchTelemetry;
    hide Due;
    hide DueTelemetry;
    hide TasksGrow;
    hide ReasonsOk;
    LaunchGrows(s, Due(s, now), now, s.calls);
  }

  lemma StartGrows(s: Server, uuid: string, reason: Source, owner: Owner, now: int)
    ensures var t := StartPoll(s, uuid, reason, owner, now).0;
      t.tasks == s.tasks || t.tasks == s.tasks + [Task(uuid, now, reason, owner, None, false)]
  {
  }

  lemma UpdateGrows(calls: seq<Call>, c: nat, call: Call)
    requires c < |calls| && call.reason == calls[c].reason && call.requested == calls[c].requested
    requires call.states == calls[c].states && call.errors == calls[c].errors
    ensures CallsGrow(calls, calls[c := call])
  {
  }

  lemma ReasonsGrow(tasks: seq<Task>, calls: seq<Call>, more: seq<Call>)
    requires ReasonsOk(tasks, calls) && CallsGrow(calls, more)
    ensures ReasonsOk(tasks, more)
  {
    forall id | 0 <= id < |tasks|
      ensures ReasonOk(tasks[id], more)
    {
      assert ReasonOk(tasks[id], calls);
    }
  }

  lemma TakeGrows(s: Server, c: nat, w: nat, now: int)
    requires ReasonsOk(s.tasks, s.calls) && c < |s.calls| && w < |s.calls[c].workers|
    ensures var t := WorkerTakes(s, c, w, now);
      TasksGrow(s.tasks, t.tasks) && CallsGrow(s.calls, t.calls) && ReasonsOk(t.tasks, t.calls)
  {
    hide StartPoll;
    hide CallsGrow;
    hide ReasonsOk;
    var t := WorkerTakes(s, c, w, now);
    UpdateGrows(s.calls, c, t.calls[c]);
    ReasonsGrow(s.tasks, s.calls, t.calls);
    if s.calls[c].queue != [] && s.calls[c].queue[0] != "" {
      StartGrows(s, s.calls[c].queue[0], s.calls[c].reason, ByWorker(c, w), now);
      OneMoreTask(s.tasks, t.calls, Task(s.calls[c].queue[0], now, s.calls[c].reason, ByWorker(c, w), None, false));
    }
  }

  lemma OneMoreTask(tasks: seq<Task>, calls: seq<Call>, t: Task)
    requires ReasonsOk(tasks, calls) && ReasonOk(t, calls)
    ensures ReasonsOk(tasks + [t], calls)
  {
  }

  lemma BeginGrows(s: Server, requested: Option<seq<string>>, reason: Source, now: int)
    requires ReasonsOk(s.tasks, s.calls)
    ensures var t := BeginPollNow(s, requested, reason, now);
      t.tasks == s.tasks && CallsGrow(s.calls, t.calls) && ReasonsOk(t.tasks, t.calls)
  {
    hide RequestedUuids;
  }

  lemma NothingGrows(s: Server, t: Server)
    requires ReasonsOk(s.tasks, s.calls) && t.tasks == s.tasks && t.calls == s.calls
    ensures TasksGrow(s.tasks, t.tasks) && CallsGrow(s.calls, t.calls) && ReasonsOk(t.tasks, t.calls)
  {
  }

  lemma ReleaseGrows(s: Server, id: nat)
    requires ReasonsOk(s.tasks, s.calls) && id < |s.tasks|
    ensures var t := ReleasePoll(s, id);
      TasksGrow(s.tasks, t.tasks) && t.calls == s.calls && ReasonsOk(t.tasks, t.calls)
  {
  }

  lemma SameCalls(calls: seq<Call>)
    ensures CallsGrow(calls, calls)
  {
  }

  /** What the steps that bring no result do to polls and calls. */
  lemma QuietStep(js: Js, s: Server, step: Step)
    requires Enabled(s, step) && !step.PollCompletes? && !step.WorkerCollect? && ReasonsOk(s.tasks, s.calls)
    ensures var t := Next(js, s, step);
      TasksGrow(s.tasks, t.tasks) && CallsGrow(s.calls, t.calls) && ReasonsOk(t.tasks, t.calls)
  {
    hide TasksGrow;
    hide CallsGrow;
    hide ReasonsOk;
    if PollerSafety.StartsOrEndsPolls(step) {
      match step {
        case TickScans(now) =>
          ScanGrows(s, now);
          SameCalls(s.calls);
        case PollNowBegins(now, requested, reason) =>
          BeginGrows(s, requested, reason, now);
          NothingGrows(s, s);
        case WorkerTake(now, c, w) => TakeGrows(s, c, w, now);
        case PollReleases(id) =>
          ReleaseGrows(s, id);
          SameCalls(s.calls);
      }
    } else {
      PollerSafety.SameFlights(js, s, step);
      NothingGrows(s, Next(js, s, step));
    }
  }

  lemma UsableRemembered(js: Js, c: DeviceState, t: Task, reports: seq<Report>, d: Completion)
    requires Usable(js, d.attempt) && Remembers(js, Some(c), t.uuid, reports + [Report(t.reason, d.attempt)])
    ensures Tells(js, t, d, Polled(c))
  {
    hide Usable;
    hide ShowsReply;
    hide ShowsNothing;
    hide LastReply;
    hide FirstFailure;
    LastsAppend(js, reports, Report(t.reason, d.attempt));
  }

  /** The poll that completes last in a run. */
  lemma CompletionTells(js: Js, steps: seq<Step>)
    requires steps != [] && Run(js, Init(), steps) && steps[|steps| - 1].PollCompletes?
    ensures var s, step, t := After(js, Init(), steps[..|steps| - 1]), steps[|steps| - 1], After(js, Init(), steps);
      && step.task < |s.tasks| && step.task < |t.tasks| && t.tasks[step.task].result.Some?
      && Tells(js, s.tasks[step.task], Completion(step.attempt, step.now), t.tasks[step.task].result.value)
  {
    hide Next;
    hide Usable;
    hide Remembers;
    hide FailureText;
    hide ShowsReply;
    hide PollCode;
    var n := |steps| - 1;
    var s, step := After(js, Init(), steps[..n]), steps[n];
    assert Enabled(s, step);
    var uuid := s.tasks[step.task].uuid;
    CacheShowsLastReply(js, steps, uuid);
    AnswerOfCompletion(js, s, step);
    var d := Completion(step.attempt, step.now);
    assert Reports(js, steps, uuid) == Reports(js, steps[..n], uuid) + [Report(s.tasks[step.task].reason, step.attempt)];
    if Usable(js, step.attempt) {
      UsableRemembered(js, After(js, Init(), steps).stateByUuid.at[uuid], s.tasks[step.task], Reports(js, steps[..n], uuid), d);
    }
  }

  lemma ToldMore(js: Js, tasks: seq<Task>, done: map<nat, Completion>, id: nat, d: Completion, r: PollResult)
    requires AllTold(js, tasks, done) && id < |tasks| && Tells(js, tasks[id], d, r)
    ensures AllTold(js, tasks[id := tasks[id].(result := Some(r))], done[id := d])
  {
    hide Usable;
    hide ShowsReply;
    hide FailureText;
    hide PollCode;
  }

  lemma ToldGrows(js: Js, tasks: seq<Task>, more: seq<Task>, done: map<nat, Completion>)
    requires AllTold(js, tasks, done) && TasksGrow(tasks, more)
    ensures AllTold(js, more, done)
  {
    hide Usable;
    hide ShowsReply;
    hide FailureText;
    hide PollCode;
  }

  lemma {:induction false} AllToldKept(js: Js, steps: seq<Step>)
    requires Run(js, Init(), steps)
    ensures var s := After(js, Init(), steps); AllTold(js, s.tasks, Completions(steps)) && ReasonsOk(s.tasks, s.calls)
    decreases |steps|
  {
    hide Next;
    hide Enabled;
    hide AllTold;
    hide ReasonsOk;
    hide Init;
    if steps == [] {
      NothingTold(js);
    } else {
      var n := |steps| - 1;
      AllToldKept(js, steps[..n]);
      AllToldStep(js, steps);
    }
  }

  lemma NothingTold(js: Js)
    ensures AllTold(js, Init().tasks, map[]) && ReasonsOk(Init().tasks, Init().calls)
  {
  }

  lemma AllToldStep(js: Js, steps: seq<Step>)
    requires steps != [] && Run(js, Init(), steps)
    requires var n := |steps| - 1; var s := After(js, Init(), steps[..n]);
      AllTold(js, s.tasks, Completions(steps[..n])) && ReasonsOk(s.tasks, s.calls)
    ensures var s := After(js, Init(), steps); AllTold(js, s.tasks, Completions(steps)) && ReasonsOk(s.tasks, s.calls)
  {
    hide Next;
    hide AllTold;
    hide ReasonsOk;
    hide Init;
    var n := |steps| - 1;
    var s, step := After(js, Init(), steps[..n]), steps[n];
    if step.PollCompletes? {
      CompletionTells(js, steps);
      CompleteEffect(js, s, step);
      hide Enabled;
      var t := After(js, Init(), steps);
      ToldMore(js, s.tasks, Completions(steps[..n]), step.task, Completion(step.attempt, step.now), t.tasks[step.task].result.value);
      SameReasons(s.tasks, t.tasks, s.calls, t.calls);
    } else if step.WorkerCollect? {
      CollectEffect(js, s, step);
      var t := After(js, Init(), steps);
      SameReasons(s.tasks, t.tasks, s.calls, t.calls);
    } else {
      QuietStep(js, s, step);
      ToldGrows(js, s.tasks, After(js, Init(), steps).tasks, Completions(steps[..n]));
    }
  }

  lemma SameReasons(tasks: seq<Task>, more: seq<Task>, calls: seq<Call>, after: seq<Call>)
    requires ReasonsOk(tasks, calls) && |more| == |tasks| && |after| == |calls|
    requires forall id :: 0 <= id < |tasks| ==> more[id].reason == tasks[id].reason && more[id].owner == tasks[id].owner
    requires forall c :: 0 <= c < |calls| ==> after[c].reason == calls[c].reason
    ensures ReasonsOk(more, after)
  {
    forall id | 0 <= id < |more|
      ensures ReasonOk(more[id], after)
    {
      assert ReasonOk(tasks[id], calls);
    }
  }

  /** A worker collects the result of the poll it awaited. */
  lemma CollectEffect(js: Js, s: Server, step: Step)
    requires Enabled(s, step) && step.WorkerCollect?
    ensures var t := Next(js, s, step); var call := s.calls[step.call]; var r := s.tasks[call.workers[step.worker].task].result.value;
      && t.tasks == s.tasks && |t.calls| == |s.calls|
      && (forall c :: 0 <= c < |s.calls| && c != step.call ==> t.calls[c] == s.calls[c])
      && t.calls[step.call].reason == call.reason && t.calls[step.call].requested == call.requested
      && t.calls[step.call].states == call.states + (if r.Polled? then [r.state] else [])
      && t.calls[step.call].errors == call.errors + (if r.PollFailed? then [r.error] else [])
  {
  }

  // ------------------------------------------------------------------- all calls

  /** The polls whose results the workers of a call collected, in order: each the one its worker awaited. */
  ghost function Awaited(js: Js, steps: seq<Step>, c: nat): seq<nat>
    requires Run(js, Init(), steps)
    decreases |steps|
  {
    if steps == [] then []
    else
      var n := |steps| - 1;
      Awaited(js, steps[..n], c) + AwaitedIn(After(js, Init(), steps[..n]), steps[n], c)
  }

  function AwaitedIn(s: Server, step: Step, c: nat): seq<nat>
    requires Enabled(s, step)
  {
    if step.WorkerCollect? && step.call == c then [s.calls[c].workers[step.worker].task] else []
  }

  predicate Ended(tasks: seq<Task>, id: nat) { id < |tasks| && tasks[id].result.Some? }

  /** The states, and the errors, that these polls came to. */
  function StatesOf(tasks: seq<Task>, ids: seq<nat>): seq<DeviceState> {
    if ids == [] then []
    else
      var n := |ids| - 1;
      StatesOf(tasks, ids[..n])
      + if Ended(tasks, ids[n]) && tasks[ids[n]].result.value.Polled? then [tasks[ids[n]].result.value.state] else []
  }

  function ErrorsOf(tasks: seq<Task>, ids: seq<nat>): seq<PollError> {
    if ids == [] then []
    else
      var n := |ids| - 1;
      ErrorsOf(tasks, ids[..n])
      + if Ended(tasks, ids[n]) && tasks[ids[n]].result.value.PollFailed? then [tasks[ids[n]].result.value.error] else []
  }

  ghost predicate CallTold(tasks: seq<Task>, calls: seq<Call>, c: nat, ids: seq<nat>) {
    if c < |calls| then
      && (forall id :: id in ids ==> Ended(tasks, id))
      && calls[c].states == StatesOf(tasks, ids) && calls[c].errors == ErrorsOf(tasks, ids)
    else ids == []
  }

  lemma {:induction false} SameAnswers(tasks: seq<Task>, more: seq<Task>, ids: seq<nat>)
    requires forall id :: id in ids ==> Ended(tasks, id) && Ended(more, id) && more[id].result == tasks[id].result
    ensures StatesOf(more, ids) == StatesOf(tasks, ids) && ErrorsOf(more, ids) == ErrorsOf(tasks, ids)
  {
    if ids != [] {
      var n := |ids| - 1;
      assert ids == ids[..n] + [ids[n]];
      SameAnswers(tasks, more, ids[..n]);
    }
  }

  lemma AnswersAppend(tasks: seq<Task>, ids: seq<nat>, id: nat)
    requires Ended(tasks, id)
    ensures var r := tasks[id].result.value;
      && StatesOf(tasks, ids + [id]) == StatesOf(tasks, ids) + (if r.Polled? then [r.state] else [])
      && ErrorsOf(tasks, ids + [id]) == ErrorsOf(tasks, ids) + (if r.PollFailed? then [r.error] else [])
  {
    assert (ids + [id])[..|ids|] == ids;
  }

  lemma ToldFrame(tasks: seq<Task>, more: seq<Task>, calls: seq<Call>, after: seq<Call>, c: nat, ids: seq<nat>)
    requires CallTold(tasks, calls, c, ids) && CallsGrow(calls, after)
    requires forall id: nat :: Ended(tasks, id) ==> Ended(more, id) && more[id].result == tasks[id].result
    ensures CallTold(more, after, c, ids)
  {
    hide StatesOf;
    hide ErrorsOf;
    hide Ended;
    if c < |calls| {
      SameAnswers(tasks, more, ids);
    } else {
      NoAnswers(more);
    }
  }

  lemma NoAnswers(tasks: seq<Task>)
    ensures StatesOf(tasks, []) == [] && ErrorsOf(tasks, []) == []
  {
  }

  lemma CallCollects(js: Js, s: Server, step: Step, c: nat, ids: seq<nat>)
    requires Enabled(s, step) && step.WorkerCollect? && CallTold(s.tasks, s.calls, c, ids)
    ensures var t := Next(js, s, step); CallTold(t.tasks, t.calls, c, ids + AwaitedIn(s, step, c))
  {
    hide Next;
    hide StatesOf;
    hide ErrorsOf;
    CollectEffect(js, s, step);
    assert ids + [] == ids;
    if step.call == c {
      AnswersAppend(s.tasks, ids, s.calls[c].workers[step.worker].task);
    }
  }

  lemma CallWaits(js: Js, s: Server, step: Step, c: nat, ids: seq<nat>)
    requires Enabled(s, step) && step.PollCompletes? && CallTold(s.tasks, s.calls, c, ids)
    ensures var t := Next(js, s, step); CallTold(t.tasks, t.calls, c, ids)
  {
    hide Next;
    hide CallTold;
    hide CallsGrow;
    hide Candidate;
    hide ResultOf;
    hide StoredAfter;
    CompleteEffect(js, s, step);
    SameCalls(s.calls);
    ToldFrame(s.tasks, Next(js, s, step).tasks, s.calls, s.calls, c, ids);
  }

  lemma CallIdles(js: Js, s: Server, step: Step, c: nat, ids: seq<nat>)
    requires Enabled(s, step) && !step.PollCompletes? && !step.WorkerCollect?
    requires CallTold(s.tasks, s.calls, c, ids) && ReasonsOk(s.tasks, s.calls)
    ensures var t := Next(js, s, step); CallTold(t.tasks, t.calls, c, ids)
  {
    hide Next;
    hide Enabled;
    hide CallTold;
    hide CallsGrow;
    hide ReasonsOk;
    QuietStep(js, s, step);
    ToldFrame(s.tasks, Next(js, s, step).tasks, s.calls, Next(js, s, step).calls, c, ids);
  }

  lemma CallStep(js: Js, s: Server, step: Step, c: nat, ids: seq<nat>)
    requires Enabled(s, step) && CallTold(s.tasks, s.calls, c, ids) && ReasonsOk(s.tasks, s.calls)
    ensures var t := Next(js, s, step); CallTold(t.tasks, t.calls, c, ids + AwaitedIn(s, step, c))
  {
    hide Next;
    hide Enabled;
    hide CallTold;
    hide ReasonsOk;
    assert ids + [] == ids;
    if step.PollCompletes? {
      CallWaits(js, s, step, c, ids);
    } else if step.WorkerCollect? {
      CallCollects(js, s, step, c, ids);
    } else {
      CallIdles(js, s, step, c, ids);
    }
  }

  lemma NoCallYet(c: nat)
    ensures CallTold(Init().tasks, Init().calls, c, [])
  {
  }

  lemma {:induction false} CallsToldKept(js: Js, steps: seq<Step>, c: nat)
    requires Run(js, Init(), steps)
    ensures var s := After(js, Init(), steps); CallTold(s.tasks, s.calls, c, Awaited(js, steps, c))
    decreases |steps|
  {
    hide Next;
    hide Enabled;
    hide CallTold;
    hide AwaitedIn;
    hide Init;
    hide AllTold;
    hide ReasonsOk;
    if steps == [] {
      NoCallYet(c);
    } else {
      var n := |steps| - 1;
      CallsToldKept(js, steps[..n], c);
      AllToldKept(js, steps[..n]);
      CallStep(js, After(js, Init(), steps[..n]), steps[n], c, Awaited(js, steps[..n], c));
    }
  }

  lemma {:induction false} StatesFrom(tasks: seq<Task>, ids: seq<nat>)
    ensures forall x :: x in StatesOf(tasks, ids) <==>
      exists id :: id in ids && Ended(tasks, id) && tasks[id].result.value == Polled(x)
    ensures forall e :: e in ErrorsOf(tasks, ids) <==>
      exists id :: id in ids && Ended(tasks, id) && tasks[id].result.value == PollFailed(e)
  {
    if ids != [] {
      var n := |ids| - 1;
      assert ids == ids[..n] + [ids[n]];
      StatesFrom(tasks, ids[..n]);
    }
  }

  ghost predicate Gathered(call: Call, r: PollResult) {
    match r case Polled(x) => x in call.states case PollFailed(e) => e in call.errors
  }

  /** At any moment, what a call has gathered is what the polls its workers awaited came to: each state is fresh and
      shows the reply to one of them, each error is the failure of one of them, and none of them is left out. */
  lemma {:induction false} AnswersAreTheirPolls(js: Js, steps: seq<Step>, c: nat)
    requires Run(js, Init(), steps) && c < |After(js, Init(), steps).calls|
    ensures var s, done, ids := After(js, Init(), steps), Completions(steps), Awaited(js, steps, c);
      && (forall x :: x in s.calls[c].states ==>
            exists id: nat :: id in ids && id < |s.tasks| && id in done && Tells(js, s.tasks[id], done[id], Polled(x)))
      && (forall e :: e in s.calls[c].errors ==>
            exists id: nat :: id in ids && id < |s.tasks| && id in done && Tells(js, s.tasks[id], done[id], PollFailed(e)))
      && (forall id: nat :: id in ids ==> Ended(s.tasks, id) && Gathered(s.calls[c], s.tasks[id].result.value))
  {
    CallsToldKept(js, steps, c);
    AllToldKept(js, steps);
    var s := After(js, Init(), steps);
    GatheredAnswers(js, s.tasks, Completions(steps), s.calls, c, Awaited(js, steps, c));
    hide *;
  }

  lemma GatheredAnswers(js: Js, tasks: seq<Task>, done: map<nat, Completion>, calls: seq<Call>, c: nat, ids: seq<nat>)
    requires AllTold(js, tasks, done) && c < |calls| && CallTold(tasks, calls, c, ids)
    ensures forall x :: x in calls[c].states ==>
      exists id: nat :: id in ids && id < |tasks| && id in done && Tells(js, tasks[id], done[id], Polled(x))
    ensures forall e :: e in calls[c].errors ==>
      exists id: nat :: id in ids && id < |tasks| && id in done && Tells(js, tasks[id], done[id], PollFailed(e))
    ensures forall id: nat :: id in ids ==> Ended(tasks, id) && Gathered(calls[c], tasks[id].result.value)
  {
    hide Tells;
    hide StatesOf;
    hide ErrorsOf;
    StatesFrom(tasks, ids);
    forall x | x in calls[c].states
      ensures exists id: nat :: id in ids && id < |tasks| && id in done && Tells(js, tasks[id], done[id], Polled(x))
    {
      var id: nat :| id in ids && Ended(tasks, id) && tasks[id].result.value == Polled(x);
      assert Tells(js, tasks[id], done[id], Polled(x));
    }
    forall e | e in calls[c].errors
      ensures exists id: nat :: id in ids && id < |tasks| && id in done && Tells(js, tasks[id], done[id], PollFailed(e))
    {
      var id: nat :| id in ids && Ended(tasks, id) && tasks[id].result.value == PollFailed(e);
      assert Tells(js, tasks[id], done[id], PollFailed(e));
    }
  }

  lemma {:induction false} CountedStates(states: seq<DeviceState>, uuid: string)
    ensures PollNow.StatesFor(states, uuid) > 0 <==> exists x :: x in states && x.uuid == uuid
  {
    if states != [] {
      assert states == states[..|states| - 1] + [states[|states| - 1]];
      CountedStates(states[..|states| - 1], uuid);
    }
  }

  lemma {:induction false} CountedErrors(errors: seq<PollError>, uuid: string)
    ensures PollNow.ErrorsFor(errors, uuid) > 0 <==> exists e :: e in errors && e.uuid == uuid
  {
    if errors != [] {
      assert errors == errors[..|errors| - 1] + [errors[|errors| - 1]];
      CountedErrors(errors[..|errors| - 1], uuid);
    }
  }

  /** The single answer that a call gives for a device: a state or an error, and not both. */
  ghost predicate OneAnswer(call: Call, uuid: string, r: PollResult) {
    && Gathered(call, r) && PollNow.ResultUuid(r) == uuid
    && PollNow.StatesFor(call.states, uuid) == (if r.Polled? then 1 else 0)
    && PollNow.ErrorsFor(call.errors, uuid) == (if r.Polled? then 0 else 1)
  }

  /** When all workers of a call have returned, it has for each requested device exactly one answer, a state or an
      error, which is what a poll of that device came to that a worker of the call awaited: the reply to that poll, or
      its failure. */
  lemma {:induction false} EachDeviceIsTold(js: Js, steps: seq<Step>, c: nat, uuid: string)
    requires Run(js, Init(), steps) && c < |After(js, Init(), steps).calls|
    requires var call := After(js, Init(), steps).calls[c];
      (forall w :: 0 <= w < |call.workers| ==> call.workers[w].Finished?) && uuid in call.requested && uuid != ""
    ensures var s, done := After(js, Init(), steps), Completions(steps);
      exists id: nat, r :: id in Awaited(js, steps, c) && id < |s.tasks| && id in done && s.tasks[id].uuid == uuid
                           && Tells(js, s.tasks[id], done[id], r) && OneAnswer(s.calls[c], uuid, r)
  {
    hide Run;
    hide Init;
    hide After;
    hide Awaited;
    hide Completions;
    PollNow.AnswersEachOnce(js, steps, c, uuid);
    AnswersAreTheirPolls(js, steps, c);
    var s := After(js, Init(), steps);
    OneIsTold(js, s.tasks, Completions(steps), s.calls[c], uuid, Awaited(js, steps, c));
  }

  lemma OneIsTold(js: Js, tasks: seq<Task>, done: map<nat, Completion>, call: Call, uuid: string, ids: seq<nat>)
    requires PollNow.Answers(call, uuid) == 1
    requires forall x :: x in call.states ==>
      exists id: nat :: id in ids && id < |tasks| && id in done && Tells(js, tasks[id], done[id], Polled(x))
    requires forall e :: e in call.errors ==>
      exists id: nat :: id in ids && id < |tasks| && id in done && Tells(js, tasks[id], done[id], PollFailed(e))
    ensures exists id: nat, r :: id in ids && id < |tasks| && id in done && tasks[id].uuid == uuid
                                 && Tells(js, tasks[id], done[id], r) && OneAnswer(call, uuid, r)
  {
    hide Usable;
    hide ShowsReply;
    hide FailureText;
    hide PollCode;
    hide PollNow.StatesFor;
    hide PollNow.ErrorsFor;
    CountedStates(call.states, uuid);
    CountedErrors(call.errors, uuid);
    if PollNow.StatesFor(call.states, uuid) > 0 {
      var x :| x in call.states && x.uuid == uuid;
      var id: nat :| id in ids && id < |tasks| && id in done && Tells(js, tasks[id], done[id], Polled(x));
      assert Tells(js, tasks[id], done[id], Polled(x)) && OneAnswer(call, uuid, Polled(x));
    } else {
      var e :| e in call.errors && e.uuid == uuid;
      var id: nat :| id in ids && id < |tasks| && id in done && Tells(js, tasks[id], done[id], PollFailed(e));
      assert Tells(js, tasks[id], done[id], PollFailed(e)) && OneAnswer(call, uuid, PollFailed(e));
    }
  }
}
