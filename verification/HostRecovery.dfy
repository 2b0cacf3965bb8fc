/** When a lost device's host is looked for again, what a recovery that found it changes, and where every known host
    comes from. */
module HostRecovery {
  import opened Prelude
  import opened Devices
  import opened Json
  import opened Timing
  import opened Poller
  import opened PollOutcomes
  import PollerSafety

  // ---------------------------------------------------------------- end of a recovery

  ghost predicate SameBut<V>(a: JsMap<V>, b: JsMap<V>, uuid: string) {
    forall u :: u != uuid ==> a.Get(u) == b.Get(u)
  }

  /** A recovery that ends with a host makes it the known host, and the device due at once and boosted for 30 seconds;
      one that ends without leaves hosts and bookkeeping alone. Either way the device can be recovered again, and
      nothing else changes for any device. */
  lemma RecoveryEndsSo(js: Js, s: Server, step: Step)
    requires step.RecoveryEnds? && Enabled(s, step)
    ensures var t := Next(js, s, step); var uuid := s.recoveries[step.recovery].uuid;
      && t.resolving == s.resolving - {uuid}
      && t.recoveries == s.recoveries[step.recovery := s.recoveries[step.recovery].(running := false)]
      && t.stateByUuid == s.stateByUuid && t.powerByUuid == s.powerByUuid && t.subscribers == s.subscribers
      && t.tasks == s.tasks && t.inFlight == s.inFlight && t.calls == s.calls
      && (step.found.None? ==> t.knownHosts == s.knownHosts && t.metaByUuid == s.metaByUuid)
      && (step.found.Some? ==>
            && SameBut(t.knownHosts, s.knownHosts, uuid) && t.knownHosts.Get(uuid) == step.found
            && SameBut(t.metaByUuid, s.metaByUuid, uuid) && uuid in t.metaByUuid.at
            && var m := t.metaByUuid.at[uuid];
               m.nextDueAt == step.now && m.boostUntilAt == Some(step.now + 30_000)
               && (uuid in s.metaByUuid.at ==>
                     m == s.metaByUuid.at[uuid].(nextDueAt := m.nextDueAt, boostUntilAt := m.boostUntilAt)))
  {
    hide Greeting;
    hide Candidate;
    hide CompletePoll;
    hide ScanTick;
    hide BeginPollNow;
    hide WorkerTakes;
    hide CompleteTelemetry;
    hide SyncKnownHosts;
  }

  // -------------------------------------------------------------- start of a recovery

  /** A recovery of the device may start: none runs, and none started in the last five minutes. */
  ghost predicate MayRecover(s: Server, uuid: string, now: int) {
    uuid !in s.resolving
    && (uuid in s.metaByUuid.at ==>
          var last := s.metaByUuid.at[uuid].lastResolveAttemptAt;
          last.None? || last.value == 0 || now - last.value >= 300_000)
  }

  /** Exactly a poll that fails for at least the third time in a row starts a recovery, if one may start. */
  ghost predicate StartsRecovery(js: Js, s: Server, step: Step)
    requires Enabled(s, step)
  {
    step.PollCompletes? && !Usable(js, step.attempt)
    && var uuid := s.tasks[step.task].uuid;
       PollerSafety.Failures(s.metaByUuid, uuid) >= 2 && MayRecover(s, uuid, step.now)
  }

  lemma RecordEffect(s: Server, id: nat, c: DeviceState, now: int, random: real)
    requires id < |s.tasks|
    ensures var t := Record(s, id, c, now, random); var uuid := s.tasks[id].uuid;
      && t.recoveries == s.recoveries && t.resolving == s.resolving && t.knownHosts == s.knownHosts
      && uuid in t.metaByUuid.at
      && t.metaByUuid.at[uuid].failureCount == (if c.stale then PollerSafety.Failures(s.metaByUuid, uuid) + 1 else 0)
      && t.metaByUuid.at[uuid].lastResolveAttemptAt
         == if uuid in s.metaByUuid.at then s.metaByUuid.at[uuid].lastResolveAttemptAt else None
  {
    hide NextIntervalMs;
    hide HasMaterialStateChange;
    hide ResultOf;
    hide EventsAfter;
    hide StoredAfter;
    hide Broadcast;
  }

  lemma CompletionRecovers(js: Js, s: Server, step: Step)
    requires Enabled(s, step) && step.PollCompletes?
    ensures var uuid := s.tasks[step.task].uuid;
      var t := CompletePoll(s, step.task, Candidate(js, s, s.tasks[step.task], step.attempt, step.now), step.now, step.random);
      if StartsRecovery(js, s, step) then
        t.recoveries == s.recoveries + [Recovery(uuid, step.now, true)] && t.resolving == s.resolving + {uuid}
        && uuid in t.metaByUuid.at && t.metaByUuid.at[uuid].lastResolveAttemptAt == Some(step.now)
      else t.recoveries == s.recoveries && t.resolving == s.resolving
  {
    hide Candidate;
    hide Record;
    hide Usable;
    hide ShowsReply;
    hide ShowsNothing;
    hide FailureText;
    var task := s.tasks[step.task];
    var c := Candidate(js, s, task, step.attempt, step.now);
    RecordEffect(s, step.task, c, step.now, step.random);
    if Usable(js, step.attempt) {
      UsableOutcome(js, s, task, step.attempt, step.now);
    } else {
      FailedOutcome(js, s, task, step.attempt, step.now);
    }
  }

  /** A recovery of the device whose poll completed starts if the step is such a poll, and otherwise no step starts or
      forgets one. */
  lemma RecoveryStartsSo(js: Js, s: Server, step: Step)
    requires Enabled(s, step)
    ensures var t := Next(js, s, step);
      if StartsRecovery(js, s, step) then
        var uuid := s.tasks[step.task].uuid;
        t.recoveries == s.recoveries + [Recovery(uuid, step.now, true)] && t.resolving == s.resolving + {uuid}
        && uuid in t.metaByUuid.at && t.metaByUuid.at[uuid].lastResolveAttemptAt == Some(step.now)
      else |t.recoveries| == |s.recoveries| && t.resolving <= s.resolving
  {
    hide StartsRecovery;
    hide Candidate;
    hide CompletePoll;
    hide Greeting;
    if step.PollCompletes? {
      CompletionRecovers(js, s, step);
    } else if step.RecoveryEnds? {
      RecoveryEndsSo(js, s, step);
      NoStart(js, s, step);
      hide Next;
    } else {
      PollerSafety.OtherMetaKept(js, s, step);
      NoStart(js, s, step);
      hide Next;
    }
  }

  lemma NoStart(js: Js, s: Server, step: Step)
    requires Enabled(s, step) && !step.PollCompletes?
    ensures !StartsRecovery(js, s, step)
  {
  }
}
