# Smart-home controller: scheduler, replica, and friends

A Dafny model, with proofs, of the hardest logic of a smart-home controller. A server polls devices on the local
network, caches their states, and streams changes to browser clients; each client keeps a replica of the cache and lays
an optimistic-update state machine on top of it. Beside these two stand a comment-stripping lexer, IPv4 arithmetic in
JavaScript's 32-bit operators, a concurrent host scan, and a cloud sign-in loop.

`dafny verify dfyconfig.toml` checks everything.

## How it is built

JavaScript runs one stretch of code at a time, so the poller is a step system: every stretch between two `await`s is one
step, and what an awaited call came to, the clock and the random numbers are inputs of the step that uses them. `Run` is
any interleaving of such steps: ticks, `pollNow` workers, polls, telemetry polls, recoveries, boosts, host syncs,
subscriptions. The clock may jump either way unless a theorem says otherwise.

| file | subject |
|---|---|
| `Prelude`, `Text`, `Json`, `Int32` | JavaScript's `Map`, stable `sort`, `trim`, `parseInt`, coercions, and 32-bit operators (sections 7.1.6 and 7.1.7 of ECMA-262) |
| `Devices`, `Timing`, `LanExtract` | the cached values and their material part, due times, what is read out of a device's response |
| `LanResponse` | what the extractors answer, in terms of the response's own fields |
| `Poller` | the poller's state, its step functions, and runs |
| `PollerService` | the service as an object with mutable fields; every method is proved to do what the step function does |
| `PollerSafety`, `PollNow`, `PollerHistory` | single flight and caps; conservation of `pollNow`; the stream as de-stuttered outcomes |
| `PollOutcomes`, `PollAnswers` | the cache, and the answers of `pollNow`, as functions of what the devices replied |
| `HostRecovery`, `Bookkeeping`, `Readings` | when a lost host is looked for and what finding it changes; due times and known hosts; power readings |
| `ScanOrder`, `PollerFairness`, `TelemetryFairness` | the order in which a scan looks at due devices; no starvation, of state polls and of telemetry polls |
| `StreamParse`, `CacheNormal` | the client's parser, and why it leaves the server's output alone |
| `DevicesMachine`, `Reconnect` | the client's machine with its optimistic toggle, and the reconnect supervisor |
| `Replica`, `EndToEnd` | server and client joined by a FIFO of events; from the device's reply to the screen |
| `StripComments`, `Ipv4`, `HostScan`, `CloudLogin` | the lexer, address arithmetic, the scan's worker pool, the sign-in loops |

## What was found

- A configuration with an empty device uuid can block the scheduler. A scan with a free slot and a due device launches
  something exactly if the empty uuid does not come first, by due time and then by the place of its bookkeeping
  (`PollerFairness.ScanLaunches`). The empty uuid itself is never polled, so its due time stays, and no device behind it
  is ever launched (`EmptyUuidStarves`; `EmptyUuidInstance` is an instance). The fairness bound (`NoStarvation`) counts
  exactly the scans that launch something. The telemetry loop behaves alike (`TelemetryFairness.ScanLaunches`).
- The optimistic toggle builds a malformed `lights` list for a light device without a channel 0: the primary light is
  listed twice and none is shown. `DevicesMachine.OptimisticLightsOk` gives the exact condition, `ServerStateToggles`
  the condition for states the server sends, and `LightListedTwice` an instance.
- A failed toggle restores the state from before the toggle, so stream updates of that device that arrived meanwhile are
  lost until its next material change or the next snapshot (`DevicesMachine.ToggleDoesNotInterfere`).
- The comment in `extractLanScheduleDigest` announces support for digests nested one level down; the loop returns at the
  first truthy candidate, so the nested one is never reached (`LanExtract.NestedDigestUnreachable`). The toggle
  extractor, which moves on from an empty list, does reach its nested candidate (`LanExtract.NestedToggleReached`).
- For prefix 0 the broadcast address comes out as -1 and the host list is empty (`Ipv4.SignedBounds`,
  `Ipv4.EnumerationExact`).
- After a toggle, a poll whose outcome is materially unchanged broadcasts nothing, so the optimistic state stands until
  the next material change or the next snapshot (`Replica.OwnWriteLasts`, `Replica.PollNames`, `Replica.SnapshotNames`).
- The client files a device whose uuid has surrounding blanks under the trimmed uuid, and a blank one not at all; such a
  device is never shown under its own uuid, and every other device agrees unless two cached uuids are the same once
  trimmed (`Replica.ReplicaAgrees`; `BlankUuidInstance` is an instance). The client also drops an empty error text; states are compared as the client keeps them.

## Model

| member | source | states |
|---|---|---|
| `EndToEnd.ClientShowsLastReply` | packages/core/src/api/state-poller.ts:600-693 | In every run of server and client, once a connected client has received all undelivered events, each polled device it did not write itself, and whose uuid is trimmed and no other's once trimmed, shows host, kind, channels, lights, on/off and digests as that device itself last replied to a poll since the server started, or nothing before the first such reply; it is stale exactly if a poll failed since, with the text of the first failure |
| `Replica.ReplicaAgrees` | packages/core/src/api/state-poller.ts:646-693 | In every run of server and client (polls, recoveries, restarts, connects, lost connections, toggles, in any order), once a connected client has received all undelivered events: it has a state for a cached device it did not write itself since if and only if the uuid has no surrounding blanks; that state is exactly the server state up to `source` if no other cached uuid equals it once trimmed, and otherwise that of a device whose uuid does; readings likewise agree on staleness, error, power, voltage and current |
| `Replica.BlankUuidInstance` | apps/web/src/state/devicesMachine.ts:168-174 | A device cached as " a" arrives as "a", so the client never shows it under its own uuid |
| `Replica.OwnWriteLasts` | apps/web/src/state/devicesMachine.ts:478-524 | A state the client wrote itself stays as it is, and marked as its own, exactly until an event arrives that names the device |
| `Replica.PollNames` | packages/core/src/api/state-poller.ts:646-693 | A completed poll names a device exactly if its outcome is a material change, under the trimmed uuid; an unchanged outcome leaves an optimistic state standing |
| `Replica.SnapshotNames` | packages/core/src/api/state-poller.ts:283-285 | A snapshot names exactly the devices it lists, under their trimmed uuids |
| `Replica.PollAgrees` | packages/core/src/api/state-poller.ts:646-655 | A completed poll keeps the client in agreement, whether it broadcasts or, on an unchanged outcome, only rewrites `source` in silence |
| `Replica.TelemetryAgrees` | packages/core/src/api/state-poller.ts:536-579 | A telemetry poll keeps the readings shown in agreement: what is not broadcast would not have changed them |
| `Replica.UnmovedReading` | packages/core/src/api/state-poller.ts:572-579 | A reading not broadcast shows the same staleness, error, power, voltage and current as the one before; this rests on stored readings being stale exactly when they carry an error |
| `Replica.GreetingAgrees` | packages/core/src/api/state-poller.ts:283-288 | The two snapshots sent to a new subscriber bring any client, whatever it held, to agree with both caches |
| `Replica.DrainAlike` | apps/web/src/state/devicesMachine.ts:478-524 | What a client wrote itself stays confined to those devices, whatever stream events follow |
| `PollerSafety.SingleFlightAndCaps` | packages/core/src/api/state-poller.ts:408-425 | In every reachable state: at most one state poll, telemetry poll and recovery per device; at most 6 state polls by ticks and 4 telemetry polls; all state polls at most 6 plus the workers of active `pollNow` calls; recoveries of a device start at least 300000 ms apart |
| `PollerSafety.StartKeepsTick` | packages/core/src/api/state-poller.ts:408-412 | A poll launched by a tick with a free slot keeps single flight and the cap of 6 on tick-launched polls |
| `PollerSafety.WorkerTakeKeepsPolls` | packages/core/src/api/state-poller.ts:329-332 | A worker that starts or joins a poll keeps single flight, and every open poll a worker started is the one it waits for |
| `PollerSafety.TryResolveKeeps` | packages/core/src/api/state-poller.ts:718-725 | Recoveries keep their cooldown: none starts while one of the device runs, or within five minutes of its last |
| `HostRecovery.RecoveryStartsSo` | packages/core/src/api/state-poller.ts:695-725 | A recovery of a device starts exactly when a poll of it fails for at least the third time in a row while none of it is running and none began within five minutes; no other step starts one |
| `HostRecovery.RecoveryEndsSo` | packages/core/src/api/state-poller.ts:774-781 | A recovery that found a host makes it the known host and the device due at once and boosted for 30 seconds; one that found none changes neither hosts nor bookkeeping; the device is no longer resolving either way, and other devices are as before |
| `Bookkeeping.KnownHostIsLatest` | packages/core/src/api/state-poller.ts:437-447 | In every reachable state, the known host of a device is the one last told: by the latest sync, unless a recovery found one since |
| `Bookkeeping.SyncsSo` | packages/core/src/api/state-poller.ts:437-447 | After a sync the known hosts are exactly the configured entries with an address; each has bookkeeping, new and due at once if there was none |
| `Bookkeeping.PollNotes` | packages/core/src/api/state-poller.ts:657-668 | A completed poll counts failures in a row, notes success and material change at its start, and sets the next due time: 30, 60, 120, then 300 seconds after failures, and otherwise about 8, 12 or 45 seconds by boost and recent change; other devices are as before |
| `Bookkeeping.BoostsSo` | packages/core/src/api/state-poller.ts:262-268 | A boost makes a device due now and boosted for 30 seconds, and does nothing for the empty uuid or to other devices |
| `Bookkeeping.CallBegins` | packages/core/src/api/state-poller.ts:303-328 | A `pollNow` call asks for the named devices, trimmed and without blanks, or for all known ones if none is named, each once; it boosts them and starts one to six workers |
| `Bookkeeping.TickBeginsSo` | packages/core/src/api/state-poller.ts:381-391 | A tick syncs the hosts exactly if the last sync is more than 5000 ms ago; one that finds a tick in progress does nothing |
| `Bookkeeping.SubscribesSo` | packages/core/src/api/state-poller.ts:270-288 | A new subscriber gets a new number and is first told all cached states and then all readings, each once, ordered by uuid; nobody else is told anything |
| `PollerSafety.SafetyStep` | packages/core/src/api/state-poller.ts:225-243 | Single flight, the caps, the cooldown and the well-formedness of all maps are kept by every step |
| `PollNow.AnswersEachOnce` | packages/core/src/api/state-poller.ts:321-340 | When all workers of a `pollNow` call have returned, each requested device other than the empty uuid occurs exactly once across `states` and `errors`, and nothing else occurs, for every interleaving and every poll joined (what the answers say: `PollAnswers`) |
| `PollNow.ReturnOk` | packages/core/src/api/state-poller.ts:330-331 | A worker that returns early on the empty uuid leaves another worker to drain the queue |
| `PollNow.CollectOk` | packages/core/src/api/state-poller.ts:332-334 | A worker that collects a result moves its device from awaited to answered |
| `PollAnswers.EachDeviceIsTold` | packages/core/src/api/state-poller.ts:321-340 | When all workers of a `pollNow` call have returned, each requested device has exactly one answer, a state or an error, and it is what a poll of that device came to that a worker of the call awaited: a fresh state showing the reply to that very poll, or its failure with code, text and time |
| `PollAnswers.AnswersAreTheirPolls` | packages/core/src/api/state-poller.ts:329-336 | At any moment of any run, every entry of `states` is fresh and shows what the device replied to a poll that a worker of the call awaited, every entry of `errors` is the failure of such a poll, and none of these polls is left out |
| `PollAnswers.AnswerOfCompletion` | packages/core/src/api/state-poller.ts:660-707 | A poll completing with a usable reply answers with exactly what is cached of the device after the step; any other answers with the device, the code and text of its failure, and the time |
| `PollAnswers.AllToldKept` | packages/core/src/api/state-poller.ts:592-707 | In every run, a poll has a result exactly if it completed; the result is what its own reply or failure says, under its own uuid and reason, and the reason is `poller` for polls of ticks and that of the call for polls of its workers |
| `PollerHistory.BroadcastsAreDestutteredPolls` | packages/core/src/api/state-poller.ts:646-693 | In every run the `device_state` events of a device are its poll outcomes without adjacent material duplicates; one `device_stale` per run of failures, repeating the `device_state` just before it; broadcast versions strictly increase, even if the clock runs backwards |
| `PollerHistory.CacheIsLatestOutcome` | packages/core/src/api/state-poller.ts:657-693 | In every reachable state a device is cached once polled; the cache agrees materially with the latest outcome, carries the version last broadcast, and is stale exactly while the failure count is positive, which counts the failures since the last success |
| `PollerHistory.FailureEvents` | packages/core/src/api/state-poller.ts:684-693 | The first failure of a run broadcasts exactly the stale state and the alarm, later ones nothing |
| `PollerHistory.EmittedVersions` | packages/core/src/api/state-poller.ts:358-362 | Versions grow from each broadcast to the next, and the cache carries the last one |
| `PollerHistory.QueueGrows` | packages/core/src/api/state-poller.ts:364-379 | What a step broadcasts is appended to the queue of every subscriber |
| `PollOutcomes.CacheShowsLastReply` | packages/core/src/api/state-poller.ts:600-693 | In every reachable state a device is cached once a poll of it completed; host, kind, channels, lights, digests and on/off are those read from the last usable reply, whatever failed since, or empty if there was none; it is stale exactly if a poll failed since, with the text and reason of the first such failure, and otherwise has the reason of the latest poll |
| `PollOutcomes.CacheIsCoherent` | packages/core/src/api/state-poller.ts:621-644 | In every reachable state, a cached device with a light shows the light on the lowest channel, one without lights the lowest channel, on/off and channel number included; it is stale exactly if it has an error |
| `PollOutcomes.UsableOutcome` | packages/core/src/api/state-poller.ts:613-644 | A reply with a channel or a light comes to a fresh state of the polled device with the replying host, the channels, lights and digests extracted from it, the primary light or else channel, the poll's reason, no error, and a version that grows |
| `PollOutcomes.FailedOutcome` | packages/core/src/api/state-poller.ts:665-682 | Any other attempt comes to a stale state with the text of the failure that otherwise repeats what was cached, or is empty with the known host |
| `PollOutcomes.CodeOfText` | packages/core/src/api/state-poller.ts:203-211 | The code of a failure is that of the word in its text, in any case: a missing key before a missing host before a missing state, `lan_error` exactly if there is none |
| `Devices.MaterialChangeMeaning` | packages/core/src/api/state-poller.ts:163-194 | `hasMaterialStateChange` is false exactly when there is a previous state and everything but uuid, version, source and error is equal |
| `PollerFairness.NoStarvation` | packages/core/src/api/state-poller.ts:390-412 | From any reachable state, while the clock stays past the due time of a known idle device that is not singled out: ticks launch each other device at most once before it, so at most as many scans find a free slot without the empty uuid in front as there are other devices with bookkeeping; these are exactly the scans that launch something |
| `PollerFairness.ScanLaunches` | packages/core/src/api/state-poller.ts:393-412 | A scan launches something if and only if a slot is free, a known idle device is due, and the empty uuid does not come before all other due devices |
| `PollerFairness.OverdueLeads` | packages/core/src/api/state-poller.ts:401-412 | An overdue device that comes before the empty uuid keeps it from coming first |
| `PollerFairness.LaterStaysBehind` | packages/core/src/api/state-poller.ts:401-412 | A device launched since, or due later, is never launched in front of an overdue one |
| `PollerFairness.CompletedDue` | packages/core/src/api/state-poller.ts:657-664 | A completed poll makes its device due again 7200 to 300000 ms after the start of the poll, and moves no other due time |
| `PollerFairness.DueIs` | packages/core/src/api/state-poller.ts:393-405 | The scan lists each known idle due device once, in the order of due times and, among equal ones, of their bookkeeping |
| `ScanOrder.ScanList` | packages/core/src/api/state-poller.ts:393-405 | Filtering the bookkeeping and sorting it stably by due time lists each selected device once, ordered by due time and then by place |
| `PollerFairness.EmptyUuidStarves` | packages/core/src/api/state-poller.ts:409-412 | An empty uuid among the known hosts keeps its due time through any run that keeps it known and finds no host for it, and no scan launches a device that comes after it |
| `PollerFairness.EmptyUuidInstance` | packages/core/src/api/state-poller.ts:408-412 | A concrete run after which a device is due and nothing is in flight, yet no scan ever launches it |
| `TelemetryFairness.NoStarvation` | packages/core/src/api/state-poller.ts:414-425 | While the clock stays past the due time of a known device whose meter is not being read, and scans come while its state is not being polled: ticks read each other meter at most once before it, so at most as many scans find a free slot without the empty uuid in front as there are other devices with bookkeeping |
| `TelemetryFairness.ScanLaunches` | packages/core/src/api/state-poller.ts:414-425 | A scan starts a telemetry poll if and only if a slot is free, a meter is due, and the empty uuid does not come first |
| `TelemetryFairness.EmptyUuidBlocks` | packages/core/src/api/state-poller.ts:421-425 | While the empty uuid is due for a telemetry poll, a scan reads no meter that comes after it |
| `TelemetryFairness.CompletedDue` | packages/core/src/api/state-poller.ts:467-471 | A completed telemetry poll makes its meter due again 10 to 300 seconds after its start, and moves no other meter |
| `Readings.ReadingIsLastMeasured` | packages/core/src/api/state-poller.ts:502-581 | In every reachable state, a device has a reading once a telemetry poll of it measured or failed; it shows host, channel and values of the last measurement, and is stale with the latest failure's text exactly if a failure came last |
| `Readings.TelemetryShows` | packages/core/src/api/state-poller.ts:502-581 | A completed telemetry poll stores the measurement, or marks the last one stale with the error; it broadcasts the reading exactly if staleness, power, voltage, current or error differ, and the alarm exactly when the meter was not stale before |
| `Readings.TelemetryNotes` | packages/core/src/api/state-poller.ts:467-488 | A measurement puts the next one 10 seconds after its start, the n-th failure in a row 30, 60, 120 or 300 seconds, a device without a meter a minute; failures are counted and the state poll's bookkeeping is left alone |
| `Timing.IntervalBounds` | packages/core/src/api/state-poller.ts:351-356 | The next poll comes 7.2 seconds to five minutes after the start of this one: by the backoff table after a failure, 7.2 to 8.8 s while boosted, 10.2 to 13.8 s in the hot window, 38.25 to 51.75 s otherwise |
| `Timing.JitterWithin` | packages/core/src/api/state-poller.ts:131-136 | Jitter keeps an interval within its share of the base for any random number |
| `Timing.BackoffGrows` | packages/core/src/api/state-poller.ts:125-129 | The backoff grows with the failure count from 30 to 300 seconds, reached at the fourth failure |
| `PollerService.StatePollerService.Perform` | packages/core/src/api/state-poller.ts:225-783 | Whatever stretch of code runs next, the object changes exactly as the step system says |
| `PollerService.StatePollerService.BoostDevice` | packages/core/src/api/state-poller.ts:262-268 | The object changes as the boost step: due now, boosted for 30 seconds, nothing on an empty uuid |
| `PollerService.StatePollerService.EnsureMeta` | packages/core/src/api/state-poller.ts:343-349 | Returns the device's bookkeeping, creating it only if there is none |
| `PollerService.StatePollerService.Broadcast` | packages/core/src/api/state-poller.ts:375-379 | The loop over the subscribers appends the event to every queue |
| `PollerService.StatePollerService.ScanDevices` | packages/core/src/api/state-poller.ts:390-425 | The tick's scan: the loops that collect, sort and launch due devices come to the scan step |
| `PollerService.StatePollerService.CollectDue` | packages/core/src/api/state-poller.ts:393-399 | The collecting loop returns the known idle devices due for a state poll and for a telemetry poll |
| `PollerService.StatePollerService.LaunchDue` | packages/core/src/api/state-poller.ts:408-412 | The launch loop over the sorted due list starts the polls of the launch step |
| `PollerService.StatePollerService.SyncKnownHosts` | packages/core/src/api/state-poller.ts:440-447 | The loop over the configured hosts replaces the known hosts by those with a host, and adds bookkeeping |
| `PollerService.StatePollerService.StartPoll` | packages/core/src/api/state-poller.ts:593-599 | Joins the poll in flight, or starts one and registers it |
| `PollerService.StatePollerService.FinishPoll` | packages/core/src/api/state-poller.ts:600-707 | The object changes exactly as a completing poll step, whose effect `PollOutcomes`, `PollAnswers`, `Bookkeeping` and `HostRecovery` describe |
| `PollerService.StatePollerService.CacheFresh` | packages/core/src/api/state-poller.ts:646-655 | Caches and broadcasts a materially changed state, and only notes the source otherwise |
| `PollerService.StatePollerService.CacheStale` | packages/core/src/api/state-poller.ts:684-693 | Caches and broadcasts a stale state that is news, and raises the alarm on the first failure |
| `PollerService.StatePollerService.TryResolveHost` | packages/core/src/api/state-poller.ts:718-725 | Starts a recovery unless one runs or the cooldown holds |
| `PollerService.StatePollerService.EndRecovery` | packages/core/src/api/state-poller.ts:774-781 | The object changes exactly as the step that ends a recovery, whose effect is `HostRecovery.RecoveryEndsSo` |
| `PollerService.StatePollerService.FinishTelemetry` | packages/core/src/api/state-poller.ts:473-582 | The object changes as a completing telemetry poll |
| `PollerService.StatePollerService.BeginPollNow` | packages/core/src/api/state-poller.ts:316-329 | The boosting loop and the new queue come to the step that begins a `pollNow` call |
| `PollerService.StatePollerService.WorkerTake` | packages/core/src/api/state-poller.ts:329-332 | A worker takes the next device off the shared queue, or returns |
| `PollerService.StatePollerService.WorkerCollect` | packages/core/src/api/state-poller.ts:333-334 | A worker adds what its poll came to |
| `PollerService.StatePollerService.Subscribe` | packages/core/src/api/state-poller.ts:273-288 | A new subscriber's queue starts with the two sorted snapshots |
| `StreamParse.ParseIsIdentity` | apps/web/src/state/devicesMachine.ts:164-194 | Parsing a state the server wrote gives back every field the client keeps if and only if its uuid is trimmed and non-empty, its version positive, and its lists in order with trimmed ids |
| `StreamParse.PowerParseIsIdentity` | apps/web/src/state/devicesMachine.ts:202-229 | Parsing a reading gives it back, but for its raw units, if and only if its uuid is trimmed and non-empty and its version positive |
| `StreamParse.ParseTrims` | apps/web/src/state/devicesMachine.ts:164-194 | A state with ordered lists arrives under its trimmed uuid and otherwise unchanged, or not at all if the uuid is blank |
| `StreamParse.StatePasses` | apps/web/src/state/devicesMachine.ts:174-193 | A written state passes the parser exactly if its uuid is not blank and its version positive; only its uuid and lists can differ then |
| `StreamParse.ParseChannels` | apps/web/src/state/devicesMachine.ts:96-107 | The loop returns the valid entries in a stable order by channel |
| `StreamParse.ParseLights` | apps/web/src/state/devicesMachine.ts:109-129 | The loop returns the valid lights in a stable order by channel |
| `StreamParse.ParseScheduleDigest` | apps/web/src/state/devicesMachine.ts:149-162 | The loop returns the valid entries in a stable order by channel and id |
| `StreamParse.DigestsNormal` | apps/web/src/state/devicesMachine.ts:149-162 | A parsed digest is sorted and its ids are trimmed and non-empty |
| `CacheNormal.ClientReadsBack` | packages/core/src/api/state-poller.ts:613-644 | In every run, whatever devices answer, a cached state or reading, and a state a poll may broadcast, is read back by the client as what was written if and only if its uuid has no surrounding blanks |
| `CacheNormal.ReadOutNormal` | packages/core/src/api/state-poller.ts:613-629 | What is read out of any response is in the normal form the client sorts into |
| `CacheNormal.ReadOutMeans` | packages/core/src/api/state-poller.ts:613-644 | A response comes to nothing exactly if it names no channel and no light; otherwise the kind says which of the two it names, and the state shows the light on the lowest channel or, without lights, the lowest channel |
| `CacheNormal.PowerNormal` | packages/core/src/api/state-poller.ts:502-570 | A stored reading is stale exactly if it has an error |
| `LanExtract.ExtractLanToggleX` | packages/core/src/api/shared.ts:80-106 | The nested loops compute the extracted channels, whose meaning is `LanResponse.TogglesMean` |
| `LanExtract.ExtractLanLight` | packages/core/src/api/shared.ts:217-256 | The nested loops compute the extracted lights, whose meaning is `LanResponse.LightsMean` |
| `LanExtract.ExtractLanScheduleDigest` | packages/core/src/api/shared.ts:260-289 | The nested loops compute the extracted entries, whose meaning is `LanResponse.SchedulesMean` |
| `LanExtract.TogglesNormal` | packages/core/src/api/shared.ts:89-103 | Extracted channels are non-empty and in order |
| `LanExtract.LightsNormal` | packages/core/src/api/shared.ts:225-253 | Extracted lights are non-empty and in order |
| `LanExtract.SchedulesNormal` | packages/core/src/api/shared.ts:271-286 | Extracted digests are in order, with trimmed non-empty ids |
| `LanExtract.NestedDigestUnreachable` | packages/core/src/api/shared.ts:261-286 | The nested digest candidate never decides the result: the answer is that of the direct one alone |
| `LanExtract.NestedToggleReached` | packages/core/src/api/shared.ts:81-103 | The nested toggle candidate is used when the ones before it yield nothing |
| `LanResponse.TogglesMean` | packages/core/src/api/shared.ts:80-106 | The channels of any response are the entries of `payload.all.digest.togglex` with a natural channel, each once, in a stable order by channel, on exactly where `onoff` is 1; if it has none, those of `toggleX`, `toggle`, then the nested `togglex.togglex`; nothing exactly if none of the four has any |
| `LanResponse.LightsMean` | packages/core/src/api/shared.ts:217-256 | The lights of any response, likewise, from `light`, the nested `light.light`, `lamp`, then `lamp.lamp` |
| `LanResponse.SchedulesMean` | packages/core/src/api/shared.ts:260-289 | A schedule digest lists exactly the valid entries directly under its own key, in a stable order by channel and id |
| `LanResponse.ListOfToggles` | packages/core/src/api/shared.ts:86-103 | A `togglex` list with an entry is what is read, whatever else the response holds |
| `LanResponse.LoneToggle` | packages/core/src/api/shared.ts:86-103 | A single `togglex` object counts as a list of itself |
| `LanResponse.LightIs` | packages/core/src/api/shared.ts:230-250 | What is read of a light entry: `onoff` or `state`; `luminance`, `brightness`, `luma` or `lum`; `temperature`, `temp`, `colorTemp` or `colortemp`, the first that is neither missing nor null; and its colour |
| `LanResponse.ColourIs` | packages/core/src/api/shared.ts:191-215 | A colour is a number, rounded, or three bytes red, green, blue from a list or from `r`/`red`, `g`/`green`, `b`/`blue`, as 0xRRGGBB; nothing else is one |
| `LanResponse.RuleIs` | packages/core/src/api/shared.ts:274-283 | What is read of a digest entry: its channel, its trimmed non-empty id, and its count, rounded and at least 0 |
| `LanExtract.PackIs` | packages/core/src/api/shared.ts:191-212 | Packing three bytes with 32-bit shifts gives r * 65536 + g * 256 + b, without sign trouble |
| `DevicesMachine.ToggleDoesNotInterfere` | apps/web/src/state/devicesMachine.ts:413-474 | Over any interleaving of stream and inventory events during a toggle, everything but the toggled device ends as if the toggle had not happened; on failure the toggled device ends as before the toggle (or as the default), stale with the error; on success as the stream last said, or as the toggle showed at first |
| `DevicesMachine.OperationsInvariant` | apps/web/src/state/devicesMachine.ts:693-849 | In every reachable configuration, no device is active exactly in `idle`, and there is a rollback exactly in `toggling`, naming the active device |
| `DevicesMachine.InventoryIsLastTold` | apps/web/src/state/devicesMachine.ts:615-757 | In every reachable configuration hosts and devices are those of the last awaited reply that brought any, the range is the one last typed, or suggested while it was blank, and the dump the last one fetched and not closed |
| `DevicesMachine.LateReply` | apps/web/src/state/devicesMachine.ts:622-849 | A reply that arrives in a state that did not ask for it changes nothing |
| `DevicesMachine.TogglingNeedsHost` | apps/web/src/state/devicesMachine.ts:699-708 | Toggling is entered only from `idle`, for a device that has a host, which is active from then on with its state kept for rollback |
| `DevicesMachine.ToggleShows` | apps/web/src/state/devicesMachine.ts:413-463 | From the moment of a toggle the device shows the on/off asked for; its channels are channel 0 switched so, and otherwise exactly the old ones; host (the inventory's if there was none), kind, channel and digests are kept; it is not stale, has no error, and is marked optimistic; no other device changes |
| `DevicesMachine.ToggleShowsLights` | apps/web/src/state/devicesMachine.ts:431-450 | Its lights are the old ones with channel 0 switched and shown; or none if there were none; or, without a channel 0, the old ones behind a switched copy of the light shown before |
| `DevicesMachine.ToggleFails` | apps/web/src/state/devicesMachine.ts:465-474 | A failed toggle leaves every field as before it, or as in an empty state, except that the device is stale and has the error |
| `DevicesMachine.OptimisticChannelsOk` | apps/web/src/state/devicesMachine.ts:424-429 | The optimistic channel list keeps order and distinctness, holds the switched channel 0, and otherwise exactly the old entries; `ToggleShows` ties it to what is shown |
| `DevicesMachine.OptimisticLightsOk` | apps/web/src/state/devicesMachine.ts:431-440 | Given distinct lights, the optimistic list is well formed if and only if an old light is on channel 0, or the old `light` is absent or on channel 0 |
| `DevicesMachine.ServerStateToggles` | apps/web/src/state/devicesMachine.ts:431-440 | For states the server sends, it is well formed if and only if the device has no lights or one on channel 0 |
| `DevicesMachine.LightListedTwice` | apps/web/src/state/devicesMachine.ts:435-440 | With one light on channel 1, the toggle lists it twice and shows none |
| `DevicesMachine.EndToggle` | apps/web/src/state/devicesMachine.ts:784-809 | Both replies end in `idle` with nothing active and nothing to roll back |
| `DevicesMachine.MergeSnapshot` | apps/web/src/state/devicesMachine.ts:504-524 | The merging loop writes each state of the snapshot, the last one of a device winning |
| `DevicesMachine.MergePowerSnapshot` | apps/web/src/state/devicesMachine.ts:525-531 | The merging loop writes each reading of the snapshot |
| `DevicesMachine.MergedAlike` | apps/web/src/state/devicesMachine.ts:504-524 | A merge treats two maps alike that differ in one device, and makes them equal there if it mentions the device |
| `Reconnect.OneConnection` | apps/web/src/state/devicesMachine.ts:258-335 | Between handlers exactly one of open source and pending reconnect holds until disposal, neither after it, and then no handler can run |
| `Reconnect.DelaySequence` | apps/web/src/state/devicesMachine.ts:245-274 | After the k-th failure in a row the reconnect waits 1, 2, 5, 10 seconds, and 30 from the fifth on; a successful open starts over |
| `Reconnect.MonitorTracks` | apps/web/src/state/devicesMachine.ts:850-873 | The monitor region is live only with an open source whose last sign was its opening, degraded exactly after a failure since, connecting exactly before anything was heard |
| `Reconnect.StreamSupervisor.Failed` | apps/web/src/state/devicesMachine.ts:288-292 | An error closes the source and schedules one reconnect |
| `Reconnect.StreamSupervisor.TimerFired` | apps/web/src/state/devicesMachine.ts:270-273 | The timer opens a new source in place of the old |
| `Reconnect.StreamSupervisor.Dispose` | apps/web/src/state/devicesMachine.ts:328-335 | Disposal closes the source and cancels the pending reconnect |
| `StripComments.StripJsonComments` | packages/qa/scripts/qa-init.ts:117-161 | The lexer loop terminates and computes the comment-free text |
| `StripComments.StripMeaning` | packages/qa/scripts/qa-init.ts:117-161 | Every input is the rendering of a well-formed token list, and stripping it gives the rendering without its comments |
| `StripComments.StripDropsComments` | packages/qa/scripts/qa-init.ts:123-158 | For every well-formed token list of code, strings with escapes, and comments, stripping its rendering removes exactly the comments |
| `StripComments.StripIdempotent` | packages/qa/scripts/qa-init.ts:117-161 | Stripping twice is stripping once, for every input and either mode |
| `StripComments.SkipLine` | packages/qa/scripts/qa-init.ts:143-147 | The inner loop stops at the newline, which is kept |
| `StripComments.SkipBlock` | packages/qa/scripts/qa-init.ts:148-153 | The inner loop ends behind the closing mark, or past the end |
| `Ipv4.IpRoundTrip` | packages/core/src/meross/lan/discovery.ts:6-15 | Reading the text of any 32-bit address gives that address back |
| `Ipv4.EnumerationExact` | packages/core/src/meross/lan/ping-sweep.ts:26-33 | For prefixes 1 to 30 the list is exactly the 2^(32-p) - 2 addresses strictly between network and broadcast, ascending as unsigned numbers; for 0, 31 and 32 it is empty (section 3.1 of RFC 4632) |
| `Ipv4.EnumerationMembers` | packages/core/src/meross/lan/ping-sweep.ts:26-33 | All listed addresses share the prefix bits of the base, and none occurs twice |
| `Ipv4.SignedBounds` | packages/core/src/meross/lan/ping-sweep.ts:19-23 | Despite signed intermediates the bounds are those of the block; for prefix 0 the broadcast comes out as -1 |
| `Ipv4.ListHostsInCidr` | packages/core/src/meross/lan/ping-sweep.ts:26-33 | The counting loop returns the enumeration, or fails on an invalid range |
| `Ipv4.NetmaskToPrefix` | packages/core/src/meross/lan/discovery.ts:17-31 | The loop accepts exactly the contiguous masks and returns the prefix whose mask it is |
| `Ipv4.SuggestCidr` | packages/core/src/meross/lan/discovery.ts:59-64 | Builds the suggested range from an address and a netmask, or skips the interface |
| `Ipv4.SuggestionParses` | packages/core/src/meross/lan/discovery.ts:59-64 | Parsing a suggested range gives back its network with zero host bits, and the range contains the interface address |
| `HostScan.ScanCorrect` | packages/core/src/meross/lan/discovery.ts:137-170 | For any number of workers and interleaving: no host is probed twice; a result is a probed host that matched; when all workers have returned, nothing found means every host was probed and none matched |
| `HostScan.ScanFinds` | packages/core/src/meross/lan/discovery.ts:147-158 | A result is the address of a host that answered with the uuid or the hardware address looked for, empty texts never counting; when all workers have returned without a result, every host was asked and none answered so |
| `HostScan.EarlyStop` | packages/core/src/meross/lan/discovery.ts:140-142 | After a match no further probe goes out |
| `HostScan.ScanEnds` | packages/core/src/meross/lan/discovery.ts:137-169 | Every interleaving is finite: at most two steps per host and one per worker |
| `HostScan.RangesDiffer` | packages/core/src/meross/lan/discovery.ts:130-136 | The lists the scan runs on never repeat a host |
| `HostScan.HostScanner.LookAround` | packages/core/src/meross/lan/discovery.ts:140-144 | A worker takes the next host, or returns |
| `HostScan.HostScanner.TakeAnswer` | packages/core/src/meross/lan/discovery.ts:147-158 | A worker records a match and returns, or goes on |
| `CloudLogin.PostWithRedirect` | packages/core/src/meross/cloud/http.ts:178-197 | One to three requests, each after the first following a redirect; the domain returned is the one that produced the response |
| `CloudLogin.MerossCloudLogin` | packages/core/src/meross/cloud/http.ts:241-300 | Against any server: 1 to 12 requests; a later candidate only after every earlier one ended in 1004; success exactly when the last request answered 0 with token, key and user id |
| `CloudLogin.CandidatesDiffer` | packages/core/src/meross/cloud/http.ts:241-247 | The candidates never repeat, and there are one to four |
| `CloudLogin.CandidatesAre` | packages/core/src/meross/cloud/http.ts:241-247 | A configured domain is tried first, alone if it is unknown and followed by exactly the other known ones if not; without configuration the four known ones in order |
| `CloudLogin.SchemeStripped` | packages/core/src/meross/cloud/http.ts:22 | A host name is found again behind its scheme and in front of trailing slashes |
| `CloudLogin.RequestsBound` | packages/core/src/meross/cloud/http.ts:254-279 | The first i candidates cost at least i and at most 3i requests |

## Left out

- PollerService: bookkeeping records and subscriber objects are values in maps, not shared mutable objects; a poll reads
  its device's bookkeeping again where the code keeps a reference. Records are never removed or replaced, so both are the
  same record.
- PollerService.StatePollerService.Perform: leaves out the `poller_health` and `heartbeat` events and the cycle
  statistics, which no client listens to; and asks that the bookkeeping's key list matches its contents, which every step
  keeps (`PollerSafety.SafetyStep`).
- PollerService.StatePollerService.Subscribe: leaves out the `poller_health` event and the heartbeat of a new subscriber.
- PollerService.StatePollerService.FinishTelemetry: leaves out the stored telemetry sample, whose failure the code
  ignores.
- Poller: one clock sample per step, where the code reads the clock more than once in a stretch.
- Poller: a device's response, or its failure, and the configuration read are inputs of a step; HTTP, timeouts, signing,
  telemetry storage, and the file that holds the configuration are not modelled.
- Poller: the environment variable that changes the telemetry interval (the default is modelled); the cloud inventory's
  gate on telemetry is one of the outcomes of a telemetry poll.
- Poller: how a recovery finds a host (ping sweep, address table, scan) is an input of the step that ends it; the scan
  itself is `HostScan`.
- LanExtract: the extraction of electricity readings; measurements are arbitrary.
- PollerFairness.NoStarvation: bounds the scans that find a free slot; that polls in flight ever end depends on the
  devices. The same holds for `TelemetryFairness.NoStarvation`.
- Replica.ReplicaAgrees: server and client sort with the same collation, which is an arbitrary total preorder;
  `StreamParse.ParseIsIdentity` is the exact condition for other cases. A push that fails removes the subscriber, which
  here is a lost connection.
- DevicesMachine: the requests that actions send are not modelled, only their replies; an absent `light` is not told
  apart from a null one, and inherited property names of plain objects are not device uuids.
- Json: numbers are reals, so negative zero is zero; how JavaScript turns the remaining values into numbers and texts is
  arbitrary.
- Ipv4: the choice among several network interfaces, and its ordering heuristic.
- HostScan: the ping sweep's own worker pool, which probes without a result.
- CloudLogin: debug output, the device list request, and one-time codes.
- Routes, user interface, timers and triggers, authentication pages, scaffolding and process plumbing are out of scope.
