/** `resolveHostByUuidScan`: a pool of workers that share an index into the host list and stop early. */
module HostScan {
  import opened Prelude
  import Ipv4

  /** What one host says: no answer (not reachable, not a Meross device), or the ids found in its answer. */
  datatype Outcome = Unreachable | Answered(uuid: Option<string>, mac: Option<string>)

  datatype Hit = Hit(host: string, mac: Option<string>)

  datatype Goal = Goal(uuid: string, targetMac: Option<string>)

  /** Where a worker stands: at the top of its loop, waiting for host number `index`, or returned. */
  datatype Worker = Looking | Probing(index: nat) | Stopped

  /** The shared variables `i` and `found`, the workers, and a record of the probes sent (`launched`, in order)
      and answered. */
  datatype Scan = Scan(i: nat, found: Option<Hit>, workers: seq<Worker>, launched: seq<nat>, answers: map<nat, Outcome>)

  datatype Step = Look(w: nat) | Receive(w: nat, outcome: Outcome)

  /** Empty ids count as missing. */
  predicate Matches(goal: Goal, o: Outcome) {
    && o.Answered?
    && ((o.uuid.Some? && o.uuid.value != "" && o.uuid.value == goal.uuid)
        || (goal.targetMac.Some? && goal.targetMac.value != "" && o.mac == goal.targetMac))
  }

  function Start(concurrency: nat): Scan {
    Scan(0, None, seq(concurrency, _ => Looking), [], map[])
  }

  predicate Enabled(s: Scan, step: Step) {
    && step.w < |s.workers|
    && match step
       case Look(w) => s.workers[w].Looking?
       case Receive(w, _) => s.workers[w].Probing?
  }

  function Next(ips: seq<string>, goal: Goal, s: Scan, step: Step): Scan
    requires Enabled(s, step)
    requires step.Receive? ==> s.workers[step.w].index < |ips|
  {
    match step
    case Look(w) =>
      if s.found.Some? then s.(workers := s.workers[w := Stopped])
      else if s.i >= |ips| then s.(i := s.i + 1, workers := s.workers[w := Stopped])
      else s.(i := s.i + 1, workers := s.workers[w := Probing(s.i)], launched := s.launched + [s.i])
    case Receive(w, o) =>
      var idx := s.workers[w].index;
      var s1 := s.(answers := s.answers[idx := o]);
      if Matches(goal, o) then s1.(found := Some(Hit(ips[idx], o.mac)), workers := s.workers[w := Stopped])
      else s1.(workers := s.workers[w := Looking])
  }

  // ------------------------------------------------------------------ invariant

  /** Probes go out once each, in list order; each is answered once or awaited by one worker. */
  ghost predicate ProbesOk(ips: seq<string>, s: Scan) {
    && |s.launched| == Min(s.i, |ips|)
    && (forall k :: 0 <= k < |s.launched| ==> s.launched[k] == k)
    && (forall k :: k in s.answers ==> k < |s.launched|)
    && (forall w :: 0 <= w < |s.workers| && s.workers[w].Probing? ==>
          s.workers[w].index < |s.launched| && s.workers[w].index !in s.answers)
    && (forall v, w :: 0 <= v < w < |s.workers| && s.workers[v].Probing? && s.workers[w].Probing? ==>
          s.workers[v].index != s.workers[w].index)
    && (forall k :: 0 <= k < |s.launched| ==> k in s.answers || Probing(k) in s.workers)
  }

  ghost predicate IsHit(ips: seq<string>, goal: Goal, s: Scan, k: nat) {
    k < |ips| && k in s.answers && Matches(goal, s.answers[k]) && s.found == Some(Hit(ips[k], s.answers[k].mac))
  }

  /** `found` is one of the matches received so far, and is set as soon as there is one. */
  ghost predicate FoundOk(ips: seq<string>, goal: Goal, s: Scan) {
    && (s.found.Some? ==> exists k: nat :: IsHit(ips, goal, s, k))
    && (s.found.None? ==> forall k :: k in s.answers ==> !Matches(goal, s.answers[k]))
    && (Stopped in s.workers ==> s.found.Some? || s.i >= |ips|)
  }

  ghost predicate Inv(ips: seq<string>, goal: Goal, s: Scan) {
    ProbesOk(ips, s) && FoundOk(ips, goal, s)
  }

  /** A run: every step is possible where it is taken. */
  ghost predicate Run(ips: seq<string>, goal: Goal, s: Scan, steps: seq<Step>)
    decreases |steps|
  {
    steps != [] ==>
      && Enabled(s, steps[0])
      && (steps[0].Receive? ==> s.workers[steps[0].w].index < |ips|)
      && Run(ips, goal, Next(ips, goal, s, steps[0]), steps[1..])
  }

  function After(ips: seq<string>, goal: Goal, s: Scan, steps: seq<Step>): Scan
    requires Run(ips, goal, s, steps)
    decreases |steps|
  {
    if steps == [] then s else After(ips, goal, Next(ips, goal, s, steps[0]), steps[1..])
  }

  lemma ProbesLook(ips: seq<string>, goal: Goal, s: Scan, w: nat)
    requires ProbesOk(ips, s) && Enabled(s, Look(w))
    ensures ProbesOk(ips, Next(ips, goal, s, Look(w)))
  {
    var t := Next(ips, goal, s, Look(w));
    forall k | 0 <= k < |t.launched|
      ensures k in t.answers || Probing(k) in t.workers
    {
      if k < |s.launched| {
        StillAwaited(s, w, t.workers[w], k);
      } else {
        assert t.workers[w] == Probing(k);
      }
    }
  }

  lemma ProbesReceive(ips: seq<string>, goal: Goal, s: Scan, w: nat, outcome: Outcome)
    requires ProbesOk(ips, s) && Enabled(s, Receive(w, outcome))
    ensures s.workers[w].index < |ips|
    ensures ProbesOk(ips, Next(ips, goal, s, Receive(w, outcome)))
  {
    hide Matches;
    var t := Next(ips, goal, s, Receive(w, outcome));
    forall k | 0 <= k < |t.launched|
      ensures k in t.answers || Probing(k) in t.workers
    {
      if k != s.workers[w].index {
        StillAwaited(s, w, t.workers[w], k);
      }
    }
  }

  /** A host that another worker awaits is still awaited when this one moves on. */
  lemma StillAwaited(s: Scan, w: nat, next: Worker, k: nat)
    requires w < |s.workers| && s.workers[w] != Probing(k)
    ensures Probing(k) in s.workers ==> Probing(k) in s.workers[w := next]
  {
    if Probing(k) in s.workers {
      var v :| 0 <= v < |s.workers| && s.workers[v] == Probing(k);
      assert s.workers[w := next][v] == Probing(k);
    }
  }

  lemma ProbesStep(ips: seq<string>, goal: Goal, s: Scan, step: Step)
    requires ProbesOk(ips, s) && Enabled(s, step)
    ensures step.Receive? ==> s.workers[step.w].index < |ips|
    ensures ProbesOk(ips, Next(ips, goal, s, step))
  {
    hide ProbesOk;
    match step {
      case Look(w) => ProbesLook(ips, goal, s, w);
      case Receive(w, outcome) => ProbesReceive(ips, goal, s, w, outcome);
    }
  }

  lemma FoundStep(ips: seq<string>, goal: Goal, s: Scan, step: Step)
    requires Inv(ips, goal, s) && Enabled(s, step)
    requires step.Receive? ==> s.workers[step.w].index < |ips|
    ensures FoundOk(ips, goal, Next(ips, goal, s, step))
  {
    var t := Next(ips, goal, s, step);
    assert Stopped in t.workers ==> Stopped in s.workers || t.workers[step.w].Stopped?;
    if step.Receive? && Matches(goal, step.outcome) {
      assert IsHit(ips, goal, t, s.workers[step.w].index);
    } else if s.found.Some? {
      var k: nat :| IsHit(ips, goal, s, k);
      assert IsHit(ips, goal, t, k);
    }
  }

  lemma {:induction false} InvKept(ips: seq<string>, goal: Goal, s: Scan, steps: seq<Step>)
    requires Inv(ips, goal, s) && Run(ips, goal, s, steps)
    ensures Inv(ips, goal, After(ips, goal, s, steps))
    decreases |steps|
  {
    if steps != [] {
      ProbesStep(ips, goal, s, steps[0]);
      FoundStep(ips, goal, s, steps[0]);
      InvKept(ips, goal, Next(ips, goal, s, steps[0]), steps[1..]);
    }
  }

  // ---------------------------------------------------------------- main results

  /** For any number of workers and any interleaving: no host is probed twice; once all workers have returned,
      "nothing found" means that every host was probed and none matched, and a result is a probed host that
      matched. */
  lemma ScanCorrect(ips: seq<string>, goal: Goal, concurrency: nat, steps: seq<Step>)
    requires NoDup(ips) && concurrency >= 1
    requires Run(ips, goal, Start(concurrency), steps)
    ensures var s := After(ips, goal, Start(concurrency), steps);
      && (forall j, k :: 0 <= j < k < |s.launched| ==>
            s.launched[j] < |ips| && s.launched[k] < |ips| && ips[s.launched[j]] != ips[s.launched[k]])
      && (s.found.Some? ==> exists k: nat :: k in s.launched && IsHit(ips, goal, s, k))
      && ((forall w :: 0 <= w < |s.workers| ==> s.workers[w].Stopped?) ==>
            (s.found.None? <==> forall k :: 0 <= k < |ips| ==> k in s.answers && !Matches(goal, s.answers[k])))
  {
    var s := After(ips, goal, Start(concurrency), steps);
    hide Matches;
    InvKept(ips, goal, Start(concurrency), steps);
    WorkersKept(ips, goal, Start(concurrency), steps);
    if s.found.Some? {
      var k: nat :| IsHit(ips, goal, s, k);
      assert s.launched[k] == k;
      assert k in s.launched && IsHit(ips, goal, s, k);
    }
    if forall w :: 0 <= w < |s.workers| ==> s.workers[w].Stopped? {
      assert s.workers[0] in s.workers;
    }
  }

  /** The answer has the uuid looked for, or the hardware address looked for, where an empty text is neither. */
  ghost predicate IsDevice(goal: Goal, o: Outcome) {
    match o
    case Unreachable => false
    case Answered(uuid, mac) => exists id :: id != "" && ((id == goal.uuid && uuid == Some(id)) || (goal.targetMac == Some(id) && mac == Some(id)))
  }

  /** A scan finds the device: a result is the address of a host that answered with the uuid or the hardware address
      looked for; and when all workers have returned without one, every host was asked and none answered so. */
  lemma ScanFinds(ips: seq<string>, goal: Goal, concurrency: nat, steps: seq<Step>)
    requires NoDup(ips) && concurrency >= 1
    requires Run(ips, goal, Start(concurrency), steps)
    ensures var s := After(ips, goal, Start(concurrency), steps);
      && (s.found.Some? ==> exists k: nat :: k < |ips| && k in s.answers && IsDevice(goal, s.answers[k])
                                             && s.found.value == Hit(ips[k], s.answers[k].mac))
      && (s.found.None? && (forall w :: 0 <= w < |s.workers| ==> s.workers[w].Stopped?) ==>
            forall k :: 0 <= k < |ips| ==> k in s.answers && !IsDevice(goal, s.answers[k]))
  {
    ScanCorrect(ips, goal, concurrency, steps);
    var s := After(ips, goal, Start(concurrency), steps);
    hide Run;
    hide After;
    hide Matches;
    hide IsDevice;
    forall k | k in s.answers
      ensures Matches(goal, s.answers[k]) <==> IsDevice(goal, s.answers[k])
    {
      DeviceMatches(goal, s.answers[k]);
    }
    if s.found.Some? {
      var k: nat :| k in s.launched && IsHit(ips, goal, s, k);
      assert IsDevice(goal, s.answers[k]);
    }
  }

  lemma DeviceMatches(goal: Goal, o: Outcome)
    ensures Matches(goal, o) <==> IsDevice(goal, o)
  {
  }

  lemma {:induction false} WorkersKept(ips: seq<string>, goal: Goal, s: Scan, steps: seq<Step>)
    requires Run(ips, goal, s, steps)
    ensures |After(ips, goal, s, steps).workers| == |s.workers|
    decreases |steps|
  {
    if steps != [] {
      WorkersKept(ips, goal, Next(ips, goal, s, steps[0]), steps[1..]);
    }
  }

  /** After a match no further probe goes out. */
  lemma {:induction false} EarlyStop(ips: seq<string>, goal: Goal, s: Scan, steps: seq<Step>)
    requires Run(ips, goal, s, steps) && s.found.Some?
    ensures After(ips, goal, s, steps).found.Some? && After(ips, goal, s, steps).launched == s.launched
    decreases |steps|
  {
    if steps != [] {
      EarlyStop(ips, goal, Next(ips, goal, s, steps[0]), steps[1..]);
    }
  }

  function Weight(w: Worker): nat { match w case Looking => 1 case Probing(_) => 2 case Stopped => 0 }

  function Weights(ws: seq<Worker>): nat {
    if ws == [] then 0 else Weight(ws[0]) + Weights(ws[1..])
  }

  lemma {:induction false} WeightsUpdate(ws: seq<Worker>, k: nat, w: Worker)
    requires k < |ws|
    ensures Weights(ws[k := w]) == Weights(ws) - Weight(ws[k]) + Weight(w)
  {
    if k == 0 {
      assert ws[k := w][1..] == ws[1..];
    } else {
      assert ws[k := w][1..] == ws[1..][k - 1 := w];
      WeightsUpdate(ws[1..], k - 1, w);
    }
  }

  /** Every interleaving is finite: a scan of n hosts takes at most 2n steps and one per worker. */
  lemma {:induction false} ScanEnds(ips: seq<string>, goal: Goal, s: Scan, steps: seq<Step>)
    requires Run(ips, goal, s, steps)
    ensures |steps| <= 2 * (|ips| - Min(s.i, |ips|)) + Weights(s.workers)
    decreases |steps|
  {
    if steps != [] {
      var t := Next(ips, goal, s, steps[0]);
      WeightsUpdate(s.workers, steps[0].w, t.workers[steps[0].w]);
      assert t.workers == s.workers[steps[0].w := t.workers[steps[0].w]];
      ScanEnds(ips, goal, t, steps[1..]);
    }
  }

  /** The lists the scan is run on never repeat a host, so `ScanCorrect` applies to every range with hosts. */
  lemma RangesDiffer(cidr: string)
    ensures Ipv4.HostsInCidr(cidr).Some? ==> NoDup(Ipv4.HostsInCidr(cidr).value)
  {
    Ipv4.EnumerationExact(cidr);
    Ipv4.EnumerationMembers(cidr, 0);
    hide Ipv4.ParseCidr;
    hide Ipv4.InnerAddresses;
  }

  /** The scan itself: the variables its workers share. */
  class HostScanner {
    const ips: seq<string>
    const goal: Goal
    var i: nat
    var found: Option<Hit>
    var workers: seq<Worker>
    ghost var launched: seq<nat>
    ghost var answers: map<nat, Outcome>

    ghost function State(): Scan
      reads this
    {
      Scan(i, found, workers, launched, answers)
    }

    constructor (ips: seq<string>, goal: Goal, concurrency: nat)
      ensures this.ips == ips && this.goal == goal && State() == Start(concurrency)
    {
      this.ips, this.goal := ips, goal;
      i, found, workers, launched, answers := 0, None, seq(concurrency, _ => Looking), [], map[];
    }

    /** A worker at the top of its loop, up to the request it awaits. */
    method LookAround(w: nat)
      requires Enabled(State(), Look(w))
      modifies this`i, this`workers, this`launched
      ensures State() == Next(ips, goal, old(State()), Look(w))
    {
      if found.Some? {
        workers := workers[w := Stopped];
        return;
      }
      var idx := i;
      i := i + 1;
      if idx >= |ips| {
        workers := workers[w := Stopped];
        return;
      }
      workers := workers[w := Probing(idx)];
      launched := launched + [idx];
    }

    /** A worker whose request came back, or failed. */
    method TakeAnswer(w: nat, outcome: Outcome)
      requires Enabled(State(), Receive(w, outcome)) && workers[w].index < |ips|
      modifies this`found, this`workers, this`answers
      ensures State() == Next(ips, goal, old(State()), Receive(w, outcome))
    {
      var idx := workers[w].index;
      answers := answers[idx := outcome];
      if Matches(goal, outcome) {
        found := Some(Hit(ips[idx], outcome.mac));
        workers := workers[w := Stopped];
        return;
      }
      workers := workers[w := Looking];
    }
  }
}
