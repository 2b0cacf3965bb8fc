/** The poller and a browser client joined by a FIFO of events: the client's replica plus the undelivered events always
    reproduces the server's cache, although the server silently skips broadcasts. */
module Replica {
  import opened Prelude
  import opened Text
  import opened Devices
  import opened Json
  import opened StreamParse
  import opened CacheNormal
  import opened DevicesMachine
  import P = Poller
  import Reconnect
  import PollerHistory
  import PollerSafety

  /** The client, with the devices it wrote itself since the stream last wrote them. */
  datatype Client = Client(config: Config, dirty: set<string>)

  /** The server, one client, and the subscription the client reads from, if it is connected. */
  datatype System = System(server: P.Server, client: Client, link: Option<nat>)

  // -------------------------------------------------------------- one event arrives

  function SnapshotJson(states: seq<DeviceState>): Json {
    Obj((k: Key) => if k == KStates then Some(Arr(MapJson(WriteState(), states))) else None)
  }

  function PowerSnapshotJson(readings: seq<PowerReading>): Json {
    Obj((k: Key) => if k == KReadings then Some(Arr(MapJson(WritePower(), readings))) else None)
  }

  /** What the listeners of the event source make of an event. */
  function Heard(js: Js, e: P.Event): Option<StreamEvent> {
    match e
    case Snapshot(states) => Some(SnapshotReceived(ParseSnapshotStates(js, Some(SnapshotJson(states)))))
    case PowerSnapshot(readings) => Some(PowerSnapshotReceived(ParsePowerSnapshot(js, Some(PowerSnapshotJson(readings)))))
    case StateChanged(state) =>
      var p := ParseStreamState(js, Some(StateJson(state)));
      if p.None? then None else Some(StateReceived(p.value))
    case WentStale(state) =>
      var p := ParseStreamState(js, Some(StateJson(state)));
      if p.None? then None else Some(StaleReceived(p.value))
    case PowerChanged(reading) =>
      var p := ParsePower(js, Some(PowerJson(reading)));
      if p.None? then None else Some(PowerReceived(p.value))
    case MeterWentStale(_) => None
  }

  function UuidsOf(states: seq<StreamState>): set<string> { set s | s in states :: s.uuid }

  function Hear(c: Client, e: StreamEvent): Client {
    Client(OnStream(c.config, e),
           c.dirty - match e
                     case StateReceived(s) => {s.uuid}
                     case StaleReceived(s) => {s.uuid}
                     case SnapshotReceived(states) => UuidsOf(states)
                     case _ => {})
  }

  function Receive(js: Js, c: Client, e: P.Event): Client {
    match Heard(js, e) case None => c case Some(h) => Hear(c, h)
  }

  /** The client once it has received all of `queue`. */
  function Drain(js: Js, c: Client, queue: seq<P.Event>): Client
    decreases |queue|
  {
    if queue == [] then c else Drain(js, Receive(js, c, queue[0]), queue[1..])
  }

  // ----------------------------------------------------------------------- steps

  /** The devices whose state the client itself writes on an event: a toggle, its rollback and its error. */
  function OwnWrites(c: Config, e: ClientEvent): set<string> {
    if e.FromUser? && e.user.Toggle? && c.operations.OperationsIdle? && HasHost(c.context, e.user.uuid) then {e.user.uuid}
    else if e.FromServer? && e.reply.ToggleFailed? && c.operations.Toggling? then
      {ActiveUuid(c.context)} + (if c.context.toggleRollback.Some? then {c.context.toggleRollback.value.uuid} else {})
    else {}
  }

  function Act(c: Client, e: ClientEvent): Client { Client(Transition(c.config, e), c.dirty + OwnWrites(c.config, e)) }

  /** The server or the client does something; the client connects, receives the next event, or loses the connection;
      or the server process starts anew, with an empty cache. */
  datatype SystemStep =
    | ServerMoves(step: P.Step)
    | Connects
    | Delivers
    | Drops
    | ClientActs(event: ClientEvent)
    | ServerRestarts

  predicate CanDo(y: System, step: SystemStep) {
    match step
    case ServerMoves(t) =>
      P.Enabled(y.server, t) && (y.link.Some? ==> t != P.Pulls(y.link.value) && t != P.Unsubscribes(y.link.value))
    case Connects => y.link.None?
    case Delivers => y.link.Some? && P.Enabled(y.server, P.Pulls(y.link.value))
    case ClientActs(e) => e.FromStream? ==> e.stream.Connection?
    case _ => true
  }

  function Do(js: Js, y: System, step: SystemStep): System
    requires CanDo(y, step)
  {
    match step
    case ServerMoves(t) => y.(server := P.Next(js, y.server, t))
    case Connects => y.(server := P.Subscribe(js, y.server), link := Some(y.server.nextSubscriberId))
    case Delivers =>
      y.(server := P.Next(js, y.server, P.Pulls(y.link.value)),
         client := Receive(js, y.client, y.server.subscribers[y.link.value][0]))
    case Drops => y.(link := None)
    case ClientActs(e) => y.(client := Act(y.client, e))
    case ServerRestarts => y.(server := P.Init(), link := None)
  }

  function Start(cidr: string): System { System(P.Init(), Client(Initial(cidr), {}), None) }

  ghost predicate SystemRun(js: Js, cidr: string, steps: seq<SystemStep>)
    decreases |steps|, 0
  {
    steps != [] ==>
      && SystemRun(js, cidr, steps[..|steps| - 1])
      && CanDo(SystemAfter(js, cidr, steps[..|steps| - 1]), steps[|steps| - 1])
  }

  ghost function SystemAfter(js: Js, cidr: string, steps: seq<SystemStep>): System
    requires SystemRun(js, cidr, steps)
    decreases |steps|, 1
  {
    if steps == [] then Start(cidr) else Do(js, SystemAfter(js, cidr, steps[..|steps| - 1]), steps[|steps| - 1])
  }

  // ------------------------------------------------------------------- agreement

  /** The client's state is the server's in everything but who polled last; an empty error text counts as none. */
  predicate UpToSource(x: ClientState, s: DeviceState) {
    && x.host == s.host && x.channel == s.channel && x.onoff == s.onoff
    && x.kind == Some(match s.kind case ToggleX => "togglex" case LightOnly => "light" case Mixed => "mixed")
    && x.channels == Some(s.channels) && x.lights == Some(s.lights) && x.light == s.light
    && x.timerxDigest == Some(s.timerxDigest) && x.triggerxDigest == Some(s.triggerxDigest)
    && x.updatedAt == s.updatedAt as real && x.stale == s.stale
    && x.error == if s.error == Some("") then None else s.error
  }

  /** `x` is what the client keeps of a cached device that goes by `k` once its uuid is trimmed. */
  ghost predicate Shows(m: JsMap<DeviceState>, x: ClientState, k: string) {
    exists v :: v in m.at && Trim(v) == k && UpToSource(x, m.at[v])
  }

  /** The client files a device under its trimmed uuid, and does not file a blank one. Where it did not write itself, it
      shows a device that goes by that uuid. */
  ghost predicate StatesAgree(m: JsMap<DeviceState>, c: Client) {
    forall v :: v in m.at && Trim(v) != "" && Trim(v) !in c.dirty ==>
      Trim(v) in c.config.context.deviceStates && Shows(m, c.config.context.deviceStates[Trim(v)], Trim(v))
  }

  predicate SameReading(x: ClientPower, p: PowerReading) {
    x.stale == p.stale && x.error == p.error && x.powerW == p.measures.powerW && x.voltageV == p.measures.voltageV
    && x.currentA == p.measures.currentA
  }

  ghost predicate ShowsReading(m: JsMap<PowerReading>, x: ClientPower, k: string) {
    exists v :: v in m.at && Trim(v) == k && SameReading(x, m.at[v])
  }

  ghost predicate PowerAgrees(m: JsMap<PowerReading>, c: Client) {
    forall v :: v in m.at && Trim(v) != "" ==>
      Trim(v) in c.config.context.devicePower && ShowsReading(m, c.config.context.devicePower[Trim(v)], Trim(v))
  }

  /** No other cached uuid is the same as `u` once trimmed, and `u` is not blank and has no surrounding blanks. */
  ghost predicate Sole<V>(m: JsMap<V>, u: string) {
    Trimmed(u) && forall v :: v in m.at && Trim(v) == u ==> v == u
  }

  /** Apart from what it wrote itself, the client only files devices under trimmed uuids. */
  ghost predicate OnlyTrimmed(c: Client) {
    && (forall k :: k in c.config.context.deviceStates ==> k in c.dirty || Trimmed(k))
    && (forall k :: k in c.config.context.devicePower ==> Trimmed(k))
  }

  /** Two clients with the same readings and the same states, except for what the second wrote itself. */
  ghost predicate Alike(a: Client, b: Client) {
    && a.dirty <= b.dirty
    && a.config.context.devicePower == b.config.context.devicePower
    && forall u :: u !in b.dirty ==> StateAt(a.config.context, u) == StateAt(b.config.context, u)
  }

  lemma {:induction false} MergedLookup(states: map<string, ClientState>, updates: seq<StreamState>, u: string)
    ensures (u in Merged(states, updates) <==> u in states || u in UuidsOf(updates))
    ensures u !in UuidsOf(updates) && u in states ==> Merged(states, updates)[u] == states[u]
  {
    if updates != [] {
      var n := |updates| - 1;
      MergedLookup(states, updates[..n], u);
      assert updates == updates[..n] + [updates[n]];
      assert UuidsOf(updates) == UuidsOf(updates[..n]) + {updates[n].uuid};
    }
  }

  lemma {:induction false} MergedSame(a: map<string, ClientState>, b: map<string, ClientState>, updates: seq<StreamState>, u: string)
    requires u in UuidsOf(updates)
    ensures u in Merged(a, updates) && u in Merged(b, updates) && Merged(a, updates)[u] == Merged(b, updates)[u]
  {
    var n := |updates| - 1;
    assert updates == updates[..n] + [updates[n]];
    assert UuidsOf(updates) == UuidsOf(updates[..n]) + {updates[n].uuid};
    if updates[n].uuid != u {
      MergedSame(a, b, updates[..n], u);
    }
  }

  lemma HearAlike(a: Client, b: Client, e: StreamEvent)
    requires Alike(a, b)
    ensures Alike(Hear(a, e), Hear(b, e))
  {
    hide AsClientState;
    hide MergedPower;
    if e.SnapshotReceived? {
      forall u | u !in Hear(b, e).dirty
        ensures StateAt(Hear(a, e).config.context, u) == StateAt(Hear(b, e).config.context, u)
      {
        MergedLookup(a.config.context.deviceStates, e.states, u);
        MergedLookup(b.config.context.deviceStates, e.states, u);
        if u in UuidsOf(e.states) {
          MergedSame(a.config.context.deviceStates, b.config.context.deviceStates, e.states, u);
        }
        hide Merged;
        hide UuidsOf;
        assert StateAt(a.config.context, u) == StateAt(b.config.context, u) || u in b.dirty;
      }
    }
  }

  /** What the client wrote itself stays confined to what it wrote itself, whatever arrives. */
  lemma {:induction false} DrainAlike(js: Js, a: Client, b: Client, queue: seq<P.Event>)
    requires Alike(a, b)
    ensures Alike(Drain(js, a, queue), Drain(js, b, queue))
    decreases |queue|
  {
    hide Alike;
    hide Heard;
    hide Hear;
    if queue != [] {
      if Heard(js, queue[0]).Some? {
        HearAlike(a, b, Heard(js, queue[0]).value);
      }
      DrainAlike(js, Receive(js, a, queue[0]), Receive(js, b, queue[0]), queue[1..]);
    }
  }

  lemma {:induction false} DrainAppend(js: Js, c: Client, queue: seq<P.Event>, more: seq<P.Event>)
    ensures Drain(js, c, queue + more) == Drain(js, Drain(js, c, queue), more)
    decreases |queue|
  {
    hide Receive;
    if queue == [] {
      assert queue + more == more;
    } else {
      assert (queue + more)[0] == queue[0] && (queue + more)[1..] == queue[1..] + more;
      DrainAppend(js, Receive(js, c, queue[0]), queue[1..], more);
    }
  }

  // ---------------------------------------------------------- the server's broadcasts

  /** The client with `x` filed under `k`; a blank uuid is not filed. */
  function Filed(c: Client, k: string, x: ClientState): Client {
    if k == "" then c
    else Client(c.config.(context := c.config.context.(deviceStates := c.config.context.deviceStates[k := x])), c.dirty - {k})
  }

  function FiledReading(c: Client, k: string, x: ClientPower): Client {
    if k == "" then c
    else Client(c.config.(context := c.config.context.(devicePower := c.config.context.devicePower[k := x])), c.dirty)
  }

  /** What a written state is parsed into. */
  function StateKept(s: DeviceState): StreamState { AsStream(s).(uuid := Trim(s.uuid)) }

  lemma StateKeptIs(s: DeviceState)
    ensures StateKept(s).uuid == Trim(s.uuid) && AsClientState(StateKept(s)) == AsClientState(AsStream(s))
  {
    hide Trim;
    hide KindName;
    hide SourceName;
  }

  lemma ParsedState(js: Js, s: DeviceState)
    requires Collates(js) && Normal(js, s)
    ensures ParseStreamState(js, Some(StateJson(s))) == if Trim(s.uuid) == "" then None else Some(StateKept(s))
  {
    ParseTrims(js, s);
    hide ParseStreamState;
    hide StateJson;
    hide AsStream;
    hide Trim;
  }

  lemma HeardState(js: Js, s: DeviceState)
    requires Collates(js) && Normal(js, s)
    ensures Heard(js, P.StateChanged(s)) == if Trim(s.uuid) == "" then None else Some(StateReceived(StateKept(s)))
    ensures Heard(js, P.WentStale(s)) == if Trim(s.uuid) == "" then None else Some(StaleReceived(StateKept(s)))
  {
    hide ParseStreamState;
    hide StateJson;
    hide StateKept;
    hide Trim;
    hide Normal;
    hide TotalPreorder;
    ParsedState(js, s);
  }

  lemma StateFiled(c: Client, x: StreamState)
    requires x.uuid != ""
    ensures Hear(c, StateReceived(x)) == Filed(c, x.uuid, AsClientState(x))
    ensures Hear(c, StaleReceived(x)) == Filed(c, x.uuid, AsClientState(x))
  {
    hide AsClientState;
  }

  /** A broadcast state is filed under its trimmed uuid, whichever of the two events carries it. */
  lemma ReceiveState(js: Js, c: Client, s: DeviceState)
    requires Collates(js) && Normal(js, s)
    ensures Receive(js, c, P.StateChanged(s)) == Filed(c, Trim(s.uuid), AsClientState(AsStream(s)))
    ensures Receive(js, c, P.WentStale(s)) == Filed(c, Trim(s.uuid), AsClientState(AsStream(s)))
  {
    hide Heard;
    hide Hear;
    hide StateKept;
    hide AsStream;
    hide AsClientState;
    hide Trim;
    hide Normal;
    hide TotalPreorder;
    HeardState(js, s);
    StateKeptIs(s);
    if Trim(s.uuid) != "" {
      StateFiled(c, StateKept(s));
    }
    hide Filed;
  }

  /** What a written reading is parsed into. */
  function ReadingKept(p: PowerReading): ClientPower { AsClientPower(p).(uuid := Trim(p.uuid)) }

  lemma HeardReading(js: Js, p: PowerReading)
    requires NormalReading(p)
    ensures Heard(js, P.PowerChanged(p)) == if Trim(p.uuid) == "" then None else Some(PowerReceived(ReadingKept(p)))
  {
    hide ParsePower;
    hide PowerJson;
    hide ReadingKept;
    hide Trim;
    ParsedReading(js, p);
  }

  lemma ParsedReading(js: Js, p: PowerReading)
    requires NormalReading(p)
    ensures ParsePower(js, Some(PowerJson(p))) == if Trim(p.uuid) == "" then None else Some(ReadingKept(p))
  {
    hide ParsePower;
    hide PowerJson;
    hide AsClientPower;
    hide Trim;
    PowerParseTrims(js, p);
  }

  lemma ReceivePower(js: Js, c: Client, p: PowerReading)
    requires NormalReading(p)
    ensures Receive(js, c, P.PowerChanged(p)) == FiledReading(c, Trim(p.uuid), ReadingKept(p))
  {
    HeardReading(js, p);
    if Trim(p.uuid) != "" {
      ReadingFiled(c, p);
    }
    hide Heard;
    hide Hear;
    hide ReadingKept;
    hide Trim;
  }

  lemma ReadingFiled(c: Client, p: PowerReading)
    requires Trim(p.uuid) != ""
    ensures Hear(c, PowerReceived(ReadingKept(p))) == FiledReading(c, Trim(p.uuid), ReadingKept(p))
  {
    hide Trim;
    assert c.dirty - {} == c.dirty;
  }

  lemma DrainOne(js: Js, c: Client, e: P.Event)
    ensures Drain(js, c, [e]) == Receive(js, c, e)
  {
    hide Receive;
    assert [e][1..] == [];
  }

  lemma DrainTwo(js: Js, c: Client, d: P.Event, e: P.Event)
    ensures Drain(js, c, [d, e]) == Receive(js, Receive(js, c, d), e)
  {
    hide Receive;
    DrainOne(js, c, d);
    DrainOne(js, Receive(js, c, d), e);
    DrainAppend(js, c, [d], [e]);
    assert [d] + [e] == [d, e];
  }

  /** The broadcasts of a completing poll bring the client to its candidate if that is a material change, and do
      nothing otherwise. */
  lemma DrainPoll(js: Js, c: Client, prev: Option<DeviceState>, s: DeviceState)
    requires Collates(js) && Normal(js, s)
    ensures Drain(js, c, P.EventsAfter(prev, s))
         == if HasMaterialStateChange(prev, s) then Filed(c, Trim(s.uuid), AsClientState(AsStream(s))) else c
  {
    hide Receive;
    hide Normal;
    hide AsClientState;
    hide AsStream;
    hide Drain;
    hide Trim;
    hide TotalPreorder;
    var changed, stale := P.StateChanged(s), P.WentStale(s);
    var once := Filed(c, Trim(s.uuid), AsClientState(AsStream(s)));
    ReceiveState(js, c, s);
    ReceiveState(js, once, s);
    FiledTwice(c, Trim(s.uuid), AsClientState(AsStream(s)));
    DrainOne(js, c, changed);
    DrainTwo(js, c, changed, stale);
    DrainNone(js, c);
    PollerHistory.EventsForms(prev, s);
    hide Filed;
    hide HasMaterialStateChange;
    hide P.EventsAfter;
  }

  lemma FiledTwice(c: Client, k: string, x: ClientState)
    ensures Filed(Filed(c, k, x), k, x) == Filed(c, k, x)
  {
    if k != "" {
      var states := c.config.context.deviceStates;
      assert states[k := x][k := x] == states[k := x];
      assert (c.dirty - {k}) - {k} == c.dirty - {k};
    }
  }

  /** The broadcasts of a completing telemetry poll bring the client its reading if it moved, and do nothing otherwise. */
  lemma DrainReading(js: Js, c: Client, prev: Option<PowerReading>, p: PowerReading)
    requires NormalReading(p)
    ensures Drain(js, c, P.PowerEvents(prev, p))
         == if P.PowerMoved(prev, p) then FiledReading(c, Trim(p.uuid), ReadingKept(p)) else c
  {
    hide P.PowerMoved;
    hide P.PowerEvents;
    hide Receive;
    hide ReadingKept;
    hide Drain;
    hide Trim;
    hide NormalReading;
    hide FiledReading;
    PollerHistory.ReadingEventsForms(prev, p);
    ReceivePower(js, c, p);
    ReceiveAlarm(js, FiledReading(c, Trim(p.uuid), ReadingKept(p)), p);
    DrainOne(js, c, P.PowerChanged(p));
    DrainTwo(js, c, P.PowerChanged(p), P.MeterWentStale(p));
    DrainNone(js, c);
  }

  lemma ReceiveAlarm(js: Js, c: Client, p: PowerReading)
    ensures Receive(js, c, P.MeterWentStale(p)) == c
  {
  }

  lemma DrainNone(js: Js, c: Client)
    ensures Drain(js, c, []) == c
  {
  }

  // --------------------------------------------------------------- the snapshot

  lemma {:induction false} ValuesOf<V>(m: JsMap<V>, keys: seq<string>)
    ensures forall x :: x in P.ValuesIn(m, keys) <==> exists u :: u in keys && u in m.at && m.at[u] == x
  {
    if keys != [] {
      ValuesOf(m, keys[1..]);
      assert keys == [keys[0]] + keys[1..];
      assert forall u :: u in keys <==> u == keys[0] || u in keys[1..];
    }
  }

  /** A snapshot lists exactly the cached values. */
  lemma GreetingLists(js: Js, s: P.Server)
    requires s.stateByUuid.Valid() && s.powerByUuid.Valid()
    ensures var g := P.Greeting(js, s);
      && |g| == 2 && g[0].Snapshot? && g[1].PowerSnapshot?
      && (forall x :: x in g[0].states <==> exists u :: u in s.stateByUuid.at && s.stateByUuid.at[u] == x)
      && (forall x :: x in g[1].readings <==> exists u :: u in s.powerByUuid.at && s.powerByUuid.at[u] == x)
  {
    ValuesOf(s.stateByUuid, s.stateByUuid.keys);
    ValuesOf(s.powerByUuid, s.powerByUuid.keys);
    StableSortMembers(P.StateUuidLe(js), P.ValuesIn(s.stateByUuid, s.stateByUuid.keys));
    StableSortMembers(P.PowerUuidLe(js), P.ValuesIn(s.powerByUuid, s.powerByUuid.keys));
    hide NoDup;
    hide P.ValuesIn;
    hide StableSort;
  }

  function StatesRead(js: Js, states: seq<DeviceState>): seq<StreamState> {
    Collect(ReadState(js), MapJson(WriteState(), states))
  }

  lemma SnapshotRead(js: Js, states: seq<DeviceState>, readings: seq<PowerReading>)
    ensures ParseSnapshotStates(js, Some(SnapshotJson(states))) == StatesRead(js, states)
    ensures ParsePowerSnapshot(js, Some(PowerSnapshotJson(readings))) == ReadingsRead(js, readings)
  {
    hide MapJson;
    hide Collect;
  }

  lemma StatesReadAppend(js: Js, states: seq<DeviceState>, x: DeviceState)
    ensures var p := ParseStreamState(js, Some(StateJson(x)));
      StatesRead(js, states + [x]) == if p.None? then StatesRead(js, states) else StatesRead(js, states) + [p.value]
  {
    hide ParseStreamState;
    hide StateJson;
    var all := states + [x];
    assert all[..|all| - 1] == states;
    var written := MapJson(WriteState(), all);
    assert written[..|written| - 1] == MapJson(WriteState(), states) && written[|written| - 1] == StateJson(x);
  }

  lemma MergedAppend(base: map<string, ClientState>, read: seq<StreamState>, y: StreamState)
    ensures Merged(base, read + [y]) == Merged(base, read)[y.uuid := AsClientState(y)]
    ensures UuidsOf(read + [y]) == UuidsOf(read) + {y.uuid}
  {
    assert (read + [y])[..|read + [y]| - 1] == read;
  }

  /** Merging the states read out of a snapshot of `m` makes the client show, under each uuid it names, a device that
      goes by it. */
  lemma {:induction false} SnapshotMerges(js: Js, m: JsMap<DeviceState>, states: seq<DeviceState>, base: map<string, ClientState>, k: string)
    requires Collates(js) && StatesNormal(js, m) && k != ""
    requires forall x :: x in states ==> x.uuid in m.at && m.at[x.uuid] == x
    ensures var read := StatesRead(js, states);
      && (k in UuidsOf(read) <==> exists x :: x in states && Trim(x.uuid) == k)
      && (k in UuidsOf(read) ==> k in Merged(base, read) && Shows(m, Merged(base, read)[k], k))
  {
    hide Normal;
    hide AsClientState;
    hide AsStream;
    hide UpToSource;
    hide TotalPreorder;
    hide StatesRead;
    hide Merged;
    hide UuidsOf;
    hide ParseStreamState;
    hide StateJson;
    hide StateKept;
    hide Trim;
    hide Shows;
    if states == [] {
      NothingRead(js);
    } else {
      var n := |states| - 1;
      var x := states[n];
      assert states == states[..n] + [x] && x in states;
      SnapshotMerges(js, m, states[..n], base, k);
      ParsedState(js, x);
      StatesReadAppend(js, states[..n], x);
      StateKeptIs(x);
      if Trim(x.uuid) != "" {
        MergedAppend(base, StatesRead(js, states[..n]), StateKept(x));
        ShownBySelf(m, x.uuid);
      }
    }
  }

  lemma ShownBySelf(m: JsMap<DeviceState>, v: string)
    requires v in m.at
    ensures Shows(m, AsClientState(AsStream(m.at[v])), Trim(v))
  {
    ExactUpToSource(m.at[v]);
    hide AsClientState;
    hide AsStream;
    hide UpToSource;
    hide Trim;
  }

  lemma NothingRead(js: Js)
    ensures StatesRead(js, []) == [] && UuidsOf([]) == {}
  {
  }

  function ReadingsRead(js: Js, readings: seq<PowerReading>): seq<ClientPower> {
    Collect(ReadPower(js), MapJson(WritePower(), readings))
  }

  lemma ReadingsReadAppend(js: Js, readings: seq<PowerReading>, x: PowerReading)
    ensures var p := ParsePower(js, Some(PowerJson(x)));
      ReadingsRead(js, readings + [x]) == if p.None? then ReadingsRead(js, readings) else ReadingsRead(js, readings) + [p.value]
  {
    hide ParsePower;
    hide PowerJson;
    var all := readings + [x];
    assert all[..|all| - 1] == readings;
    var written := MapJson(WritePower(), all);
    assert written[..|written| - 1] == MapJson(WritePower(), readings) && written[|written| - 1] == PowerJson(x);
  }

  lemma MergedPowerAppend(base: map<string, ClientPower>, read: seq<ClientPower>, y: ClientPower)
    ensures MergedPower(base, read + [y]) == MergedPower(base, read)[y.uuid := y]
  {
    assert (read + [y])[..|read + [y]| - 1] == read;
  }

  lemma {:induction false} PowerSnapshotMerges(js: Js, m: JsMap<PowerReading>, readings: seq<PowerReading>, base: map<string, ClientPower>, k: string)
    requires ReadingsNormal(m) && k != ""
    requires forall x :: x in readings ==> x.uuid in m.at && m.at[x.uuid] == x
    ensures var merged := MergedPower(base, ReadingsRead(js, readings));
      (exists x :: x in readings && Trim(x.uuid) == k) ==> k in merged && ShowsReading(m, merged[k], k)
  {
    hide ReadingsRead;
    hide MergedPower;
    hide ParsePower;
    hide PowerJson;
    hide Trim;
    hide ShowsReading;
    hide AsClientPower;
    if readings != [] {
      var n := |readings| - 1;
      var x := readings[n];
      assert readings == readings[..n] + [x] && x in readings;
      PowerSnapshotMerges(js, m, readings[..n], base, k);
      PowerParseTrims(js, x);
      ReadingsReadAppend(js, readings[..n], x);
      if Trim(x.uuid) != "" {
        MergedPowerAppend(base, ReadingsRead(js, readings[..n]), ReadingKept(x));
        ReadingShownBySelf(m, x.uuid);
      }
    }
  }

  lemma ReadingShownBySelf(m: JsMap<PowerReading>, v: string)
    requires v in m.at
    ensures ShowsReading(m, ReadingKept(m.at[v]), Trim(v))
  {
    ExactReading(m.at[v]);
    hide SameReading;
    hide ReadingKept;
    hide Trim;
  }

  lemma SnapshotStates(js: Js, m: JsMap<DeviceState>, states: seq<DeviceState>, c: Client, d: Client)
    requires Collates(js) && StatesNormal(js, m)
    requires forall x :: x in states <==> exists u :: u in m.at && m.at[u] == x
    requires d.config.context.deviceStates == Merged(c.config.context.deviceStates, StatesRead(js, states))
    ensures StatesAgree(m, d)
  {
    hide Merged;
    hide StatesRead;
    hide Shows;
    hide Normal;
    hide Trim;
    hide TotalPreorder;
    forall x | x in states
      ensures x.uuid in m.at && m.at[x.uuid] == x
    {
      var u :| u in m.at && m.at[u] == x;
    }
    forall v | v in m.at && Trim(v) != ""
      ensures Trim(v) in d.config.context.deviceStates && Shows(m, d.config.context.deviceStates[Trim(v)], Trim(v))
    {
      SnapshotMerges(js, m, states, c.config.context.deviceStates, Trim(v));
      assert m.at[v] in states && m.at[v].uuid == v;
    }
  }

  lemma SnapshotReadings(js: Js, m: JsMap<PowerReading>, readings: seq<PowerReading>, c: Client, d: Client)
    requires ReadingsNormal(m)
    requires forall x :: x in readings <==> exists u :: u in m.at && m.at[u] == x
    requires d.config.context.devicePower == MergedPower(c.config.context.devicePower, ReadingsRead(js, readings))
    ensures PowerAgrees(m, d)
  {
    hide MergedPower;
    hide ReadingsRead;
    hide ShowsReading;
    hide NormalReading;
    hide Trim;
    forall x | x in readings
      ensures x.uuid in m.at && m.at[x.uuid] == x
    {
      var u :| u in m.at && m.at[u] == x;
    }
    forall v | v in m.at && Trim(v) != ""
      ensures Trim(v) in d.config.context.devicePower && ShowsReading(m, d.config.context.devicePower[Trim(v)], Trim(v))
    {
      PowerSnapshotMerges(js, m, readings, c.config.context.devicePower, Trim(v));
      assert m.at[v] in readings && m.at[v].uuid == v;
    }
  }

  // ------------------------------------------------------------ every step agrees

  ghost predicate Agree(s: P.Server, c: Client) { StatesAgree(s.stateByUuid, c) && PowerAgrees(s.powerByUuid, c) }

  /** A greeting brings any client to agree. */
  lemma {:induction false} GreetingAgrees(js: Js, s: P.Server, c: Client)
    requires Collates(js) && CachesNormal(js, s) && s.stateByUuid.Valid() && s.powerByUuid.Valid()
    ensures Agree(s, Drain(js, c, P.Greeting(js, s)))
  {
    GreetingLists(js, s);
    var g := P.Greeting(js, s);
    assert g == [g[0], g[1]];
    DrainTwo(js, c, g[0], g[1]);
    GreetingReceived(js, c, g[0].states, g[1].readings);
    var d := Receive(js, Receive(js, c, g[0]), g[1]);
    hide P.Greeting;
    hide Drain;
    hide Receive;
    hide NoDup;
    hide Merged;
    hide MergedPower;
    hide StatesRead;
    hide ReadingsRead;
    hide StatesNormal;
    hide ReadingsNormal;
    hide StatesAgree;
    hide PowerAgrees;
    hide TotalPreorder;
    hide UuidsOf;
    SnapshotStates(js, s.stateByUuid, g[0].states, c, d);
    SnapshotReadings(js, s.powerByUuid, g[1].readings, c, d);
  }

  lemma ExactUpToSource(s: DeviceState)
    ensures UpToSource(AsClientState(AsStream(s)), s)
  {
  }

  lemma ExactReading(p: PowerReading)
    ensures SameReading(ReadingKept(p), p)
  {
    hide Trim;
  }

  lemma GreetingStates(js: Js, c: Client, states: seq<DeviceState>)
    ensures var d := Receive(js, c, P.Snapshot(states));
      && d.config.context.deviceStates == Merged(c.config.context.deviceStates, StatesRead(js, states))
      && d.config.context.devicePower == c.config.context.devicePower
  {
    SnapshotRead(js, states, []);
    hide StatesRead;
    hide Merged;
    hide UuidsOf;
    hide ParseSnapshotStates;
    hide SnapshotJson;
  }

  lemma GreetingReadings(js: Js, c: Client, readings: seq<PowerReading>)
    ensures var d := Receive(js, c, P.PowerSnapshot(readings));
      && d.config.context.deviceStates == c.config.context.deviceStates
      && d.config.context.devicePower == MergedPower(c.config.context.devicePower, ReadingsRead(js, readings))
  {
    hide ReadingsRead;
    hide MergedPower;
    hide ParsePowerSnapshot;
    hide PowerSnapshotJson;
    SnapshotRead(js, [], readings);
  }

  lemma GreetingReceived(js: Js, c: Client, states: seq<DeviceState>, readings: seq<PowerReading>)
    ensures var d := Receive(js, Receive(js, c, P.Snapshot(states)), P.PowerSnapshot(readings));
      && d.config.context.deviceStates == Merged(c.config.context.deviceStates, StatesRead(js, states))
      && d.config.context.devicePower == MergedPower(c.config.context.devicePower, ReadingsRead(js, readings))
  {
    hide *;
    GreetingStates(js, c, states);
    GreetingReadings(js, Receive(js, c, P.Snapshot(states)), readings);
  }

  /** A completed poll: what is broadcast keeps the client in agreement, and so does silence. */
  lemma {:induction false} PollAgrees(js: Js, s: P.Server, c: Client, candidate: DeviceState)
    requires Collates(js) && Normal(js, candidate) && StatesAgree(s.stateByUuid, c) && PowerAgrees(s.powerByUuid, c)
    ensures var prev := s.stateByUuid.Get(candidate.uuid);
      var d := Drain(js, c, P.EventsAfter(prev, candidate));
      && StatesAgree(s.stateByUuid.Set(candidate.uuid, P.StoredAfter(prev, candidate)), d)
      && PowerAgrees(s.powerByUuid, d)
  {
    var prev := s.stateByUuid.Get(candidate.uuid);
    hide HasMaterialStateChange;
    hide Drain;
    hide Normal;
    hide StatesAgree;
    hide ShowsReading;
    hide P.EventsAfter;
    hide P.StoredAfter;
    hide TotalPreorder;
    hide Trim;
    hide AsClientState;
    hide AsStream;
    DrainPoll(js, c, prev, candidate);
    if HasMaterialStateChange(prev, candidate) {
      ChangedState(s.stateByUuid, c, candidate);
    } else {
      UnchangedState(s.stateByUuid, c, candidate);
    }
  }

  lemma ChangedState(m: JsMap<DeviceState>, c: Client, candidate: DeviceState)
    requires StatesAgree(m, c) && HasMaterialStateChange(m.Get(candidate.uuid), candidate)
    ensures StatesAgree(m.Set(candidate.uuid, P.StoredAfter(m.Get(candidate.uuid), candidate)),
                        Filed(c, Trim(candidate.uuid), AsClientState(AsStream(candidate))))
  {
    hide HasMaterialStateChange;
    hide AsClientState;
    hide AsStream;
    hide UpToSource;
    hide Trim;
    hide Shows;
    var w := candidate.uuid;
    var m', d := m.Set(w, candidate), Filed(c, Trim(w), AsClientState(AsStream(candidate)));
    ShownBySelf(m', w);
    forall v | v in m'.at && Trim(v) != "" && Trim(v) !in d.dirty
      ensures Trim(v) in d.config.context.deviceStates && Shows(m', d.config.context.deviceStates[Trim(v)], Trim(v))
    {
      if Trim(v) != Trim(w) {
        StillShown(m, c.config.context.deviceStates[Trim(v)], Trim(v), w, candidate);
      }
    }
  }

  /** A device that goes by another uuid does not matter. */
  lemma StillShown(m: JsMap<DeviceState>, x: ClientState, k: string, w: string, state: DeviceState)
    requires Shows(m, x, k) && (Trim(w) != k || (w in m.at && UpToSource(x, m.at[w]) ==> UpToSource(x, state)))
    ensures Shows(m.Set(w, state), x, k)
  {
    hide UpToSource;
    hide Trim;
    var v :| v in m.at && Trim(v) == k && UpToSource(x, m.at[v]);
    assert v in m.Set(w, state).at && UpToSource(x, m.Set(w, state).at[v]);
  }

  lemma UnchangedState(m: JsMap<DeviceState>, c: Client, candidate: DeviceState)
    requires StatesAgree(m, c) && !HasMaterialStateChange(m.Get(candidate.uuid), candidate)
    ensures StatesAgree(m.Set(candidate.uuid, P.StoredAfter(m.Get(candidate.uuid), candidate)), c)
  {
    var w, prev := candidate.uuid, m.Get(candidate.uuid);
    MaterialChangeMeaning(prev, candidate);
    hide HasMaterialStateChange;
    hide MaterialOf;
    hide Shows;
    hide Trim;
    hide UpToSource;
    var stored := P.StoredAfter(prev, candidate);
    forall v | v in m.Set(w, stored).at && Trim(v) != "" && Trim(v) !in c.dirty
      ensures Trim(v) in c.config.context.deviceStates
      ensures Shows(m.Set(w, stored), c.config.context.deviceStates[Trim(v)], Trim(v))
    {
      var x := c.config.context.deviceStates[Trim(v)];
      SourceAside(x, prev.value, candidate.source);
      StillShown(m, x, Trim(v), w, stored);
    }
  }

  lemma SourceAside(x: ClientState, s: DeviceState, source: Source)
    ensures UpToSource(x, s.(source := source)) <==> UpToSource(x, s)
  {
  }

  /** A completed telemetry poll likewise: what is not broadcast would not have changed the reading shown. */
  lemma {:induction false} TelemetryAgrees(js: Js, s: P.Server, c: Client, uuid: string, reading: P.TelemetryAttempt, now: Clock)
    requires ReadingsNormal(s.powerByUuid) && StatesAgree(s.stateByUuid, c) && PowerAgrees(s.powerByUuid, c)
    ensures var p := P.PowerCandidate(s, uuid, reading, now); p.Some? ==>
      var d := Drain(js, c, P.PowerEvents(s.powerByUuid.Get(uuid), p.value));
      && StatesAgree(s.stateByUuid, d)
      && PowerAgrees(s.powerByUuid.Set(uuid, p.value), d)
  {
    var p := P.PowerCandidate(s, uuid, reading, now);
    hide P.PowerCandidate;
    hide P.PowerMoved;
    hide NormalReading;
    hide Drain;
    hide P.PowerEvents;
    hide Receive;
    hide Shows;
    hide PowerAgrees;
    hide ReadingKept;
    hide Trim;
    if p.Some? {
      var prev := s.powerByUuid.Get(uuid);
      PowerNormal(s, uuid, reading, now);
      DrainReading(js, c, prev, p.value);
      if P.PowerMoved(prev, p.value) {
        MovedReading(s.powerByUuid, c, p.value);
      } else {
        UnmovedAgrees(s, c, uuid, reading, now);
      }
    }
  }

  lemma ReadingStillShown(m: JsMap<PowerReading>, x: ClientPower, k: string, w: string, p: PowerReading)
    requires ShowsReading(m, x, k) && (Trim(w) != k || (w in m.at && SameReading(x, m.at[w]) ==> SameReading(x, p)))
    ensures ShowsReading(m.Set(w, p), x, k)
  {
    hide SameReading;
    hide Trim;
    var v :| v in m.at && Trim(v) == k && SameReading(x, m.at[v]);
    assert v in m.Set(w, p).at && SameReading(x, m.Set(w, p).at[v]);
  }

  lemma MovedReading(m: JsMap<PowerReading>, c: Client, p: PowerReading)
    requires PowerAgrees(m, c)
    ensures PowerAgrees(m.Set(p.uuid, p), FiledReading(c, Trim(p.uuid), ReadingKept(p)))
  {
    hide ReadingKept;
    hide SameReading;
    hide ShowsReading;
    hide Trim;
    var w := p.uuid;
    var m', d := m.Set(w, p), FiledReading(c, Trim(w), ReadingKept(p));
    ReadingShownBySelf(m', w);
    forall v | v in m'.at && Trim(v) != ""
      ensures Trim(v) in d.config.context.devicePower && ShowsReading(m', d.config.context.devicePower[Trim(v)], Trim(v))
    {
      if Trim(v) != Trim(w) {
        ReadingStillShown(m, c.config.context.devicePower[Trim(v)], Trim(v), w, p);
      }
    }
  }

  lemma UnmovedAgrees(s: P.Server, c: Client, uuid: string, reading: P.TelemetryAttempt, now: Clock)
    requires ReadingsNormal(s.powerByUuid) && PowerAgrees(s.powerByUuid, c)
    ensures var p := P.PowerCandidate(s, uuid, reading, now);
      p.Some? && !P.PowerMoved(s.powerByUuid.Get(uuid), p.value) ==> PowerAgrees(s.powerByUuid.Set(uuid, p.value), c)
  {
    var m, p := s.powerByUuid, P.PowerCandidate(s, uuid, reading, now);
    var prev := m.Get(uuid);
    if prev.Some? {
      assert NormalReading(prev.value);
      UnmovedReading(s, uuid, reading, now);
    } else {
      FirstReadingMoves(s, uuid, reading, now);
    }
    hide P.PowerCandidate;
    hide P.PowerMoved;
    hide NormalReading;
    hide SameReading;
    hide ShowsReading;
    hide Trim;
    if p.Some? && !P.PowerMoved(prev, p.value) {
      forall v | v in m.Set(uuid, p.value).at && Trim(v) != ""
        ensures Trim(v) in c.config.context.devicePower
        ensures ShowsReading(m.Set(uuid, p.value), c.config.context.devicePower[Trim(v)], Trim(v))
      {
        ReadingStillShown(m, c.config.context.devicePower[Trim(v)], Trim(v), uuid, p.value);
      }
    }
  }

  lemma FirstReadingMoves(s: P.Server, uuid: string, reading: P.TelemetryAttempt, now: Clock)
    ensures var p := P.PowerCandidate(s, uuid, reading, now);
      p.Some? && s.powerByUuid.Get(uuid).None? ==> P.PowerMoved(s.powerByUuid.Get(uuid), p.value)
  {
    hide P.PowerCandidate;
  }

  /** A reading that is not broadcast shows what the one before showed. */
  lemma UnmovedReading(s: P.Server, uuid: string, reading: P.TelemetryAttempt, now: Clock)
    requires s.powerByUuid.Get(uuid).Some? && NormalReading(s.powerByUuid.Get(uuid).value)
    ensures var prev := s.powerByUuid.Get(uuid); var p := P.PowerCandidate(s, uuid, reading, now);
      p.Some? && !P.PowerMoved(prev, p.value) ==>
        forall x :: SameReading(x, prev.value) ==> SameReading(x, p.value)
  {
    hide Trimmed;
  }

  lemma CompleteAgrees(js: Js, s: P.Server, step: P.Step, c: Client)
    requires Collates(js) && NormalInv(js, s) && P.Enabled(s, step) && step.PollCompletes? && Agree(s, c)
    ensures Agree(P.Next(js, s, step), Drain(js, c, PollerHistory.EventsOf(js, s, step)))
  {
    var t := s.tasks[step.task];
    var candidate := P.Candidate(js, s, t, step.attempt, step.now);
    NormalParts(js, s);
    CandidateNormal(js, s, t, step.attempt, step.now);
    PollAgrees(js, s, c, candidate);
    PollerSafety.CompleteFrame(s, step.task, candidate, step.now, step.random);
    hide NormalInv;
    hide P.Candidate;
    hide P.CompletePoll;
    hide P.EventsAfter;
    hide P.StoredAfter;
    hide Drain;
    hide StatesAgree;
    hide PowerAgrees;
    hide TotalPreorder;
    hide Normal;
  }

  lemma NormalParts(js: Js, s: P.Server)
    requires NormalInv(js, s)
    ensures StatesNormal(js, s.stateByUuid) && ReadingsNormal(s.powerByUuid)
    ensures s.stateByUuid.Valid() && s.powerByUuid.Valid()
  {
    hide NoDup;
    hide PollerSafety.PollsOk;
    hide PollerSafety.TelemetryOk;
    hide PollerSafety.RecoveriesOk;
  }

  lemma TelemetryStepAgrees(js: Js, s: P.Server, step: P.Step, c: Client)
    requires NormalInv(js, s) && P.Enabled(s, step) && step.TelemetryCompletes? && Agree(s, c)
    ensures Agree(P.Next(js, s, step), Drain(js, c, PollerHistory.EventsOf(js, s, step)))
  {
    var u := s.telemetryTasks[step.task].uuid;
    NormalParts(js, s);
    TelemetryAgrees(js, s, c, u, step.reading, step.now);
    TelemetryEffect(s, step.task, step.reading, step.now);
    PollerSafety.TelemetryFrame(s, step.task, step.reading, step.now);
    DrainNone(js, c);
    hide NormalInv;
    hide P.PowerCandidate;
    hide P.CompleteTelemetry;
    hide P.PowerEvents;
    hide Drain;
    hide StatesAgree;
    hide PowerAgrees;
    hide Trimmed;
  }

  /** Whatever the server does, the client agrees once it has received what the step broadcasts. */
  lemma ServerAgrees(js: Js, s: P.Server, step: P.Step, c: Client)
    requires Collates(js) && NormalInv(js, s) && P.Enabled(s, step) && Agree(s, c)
    ensures Agree(P.Next(js, s, step), Drain(js, c, PollerHistory.EventsOf(js, s, step)))
  {
    hide NormalInv;
    hide Agree;
    hide TotalPreorder;
    if step.PollCompletes? {
      CompleteAgrees(js, s, step, c);
    } else if step.TelemetryCompletes? {
      TelemetryStepAgrees(js, s, step, c);
    } else {
      NoEvents(js, s, step);
      PollerHistory.SameStates(js, s, step);
      SamePower(js, s, step);
      DrainNone(js, c);
      SameCaches(s, P.Next(js, s, step), c);
    }
    hide P.Next;
    hide P.Enabled;
    hide PollerHistory.EventsOf;
    hide Drain;
  }

  lemma NoEvents(js: Js, s: P.Server, step: P.Step)
    requires P.Enabled(s, step) && !step.PollCompletes? && !step.TelemetryCompletes?
    ensures PollerHistory.EventsOf(js, s, step) == []
  {
  }

  lemma SameCaches(s: P.Server, t: P.Server, c: Client)
    requires Agree(s, c) && t.stateByUuid == s.stateByUuid && t.powerByUuid == s.powerByUuid
    ensures Agree(t, c)
  {
  }

  /** What the client writes itself it also marks as its own. */
  lemma ActAlike(c: Client, e: ClientEvent)
    requires e.FromStream? ==> e.stream.Connection?
    ensures Alike(c, Act(c, e))
  {
    hide Optimistic;
    hide Failed;
    hide Trim;
  }

  lemma AlikeAgrees(s: P.Server, a: Client, b: Client)
    requires Agree(s, a) && Alike(a, b)
    ensures Agree(s, b)
  {
    hide Shows;
    hide ShowsReading;
    hide Trim;
    forall v | v in s.stateByUuid.at && Trim(v) != "" && Trim(v) !in b.dirty
      ensures Trim(v) in b.config.context.deviceStates
      ensures Shows(s.stateByUuid, b.config.context.deviceStates[Trim(v)], Trim(v))
    {
      assert StateAt(a.config.context, Trim(v)) == StateAt(b.config.context, Trim(v));
    }
  }

  // -------------------------------------------------------------------- all runs

  ghost predicate IdsOk(s: P.Server) { forall id :: id in s.subscribers ==> id < s.nextSubscriberId }

  lemma IdsStep(js: Js, s: P.Server, step: P.Step)
    requires IdsOk(s) && P.Enabled(s, step)
    ensures IdsOk(P.Next(js, s, step))
  {
    hide P.Greeting;
    hide P.Candidate;
    hide P.CompletePoll;
    hide P.PowerCandidate;
    hide P.PowerEvents;
    hide P.TelemetryMeta;
    if step.PollCompletes? {
      var c := P.Candidate(js, s, s.tasks[step.task], step.attempt, step.now);
      PollerSafety.CompleteFrame(s, step.task, c, step.now, step.random);
    }
  }

  /** A connected client agrees once it has received everything undelivered. */
  ghost predicate Linked(js: Js, y: System) {
    y.link.Some? ==>
      y.link.value in y.server.subscribers && Agree(y.server, Drain(js, y.client, y.server.subscribers[y.link.value]))
  }

  ghost predicate SystemInv(js: Js, y: System) { NormalInv(js, y.server) && IdsOk(y.server) && Linked(js, y) }

  lemma ServerMovesKeeps(js: Js, y: System, step: P.Step)
    requires Collates(js) && SystemInv(js, y) && P.Enabled(y.server, step)
    requires y.link.Some? ==> step != P.Pulls(y.link.value) && step != P.Unsubscribes(y.link.value)
    ensures SystemInv(js, y.(server := P.Next(js, y.server, step)))
  {
    hide NormalInv;
    hide Agree;
    hide Drain;
    hide P.Next;
    hide P.Enabled;
    hide PollerHistory.EventsOf;
    hide TotalPreorder;
    NormalStep(js, y.server, step);
    IdsStep(js, y.server, step);
    if y.link.Some? {
      var id := y.link.value;
      var queue := y.server.subscribers[id];
      PollerHistory.QueueGrows(js, y.server, step, id);
      DrainAppend(js, y.client, queue, PollerHistory.EventsOf(js, y.server, step));
      ServerAgrees(js, y.server, step, Drain(js, y.client, queue));
    }
  }

  lemma ConnectsKeeps(js: Js, y: System)
    requires Collates(js) && SystemInv(js, y)
    ensures SystemInv(js, y.(server := P.Subscribe(js, y.server), link := Some(y.server.nextSubscriberId)))
  {
    NormalParts(js, y.server);
    hide NormalInv;
    hide Agree;
    hide Drain;
    hide P.Next;
    hide P.Greeting;
    hide TotalPreorder;
    hide NoDup;
    hide StatesNormal;
    hide ReadingsNormal;
    hide Trimmed;
    SubscribeIs(js, y.server);
    NormalStep(js, y.server, P.Subscribes);
    IdsStep(js, y.server, P.Subscribes);
    GreetingAgrees(js, y.server, y.client);
    SameCaches(y.server, P.Subscribe(js, y.server), Drain(js, y.client, P.Greeting(js, y.server)));
  }

  lemma SubscribeIs(js: Js, s: P.Server)
    ensures P.Enabled(s, P.Subscribes) && P.Next(js, s, P.Subscribes) == P.Subscribe(js, s)
  {
    hide P.Greeting;
  }

  lemma DeliversKeeps(js: Js, y: System)
    requires Collates(js) && SystemInv(js, y) && y.link.Some? && P.Enabled(y.server, P.Pulls(y.link.value))
    ensures y.link.value in y.server.subscribers && y.server.subscribers[y.link.value] != []
    ensures SystemInv(js, y.(server := P.Next(js, y.server, P.Pulls(y.link.value)),
                             client := Receive(js, y.client, y.server.subscribers[y.link.value][0])))
  {
    PullIs(js, y.server, y.link.value);
    hide NormalInv;
    hide Agree;
    hide Drain;
    hide Receive;
    hide P.Next;
    hide P.Enabled;
    hide TotalPreorder;
    var pull := P.Pulls(y.link.value);
    NormalStep(js, y.server, pull);
    IdsStep(js, y.server, pull);
    SameCaches(y.server, P.Next(js, y.server, pull), Drain(js, y.client, y.server.subscribers[y.link.value]));
    DrainHead(js, y.client, y.server.subscribers[y.link.value]);
  }

  lemma DrainHead(js: Js, c: Client, queue: seq<P.Event>)
    requires queue != []
    ensures Drain(js, c, queue) == Drain(js, Receive(js, c, queue[0]), queue[1..])
  {
    hide Receive;
  }

  lemma PullIs(js: Js, s: P.Server, id: nat)
    requires P.Enabled(s, P.Pulls(id))
    ensures id in s.subscribers && s.subscribers[id] != []
    ensures var t := P.Next(js, s, P.Pulls(id));
      id in t.subscribers && t.subscribers[id] == s.subscribers[id][1..]
      && t.stateByUuid == s.stateByUuid && t.powerByUuid == s.powerByUuid
  {
  }

  lemma ActsKeeps(js: Js, y: System, e: ClientEvent)
    requires SystemInv(js, y) && (e.FromStream? ==> e.stream.Connection?)
    ensures SystemInv(js, y.(client := Act(y.client, e)))
  {
    hide NormalInv;
    hide Agree;
    hide Alike;
    hide Drain;
    hide Act;
    if y.link.Some? {
      var queue := y.server.subscribers[y.link.value];
      ActAlike(y.client, e);
      DrainAlike(js, y.client, Act(y.client, e), queue);
      AlikeAgrees(y.server, Drain(js, y.client, queue), Drain(js, Act(y.client, e), queue));
    }
  }

  lemma SystemStepKeeps(js: Js, y: System, step: SystemStep)
    requires Collates(js) && SystemInv(js, y) && CanDo(y, step)
    ensures SystemInv(js, Do(js, y, step))
  {
    hide NormalInv;
    hide Agree;
    hide Drain;
    hide Receive;
    hide Act;
    hide P.Next;
    hide P.Enabled;
    hide P.Subscribe;
    hide TotalPreorder;
    match step {
      case ServerMoves(t) => ServerMovesKeeps(js, y, t);
      case Connects => ConnectsKeeps(js, y);
      case Delivers => DeliversKeeps(js, y);
      case ClientActs(e) => ActsKeeps(js, y, e);
      case Drops =>
      case ServerRestarts => NormalAtStart(js);
    }
  }

  lemma StartAgrees(js: Js, cidr: string)
    ensures SystemInv(js, Start(cidr))
  {
    NormalAtStart(js);
    hide NormalInv;
  }

  lemma {:induction false} SystemKept(js: Js, cidr: string, steps: seq<SystemStep>)
    requires Collates(js) && SystemRun(js, cidr, steps)
    ensures SystemInv(js, SystemAfter(js, cidr, steps))
    decreases |steps|
  {
    hide SystemInv;
    hide Do;
    hide CanDo;
    hide Start;
    hide TotalPreorder;
    if steps == [] {
      StartAgrees(js, cidr);
    } else {
      var n := |steps| - 1;
      SystemKept(js, cidr, steps[..n]);
      SystemStepKeeps(js, SystemAfter(js, cidr, steps[..n]), steps[n]);
    }
  }

  lemma {:induction false} OnlyTrimmedKept(js: Js, cidr: string, steps: seq<SystemStep>)
    requires SystemRun(js, cidr, steps)
    ensures OnlyTrimmed(SystemAfter(js, cidr, steps).client)
    decreases |steps|
  {
    hide CanDo;
    hide Receive;
    hide Act;
    hide P.Next;
    hide P.Subscribe;
    hide OnlyTrimmed;
    if steps == [] {
      StartTrimmed(cidr);
    } else {
      var n := |steps| - 1;
      OnlyTrimmedKept(js, cidr, steps[..n]);
      TrimmedStep(js, SystemAfter(js, cidr, steps[..n]), steps[n]);
      hide Do;
    }
  }

  lemma StartTrimmed(cidr: string)
    ensures OnlyTrimmed(Start(cidr).client)
  {
  }

  lemma TrimmedStep(js: Js, y: System, step: SystemStep)
    requires CanDo(y, step) && OnlyTrimmed(y.client)
    ensures OnlyTrimmed(Do(js, y, step).client)
  {
    hide Receive;
    hide Act;
    hide P.Next;
    hide P.Subscribe;
    hide OnlyTrimmed;
    match step {
      case Delivers => ReceiveTrimmed(js, y.client, y.server.subscribers[y.link.value][0]);
      case ClientActs(e) => ActTrimmed(y.client, e);
      case _ =>
    }
  }

  /** A client that differs from an orderly one only in what it marked as its own is orderly. */
  lemma ActTrimmed(c: Client, e: ClientEvent)
    requires OnlyTrimmed(c) && (e.FromStream? ==> e.stream.Connection?)
    ensures OnlyTrimmed(Act(c, e))
  {
    hide Act;
    hide Trimmed;
    ActAlike(c, e);
    forall k | k in Act(c, e).config.context.deviceStates
      ensures k in Act(c, e).dirty || Trimmed(k)
    {
      assert k !in Act(c, e).dirty ==> StateAt(c.config.context, k) == StateAt(Act(c, e).config.context, k);
    }
  }

  /** Whatever arrives is filed under a trimmed uuid. */
  lemma ReceiveTrimmed(js: Js, c: Client, e: P.Event)
    requires OnlyTrimmed(c)
    ensures OnlyTrimmed(Receive(js, c, e))
  {
    hide Merged;
    hide MergedPower;
    hide UuidsOf;
    hide ParseStreamState;
    hide ParsePower;
    hide ParseSnapshotStates;
    hide ParsePowerSnapshot;
    hide AsClientState;
    hide Trimmed;
    match e {
      case Snapshot(states) =>
        ReadTrimmed(js, Some(SnapshotJson(states)));
        MergeTrimmed(c, ParseSnapshotStates(js, Some(SnapshotJson(states))));
      case PowerSnapshot(readings) =>
        ReadTrimmed(js, Some(PowerSnapshotJson(readings)));
        MergePowerTrimmed(c, ParsePowerSnapshot(js, Some(PowerSnapshotJson(readings))));
      case StateChanged(state) => ParsedTrimmed(js, Some(StateJson(state)));
      case WentStale(state) => ParsedTrimmed(js, Some(StateJson(state)));
      case PowerChanged(reading) => ParsedTrimmed(js, Some(PowerJson(reading)));
      case MeterWentStale(_) =>
    }
  }

  lemma ParsedTrimmed(js: Js, v: Value)
    ensures ParseStreamState(js, v).Some? ==> Trimmed(ParseStreamState(js, v).value.uuid)
    ensures ParsePower(js, v).Some? ==> Trimmed(ParsePower(js, v).value.uuid)
  {
    TrimIdempotent(TextOf(js, Field(v, KUuid)));
    hide Trim;
    hide TextOf;
    hide ChannelOf;
    hide ChannelsOf;
    hide LightsOf;
    hide LightOf;
    hide ScheduleDigestOf;
    hide Number;
    hide OnOff;
    hide StringOnly;
    hide Truthy;
  }

  lemma ReadTrimmed(js: Js, v: Value)
    ensures forall x :: x in ParseSnapshotStates(js, v) ==> Trimmed(x.uuid)
    ensures forall x :: x in ParsePowerSnapshot(js, v) ==> Trimmed(x.uuid)
  {
    hide ParseStreamState;
    hide ParsePower;
    hide Trimmed;
    forall w: Value
      ensures ReadState(js)(w).Some? ==> Trimmed(ReadState(js)(w).value.uuid)
      ensures ReadPower(js)(w).Some? ==> Trimmed(ReadPower(js)(w).value.uuid)
    {
      ParsedTrimmed(js, w);
    }
    CollectAll(ReadState(js), (x: StreamState) => Trimmed(x.uuid), Items(Field(v, KStates)));
    CollectAll(ReadPower(js), (x: ClientPower) => Trimmed(x.uuid), Items(Field(v, KReadings)));
  }

  lemma MergeTrimmed(c: Client, updates: seq<StreamState>)
    requires OnlyTrimmed(c) && forall x :: x in updates ==> Trimmed(x.uuid)
    ensures OnlyTrimmed(Hear(c, SnapshotReceived(updates)))
  {
    hide Merged;
    hide Trimmed;
    forall k | k in Merged(c.config.context.deviceStates, updates)
      ensures k in c.dirty - UuidsOf(updates) || Trimmed(k)
    {
      MergedLookup(c.config.context.deviceStates, updates, k);
    }
  }

  lemma {:induction false} MergePowerKeys(power: map<string, ClientPower>, updates: seq<ClientPower>)
    requires forall k :: k in power ==> Trimmed(k)
    requires forall x :: x in updates ==> Trimmed(x.uuid)
    ensures forall k :: k in MergedPower(power, updates) ==> Trimmed(k)
  {
    hide Trimmed;
    if updates != [] {
      var n := |updates| - 1;
      assert updates[n] in updates && forall x :: x in updates[..n] ==> x in updates;
      MergePowerKeys(power, updates[..n]);
    }
  }

  lemma MergePowerTrimmed(c: Client, updates: seq<ClientPower>)
    requires OnlyTrimmed(c) && forall x :: x in updates ==> Trimmed(x.uuid)
    ensures OnlyTrimmed(Hear(c, PowerSnapshotReceived(updates)))
  {
    hide MergedPower;
    hide Trimmed;
    MergePowerKeys(c.config.context.devicePower, updates);
  }

  lemma {:induction false} DrainTrimmed(js: Js, c: Client, queue: seq<P.Event>)
    requires OnlyTrimmed(c)
    ensures OnlyTrimmed(Drain(js, c, queue))
    decreases |queue|
  {
    hide Receive;
    hide OnlyTrimmed;
    if queue != [] {
      ReceiveTrimmed(js, c, queue[0]);
      DrainTrimmed(js, Receive(js, c, queue[0]), queue[1..]);
    }
  }

  /** Replica agreement. Take any run of the server and a client, in which the server polls, recovers and is restarted,
      and the client connects, loses the connection, reconnects and toggles, all in any order. Whenever the client is
      connected, applying the undelivered events to it gives, for each device the server caches and the client did not
      write itself since: exactly the server's state, with only `source` allowed to differ, if the device's uuid has no
      surrounding blanks and no other cached uuid equals it once trimmed; in the latter case, the state of a device that
      equals it; and no state at all if the uuid has surrounding blanks. Readings likewise agree on staleness, error,
      power, voltage and current. */
  lemma {:induction false} ReplicaAgrees(js: Js, cidr: string, steps: seq<SystemStep>, u: string)
    requires Collates(js) && SystemRun(js, cidr, steps)
    requires SystemAfter(js, cidr, steps).link.Some?
    ensures var y := SystemAfter(js, cidr, steps);
      && y.link.value in y.server.subscribers
      && var drained := Drain(js, y.client, y.server.subscribers[y.link.value]);
         var states, power := drained.config.context.deviceStates, drained.config.context.devicePower;
         && (u in y.server.stateByUuid.at && u !in drained.dirty ==>
               && (u in states <==> Trimmed(u))
               && (Trimmed(u) ==> Shows(y.server.stateByUuid, states[u], u))
               && (Sole(y.server.stateByUuid, u) ==> UpToSource(states[u], y.server.stateByUuid.at[u])))
         && (u in y.server.powerByUuid.at ==>
               && (u in power <==> Trimmed(u))
               && (Trimmed(u) ==> ShowsReading(y.server.powerByUuid, power[u], u))
               && (Sole(y.server.powerByUuid, u) ==> SameReading(power[u], y.server.powerByUuid.at[u])))
  {
    SystemKept(js, cidr, steps);
    OnlyTrimmedKept(js, cidr, steps);
    var y := SystemAfter(js, cidr, steps);
    hide SystemRun;
    hide SystemAfter;
    hide NormalInv;
    hide Drain;
    hide OnlyTrimmed;
    hide StatesAgree;
    hide PowerAgrees;
    hide Shows;
    hide ShowsReading;
    hide Sole;
    hide UpToSource;
    hide SameReading;
    hide Trimmed;
    DrainTrimmed(js, y.client, y.server.subscribers[y.link.value]);
    PerDevice(y.server, Drain(js, y.client, y.server.subscribers[y.link.value]), u);
  }

  lemma PerDevice(s: P.Server, c: Client, u: string)
    requires Agree(s, c) && OnlyTrimmed(c)
    ensures var states, power := c.config.context.deviceStates, c.config.context.devicePower;
      && (u in s.stateByUuid.at && u !in c.dirty ==>
            && (u in states <==> Trimmed(u))
            && (Trimmed(u) ==> Shows(s.stateByUuid, states[u], u))
            && (Sole(s.stateByUuid, u) ==> UpToSource(states[u], s.stateByUuid.at[u])))
      && (u in s.powerByUuid.at ==>
            && (u in power <==> Trimmed(u))
            && (Trimmed(u) ==> ShowsReading(s.powerByUuid, power[u], u))
            && (Sole(s.powerByUuid, u) ==> SameReading(power[u], s.powerByUuid.at[u])))
  {
    hide Trim;
    hide UpToSource;
    hide SameReading;
  }

  /** An instance: a device configured as " a" arrives as "a", so the client never shows it under its own uuid. */
  lemma BlankUuidInstance(js: Js, c: Client, s: DeviceState)
    requires Collates(js) && Normal(js, s) && s.uuid == " a"
    ensures var d := Receive(js, c, P.StateChanged(s)).config.context.deviceStates;
      d == c.config.context.deviceStates["a" := AsClientState(AsStream(s))]
      && (" a" in d <==> " a" in c.config.context.deviceStates)
  {
    hide Receive;
    hide AsStream;
    hide AsClientState;
    hide Trim;
    hide Normal;
    hide TotalPreorder;
    TrimsBlank();
    ReceiveState(js, c, s);
  }

  lemma TrimsBlank()
    ensures Trim(" a") == "a"
  {
    TrimStartFixed("a");
    TrimEndFixed("a");
    assert " a"[1..] == "a";
    assert IsBlank(' ') && !IsBlank('a');
  }

  // ----------------------------------------------------- how long own writes last

  /** An event that makes the client write the state of `u`. */
  ghost predicate Names(js: Js, e: P.Event, u: string) {
    Heard(js, e).Some? && Writes(FromStream(Heard(js, e).value), u)
  }

  lemma HearWrites(c: Client, e: StreamEvent, u: string)
    ensures u in Hear(c, e).dirty <==> u in c.dirty && !Writes(FromStream(e), u)
    ensures !Writes(FromStream(e), u) ==> StateAt(Hear(c, e).config.context, u) == StateAt(c.config.context, u)
  {
    hide Merged;
    hide MergedPower;
    hide AsClientState;
    if e.SnapshotReceived? {
      MergedLookup(c.config.context.deviceStates, e.states, u);
      assert Mentions(e.states, u) <==> u in UuidsOf(e.states);
    }
  }

  /** What the client wrote itself lasts exactly until an event arrives that names the device. */
  lemma {:induction false} OwnWriteLasts(js: Js, c: Client, queue: seq<P.Event>, u: string)
    ensures var d := Drain(js, c, queue); var named := exists i :: 0 <= i < |queue| && Names(js, queue[i], u);
      && (u in d.dirty <==> u in c.dirty && !named)
      && (!named ==> StateAt(d.config.context, u) == StateAt(c.config.context, u))
    decreases |queue|
  {
    hide Heard;
    hide Hear;
    hide Writes;
    if queue != [] {
      if Heard(js, queue[0]).Some? {
        HearWrites(c, Heard(js, queue[0]).value, u);
      }
      OwnWriteLasts(js, Receive(js, c, queue[0]), queue[1..], u);
      assert forall i :: 0 < i < |queue| ==> queue[i] == queue[1..][i - 1];
      assert forall i :: 0 <= i < |queue[1..]| ==> queue[1..][i] == queue[i + 1];
    }
  }

  lemma StateNames(js: Js, s: DeviceState, u: string)
    requires Collates(js) && Normal(js, s) && u != ""
    ensures Names(js, P.StateChanged(s), u) <==> Trim(s.uuid) == u
    ensures Names(js, P.WentStale(s), u) <==> Trim(s.uuid) == u
  {
    hide Heard;
    hide StateKept;
    hide AsStream;
    hide AsClientState;
    hide Trim;
    hide Normal;
    hide TotalPreorder;
    HeardState(js, s);
    StateKeptIs(s);
  }

  /** A completed poll names a device exactly if the outcome is a material change and the device goes by its trimmed
      uuid; so an unchanged outcome leaves an optimistic state standing. */
  lemma PollNames(js: Js, prev: Option<DeviceState>, s: DeviceState, u: string)
    requires Collates(js) && Normal(js, s) && u != ""
    ensures (exists i :: 0 <= i < |P.EventsAfter(prev, s)| && Names(js, P.EventsAfter(prev, s)[i], u))
       <==> HasMaterialStateChange(prev, s) && Trim(s.uuid) == u
  {
    hide P.EventsAfter;
    hide HasMaterialStateChange;
    hide Names;
    hide Trim;
    hide Normal;
    hide TotalPreorder;
    StateNames(js, s, u);
    PollerHistory.EventsForms(prev, s);
    if HasMaterialStateChange(prev, s) {
      assert P.EventsAfter(prev, s)[0] == P.StateChanged(s);
    }
  }

  lemma ReadNames(js: Js, states: seq<DeviceState>, u: string)
    ensures Names(js, P.Snapshot(states), u) <==> u in UuidsOf(StatesRead(js, states))
  {
    SnapshotRead(js, states, []);
    hide StatesRead;
    hide ParseSnapshotStates;
    hide SnapshotJson;
  }

  /** A snapshot names exactly the devices that go by the trimmed uuids of the states it lists. */
  lemma SnapshotNames(js: Js, m: JsMap<DeviceState>, states: seq<DeviceState>, u: string)
    requires Collates(js) && StatesNormal(js, m) && u != ""
    requires forall x :: x in states ==> x.uuid in m.at && m.at[x.uuid] == x
    ensures Names(js, P.Snapshot(states), u) <==> exists x :: x in states && Trim(x.uuid) == u
  {
    hide Names;
    hide Normal;
    hide Trim;
    hide StatesRead;
    hide UuidsOf;
    hide TotalPreorder;
    hide Shows;
    hide Merged;
    ReadNames(js, states, u);
    SnapshotMerges(js, m, states, map[], u);
  }
}
