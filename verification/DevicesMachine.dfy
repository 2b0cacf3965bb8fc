/** The web client's state machine: an inventory region, an operations region with an optimistic toggle, and a monitor
    region, over one shared context. */
module DevicesMachine {
  import opened Prelude
  import opened Text
  import opened Devices
  import opened StreamParse
  import Reconnect

  /** The client's `DeviceState`. An absent `light` and a null one are not told apart. */
  datatype ClientState = ClientState(
    host: string,
    kind: Option<string>,
    channel: nat,
    onoff: Bit,
    channels: Option<seq<Channel>>,
    lights: Option<seq<Light>>,
    light: Option<Light>,
    timerxDigest: Option<seq<DigestEntry>>,
    triggerxDigest: Option<seq<DigestEntry>>,
    updatedAt: real,
    stale: bool,
    source: Option<string>,
    error: Option<string>)

  datatype Rollback = Rollback(uuid: string, previous: Option<ClientState>)

  datatype SystemDump = SystemDump(uuid: string, host: string, data: string)

  /** `devices` lists the uuids of the cloud inventory; `hosts` the host of each device. */
  datatype Context = Context(
    devices: seq<string>,
    hosts: map<string, string>,
    cidr: string,
    deviceStates: map<string, ClientState>,
    devicePower: map<string, ClientPower>,
    systemDump: Option<SystemDump>,
    activeDeviceUuid: Option<string>,
    toggleRollback: Option<Rollback>)

  datatype Inventory = InventoryIdle | RefreshingCloud | SuggestingCidr | DiscoveringHosts

  datatype Operations = OperationsIdle | Resolving | Toggling | FetchingDiagnostics

  datatype Config = Config(context: Context, inventory: Inventory, operations: Operations, monitor: Reconnect.Monitor)

  datatype UserEvent =
    | Refresh
    | SetCidr(cidr: string)
    | Scan
    | Resolve(uuid: string)
    | Toggle(uuid: string, onoff: Bit, now: Clock)
    | RefreshState(uuid: string)
    | Diagnostics(uuid: string)
    | RequestRefresh(uuid: string)
    | CloseSystemDump

  /** What the `streamEvents` actor sends back. */
  datatype StreamEvent =
    | Connection(signal: Reconnect.Signal)
    | StateReceived(state: StreamState)
    | StaleReceived(state: StreamState)
    | SnapshotReceived(states: seq<StreamState>)
    | PowerSnapshotReceived(readings: seq<ClientPower>)
    | PowerReceived(reading: ClientPower)

  /** What the promise of an invoked request comes to. */
  datatype Reply =
    | CloudRefreshed(devices: seq<string>, hosts: map<string, string>)
    | CloudFailed
    | CidrSuggested(default: Option<string>)
    | SuggestionFailed
    | HostsDiscovered(hosts: map<string, string>)
    | DiscoveryFailed
    | HostResolved(hosts: map<string, string>)
    | ResolutionFailed
    | Toggled
    | ToggleFailed(message: string)
    | DiagnosticsFetched(dump: SystemDump)
    | DiagnosticsFailed

  datatype ClientEvent = FromUser(user: UserEvent) | FromStream(stream: StreamEvent) | FromServer(reply: Reply)

  function Initial(cidr: string): Config {
    Config(Context([], map[], cidr, map[], map[], None, None, None), InventoryIdle, OperationsIdle, Reconnect.Connecting)
  }

  predicate HasHost(c: Context, uuid: string) { uuid in c.hosts && c.hosts[uuid] != "" }

  function StateAt(c: Context, uuid: string): Option<ClientState> {
    if uuid in c.deviceStates then Some(c.deviceStates[uuid]) else None
  }

  // -------------------------------------------------------------- stream actions

  /** The error that is kept: an empty text counts as none. */
  function KeptError(error: Option<string>): Option<string> { if error == Some("") then None else error }

  function AsClientState(s: StreamState): ClientState {
    ClientState(s.host, s.kind, s.channel, s.onoff, Some(s.channels), Some(s.lights), s.light, Some(s.timerxDigest),
                Some(s.triggerxDigest), s.updatedAt, s.stale, s.source, KeptError(s.error))
  }

  function Merged(states: map<string, ClientState>, updates: seq<StreamState>): map<string, ClientState> {
    if updates == [] then states
    else
      var n := |updates| - 1;
      Merged(states, updates[..n])[updates[n].uuid := AsClientState(updates[n])]
  }

  function MergedPower(power: map<string, ClientPower>, updates: seq<ClientPower>): map<string, ClientPower> {
    if updates == [] then power
    else
      var n := |updates| - 1;
      MergedPower(power, updates[..n])[updates[n].uuid := updates[n]]
  }

  /** `mergeSnapshot` */
  method MergeSnapshot(states: map<string, ClientState>, updates: seq<StreamState>) returns (next: map<string, ClientState>)
    ensures next == Merged(states, updates)
  {
    next := states;
    for k := 0 to |updates|
      invariant next == Merged(states, updates[..k])
    {
      assert updates[..k + 1][..k] == updates[..k];
      next := next[updates[k].uuid := AsClientState(updates[k])];
    }
    assert updates[..|updates|] == updates;
  }

  /** `mergePowerSnapshot` */
  method MergePowerSnapshot(power: map<string, ClientPower>, updates: seq<ClientPower>) returns (next: map<string, ClientPower>)
    ensures next == MergedPower(power, updates)
  {
    next := power;
    for k := 0 to |updates|
      invariant next == MergedPower(power, updates[..k])
    {
      assert updates[..k + 1][..k] == updates[..k];
      next := next[updates[k].uuid := updates[k]];
    }
    assert updates[..|updates|] == updates;
  }

  // ----------------------------------------------------------- optimistic toggle

  /** The list with the entries that `hit` selects changed by `f`. */
  function Changed<T>(items: seq<T>, hit: T -> bool, f: T -> T): (r: seq<T>)
    ensures |r| == |items|
    ensures forall i :: 0 <= i < |items| ==> r[i] == if hit(items[i]) then f(items[i]) else items[i]
  {
    seq(|items|, i requires 0 <= i < |items| => if hit(items[i]) then f(items[i]) else items[i])
  }

  function SwitchedChannels(channels: seq<Channel>, onoff: Bit): seq<Channel> {
    Changed(channels, (c: Channel) => c.channel == 0, (c: Channel) => c.(onoff := onoff))
  }

  function SwitchedLights(lights: seq<Light>, onoff: Bit): seq<Light> {
    Changed(lights, (l: Light) => l.channel == 0, (l: Light) => l.(onoff := onoff))
  }

  function BaseChannels(previous: Option<ClientState>): seq<Channel> {
    if previous.Some? && previous.value.channels.Some? then previous.value.channels.value else []
  }

  function BaseLights(previous: Option<ClientState>): seq<Light> {
    if previous.Some? && previous.value.lights.Some? then previous.value.lights.value else []
  }

  function OptimisticChannels(base: seq<Channel>, onoff: Bit): seq<Channel> {
    if ChannelOnZero(base).Some? then SwitchedChannels(base, onoff) else [Channel(0, onoff)] + base
  }

  function OptimisticLights(base: seq<Light>, previousLight: Option<Light>, onoff: Bit): Option<seq<Light>> {
    var prevLight0 := if previousLight.Some? then previousLight else LightOnZero(base);
    if prevLight0.None? && base == [] then None
    else if LightOnZero(base).Some? then Some(SwitchedLights(base, onoff))
    else Some([if prevLight0.Some? then prevLight0.value.(onoff := onoff) else Light(0, onoff, None, None, None)] + base)
  }

  /** The state shown while a toggle is on its way. */
  function Optimistic(previous: Option<ClientState>, knownHost: string, onoff: Bit, now: Clock): ClientState {
    var previousLight := if previous.Some? then previous.value.light else None;
    var lights := OptimisticLights(BaseLights(previous), previousLight, onoff);
    ClientState(
      if previous.Some? && previous.value.host != "" then previous.value.host else knownHost,
      if previous.Some? then previous.value.kind else None,
      if previous.Some? then previous.value.channel else 0,
      onoff,
      Some(OptimisticChannels(BaseChannels(previous), onoff)),
      lights,
      if lights.Some? then LightOnZero(lights.value) else previousLight,
      if previous.Some? then previous.value.timerxDigest else None,
      if previous.Some? then previous.value.triggerxDigest else None,
      now as real,
      false,
      Some("optimistic"),
      None)
  }

  function PrepareOptimisticToggle(c: Context, uuid: string, onoff: Bit, now: Clock): Context {
    var previous := StateAt(c, uuid);
    var knownHost := if uuid in c.hosts then c.hosts[uuid] else "";
    c.(toggleRollback := Some(Rollback(uuid, previous)),
       deviceStates := c.deviceStates[uuid := Optimistic(previous, knownHost, onoff, now)])
  }

  function RollbackOptimisticToggle(c: Context): Context {
    match c.toggleRollback
    case None => c
    case Some(r) =>
      c.(deviceStates := if r.previous.Some? then c.deviceStates[r.uuid := r.previous.value] else c.deviceStates - {r.uuid},
         toggleRollback := None)
  }

  /** What `setDeviceError` starts from when a device has no state. */
  function DefaultState(): ClientState {
    ClientState("", None, 0, 0, None, None, None, None, None, 0.0, false, None, None)
  }

  /** The state a failed toggle leaves. */
  function Failed(previous: Option<ClientState>, error: string): ClientState {
    (if previous.Some? then previous.value else DefaultState()).(stale := true, error := Some(error))
  }

  function SetDeviceError(c: Context, uuid: string, error: string): Context {
    c.(deviceStates := c.deviceStates[uuid := Failed(StateAt(c, uuid), error)])
  }

  // ------------------------------------------------------------------ transitions

  function ActiveUuid(c: Context): string { if c.activeDeviceUuid.Some? then c.activeDeviceUuid.value else "" }

  function OnUser(c: Config, e: UserEvent): Config {
    match e
    case Refresh => if c.inventory.InventoryIdle? then c.(inventory := RefreshingCloud) else c
    case SetCidr(cidr) => c.(context := c.context.(cidr := cidr))
    case Scan =>
      if !c.inventory.InventoryIdle? then c
      else c.(inventory := if Trim(c.context.cidr) == "" then SuggestingCidr else DiscoveringHosts)
    case Resolve(uuid) =>
      if !c.operations.OperationsIdle? then c
      else c.(operations := Resolving, context := c.context.(activeDeviceUuid := Some(uuid)))
    case Toggle(uuid, onoff, now) =>
      if !c.operations.OperationsIdle? || !HasHost(c.context, uuid) then c
      else c.(operations := Toggling,
              context := PrepareOptimisticToggle(c.context.(activeDeviceUuid := Some(uuid)), uuid, onoff, now))
    case Diagnostics(uuid) =>
      if !c.operations.OperationsIdle? || !HasHost(c.context, uuid) then c
      else c.(operations := FetchingDiagnostics, context := c.context.(activeDeviceUuid := Some(uuid)))
    case RefreshState(_) => c
    case RequestRefresh(_) => c
    case CloseSystemDump => c.(context := c.context.(systemDump := None))
  }

  function OnStream(c: Config, e: StreamEvent): Config {
    match e
    case Connection(signal) => c.(monitor := Reconnect.OnSignal(c.monitor, signal))
    case StateReceived(state) =>
      c.(context := c.context.(deviceStates := c.context.deviceStates[state.uuid := AsClientState(state)]))
    case StaleReceived(state) =>
      c.(context := c.context.(deviceStates := c.context.deviceStates[state.uuid := AsClientState(state)]))
    case SnapshotReceived(states) =>
      c.(context := c.context.(deviceStates := Merged(c.context.deviceStates, states)))
    case PowerSnapshotReceived(readings) =>
      c.(context := c.context.(devicePower := MergedPower(c.context.devicePower, readings)))
    case PowerReceived(reading) =>
      c.(context := c.context.(devicePower := c.context.devicePower[reading.uuid := reading]))
  }

  /** A reply is heard only in the state that invoked the request. */
  function OnReply(c: Config, e: Reply): Config {
    match e
    case CloudRefreshed(devices, hosts) =>
      if !c.inventory.RefreshingCloud? then c
      else c.(inventory := InventoryIdle, context := c.context.(devices := devices, hosts := hosts))
    case CloudFailed => if !c.inventory.RefreshingCloud? then c else c.(inventory := InventoryIdle)
    case CidrSuggested(default) =>
      if !c.inventory.SuggestingCidr? then c
      else
        var d := c.(inventory := DiscoveringHosts);
        if Trim(c.context.cidr) != "" then d
        else d.(context := c.context.(cidr := if default.Some? then default.value else ""))
    case SuggestionFailed => if !c.inventory.SuggestingCidr? then c else c.(inventory := DiscoveringHosts)
    case HostsDiscovered(hosts) =>
      if !c.inventory.DiscoveringHosts? then c
      else c.(inventory := InventoryIdle, context := c.context.(hosts := hosts))
    case DiscoveryFailed => if !c.inventory.DiscoveringHosts? then c else c.(inventory := InventoryIdle)
    case HostResolved(hosts) =>
      if !c.operations.Resolving? then c
      else c.(operations := OperationsIdle, context := c.context.(hosts := hosts, activeDeviceUuid := None))
    case ResolutionFailed =>
      if !c.operations.Resolving? then c
      else c.(operations := OperationsIdle, context := c.context.(activeDeviceUuid := None))
    case Toggled =>
      if !c.operations.Toggling? then c
      else c.(operations := OperationsIdle, context := c.context.(toggleRollback := None, activeDeviceUuid := None))
    case ToggleFailed(message) =>
      if !c.operations.Toggling? then c
      else
        var back := RollbackOptimisticToggle(c.context);
        c.(operations := OperationsIdle,
           context := SetDeviceError(back, ActiveUuid(back), message).(toggleRollback := None, activeDeviceUuid := None))
    case DiagnosticsFetched(dump) =>
      if !c.operations.FetchingDiagnostics? then c
      else c.(operations := OperationsIdle, context := c.context.(systemDump := Some(dump), activeDeviceUuid := None))
    case DiagnosticsFailed =>
      if !c.operations.FetchingDiagnostics? then c
      else c.(operations := OperationsIdle, context := c.context.(activeDeviceUuid := None))
  }

  function Transition(c: Config, e: ClientEvent): Config {
    match e
    case FromUser(u) => OnUser(c, u)
    case FromStream(s) => OnStream(c, s)
    case FromServer(r) => OnReply(c, r)
  }

  function After(c: Config, es: seq<ClientEvent>): Config {
    if es == [] then c else Transition(After(c, es[..|es| - 1]), es[|es| - 1])
  }

  // --------------------------------------------------------- the operations region

  /** An operation has an active device, and a toggle has something to roll back to. */
  predicate OperationsOk(c: Config) {
    && (c.context.activeDeviceUuid.None? <==> c.operations.OperationsIdle?)
    && (c.context.toggleRollback.Some? <==> c.operations.Toggling?)
    && (c.context.toggleRollback.Some? ==> c.context.activeDeviceUuid == Some(c.context.toggleRollback.value.uuid))
  }

  lemma OperationsUser(c: Config, e: UserEvent)
    requires OperationsOk(c)
    ensures OperationsOk(OnUser(c, e))
  {
    hide Optimistic;
    hide Trim;
  }

  lemma OperationsReply(c: Config, e: Reply)
    requires OperationsOk(c)
    ensures OperationsOk(OnReply(c, e))
  {
    hide Failed;
    hide Trim;
  }

  lemma OperationsStep(c: Config, e: ClientEvent)
    requires OperationsOk(c)
    ensures OperationsOk(Transition(c, e))
  {
    hide OnUser;
    hide OnReply;
    hide Merged;
    hide MergedPower;
    hide AsClientState;
    match e {
      case FromUser(u) => OperationsUser(c, u);
      case FromStream(_) =>
      case FromServer(r) => OperationsReply(c, r);
    }
  }

  /** In every reachable configuration, no device is active exactly in `idle`, and there is a rollback exactly in
      `toggling`, naming the active device. */
  lemma {:induction false} OperationsInvariant(cidr: string, es: seq<ClientEvent>)
    ensures OperationsOk(After(Initial(cidr), es))
  {
    hide OperationsOk;
    hide Transition;
    if es == [] {
      StartsOk(cidr);
    } else {
      OperationsInvariant(cidr, es[..|es| - 1]);
      OperationsStep(After(Initial(cidr), es[..|es| - 1]), es[|es| - 1]);
    }
  }

  lemma StartsOk(cidr: string)
    ensures OperationsOk(Initial(cidr))
  {
  }

  /** Toggling is entered only from `idle`, by a toggle of a device that has a host and is active from then on; its
      rollback is the state before. */
  lemma TogglingNeedsHost(c: Config, e: ClientEvent)
    requires OperationsOk(c) && !c.operations.Toggling? && Transition(c, e).operations.Toggling?
    ensures e.FromUser? && e.user.Toggle? && c.operations.OperationsIdle?
    ensures var d := Transition(c, e);
      HasHost(d.context, e.user.uuid) && d.context.activeDeviceUuid == Some(e.user.uuid)
      && d.context.toggleRollback == Some(Rollback(e.user.uuid, StateAt(c.context, e.user.uuid)))
  {
    hide Optimistic;
    hide Trim;
  }

  // ------------------------------------------------------- what the client was told

  /** A reply that arrives in the state that asked for it. Any other comes too late and is dropped. */
  predicate Awaited(c: Config, r: Reply) {
    match r
    case CloudRefreshed(_, _) => c.inventory.RefreshingCloud?
    case CloudFailed => c.inventory.RefreshingCloud?
    case CidrSuggested(_) => c.inventory.SuggestingCidr?
    case SuggestionFailed => c.inventory.SuggestingCidr?
    case HostsDiscovered(_) => c.inventory.DiscoveringHosts?
    case DiscoveryFailed => c.inventory.DiscoveringHosts?
    case HostResolved(_) => c.operations.Resolving?
    case ResolutionFailed => c.operations.Resolving?
    case Toggled => c.operations.Toggling?
    case ToggleFailed(_) => c.operations.Toggling?
    case DiagnosticsFetched(_) => c.operations.FetchingDiagnostics?
    case DiagnosticsFailed => c.operations.FetchingDiagnostics?
  }

  function HostsIn(e: ClientEvent): Option<map<string, string>> {
    if !e.FromServer? then None
    else match e.reply
      case CloudRefreshed(_, hosts) => Some(hosts)
      case HostsDiscovered(hosts) => Some(hosts)
      case HostResolved(hosts) => Some(hosts)
      case _ => None
  }

  /** The hosts, and the devices, in the last awaited reply that brought any; the range typed or suggested last; the dump
      fetched since one was last closed. */
  function HostsTold(cidr: string, es: seq<ClientEvent>): map<string, string> {
    if es == [] then map[]
    else
      var n := |es| - 1;
      if HostsIn(es[n]).Some? && Awaited(After(Initial(cidr), es[..n]), es[n].reply) then HostsIn(es[n]).value
      else HostsTold(cidr, es[..n])
  }

  function DevicesTold(cidr: string, es: seq<ClientEvent>): seq<string> {
    if es == [] then []
    else
      var n := |es| - 1;
      if es[n].FromServer? && es[n].reply.CloudRefreshed? && Awaited(After(Initial(cidr), es[..n]), es[n].reply) then es[n].reply.devices
      else DevicesTold(cidr, es[..n])
  }

  function DumpTold(cidr: string, es: seq<ClientEvent>): Option<SystemDump> {
    if es == [] then None
    else
      var n := |es| - 1;
      match es[n]
      case FromUser(CloseSystemDump) => None
      case FromServer(DiagnosticsFetched(dump)) =>
        if Awaited(After(Initial(cidr), es[..n]), es[n].reply) then Some(dump) else DumpTold(cidr, es[..n])
      case _ => DumpTold(cidr, es[..n])
  }

  /** A suggestion counts only while the range is blank, and a missing one leaves it empty. */
  function CidrTold(cidr: string, es: seq<ClientEvent>): string {
    if es == [] then cidr
    else
      var n := |es| - 1;
      var before := CidrTold(cidr, es[..n]);
      match es[n]
      case FromUser(SetCidr(typed)) => typed
      case FromServer(CidrSuggested(default)) =>
        if !Awaited(After(Initial(cidr), es[..n]), es[n].reply) || Trim(before) != "" then before
        else if default.Some? then default.value
        else ""
      case _ => before
  }

  /** In every reachable configuration, the inventory is what the client was last told of it. */
  lemma {:induction false} InventoryIsLastTold(cidr: string, es: seq<ClientEvent>)
    ensures var c := After(Initial(cidr), es).context;
      && c.hosts == HostsTold(cidr, es) && c.devices == DevicesTold(cidr, es)
      && c.cidr == CidrTold(cidr, es) && c.systemDump == DumpTold(cidr, es)
  {
    if es != [] {
      var n := |es| - 1;
      InventoryIsLastTold(cidr, es[..n]);
      ToldStep(After(Initial(cidr), es[..n]), es[n]);
      hide Transition;
      hide Awaited;
      hide Trim;
    }
  }

  /** What one event tells. */
  lemma ToldStep(c: Config, e: ClientEvent)
    ensures var d := Transition(c, e).context;
      && d.hosts == (if HostsIn(e).Some? && Awaited(c, e.reply) then HostsIn(e).value else c.context.hosts)
      && d.devices == (if e.FromServer? && e.reply.CloudRefreshed? && Awaited(c, e.reply) then e.reply.devices else c.context.devices)
      && d.systemDump == (match e
                          case FromUser(CloseSystemDump) => None
                          case FromServer(DiagnosticsFetched(dump)) => if Awaited(c, e.reply) then Some(dump) else c.context.systemDump
                          case _ => c.context.systemDump)
      && d.cidr == (match e
                    case FromUser(SetCidr(typed)) => typed
                    case FromServer(CidrSuggested(default)) =>
                      if !Awaited(c, e.reply) || Trim(c.context.cidr) != "" then c.context.cidr
                      else if default.Some? then default.value
                      else ""
                    case _ => c.context.cidr)
  {
    hide Trim;
    hide Optimistic;
    hide Merged;
    hide MergedPower;
    hide AsClientState;
  }

  /** A reply that nobody awaits changes nothing. */
  lemma LateReply(c: Config, r: Reply)
    requires !Awaited(c, r)
    ensures Transition(c, FromServer(r)) == c
  {
  }

  // --------------------------------------------------------- the optimistic toggle

  /** Events that neither start nor end an operation. */
  predicate Passive(e: ClientEvent) {
    match e
    case FromUser(u) => !u.Resolve? && !u.Toggle? && !u.Diagnostics?
    case FromStream(_) => true
    case FromServer(r) => r.CloudRefreshed? || r.CloudFailed? || r.CidrSuggested? || r.SuggestionFailed? || r.HostsDiscovered? || r.DiscoveryFailed?
  }

  /** Whether an event writes the state of `uuid`. */
  ghost predicate Writes(e: ClientEvent, uuid: string) {
    e.FromStream? && match e.stream
    case StateReceived(state) => state.uuid == uuid
    case StaleReceived(state) => state.uuid == uuid
    case SnapshotReceived(states) => Mentions(states, uuid)
    case _ => false
  }

  predicate Mentions(states: seq<StreamState>, uuid: string) {
    exists i :: 0 <= i < |states| && states[i].uuid == uuid
  }

  ghost predicate SameExcept<V>(a: map<string, V>, b: map<string, V>, uuid: string) {
    forall k :: k != uuid ==> (k in a <==> k in b) && (k in a ==> a[k] == b[k])
  }

  /** Equal but for the operation and the state of one device. */
  ghost predicate AgreeButFor(a: Config, b: Config, uuid: string) {
    && a.inventory == b.inventory && a.monitor == b.monitor
    && a.context.devices == b.context.devices && a.context.hosts == b.context.hosts && a.context.cidr == b.context.cidr
    && a.context.devicePower == b.context.devicePower && a.context.systemDump == b.context.systemDump
    && SameExcept(a.context.deviceStates, b.context.deviceStates, uuid)
  }

  /** `a` is `b` with a toggle of `uuid` under way, which shows `shown` until the stream writes the device. */
  ghost predicate During(a: Config, b: Config, uuid: string, rollback: Rollback, shown: ClientState, written: bool) {
    && a.operations.Toggling? && a.context.toggleRollback == Some(rollback) && a.context.activeDeviceUuid == Some(uuid)
    && AgreeButFor(a, b, uuid)
    && StateAt(a.context, uuid) == if written then StateAt(b.context, uuid) else Some(shown)
  }

  lemma {:induction false} MergedAlike(a: map<string, ClientState>, b: map<string, ClientState>, updates: seq<StreamState>, uuid: string)
    requires SameExcept(a, b, uuid)
    ensures SameExcept(Merged(a, updates), Merged(b, updates), uuid)
    ensures Mentions(updates, uuid) ==>
      uuid in Merged(a, updates) && uuid in Merged(b, updates) && Merged(a, updates)[uuid] == Merged(b, updates)[uuid]
    ensures !Mentions(updates, uuid) ==>
      (uuid in Merged(a, updates) <==> uuid in a) && (uuid in a ==> Merged(a, updates)[uuid] == a[uuid])
    ensures !Mentions(updates, uuid) ==>
      (uuid in Merged(b, updates) <==> uuid in b) && (uuid in b ==> Merged(b, updates)[uuid] == b[uuid])
  {
    if updates != [] {
      var n := |updates| - 1;
      MergedAlike(a, b, updates[..n], uuid);
      assert Mentions(updates[..n], uuid) ==> Mentions(updates, uuid);
      assert Mentions(updates, uuid) ==> Mentions(updates[..n], uuid) || updates[n].uuid == uuid;
      assert updates[n].uuid == uuid ==> Mentions(updates, uuid);
      hide AsClientState;
      hide Mentions;
    }
  }

  lemma DuringUser(a: Config, b: Config, e: UserEvent, uuid: string, rollback: Rollback, shown: ClientState, written: bool)
    requires During(a, b, uuid, rollback, shown, written) && Passive(FromUser(e))
    ensures During(OnUser(a, e), OnUser(b, e), uuid, rollback, shown, written)
  {
    hide Trim;
    hide PrepareOptimisticToggle;
  }

  lemma DuringReply(a: Config, b: Config, e: Reply, uuid: string, rollback: Rollback, shown: ClientState, written: bool)
    requires During(a, b, uuid, rollback, shown, written) && Passive(FromServer(e))
    ensures During(OnReply(a, e), OnReply(b, e), uuid, rollback, shown, written)
  {
    hide Trim;
    hide RollbackOptimisticToggle;
    hide SetDeviceError;
  }

  lemma DuringStream(a: Config, b: Config, e: StreamEvent, uuid: string, rollback: Rollback, shown: ClientState, written: bool)
    requires During(a, b, uuid, rollback, shown, written)
    ensures During(OnStream(a, e), OnStream(b, e), uuid, rollback, shown, written || Writes(FromStream(e), uuid))
  {
    hide Merged;
    hide MergedPower;
    hide AsClientState;
    hide Mentions;
    if e.SnapshotReceived? {
      MergedAlike(a.context.deviceStates, b.context.deviceStates, e.states, uuid);
    }
  }

  lemma DuringStep(a: Config, b: Config, e: ClientEvent, uuid: string, rollback: Rollback, shown: ClientState, written: bool)
    requires During(a, b, uuid, rollback, shown, written) && Passive(e)
    ensures During(Transition(a, e), Transition(b, e), uuid, rollback, shown, written || Writes(e, uuid))
  {
    hide During;
    hide OnUser;
    hide OnStream;
    hide OnReply;
    match e {
      case FromUser(u) => DuringUser(a, b, u, uuid, rollback, shown, written);
      case FromStream(t) => DuringStream(a, b, t, uuid, rollback, shown, written);
      case FromServer(r) => DuringReply(a, b, r, uuid, rollback, shown, written);
    }
  }

  ghost predicate Written(es: seq<ClientEvent>, uuid: string) {
    exists i :: 0 <= i < |es| && Writes(es[i], uuid)
  }

  lemma {:induction false} DuringKept(a: Config, b: Config, es: seq<ClientEvent>, uuid: string, rollback: Rollback, shown: ClientState)
    requires During(a, b, uuid, rollback, shown, false) && forall e :: e in es ==> Passive(e)
    ensures During(After(a, es), After(b, es), uuid, rollback, shown, Written(es, uuid))
  {
    hide Transition;
    hide During;
    hide Passive;
    hide Writes;
    if es != [] {
      var n := |es| - 1;
      assert es == es[..n] + [es[n]];
      DuringKept(a, b, es[..n], uuid, rollback, shown);
      DuringStep(After(a, es[..n]), After(b, es[..n]), es[n], uuid, rollback, shown, Written(es[..n], uuid));
      assert Written(es, uuid) <==> Written(es[..n], uuid) || Writes(es[n], uuid);
    }
  }

  lemma {:induction false} AfterPrepend(c: Config, e: ClientEvent, es: seq<ClientEvent>)
    ensures After(c, [e] + es) == After(Transition(c, e), es)
    decreases |es|
  {
    hide Transition;
    var all := [e] + es;
    if es == [] {
      assert all == [e] && all[..0] == [];
    } else {
      var n := |es| - 1;
      AfterPrepend(c, e, es[..n]);
      assert all[..|all| - 1] == [e] + es[..n] && all[|all| - 1] == es[n];
    }
  }

  lemma AfterAppend(c: Config, es: seq<ClientEvent>, e: ClientEvent)
    ensures After(c, es + [e]) == Transition(After(c, es), e)
  {
    assert (es + [e])[..|es|] == es;
  }

  /** How a toggle ends. */
  lemma EndToggle(a: Config, b: Config, uuid: string, rollback: Rollback, shown: ClientState, written: bool, reply: Reply)
    requires During(a, b, uuid, rollback, shown, written) && rollback.uuid == uuid && (reply.Toggled? || reply.ToggleFailed?)
    ensures var d := OnReply(a, reply);
      && d.operations.OperationsIdle? && OperationsOk(d) && AgreeButFor(d, b, uuid)
      && StateAt(d.context, uuid)
         == if reply.ToggleFailed? then Some(Failed(rollback.previous, reply.message))
            else if written then StateAt(b.context, uuid)
            else Some(shown)
  {
    hide Failed;
  }

  /** An optimistic toggle does not interfere. Take a toggle of a device with a host, any interleaving of stream and
      inventory events meanwhile, and its reply: everything but the operation and the toggled device's state is as if
      the toggle had not happened. If the toggle failed, that device ends as it was before the toggle (or as the default
      when there was nothing), marked stale with the error, whatever the stream said about it meanwhile; if it
      succeeded, the device shows what the stream said, or what the toggle showed at first if it said nothing. */
  lemma ToggleDoesNotInterfere(c: Config, uuid: string, onoff: Bit, now: Clock, es: seq<ClientEvent>, reply: Reply)
    requires OperationsOk(c) && c.operations.OperationsIdle? && HasHost(c.context, uuid)
    requires (forall e :: e in es ==> Passive(e)) && (reply.Toggled? || reply.ToggleFailed?)
    ensures var d := After(c, [FromUser(Toggle(uuid, onoff, now))] + es + [FromServer(reply)]); var without := After(c, es);
      && d.operations.OperationsIdle? && OperationsOk(d)
      && AgreeButFor(d, without, uuid)
      && StateAt(d.context, uuid)
         == if reply.ToggleFailed? then Some(Failed(StateAt(c.context, uuid), reply.message))
            else if Written(es, uuid) then StateAt(without.context, uuid)
            else StateAt(Transition(c, FromUser(Toggle(uuid, onoff, now))).context, uuid)
  {
    var toggle := FromUser(Toggle(uuid, onoff, now));
    var a := Transition(c, toggle);
    var rollback := Rollback(uuid, StateAt(c.context, uuid));
    var shown := Optimistic(StateAt(c.context, uuid), c.context.hosts[uuid], onoff, now);
    BeginToggle(c, uuid, onoff, now);
    DuringKept(a, c, es, uuid, rollback, shown);
    AfterPrepend(c, toggle, es);
    AfterAppend(c, [toggle] + es, FromServer(reply));
    EndToggle(After(a, es), After(c, es), uuid, rollback, shown, Written(es, uuid), reply);
    hide After;
    hide During;
    hide AgreeButFor;
    hide OnReply;
    hide OnUser;
    hide Optimistic;
    hide Failed;
    hide Passive;
  }

  lemma BeginToggle(c: Config, uuid: string, onoff: Bit, now: Clock)
    requires OperationsOk(c) && c.operations.OperationsIdle? && HasHost(c.context, uuid)
    ensures During(Transition(c, FromUser(Toggle(uuid, onoff, now))), c, uuid, Rollback(uuid, StateAt(c.context, uuid)),
                   Optimistic(StateAt(c.context, uuid), c.context.hosts[uuid], onoff, now), false)
  {
    hide Optimistic;
  }

  // --------------------------------------------------------- what a toggle shows

  ghost predicate DistinctChannels(channels: seq<Channel>) {
    forall i, j :: 0 <= i < j < |channels| ==> channels[i].channel != channels[j].channel
  }

  ghost predicate DistinctLights(lights: seq<Light>) {
    forall i, j :: 0 <= i < j < |lights| ==> lights[i].channel != lights[j].channel
  }

  lemma {:induction false} ChannelOnZeroIs(channels: seq<Channel>)
    ensures ChannelOnZero(channels).Some? <==> exists i :: 0 <= i < |channels| && channels[i].channel == 0
    ensures ChannelOnZero(channels).Some? ==> ChannelOnZero(channels).value in channels && ChannelOnZero(channels).value.channel == 0
  {
    if channels != [] {
      ChannelOnZeroIs(channels[1..]);
      if channels[0].channel == 0 {
        assert channels[0].channel == 0;
      } else {
        assert forall i :: 0 <= i < |channels[1..]| ==> channels[1..][i] == channels[i + 1];
        assert forall i :: 0 < i < |channels| ==> channels[1..][i - 1] == channels[i];
      }
    }
  }

  lemma {:induction false} LightOnZeroIs(lights: seq<Light>)
    ensures LightOnZero(lights).Some? <==> exists i :: 0 <= i < |lights| && lights[i].channel == 0
    ensures LightOnZero(lights).Some? ==> LightOnZero(lights).value in lights && LightOnZero(lights).value.channel == 0
  {
    if lights != [] {
      LightOnZeroIs(lights[1..]);
      if lights[0].channel == 0 {
        assert lights[0].channel == 0;
      } else {
        assert forall i :: 0 <= i < |lights[1..]| ==> lights[1..][i] == lights[i + 1];
        assert forall i :: 0 < i < |lights| ==> lights[1..][i - 1] == lights[i];
      }
    }
  }

  /** The optimistic channels: in order and distinct if the old ones were, with one on channel 0, which is switched,
      and all others as before. */
  lemma OptimisticChannelsOk(base: seq<Channel>, onoff: Bit)
    ensures var r := OptimisticChannels(base, onoff);
      && (DistinctChannels(base) ==> DistinctChannels(r))
      && (Sorted((a: Channel, b: Channel) => a.channel <= b.channel, base) ==> Sorted((a: Channel, b: Channel) => a.channel <= b.channel, r))
      && (forall x :: x in r <==> x == Channel(0, onoff) || (x in base && x.channel != 0))
  {
    ChannelOnZeroIs(base);
    hide ChannelOnZero;
    var r := OptimisticChannels(base, onoff);
    if ChannelOnZero(base).Some? {
      var i :| 0 <= i < |base| && base[i].channel == 0;
      assert r[i] == Channel(0, onoff);
      forall x | x in base && x.channel != 0
        ensures x in r
      {
        var j :| 0 <= j < |base| && base[j] == x;
        assert r[j] == x;
      }
    }
  }

  /** What is on the screen from the moment of the toggle: the device is switched as asked, and so is its channel 0,
      which is added if it was missing; every other channel, the kind, the channel shown and the schedules are as
      before. It is neither stale nor in error, and marked as optimistic. No other device changes. */
  lemma ToggleShows(c: Config, uuid: string, onoff: Bit, now: Clock)
    requires c.operations.OperationsIdle? && HasHost(c.context, uuid)
    ensures var d := Transition(c, FromUser(Toggle(uuid, onoff, now))); var before := StateAt(c.context, uuid);
      && SameExcept(d.context.deviceStates, c.context.deviceStates, uuid)
      && StateAt(d.context, uuid).Some?
      && var s := StateAt(d.context, uuid).value;
         && s.onoff == onoff && !s.stale && s.error == None && s.source == Some("optimistic") && s.updatedAt == now as real
         && s.host == (if before.Some? && before.value.host != "" then before.value.host else c.context.hosts[uuid]) && s.host != ""
         && (match before
             case None =>
               s.kind == None && s.channel == 0 && s.timerxDigest == None && s.triggerxDigest == None
               && s.channels == Some([Channel(0, onoff)]) && s.lights == None && s.light == None
             case Some(p) =>
               s.kind == p.kind && s.channel == p.channel && s.timerxDigest == p.timerxDigest && s.triggerxDigest == p.triggerxDigest)
         && s.channels.Some?
         && forall x :: x in s.channels.value <==>
              x == Channel(0, onoff)
              || (x.channel != 0 && before.Some? && before.value.channels.Some? && x in before.value.channels.value)
  {
    var before := StateAt(c.context, uuid);
    OptimisticChannelsOk(BaseChannels(before), onoff);
    if before.None? {
      assert OptimisticChannels([], onoff) == [Channel(0, onoff)];
    }
    hide OptimisticChannels;
    hide LightOnZero;
  }

  /** The lights on the screen: with one on channel 0, all are as before but that one is switched, and it is the light
      shown; without lights there are none; otherwise a switched copy of the light shown before, or a new one, is put
      in front of them. */
  lemma ToggleShowsLights(c: Config, uuid: string, onoff: Bit, now: Clock)
    requires c.operations.OperationsIdle? && HasHost(c.context, uuid) && StateAt(c.context, uuid).Some?
    ensures var before := StateAt(c.context, uuid).value; var d := Transition(c, FromUser(Toggle(uuid, onoff, now)));
      var base := if before.lights.Some? then before.lights.value else [];
      && StateAt(d.context, uuid).Some?
      && var s := StateAt(d.context, uuid).value;
         && ((exists l :: l in base && l.channel == 0) ==>
               && s.lights.Some? && |s.lights.value| == |base|
               && (forall i :: 0 <= i < |base| ==>
                     s.lights.value[i] == if base[i].channel == 0 then base[i].(onoff := onoff) else base[i])
               && s.light.Some? && s.light.value in s.lights.value && s.light.value.channel == 0 && s.light.value.onoff == onoff)
         && (base == [] && before.light.None? ==> s.lights == None && s.light == None)
         && ((forall l :: l in base ==> l.channel != 0) && (base != [] || before.light.Some?) ==>
               s.lights == Some([if before.light.Some? then before.light.value.(onoff := onoff) else Light(0, onoff, None, None, None)] + base))
  {
    var before := StateAt(c.context, uuid).value;
    var base := BaseLights(Some(before));
    LightOnZeroIs(base);
    var lights := OptimisticLights(base, before.light, onoff);
    if lights.Some? {
      LightOnZeroIs(lights.value);
    }
    hide LightOnZero;
    hide OptimisticChannels;
    if l :| l in base && l.channel == 0 {
      var i :| 0 <= i < |base| && base[i] == l;
      assert lights.value[i].channel == 0;
      assert forall k :: 0 <= k < |base| && lights.value[k].channel == 0 ==> lights.value[k].onoff == onoff;
    } else {
      assert forall i :: 0 <= i < |base| ==> base[i] in base;
    }
  }

  /** What a failed toggle leaves on the screen: every field is as before the toggle, or as in an empty state if there
      was none, except that it is stale and has the error. */
  lemma ToggleFails(c: Config, message: string)
    requires OperationsOk(c) && c.operations.Toggling?
    ensures var r := c.context.toggleRollback.value; var d := Transition(c, FromServer(ToggleFailed(message)));
      && SameExcept(d.context.deviceStates, c.context.deviceStates, r.uuid)
      && StateAt(d.context, r.uuid).Some?
      && var s := StateAt(d.context, r.uuid).value;
         && s.stale && s.error == Some(message)
         && (r.previous.Some? ==> s.(stale := r.previous.value.stale, error := r.previous.value.error) == r.previous.value)
         && (r.previous.None? ==>
               s == ClientState("", None, 0, 0, None, None, None, None, None, 0.0, true, None, Some(message)))
  {
  }

  /** A list of lights is well formed when its channels are distinct and the light shown is its channel 0, switched. */
  ghost predicate LightsOk(s: ClientState) {
    s.lights.Some? ==>
      DistinctLights(s.lights.value) && s.light.Some? && s.light.value in s.lights.value
      && s.light.value.channel == 0 && s.light.value.onoff == s.onoff
  }

  /** Given distinct lights, the optimistic ones are well formed exactly if one of the old ones is on channel 0, or the
      old `light` is absent or on channel 0. Otherwise the old `light` is listed twice, and none is shown. */
  lemma OptimisticLightsOk(previous: Option<ClientState>, knownHost: string, onoff: Bit, now: Clock)
    requires DistinctLights(BaseLights(previous))
    ensures LightsOk(Optimistic(previous, knownHost, onoff, now))
       <==> LightOnZero(BaseLights(previous)).Some? || previous.None? || previous.value.light.None?
            || previous.value.light.value.channel == 0
  {
    var base := BaseLights(previous);
    var previousLight := if previous.Some? then previous.value.light else None;
    LightOnZeroIs(base);
    var lights := OptimisticLights(base, previousLight, onoff);
    if lights.Some? {
      LightOnZeroIs(lights.value);
      ZeroSwitched(base, previousLight, onoff);
    }
    hide LightOnZero;
    hide OptimisticChannels;
  }

  lemma ZeroSwitched(base: seq<Light>, previousLight: Option<Light>, onoff: Bit)
    requires DistinctLights(base) && OptimisticLights(base, previousLight, onoff).Some?
    ensures var r := OptimisticLights(base, previousLight, onoff).value;
      && (forall l :: l in r && l.channel == 0 ==> l.onoff == onoff)
      && ((exists i :: 0 <= i < |r| && r[i].channel == 0) && DistinctLights(r)
          <==> LightOnZero(base).Some? || previousLight.None? || previousLight.value.channel == 0)
  {
    LightOnZeroIs(base);
    var r := OptimisticLights(base, previousLight, onoff).value;
    if LightOnZero(base).Some? {
      var i :| 0 <= i < |base| && base[i].channel == 0;
      assert r[i].channel == 0;
    } else {
      assert r[1..] == base;
      assert forall l :: l in r ==> l == r[0] || l in base;
    }
  }

  /** For a state as the server sends it, whose `light` is its primary light, the toggle shows well-formed lights
      exactly if the device has none, or has one on channel 0. */
  lemma ServerStateToggles(previous: ClientState, knownHost: string, onoff: Bit, now: Clock)
    requires previous.lights.Some? && DistinctLights(previous.lights.value)
    requires previous.light == PrimaryLight(previous.lights.value)
    ensures LightsOk(Optimistic(Some(previous), knownHost, onoff, now))
       <==> previous.lights == Some([]) || LightOnZero(previous.lights.value).Some?
  {
    LightOnZeroIs(previous.lights.value);
    OptimisticLightsOk(Some(previous), knownHost, onoff, now);
    hide LightsOk;
    hide Optimistic;
  }

  /** One light, on channel 1: the toggle lists it twice, the switched copy in front, and shows no light. */
  lemma LightListedTwice(knownHost: string, now: Clock)
    ensures var light := Light(1, 0, None, None, None);
      var previous := DefaultState().(lights := Some([light]), light := PrimaryLight([light]));
      var shown := Optimistic(Some(previous), knownHost, 1, now);
      shown.lights == Some([light.(onoff := 1), light]) && shown.light == None
  {
    var light := Light(1, 0, None, None, None);
    LightOnZeroIs([light]);
    LightOnZeroIs([light.(onoff := 1), light]);
    hide LightOnZero;
    var previous := DefaultState().(lights := Some([light]), light := PrimaryLight([light]));
    assert PrimaryLight([light]) == Some(light);
    assert BaseLights(Some(previous)) == [light];
    assert OptimisticLights([light], Some(light), 1) == Some([light.(onoff := 1)] + [light]);
    assert [light.(onoff := 1)] + [light] == [light.(onoff := 1), light];
  }
}
