/** The wire: what the server writes into an event, and what the client's `parse*` functions read out of it. */
module StreamParse {
  import opened Prelude
  import opened Text
  import opened Devices
  import opened Json

  /** `StreamDeviceState` */
  datatype StreamState = StreamState(
    uuid: string,
    host: string,
    kind: Option<string>,
    channel: nat,
    onoff: Bit,
    channels: seq<Channel>,
    lights: seq<Light>,
    light: Option<Light>,
    timerxDigest: seq<DigestEntry>,
    triggerxDigest: seq<DigestEntry>,
    updatedAt: real,
    stale: bool,
    source: Option<string>,
    error: Option<string>)

  /** The client's `DevicePower` */
  datatype ClientPower = ClientPower(
    uuid: string,
    host: string,
    channel: nat,
    voltageV: Option<real>,
    currentA: Option<real>,
    powerW: Option<real>,
    updatedAt: real,
    stale: bool,
    error: Option<string>)

  // ------------------------------------------------------------------ the client

  function ChannelsOf(js: Js, v: Value): seq<Channel> {
    StableSort(ChannelLe, Collect(ReadChannel(js), Items(v)))
  }

  method ParseChannels(js: Js, v: Value) returns (r: seq<Channel>)
    ensures r == ChannelsOf(js, v)
  {
    hide ChannelEntry;
    hide StableSort;
    var items := Items(v);
    var out := [];
    for k := 0 to |items|
      invariant out == Collect(ReadChannel(js), items[..k])
    {
      assert items[..k + 1][..k] == items[..k];
      var entry := ChannelEntry(js, Some(items[k]));
      if entry.None? {
        continue;
      }
      out := out + [entry.value];
    }
    assert items[..|items|] == items;
    return StableSort(ChannelLe, out);
  }

  function ReadLight(js: Js): Value -> Option<Light> { item => LightOf(js, item) }

  /** One light, in a list or alone. */
  function LightOf(js: Js, item: Value): Option<Light> {
    match ChannelOf(js, item)
    case None => None
    case Some(c) => Some(Light(
      c,
      OnOff(js, Field(item, KOnoff)),
      Number(js, Field(item, KLuminance)),
      Number(js, Field(item, KTemperature)),
      Number(js, Field(item, KRgb))))
  }

  function LightsOf(js: Js, v: Value): seq<Light> {
    StableSort(LightLe, Collect(ReadLight(js), Items(v)))
  }

  method ParseLights(js: Js, v: Value) returns (r: seq<Light>)
    ensures r == LightsOf(js, v)
  {
    hide LightOf;
    hide StableSort;
    var items := Items(v);
    var out := [];
    for k := 0 to |items|
      invariant out == Collect(ReadLight(js), items[..k])
    {
      assert items[..k + 1][..k] == items[..k];
      var entry := LightOf(js, Some(items[k]));
      if entry.None? {
        continue;
      }
      out := out + [entry.value];
    }
    assert items[..|items|] == items;
    return StableSort(LightLe, out);
  }

  function ReadDigest(js: Js): Value -> Option<DigestEntry> { item => DigestEntryOf(js, item) }

  function DigestEntryOf(js: Js, item: Value): Option<DigestEntry> {
    var channel := ChannelOf(js, item);
    var id := Trim(TextOf(js, Field(item, KId)));
    if channel.None? || id == "" then None
    else Some(DigestEntry(channel.value, id, CountOf(Number(js, Field(item, KCount)))))
  }

  function ScheduleDigestOf(js: Js, v: Value): seq<DigestEntry> {
    StableSort(DigestLe(js), Collect(ReadDigest(js), Items(v)))
  }

  method ParseScheduleDigest(js: Js, v: Value) returns (r: seq<DigestEntry>)
    ensures r == ScheduleDigestOf(js, v)
  {
    hide DigestEntryOf;
    hide StableSort;
    var items := Items(v);
    var out := [];
    for k := 0 to |items|
      invariant out == Collect(ReadDigest(js), items[..k])
    {
      assert items[..k + 1][..k] == items[..k];
      var entry := DigestEntryOf(js, Some(items[k]));
      if entry.None? {
        continue;
      }
      out := out + [entry.value];
    }
    assert items[..|items|] == items;
    return StableSort(DigestLe(js), out);
  }

  function StringOnly(v: Value): Option<string> {
    if v.Some? && v.value.Str? then Some(v.value.s) else None
  }

  predicate IsObjectRecord(v: Value) { v.Some? && (v.value.Obj? || v.value.Arr?) }

  function ParseStreamState(js: Js, raw: Value): Option<StreamState> {
    var uuid := Trim(TextOf(js, Field(raw, KUuid)));
    var channel := ChannelOf(js, raw);
    var updatedAt := Number(js, Field(raw, KUpdatedAt));
    if !IsObjectRecord(raw) || uuid == "" || channel.None? || updatedAt.None? || updatedAt.value <= 0.0 then None
    else Some(StreamState(
      uuid,
      TextOf(js, Field(raw, KHost)),
      StringOnly(Field(raw, KKind)),
      channel.value,
      OnOff(js, Field(raw, KOnoff)),
      ChannelsOf(js, Field(raw, KChannels)),
      LightsOf(js, Field(raw, KLights)),
      LightOf(js, Field(raw, KLight)),
      ScheduleDigestOf(js, Field(raw, KTimerxDigest)),
      ScheduleDigestOf(js, Field(raw, KTriggerxDigest)),
      updatedAt.value,
      Truthy(Field(raw, KStale)),
      StringOnly(Field(raw, KSource)),
      StringOnly(Field(raw, KError))))
  }

  function ReadState(js: Js): Value -> Option<StreamState> { v => ParseStreamState(js, v) }

  function ParseSnapshotStates(js: Js, raw: Value): seq<StreamState> {
    Collect(ReadState(js), Items(Field(raw, KStates)))
  }

  function ParsePower(js: Js, raw: Value): Option<ClientPower> {
    var uuid := Trim(TextOf(js, Field(raw, KUuid)));
    var channel := ChannelOf(js, raw);
    var updatedAt := Number(js, Field(raw, KUpdatedAt));
    if !IsObjectRecord(raw) || uuid == "" || channel.None? || updatedAt.None? || updatedAt.value <= 0.0 then None
    else Some(ClientPower(
      uuid,
      TextOf(js, Field(raw, KHost)),
      channel.value,
      Number(js, Field(raw, KVoltageV)),
      Number(js, Field(raw, KCurrentA)),
      Number(js, Field(raw, KPowerW)),
      updatedAt.value,
      Truthy(Field(raw, KStale)),
      StringOnly(Field(raw, KError))))
  }

  function ReadPower(js: Js): Value -> Option<ClientPower> { v => ParsePower(js, v) }

  function ParsePowerSnapshot(js: Js, raw: Value): seq<ClientPower> {
    Collect(ReadPower(js), Items(Field(raw, KReadings)))
  }

  // ------------------------------------------------------------------ the server

  function NumJson(x: int): Json { Num(x as real) }

  function RealJson(x: Option<real>): Value {
    if x.Some? then Some(Num(x.value)) else None
  }

  function ChannelJson(): Channel -> Json { (c: Channel) => OneChannelJson(c) }

  function OneChannelJson(c: Channel): Json {
    Obj((k: Key) =>
          if k == KChannel then Some(NumJson(c.channel))
          else if k == KOnoff then Some(NumJson(c.onoff))
          else None)
  }

  function OneLightJson(l: Light): Json {
    Obj((k: Key) =>
          if k == KChannel then Some(NumJson(l.channel))
          else if k == KOnoff then Some(NumJson(l.onoff))
          else if k == KLuminance then RealJson(l.luminance)
          else if k == KTemperature then RealJson(l.temperature)
          else if k == KRgb then RealJson(l.rgb)
          else None)
  }

  function LightJson(): Light -> Json { l => OneLightJson(l) }

  function DigestJson(): DigestEntry -> Json {
    (d: DigestEntry) => OneDigestJson(d)
  }

  function OneDigestJson(d: DigestEntry): Json {
    Obj((k: Key) =>
          if k == KChannel then Some(NumJson(d.channel))
          else if k == KId then Some(Str(d.id))
          else if k == KCount then Some(NumJson(d.count))
          else None)
  }

  function KindName(k: Kind): string {
    match k case ToggleX => "togglex" case LightOnly => "light" case Mixed => "mixed"
  }

  function SourceName(s: Source): string {
    match s case Poller => "poller" case Manual => "manual"
  }

  /** `JSON.stringify` of a state, read back by `JSON.parse`. */
  function StateJson(s: DeviceState): Json {
    Obj((k: Key) =>
          if k == KUuid then Some(Str(s.uuid))
          else if k == KHost then Some(Str(s.host))
          else if k == KKind then Some(Str(KindName(s.kind)))
          else if k == KChannel then Some(NumJson(s.channel))
          else if k == KOnoff then Some(NumJson(s.onoff))
          else if k == KChannels then Some(Arr(MapJson(ChannelJson(), s.channels)))
          else if k == KLights then Some(Arr(MapJson(LightJson(), s.lights)))
          else if k == KLight then Some(if s.light.Some? then OneLightJson(s.light.value) else Null)
          else if k == KTimerxDigest then Some(Arr(MapJson(DigestJson(), s.timerxDigest)))
          else if k == KTriggerxDigest then Some(Arr(MapJson(DigestJson(), s.triggerxDigest)))
          else if k == KUpdatedAt then Some(NumJson(s.updatedAt))
          else if k == KSource then Some(Str(SourceName(s.source)))
          else if k == KStale then Some(Bool(s.stale))
          else if k == KError then TextJson(s.error)
          else None)
  }

  function TextJson(t: Option<string>): Value {
    if t.Some? then Some(Str(t.value)) else None
  }

  function WriteState(): DeviceState -> Json { s => StateJson(s) }

  function PowerJson(p: PowerReading): Json {
    Obj((k: Key) =>
          if k == KUuid then Some(Str(p.uuid))
          else if k == KHost then Some(Str(p.host))
          else if k == KChannel then Some(NumJson(p.channel))
          else if k == KUpdatedAt then Some(NumJson(p.updatedAt))
          else if k == KStale then Some(Bool(p.stale))
          else if k == KVoltageV then RealJson(p.measures.voltageV)
          else if k == KCurrentA then RealJson(p.measures.currentA)
          else if k == KPowerW then RealJson(p.measures.powerW)
          else if k == KError then TextJson(p.error)
          else None)
  }

  function WritePower(): PowerReading -> Json { p => PowerJson(p) }

  /** What a faithful client would hold. */
  function AsStream(s: DeviceState): StreamState {
    StreamState(s.uuid, s.host, Some(KindName(s.kind)), s.channel, s.onoff, s.channels, s.lights, s.light,
                s.timerxDigest, s.triggerxDigest, s.updatedAt as real, s.stale, Some(SourceName(s.source)), s.error)
  }

  function AsClientPower(p: PowerReading): ClientPower {
    ClientPower(p.uuid, p.host, p.channel, p.measures.voltageV, p.measures.currentA, p.measures.powerW,
                p.updatedAt as real, p.stale, p.error)
  }

  // ------------------------------------------------------------ parse after write

  lemma NumberIs(js: Js, n: nat)
    ensures Number(js, Some(NumJson(n))) == Some(n as real) && AsNat(Number(js, Some(NumJson(n)))) == Some(n)
  {
  }

  lemma OnOffIs(js: Js, b: Bit)
    ensures OnOff(js, Some(NumJson(b))) == b
  {
  }

  lemma RealIs(js: Js, x: Option<real>)
    ensures Number(js, RealJson(x)) == x
  {
  }

  lemma TextIs(t: Option<string>)
    ensures StringOnly(TextJson(t)) == t
  {
    if t.Some? {
      assert TextJson(t) == Some(Str(t.value));
    }
  }

  lemma StringIs(t: string)
    ensures StringOnly(Some(Str(t))) == Some(t)
  {
  }

  lemma WrittenChannel(js: Js, c: Channel)
    ensures ChannelEntry(js, Some(OneChannelJson(c))) == Some(c)
  {
    hide AsNat;
    hide Number;
    hide OnOff;
    NumberIs(js, c.channel);
    OnOffIs(js, c.onoff);
  }

  lemma WrittenLight(js: Js, l: Light)
    ensures LightOf(js, Some(OneLightJson(l))) == Some(l)
  {
    hide AsNat;
    hide Number;
    hide OnOff;
    NumberIs(js, l.channel);
    OnOffIs(js, l.onoff);
    RealIs(js, l.luminance);
    RealIs(js, l.temperature);
    RealIs(js, l.rgb);
  }

  lemma WrittenLists(js: Js, channels: seq<Channel>, lights: seq<Light>)
    ensures ChannelsOf(js, Some(Arr(MapJson(ChannelJson(), channels)))) == StableSort(ChannelLe, channels)
    ensures LightsOf(js, Some(Arr(MapJson(LightJson(), lights)))) == StableSort(LightLe, lights)
  {
    hide ChannelEntry;
    hide LightOf;
    hide StableSort;
    hide MapJson;
    hide Collect;
    forall c | c in channels
      ensures ReadChannel(js)(Some(ChannelJson()(c))) == Some(c)
    {
      WrittenChannel(js, c);
    }
    CollectMapJson(ReadChannel(js), ChannelJson(), channels);
    forall l | l in lights
      ensures ReadLight(js)(Some(LightJson()(l))) == Some(l)
    {
      WrittenLight(js, l);
    }
    CollectMapJson(ReadLight(js), LightJson(), lights);
  }

  lemma CountIs(n: nat)
    ensures CountOf(Some(n as real)) == n
  {
    assert (n as real + 0.5).Floor == n;
  }

  lemma WrittenDigestEntry(js: Js, d: DigestEntry)
    requires Trimmed(d.id)
    ensures DigestEntryOf(js, Some(DigestJson()(d))) == Some(d)
  {
    hide Trim;
    hide AsNat;
    hide Number;
    hide CountOf;
    NumberIs(js, d.channel);
    NumberIs(js, d.count);
    CountIs(d.count);
  }

  lemma DigestsNormal(js: Js, v: Value)
    requires Collates(js)
    ensures DigestNormal(js, ScheduleDigestOf(js, v))
  {
    hide Trim;
    var out := Collect(ReadDigest(js), Items(v));
    DigestLePreorder(js);
    StableSortSorts(DigestLe(js), out);
    StableSortMembers(DigestLe(js), out);
    forall item | ReadDigest(js)(item).Some?
      ensures Trimmed(ReadDigest(js)(item).value.id)
    {
      TrimIdempotent(TextOf(js, Field(item, KId)));
    }
    CollectAll(ReadDigest(js), (d: DigestEntry) => Trimmed(d.id), Items(v));
  }

  /** A parsed digest is in normal form; a written one is read back unchanged exactly if it already is. */
  lemma WrittenDigest(js: Js, ds: seq<DigestEntry>)
    requires Collates(js)
    ensures ScheduleDigestOf(js, Some(Arr(MapJson(DigestJson(), ds)))) == ds <==> DigestNormal(js, ds)
  {
    hide Trimmed;
    hide DigestEntryOf;
    hide TotalPreorder;
    hide Sorted;
    var v := Some(Arr(MapJson(DigestJson(), ds)));
    DigestsNormal(js, v);
    if DigestNormal(js, ds) {
      forall d | d in ds
        ensures ReadDigest(js)(Some(DigestJson()(d))) == Some(d)
      {
        WrittenDigestEntry(js, d);
      }
      CollectMapJson(ReadDigest(js), DigestJson(), ds);
      DigestLePreorder(js);
      StableSortFixed(DigestLe(js), ds);
    }
  }

  /** Every property of a written state, as the client looks it up. */
  lemma StateLookups(s: DeviceState)
    ensures var o := Some(StateJson(s));
      && Field(o, KUuid) == Some(Str(s.uuid)) && Field(o, KHost) == Some(Str(s.host))
      && Field(o, KKind) == Some(Str(KindName(s.kind))) && Field(o, KChannel) == Some(NumJson(s.channel))
      && Field(o, KOnoff) == Some(NumJson(s.onoff)) && Field(o, KChannels) == Some(Arr(MapJson(ChannelJson(), s.channels)))
      && Field(o, KLights) == Some(Arr(MapJson(LightJson(), s.lights)))
      && Field(o, KLight) == Some(if s.light.Some? then OneLightJson(s.light.value) else Null)
      && Field(o, KTimerxDigest) == Some(Arr(MapJson(DigestJson(), s.timerxDigest)))
      && Field(o, KTriggerxDigest) == Some(Arr(MapJson(DigestJson(), s.triggerxDigest)))
      && Field(o, KUpdatedAt) == Some(NumJson(s.updatedAt)) && Field(o, KSource) == Some(Str(SourceName(s.source)))
      && Field(o, KStale) == Some(Bool(s.stale)) && Field(o, KError) == TextJson(s.error)
  {
    hide MapJson;
    hide OneLightJson;
    hide KindName;
    hide SourceName;
    hide TextJson;
  }

  lemma PowerLookups(p: PowerReading)
    ensures var o := Some(PowerJson(p));
      && Field(o, KUuid) == Some(Str(p.uuid)) && Field(o, KHost) == Some(Str(p.host))
      && Field(o, KChannel) == Some(NumJson(p.channel)) && Field(o, KUpdatedAt) == Some(NumJson(p.updatedAt))
      && Field(o, KStale) == Some(Bool(p.stale))
      && Field(o, KVoltageV) == RealJson(p.measures.voltageV) && Field(o, KCurrentA) == RealJson(p.measures.currentA)
      && Field(o, KPowerW) == RealJson(p.measures.powerW) && Field(o, KError) == TextJson(p.error)
  {
    hide RealJson;
    hide TextJson;
  }

  lemma StatePasses(js: Js, s: DeviceState)
    ensures ParseStreamState(js, Some(StateJson(s))).Some? <==> Trim(s.uuid) != "" && s.updatedAt > 0
    ensures var p := ParseStreamState(js, Some(StateJson(s))); p.Some? ==>
      p.value == AsStream(s).(
        uuid := Trim(s.uuid),
        channels := ChannelsOf(js, Some(Arr(MapJson(ChannelJson(), s.channels)))),
        lights := LightsOf(js, Some(Arr(MapJson(LightJson(), s.lights)))),
        timerxDigest := ScheduleDigestOf(js, Some(Arr(MapJson(DigestJson(), s.timerxDigest)))),
        triggerxDigest := ScheduleDigestOf(js, Some(Arr(MapJson(DigestJson(), s.triggerxDigest)))))
  {
    hide ChannelsOf;
    hide LightsOf;
    hide ScheduleDigestOf;
    hide Trim;
    hide MapJson;
    hide OneLightJson;
    hide AsNat;
    hide OnOff;
    hide KindName;
    hide SourceName;
    hide Field;
    hide LightOf;
    hide StringOnly;
    hide TextJson;
    StateLookups(s);
    StringIs(KindName(s.kind));
    StringIs(SourceName(s.source));
    NumberIs(js, s.channel);
    OnOffIs(js, s.onoff);
    TextIs(s.error);
    if s.light.Some? {
      WrittenLight(js, s.light.value);
    } else {
      NoLight(js);
    }
  }

  lemma NoLight(js: Js)
    ensures LightOf(js, Some(Null)) == None
  {
  }

  /** Parsing what the server wrote is the identity on every field the client keeps exactly for states in normal
      form: a trimmed uuid, a positive version, and lists in the client's order with trimmed ids. */
  lemma {:induction false} ParseIsIdentity(js: Js, s: DeviceState)
    requires Collates(js)
    ensures ParseStreamState(js, Some(StateJson(s))) == Some(AsStream(s))
       <==> Trimmed(s.uuid) && s.updatedAt > 0 && ListsNormal(js, s)
  {
    hide Trim;
    hide StateJson;
    hide ParseStreamState;
    hide MapJson;
    hide ChannelsOf;
    hide LightsOf;
    hide ScheduleDigestOf;
    StatePasses(js, s);
    WrittenLists(js, s.channels, s.lights);
    WrittenDigest(js, s.timerxDigest);
    WrittenDigest(js, s.triggerxDigest);
    StableSortFixed(ChannelLe, s.channels);
    StableSortFixed(LightLe, s.lights);
  }

  /** A reading is kept, apart from its raw units, exactly if its uuid is trimmed and its version positive. */
  lemma PowerParseIsIdentity(js: Js, p: PowerReading)
    ensures ParsePower(js, Some(PowerJson(p))) == Some(AsClientPower(p)) <==> Trimmed(p.uuid) && p.updatedAt > 0
  {
    hide Trim;
    hide AsNat;
    hide Field;
    hide PowerJson;
    hide StringOnly;
    PowerLookups(p);
    NumberIs(js, p.channel);
    RealIs(js, p.measures.voltageV);
    RealIs(js, p.measures.currentA);
    RealIs(js, p.measures.powerW);
    TextIs(p.error);
    var raw := Some(PowerJson(p));
    assert TextOf(js, Field(raw, KUuid)) == p.uuid;
    assert Number(js, Field(raw, KUpdatedAt)) == Some(p.updatedAt as real);
    assert IsObjectRecord(raw) by {
      ObjectRecord(p);
    }
    var r := ParsePower(js, raw);
    assert r.Some? <==> Trim(p.uuid) != "" && p.updatedAt > 0;
    assert r.Some? ==> r.value == AsClientPower(p).(uuid := Trim(p.uuid));
  }

  lemma ObjectRecord(p: PowerReading)
    ensures IsObjectRecord(Some(PowerJson(p)))
  {
  }

  /** A state with ordered lists arrives under its trimmed uuid and otherwise unchanged; one with a blank uuid does
      not arrive. */
  lemma ParseTrims(js: Js, s: DeviceState)
    requires Collates(js) && s.updatedAt > 0 && ListsNormal(js, s)
    ensures ParseStreamState(js, Some(StateJson(s)))
         == if Trim(s.uuid) == "" then None else Some(AsStream(s).(uuid := Trim(s.uuid)))
  {
    hide Trim;
    hide StateJson;
    hide ParseStreamState;
    hide MapJson;
    hide ChannelsOf;
    hide LightsOf;
    hide ScheduleDigestOf;
    StatePasses(js, s);
    WrittenLists(js, s.channels, s.lights);
    WrittenDigest(js, s.timerxDigest);
    WrittenDigest(js, s.triggerxDigest);
    StableSortFixed(ChannelLe, s.channels);
    StableSortFixed(LightLe, s.lights);
  }

  lemma PowerParseTrims(js: Js, p: PowerReading)
    requires p.updatedAt > 0
    ensures ParsePower(js, Some(PowerJson(p)))
         == if Trim(p.uuid) == "" then None else Some(AsClientPower(p).(uuid := Trim(p.uuid)))
  {
    hide Trim;
    hide AsNat;
    hide Field;
    hide PowerJson;
    hide StringOnly;
    PowerLookups(p);
    NumberIs(js, p.channel);
    RealIs(js, p.measures.voltageV);
    RealIs(js, p.measures.currentA);
    RealIs(js, p.measures.powerW);
    TextIs(p.error);
    ObjectRecord(p);
    var raw := Some(PowerJson(p));
    assert TextOf(js, Field(raw, KUuid)) == p.uuid;
    assert Number(js, Field(raw, KUpdatedAt)) == Some(p.updatedAt as real);
  }
}
