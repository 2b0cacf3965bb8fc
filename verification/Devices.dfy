/** The device states and power readings the server caches, and its notion of a material change. */
module Devices {
  import opened Prelude

  /** An `onoff` value. */
  type Bit = b: nat | b < 2

  datatype Channel = Channel(channel: nat, onoff: Bit)

  datatype Light = Light(channel: nat, onoff: Bit, luminance: Option<real>, temperature: Option<real>, rgb: Option<real>)

  datatype DigestEntry = DigestEntry(channel: nat, id: string, count: nat)

  datatype Kind = ToggleX | LightOnly | Mixed

  datatype Source = Poller | Manual

  /** `DeviceStateDto` */
  datatype DeviceState = DeviceState(
    uuid: string,
    host: string,
    kind: Kind,
    channel: nat,
    onoff: Bit,
    channels: seq<Channel>,
    lights: seq<Light>,
    light: Option<Light>,
    timerxDigest: seq<DigestEntry>,
    triggerxDigest: seq<DigestEntry>,
    updatedAt: int,
    source: Source,
    stale: bool,
    error: Option<string>)

  /** The scaled and raw measurements of a `DevicePowerDto`. */
  datatype Measures = Measures(
    voltageV: Option<real>,
    currentA: Option<real>,
    powerW: Option<real>,
    voltageDv: Option<int>,
    currentMa: Option<int>,
    powerMw: Option<int>)

  /** `DevicePowerDto`; every reading comes from the telemetry poller. */
  datatype PowerReading = PowerReading(
    uuid: string,
    host: string,
    channel: nat,
    measures: Measures,
    updatedAt: int,
    stale: bool,
    error: Option<string>)

  // -------------------------------------------------------------- primary entries

  function LightOnZero(lights: seq<Light>): Option<Light> {
    if lights == [] then None else if lights[0].channel == 0 then Some(lights[0]) else LightOnZero(lights[1..])
  }

  function ChannelOnZero(channels: seq<Channel>): Option<Channel> {
    if channels == [] then None else if channels[0].channel == 0 then Some(channels[0]) else ChannelOnZero(channels[1..])
  }

  function PrimaryLight(lights: seq<Light>): Option<Light> {
    var zero := LightOnZero(lights);
    if zero.Some? then zero else if lights != [] then Some(lights[0]) else None
  }

  function PrimaryChannel(channels: seq<Channel>): Option<Channel> {
    var zero := ChannelOnZero(channels);
    if zero.Some? then zero else if channels != [] then Some(channels[0]) else None
  }

  // ------------------------------------------------------------- material change

  predicate SameChannels(a: seq<Channel>, b: seq<Channel>, i: nat)
    requires |a| == |b|
    decreases |a| - i
  {
    if i >= |a| then true
    else if a[i].channel != b[i].channel || a[i].onoff != b[i].onoff then false
    else SameChannels(a, b, i + 1)
  }

  predicate SameScheduleDigest(a: seq<DigestEntry>, b: seq<DigestEntry>, i: nat)
    requires |a| == |b|
    decreases |a| - i
  {
    if i >= |a| then true
    else if a[i].channel != b[i].channel then false
    else if a[i].id != b[i].id then false
    else if a[i].count != b[i].count then false
    else SameScheduleDigest(a, b, i + 1)
  }

  predicate LightChanged(a: Light, b: Light) {
    if a.channel != b.channel then true
    else if a.onoff != b.onoff then true
    else if a.luminance != b.luminance then true
    else if a.temperature != b.temperature then true
    else a.rgb != b.rgb
  }

  predicate SomeLightChanged(a: seq<Light>, b: seq<Light>, i: nat)
    requires |a| == |b|
    decreases |a| - i
  {
    if i >= |a| then false
    else if LightChanged(a[i], b[i]) then true
    else SomeLightChanged(a, b, i + 1)
  }

  predicate HasMaterialStateChange(prev: Option<DeviceState>, next: DeviceState) {
    if prev.None? then true
    else
      var p := prev.value;
      if p.host != next.host then true
      else if p.kind != next.kind then true
      else if p.channel != next.channel then true
      else if p.onoff != next.onoff then true
      else if p.stale != next.stale then true
      else if |p.channels| != |next.channels| || !SameChannels(p.channels, next.channels, 0) then true
      else if |p.timerxDigest| != |next.timerxDigest|
              || !SameScheduleDigest(p.timerxDigest, next.timerxDigest, 0) then true
      else if |p.triggerxDigest| != |next.triggerxDigest|
              || !SameScheduleDigest(p.triggerxDigest, next.triggerxDigest, 0) then true
      else if |p.lights| != |next.lights| then true
      else if SomeLightChanged(p.lights, next.lights, 0) then true
      else if p.light.Some? != next.light.Some? then true
      else if p.light.Some? && next.light.Some? then LightChanged(p.light.value, next.light.value)
      else false
  }

  /** What of a state matters to clients: everything but the uuid, the version, the source and the error text. */
  datatype Material = Material(
    host: string,
    kind: Kind,
    channel: nat,
    onoff: Bit,
    channels: seq<Channel>,
    lights: seq<Light>,
    light: Option<Light>,
    timerxDigest: seq<DigestEntry>,
    triggerxDigest: seq<DigestEntry>,
    stale: bool)

  function MaterialOf(s: DeviceState): Material {
    Material(s.host, s.kind, s.channel, s.onoff, s.channels, s.lights, s.light, s.timerxDigest, s.triggerxDigest, s.stale)
  }

  lemma {:induction false} SameChannelsMeaning(a: seq<Channel>, b: seq<Channel>, i: nat)
    requires |a| == |b| && i <= |a|
    ensures SameChannels(a, b, i) <==> a[i..] == b[i..]
    decreases |a| - i
  {
    if i < |a| {
      SameChannelsMeaning(a, b, i + 1);
      assert a[i..] == [a[i]] + a[i + 1..] && b[i..] == [b[i]] + b[i + 1..];
    }
  }

  lemma {:induction false} SameDigestMeaning(a: seq<DigestEntry>, b: seq<DigestEntry>, i: nat)
    requires |a| == |b| && i <= |a|
    ensures SameScheduleDigest(a, b, i) <==> a[i..] == b[i..]
    decreases |a| - i
  {
    if i < |a| {
      SameDigestMeaning(a, b, i + 1);
      assert a[i..] == [a[i]] + a[i + 1..] && b[i..] == [b[i]] + b[i + 1..];
    }
  }

  lemma {:induction false} LightsMeaning(a: seq<Light>, b: seq<Light>, i: nat)
    requires |a| == |b| && i <= |a|
    ensures SomeLightChanged(a, b, i) <==> a[i..] != b[i..]
    decreases |a| - i
  {
    if i < |a| {
      LightsMeaning(a, b, i + 1);
      assert a[i..] == [a[i]] + a[i + 1..] && b[i..] == [b[i]] + b[i + 1..];
    }
  }

  /** The field-by-field comparison reports no change exactly when the material parts are equal. */
  lemma MaterialChangeMeaning(prev: Option<DeviceState>, next: DeviceState)
    ensures HasMaterialStateChange(prev, next) <==> prev.None? || MaterialOf(prev.value) != MaterialOf(next)
  {
    if prev.Some? {
      var p := prev.value;
      if |p.channels| == |next.channels| {
        SameChannelsMeaning(p.channels, next.channels, 0);
      }
      if |p.timerxDigest| == |next.timerxDigest| {
        SameDigestMeaning(p.timerxDigest, next.timerxDigest, 0);
      }
      if |p.triggerxDigest| == |next.triggerxDigest| {
        SameDigestMeaning(p.triggerxDigest, next.triggerxDigest, 0);
      }
      if |p.lights| == |next.lights| {
        LightsMeaning(p.lights, next.lights, 0);
      }
      hide SameChannels;
      hide SameScheduleDigest;
      hide SomeLightChanged;
    }
  }
}
