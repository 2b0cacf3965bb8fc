/** JSON values and the few JavaScript coercions the extractors and parsers apply to them. */
module Json {
  import opened Prelude
  import opened Text
  import opened Devices

  /** The property names the code looks up. */
  type Key = int

  const KPayload: Key := 0
  const KAll: Key := 1
  const KDigest: Key := 2
  const KTogglex: Key := 3
  const KToggleX: Key := 4
  const KToggle: Key := 5
  const KLamp: Key := 6
  const KTimerx: Key := 7
  const KTriggerx: Key := 8
  const KUuid: Key := 9
  const KHost: Key := 10
  const KKind: Key := 11
  const KChannel: Key := 12
  const KOnoff: Key := 13
  const KState: Key := 14
  const KChannels: Key := 15
  const KLights: Key := 16
  const KLight: Key := 17
  const KLuminance: Key := 18
  const KBrightness: Key := 19
  const KLuma: Key := 20
  const KLum: Key := 21
  const KTemperature: Key := 22
  const KTemp: Key := 23
  const KColorTemp: Key := 24
  const KColortemp: Key := 25
  const KRgb: Key := 26
  const KR: Key := 27
  const KRed: Key := 28
  const KG: Key := 29
  const KGreen: Key := 30
  const KB: Key := 31
  const KBlue: Key := 32
  const KTimerxDigest: Key := 33
  const KTriggerxDigest: Key := 34
  const KId: Key := 35
  const KCount: Key := 36
  const KUpdatedAt: Key := 37
  const KStale: Key := 38
  const KSource: Key := 39
  const KError: Key := 40
  const KVoltageV: Key := 41
  const KCurrentA: Key := 42
  const KPowerW: Key := 43
  const KStates: Key := 44
  const KReadings: Key := 45

  /** An object is given by what it answers for each property; `None` is `undefined`. */
  datatype Json =
    | Null
    | Bool(b: bool)
    | Num(n: real)
    | Str(s: string)
    | Arr(items: seq<Json>)
    | Obj(property: Key -> Option<Json>)

  /** A JavaScript value; `None` is `undefined`. */
  type Value = Option<Json>

  /** The parts of JavaScript left open: `Number` and `String` on the values where they are intricate, and the
      order of `localeCompare`. A number that is not finite is `None`. */
  datatype Js = Js(numberOf: Json -> Option<real>, textOf: Json -> string, localeLe: (string, string) -> bool)

  function Field(v: Value, k: Key): Value {
    if v.Some? && v.value.Obj? then v.value.property(k) else None
  }

  /** The first value, or the second where the first is null or undefined. */
  function OrElse(v: Value, w: Value): Value {
    if v.None? || v.value.Null? then w else v
  }

  predicate Truthy(v: Value) {
    v.Some? && match v.value
    case Null => false
    case Bool(b) => b
    case Num(n) => n != 0.0
    case Str(s) => s != ""
    case _ => true
  }

  function Number(js: Js, v: Value): Option<real> {
    match v
    case None => None
    case Some(Null) => Some(0.0)
    case Some(Bool(b)) => Some(if b then 1.0 else 0.0)
    case Some(Num(n)) => Some(n)
    case Some(x) => js.numberOf(x)
  }

  /** The text of a value; null and undefined have the empty text. */
  function TextOf(js: Js, v: Value): string {
    match v
    case None => ""
    case Some(Null) => ""
    case Some(Str(s)) => s
    case Some(x) => js.textOf(x)
  }

  /** `coerceFiniteNumber` */
  function CoerceFiniteNumber(js: Js, v: Value): Option<real> {
    match v
    case Some(Str(s)) => if Trim(s) != "" then js.numberOf(Str(s)) else None
    case Some(Num(n)) => Some(n)
    case _ => None
  }

  predicate IsInteger(x: real) { x.Floor as real == x }

  /** A number that is a non-negative integer. */
  function AsNat(x: Option<real>): (r: Option<nat>)
    ensures r.Some? ==> x == Some(r.value as real)
  {
    if x.Some? && IsInteger(x.value) && x.value >= 0.0 then Some(x.value.Floor) else None
  }

  function ChannelOf(js: Js, item: Value): Option<nat> { AsNat(Number(js, Field(item, KChannel))) }

  function OnOff(js: Js, v: Value): Bit { if Number(js, v) == Some(1.0) then 1 else 0 }

  function ReadChannel(js: Js): Value -> Option<Channel> { item => ChannelEntry(js, item) }

  /** An entry with a channel that is a natural number, and its switch. */
  function ChannelEntry(js: Js, item: Value): Option<Channel> {
    match ChannelOf(js, item)
    case None => None
    case Some(c) => Some(Channel(c, OnOff(js, Field(item, KOnoff))))
  }

  /** A count: rounded to the nearest integer, at least 0, and 0 where there is no number. */
  function CountOf(x: Option<real>): nat { if x.None? then 0 else Max(0, Round(x.value)) }

  function Items(v: Value): seq<Json> {
    if v.Some? && v.value.Arr? then v.value.items else []
  }

  /** The entries that a loop keeps: `f` is `None` where the loop body says `continue`. */
  function Collect<T>(f: Value -> Option<T>, items: seq<Json>): seq<T> {
    if items == [] then []
    else
      var rest := Collect(f, items[..|items| - 1]);
      match f(Some(items[|items| - 1])) case None => rest case Some(x) => rest + [x]
  }

  lemma {:induction false} CollectAll<T(!new)>(f: Value -> Option<T>, P: T -> bool, items: seq<Json>)
    requires forall v :: f(v).Some? ==> P(f(v).value)
    ensures forall x :: x in Collect(f, items) ==> P(x)
  {
    if items != [] {
      CollectAll(f, P, items[..|items| - 1]);
    }
  }

  /** `r` lists what `entry` finds in the items, in a stable order: `at` says which item each entry comes from, and
      no item that holds an entry is left out. */
  ghost predicate ListedAt<T(!new)>(entry: (Json, T) -> bool, le: (T, T) -> bool, items: seq<Json>, r: seq<T>, at: seq<nat>) {
    && |at| == |r|
    && (forall k :: 0 <= k < |r| ==> at[k] < |items| && entry(items[at[k]], r[k]))
    && (forall i, x :: 0 <= i < |items| && entry(items[i], x) ==> i in at)
    && (forall j, k :: 0 <= j < k < |r| ==> le(r[j], r[k]) && (le(r[k], r[j]) ==> at[j] < at[k]))
  }

  ghost predicate Listing<T(!new)>(entry: (Json, T) -> bool, le: (T, T) -> bool, items: seq<Json>, r: seq<T>) {
    exists at: seq<nat> :: ListedAt(entry, le, items, r, at)
  }

  /** Some item holds an entry. */
  ghost predicate Holds<T(!new)>(entry: (Json, T) -> bool, items: seq<Json>) {
    exists i, x :: 0 <= i < |items| && entry(items[i], x)
  }

  /** `out` is what `f` keeps of the items, in order, and `from` says where it comes from. */
  ghost predicate KeptFrom<T(!new)>(f: Value -> Option<T>, items: seq<Json>, out: seq<T>, from: seq<nat>) {
    && |from| == |out|
    && (forall k :: 0 <= k < |from| ==> from[k] < |items| && f(Some(items[from[k]])) == Some(out[k]))
    && (forall i :: 0 <= i < |items| && f(Some(items[i])).Some? ==> i in from)
    && (forall j, k :: 0 <= j < k < |from| ==> from[j] < from[k])
  }

  lemma OneMoreKept<T(!new)>(f: Value -> Option<T>, items: seq<Json>, item: Json, out: seq<T>, from: seq<nat>)
    requires KeptFrom(f, items, out, from)
    ensures match f(Some(item))
      case None => KeptFrom(f, items + [item], out, from)
      case Some(x) => KeptFrom(f, items + [item], out + [x], from + [|items|])
  {
    match f(Some(item)) {
      case None =>
      case Some(x) =>
        var more := from + [|items|];
        assert more[|from|] == |items|;
        forall i | 0 <= i < |items| && f(Some(items[i])).Some?
          ensures i in more
        {
          assert i in from;
        }
    }
  }

  /** Where the entries come from that a loop keeps. */
  lemma {:induction false} CollectPlaces<T(!new)>(f: Value -> Option<T>, items: seq<Json>) returns (from: seq<nat>)
    ensures KeptFrom(f, items, Collect(f, items), from)
  {
    if items == [] {
      from := [];
    } else {
      var n := |items| - 1;
      from := CollectPlaces(f, items[..n]);
      OneMoreKept(f, items[..n], items[n], Collect(f, items[..n]), from);
      assert items == items[..n] + [items[n]];
      from := if f(Some(items[n])).Some? then from + [n] else from;
      hide KeptFrom;
    }
  }

  /** Collecting and sorting lists exactly what the loop's body finds. */
  lemma CollectListing<T(!new)>(f: Value -> Option<T>, entry: (Json, T) -> bool, le: (T, T) -> bool, items: seq<Json>)
    requires TotalPreorder(le)
    requires forall v: Json, x: T :: entry(v, x) <==> f(Some(v)) == Some(x)
    ensures Listing(entry, le, items, StableSort(le, Collect(f, items)))
    ensures Collect(f, items) != [] <==> Holds(entry, items)
  {
    hide *;
    var from := CollectPlaces(f, items);
    var out := Collect(f, items);
    var place := StableSortPlaces(le, out);
    SortedListing(f, entry, le, items, out, from, StableSort(le, out), place);
    KeptHolds(f, entry, items, out, from);
  }

  lemma KeptHolds<T(!new)>(f: Value -> Option<T>, entry: (Json, T) -> bool, items: seq<Json>, out: seq<T>, from: seq<nat>)
    requires forall v: Json, x: T :: entry(v, x) <==> f(Some(v)) == Some(x)
    requires KeptFrom(f, items, out, from)
    ensures out != [] <==> Holds(entry, items)
  {
    if out != [] {
      assert entry(items[from[0]], out[0]);
    }
    if Holds(entry, items) {
      var i, x :| 0 <= i < |items| && entry(items[i], x);
      assert i in from;
    }
  }

  lemma SortedListing<T(!new)>(f: Value -> Option<T>, entry: (Json, T) -> bool, le: (T, T) -> bool, items: seq<Json>,
                               out: seq<T>, from: seq<nat>, r: seq<T>, place: seq<nat>)
    requires forall v: Json, x: T :: entry(v, x) <==> f(Some(v)) == Some(x)
    requires KeptFrom(f, items, out, from) && PlacedBy(le, out, r, place)
    ensures Listing(entry, le, items, r)
  {
    var at := seq(|place|, k requires 0 <= k < |place| => from[place[k]]);
    forall i, x | 0 <= i < |items| && entry(items[i], x)
      ensures i in at
    {
      assert i in from;
      var k :| 0 <= k < |from| && from[k] == i;
      assert k in place;
      var m :| 0 <= m < |place| && place[m] == k;
      assert at[m] == i;
    }
    assert ListedAt(entry, le, items, r, at);
  }

  function MapJson<T>(g: T -> Json, xs: seq<T>): (r: seq<Json>)
    ensures |r| == |xs|
  {
    if xs == [] then [] else MapJson(g, xs[..|xs| - 1]) + [g(xs[|xs| - 1])]
  }

  /** Reading back what was written. */
  lemma {:induction false} CollectMapJson<T(!new)>(f: Value -> Option<T>, g: T -> Json, xs: seq<T>)
    requires forall x :: x in xs ==> f(Some(g(x))) == Some(x)
    ensures Collect(f, MapJson(g, xs)) == xs
  {
    if xs != [] {
      var n := |xs| - 1;
      var r := MapJson(g, xs);
      assert r[..n] == MapJson(g, xs[..n]) && r[n] == g(xs[n]);
      CollectMapJson(f, g, xs[..n]);
      assert xs[n] in xs;
      assert xs == xs[..n] + [xs[n]];
    }
  }

  // --------------------------------------------------------------- sort orders

  predicate ChannelLe(a: Channel, b: Channel) { a.channel <= b.channel }

  predicate LightLe(a: Light, b: Light) { a.channel <= b.channel }

  /** By channel, and by id within a channel. */
  function DigestLe(js: Js): (DigestEntry, DigestEntry) -> bool {
    (a: DigestEntry, b: DigestEntry) => a.channel < b.channel || (a.channel == b.channel && js.localeLe(a.id, b.id))
  }

  /** `localeCompare` orders all texts consistently. */
  ghost predicate Collates(js: Js) { TotalPreorder(js.localeLe) }

  lemma DigestLePreorder(js: Js)
    requires Collates(js)
    ensures TotalPreorder(DigestLe(js))
  {
    var le := DigestLe(js);
    forall a: DigestEntry, b: DigestEntry
      ensures le(a, b) || le(b, a)
    {
      assert js.localeLe(a.id, b.id) || js.localeLe(b.id, a.id);
    }
    forall a: DigestEntry, b: DigestEntry, c: DigestEntry | le(a, b) && le(b, c)
      ensures le(a, c)
    {
      assert js.localeLe(a.id, b.id) && js.localeLe(b.id, c.id) ==> js.localeLe(a.id, c.id);
    }
  }

  /** The normal form of a digest: in order, every id trimmed and non-empty. */
  ghost predicate DigestNormal(js: Js, ds: seq<DigestEntry>) {
    Sorted(DigestLe(js), ds) && forall d :: d in ds ==> Trimmed(d.id)
  }

  /** The normal form of the lists in a state. */
  ghost predicate ListsNormal(js: Js, s: DeviceState) {
    && Sorted(ChannelLe, s.channels)
    && Sorted(LightLe, s.lights)
    && DigestNormal(js, s.timerxDigest)
    && DigestNormal(js, s.triggerxDigest)
  }
}
