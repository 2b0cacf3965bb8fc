/** What a device's response means, field by field: which of its values the extractors read, and as what. */
module LanResponse {
  import opened Prelude
  import opened Text
  import opened Devices
  import opened Json
  import LanExtract

  /** The value at a path of optional property accesses. */
  function At(v: Value, path: seq<Key>): Value
    decreases |path|
  {
    if path == [] then v else At(Field(v, path[0]), path[1..])
  }

  /** The first of these fields that is neither missing nor null; the last one if there is none. */
  function FirstField(v: Value, keys: seq<Key>): Value
    requires keys != []
  {
    var x := Field(v, keys[0]);
    if |keys| > 1 && (x.None? || x.value.Null?) then FirstField(v, keys[1..]) else x
  }

  lemma DigestAt(resp: Value, key: Key)
    ensures At(resp, [KPayload, KAll, KDigest, key]) == Field(LanExtract.DigestOf(resp), key)
    ensures At(resp, [KPayload, KAll, KDigest, key, key]) == Field(Field(LanExtract.DigestOf(resp), key), key)
  {
    var d := LanExtract.DigestOf(resp);
    AtCons(resp, KPayload, [KAll, KDigest, key]);
    AtCons(Field(resp, KPayload), KAll, [KDigest, key]);
    AtCons(Field(Field(resp, KPayload), KAll), KDigest, [key]);
    AtCons(d, key, []);
    AtCons(resp, KPayload, [KAll, KDigest, key, key]);
    AtCons(Field(resp, KPayload), KAll, [KDigest, key, key]);
    AtCons(Field(Field(resp, KPayload), KAll), KDigest, [key, key]);
    AtCons(d, key, [key]);
    AtCons(Field(d, key), key, []);
    hide Field;
  }

  lemma AtCons(v: Value, k: Key, path: seq<Key>)
    ensures At(v, [k] + path) == At(Field(v, k), path)
  {
    assert ([k] + path)[1..] == path;
  }

  // --------------------------------------------------------------------- entries

  ghost predicate OnChannel(js: Js, item: Json, channel: nat) {
    Number(js, Field(Some(item), KChannel)) == Some(channel as real)
  }

  ghost predicate IsOne(js: Js, v: Value) { Number(js, v) == Some(1.0) }

  /** An entry of a toggle list: its channel, and on exactly if `onoff` is 1. */
  ghost predicate SwitchReads(js: Js, item: Json, c: Channel) {
    OnChannel(js, item, c.channel) && (c.onoff == 1 <==> IsOne(js, Field(Some(item), KOnoff)))
  }

  ghost predicate IsByte(js: Js, v: Value, n: nat) { n <= 255 && CoerceFiniteNumber(js, v) == Some(n as real) }

  /** The three values are bytes, and `colour` is 0xRRGGBB. */
  ghost predicate Packs(js: Js, r: Value, g: Value, b: Value, colour: real) {
    exists x: nat, y: nat, z: nat ::
      IsByte(js, r, x) && IsByte(js, g, y) && IsByte(js, b, z) && colour == (x * 0x1_0000 + y * 0x100 + z) as real
  }

  /** A colour is a number, rounded; or a list of at least three components, or an object with them. */
  ghost predicate ColourReads(js: Js, v: Value, colour: real) {
    var n := CoerceFiniteNumber(js, v);
    if n.Some? then colour == Round(n.value) as real
    else v.Some? && match v.value
      case Arr(items) => |items| >= 3 && Packs(js, Some(items[0]), Some(items[1]), Some(items[2]), colour)
      case Obj(_) => Packs(js, FirstField(v, [KR, KRed]), FirstField(v, [KG, KGreen]), FirstField(v, [KB, KBlue]), colour)
      case _ => false
  }

  /** An entry of a light list. */
  ghost predicate LightReads(js: Js, item: Json, l: Light) {
    var v := Some(item);
    && OnChannel(js, item, l.channel)
    && (l.onoff == 1 <==> IsOne(js, FirstField(v, [KOnoff, KState])))
    && l.luminance == CoerceFiniteNumber(js, FirstField(v, [KLuminance, KBrightness, KLuma, KLum]))
    && l.temperature == CoerceFiniteNumber(js, FirstField(v, [KTemperature, KTemp, KColorTemp, KColortemp]))
    && match l.rgb
       case Some(colour) => ColourReads(js, Field(v, KRgb), colour)
       case None => forall colour :: !ColourReads(js, Field(v, KRgb), colour)
  }

  /** An entry of a schedule digest: a missing count is 0, a negative one too. */
  ghost predicate RuleReads(js: Js, item: Json, d: DigestEntry) {
    var count := CoerceFiniteNumber(js, Field(Some(item), KCount));
    && OnChannel(js, item, d.channel)
    && d.id == Trim(TextOf(js, Field(Some(item), KId))) != ""
    && d.count == if count.Some? && Round(count.value) > 0 then Round(count.value) else 0
  }

  ghost function Switch(js: Js): (Json, Channel) -> bool { (item, c) => SwitchReads(js, item, c) }

  ghost function Lamp(js: Js): (Json, Light) -> bool { (item, l) => LightReads(js, item, l) }

  ghost function Rule(js: Js): (Json, DigestEntry) -> bool { (item, d) => RuleReads(js, item, d) }

  lemma OnChannelIs(js: Js, item: Json, channel: nat)
    ensures OnChannel(js, item, channel) <==> ChannelOf(js, Some(item)) == Some(channel)
  {
    hide Number;
    hide Field;
    NatOf(Number(js, Field(Some(item), KChannel)), channel);
  }

  lemma NatOf(x: Option<real>, n: nat)
    ensures AsNat(x) == Some(n) <==> x == Some(n as real)
  {
  }

  lemma SwitchIs(js: Js, item: Json, c: Channel)
    ensures SwitchReads(js, item, c) <==> ChannelEntry(js, Some(item)) == Some(c)
  {
    OnChannelIs(js, item, c.channel);
    hide ChannelOf;
    hide OnChannel;
    hide Field;
    hide Number;
  }

  lemma FirstOfTwo(v: Value, a: Key, b: Key)
    ensures FirstField(v, [a, b]) == OrElse(Field(v, a), Field(v, b))
  {
    assert [a, b][1..] == [b];
    hide Field;
  }

  lemma FirstOfFour(v: Value, a: Key, b: Key, c: Key, d: Key)
    ensures FirstField(v, [a, b, c, d]) == OrElse(Field(v, a), OrElse(Field(v, b), OrElse(Field(v, c), Field(v, d))))
  {
    assert [a, b, c, d][1..] == [b, c, d] && [b, c, d][1..] == [c, d];
    FirstOfTwo(v, c, d);
    hide Field;
  }

  lemma ByteIs(js: Js, v: Value, n: nat)
    ensures IsByte(js, v, n) <==> LanExtract.AsByte(CoerceFiniteNumber(js, v)) == Some(n)
  {
    NatOf(CoerceFiniteNumber(js, v), n);
    hide CoerceFiniteNumber;
    hide AsNat;
  }

  lemma PackedIs(js: Js, r: Value, g: Value, b: Value, colour: real)
    ensures Packs(js, r, g, b, colour)
       <==> var p := LanExtract.PackAll(LanExtract.AsByte(CoerceFiniteNumber(js, r)), LanExtract.AsByte(CoerceFiniteNumber(js, g)),
                                        LanExtract.AsByte(CoerceFiniteNumber(js, b)));
            p.Some? && colour == p.value as real
  {
    hide CoerceFiniteNumber;
    hide LanExtract.AsByte;
    hide LanExtract.Pack;
    hide IsByte;
    var x, y, z := LanExtract.AsByte(CoerceFiniteNumber(js, r)), LanExtract.AsByte(CoerceFiniteNumber(js, g)),
      LanExtract.AsByte(CoerceFiniteNumber(js, b));
    forall n: nat
      ensures (IsByte(js, r, n) <==> x == Some(n)) && (IsByte(js, g, n) <==> y == Some(n)) && (IsByte(js, b, n) <==> z == Some(n))
    {
      ByteIs(js, r, n);
      ByteIs(js, g, n);
      ByteIs(js, b, n);
    }
    if x.Some? && y.Some? && z.Some? {
      ByteIs(js, r, x.value);
      ByteIs(js, g, y.value);
      ByteIs(js, b, z.value);
      Bytes(js, r, x.value);
      Bytes(js, g, y.value);
      Bytes(js, b, z.value);
      LanExtract.PackIs(x.value, y.value, z.value);
    }
  }

  lemma Bytes(js: Js, v: Value, n: nat)
    requires IsByte(js, v, n)
    ensures n <= 255
  {
  }

  lemma NoComponents(js: Js, v: Value)
    requires v.None? || !v.value.Obj?
    ensures forall k, l :: LanExtract.AsByte(CoerceFiniteNumber(js, OrElse(Field(v, k), Field(v, l)))) == None
  {
  }

  /** What the colour coercion answers. */
  lemma ColourIs(js: Js, v: Value, colour: real)
    ensures ColourReads(js, v, colour)
       <==> LanExtract.CoerceRgb(js, v).Some? && colour == LanExtract.CoerceRgb(js, v).value as real
  {
    hide CoerceFiniteNumber;
    hide LanExtract.AsByte;
    hide LanExtract.Pack;
    hide Packs;
    hide FirstField;
    hide Field;
    hide OrElse;
    FirstOfTwo(v, KR, KRed);
    FirstOfTwo(v, KG, KGreen);
    FirstOfTwo(v, KB, KBlue);
    PackedIs(js, FirstField(v, [KR, KRed]), FirstField(v, [KG, KGreen]), FirstField(v, [KB, KBlue]), colour);
    if v.None? || !v.value.Obj? {
      NoComponents(js, v);
    }
    if v.Some? && v.value.Arr? && |v.value.items| >= 3 {
      PackedIs(js, Some(v.value.items[0]), Some(v.value.items[1]), Some(v.value.items[2]), colour);
    }
  }

  lemma LightIs(js: Js, item: Json, l: Light)
    ensures LightReads(js, item, l) <==> LanExtract.LightEntry(js, Some(item)) == Some(l)
  {
    hide ChannelOf;
    hide OnChannel;
    hide Field;
    hide Number;
    hide CoerceFiniteNumber;
    hide LanExtract.CoerceRgb;
    hide ColourReads;
    hide FirstField;
    var v := Some(item);
    OnChannelIs(js, item, l.channel);
    FirstOfTwo(v, KOnoff, KState);
    FirstOfFour(v, KLuminance, KBrightness, KLuma, KLum);
    FirstOfFour(v, KTemperature, KTemp, KColorTemp, KColortemp);
    var rgb := LanExtract.CoerceRgb(js, Field(v, KRgb));
    forall colour
      ensures ColourReads(js, Field(v, KRgb), colour) <==> rgb.Some? && colour == rgb.value as real
    {
      ColourIs(js, Field(v, KRgb), colour);
    }
    assert rgb.Some? ==> ColourReads(js, Field(v, KRgb), rgb.value as real);
  }

  lemma RuleIs(js: Js, item: Json, d: DigestEntry)
    ensures RuleReads(js, item, d) <==> LanExtract.DigestItem(js, Some(item)) == Some(d)
  {
    hide ChannelOf;
    hide OnChannel;
    hide Field;
    hide Trim;
    hide TextOf;
    hide CoerceFiniteNumber;
    OnChannelIs(js, item, d.channel);
  }

  // ----------------------------------------------------------------------- lists

  /** `r` is read from the first of the places that holds an entry, and is missing if none does. */
  ghost predicate FromFirst<T(!new)>(entry: (Json, T) -> bool, le: (T, T) -> bool, places: seq<Value>, r: Option<seq<T>>) {
    && (r.None? <==> forall p :: p in places ==> !Holds(entry, LanExtract.ItemsOrSelf(p)))
    && forall k :: 0 <= k < |places| && Holds(entry, LanExtract.ItemsOrSelf(places[k]))
                   && (forall j :: 0 <= j < k ==> !Holds(entry, LanExtract.ItemsOrSelf(places[j])))
         ==> r.Some? && Listing(entry, le, LanExtract.ItemsOrSelf(places[k]), r.value)
  }

  /** A falsy candidate, which the loop skips, would yield nothing anyway. */
  lemma FalsyHolds(js: Js, c: Value)
    requires !Truthy(c)
    ensures forall v, channel :: v in LanExtract.ItemsOrSelf(c) ==> !OnChannel(js, v, channel)
  {
  }

  lemma FirstIs<T(!new)>(f: Value -> Option<T>, entry: (Json, T) -> bool, le: (T, T) -> bool, places: seq<Value>)
    requires TotalPreorder(le)
    requires forall v: Json, x: T :: entry(v, x) <==> f(Some(v)) == Some(x)
    requires forall p :: p in places && !Truthy(p) ==> !Holds(entry, LanExtract.ItemsOrSelf(p))
    ensures FromFirst(entry, le, places, LanExtract.FirstNonEmpty(f, le, places))
  {
    hide TotalPreorder;
    hide Truthy;
    hide Collect;
    hide Listing;
    hide Holds;
    hide StableSort;
    hide LanExtract.ItemsOrSelf;
    if places != [] {
      CollectListing(f, entry, le, LanExtract.ItemsOrSelf(places[0]));
      assert forall p :: p in places[1..] ==> p in places;
      FirstIs(f, entry, le, places[1..]);
      hide LanExtract.FirstNonEmpty;
      OneMorePlace(entry, le, places, LanExtract.FirstNonEmpty(f, le, places), LanExtract.FirstNonEmpty(f, le, places[1..]));
    }
  }

  lemma OneMorePlace<T(!new)>(entry: (Json, T) -> bool, le: (T, T) -> bool, places: seq<Value>, r: Option<seq<T>>, rest: Option<seq<T>>)
    requires places != [] && FromFirst(entry, le, places[1..], rest)
    requires var items := LanExtract.ItemsOrSelf(places[0]);
      if Holds(entry, items) then r.Some? && Listing(entry, le, items, r.value) else r == rest
    ensures FromFirst(entry, le, places, r)
  {
    hide Listing;
    hide Holds;
    hide LanExtract.ItemsOrSelf;
    assert places == [places[0]] + places[1..];
    forall k | 0 <= k < |places| && Holds(entry, LanExtract.ItemsOrSelf(places[k]))
               && (forall j :: 0 <= j < k ==> !Holds(entry, LanExtract.ItemsOrSelf(places[j])))
      ensures r.Some? && Listing(entry, le, LanExtract.ItemsOrSelf(places[k]), r.value)
    {
      if k > 0 {
        assert places[k] == places[1..][k - 1];
        assert forall j :: 0 <= j < k - 1 ==> places[1..][j] == places[j + 1];
        assert !Holds(entry, LanExtract.ItemsOrSelf(places[0]));
      }
    }
  }

  lemma FirstPlace<T(!new)>(entry: (Json, T) -> bool, le: (T, T) -> bool, places: seq<Value>, r: Option<seq<T>>)
    requires FromFirst(entry, le, places, r) && places != [] && Holds(entry, LanExtract.ItemsOrSelf(places[0]))
    ensures r.Some? && Listing(entry, le, LanExtract.ItemsOrSelf(places[0]), r.value)
  {
    hide Listing;
    hide Holds;
  }

  /** The channels of a response are those of `payload.all.digest.togglex` if that holds an entry at all; if not, those
      of `toggleX`, of `toggle`, or of a `togglex` inside `togglex`, in this order: every entry whose channel is a
      natural number, in order by channel, ties as they came. There are none exactly if none of the four holds one. */
  lemma TogglesMean(js: Js, resp: Value)
    ensures FromFirst(Switch(js), ChannelLe,
                      [At(resp, [KPayload, KAll, KDigest, KTogglex]), At(resp, [KPayload, KAll, KDigest, KToggleX]),
                       At(resp, [KPayload, KAll, KDigest, KToggle]), At(resp, [KPayload, KAll, KDigest, KTogglex, KTogglex])],
                      LanExtract.LanToggleX(js, resp))
  {
    DigestAt(resp, KTogglex);
    DigestAt(resp, KToggleX);
    DigestAt(resp, KToggle);
    hide At;
    hide FromFirst;
    hide Holds;
    hide SwitchReads;
    hide ChannelEntry;
    hide LanExtract.DigestOf;
    hide Field;
    hide LanExtract.FirstNonEmpty;
    hide Truthy;
    var places := LanExtract.ToggleCandidates(resp);
    forall v: Json, c: Channel
      ensures Switch(js)(v, c) <==> ReadChannel(js)(Some(v)) == Some(c)
    {
      SwitchIs(js, v, c);
    }
    forall p | p in places && !Truthy(p)
      ensures !Holds(Switch(js), LanExtract.ItemsOrSelf(p))
    {
      NoSwitch(js, p);
    }
    FirstIs(ReadChannel(js), Switch(js), ChannelLe, places);
  }

  lemma NoSwitch(js: Js, p: Value)
    requires !Truthy(p)
    ensures !Holds(Switch(js), LanExtract.ItemsOrSelf(p))
  {
    FalsyHolds(js, p);
    hide OnChannel;
    hide LanExtract.ItemsOrSelf;
  }

  lemma NoLamp(js: Js, p: Value)
    requires !Truthy(p)
    ensures !Holds(Lamp(js), LanExtract.ItemsOrSelf(p))
  {
    FalsyHolds(js, p);
    hide OnChannel;
    hide LanExtract.ItemsOrSelf;
  }

  lemma NoRule(js: Js, p: Value)
    requires !Truthy(p)
    ensures !Holds(Rule(js), LanExtract.ItemsOrSelf(p))
  {
    FalsyHolds(js, p);
    hide OnChannel;
    hide LanExtract.ItemsOrSelf;
  }

  /** The lights of a response, likewise, from `light`, a `light` inside it, `lamp`, or a `lamp` inside that. */
  lemma LightsMean(js: Js, resp: Value)
    ensures FromFirst(Lamp(js), LightLe,
                      [At(resp, [KPayload, KAll, KDigest, KLight]), At(resp, [KPayload, KAll, KDigest, KLight, KLight]),
                       At(resp, [KPayload, KAll, KDigest, KLamp]), At(resp, [KPayload, KAll, KDigest, KLamp, KLamp])],
                      LanExtract.LanLight(js, resp))
  {
    DigestAt(resp, KLight);
    DigestAt(resp, KLamp);
    hide At;
    hide FromFirst;
    hide Holds;
    hide LightReads;
    hide LanExtract.LightEntry;
    hide LanExtract.DigestOf;
    hide Field;
    hide LanExtract.FirstNonEmpty;
    hide Truthy;
    var places := LanExtract.LightCandidates(resp);
    forall v: Json, l: Light
      ensures Lamp(js)(v, l) <==> LanExtract.ReadLightEntry(js)(Some(v)) == Some(l)
    {
      LightIs(js, v, l);
    }
    forall p | p in places && !Truthy(p)
      ensures !Holds(Lamp(js), LanExtract.ItemsOrSelf(p))
    {
      NoLamp(js, p);
    }
    FirstIs(LanExtract.ReadLightEntry(js), Lamp(js), LightLe, places);
  }

  /** A schedule digest is the valid entries directly under its own key, by channel and id, and of nothing else. */
  lemma SchedulesMean(js: Js, resp: Value, kind: Key)
    requires Collates(js)
    ensures Listing(Rule(js), DigestLe(js), LanExtract.ItemsOrSelf(At(resp, [KPayload, KAll, KDigest, kind])),
                    LanExtract.LanScheduleDigest(js, resp, kind))
  {
    hide At;
    hide Listing;
    hide Holds;
    hide RuleReads;
    hide LanExtract.DigestItem;
    hide LanExtract.DigestOf;
    hide Field;
    hide Truthy;
    hide TotalPreorder;
    hide LanExtract.FirstTruthy;
    hide LanExtract.LanScheduleDigest;
    hide StableSort;
    DigestAt(resp, kind);
    var direct := Field(LanExtract.DigestOf(resp), kind);
    LanExtract.NestedDigestUnreachable(js, resp, kind);
    LanExtract.OneCandidate(js, direct);
    DigestLePreorder(js);
    forall v: Json, d: DigestEntry
      ensures Rule(js)(v, d) <==> LanExtract.ReadDigestItem(js)(Some(v)) == Some(d)
    {
      RuleIs(js, v, d);
    }
    CollectListing(LanExtract.ReadDigestItem(js), Rule(js), DigestLe(js), LanExtract.ItemsOrSelf(direct));
    if !Truthy(direct) {
      NoRule(js, direct);
      NothingListed(Rule(js), DigestLe(js), LanExtract.ItemsOrSelf(direct));
    }
  }

  lemma NothingListed<T(!new)>(entry: (Json, T) -> bool, le: (T, T) -> bool, items: seq<Json>)
    requires !Holds(entry, items)
    ensures Listing(entry, le, items, [])
  {
    assert ListedAt(entry, le, items, [], []);
  }

  lemma FirstToggles(js: Js, resp: Value)
    requires Holds(Switch(js), LanExtract.ItemsOrSelf(At(resp, [KPayload, KAll, KDigest, KTogglex])))
    ensures LanExtract.LanToggleX(js, resp).Some?
    ensures Listing(Switch(js), ChannelLe, LanExtract.ItemsOrSelf(At(resp, [KPayload, KAll, KDigest, KTogglex])),
                    LanExtract.LanToggleX(js, resp).value)
  {
    hide At;
    hide Holds;
    hide Listing;
    hide LanExtract.LanToggleX;
    hide FromFirst;
    TogglesMean(js, resp);
    FirstPlace(Switch(js), ChannelLe,
               [At(resp, [KPayload, KAll, KDigest, KTogglex]), At(resp, [KPayload, KAll, KDigest, KToggleX]),
                At(resp, [KPayload, KAll, KDigest, KToggle]), At(resp, [KPayload, KAll, KDigest, KTogglex, KTogglex])],
               LanExtract.LanToggleX(js, resp));
  }

  /** A strip that lists its sockets under `togglex`: all of them are read, whatever else the response says. */
  lemma ListOfToggles(js: Js, resp: Value, items: seq<Json>)
    requires At(resp, [KPayload, KAll, KDigest, KTogglex]) == Some(Arr(items)) && Holds(Switch(js), items)
    ensures LanExtract.LanToggleX(js, resp).Some? && Listing(Switch(js), ChannelLe, items, LanExtract.LanToggleX(js, resp).value)
  {
    hide At;
    hide Holds;
    hide Listing;
    hide LanExtract.LanToggleX;
    FirstToggles(js, resp);
  }

  /** A plug that gives a single object there: its channel is the only one. */
  lemma LoneToggle(js: Js, resp: Value, item: Json, c: Channel)
    requires At(resp, [KPayload, KAll, KDigest, KTogglex]) == Some(item) && !item.Arr? && SwitchReads(js, item, c)
    ensures LanExtract.LanToggleX(js, resp) == Some([c])
  {
    hide At;
    hide Listing;
    hide SwitchReads;
    hide LanExtract.LanToggleX;
    assert Switch(js)([item][0], c);
    FirstToggles(js, resp);
    OneListed(js, item, c, LanExtract.LanToggleX(js, resp).value);
  }

  lemma OneListed(js: Js, item: Json, c: Channel, r: seq<Channel>)
    requires SwitchReads(js, item, c) && Listing(Switch(js), ChannelLe, [item], r)
    ensures r == [c]
  {
    hide SwitchReads;
    hide ListedAt;
    var at :| ListedAt(Switch(js), ChannelLe, [item], r, at);
    OnlyPlace(js, item, c, r, at);
    EqualPlaces(js, item, c, r, at, |r| - 1);
  }

  lemma OnlyPlace(js: Js, item: Json, c: Channel, r: seq<Channel>, at: seq<nat>)
    requires SwitchReads(js, item, c) && ListedAt(Switch(js), ChannelLe, [item], r, at)
    ensures |r| > 0 && r[0] == c
  {
    hide SwitchReads;
    assert Switch(js)([item][0], c);
    assert 0 in at;
    SameSwitch(js, item, c, r[0]);
  }

  lemma EqualPlaces(js: Js, item: Json, c: Channel, r: seq<Channel>, at: seq<nat>, k: nat)
    requires ListedAt(Switch(js), ChannelLe, [item], r, at) && k < |r|
    ensures k == 0
  {
    hide SwitchReads;
    SameSwitch(js, item, r[0], r[k]);
  }

  lemma SameSwitch(js: Js, item: Json, c: Channel, d: Channel)
    requires SwitchReads(js, item, c) && SwitchReads(js, item, d)
    ensures c == d
  {
    SwitchIs(js, item, c);
    SwitchIs(js, item, d);
  }
}
