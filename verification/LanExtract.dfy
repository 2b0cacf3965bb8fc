/** Reading device state out of a LAN response: the extractors of `shared.ts`. */
module LanExtract {
  import opened Prelude
  import opened Text
  import opened Int32
  import opened Devices
  import opened Json
  import Ipv4

  function DigestOf(resp: Value): Value { Field(Field(Field(resp, KPayload), KAll), KDigest) }

  /** The elements of a list; anything else counts as a list of itself. */
  function ItemsOrSelf(c: Value): seq<Json> {
    if c.None? then [] else if c.value.Arr? then c.value.items else [c.value]
  }

  /** The loop over the candidates of `extractLanToggleX` and `extractLanLight`: the first that yields an entry. */
  function FirstNonEmpty<T>(f: Value -> Option<T>, le: (T, T) -> bool, candidates: seq<Value>): Option<seq<T>> {
    if candidates == [] then None
    else
      var out := if Truthy(candidates[0]) then Collect(f, ItemsOrSelf(candidates[0])) else [];
      if out != [] then Some(StableSort(le, out)) else FirstNonEmpty(f, le, candidates[1..])
  }

  lemma {:induction false} FirstNonEmptySorted<T(!new)>(f: Value -> Option<T>, le: (T, T) -> bool, candidates: seq<Value>)
    requires TotalPreorder(le)
    ensures var r := FirstNonEmpty(f, le, candidates); r.Some? ==> r.value != [] && Sorted(le, r.value)
  {
    if candidates != [] {
      StableSortSorts(le, Collect(f, ItemsOrSelf(candidates[0])));
      FirstNonEmptySorted(f, le, candidates[1..]);
    }
  }

  // -------------------------------------------------------------------- toggles

  function ToggleCandidates(resp: Value): seq<Value> {
    var d := DigestOf(resp);
    [Field(d, KTogglex), Field(d, KToggleX), Field(d, KToggle), Field(Field(d, KTogglex), KTogglex)]
  }

  function LanToggleX(js: Js, resp: Value): Option<seq<Channel>> {
    FirstNonEmpty(ReadChannel(js), ChannelLe, ToggleCandidates(resp))
  }

  method ExtractLanToggleX(js: Js, resp: Value) returns (r: Option<seq<Channel>>)
    ensures r == LanToggleX(js, resp)
  {
    hide ChannelEntry;
    hide ToggleCandidates;
    hide StableSort;
    ghost var f := ReadChannel(js);
    var candidates := ToggleCandidates(resp);
    var i := 0;
    while i < |candidates|
      invariant 0 <= i <= |candidates|
      invariant LanToggleX(js, resp) == FirstNonEmpty(f, ChannelLe, candidates[i..])
    {
      assert candidates[i..][1..] == candidates[i + 1..];
      var c := candidates[i];
      i := i + 1;
      if !Truthy(c) {
        continue;
      }
      var arr := ItemsOrSelf(c);
      var out := [];
      for k := 0 to |arr|
        invariant out == Collect(f, arr[..k])
      {
        assert arr[..k + 1][..k] == arr[..k];
        var entry := ChannelEntry(js, Some(arr[k]));
        if entry.None? {
          continue;
        }
        out := out + [entry.value];
      }
      assert arr[..|arr|] == arr;
      if out != [] {
        return Some(StableSort(ChannelLe, out));
      }
    }
    return None;
  }

  // --------------------------------------------------------------------- lights

  function AsByte(x: Option<real>): Option<nat> {
    var n := AsNat(x);
    if n.Some? && n.value <= 255 then n else None
  }

  /** Red in the third byte, green in the second, blue in the first. */
  function Pack(r: nat, g: nat, b: nat): int {
    Or(Or(Shl(And(r, 255), 16), Shl(And(g, 255), 8)), And(b, 255))
  }

  function PackAll(r: Option<nat>, g: Option<nat>, b: Option<nat>): Option<int> {
    if r.Some? && g.Some? && b.Some? then Some(Pack(r.value, g.value, b.value)) else None
  }

  /** A colour is a number, a list of three components, or an object with them. */
  function CoerceRgb(js: Js, v: Value): Option<int> {
    var n := CoerceFiniteNumber(js, v);
    if n.Some? then Some(Round(n.value))
    else if v.Some? && v.value.Arr? && |v.value.items| >= 3 then
      PackAll(AsByte(CoerceFiniteNumber(js, Some(v.value.items[0]))),
              AsByte(CoerceFiniteNumber(js, Some(v.value.items[1]))),
              AsByte(CoerceFiniteNumber(js, Some(v.value.items[2]))))
    else
      PackAll(AsByte(CoerceFiniteNumber(js, OrElse(Field(v, KR), Field(v, KRed)))),
              AsByte(CoerceFiniteNumber(js, OrElse(Field(v, KG), Field(v, KGreen)))),
              AsByte(CoerceFiniteNumber(js, OrElse(Field(v, KB), Field(v, KBlue)))))
  }

  lemma ByteAnd(x: nat)
    requires x <= 255
    ensures And(x, 255) == x
  {
    Ipv4.AndByte(x);
    Powers();
    LowAll(x, 8);
  }

  /** The bit operations pack three components without loss, in the order red, green, blue. */
  lemma {:induction false} PackIs(r: nat, g: nat, b: nat)
    requires r <= 255 && g <= 255 && b <= 255
    ensures Pack(r, g, b) == r * 0x1_0000 + g * 0x100 + b
    ensures Pack(r, g, b) / 0x1_0000 == r && (Pack(r, g, b) / 0x100) % 0x100 == g && Pack(r, g, b) % 0x100 == b
  {
    hide And;
    hide Or;
    hide Shl;
    hide Low;
    hide Pow2;
    hide ToUint32;
    hide Pack;
    ByteAnd(r);
    ByteAnd(g);
    ByteAnd(b);
    Powers();
    Ipv4.ShlByte(r, 16, 0x1_0000, r * 0x1_0000);
    Ipv4.ShlByte(g, 8, 0x100, g * 0x100);
    Ipv4.LowOfMultiple(r * 0x1_0000, 16, r, 0x1_0000);
    Ipv4.OrUnsigned(Shl(r, 16), Shl(g, 8), 16);
    var rg := Or(Shl(r, 16), Shl(g, 8));
    WordIs(b);
    Ipv4.LowOfMultiple(ToUint32(rg), 8, r * 0x100 + g, 0x100);
    Ipv4.OrUnsigned(rg, b, 8);
    Positive(rg, b);
    PackUnfolds(r, g, b);
  }

  lemma PackUnfolds(r: nat, g: nat, b: nat)
    ensures Pack(r, g, b) == Or(Or(Shl(And(r, 255), 16), Shl(And(g, 255), 8)), And(b, 255))
  {
    hide Or;
    hide Shl;
    hide And;
  }

  lemma WordIs(x: nat)
    requires x < WORD
    ensures ToUint32(x) == x
  {
  }

  lemma Positive(x: int, y: int)
    ensures ToUint32(Or(x, y)) < 0x8000_0000 ==> Or(x, y) == ToUint32(Or(x, y))
  {
    hide OrBits;
    ToUint32OfToInt32(OrBits(ToUint32(x), ToUint32(y)));
  }

  function ReadLightEntry(js: Js): Value -> Option<Light> { item => LightEntry(js, item) }

  function LightEntry(js: Js, item: Value): Option<Light> {
    match ChannelOf(js, item)
    case None => None
    case Some(c) =>
      var rgb := CoerceRgb(js, Field(item, KRgb));
      Some(Light(
             c,
             OnOff(js, OrElse(Field(item, KOnoff), Field(item, KState))),
             CoerceFiniteNumber(js, OrElse(Field(item, KLuminance),
                                           OrElse(Field(item, KBrightness), OrElse(Field(item, KLuma), Field(item, KLum))))),
             CoerceFiniteNumber(js, OrElse(Field(item, KTemperature),
                                           OrElse(Field(item, KTemp), OrElse(Field(item, KColorTemp), Field(item, KColortemp))))),
             if rgb.Some? then Some(rgb.value as real) else None))
  }

  function LightCandidates(resp: Value): seq<Value> {
    var d := DigestOf(resp);
    [Field(d, KLight), Field(Field(d, KLight), KLight), Field(d, KLamp), Field(Field(d, KLamp), KLamp)]
  }

  function LanLight(js: Js, resp: Value): Option<seq<Light>> {
    FirstNonEmpty(ReadLightEntry(js), LightLe, LightCandidates(resp))
  }

  method ExtractLanLight(js: Js, resp: Value) returns (r: Option<seq<Light>>)
    ensures r == LanLight(js, resp)
  {
    hide LightEntry;
    hide LightCandidates;
    hide StableSort;
    ghost var f := ReadLightEntry(js);
    var candidates := LightCandidates(resp);
    var i := 0;
    while i < |candidates|
      invariant 0 <= i <= |candidates|
      invariant LanLight(js, resp) == FirstNonEmpty(f, LightLe, candidates[i..])
    {
      assert candidates[i..][1..] == candidates[i + 1..];
      var c := candidates[i];
      i := i + 1;
      if !Truthy(c) {
        continue;
      }
      var arr := ItemsOrSelf(c);
      var out := [];
      for k := 0 to |arr|
        invariant out == Collect(f, arr[..k])
      {
        assert arr[..k + 1][..k] == arr[..k];
        var entry := LightEntry(js, Some(arr[k]));
        if entry.None? {
          continue;
        }
        out := out + [entry.value];
      }
      assert arr[..|arr|] == arr;
      if out != [] {
        return Some(StableSort(LightLe, out));
      }
    }
    return None;
  }

  // ----------------------------------------------------------- schedule digests

  function ReadDigestItem(js: Js): Value -> Option<DigestEntry> { item => DigestItem(js, item) }

  function DigestItem(js: Js, item: Value): Option<DigestEntry> {
    var channel := ChannelOf(js, item);
    var id := Trim(TextOf(js, Field(item, KId)));
    if channel.None? || id == "" then None
    else Some(DigestEntry(channel.value, id, CountOf(CoerceFiniteNumber(js, Field(item, KCount)))))
  }

  /** The loop over the candidates of `extractLanScheduleDigest`: the first truthy one, whatever it yields. */
  function FirstTruthy(js: Js, candidates: seq<Value>): seq<DigestEntry> {
    if candidates == [] then []
    else if Truthy(candidates[0]) then
      StableSort(DigestLe(js), Collect(ReadDigestItem(js), ItemsOrSelf(candidates[0])))
    else FirstTruthy(js, candidates[1..])
  }

  function ScheduleCandidates(resp: Value, kind: Key): seq<Value> {
    [Field(DigestOf(resp), kind), Field(Field(DigestOf(resp), kind), kind)]
  }

  function LanScheduleDigest(js: Js, resp: Value, kind: Key): seq<DigestEntry> {
    FirstTruthy(js, ScheduleCandidates(resp, kind))
  }

  method ExtractLanScheduleDigest(js: Js, resp: Value, kind: Key) returns (r: seq<DigestEntry>)
    ensures r == LanScheduleDigest(js, resp, kind)
  {
    hide DigestItem;
    hide ScheduleCandidates;
    hide StableSort;
    ghost var f := ReadDigestItem(js);
    var candidates := ScheduleCandidates(resp, kind);
    var i := 0;
    while i < |candidates|
      invariant 0 <= i <= |candidates|
      invariant LanScheduleDigest(js, resp, kind) == FirstTruthy(js, candidates[i..])
    {
      assert candidates[i..][1..] == candidates[i + 1..];
      var c := candidates[i];
      i := i + 1;
      if !Truthy(c) {
        continue;
      }
      var arr := ItemsOrSelf(c);
      var out := [];
      for k := 0 to |arr|
        invariant out == Collect(f, arr[..k])
      {
        assert arr[..k + 1][..k] == arr[..k];
        var entry := DigestItem(js, Some(arr[k]));
        if entry.None? {
          continue;
        }
        out := out + [entry.value];
      }
      assert arr[..|arr|] == arr;
      return StableSort(DigestLe(js), out);
    }
    return [];
  }

  /** The nested candidate is never reached: a response whose digest holds a nested object yields nothing from it,
      because the object itself is truthy; so the result depends on the outer value alone. */
  lemma NestedDigestUnreachable(js: Js, resp: Value, kind: Key)
    ensures LanScheduleDigest(js, resp, kind) == FirstTruthy(js, [Field(DigestOf(resp), kind)])
    ensures var direct := Field(DigestOf(resp), kind);
      direct.Some? && direct.value.Obj? && DigestItem(js, direct).None? ==> LanScheduleDigest(js, resp, kind) == []
  {
    var direct := Field(DigestOf(resp), kind);
    var cs := ScheduleCandidates(resp, kind);
    assert cs[1..] == [Field(direct, kind)];
    assert cs[1..][1..] == [];
    assert [direct][1..] == [];
    assert !Truthy(direct) ==> !Truthy(Field(direct, kind));
    assert FirstTruthy(js, cs) == FirstTruthy(js, [direct]);
    if direct.Some? && direct.value.Obj? {
      CollectOne(ReadDigestItem(js), direct.value);
      assert ReadDigestItem(js)(Some(direct.value)) == DigestItem(js, direct);
      assert StableSort(DigestLe(js), []) == [];
      if DigestItem(js, direct).None? {
        assert Collect(ReadDigestItem(js), [direct.value]) == [];
        assert ItemsOrSelf(direct) == [direct.value];
        assert FirstTruthy(js, [direct]) == [];
      }
    }
  }

  lemma CollectOne<T>(f: Value -> Option<T>, v: Json)
    ensures Collect(f, [v]) == match f(Some(v)) case None => [] case Some(x) => [x]
  {
    assert [v][..0] == [];
  }

  /** For toggles the nested candidate does work: it is used when the outer values yield no entry. */
  lemma NestedToggleReached(js: Js, resp: Value)
    requires var d := DigestOf(resp);
      var f := ReadChannel(js);
      && Collect(f, ItemsOrSelf(Field(d, KTogglex))) == []
      && Collect(f, ItemsOrSelf(Field(d, KToggleX))) == [] && Collect(f, ItemsOrSelf(Field(d, KToggle))) == []
      && Truthy(Field(Field(d, KTogglex), KTogglex))
      && Collect(f, ItemsOrSelf(Field(Field(d, KTogglex), KTogglex))) != []
    ensures LanToggleX(js, resp)
         == Some(StableSort(ChannelLe, Collect(ReadChannel(js), ItemsOrSelf(Field(Field(DigestOf(resp), KTogglex), KTogglex)))))
  {
    var f := ReadChannel(js);
    var cs := ToggleCandidates(resp);
    assert cs[1..][0] == cs[1] && cs[1..][1..] == cs[2..] && cs[2..][0] == cs[2] && cs[2..][1..] == cs[3..] && cs[3..][0] == cs[3];
    assert FirstNonEmpty(f, ChannelLe, cs[3..]).Some?;
    assert FirstNonEmpty(f, ChannelLe, cs[2..]) == FirstNonEmpty(f, ChannelLe, cs[3..]);
    assert FirstNonEmpty(f, ChannelLe, cs[1..]) == FirstNonEmpty(f, ChannelLe, cs[2..]);
    assert FirstNonEmpty(f, ChannelLe, cs) == FirstNonEmpty(f, ChannelLe, cs[1..]);
  }

  // ----------------------------------------------------------------- normal form

  lemma TogglesNormal(js: Js, resp: Value)
    ensures LanToggleX(js, resp).Some? ==> LanToggleX(js, resp).value != [] && Sorted(ChannelLe, LanToggleX(js, resp).value)
  {
    FirstNonEmptySorted(ReadChannel(js), ChannelLe, ToggleCandidates(resp));
  }

  lemma LightsNormal(js: Js, resp: Value)
    ensures LanLight(js, resp).Some? ==> LanLight(js, resp).value != [] && Sorted(LightLe, LanLight(js, resp).value)
  {
    FirstNonEmptySorted(ReadLightEntry(js), LightLe, LightCandidates(resp));
  }

  lemma SchedulesNormal(js: Js, resp: Value, kind: Key)
    requires Collates(js)
    ensures DigestNormal(js, LanScheduleDigest(js, resp, kind))
  {
    hide LanScheduleDigest;
    hide DigestNormal;
    hide TotalPreorder;
    NestedDigestUnreachable(js, resp, kind);
    OneCandidate(js, Field(DigestOf(resp), kind));
    ItemsNormal(js, ItemsOrSelf(Field(DigestOf(resp), kind)));
    NoneNormal(js);
  }

  lemma OneCandidate(js: Js, c: Value)
    ensures FirstTruthy(js, [c])
         == if Truthy(c) then StableSort(DigestLe(js), Collect(ReadDigestItem(js), ItemsOrSelf(c))) else []
  {
    hide Truthy;
    hide StableSort;
    assert [c][1..] == [];
  }

  lemma NoneNormal(js: Js)
    ensures DigestNormal(js, [])
  {
  }

  /** The list read out of any candidate is in normal form. */
  lemma ItemsNormal(js: Js, items: seq<Json>)
    requires Collates(js)
    ensures DigestNormal(js, StableSort(DigestLe(js), Collect(ReadDigestItem(js), items)))
  {
    hide StableSort;
    hide Sorted;
    var out := Collect(ReadDigestItem(js), items);
    DigestLePreorder(js);
    StableSortSorts(DigestLe(js), out);
    StableSortMembers(DigestLe(js), out);
    forall v | ReadDigestItem(js)(v).Some?
      ensures Trimmed(ReadDigestItem(js)(v).value.id)
    {
      ItemTrimmed(js, v);
    }
    CollectAll(ReadDigestItem(js), (d: DigestEntry) => Trimmed(d.id), items);
    hide Trimmed;
    hide TotalPreorder;
  }

  lemma ItemTrimmed(js: Js, v: Value)
    ensures DigestItem(js, v).Some? ==> Trimmed(DigestItem(js, v).value.id)
  {
    TrimIdempotent(TextOf(js, Field(v, KId)));
    hide Trim;
    hide TextOf;
    hide ChannelOf;
    hide CoerceFiniteNumber;
    hide CountOf;
  }
}
