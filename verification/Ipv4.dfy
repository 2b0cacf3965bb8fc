/** IPv4 addresses, netmasks and CIDR ranges, computed with signed 32-bit operators. */
module Ipv4 {
  import opened Prelude
  import opened Int32
  import opened Text

  // ------------------------------------------------------------------- addresses

  predicate IsByte(p: Option<int>) { p.Some? && 0 <= p.value <= 255 }

  function Join(a: int, b: int, c: int, d: int): nat {
    Shr(Or(Or(Or(Shl(a, 24), Shl(b, 16)), Shl(c, 8)), d), 0)
  }

  /** `None` stands for the error "Invalid IPv4". */
  function IpToInt(ip: string): (r: Option<nat>)
    ensures r.Some? ==> r.value < WORD
  {
    var parts := Split(ip, '.');
    if |parts| != 4 then None
    else
      var a, b, c, d := ParseInt10(parts[0]), ParseInt10(parts[1]), ParseInt10(parts[2]), ParseInt10(parts[3]);
      if IsByte(a) && IsByte(b) && IsByte(c) && IsByte(d) then Some(Join(a.value, b.value, c.value, d.value))
      else None
  }

  lemma AndByte(x: nat)
    requires x < WORD
    ensures And(x, 255) == Low(x, 8)
  {
    hide AndBits;
    hide Low;
    LowByte(x);
    AndIs(x, 255, Low(x, 8));
  }

  lemma LowByte(x: nat)
    ensures AndBits(x, 255) == Low(x, 8) < 256
  {
    AndLowMask(x, 8);
    Powers();
  }

  /** `&` and `|` on numbers that are already 32-bit words. */
  lemma AndIs(a: nat, b: nat, r: nat)
    requires a < WORD && b < WORD && AndBits(a, b) == r && r < WORD
    ensures And(a, b) == ToInt32(r) && ToUint32(And(a, b)) == r
    ensures r < 0x8000_0000 ==> And(a, b) == r
  {
    hide AndBits;
    ToUint32OfToInt32(r);
  }

  lemma OrIs(x: int, y: int, r: nat)
    requires OrBits(ToUint32(x), ToUint32(y)) == r && r < WORD
    ensures Or(x, y) == ToInt32(r) && ToUint32(Or(x, y)) == r
  {
    hide OrBits;
    ToUint32OfToInt32(r);
  }

  function Octet(n: int, shift: nat): (r: nat)
    requires shift < 32
    ensures r < 256
  {
    AndByte(Shr(n, shift));
    LowByte(Shr(n, shift));
    And(Shr(n, shift), 255)
  }

  function Dotted(a: nat, b: nat, c: nat, d: nat): string {
    Decimal(a) + "." + (Decimal(b) + "." + (Decimal(c) + "." + Decimal(d)))
  }

  function IntToIp(n: int): string {
    Dotted(Octet(n, 24), Octet(n, 16), Octet(n, 8), Octet(n, 0))
  }

  lemma OctetIs(n: nat, shift: nat)
    requires shift < 32 && n < WORD
    ensures Octet(n, shift) == Low(High(n, shift), 8)
  {
    hide And;
    hide Low;
    hide High;
    AndByte(Shr(n, shift));
  }

  lemma OrUnsigned(x: int, y: int, k: nat)
    requires Low(ToUint32(x), k) == 0 && ToUint32(y) < Pow2(k)
    requires ToUint32(x) + ToUint32(y) < WORD
    ensures ToUint32(Or(x, y)) == ToUint32(x) + ToUint32(y)
  {
    hide OrBits;
    hide Low;
    OrDisjoint(ToUint32(x), k, ToUint32(y));
    OrIs(x, y, ToUint32(x) + ToUint32(y));
  }

  lemma ShlByte(a: nat, k: nat, m: nat, product: nat)
    requires a < 256 && k <= 24 && m == Pow2(k) && product == a * m < WORD
    ensures ToUint32(Shl(a, k)) == product
  {
    AppendPow(a, k);
    AppendedWord(a, k, product);
  }

  lemma AppendedWord(a: nat, k: nat, product: nat)
    requires a < 256 && k <= 24 && product == Append(a, k) < WORD
    ensures ToUint32(Shl(a, k)) == product
  {
    hide Append;
    ToUint32OfToInt32(product);
  }

  lemma LowOfMultiple(x: nat, k: nat, q: nat, m: nat)
    requires m == Pow2(k) && x == q * m
    ensures Low(x, k) == 0
  {
    HighLowDivMod(x, k, m);
    DivModUnique(x, m, q, 0);
  }

  lemma JoinIs(a: nat, b: nat, c: nat, d: nat)
    requires a < 256 && b < 256 && c < 256 && d < 256
    ensures Join(a, b, c, d) == a * 0x100_0000 + b * 0x1_0000 + c * 0x100 + d
  {
    Powers();
    hide Pow2;
    hide Or;
    hide Shl;
    hide Low;
    ShlByte(a, 24, 0x100_0000, a * 0x100_0000);
    ShlByte(b, 16, 0x1_0000, b * 0x1_0000);
    ShlByte(c, 8, 0x100, c * 0x100);
    var ab := Or(Shl(a, 24), Shl(b, 16));
    LowOfMultiple(a * 0x100_0000, 24, a, 0x100_0000);
    OrUnsigned(Shl(a, 24), Shl(b, 16), 24);
    LowOfMultiple(ToUint32(ab), 16, a * 0x100 + b, 0x1_0000);
    OrUnsigned(ab, Shl(c, 8), 16);
    var abc := Or(ab, Shl(c, 8));
    LowOfMultiple(ToUint32(abc), 8, a * 0x1_0000 + b * 0x100 + c, 0x100);
    OrUnsigned(abc, d, 8);
  }

  lemma OctetsOf(n: nat)
    requires n < WORD
    ensures n == Octet(n, 24) * 0x100_0000 + Octet(n, 16) * 0x1_0000 + Octet(n, 8) * 0x100 + Octet(n, 0)
  {
    Powers();
    hide Octet;
    hide Low;
    hide Pow2;
    OctetIs(n, 24);
    OctetIs(n, 16);
    OctetIs(n, 8);
    OctetIs(n, 0);
    HighLowDivMod(n, 24, 0x100_0000);
    HighLowDivMod(n, 16, 0x1_0000);
    HighLowDivMod(n, 8, 0x100);
    HighLowDivMod(High(n, 24), 8, 0x100);
    HighLowDivMod(High(n, 16), 8, 0x100);
    HighLowDivMod(High(n, 8), 8, 0x100);
    HighLowDivMod(High(n, 0), 8, 0x100);
    Base256(n);
  }

  lemma Base256(n: nat)
    requires n < WORD
    ensures n == (n / 0x100_0000) % 0x100 * 0x100_0000 + (n / 0x1_0000) % 0x100 * 0x1_0000 + (n / 0x100) % 0x100 * 0x100 + n % 0x100
  {
    assert n / 0x1_0000 == (n / 0x100) / 0x100 && n / 0x100_0000 == (n / 0x1_0000) / 0x100;
  }

  lemma SplitDotted(a: nat, b: nat, c: nat, d: nat)
    ensures Split(Dotted(a, b, c, d), '.') == [Decimal(a), Decimal(b), Decimal(c), Decimal(d)]
  {
    SplitPiece(Decimal(d), '.');
    SplitAt(Decimal(c), '.', Decimal(d));
    SplitAt(Decimal(b), '.', Decimal(c) + "." + Decimal(d));
    SplitAt(Decimal(a), '.', Decimal(b) + "." + (Decimal(c) + "." + Decimal(d)));
  }

  lemma DottedReads(a: nat, b: nat, c: nat, d: nat)
    requires a < 256 && b < 256 && c < 256 && d < 256
    ensures IpToInt(Dotted(a, b, c, d)) == Some(Join(a, b, c, d))
  {
    hide Split;
    hide Dotted;
    hide ParseInt10;
    hide Join;
    SplitDotted(a, b, c, d);
    ParseDecimal(a);
    ParseDecimal(b);
    ParseDecimal(c);
    ParseDecimal(d);
  }

  lemma SameOctets(n: int)
    ensures IntToIp(n) == IntToIp(ToUint32(n))
  {
    hide And;
    hide High;
    hide Dotted;
    assert ToUint32(ToUint32(n)) == ToUint32(n);
  }

  /** Round trip: the dotted text of any integer reads back as its 32-bit value. */
  lemma {:induction false} IpRoundTrip(n: int)
    ensures IpToInt(IntToIp(n)) == Some(ToUint32(n))
  {
    hide Octet;
    hide Join;
    hide Dotted;
    hide IpToInt;
    hide ToUint32;
    var u := ToUint32(n);
    SameOctets(n);
    var a, b, c, d := Octet(u, 24), Octet(u, 16), Octet(u, 8), Octet(u, 0);
    DottedReads(a, b, c, d);
    JoinIs(a, b, c, d);
    OctetsOf(u);
  }

  // ----------------------------------------------------------------------- CIDR

  datatype Cidr = Cidr(network: int, broadcast: int, prefix: nat)

  /** The number of addresses in a block. */
  function BlockSize(prefix: nat): (r: nat)
    requires prefix <= 32
    ensures r >= 1
  {
    Pow2(32 - prefix)
  }

  /** The first address of the block around `base`, as an unsigned number: the host bits cleared. */
  function BlockStart(base: nat, prefix: nat): (r: nat)
    requires prefix <= 32
    ensures r <= base
  {
    base - Low(base, 32 - prefix)
  }

  function MaskOf(prefix: nat): nat
    requires prefix <= 32
  {
    if prefix == 0 then 0 else Shr(Shl(0xffff_ffff, 32 - prefix), 0)
  }

  lemma MaskIs(prefix: nat)
    requires prefix <= 32
    ensures BlockSize(prefix) <= WORD
    ensures MaskOf(prefix) == WORD - BlockSize(prefix)
  {
    Powers();
    Pow2Monotone(32 - prefix, 32);
    if prefix > 0 {
      var size: int := Pow2(32 - prefix);
      AppendMinusOne(32 - prefix);
      ToUint32OfToInt32(-size);
      DivModUnique(-size, WORD, -1, WORD - size);
    }
  }

  function BroadcastOf(network: int, mask: nat): int { Or(network, Shr(Not(mask), 0)) }

  /** `None` stands for the errors "Invalid CIDR" and "Invalid IPv4". */
  function ParseCidr(cidr: string): (r: Option<Cidr>)
    ensures r.Some? ==> r.value.prefix <= 32 && IpToInt(Split(cidr, '/')[0]).Some?
  {
    var parts := Split(cidr, '/');
    var prefix := ParseInt10(if |parts| > 1 then parts[1] else "");
    if parts[0] == "" || prefix.None? || prefix.value < 0 || prefix.value > 32 then None
    else
      var base := IpToInt(parts[0]);
      if base.None? then None
      else
        var mask := MaskOf(prefix.value);
        var network := And(base.value, mask);
        Some(Cidr(network, BroadcastOf(network, mask), prefix.value))
  }

  /** The number of the address in front of the slash; 0 if it is none. */
  function BaseOf(cidr: string): (r: nat)
    ensures r < WORD
  {
    var ip := IpToInt(Split(cidr, '/')[0]);
    if ip.Some? then ip.value else 0
  }

  /** A block starts at a multiple of its size; it ends inside the word, and, for every prefix but 0, inside the
      half of the word it starts in. */
  lemma BlockFits(base: nat, w: nat, k: nat)
    requires k <= w && base < Pow2(w)
    ensures Low(base - Low(base, k), k) == 0
    ensures base - Low(base, k) + Pow2(k) <= Pow2(w)
    ensures k < w && base - Low(base, k) < Pow2(w - 1) ==> base - Low(base, k) + Pow2(k) <= Pow2(w - 1)
  {
    hide *;
    var h := High(base, k);
    HighLow(base, k);
    HighLowOfAppend(h, k, 0);
    AppendFits(h, k, w);
    if k < w && Append(h, k) < Pow2(w - 1) {
      AppendFits(h, k, w - 1);
    }
  }

  lemma {:induction false} AppendFits(h: nat, k: nat, w: nat)
    requires k <= w && Append(h, k) < Pow2(w)
    ensures Append(h, k) + Pow2(k) <= Pow2(w)
  {
    if k > 0 {
      AppendFits(h, k - 1, w - 1);
    }
  }

  /** The network address, whatever its sign, has the prefix bits of the base and no others. */
  lemma NetworkIs(base: nat, prefix: nat)
    requires base < WORD && prefix <= 32
    ensures And(base, MaskOf(prefix)) == ToInt32(BlockStart(base, prefix))
    ensures ToUint32(And(base, MaskOf(prefix))) == BlockStart(base, prefix)
  {
    hide MaskOf;
    hide AndBits;
    hide Low;
    MaskIs(prefix);
    Powers();
    AndHighMask(32, base, 32 - prefix, MaskOf(prefix));
    AndIs(base, MaskOf(prefix), BlockStart(base, prefix));
  }

  lemma ComplementIs(mask: nat)
    requires mask < WORD
    ensures Shr(Not(mask), 0) == WORD - 1 - mask
  {
    assert ToUint32(Not(mask)) == WORD - 1 - mask;
  }

  lemma BroadcastIs(base: nat, prefix: nat)
    requires base < WORD && prefix <= 32
    ensures BroadcastOf(And(base, MaskOf(prefix)), MaskOf(prefix)) == ToInt32(BlockStart(base, prefix) + BlockSize(prefix) - 1)
  {
    hide Or;
    hide Pow2;
    hide ToInt32;
    hide And;
    hide MaskOf;
    hide OrBits;
    hide Low;
    hide Shr;
    hide Not;
    MaskIs(prefix);
    ComplementIs(MaskOf(prefix));
    NetworkIs(base, prefix);
    Powers();
    BlockFits(base, 32, 32 - prefix);
    OrDisjoint(BlockStart(base, prefix), 32 - prefix, BlockSize(prefix) - 1);
    OrIs(And(base, MaskOf(prefix)), BlockSize(prefix) - 1, BlockStart(base, prefix) + BlockSize(prefix) - 1);
  }

  /** For every prefix but 0 the two bounds differ, as signed numbers, by the size of the block; for prefix 0 the
      broadcast address comes out as -1, below the network. */
  lemma {:induction false} SignedBounds(cidr: string)
    ensures ParseCidr(cidr).Some? ==>
      var c := ParseCidr(cidr).value; var start := BlockStart(BaseOf(cidr), c.prefix);
      && start + BlockSize(c.prefix) <= WORD
      && ToUint32(c.network) == start
      && ToUint32(c.broadcast) == start + BlockSize(c.prefix) - 1
      && (c.prefix == 0 ==> c.network == 0 && c.broadcast == -1)
      && (c.prefix >= 1 ==> c.broadcast == c.network + BlockSize(c.prefix) - 1)
  {
    hide IpToInt;
    hide Split;
    hide ParseInt10;
    hide And;
    hide MaskOf;
    hide BroadcastOf;
    if ParseCidr(cidr).Some? {
      var base, p := BaseOf(cidr), ParseCidr(cidr).value.prefix;
      NetworkIs(base, p);
      BroadcastIs(base, p);
      SignedBlock(base, p);
    }
  }

  lemma SignedBlock(base: nat, p: nat)
    requires base < WORD && p <= 32
    ensures var start, last := BlockStart(base, p), BlockStart(base, p) + BlockSize(p) - 1;
      && last < WORD
      && ToUint32(ToInt32(last)) == last
      && (p == 0 ==> ToInt32(start) == 0 && ToInt32(last) == -1)
      && (p >= 1 ==> ToInt32(last) == ToInt32(start) + BlockSize(p) - 1)
  {
    Powers();
    hide Low;
    hide Pow2;
    BlockFits(base, 32, 32 - p);
    ToUint32OfToInt32(BlockStart(base, p) + BlockSize(p) - 1);
    if p == 0 {
      LowAll(base, 32);
    }
  }

  /** The texts of the integers strictly between two bounds. */
  function IpsBetween(low: int, high: int): seq<string>
    decreases high - low
  {
    if low + 1 >= high then [] else [IntToIp(Shr(low + 1, 0))] + IpsBetween(low + 1, high)
  }

  function HostsInCidr(cidr: string): Option<seq<string>> {
    match ParseCidr(cidr)
    case None => None
    case Some(c) => Some(if c.prefix >= 31 then [] else IpsBetween(c.network, c.broadcast))
  }

  lemma {:induction false} IpsBetweenSnoc(low: int, high: int)
    requires low < high
    ensures IpsBetween(low, high + 1) == IpsBetween(low, high) + [IntToIp(Shr(high, 0))]
    decreases high - low
  {
    if low + 1 < high {
      IpsBetweenSnoc(low + 1, high);
    } else {
      assert IpsBetween(low + 1, high + 1) == [];
    }
  }

  method ListHostsInCidr(cidr: string) returns (r: Option<seq<string>>)
    ensures r == HostsInCidr(cidr)
  {
    hide ParseCidr;
    hide IntToIp;
    hide Shr;
    hide IpsBetween;
    var parsed := ParseCidr(cidr);
    if parsed.None? {
      return None;
    }
    var Cidr(network, broadcast, prefix) := parsed.value;
    if prefix >= 31 {
      return Some([]);
    }
    var out := [];
    var n := network + 1;
    NoneBetween(network, n);
    if broadcast < n {
      NoneBetween(network, broadcast);
    }
    while n < broadcast
      invariant network + 1 <= n
      invariant n <= broadcast || (n == network + 1 && out == [])
      invariant out == IpsBetween(network, n)
      decreases broadcast - n
    {
      IpsBetweenSnoc(network, n);
      out := out + [IntToIp(Shr(n, 0))];
      n := n + 1;
    }
    return Some(out);
  }

  function IpsFrom(start: nat, count: nat): (r: seq<string>)
    decreases count
    ensures |r| == count
  {
    if count == 0 then [] else [IntToIp(start)] + IpsFrom(start + 1, count - 1)
  }

  lemma {:induction false} IpsFromAt(start: nat, count: nat, i: nat)
    requires i < count
    ensures IpsFrom(start, count)[i] == IntToIp(start + i)
    decreases count
  {
    hide IntToIp;
    if i > 0 {
      IpsFromAt(start + 1, count - 1, i - 1);
    }
  }

  lemma NextUnsigned(n: int)
    requires ToUint32(n) + 1 < WORD
    ensures ToUint32(n + 1) == ToUint32(n) + 1 && Shr(n + 1, 0) == ToUint32(n) + 1
  {
  }

  lemma {:induction false} IpsBetweenAre(low: int, high: int, start: nat)
    requires ToUint32(low) == start && low < high && start + (high - low) <= WORD
    ensures IpsBetween(low, high) == IpsFrom(start + 1, high - low - 1)
    decreases high - low
  {
    hide IntToIp;
    hide Shr;
    if low + 1 < high {
      NextUnsigned(low);
      IpsBetweenAre(low + 1, high, start + 1);
    }
  }

  /** The addresses strictly inside the block. */
  function InnerAddresses(base: nat, prefix: nat): seq<string>
    requires prefix <= 32
  {
    if BlockSize(prefix) < 2 then [] else IpsFrom(BlockStart(base, prefix) + 1, BlockSize(prefix) - 2)
  }

  /** The enumeration is exact: for prefixes 1 to 30 the hosts are the addresses after the network address and
      before the broadcast address, in ascending unsigned order; for 0, 31 and 32 there are none. */
  lemma {:induction false} EnumerationExact(cidr: string)
    ensures ParseCidr(cidr).Some? ==>
      var p := ParseCidr(cidr).value.prefix;
      && HostsInCidr(cidr) == Some(if 1 <= p <= 30 then InnerAddresses(BaseOf(cidr), p) else [])
      && (1 <= p <= 30 ==> BlockSize(p) >= 4)
  {
    hide ParseCidr;
    hide BaseOf;
    hide IpsBetween;
    hide InnerAddresses;
    hide ToUint32;
    SignedBounds(cidr);
    if ParseCidr(cidr).Some? {
      var c := ParseCidr(cidr).value;
      if 1 <= c.prefix <= 30 {
        HostsOfBounds(c, BaseOf(cidr));
      } else if c.prefix == 0 {
        NoneBetween(c.network, c.broadcast);
      }
    }
  }

  lemma NoneBetween(low: int, high: int)
    requires low + 1 >= high
    ensures IpsBetween(low, high) == []
  {
  }

  lemma AtLeastFour(prefix: nat)
    requires prefix <= 30
    ensures BlockSize(prefix) >= 4
  {
    Powers();
    Pow2Monotone(2, 32 - prefix);
  }

  lemma InnerAre(base: nat, prefix: nat)
    requires prefix <= 32 && BlockSize(prefix) >= 2
    ensures InnerAddresses(base, prefix) == IpsFrom(BlockStart(base, prefix) + 1, BlockSize(prefix) - 2)
  {
  }

  lemma HostsOfBounds(c: Cidr, base: nat)
    requires c.prefix <= 30
    requires ToUint32(c.network) == BlockStart(base, c.prefix) && BlockStart(base, c.prefix) + BlockSize(c.prefix) <= WORD
    requires c.broadcast == c.network + BlockSize(c.prefix) - 1
    ensures BlockSize(c.prefix) >= 4
    ensures IpsBetween(c.network, c.broadcast) == InnerAddresses(base, c.prefix)
  {
    hide *;
    AtLeastFour(c.prefix);
    InnerAre(base, c.prefix);
    IpsBetweenAre(c.network, c.broadcast, BlockStart(base, c.prefix));
  }

  lemma IpsFromMember(start: nat, count: nat, n: nat)
    requires n < WORD && start + count <= WORD
    ensures IntToIp(n) in IpsFrom(start, count) <==> start <= n < start + count
    ensures NoDup(IpsFrom(start, count))
  {
    hide IpToInt;
    hide IntToIp;
    hide IpsFrom;
    var ips := IpsFrom(start, count);
    forall i | 0 <= i < count
      ensures IpToInt(ips[i]) == Some(start + i)
    {
      IpsFromAt(start, count, i);
      IpRoundTrip(start + i);
    }
    IpRoundTrip(n);
    if start <= n < start + count {
      IpsFromAt(start, count, n - start);
      assert ips[n - start] == IntToIp(n);
    }
  }

  /** An address text is listed exactly when its number lies strictly inside the block; none is listed twice;
      every listed number has the prefix bits of the base. */
  lemma {:induction false} EnumerationMembers(cidr: string, n: nat)
    requires n < WORD
    ensures ParseCidr(cidr).Some? && 1 <= ParseCidr(cidr).value.prefix <= 30 ==>
      var p := ParseCidr(cidr).value.prefix; var start := BlockStart(BaseOf(cidr), p);
      && HostsInCidr(cidr).Some?
      && NoDup(HostsInCidr(cidr).value)
      && (IntToIp(n) in HostsInCidr(cidr).value <==> start < n < start + BlockSize(p) - 1)
      && (IntToIp(n) in HostsInCidr(cidr).value ==> High(n, 32 - p) == High(BaseOf(cidr), 32 - p))
  {
    hide *;
    EnumerationExact(cidr);
    SignedBounds(cidr);
    if ParseCidr(cidr).Some? && 1 <= ParseCidr(cidr).value.prefix <= 30 {
      InnerMembers(BaseOf(cidr), ParseCidr(cidr).value.prefix, n);
    }
  }

  lemma InnerMembers(base: nat, p: nat, n: nat)
    requires p <= 32 && BlockSize(p) >= 2 && BlockStart(base, p) + BlockSize(p) <= WORD && n < WORD
    ensures NoDup(InnerAddresses(base, p))
    ensures IntToIp(n) in InnerAddresses(base, p) <==> BlockStart(base, p) < n < BlockStart(base, p) + BlockSize(p) - 1
    ensures IntToIp(n) in InnerAddresses(base, p) ==> High(n, 32 - p) == High(base, 32 - p)
  {
    hide NoDup;
    hide IntToIp;
    hide IpsFrom;
    hide Low;
    hide High;
    hide Pow2;
    var start := BlockStart(base, p);
    IpsFromMember(start + 1, BlockSize(p) - 2, n);
    if start < n < start + BlockSize(p) - 1 {
      SamePrefix(base, p, n);
    }
  }

  lemma SamePrefix(base: nat, p: nat, n: nat)
    requires p <= 32 && BlockStart(base, p) <= n < BlockStart(base, p) + BlockSize(p)
    ensures High(n, 32 - p) == High(base, 32 - p)
  {
    hide Low;
    hide High;
    HighLow(base, 32 - p);
    HighLowOfAppend(High(base, 32 - p), 32 - p, n - BlockStart(base, p));
  }

  // ------------------------------------------------------------------- netmasks

  /** A 32-bit mask cut down to its leading `m` bits. */
  lemma {:induction false} TopBits(p: nat, w: nat, k: nat, mask: nat)
    requires p <= w && k <= w && mask == Pow2(w) - Pow2(w - p)
    ensures Pow2(w - k) >= 1
    ensures High(mask, k) == if w - p <= k then Pow2(w - k) - 1 else Pow2(w - k) - Pow2(w - k - p)
  {
    if k > 0 {
      if p == w {
        assert Pow2(w) == 2 * Pow2(w - 1);
        assert mask / 2 == Pow2(w - 1) - 1;
        TopBits(p - 1, w - 1, k - 1, mask / 2);
      } else {
        assert Pow2(w) == 2 * Pow2(w - 1) && Pow2(w - p) == 2 * Pow2(w - 1 - p);
        TopBits(p, w - 1, k - 1, mask / 2);
      }
    }
  }

  lemma {:induction false} NextHigh(n: nat, i: nat)
    ensures High(n, i) == 2 * High(n, i + 1) + Low(High(n, i), 1)
  {
    if i == 0 {
      assert Low(n, 1) == n % 2 + 2 * Low(n / 2, 0);
      assert High(n, 1) == High(n / 2, 0) == n / 2;
    } else {
      NextHigh(n / 2, i - 1);
    }
  }

  lemma LowBit(x: nat)
    ensures AndBits(x, 1) == Low(x, 1) <= 1
  {
    Powers();
    AndLowMask(x, 1);
  }

  lemma NextBit(n: nat, i: nat)
    requires n < WORD && i < 32
    ensures And(Shr(n, i), 1) == Low(High(n, i), 1)
    ensures And(Shr(n, i), 1) == 0 || And(Shr(n, i), 1) == 1
    ensures High(n, i) == 2 * High(n, i + 1) + And(Shr(n, i), 1)
  {
    hide High;
    hide AndBits;
    NextHigh(n, i);
    LowBit(High(n, i));
    AndIs(High(n, i), 1, Low(High(n, i), 1));
  }

  /** A one bit after a zero bit: no mask looks like that. */
  lemma NotAMask(n: nat, i: nat, bits: nat, p: nat)
    requires n < WORD && i < 32 && bits < 31 - i && p <= 32
    requires High(n, i + 1) == Pow2(31 - i) - Pow2(31 - i - bits)
    requires High(n, i) == 2 * High(n, i + 1) + 1
    ensures n != WORD - Pow2(32 - p)
  {
    hide *;
    Powers();
    Pow2Monotone(32 - p, 32);
    var mask := WORD - Pow2(32 - p);
    TopBits(p, 32, i + 1, mask);
    TopBits(p, 32, i, mask);
    Pow2Double(31 - i - bits);
    Pow2Double(31 - i);
    if p < 31 - i {
      Pow2Double(32 - i);
      Pow2Double(32 - i - p);
    }
  }

  lemma AllHigh(n: nat)
    requires n < WORD
    ensures High(n, 32) == 0 && High(n, 0) == n
  {
    Powers();
    LowAll(n, 32);
  }

  /** `None` stands for an invalid address or a non-contiguous mask: exactly the contiguous masks are accepted,
      with the prefix whose shift formula gives the mask back. */
  method NetmaskToPrefix(mask: string) returns (r: Option<nat>)
    ensures r.Some? ==> r.value <= 32 && IpToInt(mask) == Some(MaskOf(r.value))
    ensures r.None? ==> forall p: nat :: p <= 32 ==> IpToInt(mask) != Some(MaskOf(p))
  {
    hide IpToInt;
    hide MaskOf;
    hide And;
    hide Shr;
    hide High;
    forall p: nat | p <= 32
      ensures MaskOf(p) == WORD - BlockSize(p)
    {
      MaskIs(p);
    }
    var ip := IpToInt(mask);
    if ip.None? {
      return None;
    }
    var n := ip.value;
    var seenZero, bits: nat := false, 0;
    var i: int := 31;
    Powers();
    AllHigh(n);
    while i >= 0
      invariant -1 <= i <= 31 && bits <= 31 - i
      invariant seenZero <==> bits < 31 - i
      invariant High(n, i + 1) == Pow2(31 - i) - Pow2(31 - i - bits)
    {
      NextBit(n, i);
      var bit := And(Shr(n, i), 1);
      assert Pow2(32 - i) == 2 * Pow2(31 - i) && Pow2(32 - i - bits) == 2 * Pow2(31 - i - bits);
      if bit == 1 {
        if seenZero {
          forall p: nat | p <= 32
            ensures n != WORD - BlockSize(p)
          {
            NotAMask(n, i, bits, p);
          }
          return None;
        }
        bits := bits + 1;
      } else {
        seenZero := true;
      }
      i := i - 1;
    }
    return Some(bits);
  }

  function SuggestedCidr(ip: nat, prefix: nat): string
    requires prefix <= 32
  {
    IntToIp(And(ip, MaskOf(prefix))) + "/" + Decimal(prefix)
  }

  ghost predicate IsSuggestion(address: string, netmask: string, p: nat, cidr: string) {
    p <= 32 && IpToInt(netmask) == Some(MaskOf(p)) && IpToInt(address).Some?
    && cidr == SuggestedCidr(IpToInt(address).value, p)
  }

  /** One interface of `suggestCidrs`: the range of an interface, if its mask is contiguous. */
  method SuggestCidr(address: string, netmask: string) returns (r: Option<string>)
    ensures r.None? <==> IpToInt(address).None? || forall p: nat :: p <= 32 ==> IpToInt(netmask) != Some(MaskOf(p))
    ensures r.Some? ==> exists p: nat :: IsSuggestion(address, netmask, p, r.value)
  {
    var prefix := NetmaskToPrefix(netmask);
    if prefix.None? {
      return None;
    }
    var ip := IpToInt(address);
    if ip.None? {
      return None;
    }
    r := Some(SuggestedCidr(ip.value, prefix.value));
    assert IsSuggestion(address, netmask, prefix.value, r.value);
  }

  lemma NoSlash(n: int)
    ensures '/' !in IntToIp(n)
  {
    hide And;
    hide Shr;
  }

  /** The suggested text parses back to its own network, whose host bits are zero, and to a range around the
      interface's address. */
  lemma {:induction false} SuggestionParses(ip: nat, prefix: nat)
    requires ip < WORD && prefix <= 32
    ensures var c := ParseCidr(SuggestedCidr(ip, prefix));
      && c.Some? && c.value.prefix == prefix
      && c.value.network == And(ip, MaskOf(prefix))
      && Low(ToUint32(c.value.network), 32 - prefix) == 0
      && ToUint32(c.value.network) <= ip <= ToUint32(c.value.broadcast)
  {
    hide And;
    hide MaskOf;
    hide IpToInt;
    hide BroadcastOf;
    hide ToUint32;
    hide Low;
    hide Decimal;
    var network := And(ip, MaskOf(prefix));
    var text := IntToIp(network);
    NoSlash(network);
    var cidr := SuggestedCidr(ip, prefix);
    SplitPiece(Decimal(prefix), '/');
    SplitAt(text, '/', Decimal(prefix));
    assert Split(cidr, '/') == [text, Decimal(prefix)];
    ParseDecimal(prefix);
    IpRoundTrip(network);
    NetworkIs(ip, prefix);
    Powers();
    BlockFits(ip, 32, 32 - prefix);
    NetworkIs(ToUint32(network), prefix);
    SignedBounds(cidr);
  }
}
