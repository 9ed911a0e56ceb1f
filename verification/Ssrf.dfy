// The IPv4 block list: the signed 32-bit mask test of the code against plain
// address intervals (section 3 of RFC 1918, section 2.2.2 of RFC 6890).
module Ssrf {
  import opened Common
  import opened Arithmetic

  type Octet = o: int | 0 <= o < 256
  type Word = w: int | 0 <= w < 0x1_0000_0000
  datatype V4 = V4(a: Octet, b: Octet, c: Octet, d: Octet)

  // ---- the operators of the source language ----

  const WIDTH: nat := 32

  // The lowest n bits of both, bit by bit.
  function And(x: nat, y: nat, n: nat): nat {
    if n == 0 then 0 else 2 * And(x / 2, y / 2, n - 1) + (if x % 2 == 1 && y % 2 == 1 then 1 else 0)
  }

  function ToUint32(x: int): Word {
    x % 0x1_0000_0000
  }

  function ToInt32(x: int): int {
    var u := ToUint32(x);
    if u >= 0x8000_0000 then u - 0x1_0000_0000 else u
  }

  // x & y
  function BitAnd(x: int, y: int): int {
    ToInt32(And(ToUint32(x), ToUint32(y), WIDTH))
  }

  // x << s, one place at a time; the shift count is taken modulo 32.
  function Shifted(x: int, n: nat): int {
    if n == 0 then ToInt32(x) else ToInt32(2 * Shifted(x, n - 1))
  }

  function ShiftLeft(x: int, s: int): int {
    Shifted(x, s % 32)
  }

  // ---- the test ----

  function ValueOf(ip: V4): Word {
    ((ip.a * 256 + ip.b) * 256 + ip.c) * 256 + ip.d
  }

  predicate InRange(value: Word, base: Word, bits: int) {
    var mask := ShiftLeft(-1, 32 - bits);
    BitAnd(value, mask) == BitAnd(base, mask)
  }

  datatype Reason =
    | Reserved0 | Private10 | CarrierNat | Loopback | LinkLocal
    | Private172 | Reserved192 | Private192 | Benchmark | Multicast

  // The checks in their order, given the range test for this address.
  function FirstReason(ip: V4, inRange: (V4, int) -> bool): Option<Reason> {
    if inRange(V4(0, 0, 0, 0), 8) then Some(Reserved0)
    else if ip.a == 10 then Some(Private10)
    else if inRange(V4(100, 64, 0, 0), 10) then Some(CarrierNat)
    else if ip.a == 127 then Some(Loopback)
    else if inRange(V4(169, 254, 0, 0), 16) then Some(LinkLocal)
    else if ip.a == 172 && ip.b >= 16 && ip.b <= 31 then Some(Private172)
    else if inRange(V4(192, 0, 0, 0), 24) then Some(Reserved192)
    else if ip.a == 192 && ip.b == 168 then Some(Private192)
    else if inRange(V4(198, 18, 0, 0), 15) then Some(Benchmark)
    else if ip.a >= 224 then Some(Multicast)
    else None
  }

  function BlockedV4Reason(ip: V4): Option<Reason> {
    FirstReason(ip, (base, bits) => InRange(ValueOf(ip), ValueOf(base), bits))
  }

  // ---- masks are intervals ----

  // A mask of n bits with its lowest s clear rounds down to a multiple of 2^s.
  lemma {:induction false} AndWithMask(x: nat, mask: nat, s: nat, n: nat)
    requires s <= n && x < Pow2(n) && mask == Pow2(n) - Pow2(s)
    ensures And(x, mask, n) == x - x % Pow2(s)
    decreases n
  {
    if s == 0 {
      AndWithOnes(x, n);
    } else {
      var p := Pow2(s - 1);
      var half := Pow2(n - 1) - p;
      Pow2Grows(s - 1, n - 1);
      assert mask == 2 * half && mask / 2 == half && mask % 2 == 0;
      AndWithMask(x / 2, half, s - 1, n - 1);
      assert And(x, mask, n) == 2 * And(x / 2, half, n - 1);
      HalfOfRemainder(x, p);
    }
  }

  lemma {:induction false} AndWithOnes(x: nat, n: nat)
    requires x < Pow2(n)
    ensures And(x, Pow2(n) - 1, n) == x
    decreases n
  {
    if n > 0 {
      AndWithOnes(x / 2, n - 1);
    }
  }

  lemma HalfOfRemainder(x: nat, p: int)
    requires p >= 1
    ensures 2 * (x / 2 - (x / 2) % p) == x - x % (2 * p)
  {
    var q, r := (x / 2) / p, (x / 2) % p;
    assert x / 2 == q * p + r;
    assert x == q * (2 * p) + (2 * r + x % 2);
    QuotientIs(x, 2 * p, q, 2 * r + x % 2);
  }

  lemma SignedAndBack(x: int)
    ensures ToUint32(ToInt32(x)) == ToUint32(x) && ToInt32(ToUint32(x)) == ToInt32(x)
    ensures -0x8000_0000 <= x < 0x8000_0000 ==> ToInt32(x) == x
  {
  }

  lemma WordsHave32Bits()
    ensures Pow2(WIDTH) == 0x1_0000_0000
  {
    assert Pow2(8) == 0x100;
    Pow2Splits(8, 8);
    Pow2Splits(16, 16);
  }

  lemma {:induction false} ShiftedOnes(s: nat)
    requires s < WIDTH
    ensures Shifted(-1, s) == -Pow2(s)
  {
    if s > 0 {
      ShiftedOnes(s - 1);
      WordsHave32Bits();
      Pow2Grows(s + 1, WIDTH);
      SignedAndBack(-Pow2(s));
    }
  }

  lemma {:induction false} AndIsBelow(x: nat, y: nat, n: nat)
    ensures And(x, y, n) <= x
  {
    if n > 0 {
      AndIsBelow(x / 2, y / 2, n - 1);
    }
  }

  function RoundDown(x: int, size: int): int
    requires size >= 1
  {
    x - x % size
  }

  lemma RoundDownIs(value: int, size: int, base: int)
    requires size >= 1
    ensures RoundDown(value, size) == RoundDown(base, size)
      <==> RoundDown(base, size) <= value < RoundDown(base, size) + size
  {
    var q := base / size;
    assert RoundDown(base, size) == q * size;
    if q * size <= value < q * size + size {
      QuotientIs(value, size, q, value - q * size);
    }
  }

  lemma MaskRoundsDown(x: Word, s: nat)
    requires s < WIDTH
    ensures ToUint32(BitAnd(x, -Pow2(s))) == RoundDown(x, Pow2(s))
  {
    WordsHave32Bits();
    Pow2Grows(s, WIDTH);
    MaskAsWord(Pow2(s));
    AndWithMask(x, Pow2(WIDTH) - Pow2(s), s, WIDTH);
    AndOfWord(x, -Pow2(s));
  }

  lemma MaskAsWord(p: int)
    requires 1 <= p <= 0x1_0000_0000
    ensures ToUint32(-p) == 0x1_0000_0000 - p
  {
  }

  lemma AndOfWord(x: Word, mask: int)
    ensures ToUint32(BitAnd(x, mask)) == And(x, ToUint32(mask), WIDTH)
  {
    AndIsBelow(x, ToUint32(mask), WIDTH);
    SignedAndBack(And(x, ToUint32(mask), WIDTH));
  }

  // For every prefix length from 1 to 32 and every base, aligned or not: the test
  // holds of the addresses in the aligned block around the base.
  lemma InRangeIsBlock(value: Word, base: Word, bits: int)
    requires 1 <= bits <= 32
    ensures var size := Pow2(32 - bits);
      InRange(value, base, bits) <==> RoundDown(base, size) <= value < RoundDown(base, size) + size
  {
    var s := 32 - bits;
    ShiftedOnes(s);
    assert s % 32 == s;
    MaskRoundsDown(value, s);
    MaskRoundsDown(base, s);
    RoundDownIs(value, Pow2(s), base);
    SignedAndBack(And(ToUint32(value), ToUint32(-Pow2(s)), WIDTH));
    SignedAndBack(And(ToUint32(base), ToUint32(-Pow2(s)), WIDTH));
  }

  // The shift count of a zero prefix wraps to zero: instead of everything, it matches
  // the base alone.
  lemma ZeroPrefixMatchesOne(value: Word, base: Word)
    ensures InRange(value, base, 0) <==> value == base
  {
    assert ShiftLeft(-1, 32) == ShiftLeft(-1, 0);
    InRangeIsBlock(value, base, 32);
  }

  // ---- the block list ----

  predicate Between(ip: V4, low: V4, high: V4) {
    ValueOf(low) <= ValueOf(ip) <= ValueOf(high)
  }

  predicate InBlock(ip: V4, reason: Reason) {
    match reason
    case Reserved0 => Between(ip, V4(0, 0, 0, 0), V4(0, 255, 255, 255))
    case Private10 => Between(ip, V4(10, 0, 0, 0), V4(10, 255, 255, 255))
    case CarrierNat => Between(ip, V4(100, 64, 0, 0), V4(100, 127, 255, 255))
    case Loopback => Between(ip, V4(127, 0, 0, 0), V4(127, 255, 255, 255))
    case LinkLocal => Between(ip, V4(169, 254, 0, 0), V4(169, 254, 255, 255))
    case Private172 => Between(ip, V4(172, 16, 0, 0), V4(172, 31, 255, 255))
    case Reserved192 => Between(ip, V4(192, 0, 0, 0), V4(192, 0, 0, 255))
    case Private192 => Between(ip, V4(192, 168, 0, 0), V4(192, 168, 255, 255))
    case Benchmark => Between(ip, V4(198, 18, 0, 0), V4(198, 19, 255, 255))
    case Multicast => Between(ip, V4(224, 0, 0, 0), V4(255, 255, 255, 255))
  }

  lemma RangeIs(ip: V4, base: V4, bits: int, size: int, last: V4)
    requires 1 <= bits <= 32 && size == Pow2(32 - bits) && ValueOf(base) % size == 0
    requires ValueOf(base) + size == ValueOf(last) + 1
    ensures InRange(ValueOf(ip), ValueOf(base), bits) <==> Between(ip, base, last)
  {
    InRangeIsBlock(ValueOf(ip), ValueOf(base), bits);
  }

  lemma SizesOfBlocks()
    ensures Pow2(8) == 0x100 && Pow2(16) == 0x1_0000 && Pow2(17) == 0x2_0000 && Pow2(22) == 0x40_0000
    ensures Pow2(24) == 0x100_0000
  {
    assert Pow2(6) == 0x40 && Pow2(8) == 0x100;
    Pow2Splits(8, 8);
    assert Pow2(17) == 2 * Pow2(16);
    Pow2Splits(6, 16);
    Pow2Splits(8, 16);
  }

  // The blocks told by octets.
  predicate ByOctets(ip: V4, reason: Reason) {
    match reason
    case Reserved0 => ip.a == 0
    case Private10 => ip.a == 10
    case CarrierNat => ip.a == 100 && 64 <= ip.b < 128
    case Loopback => ip.a == 127
    case LinkLocal => ip.a == 169 && ip.b == 254
    case Private172 => ip.a == 172 && 16 <= ip.b < 32
    case Reserved192 => ip.a == 192 && ip.b == 0 && ip.c == 0
    case Private192 => ip.a == 192 && ip.b == 168
    case Benchmark => ip.a == 198 && 18 <= ip.b < 20
    case Multicast => 224 <= ip.a
  }

  lemma BlocksByOctets(ip: V4, reason: Reason)
    ensures InBlock(ip, reason) <==> ByOctets(ip, reason)
  {
  }

  // The checks in their order, told by octets.
  function FirstByOctets(ip: V4): Option<Reason> {
    if ip.a == 0 then Some(Reserved0)
    else if ip.a == 10 then Some(Private10)
    else if ip.a == 100 && 64 <= ip.b < 128 then Some(CarrierNat)
    else if ip.a == 127 then Some(Loopback)
    else if ip.a == 169 && ip.b == 254 then Some(LinkLocal)
    else if ip.a == 172 && 16 <= ip.b < 32 then Some(Private172)
    else if ip.a == 192 && ip.b == 0 && ip.c == 0 then Some(Reserved192)
    else if ip.a == 192 && ip.b == 168 then Some(Private192)
    else if ip.a == 198 && 18 <= ip.b < 20 then Some(Benchmark)
    else if 224 <= ip.a then Some(Multicast)
    else None
  }

  // The blocks do not meet, so the order of the checks does not matter.
  lemma FirstByOctetsIs(ip: V4, reason: Reason)
    ensures FirstByOctets(ip) == Some(reason) <==> ByOctets(ip, reason)
  {
  }

  lemma FirstReasonIs(ip: V4, inRange: (V4, int) -> bool)
    requires inRange(V4(0, 0, 0, 0), 8) <==> ByOctets(ip, Reserved0)
    requires inRange(V4(100, 64, 0, 0), 10) <==> ByOctets(ip, CarrierNat)
    requires inRange(V4(169, 254, 0, 0), 16) <==> ByOctets(ip, LinkLocal)
    requires inRange(V4(192, 0, 0, 0), 24) <==> ByOctets(ip, Reserved192)
    requires inRange(V4(198, 18, 0, 0), 15) <==> ByOctets(ip, Benchmark)
    ensures FirstReason(ip, inRange) == FirstByOctets(ip)
  {
  }

  lemma Reserved0ByPrefix(ip: V4)
    ensures InRange(ValueOf(ip), ValueOf(V4(0, 0, 0, 0)), 8) <==> ByOctets(ip, Reserved0)
  {
    SizesOfBlocks();
    RangeIs(ip, V4(0, 0, 0, 0), 8, 0x100_0000, V4(0, 255, 255, 255));
    BlocksByOctets(ip, Reserved0);
  }

  lemma CarrierNatByPrefix(ip: V4)
    ensures InRange(ValueOf(ip), ValueOf(V4(100, 64, 0, 0)), 10) <==> ByOctets(ip, CarrierNat)
  {
    SizesOfBlocks();
    RangeIs(ip, V4(100, 64, 0, 0), 10, 0x40_0000, V4(100, 127, 255, 255));
    BlocksByOctets(ip, CarrierNat);
  }

  lemma LinkLocalByPrefix(ip: V4)
    ensures InRange(ValueOf(ip), ValueOf(V4(169, 254, 0, 0)), 16) <==> ByOctets(ip, LinkLocal)
  {
    SizesOfBlocks();
    RangeIs(ip, V4(169, 254, 0, 0), 16, 0x1_0000, V4(169, 254, 255, 255));
    BlocksByOctets(ip, LinkLocal);
  }

  lemma Reserved192ByPrefix(ip: V4)
    ensures InRange(ValueOf(ip), ValueOf(V4(192, 0, 0, 0)), 24) <==> ByOctets(ip, Reserved192)
  {
    SizesOfBlocks();
    RangeIs(ip, V4(192, 0, 0, 0), 24, 0x100, V4(192, 0, 0, 255));
    BlocksByOctets(ip, Reserved192);
  }

  lemma BenchmarkByPrefix(ip: V4)
    ensures InRange(ValueOf(ip), ValueOf(V4(198, 18, 0, 0)), 15) <==> ByOctets(ip, Benchmark)
  {
    SizesOfBlocks();
    RangeIs(ip, V4(198, 18, 0, 0), 15, 0x2_0000, V4(198, 19, 255, 255));
    BlocksByOctets(ip, Benchmark);
  }

  lemma BlockedByOctets(ip: V4)
    ensures BlockedV4Reason(ip) == FirstByOctets(ip)
  {
    var inRange := (base: V4, bits: int) => InRange(ValueOf(ip), ValueOf(base), bits);
    Reserved0ByPrefix(ip);
    CarrierNatByPrefix(ip);
    LinkLocalByPrefix(ip);
    Reserved192ByPrefix(ip);
    BenchmarkByPrefix(ip);
    FirstReasonIs(ip, inRange);
  }

  // An address is refused for the one block it is in.
  lemma BlockedExactly(ip: V4, reason: Reason)
    ensures BlockedV4Reason(ip) == Some(reason) <==> InBlock(ip, reason)
  {
    BlockedByOctets(ip);
    FirstByOctetsIs(ip, reason);
    BlocksByOctets(ip, reason);
  }

  lemma AllowedExactly(ip: V4)
    ensures BlockedV4Reason(ip) == None <==> forall reason :: !InBlock(ip, reason)
  {
    forall reason
      ensures BlockedV4Reason(ip) == Some(reason) <==> InBlock(ip, reason)
    {
      BlockedExactly(ip, reason);
    }
  }

  // ---- the URL of an endpoint ----

  // IPv6 addresses stay text; which of them are blocked is a parameter.
  datatype Address = Four(ip: V4) | Six(text: string)

  datatype Why = InBlockOf(reason: Reason) | SixBlocked

  // A host that is an address, or a name with what the resolver made of it: addresses,
  // or None when it failed.
  datatype Host = Literal(address: Address) | Named(resolved: Option<seq<Address>>)

  datatype Url = Url(protocol: string, username: string, password: string, host: Host)

  datatype Refusal =
    | NotAUrl
    | NotHttps
    | HasCredentials
    | Unresolvable
    | Unsafe(address: Address, why: Why)

  ghost predicate Allowed(address: Address, sixBlocked: string -> bool) {
    match address
    case Four(ip) => forall reason :: !InBlock(ip, reason)
    case Six(text) => !sixBlocked(text)
  }

  // The address is refused for this.
  predicate RefusedFor(address: Address, why: Why, sixBlocked: string -> bool) {
    match why
    case InBlockOf(reason) => address.Four? && InBlock(address.ip, reason)
    case SixBlocked => address.Six? && sixBlocked(address.text)
  }

  // The first address for which `whyNot` has a reason.
  method FirstRefused(addresses: seq<Address>, whyNot: Address -> Option<Why>) returns (first: nat)
    ensures first <= |addresses| && forall i :: 0 <= i < first ==> whyNot(addresses[i]) == None
    ensures first < |addresses| ==> whyNot(addresses[first]).Some?
  {
    for i := 0 to |addresses|
      invariant forall k :: 0 <= k < i ==> whyNot(addresses[k]) == None
    {
      if whyNot(addresses[i]) != None {
        return i;
      }
    }
    return |addresses|;
  }

  function BlockedIpReason(address: Address, sixBlocked: string -> bool): Option<Why> {
    match address
    case Four(ip) => (match BlockedV4Reason(ip) case None => None case Some(reason) => Some(InBlockOf(reason)))
    case Six(text) => if sixBlocked(text) then Some(SixBlocked) else None
  }

  lemma BlockedIpReasonIs(address: Address, sixBlocked: string -> bool)
    ensures BlockedIpReason(address, sixBlocked) == None <==> Allowed(address, sixBlocked)
    ensures forall why :: BlockedIpReason(address, sixBlocked) == Some(why) ==> RefusedFor(address, why, sixBlocked)
  {
    if address.Four? {
      AllowedExactly(address.ip);
      if BlockedV4Reason(address.ip).Some? {
        BlockedExactly(address.ip, BlockedV4Reason(address.ip).value);
      }
    }
  }

  function AddressesOf(host: Host): seq<Address> {
    match host
    case Literal(address) => [address]
    case Named(resolved) => if resolved.Some? then resolved.value else []
  }

  // The host is this address, or its name resolved to it among others.
  predicate HasAddress(host: Host, a: Address) {
    host == Literal(a) || (host.Named? && host.resolved.Some? && a in host.resolved.value)
  }

  // It has an address, and all are allowed.
  ghost predicate HostAllowed(host: Host, sixBlocked: string -> bool) {
    (exists a :: HasAddress(host, a)) && forall a :: HasAddress(host, a) ==> Allowed(a, sixBlocked)
  }

  lemma AddressesOfHas(host: Host)
    ensures forall a :: a in AddressesOf(host) <==> HasAddress(host, a)
    ensures AddressesOf(host) == [] <==> forall a :: !HasAddress(host, a)
  {
    assert AddressesOf(host) != [] ==> AddressesOf(host)[0] in AddressesOf(host);
  }

  class SsrfService {
    const allowInsecureHttp: bool
    const allowPrivateDestinations: bool

    constructor (allowInsecureHttp: bool, allowPrivateDestinations: bool)
      ensures this.allowInsecureHttp == allowInsecureHttp
      ensures this.allowPrivateDestinations == allowPrivateDestinations
    {
      this.allowInsecureHttp, this.allowPrivateDestinations := allowInsecureHttp, allowPrivateDestinations;
    }

    predicate GoodProtocol(url: Url) {
      url.protocol == "https:" || (allowInsecureHttp && url.protocol == "http:")
    }

    predicate GoodForm(url: Option<Url>) {
      url.Some? && GoodProtocol(url.value) && url.value.username == "" == url.value.password
    }

    // A URL passes iff its form is good and, unless private destinations are allowed,
    // its host has an address and every one is in no block; `url` is None when the text
    // is no URL. An address that is refused is the first, and is named with its block.
    method AssertDeliverableUrl(url: Option<Url>, sixBlocked: string -> bool) returns (refusal: Option<Refusal>)
      ensures refusal == None <==>
        GoodForm(url) && (allowPrivateDestinations || HostAllowed(url.value.host, sixBlocked))
      ensures refusal == Some(NotAUrl) <==> url == None
      ensures refusal == Some(NotHttps) <==> url.Some? && !GoodProtocol(url.value)
      ensures refusal == Some(HasCredentials) <==> url.Some? && GoodProtocol(url.value) && !GoodForm(url)
      ensures refusal == Some(Unresolvable) <==>
        GoodForm(url) && !allowPrivateDestinations && forall a :: !HasAddress(url.value.host, a)
      ensures refusal.Some? && refusal.value.Unsafe? ==>
        GoodForm(url) && !allowPrivateDestinations && IsFirst(AddressesOf(url.value.host), refusal.value, sixBlocked)
    {
      if url == None {
        return Some(NotAUrl);
      }
      var protocol, host := url.value.protocol, url.value.host;
      if protocol != "https:" && !(allowInsecureHttp && protocol == "http:") {
        return Some(NotHttps);
      }
      if url.value.username != "" || url.value.password != "" {
        return Some(HasCredentials);
      }
      if allowPrivateDestinations {
        return None;
      }
      AddressesOfHas(host);
      refusal := CheckAddresses(AddressesOf(host), sixBlocked);
    }

    // Every resolved address is checked, in order.
    method CheckAddresses(addresses: seq<Address>, sixBlocked: string -> bool) returns (refusal: Option<Refusal>)
      ensures refusal == None <==> AllAllowed(addresses, sixBlocked)
      ensures refusal == Some(Unresolvable) <==> addresses == []
      ensures refusal.Some? && refusal != Some(Unresolvable) ==>
        refusal.value.Unsafe? && IsFirst(addresses, refusal.value, sixBlocked)
    {
      if addresses == [] {
        return Some(Unresolvable);
      }
      var first := FirstRefused(addresses, address => BlockedIpReason(address, sixBlocked));
      forall i | 0 <= i < |addresses|
        ensures BlockedIpReason(addresses[i], sixBlocked) == None <==> Allowed(addresses[i], sixBlocked)
      {
        BlockedIpReasonIs(addresses[i], sixBlocked);
      }
      if first == |addresses| {
        return None;
      }
      BlockedIpReasonIs(addresses[first], sixBlocked);
      var why := BlockedIpReason(addresses[first], sixBlocked).value;
      refusal := Some(Unsafe(addresses[first], why));
      assert Refuses(addresses, first, refusal.value, sixBlocked);
    }
  }

  ghost predicate AllAllowed(addresses: seq<Address>, sixBlocked: string -> bool) {
    addresses != [] && forall i :: 0 <= i < |addresses| ==> Allowed(addresses[i], sixBlocked)
  }

  ghost predicate Refuses(addresses: seq<Address>, i: nat, refusal: Refusal, sixBlocked: string -> bool) {
    && i < |addresses| && refusal.Unsafe? && refusal.address == addresses[i]
    && RefusedFor(addresses[i], refusal.why, sixBlocked)
    && forall k :: 0 <= k < i ==> Allowed(addresses[k], sixBlocked)
  }

  // The refusal names the first address that is not allowed, and why.
  ghost predicate IsFirst(addresses: seq<Address>, refusal: Refusal, sixBlocked: string -> bool) {
    exists i: nat :: Refuses(addresses, i, refusal, sixBlocked)
  }
}
