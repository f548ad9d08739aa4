/**
 Which subnets a scan request may name (backend/schemas/scan.py) and which hosts the scanner then
 enumerates (backend/services/scanner.py). Addresses are the integers 0 .. 2^32 - 1.
 */
module Subnet {
  import opened Common

  const ADDRESSES := 0x1_0000_0000
  const MAX_SCAN_ADDRESSES := 1024

  type Address = a: nat | a < ADDRESSES
  type PrefixLength = p: nat | p <= 32

  function Pow2(n: nat): (r: nat)
    ensures r >= 1
  {
    if n == 0 then 1 else 2 * Pow2(n - 1)
  }

  function NumAddresses(p: PrefixLength): nat {
    Pow2(32 - p)
  }

  /** An IPv4 network as ipaddress keeps it: host bits cleared. */
  datatype Network = Network(base: Address, prefix: PrefixLength)

  function Last(n: Network): int {
    n.base + NumAddresses(n.prefix) - 1
  }

  /** `ip_network(value, strict=False)`: what the text parses to; host bits are masked off later. */
  datatype Parsed = NotANetwork | V6 | V4(address: Address, prefix: PrefixLength)

  datatype Refusal = NotIpv4Cidr | OnlyIpv4 | NotPrivate | TooLarge

  function Cleared(address: nat, size: nat): (base: nat)
    requires size > 0
    ensures base <= address
  {
    address - address % size
  }

  function Masked(address: Address, prefix: PrefixLength): Network {
    Network(Cleared(address, NumAddresses(prefix)), prefix)
  }

  const ALLOWED := [
    Network(10 * 0x100_0000, 8),
    Network(172 * 0x100_0000 + 16 * 0x1_0000, 12),
    Network(192 * 0x100_0000 + 168 * 0x1_0000, 16)]

  /** `subnet_of`: both ends of one network lie inside the other. */
  predicate SubnetOf(inner: Network, outer: Network) {
    outer.base <= inner.base && Last(inner) <= Last(outer)
  }

  /** `any(network.subnet_of(allowed) for allowed in ...)` */
  predicate Within(n: Network) {
    exists i | 0 <= i < |ALLOWED| :: SubnetOf(n, ALLOWED[i])
  }

  function ValidatePrivateSubnet(value: Parsed): Result<Network, Refusal> {
    match value
    case NotANetwork => Err(NotIpv4Cidr)
    case V6 => Err(OnlyIpv4)
    case V4(address, prefix) =>
      var network := Masked(address, prefix);
      if !Within(network) then Err(NotPrivate)
      else if NumAddresses(prefix) > MAX_SCAN_ADDRESSES then Err(TooLarge)
      else Ok(network)
  }

  /** `network.hosts()`: without network and broadcast address, except that /31 and /32 keep all. */
  function Hosts(n: Network): seq<int> {
    var size := NumAddresses(n.prefix);
    if n.prefix >= 31 then seq(size, i => n.base + i)
    else if size < 2 then []
    else seq(size - 2, i => n.base + 1 + i)
  }

  // ---------------------------------------------------------------- reference

  /** Section 3 of RFC 1918, by octets: 10.*, 172.16.* to 172.31.*, 192.168.* */
  predicate Private(a: int) {
    var first, second := a / 0x100_0000, a / 0x1_0000 % 0x100;
    first == 10 || (first == 172 && 16 <= second < 32) || (first == 192 && second == 168)
  }

  predicate InBlock(a: int, n: Network) {
    n.base <= a <= Last(n)
  }

  // ---------------------------------------------------------------- arithmetic

  lemma {:induction false} Pow2Grows(m: nat, n: nat)
    requires m <= n
    ensures Pow2(m) <= Pow2(n)
  {
    if m < n {
      Pow2Grows(m, n - 1);
    }
  }

  lemma Pow2Values()
    ensures Pow2(10) == 1024 && Pow2(11) == 2048 && Pow2(16) == 0x1_0000 && Pow2(20) == 0x10_0000
    ensures Pow2(24) == 0x100_0000
  {
    assert Pow2(5) == 32;
    assert Pow2(10) == 1024;
    assert Pow2(15) == 0x8000;
    assert Pow2(20) == 0x10_0000;
  }

  /** The same three ranges as intervals. */
  lemma PrivateRanges(a: int)
    requires 0 <= a
    ensures Private(a) <==>
      || 10 * 0x100_0000 <= a < 11 * 0x100_0000
      || 172 * 0x100_0000 + 16 * 0x1_0000 <= a < 172 * 0x100_0000 + 32 * 0x1_0000
      || 192 * 0x100_0000 + 168 * 0x1_0000 <= a < 192 * 0x100_0000 + 169 * 0x1_0000
  {
  }

  lemma AllowedSizes()
    ensures Last(ALLOWED[0]) == 11 * 0x100_0000 - 1
    ensures Last(ALLOWED[1]) == 172 * 0x100_0000 + 32 * 0x1_0000 - 1
    ensures Last(ALLOWED[2]) == 192 * 0x100_0000 + 169 * 0x1_0000 - 1
  {
    Pow2Values();
  }

  // ---------------------------------------------------------------- exactly the private blocks

  /** Lying in an allowed supernet is having private addresses only. */
  lemma WithinMeansPrivate(n: Network)
    ensures Within(n) <==> forall a | InBlock(a, n) :: Private(a)
  {
    AllowedSizes();
    if Within(n) {
      var i :| 0 <= i < |ALLOWED| && SubnetOf(n, ALLOWED[i]);
      forall a | InBlock(a, n) ensures Private(a) {
        PrivateRanges(a);
      }
    } else if forall a | InBlock(a, n) :: Private(a) {
      assert InBlock(n.base, n) && InBlock(Last(n), n);
      PrivateRanges(n.base);
      PrivateRanges(Last(n));
      GapInside(n);
    }
  }

  /** A block that starts in one range and ends past it holds the first address behind that range. */
  lemma GapInside(n: Network)
    requires Private(n.base) && !Within(n)
    ensures exists a :: InBlock(a, n) && !Private(a)
  {
    AllowedSizes();
    PrivateRanges(n.base);
    assert !SubnetOf(n, ALLOWED[0]) && !SubnetOf(n, ALLOWED[1]) && !SubnetOf(n, ALLOWED[2]);
    var gap := if n.base < 11 * 0x100_0000 then 11 * 0x100_0000
               else if n.base < 173 * 0x100_0000 then 172 * 0x100_0000 + 32 * 0x1_0000
               else 192 * 0x100_0000 + 169 * 0x1_0000;
    PrivateRanges(gap);
    assert InBlock(gap, n) && !Private(gap);
  }

  lemma SizeLimit(p: PrefixLength)
    ensures NumAddresses(p) <= MAX_SCAN_ADDRESSES <==> p >= 22
  {
    Pow2Values();
    if p >= 22 {
      Pow2Grows(32 - p, 10);
    } else {
      Pow2Grows(11, 32 - p);
    }
  }

  /** Every answer of the validator, each exactly when it is given. */
  lemma ValidationVerdicts(value: Parsed)
    ensures ValidatePrivateSubnet(value) == Err(NotIpv4Cidr) <==> value.NotANetwork?
    ensures ValidatePrivateSubnet(value) == Err(OnlyIpv4) <==> value.V6?
    ensures value.V4? ==>
      var n := Masked(value.address, value.prefix);
      && (ValidatePrivateSubnet(value) == Err(NotPrivate) <==> exists a :: InBlock(a, n) && !Private(a))
      && (ValidatePrivateSubnet(value) == Err(TooLarge) <==> n.prefix < 22 && forall a | InBlock(a, n) :: Private(a))
      && (ValidatePrivateSubnet(value) == Ok(n) <==> n.prefix >= 22 && forall a | InBlock(a, n) :: Private(a))
  {
    if value.V4? {
      WithinMeansPrivate(Masked(value.address, value.prefix));
      SizeLimit(value.prefix);
    }
  }

  // ---------------------------------------------------------------- blocks of up to 1024 addresses

  predicate SmallSize(size: int) {
    || size == 1 || size == 2 || size == 4 || size == 8 || size == 16 || size == 32
    || size == 64 || size == 128 || size == 256 || size == 512 || size == 1024
  }

  lemma SmallSizes(p: PrefixLength)
    requires p >= 22
    ensures SmallSize(NumAddresses(p))
    ensures p == 32 ==> NumAddresses(p) == 1
    ensures p == 31 ==> NumAddresses(p) == 2
    ensures p <= 30 ==> NumAddresses(p) >= 4
  {
    Pow2Values();
    assert Pow2(5) == 32;
    assert 32 - p <= 5 || 5 <= 32 - p <= 10;
    assert Pow2(6) == 64 && Pow2(7) == 128 && Pow2(8) == 256 && Pow2(9) == 512;
  }

  /** Such a block never straddles the border of a /16, so one private address makes it all private. */
  lemma SmallBlockInOneRange(address: Address, size: int, a: int)
    requires SmallSize(size)
    requires size > 0 && Cleared(address, size) <= a <= Cleared(address, size) + size - 1
    ensures a / 0x1_0000 == address / 0x1_0000
  {
    SameCell(address, size, a);
    CellsNest(size, a);
    CellsNest(size, address);
  }

  lemma SameCell(address: nat, size: int, a: int)
    requires size > 0 && Cleared(address, size) <= a <= Cleared(address, size) + size - 1
    ensures a / size == address / size
  {
    var q := address / size;
    assert address == q * size + address % size;
    assert a == q * size + (a - q * size);
    DivByParts(q, a - q * size, size);
  }

  lemma {:induction false} AtLeastOne(k: int, size: int)
    requires k >= 1 && size > 0
    ensures k * size >= size
  {
    if k > 1 {
      AtLeastOne(k - 1, size);
      assert k * size == (k - 1) * size + size;
    }
  }

  lemma DivByParts(q: int, r: int, size: int)
    requires 0 <= r < size
    ensures (q * size + r) / size == q
    ensures (q * size + r) % size == r
  {
    var s := q * size + r;
    var d := s / size;
    assert s == d * size + s % size;
    if d > q {
      AtLeastOne(d - q, size);
      Distribute(d, q, size);
    } else if d < q {
      AtLeastOne(q - d, size);
      Distribute(q, d, size);
    }
  }

  lemma Distribute(a: int, b: int, size: int)
    ensures (a - b) * size == a * size - b * size
  {
  }

  lemma CellsNest(size: int, x: nat)
    requires SmallSize(size)
    ensures x / 0x1_0000 == x / size / (0x1_0000 / size)
  {
  }

  /** Acceptance: a prefix of at least 22 and a private masked base, or just as well a private address. */
  lemma AcceptedExactly(address: Address, prefix: PrefixLength)
    ensures var n := Masked(address, prefix);
            && (ValidatePrivateSubnet(V4(address, prefix)).Ok? <==> prefix >= 22 && Private(n.base))
            && (ValidatePrivateSubnet(V4(address, prefix)).Ok? <==> prefix >= 22 && Private(address))
  {
    var n := Masked(address, prefix);
    ValidationVerdicts(V4(address, prefix));
    if prefix >= 22 {
      SmallSizes(prefix);
      assert InBlock(n.base, n) && InBlock(address, n);
      forall a | InBlock(a, n) ensures Private(a) <==> Private(address) {
        SmallBlockInOneRange(address, NumAddresses(prefix), a);
        SameRange(a, address);
      }
    }
  }

  lemma SameRange(a: int, b: int)
    requires 0 <= a && 0 <= b && a / 0x1_0000 == b / 0x1_0000
    ensures Private(a) <==> Private(b)
  {
    assert a / 0x100_0000 == a / 0x1_0000 / 0x100 && b / 0x100_0000 == b / 0x1_0000 / 0x100;
  }

  /** A host address: in the block, and with room for them neither its first nor its last address. */
  predicate IsHost(a: int, n: Network) {
    InBlock(a, n) && (n.prefix <= 30 ==> n.base < a < Last(n))
  }

  /** What an accepted subnet is scanned as: 1 to 1022 private addresses, each host once and in order. */
  lemma HostsOfAccepted(value: Parsed)
    requires ValidatePrivateSubnet(value).Ok?
    ensures var n := ValidatePrivateSubnet(value).value;
            var hosts := Hosts(n);
            && 1 <= |hosts| <= 1022
            && (forall a :: a in hosts <==> IsHost(a, n))
            && (forall i | 0 <= i < |hosts| :: Private(hosts[i]) && hosts[i] == hosts[0] + i)
  {
    var n := ValidatePrivateSubnet(value).value;
    var hosts := Hosts(n);
    ValidationVerdicts(value);
    SmallSizes(n.prefix);
    forall i | 0 <= i < |hosts| ensures Private(hosts[i]) {
      assert InBlock(hosts[i], n);
    }
    forall a ensures a in hosts <==> IsHost(a, n) {
      if IsHost(a, n) {
        assert hosts[a - hosts[0]] == a;
      }
    }
  }

  /** Validating the normalised subnet again changes nothing. */
  lemma ValidationIsStable(value: Parsed)
    requires ValidatePrivateSubnet(value).Ok?
    ensures var n := ValidatePrivateSubnet(value).value;
            ValidatePrivateSubnet(V4(n.base, n.prefix)) == Ok(n)
  {
    var n := ValidatePrivateSubnet(value).value;
    assert n == Masked(value.address, value.prefix);
    MaskTwice(value.address, NumAddresses(value.prefix));
  }

  lemma MaskTwice(address: nat, size: nat)
    requires size > 0
    ensures Cleared(address, size) % size == 0
  {
    var q := address / size;
    assert address - address % size == q * size + 0;
    DivByParts(q, 0, size);
  }
}
