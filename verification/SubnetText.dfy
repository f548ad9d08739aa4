/**
 The text of a subnet: how ipaddress reads "a.b.c.d/p" and "a.b.c.d", and how it prints a network.
 Mask notation, IPv6 and malformed text are what `other` makes of them.
 */
module SubnetText {
  import opened Common
  import opened Subnet

  // ---------------------------------------------------------------- decimal numbers

  const DIGITS := "0123456789"

  predicate AllDigits(s: string) {
    forall i | 0 <= i < |s| :: '0' <= s[i] <= '9'
  }

  function Decimal(n: nat): (s: string)
    ensures s != "" && AllDigits(s)
  {
    if n < 10 then [DIGITS[n]] else Decimal(n / 10) + [DIGITS[n % 10]]
  }

  function DecimalValue(s: string): nat
    requires AllDigits(s)
  {
    if s == "" then 0 else 10 * DecimalValue(s[..|s| - 1]) + (s[|s| - 1] as int - '0' as int)
  }

  lemma {:induction false} DecimalRoundTrip(n: nat)
    ensures DecimalValue(Decimal(n)) == n
  {
    if n < 10 {
      assert Decimal(n)[..0] == "";
    } else {
      var s := Decimal(n / 10);
      DecimalRoundTrip(n / 10);
      assert Decimal(n)[..|s|] == s;
    }
  }

  lemma {:induction false} NoLeadingZero(n: nat)
    ensures Decimal(n)[0] == '0' ==> n == 0
  {
    if n >= 10 {
      NoLeadingZero(n / 10);
    }
  }

  lemma UpToThreeDigits(n: nat)
    requires n < 1000
    ensures |Decimal(n)| <= 3
  {
    assert n >= 10 ==> |Decimal(n)| == |Decimal(n / 10)| + 1;
    assert n >= 100 ==> |Decimal(n / 10)| == |Decimal(n / 10 / 10)| + 1;
  }

  // ---------------------------------------------------------------- splitting

  function SplitOn(s: string, c: char): (parts: seq<string>)
    ensures parts != []
  {
    if s == "" then [""]
    else
      var later := SplitOn(s[1..], c);
      if s[0] == c then [""] + later else [[s[0]] + later[0]] + later[1..]
  }

  predicate Without(s: string, c: char) {
    forall i | 0 <= i < |s| :: s[i] != c
  }

  lemma {:induction false} SplitPast(a: string, c: char, b: string)
    requires Without(a, c)
    ensures SplitOn(a, c) == [a]
    ensures SplitOn(a + [c] + b, c) == [a] + SplitOn(b, c)
  {
    if a == "" {
      assert a + [c] + b == [c] + b && ([c] + b)[1..] == b;
    } else {
      SplitPast(a[1..], c, b);
      assert (a + [c] + b)[1..] == a[1..] + [c] + b;
      assert [a[0]] + a[1..] == a;
    }
  }

  // ---------------------------------------------------------------- addresses and networks

  /** One to three digits, no leading zero, at most 255. */
  function ParseOctet(s: string): (v: Option<nat>)
    ensures v.Some? ==> v.value <= 255
  {
    if s == "" || !AllDigits(s) || |s| > 3 || (s != "0" && s[0] == '0') || DecimalValue(s) > 255 then None
    else Some(DecimalValue(s))
  }

  function FromOctets(a: nat, b: nat, c: nat, d: nat): (address: Address)
    requires a <= 255 && b <= 255 && c <= 255 && d <= 255
  {
    a * 0x100_0000 + b * 0x1_0000 + c * 0x100 + d
  }

  function ParseAddress(s: string): Option<Address> {
    var parts := SplitOn(s, '.');
    if |parts| != 4 then None
    else
      var a, b, c, d := ParseOctet(parts[0]), ParseOctet(parts[1]), ParseOctet(parts[2]), ParseOctet(parts[3]);
      if a.None? || b.None? || c.None? || d.None? then None
      else Some(FromOctets(a.value, b.value, c.value, d.value))
  }

  /** Digits for a number up to 32; here leading zeros pass. */
  function ParsePrefix(s: string): Option<PrefixLength> {
    if s == "" || !AllDigits(s) || DecimalValue(s) > 32 then None else Some(DecimalValue(s))
  }

  function ParseNetwork(text: string, other: string -> Parsed): Parsed {
    var parts := SplitOn(text, '/');
    if |parts| == 1 && ParseAddress(parts[0]).Some? then V4(ParseAddress(parts[0]).value, 32)
    else if |parts| == 2 && ParseAddress(parts[0]).Some? && ParsePrefix(parts[1]).Some?
    then V4(ParseAddress(parts[0]).value, ParsePrefix(parts[1]).value)
    else other(text)
  }

  function Octet(address: Address, i: nat): (v: nat)
    requires i < 4
    ensures v <= 255
  {
    if i == 0 then address / 0x100_0000
    else if i == 1 then address / 0x1_0000 % 0x100
    else if i == 2 then address / 0x100 % 0x100
    else address % 0x100
  }

  function PrintAddress(address: Address): string {
    var a, b, c, d := Octet(address, 0), Octet(address, 1), Octet(address, 2), Octet(address, 3);
    Decimal(a) + "." + (Decimal(b) + "." + (Decimal(c) + "." + Decimal(d)))
  }

  function PrintNetwork(n: Network): string {
    PrintAddress(n.base) + "/" + Decimal(n.prefix)
  }

  /** The validator on text: an accepted value comes back normalised. */
  function ValidateText(text: string, other: string -> Parsed): Result<string, Refusal> {
    match ValidatePrivateSubnet(ParseNetwork(text, other))
    case Ok(network) => Ok(PrintNetwork(network))
    case Err(refusal) => Err(refusal)
  }

  // ---------------------------------------------------------------- round trips

  lemma OctetRoundTrip(v: nat)
    requires v <= 255
    ensures ParseOctet(Decimal(v)) == Some(v)
  {
    DecimalRoundTrip(v);
    NoLeadingZero(v);
    UpToThreeDigits(v);
  }

  lemma OctetsOf(address: Address)
    ensures FromOctets(Octet(address, 0), Octet(address, 1), Octet(address, 2), Octet(address, 3)) == address
  {
    var x := address / 0x100;
    var y := x / 0x100;
    assert address / 0x1_0000 == y && address / 0x100_0000 == y / 0x100;
    assert address == 0x100 * x + address % 0x100;
    assert x == 0x100 * y + x % 0x100;
    assert y == 0x100 * (y / 0x100) + y % 0x100;
  }

  lemma DottedSplits(a: string, b: string, c: string, d: string)
    requires Without(a, '.') && Without(b, '.') && Without(c, '.') && Without(d, '.')
    ensures SplitOn(a + "." + (b + "." + (c + "." + d)), '.') == [a, b, c, d]
  {
    SplitPast(a, '.', b + "." + (c + "." + d));
    SplitPast(b, '.', c + "." + d);
    SplitPast(c, '.', d);
    SplitPast(d, '.', "");
  }

  lemma AddressRoundTrip(address: Address)
    ensures ParseAddress(PrintAddress(address)) == Some(address)
  {
    var a, b, c, d := Octet(address, 0), Octet(address, 1), Octet(address, 2), Octet(address, 3);
    DottedSplits(Decimal(a), Decimal(b), Decimal(c), Decimal(d));
    ParsedOctets(PrintAddress(address), a, b, c, d);
    OctetsOf(address);
  }

  lemma ParsedOctets(s: string, a: nat, b: nat, c: nat, d: nat)
    requires a <= 255 && b <= 255 && c <= 255 && d <= 255
    requires SplitOn(s, '.') == [Decimal(a), Decimal(b), Decimal(c), Decimal(d)]
    ensures ParseAddress(s) == Some(FromOctets(a, b, c, d))
  {
    OctetRoundTrip(a);
    OctetRoundTrip(b);
    OctetRoundTrip(c);
    OctetRoundTrip(d);
  }

  lemma NoSlash(a: string, b: string)
    requires Without(a, '/') && Without(b, '/')
    ensures Without(a + "." + b, '/')
  {
  }

  lemma AddressHasNoSlash(address: Address)
    ensures Without(PrintAddress(address), '/')
  {
    var a, b := Decimal(Octet(address, 0)), Decimal(Octet(address, 1));
    var c, d := Decimal(Octet(address, 2)), Decimal(Octet(address, 3));
    NoSlash(c, d);
    NoSlash(b, c + "." + d);
    NoSlash(a, b + "." + (c + "." + d));
  }

  /** Reading a printed network gives it back. */
  lemma NetworkRoundTrip(n: Network, other: string -> Parsed)
    ensures ParseNetwork(PrintNetwork(n), other) == V4(n.base, n.prefix)
  {
    AddressRoundTrip(n.base);
    AddressHasNoSlash(n.base);
    DecimalRoundTrip(n.prefix);
    SplitPast(PrintAddress(n.base), '/', Decimal(n.prefix));
    SplitPast(Decimal(n.prefix), '/', "");
  }

  /** A bare address is a network of one; with a prefix length up to 32 behind a slash it keeps that. */
  lemma AddressText(address: Address, prefix: PrefixLength, other: string -> Parsed)
    ensures ParseNetwork(PrintAddress(address), other) == V4(address, 32)
    ensures ParseNetwork(PrintAddress(address) + "/" + Decimal(prefix), other) == V4(address, prefix)
  {
    AddressRoundTrip(address);
    AddressHasNoSlash(address);
    DecimalRoundTrip(prefix);
    SplitPast(PrintAddress(address), '/', Decimal(prefix));
    SplitPast(Decimal(prefix), '/', "");
  }

  /** Whatever text was accepted, the normalised text is accepted again and unchanged. */
  lemma NormalisedTextIsStable(text: string, other: string -> Parsed)
    requires ValidateText(text, other).Ok?
    ensures ValidateText(ValidateText(text, other).value, other) == ValidateText(text, other)
  {
    var value := ParseNetwork(text, other);
    var n := ValidatePrivateSubnet(value).value;
    ValidationIsStable(value);
    NetworkRoundTrip(n, other);
  }

  /** The scanner's `str(ip)`: the hosts of an accepted subnet have pairwise different names. */
  lemma HostNamesDiffer(value: Parsed, i: nat, j: nat)
    requires ValidatePrivateSubnet(value).Ok?
    requires i < j < |Hosts(ValidatePrivateSubnet(value).value)|
    ensures var hosts := Hosts(ValidatePrivateSubnet(value).value);
            && 0 <= hosts[i] < ADDRESSES && 0 <= hosts[j] < ADDRESSES
            && PrintAddress(hosts[i]) != PrintAddress(hosts[j])
  {
    var hosts := Hosts(ValidatePrivateSubnet(value).value);
    HostsOfAccepted(value);
    assert Private(hosts[i]) && Private(hosts[j]);
    AddressRoundTrip(hosts[i]);
    AddressRoundTrip(hosts[j]);
  }
}
