/** The part of Python's `ipaddress` module that the slurmdbd fixture uses:
    `IPv4Network(text)` (strict, so host bits must be clear), `list(network)`
    and `str(IPv4Address)`. Addresses are numbers below 2^32. */
module Ipv4 {
  import opened Wrappers
  import opened Text

  const AddressSpace: nat := 0x1_0000_0000

  function Pow2(k: nat): (p: nat)
    ensures p >= 1
  {
    if k == 0 then 1 else 2 * Pow2(k - 1)
  }

  /** An IPv4 network: its network address and its prefix length. */
  datatype Network = Network(address: nat, prefixLen: nat)

  /** What `IPv4Network` guarantees of the objects it builds. */
  predicate Valid(n: Network) {
    && n.prefixLen <= 32
    && n.address < AddressSpace
    && n.address % Pow2(32 - n.prefixLen) == 0
  }

  /** Why the constructor raises `ValueError` (or one of its subclasses). */
  datatype ParseError =
    | EmptyAddress      // "Address cannot be empty"
    | WrongOctetCount   // "Expected 4 octets"
    | InvalidOctet      // empty, non-digit, over three digits, leading zero, or over 255
    | TooManySlashes    // "Only one '/' permitted"
    | InvalidNetmask    // neither a prefix length nor a dotted netmask or hostmask
    | HostBitsSet       // strict mode: address bits beyond the prefix are set

  /** `_parse_octet`: canonical decimal 0..255. */
  function ParseOctet(t: string): (r: Result<nat, ParseError>)
    ensures r.Ok? ==> r.value < 256
  {
    if t == [] || !AllDigits(t) || |t| > 3 then Err(InvalidOctet)
    else if t != "0" && t[0] == '0' then Err(InvalidOctet)
    else if DecimalValue(t) > 255 then Err(InvalidOctet)
    else Ok(DecimalValue(t))
  }

  /** ParseOctet accepts exactly the decimal spellings `str(v)` of 0..255. */
  lemma ParseOctetIsCanonical(t: string, v: nat)
    ensures ParseOctet(t) == Ok(v) <==> v < 256 && t == Decimal(v)
  {
    if ParseOctet(t) == Ok(v) {
      DecimalOfDecimalValue(t);
    }
    if v < 256 && t == Decimal(v) {
      DecimalValueOfDecimal(v);
    }
  }

  /** `_ip_int_from_string`: four dot-separated octets, most significant first. */
  function ParseAddress(t: string): (r: Result<nat, ParseError>)
    ensures r.Ok? ==> r.value < AddressSpace
  {
    if t == [] then Err(EmptyAddress)
    else
      var octets := Split(t, '.');
      if |octets| != 4 then Err(WrongOctetCount)
      else
        var o0 :- ParseOctet(octets[0]);
        var o1 :- ParseOctet(octets[1]);
        var o2 :- ParseOctet(octets[2]);
        var o3 :- ParseOctet(octets[3]);
        Ok(o0 * 0x100_0000 + o1 * 0x1_0000 + o2 * 0x100 + o3)
  }

  /** The octets of an address, most significant first (`int.to_bytes(4, "big")`). */
  function Octets(a: nat): (o: seq<nat>)
    requires a < AddressSpace
    ensures |o| == 4 && forall k :: 0 <= k < 4 ==> o[k] < 256
    ensures o[0] * 0x100_0000 + o[1] * 0x1_0000 + o[2] * 0x100 + o[3] == a
  {
    var r0 := a % 0x100_0000;
    var r1 := r0 % 0x1_0000;
    assert a == a / 0x100_0000 * 0x100_0000 + r0;
    assert r0 == r0 / 0x1_0000 * 0x1_0000 + r1;
    assert r1 == r1 / 0x100 * 0x100 + r1 % 0x100;
    [a / 0x100_0000, r0 / 0x1_0000, r1 / 0x100, r1 % 0x100]
  }

  /** `str(IPv4Address(a))`: dotted-quad text. */
  function FormatAddress(a: nat): (t: string)
    requires a < AddressSpace
  {
    var o := Octets(a);
    Join([Decimal(o[0]), Decimal(o[1]), Decimal(o[2]), Decimal(o[3])], '.')
  }

  /** Dotted-quad text holds only digits and dots. */
  lemma FormatAddressAlphabet(a: nat)
    requires a < AddressSpace
    ensures forall i :: 0 <= i < |FormatAddress(a)| ==> IsDigit(FormatAddress(a)[i]) || FormatAddress(a)[i] == '.'
  {
    var o := Octets(a);
    var d0, d1, d2, d3 := Decimal(o[0]), Decimal(o[1]), Decimal(o[2]), Decimal(o[3]);
    var pieces := [d0, d1, d2, d3];
    assert pieces[1..][1..][1..] == [d3];
    assert Join(pieces[1..][1..], '.') == d2 + ['.'] + d3;
    assert Join(pieces[1..], '.') == d1 + ['.'] + (d2 + ['.'] + d3);
    assert FormatAddress(a) == d0 + ['.'] + (d1 + ['.'] + (d2 + ['.'] + d3));
  }

  /** Parsing the text of an address gives the address back. */
  lemma ParseFormatAddress(a: nat)
    requires a < AddressSpace
    ensures ParseAddress(FormatAddress(a)) == Ok(a)
  {
    var o := Octets(a);
    var pieces := [Decimal(o[0]), Decimal(o[1]), Decimal(o[2]), Decimal(o[3])];
    forall k | 0 <= k < 4
      ensures '.' !in pieces[k] && ParseOctet(pieces[k]) == Ok(o[k])
    {
      ParseOctetIsCanonical(pieces[k], o[k]);
    }
    SplitJoin(pieces, '.');
    assert FormatAddress(a)[0] == pieces[0][0];
  }

  /** The network mask with `p` leading one bits. */
  function Netmask(p: nat): int
    requires p <= 32
  {
    AddressSpace - Pow2(32 - p)
  }

  /** The smallest `p >= from` whose netmask is `m`; `_prefix_from_ip_int`
      accepts exactly the masks of this shape. */
  function PrefixOfMask(m: nat, from: nat): (r: Option<nat>)
    requires from <= 33
    ensures r.Some? ==> from <= r.value <= 32 && Netmask(r.value) == m
    ensures r.None? ==> forall p :: from <= p <= 32 ==> Netmask(p) != m
    decreases 33 - from
  {
    if from > 32 then None
    else if Netmask(from) == m then Some(from)
    else PrefixOfMask(m, from + 1)
  }

  /** `_make_netmask` on the text after the slash: a decimal prefix length
      `_prefix_from_prefix_string`, else a dotted netmask, else a dotted hostmask. */
  function ParsePrefix(t: string): (r: Result<nat, ParseError>)
    ensures r.Ok? ==> r.value <= 32
  {
    if |t| >= 1 && AllDigits(t) && DecimalValue(t) <= 32 then Ok(DecimalValue(t))
    else
      match ParseAddress(t)
      case Err(_) => Err(InvalidNetmask)
      case Ok(m) =>
        match PrefixOfMask(m, 0)
        case Some(p) => Ok(p)
        case None =>
          match PrefixOfMask(AddressSpace - 1 - m, 0)
          case Some(p) => Ok(p)
          case None => Err(InvalidNetmask)
  }

  /** `IPv4Network(s)` with `strict=True`. Without a slash the prefix is 32. */
  function ParseNetwork(s: string): (r: Result<Network, ParseError>)
    ensures r.Ok? ==> Valid(r.value)
  {
    var parts := Split(s, '/');
    if |parts| > 2 then Err(TooManySlashes)
    else
      var address :- ParseAddress(parts[0]);
      var prefixLen :- if |parts| == 2 then ParsePrefix(parts[1]) else Ok(32);
      if address % Pow2(32 - prefixLen) != 0 then Err(HostBitsSet)
      else Ok(Network(address, prefixLen))
  }

  /** `str(network)`: the address, a slash and the prefix length. */
  function FormatNetwork(n: Network): string
    requires Valid(n)
  {
    FormatAddress(n.address) + "/" + Decimal(n.prefixLen)
  }

  /** Parsing the text of a network gives the network back. */
  lemma ParseFormatNetwork(n: Network)
    requires Valid(n)
    ensures ParseNetwork(FormatNetwork(n)) == Ok(n)
  {
    var a, p := FormatAddress(n.address), Decimal(n.prefixLen);
    FormatAddressAlphabet(n.address);
    assert '/' !in p;
    SplitJoin([a, p], '/');
    ParseFormatAddress(n.address);
    DecimalValueOfDecimal(n.prefixLen);
  }

  /** The number of addresses of a network, `network.num_addresses`. */
  function AddressCount(n: Network): nat
    requires n.prefixLen <= 32
  {
    Pow2(32 - n.prefixLen)
  }

  /** `list(network)`: every address from the network address up to the
      broadcast address, ascending; both ends included. */
  function Addresses(n: Network): seq<nat>
    requires n.prefixLen <= 32
  {
    seq(AddressCount(n), k => n.address + k)
  }

  /** An address belongs to a network when it agrees with the network
      address on the first `prefixLen` bits. */
  predicate InNetwork(n: Network, a: nat)
    requires n.prefixLen <= 32
  {
    a < AddressSpace && a / AddressCount(n) == n.address / AddressCount(n)
  }

  lemma {:induction false} Pow2Add(i: nat, j: nat)
    ensures Pow2(i + j) == Pow2(i) * Pow2(j)
    decreases i
  {
    if i > 0 {
      Pow2Add(i - 1, j);
    }
  }

  lemma DivOfMultiplePlus(q: nat, m: nat, r: nat)
    requires r < m
    ensures (q * m + r) / m == q && (q * m + r) % m == r
  {
    var a := q * m + r;
    var d, e := a / m, a % m;
    assert a == d * m + e;
    if d < q {
      MulMonotone(d + 1, q, m);
    } else if d > q {
      MulMonotone(q + 1, d, m);
    }
  }

  lemma MulMonotone(x: nat, y: nat, m: nat)
    requires x <= y
    ensures x * m <= y * m
  {
  }

  /** Powers of two below 2^16, one doubling at a time. */
  lemma Pow2Small()
    ensures Pow2(8) == 0x100 && Pow2(15) == 0x8000 && Pow2(16) == 0x1_0000
  {
    assert Pow2(1) == 2 && Pow2(2) == 4 && Pow2(3) == 8 && Pow2(4) == 16;
    assert Pow2(5) == 32 && Pow2(6) == 64 && Pow2(7) == 128 && Pow2(8) == 256;
    assert Pow2(9) == 512 && Pow2(10) == 1024 && Pow2(11) == 2048 && Pow2(12) == 4096;
    assert Pow2(13) == 8192 && Pow2(14) == 16384;
  }

  lemma Pow2Of32()
    ensures Pow2(32) == AddressSpace
  {
    Pow2Small();
    Pow2Add(16, 16);
  }

  lemma MultipleBelowBound(a: nat, m: nat, total: nat)
    requires m >= 1 && a % m == 0 && a < total * m
    ensures a + m <= total * m
  {
    var q := a / m;
    DivOfMultiplePlus(q, m, 0);
    assert a == q * m;
    if q >= total {
      MulMonotone(total, q, m);
    }
    MulMonotone(q + 1, total, m);
  }

  /** A valid network ends below 2^32. */
  lemma NetworkFits(n: Network)
    requires Valid(n)
    ensures n.address + AddressCount(n) <= AddressSpace
  {
    Pow2Add(n.prefixLen, 32 - n.prefixLen);
    Pow2Of32();
    MultipleBelowBound(n.address, AddressCount(n), Pow2(n.prefixLen));
  }

  lemma ListedAddressInNetwork(n: Network, k: nat)
    requires Valid(n) && k < AddressCount(n)
    ensures InNetwork(n, n.address + k)
  {
    var m := AddressCount(n);
    var q := n.address / m;
    assert n.address == q * m;
    NetworkFits(n);
    DivOfMultiplePlus(q, m, k);
    DivOfMultiplePlus(q, m, 0);
  }

  lemma NetworkAddressListed(n: Network, a: nat)
    requires Valid(n) && InNetwork(n, a)
    ensures a - n.address < AddressCount(n) && a >= n.address
    ensures Addresses(n)[a - n.address] == a
  {
    var m := AddressCount(n);
    SameQuotientOffset(n.address, a, m);
  }

  /** Two numbers with the same quotient by `m`, the first a multiple of `m`,
      lie less than `m` apart. */
  lemma SameQuotientOffset(base: nat, a: nat, m: nat)
    requires m >= 1 && base % m == 0 && a / m == base / m
    ensures base <= a < base + m
  {
    var q := base / m;
    assert base == q * m + base % m;
    assert a == q * m + a % m;
  }

  /** `list(network)` holds exactly the addresses of the network. */
  lemma AddressesAreTheNetwork(n: Network, a: nat)
    requires Valid(n)
    ensures a in Addresses(n) <==> InNetwork(n, a)
  {
    if a in Addresses(n) {
      var k :| 0 <= k < AddressCount(n) && Addresses(n)[k] == a;
      ListedAddressInNetwork(n, k);
    }
    if InNetwork(n, a) {
      NetworkAddressListed(n, a);
    }
  }

  /** The first address listed is the network address and the last is the
      broadcast address (all host bits set). */
  lemma AddressesEnds(n: Network)
    requires Valid(n)
    ensures |Addresses(n)| >= 1
    ensures Addresses(n)[0] == n.address
    ensures var last := Addresses(n)[|Addresses(n)| - 1];
      last % AddressCount(n) == AddressCount(n) - 1 && InNetwork(n, last)
  {
    var m := AddressCount(n);
    var q := n.address / m;
    assert n.address == q * m;
    DivOfMultiplePlus(q, m, m - 1);
    AddressesAreTheNetwork(n, n.address + m - 1);
  }
}
