/**
 The host network check of controllers/imageclusterinstall_controller.go: does the inspected host
 have an address in the machine networks, and for dual stack one port with an address in each family.

 Parsing text into addresses and prefixes is library work. An address is the bits `net.ParseIP` yields
 after IPv4-mapped forms are shortened: 32 for IPv4, 128 for IPv6. A prefix covers an address of its own
 width that starts with its network bits (section 3.1 of RFC 4632, section 2.3 of RFC 4291).
 */
module MachineNetworks {
  import opened Base

  datatype Address = Address(text: string, bits: Option<seq<bool>>)

  datatype Prefix = Prefix(width: nat, network: seq<bool>)

  /** A CIDR as written; `prefix` is absent when the text does not parse. */
  datatype Cidr = Cidr(text: string, prefix: Option<Prefix>)

  datatype Nic = Nic(mac: string, ip: Address)

  predicate Covers(p: Prefix, bits: seq<bool>) {
    |bits| == p.width && p.network <= bits
  }

  predicate InCidr(a: Address, c: Cidr) {
    c.prefix.Some? && a.bits.Some? && Covers(c.prefix.value, a.bits.value)
  }

  predicate IsIPv4(c: Cidr) {
    c.prefix.Some? && c.prefix.value.width == 32
  }

  /** The networks to check, or nothing when the two fields contradict each other. */
  function EffectiveNetworks(legacy: Cidr, networks: seq<Cidr>): Option<seq<Cidr>> {
    if |networks| > 0 then
      if legacy.text != "" && legacy.text != networks[0].text then None else Some(networks)
    else if legacy.text != "" then Some([legacy])
    else Some([])
  }

  predicate InSome(n: Nic, networks: seq<Cidr>, v4: bool) {
    n.ip.text != "" && exists c :: c in networks && IsIPv4(c) == v4 && InCidr(n.ip, c)
  }

  /** One MAC address answers in an IPv4 network and in a network of the other family. */
  predicate DualStackAccepts(networks: seq<Cidr>, nics: seq<Nic>) {
    && (exists c :: c in networks && IsIPv4(c))
    && (exists c :: c in networks && !IsIPv4(c))
    && exists a, b :: a in nics && b in nics && a.mac == b.mac && a.mac != ""
                   && InSome(a, networks, true) && InSome(b, networks, false)
  }

  predicate SingleStackAccepts(c: Cidr, nics: seq<Nic>) {
    exists n :: n in nics && n.ip.text != "" && InCidr(n.ip, c)
  }

  predicate Accepts(legacy: Cidr, networks: seq<Cidr>, nics: seq<Nic>) {
    match EffectiveNetworks(legacy, networks)
    case None => false
    case Some(effective) =>
      if |effective| == 0 then true
      else if |effective| == 1 then SingleStackAccepts(effective[0], nics)
      else DualStackAccepts(effective, nics)
  }

  // ---------------------------------------------------------- properties

  /** Adding ports, in any order, never turns an accepted host away. */
  lemma AcceptsMonotone(legacy: Cidr, networks: seq<Cidr>, nics: seq<Nic>, more: seq<Nic>)
    requires Accepts(legacy, networks, nics)
    requires forall n :: n in nics ==> n in more
    ensures Accepts(legacy, networks, more)
  {
    var effective := EffectiveNetworks(legacy, networks).value;
    if |effective| == 1 {
      var n :| n in nics && n.ip.text != "" && InCidr(n.ip, effective[0]);
      assert n in more;
    } else if |effective| > 1 {
      var a, b :| a in nics && b in nics && a.mac == b.mac && a.mac != ""
               && InSome(a, effective, true) && InSome(b, effective, false);
      assert a in more && b in more;
    }
  }

  /** The order in which inspection lists the ports does not matter. */
  lemma AcceptsOrderIndependent(legacy: Cidr, networks: seq<Cidr>, nics: seq<Nic>, permuted: seq<Nic>)
    requires multiset(nics) == multiset(permuted)
    ensures Accepts(legacy, networks, nics) <==> Accepts(legacy, networks, permuted)
  {
    forall n ensures n in nics <==> n in permuted {
      assert n in nics <==> n in multiset(nics);
      assert n in permuted <==> n in multiset(permuted);
    }
    if Accepts(legacy, networks, nics) {
      AcceptsMonotone(legacy, networks, nics, permuted);
    }
    if Accepts(legacy, networks, permuted) {
      AcceptsMonotone(legacy, networks, permuted, nics);
    }
  }

  // --------------------------------------------- networks as intervals

  /** The number that bits spell, the first bit being the most significant one. */
  function Value(bits: seq<bool>): nat {
    if bits == [] then 0 else 2 * Value(bits[..|bits| - 1]) + if bits[|bits| - 1] then 1 else 0
  }

  lemma {:induction false} ValueInjective(a: seq<bool>, b: seq<bool>)
    requires |a| == |b| && Value(a) == Value(b)
    ensures a == b
  {
    if a != [] {
      var n := |a| - 1;
      ValueInjective(a[..n], b[..n]);
      assert a == a[..n] + [a[n]] && b == b[..n] + [b[n]];
    }
  }

  /** The first bits decide, whatever follows. */
  lemma {:induction false} ValueOrder(a: seq<bool>, b: seq<bool>, s: seq<bool>, t: seq<bool>)
    requires |s| == |t| && Value(a) < Value(b)
    ensures Value(a + s) < Value(b + t)
    decreases |s|
  {
    if s == [] {
      assert a + s == a && b + t == b;
    } else {
      var n := |s| - 1;
      ValueOrder(a, b, s[..n], t[..n]);
      assert (a + s)[..|a + s| - 1] == a + s[..n] && (b + t)[..|b + t| - 1] == b + t[..n];
    }
  }

  function Repeat(bit: bool, n: nat): (r: seq<bool>)
    ensures |r| == n
  {
    seq(n, i => bit)
  }

  lemma {:induction false} TailBetween(a: seq<bool>, s: seq<bool>)
    ensures Value(a + Repeat(false, |s|)) <= Value(a + s) <= Value(a + Repeat(true, |s|))
    decreases |s|
  {
    if s != [] {
      var n := |s| - 1;
      TailBetween(a, s[..n]);
      assert (a + s)[..|a + s| - 1] == a + s[..n];
      assert (a + Repeat(false, n + 1))[..|a| + n] == a + Repeat(false, n);
      assert (a + Repeat(true, n + 1))[..|a| + n] == a + Repeat(true, n);
    }
  }

  /** A network is an interval: from its own address, all host bits zero, to its last address, all host bits one. */
  predicate InInterval(p: Prefix, bits: seq<bool>) {
    && |bits| == p.width && |p.network| <= p.width
    && var n := p.width - |p.network|;
       Value(p.network + Repeat(false, n)) <= Value(bits) <= Value(p.network + Repeat(true, n))
  }

  lemma CoversIffInInterval(p: Prefix, bits: seq<bool>)
    ensures Covers(p, bits) <==> InInterval(p, bits)
  {
    if |bits| == p.width && |p.network| <= p.width {
      var k := |p.network|;
      var head, tail := bits[..k], bits[k..];
      assert bits == head + tail;
      if head == p.network {
        TailBetween(head, tail);
      } else if Value(head) < Value(p.network) {
        ValueOrder(head, p.network, tail, Repeat(false, |tail|));
      } else if Value(p.network) < Value(head) {
        ValueOrder(p.network, head, Repeat(true, |tail|), tail);
      } else {
        ValueInjective(head, p.network);
        assert false;
      }
    }
  }

  /** A port whose address lies in the interval of a network that parses. */
  predicate Reaches(n: Nic, c: Cidr) {
    n.ip.text != "" && n.ip.bits.Some? && c.prefix.Some? && InInterval(c.prefix.value, n.ip.bits.value)
  }

  predicate Of32Bits(c: Cidr) {
    c.prefix.Some? && c.prefix.value.width == 32
  }

  const NOT_SET := Cidr("", None)

  lemma ReachesIff(n: Nic, c: Cidr)
    ensures Reaches(n, c) <==> n.ip.text != "" && InCidr(n.ip, c)
  {
    if n.ip.bits.Some? && c.prefix.Some? {
      CoversIffInInterval(c.prefix.value, n.ip.bits.value);
    }
  }

  lemma InSomeIff(n: Nic, networks: seq<Cidr>, v4: bool)
    ensures InSome(n, networks, v4) <==> exists c :: c in networks && Of32Bits(c) == v4 && Reaches(n, c)
  {
    forall c ensures Reaches(n, c) <==> n.ip.text != "" && InCidr(n.ip, c) {
      ReachesIff(n, c);
    }
    if InSome(n, networks, v4) {
      var c :| c in networks && IsIPv4(c) == v4 && InCidr(n.ip, c);
      assert Reaches(n, c);
    }
  }

  /**
   The check in terms of intervals. No network: any host. One: some port has an address in it. More: there is a network
   of 32 bits and another one, and ports of one MAC address have an address in one of each.
   */
  lemma AcceptsIff(networks: seq<Cidr>, nics: seq<Nic>)
    ensures Accepts(NOT_SET, networks, nics) <==>
              || networks == []
              || (|networks| == 1 && exists n :: n in nics && Reaches(n, networks[0]))
              || (&& |networks| > 1
                  && exists a, b, c, d ::
                       && a in nics && b in nics && a.mac == b.mac && a.mac != ""
                       && c in networks && Of32Bits(c) && Reaches(a, c)
                       && d in networks && !Of32Bits(d) && Reaches(b, d))
  {
    hide Reaches, InCidr;
    if |networks| == 1 {
      forall n ensures Reaches(n, networks[0]) <==> n.ip.text != "" && InCidr(n.ip, networks[0]) {
        ReachesIff(n, networks[0]);
      }
    } else if |networks| > 1 {
      forall n, v4
        ensures InSome(n, networks, v4) <==> exists c :: c in networks && Of32Bits(c) == v4 && Reaches(n, c)
      {
        InSomeIff(n, networks, v4);
      }
      if Accepts(NOT_SET, networks, nics) {
        var a, b :| a in nics && b in nics && a.mac == b.mac && a.mac != ""
                    && InSome(a, networks, true) && InSome(b, networks, false);
        var c :| c in networks && Of32Bits(c) == true && Reaches(a, c);
        var d :| d in networks && Of32Bits(d) == false && Reaches(b, d);
      }
    }
  }

  /**
   The legacy field is an alias: alone it stands for a list of one network, beside a list it must repeat the first
   network and then changes nothing, and otherwise no host is accepted.
   */
  lemma LegacyIsAlias(legacy: Cidr, networks: seq<Cidr>, nics: seq<Nic>)
    requires legacy.text != ""
    ensures Accepts(legacy, networks, nics) <==>
              if networks == [] then Accepts(NOT_SET, [legacy], nics)
              else legacy.text == networks[0].text && Accepts(NOT_SET, networks, nics)
  {
  }

  // ------------------------------------------------------------- the code

  method InAny(ip: Address, networks: seq<Cidr>) returns (found: bool)
    ensures found <==> exists c :: c in networks && InCidr(ip, c)
  {
    for i := 0 to |networks|
      invariant forall j :: 0 <= j < i ==> !InCidr(ip, networks[j])
    {
      if InCidr(ip, networks[i]) {
        return true;
      }
    }
    found := false;
  }

  method SplitByFamily(networks: seq<Cidr>) returns (v4: seq<Cidr>, v6: seq<Cidr>)
    ensures forall c :: c in v4 <==> c in networks && IsIPv4(c)
    ensures forall c :: c in v6 <==> c in networks && !IsIPv4(c)
  {
    v4, v6 := [], [];
    for i := 0 to |networks|
      invariant forall c :: c in v4 <==> c in networks[..i] && IsIPv4(c)
      invariant forall c :: c in v6 <==> c in networks[..i] && !IsIPv4(c)
    {
      assert networks[..i + 1] == networks[..i] + [networks[i]];
      if IsIPv4(networks[i]) {
        v4 := v4 + [networks[i]];
      } else {
        v6 := v6 + [networks[i]];
      }
    }
    assert networks[..|networks|] == networks;
  }

  predicate Usable(n: Nic) {
    n.mac != "" && n.ip.text != ""
  }

  /** The addressed ports keyed by MAC address. */
  method GroupByMac(nics: seq<Nic>) returns (byMac: map<string, seq<Nic>>)
    ensures forall m, n :: m in byMac && n in byMac[m] ==> n in nics && Usable(n) && n.mac == m
    ensures forall n :: n in nics && Usable(n) ==> n.mac in byMac && n in byMac[n.mac]
  {
    byMac := map[];
    for i := 0 to |nics|
      invariant forall m, n :: m in byMac && n in byMac[m] ==> n in nics && Usable(n) && n.mac == m
      invariant forall n :: n in nics[..i] && Usable(n) ==> n.mac in byMac && n in byMac[n.mac]
    {
      var nic := nics[i];
      assert nics[..i + 1] == nics[..i] + [nic];
      if nic.mac != "" && nic.ip.text != "" {
        byMac := byMac[nic.mac := (if nic.mac in byMac then byMac[nic.mac] else []) + [nic]];
      }
    }
    assert nics[..|nics|] == nics;
  }

  /** Scans the ports of one MAC address, remembering which families were seen. */
  method PortHasBoth(ports: seq<Nic>, v4: seq<Cidr>, v6: seq<Cidr>) returns (both: bool)
    ensures both <==> ((exists n :: n in ports && exists c :: c in v4 && InCidr(n.ip, c))
                       && (exists n :: n in ports && exists c :: c in v6 && InCidr(n.ip, c)))
  {
    var has4, has6 := false, false;
    for i := 0 to |ports|
      invariant has4 <==> exists n :: n in ports[..i] && exists c :: c in v4 && InCidr(n.ip, c)
      invariant has6 <==> exists n :: n in ports[..i] && exists c :: c in v6 && InCidr(n.ip, c)
    {
      assert ports[..i + 1] == ports[..i] + [ports[i]];
      var in4 := InAny(ports[i].ip, v4);
      if in4 {
        has4 := true;
      }
      var in6 := InAny(ports[i].ip, v6);
      if in6 {
        has6 := true;
      }
      if has4 && has6 {
        assert forall n :: n in ports[..i + 1] ==> n in ports;
        return true;
      }
    }
    assert ports[..|ports|] == ports;
    both := has4 && has6;
  }

  /** Visits the MAC addresses in whatever order the map yields them. */
  method ValidateDualStack(networks: seq<Cidr>, nics: seq<Nic>) returns (ok: bool)
    ensures ok <==> DualStackAccepts(networks, nics)
  {
    var v4, v6 := SplitByFamily(networks);
    if |v4| == 0 || |v6| == 0 {
      return false;
    }
    assert v4[0] in networks && v6[0] in networks;
    var byMac := GroupByMac(nics);
    var pending := byMac.Keys;
    while pending != {}
      invariant pending <= byMac.Keys
      invariant forall a, b :: a in nics && b in nics && a.mac == b.mac && a.mac != "" && a.mac !in pending
                            ==> !(InSome(a, networks, true) && InSome(b, networks, false))
      decreases |pending|
    {
      var m :| m in pending;
      var both := PortHasBoth(byMac[m], v4, v6);
      if both {
        var a :| a in byMac[m] && exists c :: c in v4 && InCidr(a.ip, c);
        var b :| b in byMac[m] && exists c :: c in v6 && InCidr(b.ip, c);
        assert InSome(a, networks, true) && InSome(b, networks, false);
        return true;
      }
      pending := pending - {m};
    }
    ok := false;
  }

  method ValidateMachineNetworks(legacy: Cidr, networks: seq<Cidr>, nics: seq<Nic>) returns (ok: bool)
    ensures ok <==> Accepts(legacy, networks, nics)
  {
    var effective := EffectiveNetworks(legacy, networks);
    if effective.None? {
      return false;
    }
    if |effective.value| == 0 {
      return true;
    }
    if |effective.value| == 1 {
      for i := 0 to |nics|
        invariant forall j :: 0 <= j < i ==> !(nics[j].ip.text != "" && InCidr(nics[j].ip, effective.value[0]))
      {
        if nics[i].ip.text != "" && InCidr(nics[i].ip, effective.value[0]) {
          return true;
        }
      }
      return false;
    }
    ok := ValidateDualStack(effective.value, nics);
  }
}
