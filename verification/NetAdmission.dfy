/** What the NetConfig and IPSet webhooks admit.

    Names are compared without regard to case in the code; here a name stands for its folded
    form, and address texts for what they parse to. */
module NetAdmission {
  import opened ApiObjects
  import opened Addresses
  import opened Ipam

  datatype Domain = Domain(text: Name, wellFormed: bool)
  datatype Route = Route(destination: Cidr, nexthop: Addr)
  datatype Subnet = Subnet(
    name: Name, cidr: Cidr, gateway: Option<Addr>, ranges: seq<Range>, excludes: seq<Addr>,
    routes: seq<Route>, domain: Option<Domain>, vlan: Option<nat>)
  datatype Network = Network(name: Name, domain: Domain, subnets: seq<Subnet>)

  datatype FieldError =
    | Duplicate | BadDomain | BadCidr | NotAnAddress | WrongFamily | OutsideCidr | BadOrder
    | Removed | CidrChanged | VlanChanged
    | UnknownNetwork | UnknownSubnet | ManyDefaultRoutes | NoGateway
    | SubnetChanged | FixedIPChanged | DefaultRouteChanged

  // ---------------------------------------------------------------- addresses and ranges

  predicate Inside(c: Cidr, a: Addr)
    requires Parses(c)
  {
    IsAddress(a) && Contains(c, a)
  }

  function ValidateAddress(a: Addr, c: Cidr): (errs: seq<FieldError>)
    requires Parses(c)
    ensures errs == [] <==> Inside(c, a)
  {
    if !IsAddress(a) then [NotAnAddress]
    else
      (if SameFamily(a, c.addr) then [] else [WrongFamily]) + (if Contains(c, a) then [] else [OutsideCidr])
  }

  /** The number of the 16-byte form, in which IPv4 addresses are mapped into IPv6. */
  function As16(a: Addr): nat
    requires !a.Bad?
  {
    if a.V4? then 0xFFFF_0000_0000 + a.n else a.n
  }

  predicate RangeOk(c: Cidr, r: Range)
    requires Parses(c)
  {
    Inside(c, r.start) && Inside(c, r.end) && r.start.n < r.end.n
  }

  function ValidateAllocationRange(r: Range, c: Cidr): (errs: seq<FieldError>)
    requires Parses(c)
    ensures errs == [] <==> RangeOk(c, r)
  {
    if !IsAddress(r.start) || !IsAddress(r.end) then [NotAnAddress]
    else
      (if SameFamily(r.start, c.addr) && SameFamily(r.end, c.addr) then [] else [WrongFamily])
      + (if Contains(c, r.start) then [] else [OutsideCidr])
      + (if Contains(c, r.end) then [] else [OutsideCidr])
      + (if As16(r.start) < As16(r.end) then [] else [BadOrder, BadOrder])
  }

  // ---------------------------------------------------------------- one subnet

  predicate SubnetOk(s: Subnet) {
    && Parses(s.cidr)
    && (s.gateway.Some? ==> Inside(s.cidr, s.gateway.value))
    && (forall r :: r in s.ranges ==> RangeOk(s.cidr, r))
    && (forall a :: a in s.excludes ==> Inside(s.cidr, a))
    && (forall r :: r in s.routes ==> Parses(r.destination) && Inside(s.cidr, r.nexthop))
    && (s.domain.Some? ==> s.domain.value.wellFormed)
  }

  /** The texts a subnet registers in the map of its network: its name, then its domain. */
  function Labels(s: Subnet): seq<Name> {
    [s.name] + if s.domain.Some? then [s.domain.value.text] else []
  }

  predicate NoDup<T(==)>(s: seq<T>) {
    forall i, j :: 0 <= i < j < |s| ==> s[i] != s[j]
  }

  method ValidateUniqElement<T(==)>(elements: set<T>, x: T) returns (errs: seq<FieldError>, after: set<T>)
    ensures errs == [] <==> x !in elements
    ensures after == elements + {x}
  {
    if x in elements {
      return [Duplicate], elements;
    }
    return [], elements + {x};
  }

  method ValidateRanges(s: Subnet) returns (errs: seq<FieldError>)
    requires Parses(s.cidr)
    ensures errs == [] <==> forall r :: r in s.ranges ==> RangeOk(s.cidr, r)
  {
    errs := [];
    for i := 0 to |s.ranges|
      invariant errs == [] <==> forall r :: r in s.ranges[..i] ==> RangeOk(s.cidr, r)
    {
      assert s.ranges[..i + 1] == s.ranges[..i] + [s.ranges[i]];
      errs := errs + ValidateAllocationRange(s.ranges[i], s.cidr);
    }
    assert s.ranges[..|s.ranges|] == s.ranges;
  }

  method ValidateExcludes(s: Subnet) returns (errs: seq<FieldError>)
    requires Parses(s.cidr)
    ensures errs == [] <==> forall a :: a in s.excludes ==> Inside(s.cidr, a)
  {
    errs := [];
    for i := 0 to |s.excludes|
      invariant errs == [] <==> forall a :: a in s.excludes[..i] ==> Inside(s.cidr, a)
    {
      assert s.excludes[..i + 1] == s.excludes[..i] + [s.excludes[i]];
      errs := errs + ValidateAddress(s.excludes[i], s.cidr);
    }
    assert s.excludes[..|s.excludes|] == s.excludes;
  }

  /** A destination that is no CIDR ends the validation of the subnet. */
  method ValidateRoutes(s: Subnet) returns (errs: seq<FieldError>, stop: bool)
    requires Parses(s.cidr)
    ensures errs == [] <==> forall r :: r in s.routes ==> Parses(r.destination) && Inside(s.cidr, r.nexthop)
    ensures stop ==> errs != []
  {
    errs := [];
    stop := false;
    for i := 0 to |s.routes|
      invariant !stop
      invariant errs == [] <==> forall r :: r in s.routes[..i] ==> Parses(r.destination) && Inside(s.cidr, r.nexthop)
    {
      assert s.routes[..i + 1] == s.routes[..i] + [s.routes[i]];
      if !Parses(s.routes[i].destination) {
        assert s.routes[i] in s.routes;
        return errs + [BadCidr], true;
      }
      errs := errs + ValidateAddress(s.routes[i].nexthop, s.cidr);
    }
    assert s.routes[..|s.routes|] == s.routes;
  }

  method ValidateSubnet(s: Subnet, names: set<Name>, cidrs: set<Cidr>)
    returns (errs: seq<FieldError>, names': set<Name>, cidrs': set<Cidr>)
    ensures errs == [] <==>
              SubnetOk(s) && NoDup(Labels(s)) && s.cidr !in cidrs && forall x :: x in Labels(s) ==> x !in names
    ensures errs == [] ==> names' == names + (set x | x in Labels(s)) && cidrs' == cidrs + {s.cidr}
  {
    errs, names' := ValidateUniqElement(names, s.name);
    var more: seq<FieldError>;
    more, cidrs' := ValidateUniqElement(cidrs, s.cidr);
    errs := errs + more;
    assert Labels(s)[0] == s.name;
    if !Parses(s.cidr) {
      errs := errs + [BadCidr];
      return;
    }
    if s.gateway.Some? {
      errs := errs + ValidateAddress(s.gateway.value, s.cidr);
    }
    more := ValidateRanges(s);
    errs := errs + more;
    more := ValidateExcludes(s);
    errs := errs + more;
    var stop: bool;
    more, stop := ValidateRoutes(s);
    errs := errs + more;
    if stop {
      return;
    }
    if s.domain.Some? {
      assert Labels(s)[1] == s.domain.value.text;
      if !s.domain.value.wellFormed {
        errs := errs + [BadDomain];
      }
      more, names' := ValidateUniqElement(names', s.domain.value.text);
      errs := errs + more;
    }
  }

  // ---------------------------------------------------------------- all networks

  function SubnetLabels(ss: seq<Subnet>): seq<Name> {
    if ss == [] then [] else SubnetLabels(ss[..|ss| - 1]) + Labels(ss[|ss| - 1])
  }

  function SubnetCidrs(ss: seq<Subnet>): seq<Cidr> {
    seq(|ss|, i requires 0 <= i < |ss| => ss[i].cidr)
  }

  function NetworkLabels(ns: seq<Network>): seq<Name> {
    if ns == [] then []
    else NetworkLabels(ns[..|ns| - 1]) + [ns[|ns| - 1].name, ns[|ns| - 1].domain.text]
  }

  function NetworkCidrs(ns: seq<Network>): seq<Cidr> {
    if ns == [] then [] else NetworkCidrs(ns[..|ns| - 1]) + SubnetCidrs(ns[|ns| - 1].subnets)
  }

  predicate NetworkOk(n: Network) {
    n.domain.wellFormed && NoDup(SubnetLabels(n.subnets)) && forall s :: s in n.subnets ==> SubnetOk(s)
  }

  /** Names and domains are unique across networks, subnet names and domains within a network,
      CIDR texts everywhere, and every subnet is sound. */
  predicate NetworksOk(ns: seq<Network>) {
    NoDup(NetworkLabels(ns)) && NoDup(NetworkCidrs(ns)) && forall n :: n in ns ==> NetworkOk(n)
  }

  lemma NoDupAppend<T>(s: seq<T>, t: seq<T>)
    ensures NoDup(s + t) <==> NoDup(s) && NoDup(t) && forall x :: x in t ==> x !in s
  {
    if NoDup(s + t) {
      forall i, j | 0 <= i < j < |s|
        ensures s[i] != s[j]
      {
        assert (s + t)[i] != (s + t)[j];
      }
      forall i, j | 0 <= i < j < |t|
        ensures t[i] != t[j]
      {
        assert (s + t)[|s| + i] != (s + t)[|s| + j];
      }
      forall i, j | 0 <= i < |s| && 0 <= j < |t|
        ensures s[i] != t[j]
      {
        assert (s + t)[i] != (s + t)[|s| + j];
      }
    } else {
      var i, j :| 0 <= i < j < |s + t| && (s + t)[i] == (s + t)[j];
      if i < |s| && j >= |s| {
        assert t[j - |s|] in t && t[j - |s|] in s;
      }
    }
  }

  method ValidateSubnets(n: Network, cidrs: set<Cidr>) returns (errs: seq<FieldError>, cidrs': set<Cidr>)
    ensures errs == [] <==>
              && NoDup(SubnetLabels(n.subnets)) && NoDup(SubnetCidrs(n.subnets))
              && (forall s :: s in n.subnets ==> SubnetOk(s) && s.cidr !in cidrs)
    ensures errs == [] ==> cidrs' == cidrs + (set c | c in SubnetCidrs(n.subnets))
  {
    errs, cidrs' := [], cidrs;
    var names: set<Name> := {};
    for i := 0 to |n.subnets|
      invariant errs == [] <==>
                  && NoDup(SubnetLabels(n.subnets[..i])) && NoDup(SubnetCidrs(n.subnets[..i]))
                  && (forall s :: s in n.subnets[..i] ==> SubnetOk(s) && s.cidr !in cidrs)
      invariant errs == [] ==> names == (set x | x in SubnetLabels(n.subnets[..i]))
      invariant errs == [] ==> cidrs' == cidrs + (set c | c in SubnetCidrs(n.subnets[..i]))
    {
      var s := n.subnets[i];
      var more: seq<FieldError>;
      more, names, cidrs' := ValidateSubnet(s, names, cidrs');
      errs := errs + more;
      assert n.subnets[..i + 1] == n.subnets[..i] + [s] && n.subnets[..i + 1][..i] == n.subnets[..i];
      assert SubnetCidrs(n.subnets[..i + 1]) == SubnetCidrs(n.subnets[..i]) + [s.cidr];
      NoDupAppend(SubnetLabels(n.subnets[..i]), Labels(s));
      NoDupAppend(SubnetCidrs(n.subnets[..i]), [s.cidr]);
    }
    assert n.subnets[..|n.subnets|] == n.subnets;
  }

  /** One network: its name, its domain, its subnets. */
  method ValidateNetwork(n: Network, names: set<Name>, cidrs: set<Cidr>)
    returns (errs: seq<FieldError>, names': set<Name>, cidrs': set<Cidr>)
    ensures errs == [] <==>
              && NetworkOk(n) && n.name != n.domain.text && n.name !in names && n.domain.text !in names
              && NoDup(SubnetCidrs(n.subnets)) && forall s :: s in n.subnets ==> s.cidr !in cidrs
    ensures names' == names + {n.name, n.domain.text}
    ensures errs == [] ==> cidrs' == cidrs + (set c | c in SubnetCidrs(n.subnets))
  {
    errs, names' := ValidateUniqElement(names, n.name);
    if !n.domain.wellFormed {
      errs := errs + [BadDomain];
    }
    var more: seq<FieldError>;
    more, names' := ValidateUniqElement(names', n.domain.text);
    errs := errs + more;
    more, cidrs' := ValidateSubnets(n, cidrs);
    errs := errs + more;
  }

  method ValidateNetworks(ns: seq<Network>) returns (errs: seq<FieldError>)
    ensures errs == [] <==> NetworksOk(ns)
  {
    errs := [];
    var names: set<Name> := {};
    var cidrs: set<Cidr> := {};
    for i := 0 to |ns|
      invariant errs == [] <==> NetworksOk(ns[..i])
      invariant errs == [] ==> names == (set x | x in NetworkLabels(ns[..i]))
      invariant errs == [] ==> cidrs == (set c | c in NetworkCidrs(ns[..i]))
    {
      var more: seq<FieldError>;
      more, names, cidrs := ValidateNetwork(ns[i], names, cidrs);
      errs := errs + more;
      assert ns[..i + 1] == ns[..i] + [ns[i]];
      NetworksGrow(ns[..i], ns[i]);
    }
    assert ns[..|ns|] == ns;
  }

  lemma NetworksGrow(ns: seq<Network>, n: Network)
    ensures NetworkLabels(ns + [n]) == NetworkLabels(ns) + [n.name, n.domain.text]
    ensures NetworkCidrs(ns + [n]) == NetworkCidrs(ns) + SubnetCidrs(n.subnets)
    ensures NetworksOk(ns + [n]) <==>
              && NetworksOk(ns) && NetworkOk(n)
              && n.name != n.domain.text && n.name !in NetworkLabels(ns) && n.domain.text !in NetworkLabels(ns)
              && NoDup(SubnetCidrs(n.subnets)) && forall s :: s in n.subnets ==> s.cidr !in NetworkCidrs(ns)
  {
    assert (ns + [n])[..|ns|] == ns;
    NoDupAppend(NetworkLabels(ns), [n.name, n.domain.text]);
    NoDupAppend(NetworkCidrs(ns), SubnetCidrs(n.subnets));
    var pair := [n.name, n.domain.text];
    assert NoDup(pair) <==> pair[0] != pair[1];
    assert forall x :: x in pair <==> x == n.name || x == n.domain.text;
    forall s | s in n.subnets
      ensures s.cidr in SubnetCidrs(n.subnets)
    {
      var i :| 0 <= i < |n.subnets| && n.subnets[i] == s;
      assert SubnetCidrs(n.subnets)[i] == s.cidr;
    }
    forall c | c in SubnetCidrs(n.subnets)
      ensures exists s :: s in n.subnets && s.cidr == c
    {
      var i :| 0 <= i < |n.subnets| && SubnetCidrs(n.subnets)[i] == c;
      assert n.subnets[i] in n.subnets;
    }
  }

  // ---------------------------------------------------------------- changes of a NetConfig

  /** slices.IndexFunc; the length of the list when nothing satisfies the test. */
  function IndexFunc<T>(s: seq<T>, p: T -> bool): (i: nat)
    ensures i <= |s| && (i < |s| ==> p(s[i])) && forall j :: 0 <= j < i ==> !p(s[j])
  {
    if s == [] || p(s[0]) then 0 else 1 + IndexFunc(s[1..], p)
  }

  function NetIndex(ns: seq<Network>, name: Name): (i: nat)
    ensures i <= |ns| && (i < |ns| ==> ns[i].name == name) && forall j :: 0 <= j < i ==> ns[j].name != name
  {
    IndexFunc(ns, (n: Network) => n.name == name)
  }

  function SubnetIndex(ss: seq<Subnet>, name: Name): (i: nat)
    ensures i <= |ss| && (i < |ss| ==> ss[i].name == name) && forall j :: 0 <= j < i ==> ss[j].name != name
  {
    IndexFunc(ss, (s: Subnet) => s.name == name)
  }

  /** GetNetAndSubnet. */
  function Lookup(ns: seq<Network>, net: Name, subnet: Name): Option<Subnet> {
    var i := NetIndex(ns, net);
    if i == |ns| then None
    else
      var j := SubnetIndex(ns[i].subnets, subnet);
      if j == |ns[i].subnets| then None else Some(ns[i].subnets[j])
  }

  predicate SubnetKept(ns: seq<Network>, net: Name, s: Subnet) {
    var now := Lookup(ns, net, s.name);
    now.Some? && now.value.cidr == s.cidr && now.value.vlan == s.vlan
  }

  predicate NetworkKept(ns: seq<Network>, n: Network) {
    NetIndex(ns, n.name) < |ns| && forall s :: s in n.subnets ==> SubnetKept(ns, n.name, s)
  }

  /** A missing subnet ends the comparison. */
  method CompareSubnets(ns: seq<Network>, n: Network) returns (errs: seq<FieldError>, stop: bool)
    requires NetIndex(ns, n.name) < |ns|
    ensures errs == [] <==> NetworkKept(ns, n)
    ensures stop ==> errs != []
  {
    errs, stop := [], false;
    var now := ns[NetIndex(ns, n.name)].subnets;
    for i := 0 to |n.subnets|
      invariant !stop && (errs == [] <==> forall s :: s in n.subnets[..i] ==> SubnetKept(ns, n.name, s))
    {
      var s := n.subnets[i];
      assert n.subnets[..i + 1] == n.subnets[..i] + [s];
      var j := SubnetIndex(now, s.name);
      if j == |now| {
        assert s in n.subnets && !SubnetKept(ns, n.name, s);
        return errs + [Removed], true;
      }
      assert SubnetKept(ns, n.name, s) <==> now[j].cidr == s.cidr && now[j].vlan == s.vlan;
      if now[j].cidr != s.cidr {
        errs := errs + [CidrChanged];
      }
      if now[j].vlan != s.vlan {
        errs := errs + [VlanChanged];
      }
    }
    assert n.subnets[..|n.subnets|] == n.subnets;
  }

  method ValidateNetworksChanged(ns: seq<Network>, before: seq<Network>) returns (errs: seq<FieldError>)
    ensures errs == [] <==> forall n :: n in before ==> NetworkKept(ns, n)
  {
    errs := [];
    for i := 0 to |before|
      invariant errs == [] <==> forall n :: n in before[..i] ==> NetworkKept(ns, n)
    {
      var n := before[i];
      assert before[..i + 1] == before[..i] + [n];
      if NetIndex(ns, n.name) == |ns| {
        assert n in before;
        return errs + [Removed];
      }
      var more, stop := CompareSubnets(ns, n);
      errs := errs + more;
      if stop {
        assert n in before;
        return;
      }
    }
    assert before[..|before|] == before;
  }

  // ---------------------------------------------------------------- IPSets

  datatype IPSetNetwork = IPSetNetwork(name: Name, subnet: Name, fixed: Option<Addr>, defaultRoute: Option<bool>)

  predicate WantsRoute(n: IPSetNetwork) {
    n.defaultRoute == Some(true)
  }

  function RequestNames(ns: seq<IPSetNetwork>): (s: seq<Name>)
    ensures |s| == |ns| && forall i :: 0 <= i < |ns| ==> s[i] == ns[i].name
  {
    seq(|ns|, i requires 0 <= i < |ns| => ns[i].name)
  }

  predicate RoutesIn(cfg: seq<Network>, n: IPSetNetwork, bits: nat) {
    var s := Lookup(cfg, n.name, n.subnet);
    WantsRoute(n) && s.Some? && Bits(s.value.cidr.addr) == bits
  }

  /** How many requested default routes lie in subnets of one address family. */
  function RouteCount(ns: seq<IPSetNetwork>, cfg: seq<Network>, bits: nat): nat {
    if ns == [] then 0
    else RouteCount(ns[..|ns| - 1], cfg, bits) + if RoutesIn(cfg, ns[|ns| - 1], bits) then 1 else 0
  }

  /** The network and subnet exist, a fixed address is inside, a default route has a gateway. */
  predicate EntryOk(cfg: seq<Network>, n: IPSetNetwork) {
    var s := Lookup(cfg, n.name, n.subnet);
    && s.Some?
    && (n.fixed.Some? || n.defaultRoute.Some? ==> Parses(s.value.cidr))
    && (n.fixed.Some? ==> Inside(s.value.cidr, n.fixed.value))
    && (WantsRoute(n) ==> s.value.gateway.Some?)
  }

  predicate RequestOk(ns: seq<IPSetNetwork>, cfg: seq<Network>) {
    && NoDup(RequestNames(ns))
    && (forall n :: n in ns ==> EntryOk(cfg, n))
    && RouteCount(ns, cfg, 32) <= 1 && RouteCount(ns, cfg, 128) <= 1
  }

  /** One requested network on its own; bits: the family whose default routes it adds to. */
  method ValidateEntry(n: IPSetNetwork, cfg: seq<Network>) returns (errs: seq<FieldError>, bits: nat, stop: bool)
    ensures errs == [] <==> EntryOk(cfg, n)
    ensures !stop ==> forall b :: (b == 32 || b == 128) ==> (b == bits <==> RoutesIn(cfg, n, b))
    ensures stop ==> errs != []
  {
    errs, bits, stop := [], 0, false;
    var net := NetIndex(cfg, n.name);
    if net == |cfg| {
      return [UnknownNetwork], 0, false;
    }
    if SubnetIndex(cfg[net].subnets, n.subnet) == |cfg[net].subnets| {
      return [UnknownSubnet], 0, false;
    }
    var s := cfg[net].subnets[SubnetIndex(cfg[net].subnets, n.subnet)];
    if n.fixed.Some? || n.defaultRoute.Some? {
      if !Parses(s.cidr) {
        return [BadCidr], 0, true;
      }
      if n.fixed.Some? {
        errs := errs + ValidateAddress(n.fixed.value, s.cidr);
      }
      if WantsRoute(n) {
        bits := Bits(s.cidr.addr);
        if s.gateway.None? {
          errs := errs + [NoGateway];
        }
      }
    }
  }

  method ValidateIPSetNetwork(ns: seq<IPSetNetwork>, cfg: seq<Network>) returns (errs: seq<FieldError>)
    ensures errs == [] <==> RequestOk(ns, cfg)
  {
    errs := [];
    var names: set<Name> := {};
    var count4, count6 := 0, 0;
    for i := 0 to |ns|
      invariant errs == [] <==> RequestOk(ns[..i], cfg)
      invariant errs == [] ==> names == (set x | x in RequestNames(ns[..i]))
      invariant errs == [] ==> count4 == RouteCount(ns[..i], cfg, 32) && count6 == RouteCount(ns[..i], cfg, 128)
    {
      RequestGrows(ns, i, cfg);
      var more: seq<FieldError>;
      more, names := ValidateUniqElement(names, ns[i].name);
      errs := errs + more;
      var bits, stop;
      more, bits, stop := ValidateEntry(ns[i], cfg);
      errs := errs + more;
      if stop {
        assert ns[i] in ns && !EntryOk(cfg, ns[i]);
        return;
      }
      if bits == 32 {
        count4 := count4 + 1;
      } else if bits == 128 {
        count6 := count6 + 1;
      }
      if bits != 0 && (count4 > 1 || count6 > 1) {
        errs := errs + [ManyDefaultRoutes];
      }
    }
    assert ns[..|ns|] == ns;
  }

  lemma RequestGrows(ns: seq<IPSetNetwork>, i: nat, cfg: seq<Network>)
    requires i < |ns|
    ensures RequestNames(ns[..i + 1]) == RequestNames(ns[..i]) + [ns[i].name]
    ensures forall bits :: RouteCount(ns[..i + 1], cfg, bits) ==
              RouteCount(ns[..i], cfg, bits) + if RoutesIn(cfg, ns[i], bits) then 1 else 0
    ensures RequestOk(ns[..i + 1], cfg) <==>
              && RequestOk(ns[..i], cfg) && EntryOk(cfg, ns[i]) && ns[i].name !in RequestNames(ns[..i])
              && RouteCount(ns[..i + 1], cfg, 32) <= 1 && RouteCount(ns[..i + 1], cfg, 128) <= 1
  {
    assert ns[..i + 1][..i] == ns[..i] && ns[..i + 1] == ns[..i] + [ns[i]];
    NoDupAppend(RequestNames(ns[..i]), [ns[i].name]);
  }

  predicate EntryKept(ns: seq<IPSetNetwork>, o: IPSetNetwork) {
    var i := RequestIndex(ns, o.name);
    i < |ns| && ns[i].subnet == o.subnet && ns[i].fixed == o.fixed && ns[i].defaultRoute == o.defaultRoute
  }

  function RequestIndex(ns: seq<IPSetNetwork>, name: Name): (i: nat)
    ensures i <= |ns| && (i < |ns| ==> ns[i].name == name) && forall j :: 0 <= j < i ==> ns[j].name != name
  {
    IndexFunc(ns, (n: IPSetNetwork) => n.name == name)
  }

  method ValidateIPSetChanged(ns: seq<IPSetNetwork>, before: seq<IPSetNetwork>) returns (errs: seq<FieldError>)
    ensures errs == [] <==> forall o :: o in before ==> EntryKept(ns, o)
  {
    errs := [];
    for i := 0 to |before|
      invariant errs == [] <==> forall o :: o in before[..i] ==> EntryKept(ns, o)
    {
      var o := before[i];
      assert before[..i + 1] == before[..i] + [o];
      var j := RequestIndex(ns, o.name);
      if j == |ns| {
        assert o in before && !EntryKept(ns, o);
        return errs + [Removed];
      }
      assert EntryKept(ns, o) <==>
               ns[j].subnet == o.subnet && ns[j].fixed == o.fixed && ns[j].defaultRoute == o.defaultRoute;
      if ns[j].subnet != o.subnet {
        errs := errs + [SubnetChanged];
      }
      if ns[j].fixed != o.fixed {
        errs := errs + [FixedIPChanged];
      }
      if ns[j].defaultRoute != o.defaultRoute {
        errs := errs + [DefaultRouteChanged];
      }
    }
    assert before[..|before|] == before;
  }
}
