/** Reserved addresses stay in their subnet, and an IPSet gets at most one default route per
    address family. */
module SubnetSafety {
  import opened ApiObjects
  import opened Addresses
  import opened Ipam
  import opened NetAdmission
  import opened Reservations

  // ---------------------------------------------------------------- the invariant

  /** Every range ends below the top address of its family. */
  predicate NoTop(ns: seq<Network>) {
    forall n, s, r :: n in ns && s in n.subnets && r in s.ranges ==> !Top(r.end)
  }

  /** What remains true of an admitted request while its IPSet exists. */
  predicate Requested(cfg: seq<Network>, ns: seq<IPSetNetwork>) {
    && NoDup(RequestNames(ns))
    && (forall n :: n in ns ==>
          var s := Lookup(cfg, n.name, n.subnet);
          s.Some? && (n.fixed.Some? ==> Parses(s.value.cidr) && Inside(s.value.cidr, n.fixed.value)))
    && RouteCount(ns, cfg, 32) <= 1 && RouteCount(ns, cfg, 128) <= 1
  }

  /** The address of a network lies in the current CIDR of the requested subnet. */
  predicate Sits(cfg: seq<Network>, ns: seq<IPSetNetwork>, net: Name, ip: IPAddress) {
    var k := RequestIndex(ns, net);
    && k < |ns| && ip.subnet == ns[k].subnet
    && var s := Lookup(cfg, net, ip.subnet);
       s.Some? && Parses(s.value.cidr) && Inside(s.value.cidr, ip.address)
  }

  ghost predicate Placed(cfg: seq<Network>, ns: seq<IPSetNetwork>, ips: map<Name, IPAddress>) {
    forall net :: net in ips ==> Sits(cfg, ns, net, ips[net])
  }

  ghost predicate IPSetOk(w: State, i: Name)
    requires i in w.ipsets
  {
    !w.ipsets[i].deleting ==>
      && w.cfg.Some?
      && Requested(w.cfg.value, w.ipsets[i].networks)
      && (i in w.reservations && w.reservations[i].owner == w.ipsets[i].uid ==>
            Placed(w.cfg.value, w.ipsets[i].networks, w.reservations[i].ips))
  }

  ghost predicate Ok(w: State) {
    && (w.cfg.Some? ==> NetworksOk(w.cfg.value) && NoTop(w.cfg.value))
    && (forall i :: i in w.reservations ==> w.reservations[i].owner < w.nextUid)
    && (forall i :: i in w.ipsets ==> w.ipsets[i].uid < w.nextUid && IPSetOk(w, i))
  }

  // ---------------------------------------------------------------- allocation

  lemma LookupSound(ns: seq<Network>, net: Name, subnet: Name)
    requires NetworksOk(ns) && NoTop(ns) && Lookup(ns, net, subnet).Some?
    ensures var s := Lookup(ns, net, subnet).value;
            SubnetOk(s) && s.name == subnet && forall r :: r in s.ranges ==> !Top(r.end)
  {
    var n := ns[NetIndex(ns, net)];
    assert n in ns && NetworkOk(n);
    var s := n.subnets[SubnetIndex(n.subnets, subnet)];
    assert s in n.subnets;
  }

  lemma ChosenInside(n: IPSetNetwork, s: Subnet, list: seq<map<Name, IPAddress>>)
    requires SubnetOk(s) && forall r :: r in s.ranges ==> !Top(r.end)
    requires n.fixed.Some? ==> Inside(s.cidr, n.fixed.value)
    requires Choose(n, s, list, map[]).Assigned?
    ensures Inside(s.cidr, Choose(n, s, list, map[]).ip)
  {
    if n.fixed.None? {
      var excluded, reserved := Elements(s.excludes), ReservedFor(list, n.name);
      FirstFitInBlock(s.ranges, excluded, reserved, s.cidr);
      FirstFitRunsOver(s.ranges, excluded, reserved);
      assert forall r :: r in s.ranges ==> RangeOk(s.cidr, r) && !RunsOver(r);
    }
  }

  lemma FreshSits(cfg: seq<Network>, ns: seq<IPSetNetwork>, list: seq<map<Name, IPAddress>>, net: Name, ip: IPAddress)
    requires NetworksOk(cfg) && NoTop(cfg) && Requested(cfg, ns) && Fresh(ns, cfg, list, net, ip)
    ensures Sits(cfg, ns, net, ip)
  {
    var k :| 0 <= k < |ns| && ns[k].name == net && Lookup(cfg, net, ns[k].subnet).Some?
             && ip.subnet == ns[k].subnet && ip.address !in ReservedFor(list, net)
             && Choose(ns[k], Lookup(cfg, net, ns[k].subnet).value, list, map[]) == Assigned(ip.address);
    assert ns[k] in ns;
    LookupSound(cfg, net, ns[k].subnet);
    ChosenInside(ns[k], Lookup(cfg, net, ns[k].subnet).value, list);
    IndexIs(ns, k);
  }

  lemma IndexIs(ns: seq<IPSetNetwork>, k: nat)
    requires k < |ns| && NoDup(RequestNames(ns))
    ensures RequestIndex(ns, ns[k].name) == k
  {
  }

  lemma FillPlaced(cfg: seq<Network>, ns: seq<IPSetNetwork>, list: seq<map<Name, IPAddress>>, ips: map<Name, IPAddress>)
    requires NetworksOk(cfg) && NoTop(cfg) && Requested(cfg, ns) && Placed(cfg, ns, ips)
    ensures Placed(cfg, ns, Fill(ns, cfg, list, Filled(ips, [], true)).ips)
  {
    var g := Fill(ns, cfg, list, Filled(ips, [], true));
    FillGrows(ns, cfg, list, Filled(ips, [], true));
    forall net | net in g.ips
      ensures Sits(cfg, ns, net, g.ips[net])
    {
      if net !in ips {
        FreshSits(cfg, ns, list, net, g.ips[net]);
      }
    }
  }

  // ---------------------------------------------------------------- admitted changes

  /** An admitted NetConfig keeps every subnet that was there, with its CIDR. */
  lemma LookupKept(ns: seq<Network>, before: seq<Network>, net: Name, subnet: Name)
    requires forall n :: n in before ==> NetworkKept(ns, n)
    requires Lookup(before, net, subnet).Some?
    ensures Lookup(ns, net, subnet).Some?
    ensures Lookup(ns, net, subnet).value.cidr == Lookup(before, net, subnet).value.cidr
  {
    var n := before[NetIndex(before, net)];
    assert n in before && NetworkKept(ns, n);
    var s := n.subnets[SubnetIndex(n.subnets, subnet)];
    assert s in n.subnets && SubnetKept(ns, n.name, s);
  }

  lemma {:induction false} RouteCountKept(ns: seq<IPSetNetwork>, cfg: seq<Network>, before: seq<Network>, bits: nat)
    requires forall n :: n in before ==> NetworkKept(cfg, n)
    requires forall n :: n in ns ==> Lookup(before, n.name, n.subnet).Some?
    ensures RouteCount(ns, cfg, bits) == RouteCount(ns, before, bits)
    decreases ns
  {
    if ns != [] {
      var n := ns[|ns| - 1];
      assert n in ns;
      LookupKept(cfg, before, n.name, n.subnet);
      RouteCountKept(ns[..|ns| - 1], cfg, before, bits);
    }
  }

  lemma ConfigKeeps(w: State, ns: seq<Network>, i: Name)
    requires Ok(w) && w.cfg.Some? && ConfigAdmitted(w, ns) && i in w.ipsets
    ensures IPSetOk(w.(cfg := Some(ns)), i)
  {
    assert IPSetOk(w, i);
    var before := w.cfg.value;
    var x := w.ipsets[i];
    assert i in w.ipsets && w.ipsets != map[];
    if !x.deleting {
      forall n | n in x.networks
        ensures Lookup(ns, n.name, n.subnet).Some? &&
                Lookup(ns, n.name, n.subnet).value.cidr == Lookup(before, n.name, n.subnet).value.cidr
      {
        LookupKept(ns, before, n.name, n.subnet);
      }
      RouteCountKept(x.networks, ns, before, 32);
      RouteCountKept(x.networks, ns, before, 128);
      if i in w.reservations && w.reservations[i].owner == x.uid {
        forall net | net in w.reservations[i].ips
          ensures Sits(ns, x.networks, net, w.reservations[i].ips[net])
        {
          assert Sits(before, x.networks, net, w.reservations[i].ips[net]);
          LookupKept(ns, before, net, w.reservations[i].ips[net].subnet);
        }
      }
    }
  }

  lemma RequestOkMeans(cfg: seq<Network>, ns: seq<IPSetNetwork>)
    requires RequestOk(ns, cfg)
    ensures Requested(cfg, ns)
  {
  }

  /** An admitted change of an IPSet keeps what has been reserved for it in place. */
  lemma ChangeKeeps(cfg: seq<Network>, ns: seq<IPSetNetwork>, before: seq<IPSetNetwork>, ips: map<Name, IPAddress>)
    requires Placed(cfg, before, ips) && forall o :: o in before ==> EntryKept(ns, o)
    ensures Placed(cfg, ns, ips)
  {
    forall net | net in ips
      ensures Sits(cfg, ns, net, ips[net])
    {
      assert Sits(cfg, before, net, ips[net]);
      var o := before[RequestIndex(before, net)];
      assert o in before && EntryKept(ns, o);
    }
  }

  // ---------------------------------------------------------------- steps and runs

  lemma ConfigStep(w: State, s: Step)
    requires Ok(w) && (s.CreateConfig? || s.UpdateConfig? || s.DeleteConfig?)
    requires s.CreateConfig? || s.UpdateConfig? ==> NoTop(s.ns)
    ensures Ok(Happens(w, s))
  {
    var n := Happens(w, s);
    forall i | i in n.ipsets
      ensures IPSetOk(n, i)
    {
      assert IPSetOk(w, i);
      if s.UpdateConfig? && w.cfg.Some? && ConfigAdmitted(w, s.ns) {
        ConfigKeeps(w, s.ns, i);
      }
    }
  }

  lemma IPSetStep(w: State, s: Step)
    requires Ok(w) && (s.CreateIPSet? || s.UpdateIPSet? || s.DeleteIPSet?)
    ensures Ok(Happens(w, s))
  {
    var n := Happens(w, s);
    forall i | i in n.ipsets
      ensures n.ipsets[i].uid < n.nextUid && IPSetOk(n, i)
    {
      assert i in w.ipsets ==> IPSetOk(w, i);
      if i == s.i && !s.DeleteIPSet? && w.cfg.Some? && RequestOk(s.networks, w.cfg.value) {
        RequestOkMeans(w.cfg.value, s.networks);
        if i in w.ipsets && i in w.reservations && w.reservations[i].owner == w.ipsets[i].uid
           && !w.ipsets[i].deleting && ChangeAdmitted(w, i, n.ipsets[i].networks) && s.UpdateIPSet? {
          ChangeKeeps(w.cfg.value, n.ipsets[i].networks, w.ipsets[i].networks, w.reservations[i].ips);
        }
      }
    }
  }

  lemma ReconcileStep(w: State, s: Step)
    requires Ok(w) && (s.Reconcile? || s.ReconcileDelete? || s.Collect?)
    ensures Ok(Happens(w, s))
  {
    var n := Happens(w, s);
    forall i | i in n.ipsets
      ensures IPSetOk(n, i)
    {
      assert IPSetOk(w, i);
      if s.Reconcile? && s.i == i && !w.ipsets[i].deleting && Patchable(w, i) {
        FillPlaced(w.cfg.value, w.ipsets[i].networks, s.list,
                   if i in w.reservations then w.reservations[i].ips else map[]);
      }
    }
  }

  ghost predicate Sound(ss: seq<Step>) {
    forall s :: s in ss && (s.CreateConfig? || s.UpdateConfig?) ==> NoTop(s.ns)
  }

  lemma OkStep(w: State, s: Step)
    requires Ok(w) && (s.CreateConfig? || s.UpdateConfig? ==> NoTop(s.ns))
    ensures Ok(Happens(w, s))
  {
    if s.CreateConfig? || s.UpdateConfig? || s.DeleteConfig? {
      ConfigStep(w, s);
    } else if s.CreateIPSet? || s.UpdateIPSet? || s.DeleteIPSet? {
      IPSetStep(w, s);
    } else {
      ReconcileStep(w, s);
    }
  }

  lemma {:induction false} OkRun(w: State, ss: seq<Step>)
    requires Ok(w) && Sound(ss)
    ensures Ok(Run(w, ss))
    decreases ss
  {
    if ss != [] {
      OkStep(w, ss[0]);
      OkRun(Happens(w, ss[0]), ss[1..]);
    }
  }

  /** Over every run, the address reserved for a live IPSet lies in the current CIDR of the
      subnet that the IPSet requests in that network. */
  lemma SubnetTheorem(w: State, ss: seq<Step>, i: Name, net: Name)
    requires w.ipsets == map[] && w.reservations == map[] && w.cfg.None? && Sound(ss)
    requires var n := Run(w, ss);
             i in n.ipsets && Holds(n, i, n.ipsets[i].uid) && !n.ipsets[i].deleting && net in n.reservations[i].ips
    ensures var n := Run(w, ss);
            && n.cfg.Some?
            && Sits(n.cfg.value, n.ipsets[i].networks, net, n.reservations[i].ips[net])
  {
    OkRun(w, ss);
    assert IPSetOk(Run(w, ss), i);
  }

  /** No step changes the networks of an immutable IPSet. */
  lemma ImmutableKept(w: State, s: Step, i: Name)
    requires i in w.ipsets && w.ipsets[i].immutable && i in Happens(w, s).ipsets
    ensures Happens(w, s).ipsets[i].networks == w.ipsets[i].networks
  {
  }

  // ---------------------------------------------------------------- the current NetConfig

  /** Everything a subnet names is inside its block, and ranges ascend. */
  predicate SubnetSound(s: Subnet) {
    && Parses(s.cidr)
    && (s.gateway.Some? ==> Contains(s.cidr, s.gateway.value))
    && (forall r :: r in s.ranges ==> Contains(s.cidr, r.start) && Contains(s.cidr, r.end) && r.start.n < r.end.n)
    && (forall a :: a in s.excludes ==> Contains(s.cidr, a))
    && (forall r :: r in s.routes ==> Parses(r.destination) && Contains(s.cidr, r.nexthop))
  }

  lemma {:induction false} LabelIn(ns: seq<Network>, a: nat)
    requires a < |ns|
    ensures ns[a].name in NetworkLabels(ns)
    decreases ns
  {
    if a < |ns| - 1 {
      LabelIn(ns[..|ns| - 1], a);
    }
  }

  lemma {:induction false} NamesDiffer(ns: seq<Network>, a: nat, b: nat)
    requires NoDup(NetworkLabels(ns)) && a < b < |ns|
    ensures ns[a].name != ns[b].name
    decreases ns
  {
    var front, last := ns[..|ns| - 1], ns[|ns| - 1];
    NoDupAppend(NetworkLabels(front), [last.name, last.domain.text]);
    if b < |ns| - 1 {
      NamesDiffer(front, a, b);
    } else {
      LabelIn(front, a);
      assert [last.name, last.domain.text][0] == last.name;
    }
  }

  lemma {:induction false} CidrIn(ns: seq<Network>, a: nat, x: nat)
    requires a < |ns| && x < |ns[a].subnets|
    ensures ns[a].subnets[x].cidr in NetworkCidrs(ns)
    decreases ns
  {
    if a < |ns| - 1 {
      CidrIn(ns[..|ns| - 1], a, x);
    } else {
      assert SubnetCidrs(ns[a].subnets)[x] == ns[a].subnets[x].cidr;
    }
  }

  lemma {:induction false} CidrsDiffer(ns: seq<Network>, a: nat, x: nat, b: nat, y: nat)
    requires NoDup(NetworkCidrs(ns)) && a <= b < |ns| && x < |ns[a].subnets| && y < |ns[b].subnets|
    requires a < b || x < y
    ensures ns[a].subnets[x].cidr != ns[b].subnets[y].cidr
    decreases ns
  {
    var front, last := ns[..|ns| - 1], ns[|ns| - 1];
    NoDupAppend(NetworkCidrs(front), SubnetCidrs(last.subnets));
    if b < |ns| - 1 {
      CidrsDiffer(front, a, x, b, y);
    } else {
      assert SubnetCidrs(last.subnets)[y] == last.subnets[y].cidr;
      if a < b {
        CidrIn(front, a, x);
      } else {
        assert SubnetCidrs(last.subnets)[x] == last.subnets[x].cidr;
      }
    }
  }

  /** In every run the current NetConfig has distinct network names and CIDRs, and everything its
      subnets name is inside their blocks. */
  lemma ConfigTheorem(w: State, ss: seq<Step>, a: nat, x: nat, b: nat, y: nat)
    requires w.ipsets == map[] && w.reservations == map[] && w.cfg.None? && Sound(ss)
    requires var n := Run(w, ss);
             && n.cfg.Some? && a <= b < |n.cfg.value| && (a < b || x < y)
             && x < |n.cfg.value[a].subnets| && y < |n.cfg.value[b].subnets|
    ensures var cfg := Run(w, ss).cfg.value;
            && (a < b ==> cfg[a].name != cfg[b].name)
            && cfg[a].subnets[x].cidr != cfg[b].subnets[y].cidr
            && SubnetSound(cfg[a].subnets[x]) && SubnetSound(cfg[b].subnets[y])
  {
    OkRun(w, ss);
    var cfg := Run(w, ss).cfg.value;
    if a < b {
      NamesDiffer(cfg, a, b);
    }
    CidrsDiffer(cfg, a, x, b, y);
    assert cfg[a] in cfg && NetworkOk(cfg[a]) && cfg[a].subnets[x] in cfg[a].subnets;
    assert cfg[b] in cfg && NetworkOk(cfg[b]) && cfg[b].subnets[y] in cfg[b].subnets;
  }

  // ---------------------------------------------------------------- default routes

  function Routes(es: seq<Entry>, bits: nat): nat {
    if es == [] then 0 else Routes(es[..|es| - 1], bits) + if es[|es| - 1].route == Some(bits) then 1 else 0
  }

  lemma RouteAdded(ns: seq<IPSetNetwork>, k: nat, cfg: seq<Network>, f: Filled, s: Subnet, a: Addr, bits: nat)
    requires k < |ns| && Lookup(cfg, ns[k].name, ns[k].subnet) == Some(s) && SameFamily(a, s.cidr.addr) && !a.Bad?
    requires Routes(f.entries, bits) <= RouteCount(ns[..k], cfg, bits)
    ensures Routes(Added(f, ns[k], s, a).entries, bits) <= RouteCount(ns[..k + 1], cfg, bits)
  {
    RequestGrows(ns, k, cfg);
    var g := Added(f, ns[k], s, a);
    assert g.entries[..|g.entries| - 1] == f.entries;
  }

  lemma FillNext(ns: seq<IPSetNetwork>, k: nat, cfg: seq<Network>, list: seq<map<Name, IPAddress>>, f: Filled)
    requires k < |ns| && Lookup(cfg, ns[k].name, ns[k].subnet).Some?
    ensures var s := Lookup(cfg, ns[k].name, ns[k].subnet).value;
            var a := Choose(ns[k], s, list, f.ips);
            Fill(ns[k..], cfg, list, f) ==
              if a.Assigned? then Fill(ns[k + 1..], cfg, list, Added(f, ns[k], s, a.ip)) else f.(ok := false)
  {
  }

  /** A family's default routes in the status are at most those the request asks for. */
  lemma {:induction false} RoutesBounded(ns: seq<IPSetNetwork>, k: nat, cfg: seq<Network>,
                                         list: seq<map<Name, IPAddress>>, f: Filled, bits: nat)
    requires k <= |ns| && NetworksOk(cfg) && NoTop(cfg) && Requested(cfg, ns)
    requires Placed(cfg, ns, f.ips)
    requires Routes(f.entries, bits) <= RouteCount(ns[..k], cfg, bits)
    ensures Routes(Fill(ns[k..], cfg, list, f).entries, bits) <= RouteCount(ns, cfg, bits)
    decreases |ns| - k
  {
    CountMonotone(ns, k, cfg, bits);
    if k < |ns| {
      var n := ns[k];
      assert n in ns;
      FillNext(ns, k, cfg, list, f);
      var s := Lookup(cfg, n.name, n.subnet).value;
      var a := Choose(n, s, list, f.ips);
      if a.Assigned? {
        ChoiceSits(cfg, ns, k, list, f);
        RouteAdded(ns, k, cfg, f, s, a.ip, bits);
        RoutesBounded(ns, k + 1, cfg, list, Added(f, n, s, a.ip), bits);
      }
    }
  }

  lemma {:induction false} CountMonotone(ns: seq<IPSetNetwork>, k: nat, cfg: seq<Network>, bits: nat)
    requires k <= |ns|
    ensures RouteCount(ns[..k], cfg, bits) <= RouteCount(ns, cfg, bits)
    decreases |ns| - k
  {
    if k == |ns| {
      assert ns[..k] == ns;
    } else {
      RequestGrows(ns, k, cfg);
      CountMonotone(ns, k + 1, cfg, bits);
    }
  }

  /** The chosen address has the family of the subnet's CIDR and stays in place. */
  lemma ChoiceSits(cfg: seq<Network>, ns: seq<IPSetNetwork>, k: nat, list: seq<map<Name, IPAddress>>, f: Filled)
    requires k < |ns| && NetworksOk(cfg) && NoTop(cfg) && Requested(cfg, ns) && Placed(cfg, ns, f.ips)
    requires ns[k] in ns && Lookup(cfg, ns[k].name, ns[k].subnet).Some?
    requires Choose(ns[k], Lookup(cfg, ns[k].name, ns[k].subnet).value, list, f.ips).Assigned?
    ensures var s := Lookup(cfg, ns[k].name, ns[k].subnet).value;
            var a := Choose(ns[k], s, list, f.ips).ip;
            && SameFamily(a, s.cidr.addr) && !a.Bad?
            && Placed(cfg, ns, Added(f, ns[k], s, a).ips)
  {
    var n := ns[k];
    var s := Lookup(cfg, n.name, n.subnet).value;
    IndexIs(ns, k);
    LookupSound(cfg, n.name, n.subnet);
    if n.name in f.ips {
      assert Sits(cfg, ns, n.name, f.ips[n.name]);
    } else {
      ChosenInside(n, s, list);
    }
  }

  // ---------------------------------------------------------------- the written status

  /** The status line of one requested network: its reserved address, and a default route of the
      family of the subnet if one is requested and the subnet has a gateway. */
  predicate Shown(cfg: seq<Network>, n: IPSetNetwork, ips: map<Name, IPAddress>, e: Entry) {
    var s := Lookup(cfg, n.name, n.subnet);
    && s.Some? && n.name in ips
    && e.network == n.name && e.subnet == n.subnet && e.address == ips[n.name].address
    && e.route ==
         if n.defaultRoute == Some(true) && s.value.gateway.Some? then Some(Bits(s.value.cidr.addr)) else None
  }

  ghost predicate AllShown(cfg: seq<Network>, ns: seq<IPSetNetwork>, ips: map<Name, IPAddress>, es: seq<Entry>) {
    |es| <= |ns| && forall j :: 0 <= j < |es| ==> Shown(cfg, ns[j], ips, es[j])
  }

  lemma ShownNext(cfg: seq<Network>, ns: seq<IPSetNetwork>, k: nat, f: Filled, s: Subnet, a: Addr)
    requires k < |ns| && k == |f.entries| && AllShown(cfg, ns, f.ips, f.entries)
    requires Lookup(cfg, ns[k].name, ns[k].subnet) == Some(s) && s.name == ns[k].subnet
    requires SameFamily(a, s.cidr.addr) && !a.Bad? && (ns[k].name in f.ips ==> f.ips[ns[k].name].address == a)
    ensures AllShown(cfg, ns, Added(f, ns[k], s, a).ips, Added(f, ns[k], s, a).entries)
  {
  }

  lemma {:induction false} FillShows(ns: seq<IPSetNetwork>, k: nat, cfg: seq<Network>,
                                     list: seq<map<Name, IPAddress>>, f: Filled)
    requires k <= |ns| && NetworksOk(cfg) && NoTop(cfg) && Requested(cfg, ns) && Placed(cfg, ns, f.ips)
    requires k == |f.entries| && AllShown(cfg, ns, f.ips, f.entries) && f.ok
    ensures var g := Fill(ns[k..], cfg, list, f);
            AllShown(cfg, ns, g.ips, g.entries) && (g.ok <==> |g.entries| == |ns|)
    decreases |ns| - k
  {
    if k < |ns| {
      var n := ns[k];
      assert n in ns;
      FillNext(ns, k, cfg, list, f);
      var s := Lookup(cfg, n.name, n.subnet).value;
      var a := Choose(n, s, list, f.ips);
      if a.Assigned? {
        LookupSound(cfg, n.name, n.subnet);
        ChoiceSits(cfg, ns, k, list, f);
        ShownNext(cfg, ns, k, f, s, a.ip);
        FillShows(ns, k + 1, cfg, list, Added(f, n, s, a.ip));
      }
    }
  }

  /** In every run the status a reconcile writes shows, for the requested networks in their order,
      the reserved address and the default route if one is due; all of them if it succeeds. */
  lemma StatusTheorem(w: State, ss: seq<Step>, i: Name, list: seq<map<Name, IPAddress>>)
    requires w.ipsets == map[] && w.reservations == map[] && w.cfg.None? && Sound(ss)
    requires var n := Run(w, ss); i in n.ipsets && !n.ipsets[i].deleting && n.cfg.Some? && Patchable(n, i)
    ensures var n := Run(w, ss);
            var g := FilledFor(n, i, list);
            && AllShown(n.cfg.value, n.ipsets[i].networks, g.ips, g.entries)
            && (g.ok <==> |g.entries| == |n.ipsets[i].networks|)
  {
    OkRun(w, ss);
    var n := Run(w, ss);
    assert IPSetOk(n, i);
    var ns := n.ipsets[i].networks;
    assert ns[0..] == ns;
    FillShows(ns, 0, n.cfg.value, list, Filled(if i in n.reservations then n.reservations[i].ips else map[], [], true));
  }

  lemma RoutesAtMostOne(w: State, i: Name, list: seq<map<Name, IPAddress>>, bits: nat)
    requires Ok(w) && i in w.ipsets && !w.ipsets[i].deleting && w.cfg.Some? && Patchable(w, i)
    requires bits == 32 || bits == 128
    ensures Routes(FilledFor(w, i, list).entries, bits) <= 1
  {
    assert IPSetOk(w, i);
    var ns := w.ipsets[i].networks;
    assert ns[0..] == ns;
    RoutesBounded(ns, 0, w.cfg.value, list,
                  Filled(if i in w.reservations then w.reservations[i].ips else map[], [], true), bits);
  }

  /** In every run, the status a reconcile writes has at most one default route per family. */
  lemma DefaultRouteTheorem(w: State, ss: seq<Step>, i: Name, list: seq<map<Name, IPAddress>>, bits: nat)
    requires w.ipsets == map[] && w.reservations == map[] && w.cfg.None? && Sound(ss)
    requires var n := Run(w, ss); i in n.ipsets && !n.ipsets[i].deleting && n.cfg.Some? && Patchable(n, i)
    requires bits == 32 || bits == 128
    ensures Routes(FilledFor(Run(w, ss), i, list).entries, bits) <= 1
  {
    OkRun(w, ss);
    RoutesAtMostOne(Run(w, ss), i, list, bits);
  }
}
