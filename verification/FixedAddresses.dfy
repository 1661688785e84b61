/** A requested fixed address is the one that gets reserved. */
module FixedAddresses {
  import opened ApiObjects
  import opened Addresses
  import opened Ipam
  import opened NetAdmission
  import opened Reservations
  import opened Readiness

  /** Every reserved network whose request has a fixed address holds that address. */
  ghost predicate Honours(ns: seq<IPSetNetwork>, ips: map<Name, IPAddress>) {
    forall n :: n in ns && n.name in ips && n.fixed.Some? ==> ips[n.name].address == n.fixed.value
  }

  ghost predicate IPSetHonoured(w: State, i: Name)
    requires i in w.ipsets
  {
    !w.ipsets[i].deleting && i in w.reservations && w.reservations[i].owner == w.ipsets[i].uid ==>
      Honours(w.ipsets[i].networks, w.reservations[i].ips)
  }

  ghost predicate AllHonoured(w: State) {
    forall i :: i in w.ipsets ==> IPSetHonoured(w, i)
  }

  lemma FreshHonours(ns: seq<IPSetNetwork>, cfg: seq<Network>, list: seq<map<Name, IPAddress>>, n: IPSetNetwork,
                     ip: IPAddress)
    requires NoDup(RequestNames(ns)) && n in ns && n.fixed.Some? && Fresh(ns, cfg, list, n.name, ip)
    ensures ip.address == n.fixed.value
  {
    var k :| 0 <= k < |ns| && ns[k].name == n.name && Lookup(cfg, n.name, ns[k].subnet).Some?
             && ip.subnet == ns[k].subnet && ip.address !in ReservedFor(list, n.name)
             && Choose(ns[k], Lookup(cfg, n.name, ns[k].subnet).value, list, map[]) == Assigned(ip.address);
    var m :| 0 <= m < |ns| && ns[m] == n;
    assert RequestNames(ns)[k] == RequestNames(ns)[m];
    var s := Lookup(cfg, n.name, ns[k].subnet).value;
    FixedExactly(n.name, s.ranges, s.excludes, list, n.fixed.value);
  }

  lemma FillHonours(ns: seq<IPSetNetwork>, cfg: seq<Network>, list: seq<map<Name, IPAddress>>,
                    ips: map<Name, IPAddress>)
    requires NoDup(RequestNames(ns)) && Honours(ns, ips)
    ensures Honours(ns, Fill(ns, cfg, list, Filled(ips, [], true)).ips)
  {
    var g := Fill(ns, cfg, list, Filled(ips, [], true)).ips;
    FillGrows(ns, cfg, list, Filled(ips, [], true));
    forall n | n in ns && n.name in g && n.fixed.Some?
      ensures g[n.name].address == n.fixed.value
    {
      if n.name !in ips {
        FreshHonours(ns, cfg, list, n, g[n.name]);
      }
    }
  }

  /** An admitted change keeps the fixed addresses of the requests it keeps. */
  lemma ChangeHonours(ns: seq<IPSetNetwork>, before: seq<IPSetNetwork>, ips: map<Name, IPAddress>)
    requires NoDup(RequestNames(ns)) && Keyed(before, ips) && Honours(before, ips)
    requires forall o :: o in before ==> EntryKept(ns, o)
    ensures Honours(ns, ips)
  {
    forall n | n in ns && n.name in ips && n.fixed.Some?
      ensures ips[n.name].address == n.fixed.value
    {
      var k :| 0 <= k < |before| && RequestNames(before)[k] == n.name;
      assert before[k] in before && EntryKept(ns, before[k]);
      var m :| 0 <= m < |ns| && ns[m] == n;
      assert RequestNames(ns)[m] == RequestNames(ns)[RequestIndex(ns, n.name)];
    }
  }

  lemma UpdateHonours(w: State, s: Step, i: Name)
    requires AllKeyed(w) && AllHonoured(w) && (s.CreateIPSet? || s.UpdateIPSet?) && i in Happens(w, s).ipsets
    ensures IPSetHonoured(Happens(w, s), i)
  {
    assert i in w.ipsets ==> IPSetHonoured(w, i) && IPSetKeyed(w, i);
    KeyedStep(w, s);
    assert IPSetKeyed(Happens(w, s), i);
    if s.i == i && i in w.ipsets && s.UpdateIPSet? && ChangeAdmitted(w, i, s.networks) && !w.ipsets[i].deleting
       && i in w.reservations && w.reservations[i].owner == w.ipsets[i].uid {
      ChangeHonours(s.networks, w.ipsets[i].networks, w.reservations[i].ips);
    }
  }

  lemma ReconcileHonours(w: State, s: Step, i: Name)
    requires AllKeyed(w) && AllHonoured(w) && !s.CreateIPSet? && !s.UpdateIPSet? && i in Happens(w, s).ipsets
    ensures IPSetHonoured(Happens(w, s), i)
  {
    assert IPSetHonoured(w, i) && IPSetKeyed(w, i);
    if s.Reconcile? && s.i == i && w.cfg.Some? && !w.ipsets[i].deleting && Patchable(w, i) {
      FillHonours(w.ipsets[i].networks, w.cfg.value, s.list,
                  if i in w.reservations then w.reservations[i].ips else map[]);
    }
  }

  lemma {:induction false} HonouredRun(w: State, ss: seq<Step>)
    requires AllKeyed(w) && AllHonoured(w)
    ensures AllKeyed(Run(w, ss)) && AllHonoured(Run(w, ss))
    decreases ss
  {
    if ss != [] {
      var n := Happens(w, ss[0]);
      KeyedStep(w, ss[0]);
      forall i | i in n.ipsets
        ensures IPSetHonoured(n, i)
      {
        if ss[0].CreateIPSet? || ss[0].UpdateIPSet? {
          UpdateHonours(w, ss[0], i);
        } else {
          ReconcileHonours(w, ss[0], i);
        }
      }
      HonouredRun(n, ss[1..]);
    }
  }

  /** In every run, what a live IPSet has reserved in a network for which it asks a fixed address is
      that address. */
  lemma FixedTheorem(w: State, ss: seq<Step>, i: Name, n: IPSetNetwork)
    requires w.ipsets == map[] && w.reservations == map[]
    requires var m := Run(w, ss);
             && i in m.ipsets && Holds(m, i, m.ipsets[i].uid) && !m.ipsets[i].deleting
             && n in m.ipsets[i].networks && n.fixed.Some? && n.name in m.reservations[i].ips
    ensures Run(w, ss).reservations[i].ips[n.name].address == n.fixed.value
  {
    HonouredRun(w, ss);
    assert IPSetHonoured(Run(w, ss), i);
  }

  /** Some Reservation holds this address in this network. */
  ghost predicate Taken(rs: map<Name, Reservation>, net: Name, a: Addr) {
    exists j :: j in rs && net in rs[j].ips && rs[j].ips[net].address == a
  }

  lemma ReservedIsTaken(list: seq<map<Name, IPAddress>>, rs: map<Name, Reservation>, net: Name, a: Addr)
    requires Lists(list, rs)
    ensures a in ReservedFor(list, net) <==> Taken(rs, net, a)
  {
    if a in ReservedFor(list, net) {
      var m: map<Name, IPAddress> :| m in list && net in m && m[net].address == a;
      var j :| j in rs && rs[j].ips == m;
    }
  }

  /** A new request for a fixed address is refused exactly when the address is excluded in its subnet
      or some Reservation already holds it in that network. */
  lemma RefusedExactly(rs: map<Name, Reservation>, list: seq<map<Name, IPAddress>>, n: IPSetNetwork, s: Subnet,
                       ips: map<Name, IPAddress>)
    requires Lists(list, rs) && n.fixed.Some? && !n.fixed.value.Bad? && n.name !in ips
    requires Bad !in s.excludes && !Taken(rs, n.name, Bad)
    ensures var r := Choose(n, s, list, ips);
            if n.fixed.value in s.excludes || Taken(rs, n.name, n.fixed.value) then r.Refused?
            else r == Assigned(n.fixed.value)
  {
    ReservedIsTaken(list, rs, n.name, Bad);
    ReservedIsTaken(list, rs, n.name, n.fixed.value);
    FixedExactly(n.name, s.ranges, s.excludes, list, n.fixed.value);
  }
}
