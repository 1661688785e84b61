/** IPSets, their Reservations and one NetConfig: admitted changes and serialised reconciles. */
module Reservations {
  import opened ApiObjects
  import opened Addresses
  import opened Ipam
  import opened NetAdmission

  datatype IPSet = IPSet(uid: nat, networks: seq<IPSetNetwork>, immutable: bool, deleting: bool)

  /** owner: the uid in the controller reference; held: the IPSet controller's finalizer. */
  datatype Reservation = Reservation(owner: nat, ips: map<Name, IPAddress>, held: bool)

  datatype State = State(
    cfg: Option<seq<Network>>,
    ipsets: map<Name, IPSet>,
    reservations: map<Name, Reservation>,
    nextUid: nat)

  // ---------------------------------------------------------------- ensureReservation

  /** One line of the IPSet status; route: the family, in bits, of an appended default route. */
  datatype Entry = Entry(network: Name, subnet: Name, address: Addr, route: Option<nat>)

  datatype Filled = Filled(ips: map<Name, IPAddress>, entries: seq<Entry>, ok: bool)

  function EntryFor(n: IPSetNetwork, s: Subnet, a: Addr): Entry {
    Entry(n.name, s.name, a, if WantsRoute(n) && s.gateway.Some? then Some(if a.V6? then 128 else 32) else None)
  }

  function Wanted(n: IPSetNetwork): Addr {
    if n.fixed.Some? then n.fixed.value else Bad
  }

  /** The address of one requested network: the one it already has, or a new one. */
  function Choose(n: IPSetNetwork, s: Subnet, list: seq<map<Name, IPAddress>>, ips: map<Name, IPAddress>): Assignment {
    if n.name in ips then Assigned(ips[n.name].address)
    else if n.fixed == Some(Bad) then Refused(BadExclude)
    else Assign(n.name, s.ranges, s.excludes, list, Wanted(n))
  }

  /** The loop over the requested networks; the first failure ends it. */
  function Fill(ns: seq<IPSetNetwork>, cfg: seq<Network>, list: seq<map<Name, IPAddress>>, f: Filled): Filled
    decreases ns
  {
    if ns == [] then f
    else
      var n := ns[0];
      var s := Lookup(cfg, n.name, n.subnet);
      if s.None? then f.(ok := false)
      else
        var a := Choose(n, s.value, list, f.ips);
        if a.Refused? then f.(ok := false)
        else Fill(ns[1..], cfg, list, Added(f, n, s.value, a.ip))
  }

  function Added(f: Filled, n: IPSetNetwork, s: Subnet, a: Addr): Filled {
    f.(ips := if n.name in f.ips then f.ips else f.ips[n.name := IPAddress(n.name, s.name, a)],
       entries := f.entries + [EntryFor(n, s, a)])
  }

  method EnsureReservation(ns: seq<IPSetNetwork>, cfg: seq<Network>, list: seq<map<Name, IPAddress>>,
                           existing: map<Name, IPAddress>)
    returns (ips: map<Name, IPAddress>, entries: seq<Entry>, ok: bool)
    ensures Filled(ips, entries, ok) == Fill(ns, cfg, list, Filled(existing, [], true))
  {
    ips, entries, ok := existing, [], true;
    for i := 0 to |ns|
      invariant ok
      invariant Fill(ns, cfg, list, Filled(existing, [], true)) == Fill(ns[i..], cfg, list, Filled(ips, entries, true))
    {
      var n := ns[i];
      assert ns[i..][1..] == ns[i + 1..];
      var s := Lookup(cfg, n.name, n.subnet);
      if s.None? {
        return ips, entries, false;
      }
      var address: Addr;
      if n.name in ips {
        address := ips[n.name].address;
      } else {
        if n.fixed == Some(Bad) {
          return ips, entries, false;
        }
        var details := new AssignIPDetails(n.name, s.value.ranges, s.value.excludes, list, Wanted(n));
        var r := details.AssignIP();
        if r.Refused? {
          return ips, entries, false;
        }
        address := r.ip;
        ips := ips[n.name := IPAddress(n.name, s.value.name, address)];
      }
      entries := entries + [EntryFor(n, s.value, address)];
    }
    assert ns[|ns|..] == [];
  }

  // ---------------------------------------------------------------- steps

  datatype Step =
    | CreateConfig(ns: seq<Network>)
    | UpdateConfig(ns: seq<Network>)
    | DeleteConfig
    | CreateIPSet(i: Name, networks: seq<IPSetNetwork>, immutable: bool)
    | UpdateIPSet(i: Name, networks: seq<IPSetNetwork>, immutable: bool)
    | DeleteIPSet(i: Name)
    | Reconcile(i: Name, list: seq<map<Name, IPAddress>>, lands: bool)
    | ReconcileDelete(i: Name, unheld: bool, lands: bool)
    | Collect(i: Name)

  /** A fresh list call returns every Reservation, in any order. */
  ghost predicate Lists(list: seq<map<Name, IPAddress>>, rs: map<Name, Reservation>) {
    && (forall m :: m in list ==> exists i :: i in rs && rs[i].ips == m)
    && (forall i :: i in rs ==> rs[i].ips in list)
  }

  ghost predicate ConfigAdmitted(w: State, ns: seq<Network>) {
    && NetworksOk(ns)
    && (w.cfg.Some? && w.ipsets != map[] ==> forall n :: n in w.cfg.value ==> NetworkKept(ns, n))
  }

  ghost predicate ChangeAdmitted(w: State, i: Name, networks: seq<IPSetNetwork>)
    requires i in w.ipsets
  {
    var x := w.ipsets[i];
    && (x.immutable ==> networks == x.networks)
    && (!x.deleting ==>
          w.cfg.Some? && RequestOk(networks, w.cfg.value) && forall o :: o in x.networks ==> EntryKept(networks, o))
  }

  function FilledFor(w: State, i: Name, list: seq<map<Name, IPAddress>>): Filled
    requires i in w.ipsets && w.cfg.Some?
  {
    Fill(w.ipsets[i].networks, w.cfg.value, list,
         Filled(if i in w.reservations then w.reservations[i].ips else map[], [], true))
  }

  /** The deferred patch: it is refused when another object controls the Reservation. */
  predicate Patchable(w: State, i: Name)
    requires i in w.ipsets
  {
    i in w.reservations ==> w.reservations[i].owner == w.ipsets[i].uid
  }

  /** Some live object still owns this Reservation. */
  ghost predicate Owned(w: State, i: Name)
    requires i in w.reservations
  {
    exists j :: j in w.ipsets && w.ipsets[j].uid == w.reservations[i].owner
  }

  ghost function Happens(w: State, s: Step): State {
    match s
    case CreateConfig(ns) => if w.cfg.None? && NetworksOk(ns) then w.(cfg := Some(ns)) else w
    case UpdateConfig(ns) => if w.cfg.Some? && ConfigAdmitted(w, ns) then w.(cfg := Some(ns)) else w
    case DeleteConfig => if w.ipsets == map[] then w.(cfg := None) else w
    case CreateIPSet(i, networks, immutable) =>
      if i in w.ipsets || w.cfg.None? || !RequestOk(networks, w.cfg.value) then w
      else w.(ipsets := w.ipsets[i := IPSet(w.nextUid, networks, immutable, false)], nextUid := w.nextUid + 1)
    case UpdateIPSet(i, networks, immutable) =>
      if i !in w.ipsets || !ChangeAdmitted(w, i, networks) then w
      else w.(ipsets := w.ipsets[i := w.ipsets[i].(networks := networks, immutable := immutable)])
    case DeleteIPSet(i) =>
      if i in w.ipsets then w.(ipsets := w.ipsets[i := w.ipsets[i].(deleting := true)]) else w
    case Reconcile(i, list, lands) =>
      if i !in w.ipsets || w.ipsets[i].deleting || w.cfg.None? || !Lists(list, w.reservations) then w
      else if !lands || !Patchable(w, i) then w
      else w.(reservations := w.reservations[i := Reservation(w.ipsets[i].uid, FilledFor(w, i, list).ips, true)])
    case ReconcileDelete(i, unheld, lands) =>
      if i !in w.ipsets || !w.ipsets[i].deleting || !unheld then w
      else
        var rs := if i in w.reservations then w.reservations[i := w.reservations[i].(held := false)]
                  else w.reservations;
        w.(reservations := rs, ipsets := if lands then w.ipsets - {i} else w.ipsets)
    case Collect(i) =>
      if i in w.reservations && !w.reservations[i].held && !Owned(w, i) then w.(reservations := w.reservations - {i})
      else w
  }

  ghost function Run(w: State, ss: seq<Step>): State
    decreases ss
  {
    if ss == [] then w else Run(Happens(w, ss[0]), ss[1..])
  }

  // ---------------------------------------------------------------- what Fill adds

  ghost predicate Grows(a: map<Name, IPAddress>, b: map<Name, IPAddress>) {
    forall net :: net in a ==> net in b && b[net] == a[net]
  }

  /** A new entry belongs to a requested network and avoids everything reserved under it. */
  ghost predicate Fresh(ns: seq<IPSetNetwork>, cfg: seq<Network>, list: seq<map<Name, IPAddress>>, net: Name,
                        ip: IPAddress) {
    exists k :: 0 <= k < |ns| && ns[k].name == net && Lookup(cfg, net, ns[k].subnet).Some?
      && ip.subnet == ns[k].subnet && ip.address !in ReservedFor(list, net)
      && Choose(ns[k], Lookup(cfg, net, ns[k].subnet).value, list, map[]) == Assigned(ip.address)
  }

  lemma AssignAvoids(net: Name, ranges: seq<Range>, excludes: seq<Addr>, list: seq<map<Name, IPAddress>>, fixed: Addr)
    requires Assign(net, ranges, excludes, list, fixed).Assigned?
    ensures Assign(net, ranges, excludes, list, fixed).ip !in ReservedFor(list, net)
  {
    if fixed.Bad? {
      FirstFitAvoids(ranges, Elements(excludes), ReservedFor(list, net));
    }
  }

  lemma {:induction false} FirstFitAvoids(ranges: seq<Range>, excluded: set<Addr>, reserved: set<Addr>)
    requires FirstFit(ranges, excluded, reserved).Assigned?
    ensures FirstFit(ranges, excluded, reserved).ip !in reserved
  {
    WalkAvoids(ranges[0].start, ranges[0].end, excluded, reserved);
    if Walk(ranges[0].start, ranges[0].end, excluded, reserved).None? {
      FirstFitAvoids(ranges[1..], excluded, reserved);
    }
  }

  lemma {:induction false} WalkAvoids(ip: Addr, end: Addr, excluded: set<Addr>, reserved: set<Addr>)
    ensures Walk(ip, end, excluded, reserved).Some? ==> Walk(ip, end, excluded, reserved).value !in reserved
    decreases Room(ip), if ip.Bad? then 0 else 1
  {
    if Leq(ip, end) && !Free(ip, excluded, reserved) && !ip.Bad? {
      WalkAvoids(Next(ip), end, excluded, reserved);
    }
  }

  lemma {:induction false} FillGrows(ns: seq<IPSetNetwork>, cfg: seq<Network>, list: seq<map<Name, IPAddress>>,
                                     f: Filled)
    ensures var g := Fill(ns, cfg, list, f);
            && Grows(f.ips, g.ips)
            && forall net :: net in g.ips && net !in f.ips ==> Fresh(ns, cfg, list, net, g.ips[net])
    decreases ns
  {
    if ns != [] {
      var n := ns[0];
      var s := Lookup(cfg, n.name, n.subnet);
      if s.Some? {
        var a := Choose(n, s.value, list, f.ips);
        if a.Assigned? {
          var h := Added(f, n, s.value, a.ip);
          FillGrows(ns[1..], cfg, list, h);
          var g := Fill(ns, cfg, list, f);
          forall net | net in g.ips && net !in f.ips
            ensures Fresh(ns, cfg, list, net, g.ips[net])
          {
            if net == n.name {
              AssignAvoids(net, s.value.ranges, s.value.excludes, list, Wanted(n));
              assert ns[0].name == net;
            } else {
              FreshLater(ns, cfg, list, net, g.ips[net]);
            }
          }
        }
      }
    }
  }

  lemma FreshLater(ns: seq<IPSetNetwork>, cfg: seq<Network>, list: seq<map<Name, IPAddress>>, net: Name, ip: IPAddress)
    requires ns != [] && Fresh(ns[1..], cfg, list, net, ip)
    ensures Fresh(ns, cfg, list, net, ip)
  {
  }

  // ---------------------------------------------------------------- uniqueness and stability

  /** No two Reservations hold the same address under the same network name. */
  ghost predicate Unique(rs: map<Name, Reservation>) {
    forall i, j, net :: i in rs && j in rs && i != j && net in rs[i].ips && net in rs[j].ips ==>
      rs[i].ips[net].address != rs[j].ips[net].address
  }

  lemma ReservedForOthers(list: seq<map<Name, IPAddress>>, rs: map<Name, Reservation>, j: Name, net: Name)
    requires Lists(list, rs) && j in rs && net in rs[j].ips
    ensures rs[j].ips[net].address in ReservedFor(list, net)
  {
  }

  lemma UniqueStep(w: State, s: Step)
    requires Unique(w.reservations)
    ensures Unique(Happens(w, s).reservations)
  {
    var n := Happens(w, s);
    if s.Reconcile? && n != w {
      var f := Filled(if s.i in w.reservations then w.reservations[s.i].ips else map[], [], true);
      FillGrows(w.ipsets[s.i].networks, w.cfg.value, s.list, f);
      forall j, net | j in w.reservations && j != s.i && net in w.reservations[j].ips && net in n.reservations[s.i].ips
        ensures w.reservations[j].ips[net].address != n.reservations[s.i].ips[net].address
      {
        ReservedForOthers(s.list, w.reservations, j, net);
        if net !in f.ips {
          assert Fresh(w.ipsets[s.i].networks, w.cfg.value, s.list, net, n.reservations[s.i].ips[net]);
        }
      }
    }
  }

  lemma {:induction false} UniquenessTheorem(w: State, ss: seq<Step>)
    requires Unique(w.reservations)
    ensures Unique(Run(w, ss).reservations)
    decreases ss
  {
    if ss != [] {
      UniqueStep(w, ss[0]);
      UniquenessTheorem(Happens(w, ss[0]), ss[1..]);
    }
  }

  /** Reservation of the IPSet object `uid` called `i`. */
  predicate Holds(w: State, i: Name, uid: nat) {
    i in w.ipsets && w.ipsets[i].uid == uid && i in w.reservations && w.reservations[i].owner == uid
  }

  lemma StableStep(w: State, s: Step, i: Name, uid: nat)
    requires Holds(w, i, uid)
    requires i in Happens(w, s).ipsets && Happens(w, s).ipsets[i].uid == uid
    ensures Holds(Happens(w, s), i, uid)
    ensures Grows(w.reservations[i].ips, Happens(w, s).reservations[i].ips)
  {
    if s.Reconcile? && s.i == i && Happens(w, s) != w {
      FillGrows(w.ipsets[i].networks, w.cfg.value, s.list, Filled(w.reservations[i].ips, [], true));
    }
  }

  /** The IPSet object exists in every state of the run. */
  ghost predicate Lives(w: State, ss: seq<Step>, i: Name, uid: nat)
    decreases ss
  {
    i in w.ipsets && w.ipsets[i].uid == uid && (ss != [] ==> Lives(Happens(w, ss[0]), ss[1..], i, uid))
  }

  /** An assigned address never changes while its IPSet lives. */
  lemma {:induction false} StabilityTheorem(w: State, ss: seq<Step>, i: Name, uid: nat)
    requires Holds(w, i, uid) && Lives(w, ss, i, uid)
    ensures Holds(Run(w, ss), i, uid) && Grows(w.reservations[i].ips, Run(w, ss).reservations[i].ips)
    decreases ss
  {
    if ss != [] {
      StableStep(w, ss[0], i, uid);
      StabilityTheorem(Happens(w, ss[0]), ss[1..], i, uid);
    }
  }
}
