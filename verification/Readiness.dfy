/** Readiness by counting: the error of an assignment is lost, and still a ready IPSet is complete. */
module Readiness {
  import opened ApiObjects
  import opened Addresses
  import opened Ipam
  import opened NetAdmission
  import opened Reservations

  lemma {:induction false} DistinctCount(s: seq<Name>)
    requires NoDup(s)
    ensures |Elements(s)| == |s|
  {
    if s != [] {
      var t, last := s[..|s| - 1], s[|s| - 1];
      assert NoDup(t) && last !in t;
      DistinctCount(t);
      assert Elements(s) == Elements(t) + {last};
    }
  }

  lemma {:induction false} SizeOfSubset(a: set<Name>, b: set<Name>)
    requires a <= b
    ensures |a| <= |b|
    decreases a
  {
    if x :| x in a {
      SizeOfSubset(a - {x}, b - {x});
    }
  }

  lemma SubsetOfSameSize(a: set<Name>, b: set<Name>)
    requires a <= b && |a| == |b|
    ensures a == b
  {
    if x :| x in b && x !in a {
      SizeOfSubset(a, b - {x});
    }
  }

  /** Only requested networks are reserved. */
  ghost predicate Keyed(ns: seq<IPSetNetwork>, ips: map<Name, IPAddress>) {
    forall net :: net in ips ==> net in RequestNames(ns)
  }

  /** Reserved names are requested names; if there are as many, every request is served. */
  lemma Complete(ns: seq<IPSetNetwork>, ips: map<Name, IPAddress>, n: IPSetNetwork)
    requires NoDup(RequestNames(ns)) && Keyed(ns, ips) && |ips| == |ns| && n in ns
    ensures n.name in ips
  {
    var names := Elements(RequestNames(ns));
    DistinctCount(RequestNames(ns));
    assert |ips.Keys| == |ips| && ips.Keys <= names;
    SubsetOfSameSize(ips.Keys, names);
    var k :| 0 <= k < |ns| && ns[k] == n;
    assert RequestNames(ns)[k] == n.name;
  }

  // ---------------------------------------------------------------- the invariant

  ghost predicate IPSetKeyed(w: State, i: Name)
    requires i in w.ipsets
  {
    !w.ipsets[i].deleting ==>
      && NoDup(RequestNames(w.ipsets[i].networks))
      && (i in w.reservations && w.reservations[i].owner == w.ipsets[i].uid ==>
            Keyed(w.ipsets[i].networks, w.reservations[i].ips))
  }

  ghost predicate AllKeyed(w: State) {
    && (forall i :: i in w.reservations ==> w.reservations[i].owner < w.nextUid)
    && (forall i :: i in w.ipsets ==> w.ipsets[i].uid < w.nextUid && IPSetKeyed(w, i))
  }

  lemma FillKeyed(ns: seq<IPSetNetwork>, cfg: seq<Network>, list: seq<map<Name, IPAddress>>, ips: map<Name, IPAddress>)
    requires Keyed(ns, ips)
    ensures Keyed(ns, Fill(ns, cfg, list, Filled(ips, [], true)).ips)
  {
    var g := Fill(ns, cfg, list, Filled(ips, [], true)).ips;
    FillGrows(ns, cfg, list, Filled(ips, [], true));
    forall net | net in g
      ensures net in RequestNames(ns)
    {
      if net !in ips {
        assert Fresh(ns, cfg, list, net, g[net]);
        var k :| 0 <= k < |ns| && ns[k].name == net;
        assert RequestNames(ns)[k] == net;
      }
    }
  }

  lemma ChangeKeyed(ns: seq<IPSetNetwork>, before: seq<IPSetNetwork>, ips: map<Name, IPAddress>)
    requires Keyed(before, ips) && forall o :: o in before ==> EntryKept(ns, o)
    ensures Keyed(ns, ips)
  {
    forall net | net in ips
      ensures net in RequestNames(ns)
    {
      var k :| 0 <= k < |before| && RequestNames(before)[k] == net;
      assert before[k] in before && EntryKept(ns, before[k]);
      assert RequestNames(ns)[RequestIndex(ns, net)] == net;
    }
  }

  lemma IPSetKeyedStep(w: State, s: Step, i: Name)
    requires AllKeyed(w) && (s.CreateIPSet? || s.UpdateIPSet?) && i in Happens(w, s).ipsets
    ensures IPSetKeyed(Happens(w, s), i)
  {
    assert i in w.ipsets ==> IPSetKeyed(w, i);
    if s.i == i && i in w.ipsets && s.UpdateIPSet? && ChangeAdmitted(w, i, s.networks) && !w.ipsets[i].deleting
       && i in w.reservations && w.reservations[i].owner == w.ipsets[i].uid {
      ChangeKeyed(s.networks, w.ipsets[i].networks, w.reservations[i].ips);
    }
  }

  lemma ReconcileKeyedStep(w: State, s: Step, i: Name)
    requires AllKeyed(w) && !s.CreateIPSet? && !s.UpdateIPSet? && i in Happens(w, s).ipsets
    ensures IPSetKeyed(Happens(w, s), i)
  {
    assert IPSetKeyed(w, i);
    if s.Reconcile? && s.i == i && w.cfg.Some? && !w.ipsets[i].deleting && Patchable(w, i) {
      FillKeyed(w.ipsets[i].networks, w.cfg.value, s.list,
                if i in w.reservations then w.reservations[i].ips else map[]);
    }
  }

  lemma KeyedStep(w: State, s: Step)
    requires AllKeyed(w)
    ensures AllKeyed(Happens(w, s))
  {
    forall i | i in Happens(w, s).ipsets
      ensures IPSetKeyed(Happens(w, s), i)
    {
      if s.CreateIPSet? || s.UpdateIPSet? {
        IPSetKeyedStep(w, s, i);
      } else {
        ReconcileKeyedStep(w, s, i);
      }
    }
  }

  lemma {:induction false} KeyedRun(w: State, ss: seq<Step>)
    requires AllKeyed(w)
    ensures AllKeyed(Run(w, ss))
    decreases ss
  {
    if ss != [] {
      KeyedStep(w, ss[0]);
      KeyedRun(Happens(w, ss[0]), ss[1..]);
    }
  }

  // ---------------------------------------------------------------- readiness

  /** The reconcile reports the reservation as ready: the patch worked and the counts agree.
      An error of the assignment itself has been overwritten by the result of the patch. */
  ghost predicate ReportsReady(w: State, i: Name, list: seq<map<Name, IPAddress>>, lands: bool) {
    && i in w.ipsets && !w.ipsets[i].deleting && w.cfg.Some? && Lists(list, w.reservations)
    && lands && Patchable(w, i)
    && |FilledFor(w, i, list).ips| == |w.ipsets[i].networks|
  }

  lemma StoredAsFilled(w: State, i: Name, list: seq<map<Name, IPAddress>>)
    requires i in w.ipsets && !w.ipsets[i].deleting && w.cfg.Some? && Lists(list, w.reservations) && Patchable(w, i)
    ensures var m := Happens(w, Reconcile(i, list, true));
            i in m.reservations && m.reservations[i].ips == FilledFor(w, i, list).ips
  {
  }

  /** In every run, a reconcile reports ready only when each requested network has an address. */
  lemma ReadinessTheorem(w: State, ss: seq<Step>, i: Name, list: seq<map<Name, IPAddress>>, lands: bool,
                         n: IPSetNetwork)
    requires w.ipsets == map[] && w.reservations == map[]
    requires ReportsReady(Run(w, ss), i, list, lands) && n in Run(w, ss).ipsets[i].networks
    ensures var m := Happens(Run(w, ss), Reconcile(i, list, lands));
            i in m.reservations && n.name in m.reservations[i].ips
  {
    KeyedRun(w, ss);
    var m := Run(w, ss);
    assert IPSetKeyed(m, i);
    FillKeyed(m.ipsets[i].networks, m.cfg.value, list, if i in m.reservations then m.reservations[i].ips else map[]);
    Complete(m.ipsets[i].networks, FilledFor(m, i, list).ips, n);
    StoredAsFilled(m, i, list);
  }
}
