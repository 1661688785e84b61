/** The operator and one volume together: pods start from the StatefulSet the reconciles leave. */
module Rollout {
  import opened ApiObjects
  import opened Versions
  import opened Upgrade
  import opened UpgradeSafety
  import V = Volume

  datatype Site = Site(cluster: Cluster, node: V.Node)

  datatype SiteEvent =
    | Operates(e: Event)
    | Boots                     // a pod of the current StatefulSet starts
    | Lives(p: V.PodEvent)      // anything else happens to the pod

  function Acts(s: Site, e: SiteEvent): Site {
    match e
    case Operates(x) => s.(cluster := Happens(s.cluster, x))
    case Boots =>
      if s.cluster.sts.None? then s else s.(node := V.Lives(s.node, V.Start(s.cluster.sts.value.wipe)))
    case Lives(x) => if x.Start? then s else s.(node := V.Lives(s.node, x))
  }

  function Course(s: Site, es: seq<SiteEvent>): Site
    decreases es
  {
    if es == [] then s else Course(Acts(s, es[0]), es[1..])
  }

  // ---------------------------------------------------------------- one wipe per volume and upgrade

  /** From the deletion for an upgrade to `v` on: every StatefulSet wipes for `v` or not at all. */
  ghost predicate Upgrading(c: Cluster, v: string) {
    && c.status.current.Some? && Settled(c) && Rank(c) <= 1 && ConfigVersion(c.spec, c.status) == v
    && (c.sts.Some? ==> c.sts.value.wipe.None? || c.sts.value.wipe == Some(v))
  }

  lemma UpgradeStarts(c: Cluster, f: Fate)
    requires c.status.current.Some? && c.status.phase.DeletingResources? && !c.reconfigured
    requires Reconciled(c, f).status.phase.WaitingForCluster?
    ensures Reconciled(c, f).sts.None? && Upgrading(Reconciled(c, f), ConfigVersion(c.spec, c.status))
  {
  }

  lemma UpgradeGoesOn(c: Cluster, f: Fate, v: string)
    requires Upgrading(c, v)
    ensures Upgrading(Reconciled(c, f), v)
  {
    RankFalls(c, f);
  }

  predicate Calm(e: SiteEvent, name: string) {
    match e
    case Operates(x) => !x.Updates?
    case Boots => true
    case Lives(x) => !V.Touches(x, name)
  }

  lemma {:induction false} CalmStep(s: Site, e: SiteEvent, v: string, name: string)
    requires Upgrading(s.cluster, v) && V.Wiped(s.node, v) && Calm(e, name) && name in s.node.files
    ensures var n := Acts(s, e);
            && Upgrading(n.cluster, v) && V.Wiped(n.node, v)
            && name in n.node.files && n.node.files[name] == s.node.files[name]
  {
    match e
    case Operates(x) =>
      if x.Reconciles? {
        UpgradeGoesOn(s.cluster, x.f, v);
      }
    case Boots =>
      if s.cluster.sts.Some? {
        V.WipedStep(s.node, V.Start(s.cluster.sts.value.wipe), v, name);
      }
    case Lives(x) =>
      if !x.Start? {
        V.WipedStep(s.node, x, v, name);
      }
  }

  /** Each volume is wiped at most once per upgrade: what is on it after the wipe for `v` survives
      all reconciles, failing or not, all crashes and all restarts while the spec stays. */
  lemma {:induction false} OneWipeTheorem(s: Site, es: seq<SiteEvent>, v: string, name: string)
    requires Upgrading(s.cluster, v) && V.Wiped(s.node, v) && name in s.node.files
    requires forall e :: e in es ==> Calm(e, name)
    ensures var n := Course(s, es);
            && Upgrading(n.cluster, v) && V.Wiped(n.node, v)
            && name in n.node.files && n.node.files[name] == s.node.files[name]
    decreases es
  {
    if es != [] {
      CalmStep(s, es[0], v, name);
      OneWipeTheorem(Acts(s, es[0]), es[1..], v, name);
    }
  }

  // ---------------------------------------------------------------- and not less than once

  /** A reconcile that finds all replicas ready finds this pod serving. */
  predicate Honest(s: Site, e: SiteEvent) {
    e.Operates? ==> !e.e.Updates? && (e.e.Reconciles? && e.e.f.ready ==> s.node.pod.Serving?)
  }

  predicate HonestCourse(s: Site, es: seq<SiteEvent>)
    decreases es
  {
    es != [] ==> Honest(s, es[0]) && HonestCourse(Acts(s, es[0]), es[1..])
  }

  /** While the cluster is waited for, no server is up on an unwiped volume; later the volume is wiped. */
  ghost predicate Wiping(s: Site, v: string) {
    && Upgrading(s.cluster, v) && VersionsValid(s.cluster) && WipeReady(s.cluster) && V.NodeOk(s.node)
    && if s.cluster.status.phase.WaitingForCluster?
       then (s.node.pod.Serving? ==> V.Wiped(s.node, v)) && (s.node.pod.Initialising? ==> s.node.pod.version == v)
       else V.Wiped(s.node, v)
  }

  lemma WaitEnds(c: Cluster, f: Fate)
    requires c.status.current.Some? && c.status.phase.WaitingForCluster? &&
             !Reconciled(c, f).status.phase.WaitingForCluster?
    ensures f.ready
  {
  }

  lemma StaysFinished(c: Cluster, f: Fate, v: string)
    requires Upgrading(c, v) && !c.status.phase.WaitingForCluster?
    ensures !Reconciled(c, f).status.phase.WaitingForCluster?
  {
  }

  lemma WipingOperates(s: Site, x: Event, v: string)
    requires Wiping(s, v) && Honest(s, Operates(x))
    ensures Wiping(Acts(s, Operates(x)), v)
  {
    if x.Reconciles? {
      UpgradeGoesOn(s.cluster, x.f, v);
      WipeStep(s.cluster, x.f);
      if !s.cluster.status.phase.WaitingForCluster? {
        StaysFinished(s.cluster, x.f, v);
      } else if !Reconciled(s.cluster, x.f).status.phase.WaitingForCluster? {
        WaitEnds(s.cluster, x.f);
      }
    }
  }

  lemma WipingPod(s: Site, x: V.PodEvent, v: string)
    requires Wiping(s, v)
    requires x.Start? ==> V.Under(x, v) && (s.cluster.status.phase.WaitingForCluster? ==> x.wipe == Some(v))
    ensures Wiping(s.(node := V.Lives(s.node, x)), v)
  {
    V.NodeStep(s.node, x);
    if !s.cluster.status.phase.WaitingForCluster? || s.node.pod.Serving? {
      V.WipedStep(s.node, x, v, "");
    } else if V.Lives(s.node, x).pod.Serving? {
      V.ServingMeansWiped(s.node, x, v);
    }
  }

  lemma WipingStep(s: Site, e: SiteEvent, v: string)
    requires Wiping(s, v) && Honest(s, e)
    ensures Wiping(Acts(s, e), v)
  {
    match e
    case Operates(x) => WipingOperates(s, x, v);
    case Boots =>
      if s.cluster.sts.Some? {
        WipingPod(s, V.Start(s.cluster.sts.value.wipe), v);
      }
    case Lives(x) =>
      if !x.Start? {
        WipingPod(s, x, v);
      }
  }

  /** Every server that comes up after the StatefulSet was deleted for `v` finds its volume wiped for `v`. */
  lemma {:induction false} WipeTheorem(s: Site, es: seq<SiteEvent>, v: string)
    requires Wiping(s, v) && HonestCourse(s, es)
    ensures Wiping(Course(s, es), v) && (Course(s, es).node.pod.Serving? ==> V.Wiped(Course(s, es).node, v))
    decreases es
  {
    if es != [] {
      WipingStep(s, es[0], v);
      WipeTheorem(Acts(s, es[0]), es[1..], v);
    }
  }

  /** The deletion for an upgrade starts such a course, once the old pod is down. */
  lemma WipingStarts(s: Site, f: Fate)
    requires VersionsValid(s.cluster) && s.cluster.status.current.Some? && s.cluster.status.phase.DeletingResources?
    requires !s.cluster.reconfigured && Reconciled(s.cluster, f).status.phase.WaitingForCluster?
    requires V.NodeOk(s.node) && s.node.pod.Down?
    ensures Wiping(Acts(s, Operates(Reconciles(f))), ConfigVersion(s.cluster.spec, s.cluster.status))
  {
    UpgradeStarts(s.cluster, f);
    WipeStep(s.cluster, f);
  }

  // ---------------------------------------------------------------- a patch bump

  /** A reconcile, and the pod restarted from what it wrote. */
  function Restart(f: Fate): seq<SiteEvent> {
    var go := Lives(V.Proceed);
    [Operates(Reconciles(f)), Boots, go, go, go, go]
  }

  function Pods(wipe: Option<string>): seq<V.PodEvent> {
    [V.Start(wipe), V.Proceed, V.Proceed, V.Proceed, V.Proceed]
  }

  lemma RestartRuns(s: Site, f: Fate)
    requires Reconciled(s.cluster, f).sts.Some?
    ensures Course(s, Restart(f)).node == V.Life(s.node, Pods(Reconciled(s.cluster, f).sts.value.wipe))
  {
    var es, ps := Restart(f), Pods(Reconciled(s.cluster, f).sts.value.wipe);
    var a := Acts(s, es[0]);
    var b := Acts(a, es[1]);
    var c := Acts(b, es[2]);
    var d := Acts(c, es[3]);
    var x := Acts(d, es[4]);
    assert Course(s, es) == Course(a, es[1..]) == Course(b, es[1..][1..]) == Course(c, es[1..][1..][1..]);
    assert es[1..][1..][1..] == [es[3], es[4], es[5]];
    assert Course(c, [es[3], es[4], es[5]]) == Course(d, [es[4], es[5]]) == Course(x, [es[5]]) == Acts(x, es[5]);
    assert V.Life(s.node, ps) == V.Life(b.node, ps[1..]) == V.Life(c.node, ps[1..][1..]) ==
           V.Life(d.node, ps[1..][1..][1..]);
    assert ps[1..][1..][1..] == [ps[3], ps[4]];
    assert V.Life(d.node, [ps[3], ps[4]]) == V.Life(x.node, [ps[4]]) == V.Lives(x.node, ps[4]);
  }

  /** A pod whose template has no new wipe keeps everything. */
  lemma KeepsFiles(x: V.Node, wipe: Option<string>)
    requires x.pod.Down? && (wipe.Some? ==> V.MarkerFor(wipe.value) in x.files)
    ensures V.Life(x, Pods(wipe)).files == x.files
  {
    var ps := Pods(wipe);
    var a := V.Lives(x, ps[0]);
    assert a == x.(pod := V.Serving) && V.Lives(a, V.Proceed) == a;
    assert V.Life(x, ps) == V.Life(a, ps[1..]) == V.Life(a, ps[1..][1..]) == V.Life(a, ps[1..][1..][1..]);
    assert ps[1..][1..][1..] == [V.Proceed, V.Proceed];
    assert V.Life(a, [V.Proceed, V.Proceed]) == V.Life(a, [V.Proceed]) == a;
  }

  /** A version change that asks for no wipe loses the data of a volume, at the next restart of its
      pod, exactly when the StatefulSet still has the wipe-data container for another version. */
  lemma PatchBumpLosesData(s: Site, f: Fate, name: string)
    requires VersionsValid(s.cluster) && s.cluster.status.current.Some? && !s.cluster.reconfigured
    requires s.cluster.status.phase.NoUpgrade? && WipeDue(s.cluster.spec, s.cluster.status) == Some(NoWipe)
    requires f.prepared && f.provided && f.written && f.peeked
    requires s.cluster.sts.Some? && s.node.pod.Down? && V.OneMarker(s.node.files)
    requires s.cluster.sts.value.wipe.Some? ==> V.MarkerFor(s.cluster.sts.value.wipe.value) in s.node.files
    requires name in s.node.files && V.Plain(name)
    ensures name !in Course(s, Restart(f)).node.files <==>
              var wipe := s.cluster.sts.value.wipe;
              wipe.Some? && wipe.value != ConfigVersion(s.cluster.spec, s.cluster.status)
  {
    var v := ConfigVersion(s.cluster.spec, s.cluster.status);
    var was := s.cluster.sts.value.wipe;
    var n := Reconciled(s.cluster, f);
    assert n.sts.Some? && n.sts.value.wipe == if was.Some? then Some(v) else None;
    RestartRuns(s, f);
    if was.Some? && was.value != v {
      V.OtherVersionWipes(s.node, was.value, v, name);
    } else {
      KeepsFiles(s.node, n.sts.value.wipe);
    }
  }
}
