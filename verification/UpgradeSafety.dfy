/** What every run of admitted spec changes and failing reconciles keeps. */
module UpgradeSafety {
  import opened ApiObjects
  import opened Texts
  import opened Versions
  import opened Upgrade

  // ---------------------------------------------------------------- admission

  datatype VersionError = BadCurrent | BadTarget | Downgrade

  /** The version a new target is compared with: the running one, else the old target. */
  function Baseline(c: Cluster): Option<string> {
    if c.status.current.Some? then c.status.current else c.spec.target
  }

  function ValidateVersionChange(c: Cluster, s: Spec): (errors: seq<VersionError>)
    ensures errors == [] <==>
              (s.target.Some? && Baseline(c).Some? ==>
                 Parse(Baseline(c).value).Some? && AtMost(Baseline(c).value, s.target.value))
  {
    if s.target.None? || Baseline(c).None? then []
    else
      var current, target := Parse(Baseline(c).value), Parse(s.target.value);
      if current.None? then [BadCurrent]
      else if target.None? then [BadTarget]
      else if Below(target.value, current.value) then [Downgrade]
      else []
  }

  /** Mirrored queues do not exist from RabbitMQ 4 on. */
  predicate QueueTypeAllowed(s: Spec) {
    !(s.queueType == Some(Mirrored) && s.target.Some? && IsVersion4OrLater(s.target.value))
  }

  lemma MirroredExactly(s: Spec, w: Version)
    requires InRange(w) && s.target == Some(Show(w)) && s.queueType == Some(Mirrored)
    ensures QueueTypeAllowed(s) <==> w.major < 4
  {
    ParseShow(w);
  }

  function Forced(s: Spec): (r: Spec)
    ensures QueueTypeAllowed(r) && r.target == s.target
    ensures QueueTypeAllowed(s) ==> r == s
  {
    if QueueTypeAllowed(s) then s else s.(queueType := Some(Quorum))
  }

  /** The defaulting webhook on an update: an unset queue type is taken from the existing CR. */
  function Defaulted(c: Cluster, s: Spec): (r: Spec)
    ensures r.queueType.Some? && QueueTypeAllowed(r) && r.target == s.target
    ensures s.queueType.Some? && QueueTypeAllowed(s) ==> r == s
    ensures s.queueType.None? && r.queueType == Some(Mirrored) ==>
              c.spec.queueType != Some(Quorum) && (c.spec.queueType.None? ==> c.status.queueType != Some(Quorum))
    ensures r.queueType == Some(Quorum) ==>
              || s.queueType == Some(Quorum)
              || (s.queueType.None? && (c.spec.queueType == Some(Quorum) || c.status.queueType == Some(Quorum)))
              || (s.target.Some? && IsVersion4OrLater(s.target.value))
  {
    var q := if s.queueType.Some? then s.queueType
             else if c.spec.queueType.Some? then c.spec.queueType
             else if c.status.queueType.Some? then c.status.queueType
             else Some(Mirrored);
    Forced(s.(queueType := q))
  }

  predicate Admits(c: Cluster, s: Spec) {
    && (s.target.Some? ==> ValidVersion(s.target.value))
    && QueueTypeAllowed(s)
    && ValidateVersionChange(c, s) == []
  }

  // ---------------------------------------------------------------- runs

  datatype Event = Reconciles(f: Fate) | Updates(s: Spec) | Annotates

  function Happens(c: Cluster, e: Event): Cluster {
    match e
    case Reconciles(f) => Reconciled(c, f)
    case Updates(s) => if Admits(c, Defaulted(c, s)) then c.(spec := Defaulted(c, s)) else c
    case Annotates => c.(reconfigured := true)
  }

  function Run(c: Cluster, es: seq<Event>): Cluster
    decreases es
  {
    if es == [] then c else Run(Happens(c, es[0]), es[1..])
  }

  // ---------------------------------------------------------------- version monotonicity

  ghost predicate Ordered(c: Cluster) {
    c.status.current.Some? && c.spec.target.Some? ==> AtMost(c.status.current.value, c.spec.target.value)
  }

  predicate Upward(c: Cluster, n: Cluster) {
    c.status.current.Some? ==> n.status.current.Some? && AtMost(c.status.current.value, n.status.current.value)
  }

  /** The version written for a cluster taken over from the old operator must not exceed the target. */
  predicate AdoptionOk(c: Cluster) {
    c.status.current.None? && c.sts.Some? && c.spec.target.Some? ==> AtMost(ADOPTED_VERSION, c.spec.target.value)
  }

  lemma CurrentAfter(c: Cluster, f: Fate)
    requires c.status.current.Some?
    ensures var n := Reconciled(c, f);
            n.status.current == c.status.current || (n.status.current == c.spec.target && c.spec.target.Some?)
    ensures Reconciled(c, f).spec == c.spec
  {
  }

  lemma OrderedStep(c: Cluster, e: Event)
    requires Ordered(c) && AdoptionOk(c)
    ensures Ordered(Happens(c, e)) && Upward(c, Happens(c, e))
  {
    match e
    case Reconciles(f) =>
      if c.status.current.Some? {
        CurrentAfter(c, f);
      }
    case Updates(s) =>
    case Annotates =>
  }

  ghost predicate AdoptionOkRun(c: Cluster, es: seq<Event>)
    decreases es
  {
    AdoptionOk(c) && (es != [] ==> AdoptionOkRun(Happens(c, es[0]), es[1..]))
  }

  lemma {:induction false} VersionRun(c: Cluster, es: seq<Event>)
    requires Ordered(c) && AdoptionOkRun(c, es)
    ensures Ordered(Run(c, es)) && Upward(c, Run(c, es))
    decreases es
  {
    if es != [] {
      OrderedStep(c, es[0]);
      var n := Happens(c, es[0]);
      VersionRun(n, es[1..]);
      if c.status.current.Some? {
        AtMostTransitive(c.status.current.value, n.status.current.value, Run(n, es[1..]).status.current.value);
      }
    }
  }

  /** The current version never decreases and never passes the target: its numbers, compared one by
      one, are at least those it had and at most those of the target. */
  lemma VersionTheorem(c: Cluster, es: seq<Event>)
    requires Ordered(c) && AdoptionOkRun(c, es)
    ensures var n := Run(c, es);
            && Ordered(n) && Upward(c, n)
            && (c.status.current.Some? && Parse(c.status.current.value).Some? ==>
                  && Parse(n.status.current.value).Some?
                  && NotAbove(Parse(c.status.current.value).value, Parse(n.status.current.value).value))
            && (n.status.current.Some? && Parse(n.status.current.value).Some? && n.spec.target.Some? ==>
                  && Parse(n.spec.target.value).Some?
                  && NotAbove(Parse(n.status.current.value).value, Parse(n.spec.target.value).value))
  {
    var n := Run(c, es);
    VersionRun(c, es);
    if c.status.current.Some? && Parse(c.status.current.value).Some? {
      AtMostMeans(c.status.current.value, n.status.current.value);
    }
    if n.status.current.Some? && Parse(n.status.current.value).Some? && n.spec.target.Some? {
      AtMostMeans(n.status.current.value, n.spec.target.value);
    }
  }

  /** A new target is admitted exactly when no number of it goes back. */
  lemma AdmissionExactly(c: Cluster, s: Spec, v: Version, w: Version)
    requires InRange(v) && InRange(w)
    requires c.status.current == Some(Show(v)) && s.target == Some(Show(w))
    ensures ValidateVersionChange(c, s) == [] <==> NotAbove(v, w)
  {
    ParseShow(v);
    OrderExactly(v, w);
  }

  /** Taking over a cluster keeps the order exactly when the target is unset or not below 3.9. */
  lemma AdoptionExactly(c: Cluster, f: Fate)
    requires c.status.current.None? && c.sts.Some? && f.readable && f.lands
    ensures Ordered(Reconciled(c, f)) <==> AdoptionOk(c)
  {
  }

  // ---------------------------------------------------------------- convergence

  predicate Due(c: Cluster) {
    c.status.current.Some? && WipeDue(c.spec, c.status).Some? && WipeDue(c.spec, c.status) != Some(NoWipe)
  }

  function Rank(c: Cluster): nat {
    if c.status.current.None? then 4
    else match c.status.phase
      case NoUpgrade => if Due(c) then 3 else 0
      case DeletingResources => 2
      case WaitingForCluster => 1
  }

  /** The queue type has been brought up to date before the wait began. */
  predicate Settled(c: Cluster) {
    c.status.phase.WaitingForCluster? ==> !(c.spec.queueType == Some(Quorum) && c.status.queueType == Some(Mirrored))
  }

  const ALL_GOOD := Fate(true, true, true, true, true, true, true, true, true, true, true, true, true, true)

  lemma RankFalls(c: Cluster, f: Fate)
    requires Settled(c)
    ensures var n := Reconciled(c, f);
            && Settled(n) && Rank(n) <= Rank(c)
            && (Rank(c) == 0 && c.sts.Some? ==> n.sts.Some?)
            && (!c.reconfigured ==> !n.reconfigured)
  {
  }

  lemma RankProgress(c: Cluster)
    requires Settled(c) && !c.reconfigured && Rank(c) > 0
    ensures Rank(Reconciled(c, ALL_GOOD)) < Rank(c)
  {
  }

  function Goods(fs: seq<Fate>): nat {
    if fs == [] then 0 else (if fs[0] == ALL_GOOD then 1 else 0) + Goods(fs[1..])
  }

  function Reconcilings(fs: seq<Fate>): (es: seq<Event>)
    ensures |es| == |fs| && forall i :: 0 <= i < |fs| ==> es[i] == Reconciles(fs[i])
  {
    if fs == [] then [] else [Reconciles(fs[0])] + Reconcilings(fs[1..])
  }

  /** Each good reconcile goes forward, however many failing ones lie between them: after as
      many good ones as the rank says the upgrade is finished. */
  lemma {:induction false} ConvergenceTheorem(c: Cluster, fs: seq<Fate>)
    requires Settled(c) && !c.reconfigured
    ensures var n := Run(c, Reconcilings(fs)); Rank(n) == 0 || Rank(n) + Goods(fs) <= Rank(c)
    decreases fs
  {
    if fs != [] {
      RankFalls(c, fs[0]);
      if fs[0] == ALL_GOOD && Rank(c) > 0 {
        RankProgress(c);
      }
      assert Reconcilings(fs)[1..] == Reconcilings(fs[1..]);
      ConvergenceTheorem(Reconciled(c, fs[0]), fs[1..]);
      FrozenTheorem(Reconciled(c, fs[0]), Reconcilings(fs[1..]));
    }
  }

  predicate Starts(c: Cluster, e: Event) {
    c.status.phase.NoUpgrade? && Happens(c, e).status.phase.DeletingResources?
  }

  /** How many wipes a run begins. */
  function Begun(c: Cluster, es: seq<Event>): nat
    decreases es
  {
    if es == [] then 0 else (if Starts(c, es[0]) then 1 else 0) + Begun(Happens(c, es[0]), es[1..])
  }

  predicate Frozen(es: seq<Event>) {
    forall e :: e in es ==> !e.Updates?
  }

  /** With the spec frozen the rank never rises, at most one wipe begins, none begins once the
      rank is below 3, and a finished upgrade never deletes the StatefulSet again. */
  lemma {:induction false} FrozenTheorem(c: Cluster, es: seq<Event>)
    requires Settled(c) && Frozen(es)
    ensures var n := Run(c, es);
            && Settled(n) && Rank(n) <= Rank(c)
            && Begun(c, es) <= (if Rank(c) >= 3 then 1 else 0)
            && (Rank(c) == 0 && c.sts.Some? ==> n.sts.Some?)
    decreases es
  {
    if es != [] {
      if es[0].Reconciles? {
        RankFalls(c, es[0].f);
      }
      FrozenTheorem(Happens(c, es[0]), es[1..]);
    }
  }

  /** Two reconciles at most that make an unsettled cluster need a second wipe; the first consumes
      the annotation, if it is set. */
  function Unsettling(c: Cluster): seq<Event> {
    var untailed := Reconciles(ALL_GOOD.(tailed := false));
    if c.reconfigured then [Reconciles(ALL_GOOD), untailed] else [untailed]
  }

  lemma SecondWipe(c: Cluster)
    requires c.status.current.Some? && !Settled(c)
    ensures Frozen(Unsettling(c)) && Rank(Run(c, Unsettling(c))) == 3 && Rank(c) == 1
  {
    var es := Unsettling(c);
    if c.reconfigured {
      var n := Happens(c, es[0]);
      assert es[1..] == [es[1]] && es[1..][1..] == [];
      assert Run(c, es) == Run(n, [es[1]]) == Happens(n, es[1]);
    } else {
      assert es[1..] == [];
      assert Run(c, es) == Happens(c, es[0]);
    }
  }

  /** With the spec frozen the rank never rises exactly from the settled states; from any other
      the cluster comes to need a second wipe. */
  lemma SettledExactly(c: Cluster)
    requires c.status.current.Some?
    ensures Settled(c) <==> forall es :: Frozen(es) ==> Rank(Run(c, es)) <= Rank(c)
  {
    if Settled(c) {
      forall es | Frozen(es)
        ensures Rank(Run(c, es)) <= Rank(c)
      {
        FrozenTheorem(c, es);
      }
    } else {
      SecondWipe(c);
    }
  }

  // ---------------------------------------------------------------- when a wipe happens

  /** Running version v, asked for version w, with no migration to quorum queues due. */
  predicate Asked(c: Cluster, v: Version, w: Version) {
    && InRange(v) && InRange(w) && c.status.current == Some(Show(v)) && c.spec.target == Some(Show(w))
    && !(c.spec.queueType == Some(Quorum) && c.status.queueType == Some(Mirrored))
    && c.status.phase.NoUpgrade? && !c.reconfigured && c.sts.Some?
  }

  const TWO_GOOD: seq<Event> := [Reconciles(ALL_GOOD), Reconciles(ALL_GOOD)]

  lemma WipeBegins(c: Cluster, v: Version, w: Version)
    requires Asked(c, v, w) && !SameMinor(v, w)
    ensures var n := Run(c, TWO_GOOD);
            n.sts.None? && n.status.phase.WaitingForCluster? && Begun(c, TWO_GOOD) == 1
  {
    WipeExactly(v, w);
    var m := Happens(c, TWO_GOOD[0]);
    assert m.status.phase.DeletingResources?;
    assert TWO_GOOD[1..] == [Reconciles(ALL_GOOD)] && TWO_GOOD[1..][1..] == [];
    assert Run(c, TWO_GOOD) == Run(m, TWO_GOOD[1..]) == Happens(m, TWO_GOOD[1]);
    assert Begun(c, TWO_GOOD) == 1 + Begun(m, TWO_GOOD[1..]);
  }

  /** Reconciles of a frozen spec ever delete the StatefulSet, and with it begin the one wipe,
      exactly when the target differs in the major or the minor number. */
  lemma UpgradeWipesExactly(c: Cluster, v: Version, w: Version)
    requires Asked(c, v, w)
    ensures (exists es :: Frozen(es) && Run(c, es).sts.None?) <==> !SameMinor(v, w)
    ensures (exists es :: Frozen(es) && Begun(c, es) == 1) <==> !SameMinor(v, w)
    ensures forall es :: Frozen(es) ==> Begun(c, es) <= 1
  {
    WipeExactly(v, w);
    forall es | Frozen(es)
      ensures Begun(c, es) <= 1 && (SameMinor(v, w) ==> Run(c, es).sts.Some? && Begun(c, es) == 0)
    {
      FrozenTheorem(c, es);
    }
    if !SameMinor(v, w) {
      WipeBegins(c, v, w);
      assert Frozen(TWO_GOOD);
    }
  }

  /** A migration to quorum queues without a change of version wipes as well, and asks for the proxy. */
  lemma MigrationWipes(c: Cluster, v: Version, w: Version)
    requires InRange(v) && InRange(w) && c.status.current == Some(Show(v)) && c.spec.target == Some(Show(w))
    requires SameMinor(v, w) && c.spec.queueType == Some(Quorum) && c.status.queueType == Some(Mirrored)
    requires c.status.phase.NoUpgrade? && !c.reconfigured
    ensures var n := Run(c, TWO_GOOD);
            && n.sts.None? && n.status.phase.WaitingForCluster? && n.status.reason.QueueTypeMigration?
            && n.status.proxy && n.status.queueType == Some(Quorum)
  {
    WipeExactly(v, w);
    var m := Happens(c, TWO_GOOD[0]);
    assert m.status.phase.DeletingResources? && m.status.reason.QueueTypeMigration?;
    assert TWO_GOOD[1..] == [Reconciles(ALL_GOOD)] && TWO_GOOD[1..][1..] == [];
    assert Run(c, TWO_GOOD) == Run(m, TWO_GOOD[1..]) == Happens(m, TWO_GOOD[1]);
  }

  /** What a finished upgrade leaves: the target is the running version, and nothing is pending. */
  lemma UpgradeFinishes(c: Cluster)
    requires c.status.phase.WaitingForCluster? && c.status.current.Some? && c.spec.target.Some? && !c.reconfigured
    ensures var n := Reconciled(c, ALL_GOOD);
            && n.status.current == c.spec.target && n.status.phase.NoUpgrade? && n.status.reason.NoWipe?
            && n.sts.Some? && n.sts.value.version == c.spec.target.value
  {
  }

  /** A reconcile of a steady cluster brings queue type and StatefulSet to what the spec asks for. */
  lemma SteadyFollows(c: Cluster)
    requires c.status.current.Some? && Rank(c) == 0 && WipeDue(c.spec, c.status).Some? && !c.reconfigured
    ensures var n := Reconciled(c, ALL_GOOD);
            && (c.spec.queueType.Some? ==> n.status.queueType == c.spec.queueType)
            && n.sts.Some? && n.sts.value.proxy == c.status.proxy
            && n.sts.value.version == (if c.spec.target.Some? then c.spec.target.value else c.status.current.value)
  {
  }

  /** If the mirroring policy cannot be changed, the recorded queue type moves exactly when no mirrored
      queues are involved. */
  lemma PolicyExactly(c: Cluster)
    requires c.status.current.Some? && Rank(c) == 0 && WipeDue(c.spec, c.status).Some? && !c.reconfigured
    requires c.spec.queueType.Some? && c.spec.queueType != c.status.queueType
    ensures var n := Reconciled(c, ALL_GOOD.(policed := false));
            n.status.queueType == c.spec.queueType <==>
              c.spec.queueType != Some(Mirrored) && c.status.queueType != Some(Mirrored)
  {
  }

  /** A reconcile whose preparations fail writes nothing but the reason of the wipe it found due. */
  lemma UnpreparedKeeps(c: Cluster, f: Fate)
    requires c.status.current.Some? && !c.reconfigured && !f.prepared
    ensures var n := Reconciled(c, f);
            n.sts == c.sts && n.status == c.status.(reason := n.status.reason) && (!Due(c) ==> n == c)
  {
  }

  /** A StatefulSet write that takes effect but reports an error leaves what a reported one would, and
      the upgrade goes on as if it had not been made. */
  lemma UnreportedWrite(c: Cluster, f: Fate)
    requires c.status.current.Some? && !c.reconfigured && f.stored && !f.written
    ensures var n := Reconciled(c, f);
            && n.sts == Reconciled(c, f.(written := true)).sts
            && n.status == Reconciled(c, f.(stored := false)).status
  {
  }

  /** A new cluster starts at its target and needs no wipe; one taken over from the old operator is
      wiped exactly when its target is not a 3.9, or for the move to quorum queues. */
  lemma FirstVersion(c: Cluster, w: Version)
    requires c.status.current.None? && c.status.phase.NoUpgrade? && InRange(w) && c.spec.target == Some(Show(w))
    requires !(c.spec.queueType == Some(Quorum) && c.status.queueType == Some(Mirrored))
    ensures var n := Reconciled(c, ALL_GOOD);
            Rank(n) == (if c.sts.Some? && (w.major != 3 || w.minor != 9) then 3 else 0)
  {
    ParseShow(w);
    AdoptedParses();
  }

  /** Without a target a new cluster starts at 4.2. */
  lemma DefaultVersion(c: Cluster)
    requires c.status.current.None? && c.sts.None? && c.spec.target.None?
    ensures var n := Reconciled(c, ALL_GOOD);
            n.status.current.Some? && Parse(n.status.current.value) == Some(Version(4, 2, 0))
  {
    PatternParses("4", "2", "0");
    assert "4" + "." + "2" == DEFAULT_VERSION;
    assert "4"[..0] == "" && "2"[..0] == "";
    assert Value("4") == 4 && Value("2") == 2;
  }

  lemma AdoptedParses()
    ensures Parse(ADOPTED_VERSION) == Some(Version(3, 9, 0))
  {
    PatternParses("3", "9", "0");
    assert "3" + "." + "9" == ADOPTED_VERSION;
    assert "3"[..0] == "" && "9"[..0] == "";
    assert Value("3") == 3 && Value("9") == 9;
  }

  // ---------------------------------------------------------------- no partial wipe

  ghost predicate VersionsValid(c: Cluster) {
    && (c.spec.target.Some? ==> ValidVersion(c.spec.target.value))
    && (c.status.current.Some? ==> ValidVersion(c.status.current.value))
  }

  /** The StatefulSet of a running wipe was created with the wipe-data container. */
  predicate WipeReady(c: Cluster) {
    c.status.phase.WaitingForCluster? && c.sts.Some? ==> c.sts.value.wipe.Some?
  }

  lemma WipeStep(c: Cluster, f: Fate)
    requires VersionsValid(c) && WipeReady(c)
    ensures VersionsValid(Reconciled(c, f)) && WipeReady(Reconciled(c, f))
    ensures c.status.phase.DeletingResources? ==> Reconciled(c, f).sts.None? || Reconciled(c, f).sts == c.sts
    ensures var n := Reconciled(c, f);
            n.sts.Some? && n.sts.value.wipe.Some? && !(c.sts.Some? && c.sts.value.wipe.Some?) ==>
              c.sts.None? && c.status.phase.WaitingForCluster?
  {
  }

  lemma WipeEvent(c: Cluster, e: Event)
    requires VersionsValid(c) && WipeReady(c)
    ensures VersionsValid(Happens(c, e)) && WipeReady(Happens(c, e))
  {
    if e.Reconciles? {
      WipeStep(c, e.f);
    }
  }

  lemma {:induction false} WipeRun(c: Cluster, es: seq<Event>)
    requires VersionsValid(c) && WipeReady(c)
    ensures VersionsValid(Run(c, es)) && WipeReady(Run(c, es))
    decreases es
  {
    if es != [] {
      WipeEvent(c, es[0]);
      WipeRun(Happens(c, es[0]), es[1..]);
    }
  }

  /** In every run the wipe-data container enters a StatefulSet only when that StatefulSet is
      created while waiting for the cluster; an existing one never gains it. */
  lemma NoPartialWipeTheorem(c: Cluster, es: seq<Event>, e: Event)
    requires VersionsValid(c) && WipeReady(c)
    ensures var m := Run(c, es); var n := Happens(m, e);
            && (m.status.phase.DeletingResources? ==> n.sts.None? || n.sts == m.sts)
            && (n.sts.Some? && n.sts.value.wipe.Some? && !(m.sts.Some? && m.sts.value.wipe.Some?) ==>
                  m.sts.None? && m.status.phase.WaitingForCluster?)
  {
    WipeRun(c, es);
    if e.Reconciles? {
      WipeStep(Run(c, es), e.f);
    }
  }

  // ---------------------------------------------------------------- proxy coverage

  predicate Covered(c: Cluster) {
    c.status.proxy && (c.sts.Some? ==> c.sts.value.proxy)
  }

  /** The deletion that starts a migration to quorum queues leaves the cluster covered. */
  lemma MigrationCovers(c: Cluster, f: Fate)
    requires c.status.current.Some? && c.status.phase.DeletingResources? && !c.reconfigured
    requires NeedsProxy(c.spec, c.status)
    requires Reconciled(c, f).status.phase.WaitingForCluster?
    ensures Covered(Reconciled(c, f))
  {
  }

  /** The deletion for an upgrade asks for the proxy exactly when it was asked for before, or quorum
      queues come with a move from 3.x to 4.x or with a migration of their own. */
  lemma ProxyExactly(c: Cluster, v: Version, w: Version)
    requires InRange(v) && InRange(w) && c.status.current == Some(Show(v)) && c.spec.target == Some(Show(w))
    requires c.status.phase.DeletingResources? && !c.reconfigured
    ensures Reconciled(c, ALL_GOOD).status.proxy <==>
              || c.status.proxy
              || (c.spec.queueType == Some(Quorum) &&
                    ((v.major == 3 && w.major >= 4) || c.status.reason.QueueTypeMigration?))
  {
    ParseShow(v);
    ParseShow(w);
  }

  /** The annotation ends it: the first good reconcile clears the request and consumes the annotation,
      the second writes a StatefulSet without the proxy. */
  lemma ProxyEnds(c: Cluster)
    requires c.status.current.Some? && c.reconfigured && Rank(c) == 0 && WipeDue(c.spec, c.status).Some?
    ensures var n := Run(c, TWO_GOOD);
            !n.reconfigured && !n.status.proxy && n.sts.Some? && !n.sts.value.proxy
  {
    var m := Happens(c, TWO_GOOD[0]);
    assert m == c.(status := c.status.(proxy := false), reconfigured := false);
    assert WipeDue(m.spec, m.status) == WipeDue(c.spec, c.status);
    assert TWO_GOOD[1..] == [Reconciles(ALL_GOOD)] && TWO_GOOD[1..][1..] == [];
    assert Run(c, TWO_GOOD) == Run(m, TWO_GOOD[1..]) == Happens(m, TWO_GOOD[1]);
    SteadyFollows(m);
  }

  predicate Consumes(c: Cluster, e: Event) {
    e.Reconciles? && c.reconfigured && e.f.cleared
  }

  lemma CoverStep(c: Cluster, e: Event)
    requires Covered(c) && !Consumes(c, e)
    ensures Covered(Happens(c, e))
  {
  }

  predicate NoneConsumes(c: Cluster, es: seq<Event>)
    decreases es
  {
    es != [] ==> !Consumes(c, es[0]) && NoneConsumes(Happens(c, es[0]), es[1..])
  }

  /** From then on every StatefulSet has the proxy until a reconcile carries out the annotation. */
  lemma {:induction false} ProxyTheorem(c: Cluster, f: Fate, es: seq<Event>)
    requires c.status.current.Some? && c.status.phase.DeletingResources? && !c.reconfigured
    requires NeedsProxy(c.spec, c.status)
    requires Reconciled(c, f).status.phase.WaitingForCluster?
    requires NoneConsumes(Reconciled(c, f), es)
    ensures Covered(Run(Reconciled(c, f), es))
  {
    MigrationCovers(c, f);
    CoverRun(Reconciled(c, f), es);
  }

  lemma {:induction false} CoverRun(c: Cluster, es: seq<Event>)
    requires Covered(c) && NoneConsumes(c, es)
    ensures Covered(Run(c, es))
    decreases es
  {
    if es != [] {
      CoverStep(c, es[0]);
      CoverRun(Happens(c, es[0]), es[1..]);
    }
  }

  // ---------------------------------------------------------------- a patch bump after an upgrade

  /** A steady reconcile points the wipe script at a new version, so that the next pod start
      wipes, exactly when the StatefulSet still has the container for another version. */
  lemma PatchBumpExactly(c: Cluster, f: Fate)
    requires VersionsValid(c) && c.status.current.Some? && !c.reconfigured
    requires c.status.phase.NoUpgrade? && WipeDue(c.spec, c.status) == Some(NoWipe)
    requires f.prepared && f.provided && f.written && f.peeked
    ensures var n := Reconciled(c, f);
            && n.sts.Some?
            && (n.sts.value.wipe.Some? && (c.sts.Some? ==> n.sts.value.wipe != c.sts.value.wipe) <==>
                  c.sts.Some? && c.sts.value.wipe.Some? && c.sts.value.wipe.value != ConfigVersion(c.spec, c.status))
  {
  }

  /** A steady reconcile keeps the wipe-data container exactly when it finds one. */
  lemma ContainerKept(c: Cluster, f: Fate)
    requires VersionsValid(c) && c.status.current.Some? && !c.reconfigured
    requires c.status.phase.NoUpgrade? && WipeDue(c.spec, c.status) == Some(NoWipe)
    requires f.prepared && f.provided && f.written
    ensures var n := Reconciled(c, f);
            n.sts.Some? && (n.sts.value.wipe.Some? <==> f.peeked && c.sts.Some? && c.sts.value.wipe.Some?)
  {
  }

  lemma PatchVersions()
    ensures RequiresStorageWipe("4.2", "4.2.1") == Some(false)
    ensures ValidVersion("4.2") && ValidVersion("4.2.1")
  {
    var a, b, c := "4", "2", "1";
    assert a + "." + b == "4.2" && a + "." + b + "." + c == "4.2.1";
    DottedParse(a, b, c);
    PatternParses(a, b, c);
    assert a[..0] == "" && b[..0] == "" && c[..0] == "";
    assert Value(a) == 4 && Value(b) == 2 && Value(c) == 1;
  }

  /** After an upgrade to 4.2, asking for 4.2.1 needs no wipe, yet the template gets one. */
  lemma PatchBumpWipes()
    ensures var c := Cluster(Spec(Some("4.2.1"), Some(Quorum)),
                             Status(Some("4.2"), NoUpgrade, NoWipe, Some(Quorum), false),
                             false, Some(StatefulSet("4.2", Some("4.2"), false)));
            && WipeDue(c.spec, c.status) == Some(NoWipe)
            && Reconciled(c, ALL_GOOD).sts == Some(StatefulSet("4.2.1", Some("4.2.1"), false))
  {
    PatchVersions();
  }
}
