/** The vhost "/": a TransportURL that leaves its vhost unset does not wait for the broker to
    accept its user, one that writes "/" out does. */
module DefaultVhost {
  import opened ApiObjects
  import opened Protocol
  import opened Footprints
  import opened References
  import opened FinalizerSafety
  import opened Published
  import opened Reconcile
  import opened Histories
  import opened Witnesses

  // ---------------------------------------------------------------- runs of one TransportURL and its user

  /** Steps of one TransportURL, which never changes its spec, and of its user; its calls succeed. */
  function Lone(t: Name, k: UserKey): Allowed {
    (s: Step) =>
      || s == CreateTurl(t, k, false)
      || (s.TurlMoves? && s.t == t && s.o.ok)
      || (s.UserMoves? && s.k == k)
  }

  predicate Steadfast(st: TurlStatus, k: UserKey) {
    st.pending.None? && (st.user.None? || st.user == Some(k))
  }

  /** The program counters of a reconcile that has nothing to release or delete. */
  predicate Straight(pc: TurlPc) {
    || pc.ClaimVhost? || pc.ClaimUser? || pc.DropVhost? || pc.DropOrphanVhost? || pc.AwaitUser?
    || pc.WriteSecret? || pc.SweepSecret? || pc.PatchStatus?
  }

  predicate LoneView(v: View, k: UserKey) {
    && v.users.Keys <= {k}
    && (v.turl.Some? ==> v.turl.value.spec == k && !v.turl.value.deleting && Steadfast(v.turl.value.status, k))
    && (!v.task.pc.Resting? ==> LoneTask(v.task, k))
  }

  predicate LoneTask(x: TurlTask, k: UserKey) {
    Straight(x.pc) && x.key == k && Steadfast(x.status, k)
  }

  ghost predicate LoneWorld(w: World, t: Name, k: UserKey) {
    w.vhostTasks == map[] && LoneView(See(w, t), k)
  }

  lemma LoneKeys(v: View, t: Name, o: Outcome, k: UserKey)
    requires LoneView(v, k)
    ensures TurlWorks(v, t, o).users.Keys <= {k}
  {
    if !WritesUsers(v.task.pc) {
      QuietStep(v, t, o);
    }
  }

  lemma LoneClaims(v: View, t: Name, o: Outcome, k: UserKey)
    requires LoneView(v, k) && (v.task.pc.ClaimVhost? || v.task.pc.ClaimUser?)
    ensures TurlWorks(v, t, o).turl == v.turl && LoneTask(TurlWorks(v, t, o).task, k)
  {
  }

  lemma LoneWaits(v: View, t: Name, o: Outcome, k: UserKey)
    requires LoneView(v, k) && (v.task.pc.DropVhost? || v.task.pc.DropOrphanVhost? || v.task.pc.AwaitUser?)
    ensures TurlWorks(v, t, o).turl == v.turl && LoneTask(TurlWorks(v, t, o).task, k)
  {
  }

  lemma LoneSecret(v: View, t: Name, o: Outcome, k: UserKey)
    requires LoneView(v, k) && v.task.pc.WriteSecret?
    ensures TurlWorks(v, t, o).turl == v.turl && LoneTask(TurlWorks(v, t, o).task, k)
  {
    if TurlWritesSecret(v, t, o).task.pc.PatchStatus? {
      StoppedBefore(v, t, o);
    } else {
      var st := CompletedFrom(v, t, o);
    }
  }

  lemma LoneBoundary(v: View, t: Name, o: Outcome, k: UserKey)
    requires LoneView(v, k) && (v.task.pc.Resting? || v.task.pc.SweepSecret? || v.task.pc.PatchStatus?)
    ensures LoneView(TurlWorks(v, t, o).(users := v.users), k)
  {
  }

  lemma LoneWorks(v: View, t: Name, o: Outcome, k: UserKey)
    requires LoneView(v, k)
    ensures LoneView(TurlWorks(v, t, o), k)
  {
    LoneKeys(v, t, o, k);
    match v.task.pc
    case ClaimVhost | ClaimUser => LoneClaims(v, t, o, k);
    case DropVhost | DropOrphanVhost | AwaitUser => LoneWaits(v, t, o, k);
    case WriteSecret => LoneSecret(v, t, o, k);
    case Resting | SweepSecret | PatchStatus => LoneBoundary(v, t, o, k);
  }

  lemma LoneUser(v: UserView, k: UserKey, o: Outcome)
    requires v.users.Keys <= {k}
    ensures UserWorks(v, k, o).users.Keys <= {k}
  {
  }

  lemma LoneStep(w: World, s: Step, t: Name, k: UserKey)
    requires LoneWorld(w, t, k) && Lone(t, k)(s)
    ensures LoneWorld(Apply(w, s), t, k) && BenignStep(w, s) && OwnDelete(w, s) && OnePerAccount(w)
  {
    match s
    case TurlMoves(_, o) => LoneWorks(See(w, t), t, o, k);
    case UserMoves(_, o) =>
      UserFootprint(w, k, o);
      LoneUser(SeeUser(w, k), k, o);
    case CreateTurl(_, _, _) =>
  }

  lemma {:induction false} LoneRun(w: World, ss: seq<Step>, t: Name, k: UserKey)
    requires LoneWorld(w, t, k) && RunOf(ss, Lone(t, k))
    ensures BenignRun(w, ss) && OnePerAccountRun(w, ss) && OwnDeleteRun(w, ss)
    decreases ss
  {
    if ss != [] {
      LoneStep(w, ss[0], t, k);
      LoneRun(Apply(w, ss[0]), ss[1..], t, k);
    }
  }

  // ---------------------------------------------------------------- the exact condition

  /** Every spec of `t` writes its vhost out, or none does. */
  predicate Writes(ss: seq<Step>, t: Name, written: bool) {
    forall s :: s in ss && (s.CreateTurl? || s.EditSpec?) && s.t == t ==> s.written == written
  }

  /** A run as in `PublishedCredentialsWork`. */
  ghost predicate Regular(w: World, ss: seq<Step>, t: Name, written: bool) {
    && Start(w) && w.turls == map[] && Writes(ss, t, written)
    && BenignRun(w, ss) && OnePerAccountRun(w, ss) && OwnDeleteRun(w, ss)
  }

  predicate Works(w: World, t: Name, k: UserKey) {
    HasFin(w.users, k, Consumer(t)) && Account(k) in w.accounts && HasVhost(w, k)
  }

  /** In every regular run the credentials that `t` publishes for `k` work. */
  ghost predicate AlwaysWorks(t: Name, k: UserKey, written: bool) {
    forall w, ss :: Regular(w, ss, t, written) && Publishes(Run(w, ss), t, k) ==> Works(Run(w, ss), t, k)
  }

  /** The broker refuses the user, its patch still names its secret, and `t` publishes it. */
  lemma PublishedWithoutAccount(t: Name, k: UserKey) returns (ss: seq<Step>)
    requires k.vhost == DEFAULT_VHOST
    ensures Regular(EMPTY, ss, t, false) && Publishes(Run(EMPTY, ss), t, k)
    ensures Account(k) !in Run(EMPTY, ss).accounts
  {
    PublicationLeads(Lone(t, k), t, k, false);
    var n := Sole(t, Fresh(k).(status := FirstStatus(t, k)), map[k := Witnesses.Ready(t, false)], FirstSecrets(t, k),
                  {});
    ss :| RunOf(ss, Lone(t, k)) && Run(EMPTY, ss) == n;
    LoneRun(EMPTY, ss, t, k);
  }

  /** Published credentials always work exactly when the user is in a vhost of its own or the
      TransportURL writes the vhost "/" out, because only then it waits for the user's vhost. */
  lemma WorksExactly(t: Name, k: UserKey, written: bool)
    ensures AlwaysWorks(t, k, written) <==> k.vhost != DEFAULT_VHOST || written
  {
    if k.vhost != DEFAULT_VHOST || written {
      forall w, ss | Regular(w, ss, t, written) && Publishes(Run(w, ss), t, k)
        ensures Works(Run(w, ss), t, k)
      {
        assert written ==> WritesOutRun(ss, {t});
        PublishedCredentialsWork(w, ss, t, k);
      }
    } else {
      var ss := PublishedWithoutAccount(t, k);
    }
  }
}
