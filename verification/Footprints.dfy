/** Which parts of the world a step of each controller can touch. */
module Footprints {
  import opened ApiObjects
  import opened Protocol

  predicate SameAt<K, V(==)>(m: map<K, V>, n: map<K, V>, k: K) {
    (k in n <==> k in m) && (k in m ==> n[k] == m[k])
  }

  predicate WritesUsers(pc: TurlPc) {
    pc.ClaimUser? || pc.ReleaseEarlier? || pc.Release? || pc.DelPending? || pc.DelUser?
  }

  lemma QuietVhosts(v: View, t: Name, o: Outcome)
    ensures TurlClaimsVhost(v, t, o).users == v.users && TurlDropsVhost(v, t, o).users == v.users
    ensures TurlSweepsVhost(v, o).users == v.users && TurlAbandonsVhost(v, t, o).users == v.users
  {
  }

  lemma QuietSecrets(v: View, t: Name, o: Outcome)
    ensures TurlWritesSecret(v, t, o).users == v.users
  {
  }

  lemma QuietStep(v: View, t: Name, o: Outcome)
    requires !WritesUsers(v.task.pc)
    ensures TurlWorks(v, t, o).users == v.users
  {
    match v.task.pc
    case ClaimVhost | DropVhost | DropOrphanVhost | DelVhost => QuietVhosts(v, t, o);
    case WriteSecret => QuietSecrets(v, t, o);
    case Resting | CleanEarlier | AwaitUser | CheckConsumer | CheckNodes | CleanSecret | SweepSecret =>
    case PatchStatus | DelSecret | DelDone =>
  }

  predicate WritesOwn(pc: UserPc) {
    pc.Idle? || pc.DeleteOrphan? || pc.PatchUser? || pc.UnguardUser?
  }

  lemma OwnWritesEnd(v: UserView, k: UserKey, o: Outcome)
    requires WritesOwn(v.task.pc)
    ensures !UserWorks(v, k, o).task.pc.UnguardUser? && !UserWorks(v, k, o).task.pc.DeleteOrphan?
  {
  }

  predicate Removing(pc: UserPc) {
    pc.LeaveVhost? || pc.LeaveOrphanVhost? || pc.ListUsers? || pc.DeleteAccount? || pc.UnguardUser?
  }

  lemma QuietUserStep(v: UserView, k: UserKey, o: Outcome)
    requires !WritesOwn(v.task.pc)
    ensures var n := UserWorks(v, k, o);
            && n.users == v.users
            && (Removing(n.task.pc) ==> Removing(v.task.pc) && !v.task.pc.UnguardUser?)
            && !n.task.pc.LeaveVhost?
  {
  }

  lemma TurlFootprint(w: World, t: Name, o: Outcome)
    ensures var n := TurlStep(w, t, o);
            n.accounts == w.accounts && n.brokerVhosts == w.brokerVhosts && n.userTasks == w.userTasks
  {
  }

  lemma UserFootprint(w: World, k: UserKey, o: Outcome)
    ensures var n := UserStep(w, k, o);
            && n.turls == w.turls && n.secrets == w.secrets && n.nodeSets == w.nodeSets
            && n.brokerVhosts == w.brokerVhosts && n.turlTasks == w.turlTasks
  {
  }

  lemma VhostFootprint(w: World, v: VhostKey, o: Outcome)
    ensures var n := VhostStep(w, v, o);
            && n.users == w.users && n.turls == w.turls && n.secrets == w.secrets && n.nodeSets == w.nodeSets
            && n.accounts == w.accounts && n.turlTasks == w.turlTasks && n.userTasks == w.userTasks
  {
  }

  lemma EnvFootprint(w: World, s: Step)
    requires !s.TurlMoves? && !s.UserMoves? && !s.VhostMoves?
    ensures var n := EnvStep(w, s);
            && n.accounts == w.accounts && n.brokerVhosts == w.brokerVhosts
            && n.turlTasks == w.turlTasks && n.userTasks == w.userTasks
  {
  }

  lemma VhostTasksStay(w: World, s: Step)
    requires !s.VhostMoves?
    ensures Apply(w, s).vhostTasks == w.vhostTasks
  {
  }

  lemma AccountFootprint(v: UserView, k: UserKey, o: Outcome, account: (Name, Name))
    requires account in v.accounts && !(v.task.pc.DeleteAccount? && account == Account(k))
    ensures account in UserWorks(v, k, o).accounts
  {
  }

  lemma BrokerFootprint(x: VhostView, v: VhostKey, o: Outcome, other: VhostKey)
    requires other in x.brokerVhosts && !(x.pc.DeleteVhost? && other == v)
    ensures other in VhostWorks(x, v, o).brokerVhosts
  {
  }

  /** Only a vhost's own controller, at its delete call, takes it off the broker. */
  lemma BrokerVhostStays(w: World, s: Step, v: VhostKey)
    requires v in w.brokerVhosts
    requires !(s.VhostMoves? && s.v == v && v in w.vhostTasks && w.vhostTasks[v].DeleteVhost?)
    ensures v in Apply(w, s).brokerVhosts
  {
    match s
    case TurlMoves(t, o) => TurlFootprint(w, t, o);
    case UserMoves(k, o) => UserFootprint(w, k, o);
    case VhostMoves(x, o) => BrokerFootprint(SeeVhost(w, x), x, o, v);
    case _ => EnvFootprint(w, s);
  }

  /** Only the controller of a CR, at its delete call, takes the CR's account off the broker. */
  lemma AccountStays(w: World, s: Step, account: (Name, Name))
    requires account in w.accounts
    requires !(s.UserMoves? && Account(s.k) == account && s.k in w.userTasks && w.userTasks[s.k].pc.DeleteAccount?)
    ensures account in Apply(w, s).accounts
  {
    match s
    case TurlMoves(t, o) => TurlFootprint(w, t, o);
    case VhostMoves(v, o) => VhostFootprint(w, v, o);
    case UserMoves(k, o) => AccountFootprint(SeeUser(w, k), k, o, account);
    case _ => EnvFootprint(w, s);
  }

  // ---------------------------------------------------------------- failed calls

  /** Does this step of a reconcile make a call at all? */
  predicate Calls(x: TurlTask) {
    match x.pc
    case ClaimVhost | DelVhost => VhostOf(x.key).Some?
    case DropVhost => x.status.vhost.Some? && x.status.vhost != VhostOf(x.key)
    case WriteSecret => x.status.oldSecret.None?
    case CheckConsumer => x.status.oldSecret.Some?
    case DelPending => x.status.pending.Some?
    case _ => true
  }

  /** It wrote nothing, and what it computed so far is still to be patched. */
  predicate GaveUp(v: View, n: View) {
    n == v.(task := v.task.(pc := PatchStatus)) || n == v.(task := NO_RECONCILE)
  }

  lemma FailedEarly(v: View, t: Name, o: Outcome)
    requires !o.ok && Calls(v.task)
    requires || v.task.pc.ClaimVhost? || v.task.pc.ClaimUser? || v.task.pc.ReleaseEarlier? || v.task.pc.CleanEarlier?
             || v.task.pc.DropVhost? || v.task.pc.DropOrphanVhost? || v.task.pc.AwaitUser? || v.task.pc.WriteSecret?
    ensures GaveUp(v, TurlWorks(v, t, o))
  {
  }

  /** A failed call of a running reconcile writes nothing and ends it, but for its final patch. */
  lemma FailedTurlCall(v: View, t: Name, o: Outcome)
    requires !o.ok && !v.task.pc.Resting? && Calls(v.task)
    ensures GaveUp(v, TurlWorks(v, t, o))
  {
    match v.task.pc
    case ClaimVhost | ClaimUser | ReleaseEarlier | CleanEarlier => FailedEarly(v, t, o);
    case DropVhost | DropOrphanVhost | AwaitUser | WriteSecret => FailedEarly(v, t, o);
    case _ =>
  }

  predicate UserCalls(k: UserKey, pc: UserPc) {
    pc.GuardVhost? || pc.RegardVhost? || pc.LeaveVhost? ==> VhostOf(k).Some?
  }

  /** The same for a user; only a user the broker refuses still gets its status. */
  lemma FailedUserCall(v: UserView, k: UserKey, o: Outcome)
    requires !o.ok && !o.gone && !v.task.pc.Idle? && UserCalls(k, v.task.pc)
    ensures UserWorks(v, k, o) == v.(task := v.task.(pc := if v.task.pc.Provision? then PatchUser(false) else Idle))
  {
  }

  /** The same for a vhost, whose stale finalizers are judged without a call to the broker. */
  lemma FailedVhostCall(x: VhostView, v: VhostKey, o: Outcome)
    requires !o.ok && !o.gone && !x.pc.NoTask?
    ensures var n := VhostWorks(x, v, o);
            n == x.(pc := n.pc) && (n.pc.NoTask? || (n.pc.RemoveOrphans? && x.pc.Inspect?))
  {
  }

  // ---------------------------------------------------------------- references on vhosts

  predicate Referenced(fs: set<Finalizer>) {
    HasConsumer(fs) || HasUserRef(fs)
  }

  /** Finalizer `f` leaves object `h` and nothing else changes, except that `h` may be deleted if
      no reference is left on it. */
  ghost predicate Drops(m: map<VhostKey, Vhost>, n: map<VhostKey, Vhost>, h: VhostKey, f: Finalizer) {
    && !HasFin(n, h, f)
    && (forall x :: x != h ==> SameAt(m, n, x))
    && (forall g :: g != f ==> (HasFin(n, h, g) <==> HasFin(m, h, g)))
    && (h in n ==> h in m && (m[h].deleting ==> n[h].deleting))
    && (h in n && Referenced(n[h].finalizers) ==> n[h].deleting == m[h].deleting)
  }

  /** And it is deleted if no reference is left. */
  ghost predicate DropsAndSweeps(m: map<VhostKey, Vhost>, n: map<VhostKey, Vhost>, h: VhostKey, f: Finalizer) {
    Drops(m, n, h, f) && (h in n && !Referenced(n[h].finalizers) ==> n[h].deleting)
  }

  lemma SweepDrops(m: map<VhostKey, Vhost>, h: VhostKey, f: Finalizer)
    ensures DropsAndSweeps(m, SweptVhost(Unfinalize(m, h, f), h), h, f)
    ensures Drops(m, Unfinalize(m, h, f), h, f)
  {
    if h in m {
      var fs := m[h].finalizers - {f};
      assert forall g :: g != f ==> (g in fs <==> g in m[h].finalizers);
    }
  }

  // ---------------------------------------------------------------- states of a run

  function At(w: World, ss: seq<Step>, i: nat): World
    requires i <= |ss|
  {
    Run(w, ss[..i])
  }

  lemma {:induction false} RunNext(w: World, ss: seq<Step>, i: nat)
    requires i < |ss|
    ensures At(w, ss, i + 1) == Apply(At(w, ss, i), ss[i])
    decreases i
  {
    if i == 0 {
      assert ss[..1][1..] == [] && ss[..0] == [];
      assert Run(w, ss[..1]) == Run(Apply(w, ss[0]), ss[..1][1..]);
    } else {
      RunNext(Apply(w, ss[0]), ss[1..], i - 1);
      assert ss[..i + 1][1..] == ss[1..][..i] && ss[..i][1..] == ss[1..][..i - 1];
    }
  }
}
