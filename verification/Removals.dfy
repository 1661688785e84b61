/** Nothing is forgotten on the broker: a CR with its controller's finalizer leaves the API server only
    after the broker call that removes what it stands for, or for a reason to leave that out. */
module Removals {
  import opened ApiObjects
  import opened Protocol
  import opened Footprints
  import opened FinalizerSafety

  /** The object loses its controller's finalizer, or vanishes with it. */
  predicate Unguarded<K, S>(m: map<K, Obj<S>>, n: map<K, Obj<S>>, k: K) {
    HasFin(m, k, Controller) && !HasFin(n, k, Controller)
  }

  lemma PlainGuards<K, S>(m: map<K, Obj<S>>, h: K, f: Finalizer, k: K)
    requires f != Controller
    ensures !Unguarded(m, Unfinalize(m, h, f), k) && !Unguarded(m, Delete(m, h), k)
    ensures CanFinalize(m, h, f) ==> !Unguarded(m, Finalize(m, h, f), k)
  {
    if h in m {
      assert Controller in m[h].finalizers ==> Controller in m[h].finalizers - {f};
    }
  }

  // ---------------------------------------------------------------- users

  lemma ReleaseGuards(m: map<UserKey, User>, h: UserKey, t: Name, k: UserKey)
    ensures !Unguarded(m, ReleasedUser(m, h, t), k) && !Unguarded(m, AbandonedUser(m, h, t), k)
  {
    if h in m {
      assert Controller in m[h].finalizers ==> Controller in m[h].finalizers - {Consumer(t)};
    }
  }

  lemma TurlRemovesNoUser(v: View, t: Name, o: Outcome, k: UserKey)
    ensures !Unguarded(v.users, TurlWorks(v, t, o).users, k)
  {
    var x := v.task;
    if !WritesUsers(x.pc) {
      QuietStep(v, t, o);
    } else if x.pc.DelUser? {
      ReleaseGuards(v.users, x.key, t, k);
    } else if !x.pc.ClaimUser? && x.status.pending.Some? {
      ReleaseGuards(v.users, x.status.pending.value, t, k);
    }
  }

  lemma UserRemovesOwn(v: UserView, x: UserKey, o: Outcome, k: UserKey)
    requires Unguarded(v.users, UserWorks(v, x, o).users, k)
    ensures x == k && v.task.pc.UnguardUser?
  {
    if !WritesOwn(v.task.pc) {
      QuietUserStep(v, x, o);
    } else {
      PlainGuards(v.users, x, External(0), k);
    }
  }

  lemma EnvRemovesNoUser(w: World, s: Step, k: UserKey)
    requires !s.TurlMoves? && !s.UserMoves? && !s.VhostMoves?
    ensures !Unguarded(w.users, EnvStep(w, s).users, k)
  {
    match s
    case AdminDeletesUser(x) => PlainGuards(w.users, x, External(0), k);
    case AddExternal(x, id) => PlainGuards(w.users, x, External(id), k);
    case RemoveExternal(x, id) => PlainGuards(w.users, x, External(id), k);
    case _ =>
  }

  predicate AtUnguard(w: World, k: UserKey) {
    k in w.userTasks && w.userTasks[k].pc.UnguardUser?
  }

  lemma UserRemovedBy(w: World, s: Step, k: UserKey)
    requires Unguarded(w.users, Apply(w, s).users, k)
    ensures s.UserMoves? && s.k == k && AtUnguard(w, k)
  {
    match s
    case TurlMoves(t, o) => TurlRemovesNoUser(See(w, t), t, o, k);
    case UserMoves(x, o) => UserRemovesOwn(SeeUser(w, x), x, o, k);
    case VhostMoves(v, o) => VhostFootprint(w, v, o);
    case _ => EnvRemovesNoUser(w, s, k);
  }

  /** Another CR, not being deleted, for the same user on the same cluster. */
  predicate Manages(users: map<UserKey, User>, other: UserKey, k: UserKey) {
    && other in users && other != k && !users[other].deleting
    && other.cluster == k.cluster && other.username == k.username
  }

  /** A step of the removal of `k` deletes its broker user, or leaves that out because the cluster is
      gone or another undeleted CR manages the same broker user. */
  ghost predicate Settles(w: World, s: Step, k: UserKey) {
    && s.UserMoves? && s.k == k && k in w.userTasks
    && match w.userTasks[k].pc
       case DeleteAccount => s.o.ok && Account(k) !in Apply(w, s).accounts
       case ListUsers => s.o.gone || (s.o.ok && exists other :: Manages(w.users, other, k))
       case _ => false
  }

  lemma UnguardBefore(v: UserView, k: UserKey, o: Outcome)
    requires UserWorks(v, k, o).task.pc.UnguardUser?
    ensures || (v.task.pc.DeleteAccount? && o.ok && Account(k) !in UserWorks(v, k, o).accounts)
            || (v.task.pc.ListUsers? && (o.gone || (o.ok && exists other :: Manages(v.users, other, k))))
  {
    if WritesOwn(v.task.pc) {
      OwnWritesEnd(v, k, o);
    } else if v.task.pc.ListUsers? && SharedAccount(v.users, k) {
      var other :| other in v.users && other != k && Account(other) == Account(k) && !v.users[other].deleting;
      assert Manages(v.users, other, k);
    }
  }

  lemma UnguardComesFrom(w: World, s: Step, k: UserKey)
    requires AtUnguard(Apply(w, s), k)
    ensures AtUnguard(w, k) || Settles(w, s, k)
  {
    match s
    case TurlMoves(t, o) => TurlFootprint(w, t, o);
    case VhostMoves(v, o) => VhostFootprint(w, v, o);
    case UserMoves(x, o) =>
      if x == k {
        UnguardBefore(SeeUser(w, k), k, o);
      }
    case _ => EnvFootprint(w, s);
  }

  lemma {:induction false} SettlingHappened(w: World, ss: seq<Step>, k: UserKey, d: nat) returns (i: nat)
    requires d <= |ss| && !AtUnguard(w, k) && AtUnguard(At(w, ss, d), k)
    ensures i < d && Settles(At(w, ss, i), ss[i], k)
    ensures forall m: nat :: i < m <= d ==> AtUnguard(At(w, ss, m), k)
    decreases d
  {
    assert At(w, ss, 0) == w;
    RunNext(w, ss, d - 1);
    UnguardComesFrom(At(w, ss, d - 1), ss[d - 1], k);
    if AtUnguard(At(w, ss, d - 1), k) {
      i := SettlingHappened(w, ss, k, d - 1);
    } else {
      i := d - 1;
    }
  }

  /** In every run a user loses its controller's finalizer, and so leaves the API server, only by its
      own removal, after an earlier step of it settled what becomes of the broker user. */
  lemma UserRemovalTheorem(w: World, ss: seq<Step>, d: nat, k: UserKey) returns (i: nat)
    requires w.userTasks == map[] && d < |ss|
    requires Unguarded(At(w, ss, d).users, At(w, ss, d + 1).users, k)
    ensures i < d && ss[d].UserMoves? && ss[d].k == k && Settles(At(w, ss, i), ss[i], k)
    ensures forall m: nat :: i < m <= d ==> AtUnguard(At(w, ss, m), k)
  {
    RunNext(w, ss, d);
    UserRemovedBy(At(w, ss, d), ss[d], k);
    i := SettlingHappened(w, ss, k, d);
  }

  // ---------------------------------------------------------------- vhosts

  lemma SweepGuards(m: map<VhostKey, Vhost>, h: VhostKey, v: VhostKey)
    ensures !Unguarded(m, SweptVhost(m, h), v)
  {
    PlainGuards(m, h, External(0), v);
  }

  lemma TurlRemovesNoVhost(x: View, t: Name, o: Outcome, v: VhostKey)
    ensures !Unguarded(x.vhosts, TurlWorks(x, t, o).vhosts, v)
  {
    if Private(x.task.pc) {
      PrivateStep(x, t, o);
    } else {
      match x.task.pc
      case ClaimVhost | DelVhost =>
        if VhostOf(x.task.key).Some? {
          PlainGuards(x.vhosts, VhostOf(x.task.key).value, Consumer(t), v);
        }
      case DropVhost | DropOrphanVhost =>
        if x.task.status.vhost.Some? {
          PlainGuards(x.vhosts, x.task.status.vhost.value, Consumer(t), v);
          SweepGuards(x.vhosts, x.task.status.vhost.value, v);
        }
      case ClaimUser | ReleaseEarlier | Release | DelPending | DelUser =>
    }
  }

  lemma UserRemovesNoVhost(x: UserView, k: UserKey, o: Outcome, v: VhostKey)
    ensures !Unguarded(x.vhosts, UserWorks(x, k, o).vhosts, v)
  {
    if VhostOf(k).Some? {
      PlainGuards(x.vhosts, VhostOf(k).value, UserRef(k.username), v);
      SweepGuards(x.vhosts, VhostOf(k).value, v);
    }
  }

  predicate AtVhostUnguard(w: World, v: VhostKey) {
    v in w.vhostTasks && w.vhostTasks[v].UnguardVhost?
  }

  /** The removal of stale user finalizers spares the controller's own. */
  ghost predicate OwnSpared(w: World) {
    forall v :: v in w.vhostTasks && w.vhostTasks[v].RemoveOrphans? ==> Controller !in w.vhostTasks[v].stale
  }

  lemma DiscardGuards(x: VhostView, u: VhostKey, seen: set<Finalizer>, stale: set<Finalizer>, o: Outcome, v: VhostKey)
    requires Controller !in stale
    ensures !Unguarded(x.vhosts, VhostDiscards(x, u, seen, stale, o).vhosts, v)
  {
    assert Controller in seen ==> Controller in seen - stale;
  }

  lemma VhostRemovesOwn(x: VhostView, u: VhostKey, o: Outcome, v: VhostKey)
    requires Unguarded(x.vhosts, VhostWorks(x, u, o).vhosts, v)
    requires x.pc.RemoveOrphans? ==> Controller !in x.pc.stale
    ensures u == v && x.pc.UnguardVhost? && Controller in x.pc.seen
  {
    PlainGuards(x.vhosts, u, External(0), v);
    if x.pc.RemoveOrphans? {
      DiscardGuards(x, u, x.pc.seen, x.pc.stale, o, v);
    }
  }

  lemma EnvRemovesNoVhost(w: World, s: Step, v: VhostKey)
    requires !s.TurlMoves? && !s.UserMoves? && !s.VhostMoves?
    ensures !Unguarded(w.vhosts, EnvStep(w, s).vhosts, v)
  {
    match s
    case AdminDeletesVhost(u) => PlainGuards(w.vhosts, u, External(0), v);
    case AddVhostExternal(u, id) => PlainGuards(w.vhosts, u, External(id), v);
    case RemoveVhostExternal(u, id) => PlainGuards(w.vhosts, u, External(id), v);
    case _ =>
  }

  lemma VhostRemovedBy(w: World, s: Step, v: VhostKey)
    requires OwnSpared(w) && Unguarded(w.vhosts, Apply(w, s).vhosts, v)
    ensures s.VhostMoves? && s.v == v && AtVhostUnguard(w, v) && Controller in w.vhostTasks[v].seen
  {
    match s
    case TurlMoves(t, o) => TurlRemovesNoVhost(See(w, t), t, o, v);
    case UserMoves(k, o) => UserRemovesNoVhost(SeeUser(w, k), k, o, v);
    case VhostMoves(u, o) => VhostRemovesOwn(SeeVhost(w, u), u, o, v);
    case _ => EnvRemovesNoVhost(w, s, v);
  }

  lemma StaleAreRefs(x: VhostView, v: VhostKey, o: Outcome)
    requires VhostWorks(x, v, o).pc.RemoveOrphans?
    ensures Controller !in VhostWorks(x, v, o).pc.stale
  {
  }

  lemma SparedStep(w: World, s: Step)
    requires OwnSpared(w)
    ensures OwnSpared(Apply(w, s))
  {
    if s.VhostMoves? {
      var n := VhostWorks(SeeVhost(w, s.v), s.v, s.o);
      if n.pc.RemoveOrphans? {
        StaleAreRefs(SeeVhost(w, s.v), s.v, s.o);
      }
      SparedWrite(w, s.v, n);
    } else {
      VhostTasksStay(w, s);
    }
  }

  lemma SparedWrite(w: World, v: VhostKey, n: VhostView)
    requires OwnSpared(w) && (n.pc.RemoveOrphans? ==> Controller !in n.pc.stale)
    ensures OwnSpared(WriteVhost(w, v, n))
  {
  }

  lemma {:induction false} SparedRun(w: World, ss: seq<Step>)
    requires OwnSpared(w)
    ensures OwnSpared(Run(w, ss))
    decreases ss
  {
    if ss != [] {
      SparedStep(w, ss[0]);
      SparedRun(Apply(w, ss[0]), ss[1..]);
    }
  }

  /** A step of the removal of vhost `v` deletes it from the broker, or leaves that out because the
      cluster is gone. */
  predicate SettlesVhost(w: World, s: Step, v: VhostKey) {
    && s.VhostMoves? && s.v == v && v in w.vhostTasks
    && match w.vhostTasks[v]
       case DeleteVhost(_) => s.o.ok && v !in Apply(w, s).brokerVhosts
       case Inspect(seen) => s.o.gone && !HasUserRef(seen)
       case _ => false
  }

  lemma VhostUnguardBefore(x: VhostView, v: VhostKey, o: Outcome)
    requires VhostWorks(x, v, o).pc.UnguardVhost?
    ensures || (x.pc.DeleteVhost? && o.ok && v !in VhostWorks(x, v, o).brokerVhosts)
            || (x.pc.Inspect? && o.gone && !HasUserRef(x.pc.seen))
  {
    if x.pc.Inspect? {
      ProceedMeans(x.pc.seen, x.users, o.timedOut);
    }
  }

  lemma VhostUnguardComesFrom(w: World, s: Step, v: VhostKey)
    requires AtVhostUnguard(Apply(w, s), v)
    ensures AtVhostUnguard(w, v) || SettlesVhost(w, s, v)
  {
    if s.VhostMoves? {
      if s.v == v {
        VhostUnguardBefore(SeeVhost(w, v), v, s.o);
      }
    } else {
      VhostTasksStay(w, s);
    }
  }

  lemma {:induction false} VhostSettlingHappened(w: World, ss: seq<Step>, v: VhostKey, d: nat) returns (i: nat)
    requires d <= |ss| && !AtVhostUnguard(w, v) && AtVhostUnguard(At(w, ss, d), v)
    ensures i < d && SettlesVhost(At(w, ss, i), ss[i], v)
    ensures forall m: nat :: i < m <= d ==> AtVhostUnguard(At(w, ss, m), v)
    decreases d
  {
    assert At(w, ss, 0) == w;
    RunNext(w, ss, d - 1);
    VhostUnguardComesFrom(At(w, ss, d - 1), ss[d - 1], v);
    if AtVhostUnguard(At(w, ss, d - 1), v) {
      i := VhostSettlingHappened(w, ss, v, d - 1);
    } else {
      i := d - 1;
    }
  }

  /** In every run a vhost loses its controller's finalizer, and so leaves the API server, only by its
      own removal, decided on an object with that finalizer, and after an earlier step of it deleted
      the vhost from the broker or found the cluster gone. */
  lemma VhostRemovalTheorem(w: World, ss: seq<Step>, d: nat, v: VhostKey) returns (i: nat)
    requires w.vhostTasks == map[] && d < |ss|
    requires Unguarded(At(w, ss, d).vhosts, At(w, ss, d + 1).vhosts, v)
    ensures i < d && ss[d].VhostMoves? && ss[d].v == v && SettlesVhost(At(w, ss, i), ss[i], v)
    ensures forall m: nat :: i < m <= d ==> AtVhostUnguard(At(w, ss, m), v)
    ensures AtVhostUnguard(At(w, ss, d), v) && Controller in At(w, ss, d).vhostTasks[v].seen
  {
    RunNext(w, ss, d);
    SparedRun(w, ss[..d]);
    VhostRemovedBy(At(w, ss, d), ss[d], v);
    i := VhostSettlingHappened(w, ss, v, d);
  }
}
