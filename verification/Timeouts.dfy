/** How the finalizer of a user leaves its vhost: the user's own removal takes it off, or the vhost
    controller does, after the timeout and only for users that no longer exist. */
module Timeouts {
  import opened ApiObjects
  import opened Protocol
  import opened Footprints
  import opened UserSafety
  import opened FinalizerSafety

  // ---------------------------------------------------------------- who takes it off

  predicate LosesRef(m: map<VhostKey, Vhost>, n: map<VhostKey, Vhost>, v: VhostKey, name: Name) {
    HasFin(m, v, UserRef(name)) && !HasFin(n, v, UserRef(name))
  }

  lemma TurlKeepsRef(x: View, t: Name, o: Outcome, v: VhostKey, name: Name)
    ensures !LosesRef(x.vhosts, TurlWorks(x, t, o).vhosts, v, name)
  {
    if Private(x.task.pc) {
      PrivateStep(x, t, o);
    } else {
      PublicKeepsRef(x, t, o, v, name);
    }
  }

  lemma PlainKeepsRef(m: map<VhostKey, Vhost>, h: VhostKey, f: Finalizer, v: VhostKey, name: Name)
    requires !f.UserRef?
    ensures !LosesRef(m, Unfinalize(m, h, f), v, name) && !LosesRef(m, SweptVhost(m, h), v, name)
    ensures !LosesRef(m, Delete(m, h), v, name)
    ensures CanFinalize(m, h, f) ==> !LosesRef(m, Finalize(m, h, f), v, name)
  {
    if h in m {
      assert UserRef(name) in m[h].finalizers <==> UserRef(name) in m[h].finalizers - {f};
    }
  }

  lemma PublicKeepsRef(x: View, t: Name, o: Outcome, v: VhostKey, name: Name)
    requires !Private(x.task.pc)
    ensures !LosesRef(x.vhosts, TurlWorks(x, t, o).vhosts, v, name)
  {
    match x.task.pc
    case ClaimVhost | DelVhost =>
      if VhostOf(x.task.key).Some? {
        PlainKeepsRef(x.vhosts, VhostOf(x.task.key).value, Consumer(t), v, name);
      }
    case DropVhost | DropOrphanVhost =>
      if x.task.status.vhost.Some? {
        PlainKeepsRef(x.vhosts, x.task.status.vhost.value, Consumer(t), v, name);
      }
    case ClaimUser | ReleaseEarlier | Release | DelPending | DelUser =>
  }

  lemma UserDropsRef(x: UserView, k: UserKey, o: Outcome, v: VhostKey, name: Name)
    requires LosesRef(x.vhosts, UserWorks(x, k, o).vhosts, v, name)
    ensures x.task.pc.LeaveVhost? && VhostOf(k) == Some(v) && k.username == name
  {
    if VhostOf(k).Some? {
      var h := VhostOf(k).value;
      PlainKeepsRef(x.vhosts, h, Controller, v, name);
      if h in x.vhosts {
        var fs := x.vhosts[h].finalizers;
        assert UserRef(name) in fs && name != k.username ==> UserRef(name) in fs - {UserRef(k.username)};
      }
    }
  }

  lemma VhostDropsRef(x: VhostView, u: VhostKey, o: Outcome, v: VhostKey, name: Name)
    requires LosesRef(x.vhosts, VhostWorks(x, u, o).vhosts, v, name)
    ensures u == v && x.pc.RemoveOrphans? && UserRef(name) in x.pc.stale
  {
    PlainKeepsRef(x.vhosts, u, Controller, v, name);
  }

  lemma EnvKeepsRef(w: World, s: Step, v: VhostKey, name: Name)
    requires !s.TurlMoves? && !s.UserMoves? && !s.VhostMoves?
    ensures !LosesRef(w.vhosts, EnvStep(w, s).vhosts, v, name)
  {
    match s
    case AdminDeletesVhost(u) => PlainKeepsRef(w.vhosts, u, Controller, v, name);
    case AddVhostExternal(u, id) => PlainKeepsRef(w.vhosts, u, External(id), v, name);
    case RemoveVhostExternal(u, id) => PlainKeepsRef(w.vhosts, u, External(id), v, name);
    case _ =>
  }

  /** The removal of user `k` is about to leave its vhost. */
  predicate AtLeave(w: World, k: UserKey) {
    k in w.userTasks && w.userTasks[k].pc.LeaveVhost?
  }

  /** The vhost controller is about to discard these finalizers. */
  predicate AtDiscard(w: World, v: VhostKey) {
    v in w.vhostTasks && w.vhostTasks[v].RemoveOrphans?
  }

  lemma RefDroppedBy(w: World, s: Step, v: VhostKey, name: Name)
    requires LosesRef(w.vhosts, Apply(w, s).vhosts, v, name)
    ensures || (s.UserMoves? && VhostOf(s.k) == Some(v) && s.k.username == name && AtLeave(w, s.k))
            || (s.VhostMoves? && s.v == v && AtDiscard(w, v) && UserRef(name) in w.vhostTasks[v].stale)
  {
    match s
    case TurlMoves(t, o) => TurlKeepsRef(See(w, t), t, o, v, name);
    case UserMoves(k, o) => UserDropsRef(SeeUser(w, k), k, o, v, name);
    case VhostMoves(u, o) => VhostDropsRef(SeeVhost(w, u), u, o, v, name);
    case _ => EnvKeepsRef(w, s, v, name);
  }

  // ---------------------------------------------------------------- what the discard was decided on

  /** Step i judged the finalizers `stale` of a deleted vhost to be discarded: the timeout was over,
      and no user CR of these names existed. */
  ghost predicate JudgedStale(w: World, ss: seq<Step>, v: VhostKey, stale: set<Finalizer>, i: nat)
    requires i < |ss|
  {
    && ss[i].VhostMoves? && ss[i].v == v && ss[i].o.timedOut
    && forall f :: f in stale ==> f.UserRef? && !KnownUsername(At(w, ss, i).users, f.username)
  }

  lemma JudgedBefore(x: VhostView, v: VhostKey, o: Outcome)
    requires VhostWorks(x, v, o).pc.RemoveOrphans?
    ensures x.pc.Inspect? && o.timedOut
    ensures forall f :: f in VhostWorks(x, v, o).pc.stale ==> f.UserRef? && !KnownUsername(x.users, f.username)
  {
    if x.pc.Inspect? {
      var refs := set f | f in x.pc.seen && f.UserRef?;
      assert Judge(x.pc.seen, x.users, o.timedOut).Discard?;
    }
  }

  lemma DiscardComesFrom(w: World, s: Step, v: VhostKey)
    requires AtDiscard(Apply(w, s), v)
    ensures || (AtDiscard(w, v) && w.vhostTasks[v] == Apply(w, s).vhostTasks[v])
            || (&& s.VhostMoves? && s.v == v && s.o.timedOut
                && forall f :: f in Apply(w, s).vhostTasks[v].stale ==>
                     f.UserRef? && !KnownUsername(w.users, f.username))
  {
    if s.VhostMoves? {
      if s.v == v {
        JudgedBefore(SeeVhost(w, v), v, s.o);
      }
    } else {
      VhostTasksStay(w, s);
    }
  }

  lemma {:induction false} JudgementHappened(w: World, ss: seq<Step>, v: VhostKey, d: nat) returns (i: nat)
    requires d <= |ss| && !AtDiscard(w, v) && AtDiscard(At(w, ss, d), v)
    ensures i < d && JudgedStale(w, ss, v, At(w, ss, d).vhostTasks[v].stale, i)
    decreases d
  {
    assert At(w, ss, 0) == w;
    RunNext(w, ss, d - 1);
    DiscardComesFrom(At(w, ss, d - 1), ss[d - 1], v);
    if AtDiscard(At(w, ss, d - 1), v) && At(w, ss, d - 1).vhostTasks[v] == At(w, ss, d).vhostTasks[v] {
      i := JudgementHappened(w, ss, v, d - 1);
    } else {
      i := d - 1;
    }
  }

  /** In every run a user's finalizer leaves a vhost only by the removal of a user CR of that name
      there, which is being deleted and held by nobody, or after an earlier step that found the
      timeout over and no CR of that name. */
  lemma TimeoutTheorem(w: World, ss: seq<Step>, d: nat, v: VhostKey, name: Name)
    requires w.users == map[] && w.userTasks == map[] && w.vhostTasks == map[] && d < |ss|
    requires LosesRef(At(w, ss, d).vhosts, At(w, ss, d + 1).vhosts, v, name)
    ensures var n := At(w, ss, d);
            || (&& ss[d].UserMoves? && VhostOf(ss[d].k) == Some(v) && ss[d].k.username == name && ss[d].k in n.users
                && n.users[ss[d].k].deleting && !HasConsumer(n.users[ss[d].k].finalizers))
            || (exists i: nat, stale :: i < d && UserRef(name) in stale && JudgedStale(w, ss, v, stale, i))
  {
    var n := At(w, ss, d);
    RunNext(w, ss, d);
    RefDroppedBy(n, ss[d], v, name);
    RunOk(w, ss[..d]);
    if ss[d].VhostMoves? {
      var i := JudgementHappened(w, ss, v, d);
    } else {
      assert TaskHolds(n.users, ss[d].k, n.userTasks[ss[d].k].pc);
    }
  }
}
