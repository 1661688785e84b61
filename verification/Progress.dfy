/** Undisturbed controllers finish: the safety theorems are not kept by doing nothing. */
module Progress {
  import opened ApiObjects
  import opened Protocol
  import opened Footprints
  import opened References
  import opened Reconcile

  function UserRuns(v: UserView, k: UserKey, o: Outcome, n: nat): UserView
    decreases n
  {
    if n == 0 then v else UserRuns(UserWorks(v, k, o), k, o, n - 1)
  }

  function VhostRuns(x: VhostView, v: VhostKey, o: Outcome, n: nat): VhostView
    decreases n
  {
    if n == 0 then x else VhostRuns(VhostWorks(x, v, o), v, o, n - 1)
  }

  // ---------------------------------------------------------------- a rotation

  /** The spec has moved on from user `a`, published in secret `first`, perhaps also to another
      vhost; its new user works, and nothing holds the rotation up. */
  predicate CanRotate(v: View, t: Name, a: UserKey, first: SecretName) {
    && CanComplete(v, t) && Unhindered(v) && a != v.turl.value.spec
    && v.turl.value.status.user == Some(a) && v.turl.value.status.pending.None?
    && v.turl.value.status.secret == Some(first) && v.turl.value.status.oldSecret.None?
  }

  /** What claiming b and then releasing a leaves behind. */
  lemma RotatedUsers(users: map<UserKey, User>, t: Name, a: UserKey, b: UserKey, waits: bool)
    requires a != b && Usable(users, b, waits) && !users[b].deleting
    ensures var n := ReleasedUser(ClaimedUser(users, b, t).value, a, t);
            && Claimed(n, t, b) && Usable(n, b, waits) && !Claimed(n, t, a)
            && (a in users && !users[a].deleting && a in n && !HasConsumer(n[a].finalizers) ==> n[a].body.orphaned)
  {
  }

  /** The vhost of the new user is held; one that is left loses its finalizer, and nothing else
      changes except that it is deleted if no reference is left on it. */
  ghost predicate VhostHandedOver(m: map<VhostKey, Vhost>, n: map<VhostKey, Vhost>, t: Name, left: Option<VhostKey>,
                                  k: UserKey)
    requires VhostFree(m, k, t)
  {
    && (VhostOf(k).Some? ==> HasFin(n, VhostOf(k).value, Consumer(t)))
    && if left.Some? && left != VhostOf(k) then DropsAndSweeps(HeldVhosts(m, k, t), n, left.value, Consumer(t))
       else n == HeldVhosts(m, k, t)
  }

  lemma RotatedVhosts(v: View, t: Name)
    requires CanComplete(v, t)
    ensures VhostHandedOver(v.vhosts, Prepared(v, t).vhosts, t, v.turl.value.status.vhost, v.turl.value.spec)
  {
    var m := Claiming(v, t);
    var x := HandedOver(m, t).task;
    assert VhostOf(x.key).Some? ==> HasFin(m.vhosts, VhostOf(x.key).value, Consumer(t));
    assert Prepared(v, t).vhosts == DroppedVhosts(m.vhosts, x, t);
    if x.status.vhost.Some? {
      SweepDrops(m.vhosts, x.status.vhost.value, Consumer(t));
    }
    DroppedHolds(m.vhosts, x, t);
  }

  lemma DroppedHolds(vhosts: map<VhostKey, Vhost>, x: TurlTask, t: Name)
    requires VhostOf(x.key).Some? ==> HasFin(vhosts, VhostOf(x.key).value, Consumer(t))
    ensures VhostOf(x.key).Some? ==> HasFin(DroppedVhosts(vhosts, x, t), VhostOf(x.key).value, Consumer(t))
  {
  }

  /** The outcome of a completed rotation. */
  ghost predicate RotatedTo(v: View, n: View, t: Name, a: UserKey, c: Content, first: SecretName)
    requires v.turl.Some? && VhostFree(v.vhosts, c.user, t)
  {
    var name := Immutable(t, c);
    && n.task == NO_RECONCILE && n.turl.Some?
    && n.turl.value.status == TurlStatus(Some(c.user), None, VhostOf(c.user), Some(name), None, Some(c))
    && name in n.secrets && first !in n.secrets
    && Claimed(n.users, t, c.user) && !Claimed(n.users, t, a)
    && (a in v.users && !v.users[a].deleting && a in n.users && !HasConsumer(n.users[a].finalizers) ==>
          n.users[a].body.orphaned)
    && VhostHandedOver(v.vhosts, n.vhosts, t, v.turl.value.status.vhost, c.user)
  }

  lemma RotatedSecrets(secrets: map<SecretName, Secret>, st: TurlStatus, t: Name, c: Content, first: SecretName)
    requires st.oldSecret.None? && st.secret == Some(first) && !Consumed(secrets, Some(first)) &&
             first != Immutable(t, c)
    ensures var n := SweptSecret(WithSecret(secrets, st, t, c), Former(st)); Immutable(t, c) in n && first !in n
  {
  }

  /** One undisturbed reconcile completes the rotation: b is published and held, a is let go
      and, when nobody else holds it, marked for removal; the old secret is gone, and so is the
      claim on a vhost that is left. */
  lemma RotationCompletes(v: View, t: Name, os: Outcomes, a: UserKey, first: SecretName)
    requires CanRotate(v, t, a, first) && Smooth(os) && os(PatchStatus).ok
    requires first != Immutable(t, Content(v.turl.value.spec, os(WriteSecret).rest))
    ensures RotatedTo(v, Whole(v, t, os), t, a, Content(v.turl.value.spec, os(WriteSecret).rest), first)
  {
    var b := v.turl.value.spec;
    var p := Prepared(v, t);
    Prepares(v, t, os);
    PreparedUnused(v, t);
    PreparedPending(v, t);
    FromWritePending(p, t, os);
    RotatedUsers(v.users, t, a, b, Waits(v.turl.value));
    RotatedSecrets(p.secrets, p.task.status, t, Content(b, os(WriteSecret).rest), first);
    RotatedVhosts(v, t);
  }

  // ---------------------------------------------------------------- removing an orphan

  /** A labelled user that only its own controller still holds. */
  predicate Orphan(v: UserView, k: UserKey) {
    && v.task.pc.Idle? && k in v.users && !v.users[k].deleting && v.users[k].body.orphaned
    && v.users[k].finalizers == {Controller}
    && (VhostOf(k).Some? ==> CanFinalize(v.vhosts, VhostOf(k).value, UserRef(k.username)))
  }

  lemma UserNext(v: UserView, k: UserKey, o: Outcome, n: nat)
    requires n > 0
    ensures UserRuns(v, k, o, n) == UserRuns(UserWorks(v, k, o), k, o, n - 1)
  {
  }

  /** The first four steps mark the orphan for deletion. */
  lemma OrphanMarked(v: UserView, k: UserKey, o: Outcome, n: nat) returns (m: UserView)
    requires Orphan(v, k) && o.ok && n >= 4
    ensures UserRuns(v, k, o, n) == UserRuns(m, k, o, n - 4)
    ensures m.task.pc.Idle? && m.accounts == v.accounts && m.brokerVhosts == v.brokerVhosts
    ensures m.users == v.users[k := v.users[k].(deleting := true)]
    ensures m.vhosts == if VhostOf(k).Some? then Finalize(v.vhosts, VhostOf(k).value, UserRef(k.username)) else v.vhosts
  {
    var v1 := v.(task := UserTask(GuardVhost, true));
    UserNext(v, k, o, n);
    UserNext(v1, k, o, n - 1);
    var v2 := UserGuardsVhost(v1, k, o, Reread);
    UserNext(v2, k, o, n - 2);
    var v3 := v2.(task := UserTask(DeleteOrphan, true));
    assert UserWorks(v2, k, o) == v3;
    UserNext(v3, k, o, n - 3);
    m := UserDeletesOrphan(v3, k, o);
  }

  /** What the removal of user `k` does to the vhosts. */
  ghost predicate LeavesVhosts(m: map<VhostKey, Vhost>, n: map<VhostKey, Vhost>, k: UserKey) {
    match VhostOf(k)
    case None => n == m
    case Some(h) => DropsAndSweeps(m, n, h, UserRef(k.username))
  }

  predicate HasVhost(v: UserView, k: UserKey) {
    VhostOf(k).Some? && VhostOf(k).value in v.vhosts
  }

  predicate KeepsAccount(users: map<UserKey, User>, k: UserKey, o: Outcome) {
    o.gone || SharedAccount(users, k)
  }

  /** The steps from finding the user deleted to its end. */
  function RemovalSteps(v: UserView, k: UserKey, o: Outcome): nat {
    (if HasVhost(v, k) then 5 else 4) + if KeepsAccount(v.users, k, o) then 0 else 1
  }

  /** The user is gone from the API server, its account from the broker unless another CR manages it
      or the cluster is gone, and its finalizer from its vhost. */
  ghost predicate Removed(v: UserView, n: UserView, k: UserKey, o: Outcome) {
    && n.task.pc.Idle? && n.users == v.users - {k} && n.brokerVhosts == v.brokerVhosts
    && n.accounts == (if KeepsAccount(v.users, k, o) then v.accounts else v.accounts - {Account(k)})
    && LeavesVhosts(v.vhosts, n.vhosts, k)
  }

  lemma DeletedRemoved(v: UserView, k: UserKey, o: Outcome)
    requires v.task.pc.Idle? && k in v.users && v.users[k].deleting && v.users[k].finalizers == {Controller}
    requires o.ok
    ensures Removed(v, UserRuns(v, k, o, RemovalSteps(v, k, o)), k, o)
  {
    var x := v.(task := UserTask(LeaveVhost, v.users[k].body.orphaned));
    var n := RemovalSteps(v, k, o);
    assert !HasConsumer({Controller}) && !HasExternal({Controller});
    UserNext(v, k, o, n);
    assert UserWorks(v, k, o) == x;
    LeavesVhost(x, k, o, n - 1);
  }

  lemma LeavesVhost(v: UserView, k: UserKey, o: Outcome, n: nat)
    requires v.task.pc.LeaveVhost? && k in v.users && v.users[k].deleting && v.users[k].finalizers == {Controller}
    requires o.ok && n + 1 == RemovalSteps(v, k, o)
    ensures Removed(v, UserRuns(v, k, o, n), k, o)
  {
    var x := UserLeavesVhost(v, k, o);
    assert UserWorks(v, k, o) == x;
    UserNext(v, k, o, n);
    if HasVhost(v, k) {
      var h := VhostOf(k).value;
      var y := UserSweepsVhost(x, k, o);
      UserNext(x, k, o, n - 1);
      SweepDrops(v.vhosts, h, UserRef(k.username));
      assert y.vhosts == SweptVhost(Unfinalize(v.vhosts, h, UserRef(k.username)), h);
      ListedRemoved(y, k, o, n - 2);
    } else {
      ListedRemoved(x, k, o, n - 1);
    }
  }

  lemma ListedRemoved(v: UserView, k: UserKey, o: Outcome, n: nat)
    requires v.task.pc.ListUsers? && k in v.users && v.users[k].deleting && v.users[k].finalizers == {Controller}
    requires o.ok && n == if KeepsAccount(v.users, k, o) then 2 else 3
    ensures var m := UserRuns(v, k, o, n);
            && m.task.pc.Idle? && m.users == v.users - {k} && m.vhosts == v.vhosts && m.brokerVhosts == v.brokerVhosts
            && m.accounts == if KeepsAccount(v.users, k, o) then v.accounts else v.accounts - {Account(k)}
  {
    var x := UserAt(if KeepsAccount(v.users, k, o) then v else v.(accounts := v.accounts - {Account(k)}), UnguardUser);
    UserNext(v, k, o, n);
    if !KeepsAccount(v.users, k, o) {
      UserNext(UserAt(v, DeleteAccount), k, o, 2);
    }
    UserNext(x, k, o, 1);
    assert {Controller} - {Controller} == {};
  }

  lemma StillShared(users: map<UserKey, User>, k: UserKey, u: User)
    ensures SharedAccount(users[k := u], k) <==> SharedAccount(users, k)
    ensures users[k := u] - {k} == users - {k}
  {
    if SharedAccount(users, k) {
      var other :| other in users && other != k && Account(other) == Account(k) && !users[other].deleting;
      assert other in users[k := u] && users[k := u][other] == users[other];
    }
  }

  /** An orphan is removed, with its account and its finalizer on its vhost, in eleven undisturbed
      steps at most. */
  lemma OrphanRemoved(v: UserView, k: UserKey, o: Outcome)
    requires Orphan(v, k) && o.ok
    ensures Removed(v, UserRuns(v, k, o, 4 + RemovalSteps(v, k, o)), k, o)
  {
    StillShared(v.users, k, v.users[k].(deleting := true));
    var m := OrphanMarked(v, k, o, 4 + RemovalSteps(v, k, o));
    DeletedRemoved(m, k, o);
    if VhostOf(k).Some? {
      DropsThrough(v.vhosts, m.vhosts, UserRuns(v, k, o, 4 + RemovalSteps(v, k, o)).vhosts, VhostOf(k).value,
                   UserRef(k.username));
    }
  }

  /** Putting the finalizer on first makes no difference. */
  lemma DropsThrough(l: map<VhostKey, Vhost>, m: map<VhostKey, Vhost>, n: map<VhostKey, Vhost>, h: VhostKey,
                     f: Finalizer)
    requires CanFinalize(l, h, f) && m == Finalize(l, h, f) && DropsAndSweeps(m, n, h, f)
    ensures DropsAndSweeps(l, n, h, f)
  {
    forall g | g != f
      ensures HasFin(n, h, g) <==> HasFin(l, h, g)
    {
      assert HasFin(n, h, g) <==> HasFin(m, h, g);
    }
    forall x | x != h
      ensures SameAt(l, n, x)
    {
      assert SameAt(m, n, x);
    }
  }

  /** If nobody else references the orphan's vhost, the vhost goes too, from API server and broker. */
  lemma OrphanVhostRemoved(v: UserView, k: UserKey, o: Outcome, h: VhostKey)
    requires Orphan(v, k) && o.ok && !o.gone && VhostOf(k) == Some(h)
    requires Controller in v.vhosts[h].finalizers && v.vhosts[h].finalizers <= {Controller, UserRef(k.username)}
    ensures var m := UserRuns(v, k, o, 4 + RemovalSteps(v, k, o));
            var n := VhostRuns(VhostView(m.users, m.vhosts, m.brokerVhosts, NoTask), h, o, VhostRemovalSteps(o));
            n.pc.NoTask? && h !in n.vhosts && h !in n.brokerVhosts
  {
    var m := UserRuns(v, k, o, 4 + RemovalSteps(v, k, o));
    OrphanRemoved(v, k, o);
    assert HasFin(m.vhosts, h, Controller) && !HasFin(m.vhosts, h, UserRef(k.username));
    forall g | HasFin(m.vhosts, h, g)
      ensures g == Controller
    {
      assert HasFin(v.vhosts, h, g);
    }
    assert forall g :: g in m.vhosts[h].finalizers ==> HasFin(m.vhosts, h, g);
    assert m.vhosts[h].finalizers == {Controller};
    VhostRemoved(VhostView(m.users, m.vhosts, m.brokerVhosts, NoTask), h, o);
  }

  function VhostRemovalSteps(o: Outcome): nat {
    if o.gone then 3 else 4
  }

  lemma VhostNext(x: VhostView, v: VhostKey, o: Outcome, n: nat)
    requires n > 0
    ensures VhostRuns(x, v, o, n) == VhostRuns(VhostWorks(x, v, o), v, o, n - 1)
  {
  }

  /** A vhost nobody references is removed from the API server, and from the broker if the cluster
      is still there. */
  lemma VhostRemoved(x: VhostView, v: VhostKey, o: Outcome)
    requires x.pc.NoTask? && v in x.vhosts && x.vhosts[v].deleting && x.vhosts[v].finalizers == {Controller}
    requires o.ok
    ensures var n := VhostRuns(x, v, o, VhostRemovalSteps(o));
            && n.pc.NoTask? && n.vhosts == x.vhosts - {v}
            && n.brokerVhosts == if o.gone then x.brokerVhosts else x.brokerVhosts - {v}
  {
    var n := VhostRemovalSteps(o);
    var own := {Controller};
    assert !HasConsumer(own) && (set f | f in own && f.UserRef?) == {};
    VhostNext(x, v, o, n);
    VhostNext(x.(pc := Inspect(own)), v, o, n - 1);
    if !o.gone {
      VhostNext(x.(pc := DeleteVhost(own)), v, o, 2);
    }
    var y := x.(brokerVhosts := if o.gone then x.brokerVhosts else x.brokerVhosts - {v}, pc := UnguardVhost(own));
    VhostNext(y, v, o, 1);
    assert own - {Controller} == {};
  }

  /** Finalizers of users that no longer exist hold a deleted vhost up until the timeout and no
      longer: then they are discarded, and the vhost goes. */
  lemma StaleVhostRemoved(x: VhostView, v: VhostKey, o: Outcome, refs: set<Finalizer>)
    requires x.pc.NoTask? && v in x.vhosts && x.vhosts[v].deleting && x.vhosts[v].finalizers == {Controller} + refs
    requires refs != {} && forall f :: f in refs ==> f.UserRef? && !KnownUsername(x.users, f.username)
    requires o.ok
    ensures o.timedOut ==>
              var n := VhostRuns(x, v, o, 3 + VhostRemovalSteps(o));
              && n.pc.NoTask? && n.vhosts == x.vhosts - {v}
              && n.brokerVhosts == if o.gone then x.brokerVhosts else x.brokerVhosts - {v}
    ensures !o.timedOut ==> VhostRuns(x, v, o, 2) == x
  {
    var seen := {Controller} + refs;
    assert (set f | f in seen && f.UserRef?) == refs && !HasConsumer(seen);
    var n := 3 + VhostRemovalSteps(o);
    VhostNext(x, v, o, n);
    VhostNext(x, v, o, 2);
    VhostNext(x.(pc := Inspect(seen)), v, o, n - 1);
    VhostNext(x.(pc := Inspect(seen)), v, o, 1);
    if o.timedOut {
      VhostNext(x.(pc := RemoveOrphans(seen, refs)), v, o, n - 2);
      assert seen - refs == {Controller};
      var y := x.(vhosts := x.vhosts[v := x.vhosts[v].(finalizers := {Controller})]);
      VhostRemoved(y, v, o);
      assert y.vhosts - {v} == x.vhosts - {v};
    }
  }
}
