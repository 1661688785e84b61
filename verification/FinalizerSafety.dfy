/** What the finalizers protect: a user that is not deleted, or that a TransportURL still
    holds, keeps its vhost; nothing is assumed about the run. */
module FinalizerSafety {
  import opened ApiObjects
  import opened Protocol
  import opened Footprints
  import opened UserSafety

  // ---------------------------------------------------------------- the invariant

  ghost predicate Shape(w: World) {
    && (forall k :: k in w.users ==> UserShape(w.users[k]))
    && (forall v :: v in w.vhosts && w.vhosts[v].deleting ==> w.vhosts[v].finalizers != {})
  }

  /** A TransportURL about to claim its user holds the user's vhost. */
  ghost predicate Claiming(w: World) {
    forall t :: t in w.turlTasks && w.turlTasks[t].pc == ClaimUser && VhostOf(w.turlTasks[t].key).Some? ==>
      HasFin(w.vhosts, VhostOf(w.turlTasks[t].key).value, Consumer(t))
  }

  /** A live task of the user controller keeps its user, and its vhost once that is guarded. */
  ghost predicate UserTaskOk(w: World, k: UserKey, pc: UserPc) {
    && TaskHolds(w.users, k, pc)
    && (!Removing(pc) && !pc.GuardVhost? && VhostOf(k).Some? ==>
          HasFin(w.vhosts, VhostOf(k).value, UserRef(k.username)))
  }

  ghost predicate UserTasks(w: World) {
    forall k :: k in w.userTasks ==> UserTaskOk(w, k, w.userTasks[k].pc)
  }

  ghost predicate Doomed(w: World, v: VhostKey) {
    v in w.vhosts && w.vhosts[v].deleting && !HasConsumer(w.vhosts[v].finalizers)
  }

  /** A deletion that saw the controller's own finalizer can rely on the object staying. */
  ghost predicate Pinned(w: World, v: VhostKey) {
    Doomed(w, v) && HasFin(w.vhosts, v, Controller)
  }

  ghost predicate VhostTaskOk(w: World, v: VhostKey, pc: VhostPc) {
    match pc
    case NoTask => true
    case Inspect(seen) =>
      && seen != {} && !HasConsumer(seen)
      && (Controller in seen ==> Pinned(w, v) && forall f :: f in w.vhosts[v].finalizers ==> f in seen)
    case RemoveOrphans(seen, stale) =>
      && Doomed(w, v)
      && stale != {}
      && (forall f :: f in stale ==> f.UserRef? && HasFin(w.vhosts, v, f))
      && (forall k :: k in w.users && VhostOf(k) == Some(v) ==> UserRef(k.username) !in stale)
    case DeleteVhost(seen) => Proceeding(w, v, seen)
    case UnguardVhost(seen) => Proceeding(w, v, seen)
  }

  ghost predicate Proceeding(w: World, v: VhostKey, seen: set<Finalizer>) {
    && seen != {} && !HasConsumer(seen) && !HasUserRef(seen)
    && (Controller in seen ==> Pinned(w, v) && !HasUserRef(w.vhosts[v].finalizers))
  }

  ghost predicate VhostTasks(w: World) {
    forall v :: v in w.vhostTasks ==> VhostTaskOk(w, v, w.vhostTasks[v])
  }

  /** Somebody may still use the credentials of this user. */
  predicate InUse(u: User) {
    !u.deleting || HasConsumer(u.finalizers)
  }

  ghost predicate UserOk(w: World, k: UserKey)
    requires k in w.users
  {
    var u := w.users[k];
    && (u.body.provisioned ==> u.body.tracked)
    && (u.body.tracked && InUse(u) && VhostOf(k).Some? ==> HasFin(w.vhosts, VhostOf(k).value, UserRef(k.username)))
  }

  ghost predicate Chained(w: World) {
    forall k :: k in w.users ==> UserOk(w, k)
  }

  ghost predicate Inv(w: World) {
    Shape(w) && Claiming(w) && UserTasks(w) && VhostTasks(w) && Chained(w)
  }

  // ---------------------------------------------------------------- one write at a time

  lemma UserEndKeeps(w: World, k: UserKey)
    requires Inv(w)
    ensures Inv(w.(userTasks := w.userTasks - {k}))
  {
  }

  lemma UserTaskKeeps(w: World, k: UserKey, x: UserTask)
    requires Inv(w.(userTasks := w.userTasks - {k}))
    requires UserTaskOk(w, k, x.pc)
    ensures Inv(w.(userTasks := w.userTasks[k := x]))
  {
    var n := w.(userTasks := w.userTasks - {k});
    forall y | y in w.userTasks && y != k
      ensures UserTaskOk(w, y, w.userTasks[y].pc)
    {
      assert y in n.userTasks && UserTaskOk(n, y, n.userTasks[y].pc);
    }
  }

  lemma VhostEndKeeps(w: World, v: VhostKey)
    requires Inv(w)
    ensures Inv(w.(vhostTasks := w.vhostTasks - {v}))
  {
  }

  lemma VhostTaskKeeps(w: World, v: VhostKey, pc: VhostPc)
    requires Inv(w.(vhostTasks := w.vhostTasks - {v}))
    requires VhostTaskOk(w, v, pc)
    ensures Inv(w.(vhostTasks := w.vhostTasks[v := pc]))
  {
    var n := w.(vhostTasks := w.vhostTasks - {v});
    forall x | x in w.vhostTasks && x != v
      ensures VhostTaskOk(w, x, w.vhostTasks[x])
    {
      assert x in n.vhostTasks && VhostTaskOk(n, x, n.vhostTasks[x]);
    }
  }

  /** A write on one vhost may drop a finalizer only when nobody leans on it. */
  ghost predicate Droppable(w: World, v: VhostKey, f: Finalizer) {
    match f
    case Consumer(t) => t in w.turlTasks && w.turlTasks[t].pc == ClaimUser ==> VhostOf(w.turlTasks[t].key) != Some(v)
    case UserRef(name) =>
      && (forall k :: k in w.users && VhostOf(k) == Some(v) && k.username == name ==>
            && !(w.users[k].body.tracked && InUse(w.users[k]))
            && (k in w.userTasks ==> Removing(w.userTasks[k].pc) || w.userTasks[k].pc.GuardVhost?))
      && (v in w.vhostTasks && w.vhostTasks[v].RemoveOrphans? ==> f !in w.vhostTasks[v].stale)
    case Controller => v !in w.vhostTasks
    case External(_) => true
  }

  ghost predicate VhostWrite(w: World, v: VhostKey, m: map<VhostKey, Vhost>) {
    && (forall x :: x != v ==> (x in m <==> x in w.vhosts) && (x in m ==> m[x] == w.vhosts[x]))
    && (v in m && m[v].deleting ==> m[v].finalizers != {})
    && (v in w.vhosts && v in m && w.vhosts[v].deleting ==>
          m[v].deleting && forall f :: f in m[v].finalizers ==> f in w.vhosts[v].finalizers)
    && (forall f :: HasFin(w.vhosts, v, f) && !HasFin(m, v, f) ==> Droppable(w, v, f))
  }

  lemma VhostTaskSurvives(w: World, v: VhostKey, m: map<VhostKey, Vhost>, x: VhostKey)
    requires Inv(w)
    requires VhostWrite(w, v, m)
    requires x in w.vhostTasks
    ensures VhostTaskOk(w.(vhosts := m), x, w.vhostTasks[x])
  {
  }

  lemma VhostWriteKeeps(w: World, v: VhostKey, m: map<VhostKey, Vhost>)
    requires Inv(w)
    requires VhostWrite(w, v, m)
    ensures Inv(w.(vhosts := m))
  {
    var w' := w.(vhosts := m);
    forall k | k in w'.users
      ensures UserOk(w', k)
    {
      assert UserOk(w, k);
    }
    forall k | k in w'.userTasks
      ensures UserTaskOk(w', k, w'.userTasks[k].pc)
    {
      assert UserTaskOk(w, k, w.userTasks[k].pc);
    }
    forall x | x in w'.vhostTasks
      ensures VhostTaskOk(w', x, w'.vhostTasks[x])
    {
      VhostTaskSurvives(w, v, m, x);
    }
  }

  /** A write on one user keeps what its own task and the vhost tasks rely on. */
  ghost predicate UserWrite(w: World, k: UserKey, m: map<UserKey, User>) {
    && (forall x :: x != k ==> (x in m <==> x in w.users) && (x in m ==> m[x] == w.users[x]))
    && (k in m ==>
          && UserShape(m[k])
          && UserOk(w.(users := m), k)
          && (k !in w.users ==>
              forall v :: v in w.vhostTasks && w.vhostTasks[v].RemoveOrphans? && VhostOf(k) == Some(v) ==>
                UserRef(k.username) !in w.vhostTasks[v].stale))
    && (k in w.userTasks ==> TaskHolds(m, k, w.userTasks[k].pc))
  }

  lemma UserWriteKeeps(w: World, k: UserKey, m: map<UserKey, User>)
    requires Inv(w)
    requires UserWrite(w, k, m)
    ensures Inv(w.(users := m))
  {
  }

  // ---------------------------------------------------------------- the writes of the controllers

  lemma UnfinalizeVhost(w: World, v: VhostKey, f: Finalizer)
    requires Inv(w) && Droppable(w, v, f)
    ensures Inv(w.(vhosts := Unfinalize(w.vhosts, v, f)))
  {
    if v in w.vhosts {
      var fs := w.vhosts[v].finalizers;
      assert forall g :: g in fs && g != f ==> g in fs - {f};
      VhostWriteKeeps(w, v, Unfinalize(w.vhosts, v, f));
    }
  }

  lemma FinalizeVhost(w: World, v: VhostKey, f: Finalizer)
    requires Inv(w) && CanFinalize(w.vhosts, v, f)
    ensures Inv(w.(vhosts := Finalize(w.vhosts, v, f)))
  {
    VhostWriteKeeps(w, v, Finalize(w.vhosts, v, f));
  }

  lemma ClaimVhostKeeps(w: World, v: VhostKey, t: Name)
    requires Inv(w) && ClaimedVhost(w.vhosts, v, t).Some?
    ensures Inv(w.(vhosts := ClaimedVhost(w.vhosts, v, t).value))
    ensures HasFin(ClaimedVhost(w.vhosts, v, t).value, v, Consumer(t))
  {
    VhostWriteKeeps(w, v, ClaimedVhost(w.vhosts, v, t).value);
  }

  lemma DeleteVhostKeeps(w: World, v: VhostKey)
    requires Inv(w)
    ensures Inv(w.(vhosts := Delete(w.vhosts, v)))
    ensures Inv(w.(vhosts := SweptVhost(w.vhosts, v)))
  {
    VhostWriteKeeps(w, v, Delete(w.vhosts, v));
  }

  lemma ClaimUserKeeps(w: World, k: UserKey, t: Name)
    requires Inv(w) && ClaimedUser(w.users, k, t).Some?
    requires t in w.turlTasks && w.turlTasks[t].pc == ClaimUser && w.turlTasks[t].key == k
    ensures Inv(w.(users := ClaimedUser(w.users, k, t).value))
  {
  }

  lemma ReleaseUserKeeps(w: World, k: UserKey, t: Name)
    requires Inv(w)
    ensures Inv(w.(users := ReleasedUser(w.users, k, t)))
  {
    assert k in w.userTasks ==> UserTaskOk(w, k, w.userTasks[k].pc);
    if k in w.users {
      var fs := w.users[k].finalizers;
      assert forall g :: g in fs && g != Consumer(t) <==> g in fs - {Consumer(t)};
      assert UserOk(w, k);
      UserWriteKeeps(w, k, ReleasedUser(w.users, k, t));
    }
  }

  lemma AbandonUserKeeps(w: World, k: UserKey, t: Name)
    requires Inv(w)
    ensures Inv(w.(users := AbandonedUser(w.users, k, t)))
  {
    assert k in w.userTasks ==> UserTaskOk(w, k, w.userTasks[k].pc);
    if k in w.users {
      var fs := w.users[k].finalizers;
      assert forall g :: g in fs && g != Consumer(t) <==> g in fs - {Consumer(t)};
      assert UserOk(w, k);
      UserWriteKeeps(w, k, AbandonedUser(w.users, k, t));
    }
  }

  lemma DeleteUserKeeps(w: World, k: UserKey)
    requires Inv(w)
    ensures Inv(w.(users := Delete(w.users, k)))
  {
  }

  lemma FinalizeUser(w: World, k: UserKey, f: Finalizer)
    requires Inv(w) && CanFinalize(w.users, k, f) && (f.Controller? || f.External?)
    ensures Inv(w.(users := Finalize(w.users, k, f)))
  {
    assert k in w.userTasks ==> UserTaskOk(w, k, w.userTasks[k].pc);
    assert UserOk(w, k);
    UserWriteKeeps(w, k, Finalize(w.users, k, f));
  }

  lemma UnfinalizeUser(w: World, k: UserKey, f: Finalizer)
    requires Inv(w) && (f.External? || (f.Controller? && k !in w.userTasks))
    ensures Inv(w.(users := Unfinalize(w.users, k, f)))
  {
    assert k in w.userTasks ==> UserTaskOk(w, k, w.userTasks[k].pc);
    if k in w.users {
      assert UserOk(w, k);
      assert f.External? ==> (Controller in w.users[k].finalizers <==> Controller in w.users[k].finalizers - {f});
      UserWriteKeeps(w, k, Unfinalize(w.users, k, f));
    }
  }

  /** `Inv` does not read these fields. */
  lemma OtherFieldsKeep(w: World, turls: map<Name, Turl>, secrets: map<SecretName, Secret>, n: NodeSets,
                        accounts: set<(Name, Name)>, brokerVhosts: set<VhostKey>)
    requires Inv(w)
    ensures Inv(w.(turls := turls, secrets := secrets, nodeSets := n, accounts := accounts,
                   brokerVhosts := brokerVhosts))
  {
  }

  lemma TurlsKeep(w: World, turls: map<Name, Turl>)
    requires Inv(w)
    ensures Inv(w.(turls := turls))
  {
    OtherFieldsKeep(w, turls, w.secrets, w.nodeSets, w.accounts, w.brokerVhosts);
  }

  lemma SecretsKeep(w: World, secrets: map<SecretName, Secret>)
    requires Inv(w)
    ensures Inv(w.(secrets := secrets))
  {
    OtherFieldsKeep(w, w.turls, secrets, w.nodeSets, w.accounts, w.brokerVhosts);
  }

  lemma AccountsKeep(w: World, accounts: set<(Name, Name)>)
    requires Inv(w)
    ensures Inv(w.(accounts := accounts))
  {
    OtherFieldsKeep(w, w.turls, w.secrets, w.nodeSets, accounts, w.brokerVhosts);
  }

  lemma BrokerKeeps(w: World, brokerVhosts: set<VhostKey>)
    requires Inv(w)
    ensures Inv(w.(brokerVhosts := brokerVhosts))
  {
    OtherFieldsKeep(w, w.turls, w.secrets, w.nodeSets, w.accounts, brokerVhosts);
  }

  // ---------------------------------------------------------------- steps and runs

  /** A step of a reconcile, once its writes on users and vhosts are known to be harmless. */
  lemma WriteKeeps(w: World, t: Name, v: View)
    requires Inv(w.(users := v.users, vhosts := v.vhosts))
    requires v.task.pc == ClaimUser && VhostOf(v.task.key).Some? ==>
               HasFin(v.vhosts, VhostOf(v.task.key).value, Consumer(t))
    ensures Inv(Write(w, t, v))
  {
  }

  lemma TurlClaimVhostKeeps(w: World, t: Name, o: Outcome)
    requires Inv(w) && t in w.turlTasks
    ensures Inv(Write(w, t, TurlClaimsVhost(See(w, t), t, o)))
  {
    var vhost := VhostOf(w.turlTasks[t].key);
    if vhost.Some? && ClaimedVhost(w.vhosts, vhost.value, t).Some? {
      ClaimVhostKeeps(w, vhost.value, t);
    }
    WriteKeeps(w, t, TurlClaimsVhost(See(w, t), t, o));
  }

  lemma TurlClaimUserKeeps(w: World, t: Name, o: Outcome)
    requires Inv(w) && t in w.turlTasks && w.turlTasks[t].pc == ClaimUser
    ensures Inv(Write(w, t, TurlClaimsUser(See(w, t), t, o)))
  {
    var v := See(w, t);
    var claimed := ClaimedUser(w.users, v.task.key, t);
    if !o.ok || claimed.None? {
      WriteKeeps(w, t, Stop(v));
    } else {
      ClaimUserKeeps(w, v.task.key, t);
      WriteKeeps(w, t, v.(users := claimed.value, task := Handover(v.task)));
    }
  }

  lemma TurlReleaseKeeps(w: World, t: Name, o: Outcome, next: TurlPc)
    requires Inv(w) && t in w.turlTasks && next != ClaimUser
    ensures Inv(Write(w, t, TurlReleases(See(w, t), t, o, next)))
  {
    var v := See(w, t);
    if !o.ok || v.task.status.pending.None? {
      WriteKeeps(w, t, Stop(v));
    } else {
      ReleaseUserKeeps(w, v.task.status.pending.value, t);
      WriteKeeps(w, t, TurlReleases(v, t, o, next));
    }
  }

  lemma TurlAbandonKeeps(w: World, t: Name, o: Outcome)
    requires Inv(w) && t in w.turlTasks
    ensures Inv(Write(w, t, TurlAbandonsUser(See(w, t), t, o)))
  {
    AbandonUserKeeps(w, w.turlTasks[t].key, t);
    WriteKeeps(w, t, TurlAbandonsUser(See(w, t), t, o));
  }

  lemma TurlDropKeeps(w: World, t: Name, o: Outcome)
    requires Inv(w) && t in w.turlTasks && w.turlTasks[t].pc != ClaimUser
    ensures Inv(Write(w, t, TurlDropsVhost(See(w, t), t, o)))
  {
    var v := See(w, t);
    if v.task.status.vhost.None? || v.task.status.vhost == VhostOf(v.task.key) {
      WriteKeeps(w, t, Go(v, AwaitUser));
    } else {
      UnfinalizeVhost(w, v.task.status.vhost.value, Consumer(t));
      WriteKeeps(w, t, TurlDropsVhost(v, t, o));
    }
  }

  lemma TurlLeaveKeeps(w: World, t: Name, o: Outcome)
    requires Inv(w) && t in w.turlTasks && w.turlTasks[t].pc != ClaimUser
    ensures Inv(Write(w, t, TurlAbandonsVhost(See(w, t), t, o)))
  {
    if VhostOf(w.turlTasks[t].key).Some? {
      UnfinalizeVhost(w, VhostOf(w.turlTasks[t].key).value, Consumer(t));
    }
    WriteKeeps(w, t, TurlAbandonsVhost(See(w, t), t, o));
  }

  lemma TurlSweepKeeps(w: World, t: Name, o: Outcome)
    requires Inv(w) && t in w.turlTasks
    ensures Inv(Write(w, t, TurlSweepsVhost(See(w, t), o)))
  {
    if w.turlTasks[t].status.vhost.Some? {
      DeleteVhostKeeps(w, w.turlTasks[t].status.vhost.value);
    }
    WriteKeeps(w, t, TurlSweepsVhost(See(w, t), o));
  }

  /** The steps that leave users and vhosts alone. */
  predicate Private(pc: TurlPc) {
    || pc.Resting? || pc.CleanEarlier? || pc.AwaitUser? || pc.WriteSecret? || pc.CheckConsumer? || pc.CheckNodes?
    || pc.CleanSecret? || pc.SweepSecret? || pc.PatchStatus? || pc.DelSecret? || pc.DelDone?
  }

  lemma PrivateSecret(v: View, t: Name, o: Outcome)
    ensures var v' := TurlWritesSecret(v, t, o); v'.users == v.users && v'.vhosts == v.vhosts && v'.task.pc != ClaimUser
  {
  }

  lemma PrivateBoundary(v: View, t: Name, o: Outcome)
    requires v.task.pc.Resting? || v.task.pc.PatchStatus? || v.task.pc.DelDone?
    ensures var v' := TurlWorks(v, t, o); v'.users == v.users && v'.vhosts == v.vhosts && v'.task.pc != ClaimUser
  {
  }

  lemma PrivateStep(v: View, t: Name, o: Outcome)
    requires Private(v.task.pc)
    ensures var v' := TurlWorks(v, t, o); v'.users == v.users && v'.vhosts == v.vhosts && v'.task.pc != ClaimUser
  {
    match v.task.pc
    case Resting | PatchStatus | DelDone => PrivateBoundary(v, t, o);
    case WriteSecret => PrivateSecret(v, t, o);
    case CleanEarlier | AwaitUser | CheckConsumer | CheckNodes | CleanSecret | SweepSecret | DelSecret =>
  }

  lemma PrivateKeeps(w: World, t: Name, o: Outcome)
    requires Inv(w) && Private(See(w, t).task.pc)
    ensures Inv(TurlStep(w, t, o))
  {
    PrivateStep(See(w, t), t, o);
    WriteKeeps(w, t, TurlWorks(See(w, t), t, o));
  }

  lemma TurlKeeps(w: World, t: Name, o: Outcome)
    requires Inv(w)
    ensures Inv(TurlStep(w, t, o))
  {
    if Private(See(w, t).task.pc) {
      PrivateKeeps(w, t, o);
    } else {
      match w.turlTasks[t].pc
      case ClaimVhost => TurlClaimVhostKeeps(w, t, o);
      case ClaimUser => TurlClaimUserKeeps(w, t, o);
      case ReleaseEarlier => TurlReleaseKeeps(w, t, o, CleanEarlier);
      case DropVhost => TurlDropKeeps(w, t, o);
      case DropOrphanVhost => TurlSweepKeeps(w, t, o);
      case Release => TurlReleaseKeeps(w, t, o, CleanSecret);
      case DelPending =>
        TurlReleaseKeeps(w, t, o, DelSecret);
        WriteKeeps(w, t, Go(See(w, t), DelUser));
      case DelUser => TurlAbandonKeeps(w, t, o);
      case DelVhost => TurlLeaveKeeps(w, t, o);
    }
  }

  /** A step of a user's reconcile, from what its writes leave behind. */
  lemma WriteUserKeeps(w: World, k: UserKey, v: UserView)
    requires Inv(w.(users := v.users, vhosts := v.vhosts, userTasks := w.userTasks - {k}))
    requires v.task.pc.Idle? || UserTaskOk(w.(users := v.users, vhosts := v.vhosts), k, v.task.pc)
    ensures Inv(WriteUser(w, k, v))
  {
    var n := w.(users := v.users, vhosts := v.vhosts);
    if v.task.pc.Idle? {
      AccountsKeep(n.(userTasks := w.userTasks - {k}), v.accounts);
    } else {
      UserTaskKeeps(n, k, v.task);
      AccountsKeep(n.(userTasks := w.userTasks[k := v.task]), v.accounts);
    }
  }

  lemma GuardVhostKeeps(w: World, k: UserKey, o: Outcome, next: UserPc)
    requires Inv(w) && k in w.userTasks && !Removing(w.userTasks[k].pc)
    requires next.Reread? || next.RegardVhost? || next.Credentials?
    ensures Inv(WriteUser(w, k, UserGuardsVhost(SeeUser(w, k), k, o, next)))
  {
    UserEndKeeps(w, k);
    assert UserTaskOk(w, k, w.userTasks[k].pc);
    var v := VhostOf(k);
    if v.Some? && CanFinalize(w.vhosts, v.value, UserRef(k.username)) {
      FinalizeVhost(w.(userTasks := w.userTasks - {k}), v.value, UserRef(k.username));
    }
    WriteUserKeeps(w, k, UserGuardsVhost(SeeUser(w, k), k, o, next));
  }

  predicate TouchesAccountsOnly(pc: UserPc) {
    pc.Reread? || pc.Credentials? || pc.Provision? || pc.ListUsers? || pc.DeleteAccount?
  }

  lemma AccountStep(v: UserView, k: UserKey, o: Outcome)
    requires TouchesAccountsOnly(v.task.pc)
    ensures var v' := UserWorks(v, k, o);
            && v'.users == v.users && v'.vhosts == v.vhosts
            && (v'.task.pc.Idle? || Removing(v'.task.pc) == Removing(v.task.pc))
            && !v'.task.pc.GuardVhost?
  {
  }

  lemma AccountStepKeeps(w: World, k: UserKey, o: Outcome)
    requires Inv(w) && k in w.userTasks && TouchesAccountsOnly(w.userTasks[k].pc)
    ensures Inv(WriteUser(w, k, UserWorks(SeeUser(w, k), k, o)))
  {
    UserEndKeeps(w, k);
    assert UserTaskOk(w, k, w.userTasks[k].pc);
    AccountStep(SeeUser(w, k), k, o);
    WriteUserKeeps(w, k, UserWorks(SeeUser(w, k), k, o));
  }

  lemma DeleteOrphanKeeps(w: World, k: UserKey, o: Outcome)
    requires Inv(w) && k in w.userTasks
    ensures Inv(WriteUser(w, k, UserDeletesOrphan(SeeUser(w, k), k, o)))
  {
  }

  lemma UserVanishKeeps(w: World, k: UserKey, o: Outcome)
    requires Inv(w) && k in w.userTasks
    ensures Inv(WriteUser(w, k, UserVanishes(SeeUser(w, k), k, o)))
  {
    UserEndKeeps(w, k);
    UnfinalizeUser(w.(userTasks := w.userTasks - {k}), k, Controller);
    WriteUserKeeps(w, k, UserVanishes(SeeUser(w, k), k, o));
  }

  lemma PatchUserKeeps(w: World, k: UserKey, o: Outcome)
    requires Inv(w) && k in w.userTasks && w.userTasks[k].pc.PatchUser?
    ensures Inv(WriteUser(w, k, UserPatches(SeeUser(w, k), k, o)))
  {
    var n := w.(userTasks := w.userTasks - {k});
    UserEndKeeps(w, k);
    assert UserTaskOk(w, k, w.userTasks[k].pc);
    assert UserOk(w, k);
    UserWriteKeeps(n, k, PatchedUsers(w.users, k, w.userTasks[k].pc.provisioned));
    WriteUserKeeps(w, k, UserPatches(SeeUser(w, k), k, o));
  }

  lemma OwnRefDroppable(w: World, k: UserKey, v: VhostKey)
    requires Inv(w) && k in w.userTasks && w.userTasks[k].pc.LeaveVhost? && VhostOf(k) == Some(v)
    ensures Droppable(w.(userTasks := w.userTasks - {k}), v, UserRef(k.username))
  {
  }

  lemma LeaveVhostKeeps(w: World, k: UserKey, o: Outcome)
    requires Inv(w) && k in w.userTasks && w.userTasks[k].pc.LeaveVhost?
    ensures Inv(WriteUser(w, k, UserLeavesVhost(SeeUser(w, k), k, o)))
  {
    var n := w.(userTasks := w.userTasks - {k});
    UserEndKeeps(w, k);
    assert UserTaskOk(w, k, w.userTasks[k].pc);
    if VhostOf(k).Some? {
      OwnRefDroppable(w, k, VhostOf(k).value);
      UnfinalizeVhost(n, VhostOf(k).value, UserRef(k.username));
    }
    WriteUserKeeps(w, k, UserLeavesVhost(SeeUser(w, k), k, o));
  }

  lemma SweepVhostKeeps(w: World, k: UserKey, o: Outcome)
    requires Inv(w) && k in w.userTasks && w.userTasks[k].pc.LeaveOrphanVhost?
    ensures Inv(WriteUser(w, k, UserSweepsVhost(SeeUser(w, k), k, o)))
  {
    UserEndKeeps(w, k);
    assert UserTaskOk(w, k, w.userTasks[k].pc);
    if VhostOf(k).Some? {
      DeleteVhostKeeps(w.(userTasks := w.userTasks - {k}), VhostOf(k).value);
    }
    WriteUserKeeps(w, k, UserSweepsVhost(SeeUser(w, k), k, o));
  }

  lemma UserBeginsKeeps(w: World, k: UserKey)
    requires Inv(w)
    ensures Inv(WriteUser(w, k, UserBegins(SeeUser(w, k).(task := UserTask(Idle, false)), k)))
  {
    var n := w.(userTasks := w.userTasks - {k});
    UserEndKeeps(w, k);
    if k in w.users {
      var u := w.users[k];
      if !u.deleting && Controller !in u.finalizers {
        FinalizeUser(n, k, Controller);
      } else if u.deleting && !HasConsumer(u.finalizers) && !HasExternal(u.finalizers) {
        var f :| f in u.finalizers;
        assert f == Controller;
      }
    }
    WriteUserKeeps(w, k, UserBegins(SeeUser(w, k).(task := UserTask(Idle, false)), k));
  }

  lemma UserKeeps(w: World, k: UserKey, o: Outcome)
    requires Inv(w)
    ensures Inv(UserStep(w, k, o))
  {
    if k !in w.userTasks || w.userTasks[k].pc.Idle? {
      UserBeginsKeeps(w, k);
    } else {
      assert UserTaskOk(w, k, w.userTasks[k].pc);
      match w.userTasks[k].pc
      case GuardVhost => GuardVhostKeeps(w, k, o, if w.userTasks[k].orphaned then Reread else RegardVhost);
      case RegardVhost => GuardVhostKeeps(w, k, o, Credentials);
      case Reread | Credentials | Provision | ListUsers | DeleteAccount => AccountStepKeeps(w, k, o);
      case DeleteOrphan => DeleteOrphanKeeps(w, k, o);
      case PatchUser(_) => PatchUserKeeps(w, k, o);
      case LeaveVhost => LeaveVhostKeeps(w, k, o);
      case LeaveOrphanVhost => SweepVhostKeeps(w, k, o);
      case UnguardUser => UserVanishKeeps(w, k, o);
    }
  }

  /** A step of a vhost's reconcile, from what its writes leave behind. */
  lemma WriteVhostKeeps(w: World, v: VhostKey, x: VhostView)
    requires Inv(w.(vhosts := x.vhosts, vhostTasks := w.vhostTasks - {v}))
    requires x.pc.NoTask? || VhostTaskOk(w.(vhosts := x.vhosts), v, x.pc)
    ensures Inv(WriteVhost(w, v, x))
  {
    var n := w.(vhosts := x.vhosts);
    if x.pc.NoTask? {
      BrokerKeeps(n.(vhostTasks := w.vhostTasks - {v}), x.brokerVhosts);
    } else {
      VhostTaskKeeps(n, v, x.pc);
      BrokerKeeps(n.(vhostTasks := w.vhostTasks[v := x.pc]), x.brokerVhosts);
    }
  }

  lemma ProceedMeans(fs: set<Finalizer>, users: map<UserKey, User>, timedOut: bool)
    ensures Judge(fs, users, timedOut).Proceed? <==> !HasUserRef(fs)
  {
    var refs := set f | f in fs && f.UserRef?;
    assert forall f :: f in fs && f.UserRef? <==> f in refs;
  }

  lemma InspectKeeps(w: World, v: VhostKey, seen: set<Finalizer>, o: Outcome)
    requires Inv(w) && v in w.vhostTasks && w.vhostTasks[v] == Inspect(seen)
    ensures Inv(WriteVhost(w, v, VhostInspects(SeeVhost(w, v), v, seen, o)))
  {
    assert VhostTaskOk(w, v, Inspect(seen));
    VhostEndKeeps(w, v);
    ProceedMeans(seen, w.users, o.timedOut);
    WriteVhostKeeps(w, v, VhostInspects(SeeVhost(w, v), v, seen, o));
  }

  lemma DiscardKeeps(w: World, v: VhostKey, seen: set<Finalizer>, stale: set<Finalizer>, o: Outcome)
    requires Inv(w) && v in w.vhostTasks && w.vhostTasks[v] == RemoveOrphans(seen, stale)
    ensures Inv(WriteVhost(w, v, VhostDiscards(SeeVhost(w, v), v, seen, stale, o)))
  {
    assert VhostTaskOk(w, v, RemoveOrphans(seen, stale));
    VhostEndKeeps(w, v);
    var n := w.(vhostTasks := w.vhostTasks - {v});
    var m := VhostDiscards(SeeVhost(w, v), v, seen, stale, o).vhosts;
    forall f | HasFin(n.vhosts, v, f) && !HasFin(m, v, f)
      ensures Droppable(n, v, f)
    {
      assert f !in stale ==> f in seen - stale;
    }
    VhostWriteKeeps(n, v, m);
    WriteVhostKeeps(w, v, VhostDiscards(SeeVhost(w, v), v, seen, stale, o));
  }

  lemma DeletesKeeps(w: World, v: VhostKey, seen: set<Finalizer>, o: Outcome)
    requires Inv(w) && v in w.vhostTasks && w.vhostTasks[v] == DeleteVhost(seen)
    ensures Inv(WriteVhost(w, v, VhostDeletes(SeeVhost(w, v), v, seen, o)))
  {
    assert VhostTaskOk(w, v, w.vhostTasks[v]);
    VhostEndKeeps(w, v);
    WriteVhostKeeps(w, v, VhostDeletes(SeeVhost(w, v), v, seen, o));
  }

  lemma VhostVanishKeeps(w: World, v: VhostKey, seen: set<Finalizer>, o: Outcome)
    requires Inv(w) && v in w.vhostTasks
    ensures Inv(WriteVhost(w, v, VhostVanishes(SeeVhost(w, v), v, seen, o)))
  {
    VhostEndKeeps(w, v);
    UnfinalizeVhost(w.(vhostTasks := w.vhostTasks - {v}), v, Controller);
    WriteVhostKeeps(w, v, VhostVanishes(SeeVhost(w, v), v, seen, o));
  }

  lemma VhostBeginsKeeps(w: World, v: VhostKey, o: Outcome)
    requires Inv(w)
    ensures Inv(WriteVhost(w, v, VhostBegins(SeeVhost(w, v).(pc := NoTask), v, o)))
  {
    var x := SeeVhost(w, v).(pc := NoTask);
    VhostEndKeeps(w, v);
    if v in w.vhosts && !w.vhosts[v].deleting && Controller !in w.vhosts[v].finalizers {
      FinalizeVhost(w.(vhostTasks := w.vhostTasks - {v}), v, Controller);
    }
    WriteVhostKeeps(w, v, VhostBegins(x, v, o));
  }

  lemma VhostKeeps(w: World, v: VhostKey, o: Outcome)
    requires Inv(w)
    ensures Inv(VhostStep(w, v, o))
  {
    if v !in w.vhostTasks || w.vhostTasks[v].NoTask? {
      VhostBeginsKeeps(w, v, o);
    } else {
      match w.vhostTasks[v]
      case Inspect(seen) => InspectKeeps(w, v, seen, o);
      case RemoveOrphans(seen, stale) => DiscardKeeps(w, v, seen, stale, o);
      case DeleteVhost(seen) => DeletesKeeps(w, v, seen, o);
      case UnguardVhost(seen) => VhostVanishKeeps(w, v, seen, o);
    }
  }

  lemma EnvKeeps(w: World, s: Step)
    requires Inv(w)
    requires !s.TurlMoves? && !s.UserMoves? && !s.VhostMoves?
    ensures Inv(EnvStep(w, s))
  {
    match s
    case AdminDeletesUser(k) => DeleteUserKeeps(w, k);
    case AdminDeletesVhost(v) => DeleteVhostKeeps(w, v);
    case AddExternal(k, id) =>
      if CanFinalize(w.users, k, External(id)) {
        FinalizeUser(w, k, External(id));
      }
    case RemoveExternal(k, id) => UnfinalizeUser(w, k, External(id));
    case Consume(s, on) => SecretsKeep(w, Attached(w.secrets, s, on));
    case AddVhostExternal(v, id) =>
      if CanFinalize(w.vhosts, v, External(id)) {
        FinalizeVhost(w, v, External(id));
      }
    case RemoveVhostExternal(v, id) => UnfinalizeVhost(w, v, External(id));
    case SetNodeSets(n) => OtherFieldsKeep(w, w.turls, w.secrets, n, w.accounts, w.brokerVhosts);
    case CreateTurl(t, key, written) => TurlsKeep(w, Created(w.turls, t, key, written));
    case EditSpec(t, key, written) => TurlsKeep(w, Edited(w.turls, t, key, written));
    case DeleteTurl(t) => TurlsKeep(w, Deleted(w.turls, t));
  }

  lemma StepKeeps(w: World, s: Step)
    requires Inv(w)
    ensures Inv(Apply(w, s))
  {
    match s
    case TurlMoves(t, o) => TurlKeeps(w, t, o);
    case UserMoves(k, o) => UserKeeps(w, k, o);
    case VhostMoves(v, o) => VhostKeeps(w, v, o);
    case _ => EnvKeeps(w, s);
  }

  lemma {:induction false} RunKeeps(w: World, ss: seq<Step>)
    requires Inv(w)
    ensures Inv(Run(w, ss))
    decreases ss
  {
    if ss != [] {
      StepKeeps(w, ss[0]);
      RunKeeps(Apply(w, ss[0]), ss[1..]);
    }
  }

  // ---------------------------------------------------------------- what every run keeps

  /** Nothing is reconciled yet and no user exists; vhosts may carry leftovers of lost users. */
  ghost predicate Start(w: World) {
    && w.turlTasks == map[] && w.userTasks == map[] && w.vhostTasks == map[] && w.users == map[]
    && (forall v :: v in w.vhosts && w.vhosts[v].deleting ==> w.vhosts[v].finalizers != {})
  }

  lemma StartHolds(w: World)
    requires Start(w)
    ensures Inv(w)
  {
  }

  predicate DeletesFromBroker(w: World, s: Step, v: VhostKey) {
    v in w.brokerVhosts && v !in Apply(w, s).brokerVhosts
  }

  /** The delete call of this vhost is due, for the object as it was read. */
  predicate Deleting(w: World, v: VhostKey) {
    v in w.vhostTasks && w.vhostTasks[v].DeleteVhost?
  }

  lemma VhostDeletedBy(w: World, s: Step, v: VhostKey)
    requires DeletesFromBroker(w, s, v)
    ensures Deleting(w, v)
  {
    if !Deleting(w, v) {
      BrokerVhostStays(w, s, v);
      assert false;
    }
  }

  /** A vhost leaves the broker only when every user whose status names it is being deleted
      and held by nobody, and that includes users kept for a rotation that has not finished;
      provided the deletion was decided on an object with the controller's own finalizer. */
  lemma VhostChainTheorem(w: World, ss: seq<Step>, s: Step, v: VhostKey, k: UserKey)
    requires Start(w)
    requires DeletesFromBroker(Run(w, ss), s, v)
    ensures var n := Run(w, ss);
            && Deleting(n, v)
            && (Controller in n.vhostTasks[v].seen && k in n.users && n.users[k].body.tracked &&
                VhostOf(k) == Some(v) ==>
                  n.users[k].deleting && !HasConsumer(n.users[k].finalizers))
  {
    var n := Run(w, ss);
    StartHolds(w);
    RunKeeps(w, ss);
    VhostDeletedBy(n, s, v);
    assert VhostTaskOk(n, v, n.vhostTasks[v]);
    if k in n.users {
      assert UserOk(n, k);
    }
  }
}
