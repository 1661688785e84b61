/** What holds of user CRs, their labels and their broker accounts in every run whatsoever. */
module UserSafety {
  import opened ApiObjects
  import opened Protocol
  import opened Footprints

  // ---------------------------------------------------------------- the invariant

  /** A running task keeps its user; a removal has found it deleted and held by nobody. */
  predicate TaskHolds(users: map<UserKey, User>, k: UserKey, pc: UserPc) {
    && HasFin(users, k, Controller)
    && (Removing(pc) ==>
          users[k].deleting && !HasConsumer(users[k].finalizers) && !HasExternal(users[k].finalizers))
  }

  /** The orphaned label never sits beside a consumer's finalizer. */
  predicate UserShape(u: User) {
    && (u.deleting ==> u.finalizers != {})
    && !HasUserRef(u.finalizers)
    && (u.body.orphaned ==> !HasConsumer(u.finalizers))
  }

  ghost predicate UsersOk(users: map<UserKey, User>, tasks: map<UserKey, UserTask>) {
    && (forall k :: k in users ==> UserShape(users[k]))
    && (forall k :: k in tasks ==> TaskHolds(users, k, tasks[k].pc))
  }

  // ---------------------------------------------------------------- writes

  lemma ClaimOk(users: map<UserKey, User>, tasks: map<UserKey, UserTask>, k: UserKey, t: Name)
    requires UsersOk(users, tasks) && ClaimedUser(users, k, t).Some?
    ensures UsersOk(ClaimedUser(users, k, t).value, tasks)
  {
  }

  lemma ReleaseOk(users: map<UserKey, User>, tasks: map<UserKey, UserTask>, k: UserKey, t: Name)
    requires UsersOk(users, tasks)
    ensures UsersOk(ReleasedUser(users, k, t), tasks)
    ensures UsersOk(AbandonedUser(users, k, t), tasks)
  {
    if k in users {
      assert Controller in users[k].finalizers <==> Controller in users[k].finalizers - {Consumer(t)};
    }
  }

  lemma DeleteOk(users: map<UserKey, User>, tasks: map<UserKey, UserTask>, k: UserKey)
    requires UsersOk(users, tasks)
    ensures UsersOk(Delete(users, k), tasks)
  {
  }

  lemma PlainOk(users: map<UserKey, User>, tasks: map<UserKey, UserTask>, k: UserKey, f: Finalizer)
    requires UsersOk(users, tasks) && (f.Controller? || f.External?)
    ensures CanFinalize(users, k, f) ==> UsersOk(Finalize(users, k, f), tasks)
    ensures f.External? || k !in tasks ==> UsersOk(Unfinalize(users, k, f), tasks)
  {
    if k in users && f.External? {
      assert Controller in users[k].finalizers <==> Controller in users[k].finalizers - {f};
    }
  }

  lemma PatchOk(users: map<UserKey, User>, tasks: map<UserKey, UserTask>, k: UserKey, granted: bool)
    requires UsersOk(users, tasks) && k in users
    ensures UsersOk(PatchedUsers(users, k, granted), tasks)
  {
  }

  // ---------------------------------------------------------------- steps and runs

  lemma TurlOk(v: View, t: Name, o: Outcome, tasks: map<UserKey, UserTask>)
    requires UsersOk(v.users, tasks)
    ensures UsersOk(TurlWorks(v, t, o).users, tasks)
  {
    var x := v.task;
    if x.pc.ClaimUser? {
      if ClaimedUser(v.users, x.key, t).Some? {
        ClaimOk(v.users, tasks, x.key, t);
      }
    } else if x.pc.DelUser? {
      ReleaseOk(v.users, tasks, x.key, t);
    } else if x.pc.ReleaseEarlier? || x.pc.Release? || x.pc.DelPending? {
      if x.status.pending.Some? {
        ReleaseOk(v.users, tasks, x.status.pending.value, t);
      }
    } else {
      QuietStep(v, t, o);
    }
  }

  /** The task of `k` itself goes on with what the step leaves. */
  lemma UserBeginsOk(v: UserView, k: UserKey)
    requires v.task.pc.Idle? && (forall x :: x in v.users ==> UserShape(v.users[x]))
    ensures var n := UserBegins(v, k); n.task.pc.Idle? || TaskHolds(n.users, k, n.task.pc)
  {
    if k in v.users && v.users[k].deleting && !HasConsumer(v.users[k].finalizers) &&
      !HasExternal(v.users[k].finalizers) {
      var f :| f in v.users[k].finalizers;
      assert f == Controller;
    }
  }

  lemma UserWorksOk(v: UserView, k: UserKey, o: Outcome, rest: map<UserKey, UserTask>)
    requires UsersOk(v.users, rest) && k !in rest && (v.task.pc.Idle? || TaskHolds(v.users, k, v.task.pc))
    ensures var n := UserWorks(v, k, o);
            UsersOk(n.users, rest) && (n.task.pc.Idle? || TaskHolds(n.users, k, n.task.pc))
  {
    match v.task.pc
    case Idle =>
      UserBeginsOk(v, k);
      PlainOk(v.users, rest, k, Controller);
    case DeleteOrphan => DeleteOk(v.users, rest, k);
    case UnguardUser => PlainOk(v.users, rest, k, Controller);
    case PatchUser(granted) => PatchOk(v.users, rest, k, granted);
    case _ => QuietUserStep(v, k, o);
  }

  lemma UserStepOk(w: World, k: UserKey, o: Outcome)
    requires UsersOk(w.users, w.userTasks)
    ensures var n := UserStep(w, k, o); UsersOk(n.users, n.userTasks)
  {
    var v := SeeUser(w, k);
    UserWorksOk(v, k, o, w.userTasks - {k});
    UserWriteOk(w, k, UserWorks(v, k, o));
  }

  lemma UserWriteOk(w: World, k: UserKey, n: UserView)
    requires UsersOk(n.users, w.userTasks - {k}) && (n.task.pc.Idle? || TaskHolds(n.users, k, n.task.pc))
    ensures var m := WriteUser(w, k, n); UsersOk(m.users, m.userTasks)
  {
    forall x | x in w.userTasks && x != k
      ensures TaskHolds(n.users, x, w.userTasks[x].pc)
    {
      assert x in w.userTasks - {k};
    }
  }

  lemma EnvOk(w: World, s: Step)
    requires UsersOk(w.users, w.userTasks)
    requires !s.TurlMoves? && !s.UserMoves? && !s.VhostMoves?
    ensures UsersOk(EnvStep(w, s).users, w.userTasks)
  {
    match s
    case AdminDeletesUser(k) => DeleteOk(w.users, w.userTasks, k);
    case AddExternal(k, id) => PlainOk(w.users, w.userTasks, k, External(id));
    case RemoveExternal(k, id) => PlainOk(w.users, w.userTasks, k, External(id));
    case _ =>
  }

  lemma StepOk(w: World, s: Step)
    requires UsersOk(w.users, w.userTasks)
    ensures UsersOk(Apply(w, s).users, Apply(w, s).userTasks)
  {
    match s
    case TurlMoves(t, o) => TurlOk(See(w, t), t, o, w.userTasks);
    case UserMoves(k, o) => UserStepOk(w, k, o);
    case VhostMoves(v, o) => VhostFootprint(w, v, o);
    case _ =>
      EnvOk(w, s);
      EnvFootprint(w, s);
  }

  lemma {:induction false} RunOk(w: World, ss: seq<Step>)
    requires UsersOk(w.users, w.userTasks)
    ensures UsersOk(Run(w, ss).users, Run(w, ss).userTasks)
    decreases ss
  {
    if ss != [] {
      StepOk(w, ss[0]);
      RunOk(Apply(w, ss[0]), ss[1..]);
    }
  }

  // ---------------------------------------------------------------- labels and accounts

  /** The orphaned label is only ever on a user no TransportURL holds. */
  lemma OrphanLabelTheorem(w: World, ss: seq<Step>, k: UserKey)
    requires w.users == map[] && w.userTasks == map[]
    ensures var n := Run(w, ss);
            k in n.users && n.users[k].body.orphaned ==> !HasConsumer(n.users[k].finalizers)
  {
    RunOk(w, ss);
  }

  predicate DeletesAccount(w: World, s: Step, account: (Name, Name)) {
    account in w.accounts && account !in Apply(w, s).accounts
  }

  predicate AtDelete(w: World, k: UserKey) {
    k in w.userTasks && w.userTasks[k].pc.DeleteAccount?
  }

  lemma DeletedBy(w: World, s: Step, account: (Name, Name))
    requires DeletesAccount(w, s, account)
    ensures s.UserMoves? && Account(s.k) == account && AtDelete(w, s.k)
  {
    if !(s.UserMoves? && Account(s.k) == account && AtDelete(w, s.k)) {
      AccountStays(w, s, account);
      assert false;
    }
  }

  /** The broker deletes a user only for a CR that is being deleted and held by nobody, whatever
      claims and re-reads raced with the deletion. */
  lemma AccountTheorem(w: World, ss: seq<Step>, s: Step, account: (Name, Name))
    requires w.users == map[] && w.userTasks == map[]
    requires DeletesAccount(Run(w, ss), s, account)
    ensures var n := Run(w, ss);
            && s.UserMoves? && Account(s.k) == account && s.k in n.users
            && n.users[s.k].deleting && !HasConsumer(n.users[s.k].finalizers)
  {
    RunOk(w, ss);
    DeletedBy(Run(w, ss), s, account);
  }

  // ---------------------------------------------------------------- the check before the delete

  /** Step i of the run listed all users for the removal of `k` and found no other undeleted CR
      of the same account. */
  predicate FoundAlone(w: World, ss: seq<Step>, k: UserKey, i: nat)
    requires i < |ss|
  {
    var n := At(w, ss, i);
    && ss[i].UserMoves? && ss[i].k == k && k in n.userTasks && n.userTasks[k].pc.ListUsers?
    && !SharedAccount(n.users, k)
  }

  lemma ListedBefore(v: UserView, k: UserKey, o: Outcome)
    requires UserWorks(v, k, o).task.pc.DeleteAccount?
    ensures v.task.pc.ListUsers? && !SharedAccount(v.users, k)
  {
  }

  lemma DeleteComesFrom(w: World, s: Step, k: UserKey)
    requires AtDelete(Apply(w, s), k)
    ensures AtDelete(w, k) ||
              (s.UserMoves? && s.k == k && k in w.userTasks && w.userTasks[k].pc.ListUsers? &&
               !SharedAccount(w.users, k))
  {
    match s
    case TurlMoves(t, o) => TurlFootprint(w, t, o);
    case VhostMoves(v, o) => VhostFootprint(w, v, o);
    case UserMoves(x, o) =>
      if x == k {
        ListedBefore(SeeUser(w, k), k, o);
      }
    case _ => EnvFootprint(w, s);
  }

  lemma {:induction false} ListingHappened(w: World, ss: seq<Step>, k: UserKey, d: nat) returns (i: nat)
    requires d <= |ss| && !AtDelete(w, k) && AtDelete(At(w, ss, d), k)
    ensures i < d && FoundAlone(w, ss, k, i)
    ensures forall m: nat :: i < m <= d ==> AtDelete(At(w, ss, m), k)
    decreases d
  {
    assert At(w, ss, 0) == w;
    RunNext(w, ss, d - 1);
    DeleteComesFrom(At(w, ss, d - 1), ss[d - 1], k);
    if AtDelete(At(w, ss, d - 1), k) {
      i := ListingHappened(w, ss, k, d - 1);
    } else {
      i := d - 1;
    }
  }

  /** A CR that a TransportURL holds and whose broker user goes away. */
  predicate Endangered(w: World, k: UserKey, account: (Name, Name)) {
    k in w.users && Account(k) == account && HasConsumer(w.users[k].finalizers)
  }

  /** What the safety check buys: when a broker user is deleted, the same removal had listed all
      users at some step i and found itself alone, so a held CR that loses its broker user was
      missing or being deleted at that very step. */
  lemma ReclaimRaceTheorem(w: World, ss: seq<Step>, d: nat, account: (Name, Name)) returns (i: nat)
    requires w.users == map[] && w.userTasks == map[] && d < |ss|
    requires DeletesAccount(At(w, ss, d), ss[d], account)
    ensures i < d && ss[d].UserMoves? && FoundAlone(w, ss, ss[d].k, i)
    ensures forall m: nat :: i < m <= d ==> AtDelete(At(w, ss, m), ss[d].k)
    ensures forall k :: Endangered(At(w, ss, d), k, account) ==>
              k != ss[d].k && (k !in At(w, ss, i).users || At(w, ss, i).users[k].deleting)
  {
    AccountTheorem(w, ss[..d], ss[d], account);
    DeletedBy(At(w, ss, d), ss[d], account);
    i := ListingHappened(w, ss, ss[d].k, d);
  }

  /** So with one CR per account no held CR ever loses its broker user. */
  lemma NoRaceTheorem(w: World, ss: seq<Step>, d: nat, account: (Name, Name), k: UserKey)
    requires w.users == map[] && w.userTasks == map[] && d < |ss|
    requires DeletesAccount(At(w, ss, d), ss[d], account)
    requires forall j :: j in At(w, ss, d).users && Account(j) == account ==> j == k
    ensures !Endangered(At(w, ss, d), k, account)
  {
    AccountTheorem(w, ss[..d], ss[d], account);
  }

  // ---------------------------------------------------------------- who deletes a user

  /** The user gets its deletion mark, or vanishes without one. */
  predicate GetsDeleted(m: map<UserKey, User>, n: map<UserKey, User>, k: UserKey) {
    k in m && !m[k].deleting && (k in n ==> n[k].deleting)
  }

  predicate AtOrphan(w: World, k: UserKey) {
    k in w.userTasks && w.userTasks[k].pc.DeleteOrphan?
  }

  lemma TurlDeletesNone(v: View, t: Name, o: Outcome, k: UserKey)
    ensures !GetsDeleted(v.users, TurlWorks(v, t, o).users, k)
  {
    if !WritesUsers(v.task.pc) {
      QuietStep(v, t, o);
    }
  }

  lemma UserDeletesOwn(v: UserView, x: UserKey, o: Outcome, k: UserKey)
    requires GetsDeleted(v.users, UserWorks(v, x, o).users, k)
    ensures x == k && v.task.pc.DeleteOrphan?
  {
    if !WritesOwn(v.task.pc) {
      QuietUserStep(v, x, o);
    }
  }

  lemma EnvDeletes(w: World, s: Step, k: UserKey)
    requires !s.TurlMoves? && !s.UserMoves? && !s.VhostMoves?
    requires GetsDeleted(w.users, EnvStep(w, s).users, k)
    ensures s == AdminDeletesUser(k)
  {
  }

  lemma MarkedBy(w: World, s: Step, k: UserKey)
    requires GetsDeleted(w.users, Apply(w, s).users, k)
    ensures s == AdminDeletesUser(k) || (s.UserMoves? && s.k == k && AtOrphan(w, k))
  {
    match s
    case TurlMoves(t, o) => TurlDeletesNone(See(w, t), t, o, k);
    case UserMoves(x, o) => UserDeletesOwn(SeeUser(w, x), x, o, k);
    case VhostMoves(v, o) => VhostFootprint(w, v, o);
    case _ => EnvDeletes(w, s, k);
  }

  /** Step i read user `k` again and found it still labelled. */
  predicate FoundOrphaned(w: World, ss: seq<Step>, k: UserKey, i: nat)
    requires i < |ss|
  {
    var n := At(w, ss, i);
    && ss[i].UserMoves? && ss[i].k == k && k in n.userTasks && n.userTasks[k].pc.Reread?
    && k in n.users && n.users[k].body.orphaned
  }

  lemma RereadBefore(v: UserView, k: UserKey, o: Outcome)
    requires UserWorks(v, k, o).task.pc.DeleteOrphan?
    ensures v.task.pc.Reread? && k in v.users && v.users[k].body.orphaned
  {
    if WritesOwn(v.task.pc) {
      OwnWritesEnd(v, k, o);
    }
  }

  lemma OrphanComesFrom(w: World, s: Step, k: UserKey)
    requires AtOrphan(Apply(w, s), k)
    ensures || AtOrphan(w, k)
            || (&& s.UserMoves? && s.k == k && k in w.userTasks && w.userTasks[k].pc.Reread?
                && k in w.users && w.users[k].body.orphaned)
  {
    match s
    case TurlMoves(t, o) => TurlFootprint(w, t, o);
    case VhostMoves(v, o) => VhostFootprint(w, v, o);
    case UserMoves(x, o) =>
      if x == k {
        RereadBefore(SeeUser(w, k), k, o);
      }
    case _ => EnvFootprint(w, s);
  }

  lemma {:induction false} RereadHappened(w: World, ss: seq<Step>, k: UserKey, d: nat) returns (i: nat)
    requires d <= |ss| && !AtOrphan(w, k) && AtOrphan(At(w, ss, d), k)
    ensures i < d && FoundOrphaned(w, ss, k, i)
    ensures forall m: nat :: i < m <= d ==> AtOrphan(At(w, ss, m), k)
    decreases d
  {
    assert At(w, ss, 0) == w;
    RunNext(w, ss, d - 1);
    OrphanComesFrom(At(w, ss, d - 1), ss[d - 1], k);
    if AtOrphan(At(w, ss, d - 1), k) {
      i := RereadHappened(w, ss, k, d - 1);
    } else {
      i := d - 1;
    }
  }

  /** In every run a user is deleted only by an administrator, or by its own controller after an
      earlier step of the same reconcile read it again and found it labelled and without consumer. */
  lemma OrphanDeletionTheorem(w: World, ss: seq<Step>, d: nat, k: UserKey)
    requires w.users == map[] && w.userTasks == map[] && d < |ss|
    requires GetsDeleted(At(w, ss, d).users, At(w, ss, d + 1).users, k)
    ensures || ss[d] == AdminDeletesUser(k)
            || exists i: nat :: i < d && FoundOrphaned(w, ss, k, i) && !HasConsumer(At(w, ss, i).users[k].finalizers) &&
                 forall m: nat :: i < m <= d ==> AtOrphan(At(w, ss, m), k)
  {
    RunNext(w, ss, d);
    MarkedBy(At(w, ss, d), ss[d], k);
    if ss[d] != AdminDeletesUser(k) {
      var i := RereadHappened(w, ss, k, d);
      OrphanLabelTheorem(w, ss[..i], k);
    }
  }
}
