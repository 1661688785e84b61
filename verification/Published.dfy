/** Published credentials work: what the status of a live TransportURL names exists on the broker. */
module Published {
  import opened ApiObjects
  import opened Protocol
  import opened Footprints
  import opened UserSafety
  import opened FinalizerSafety
  import opened VhostExternals
  import opened References

  // ---------------------------------------------------------------- the reference invariant

  /** The user in the stored status of a live TransportURL between two reconciles. */
  predicate Publishes(w: World, t: Name, k: UserKey) {
    t in w.turls && !w.turls[t].deleting && t !in w.turlTasks && w.turls[t].status.user == Some(k)
  }

  /** The finalizer of a live TransportURL is on the user it publishes; a TransportURL that
      always writes its vhost out has also waited for that user's permissions. */
  lemma ReferenceTheorem(w: World, ss: seq<Step>, t: Name, k: UserKey, firm: set<Name>)
    requires w.turls == map[] && w.turlTasks == map[]
    requires BenignRun(w, ss) && WritesOutRun(ss, firm)
    ensures var n := Run(w, ss); Publishes(n, t, k) ==> Held(n.users, t, k, t in firm)
  {
    NoTurlsYet(w, firm);
    RunRefs(w, ss, firm);
    assert RefOk(See(Run(w, ss), t), t, t in firm);
  }

  // ---------------------------------------------------------------- broker accounts

  predicate Granted(users: map<UserKey, User>, k: UserKey) {
    k in users && users[k].body.provisioned && InUse(users[k])
  }

  predicate Granting(w: World, k: UserKey) {
    k in w.userTasks && w.userTasks[k].pc == PatchUser(true)
  }

  ghost predicate Accounts(w: World) {
    forall k :: Granted(w.users, k) || Granting(w, k) ==> Account(k) in w.accounts
  }

  predicate HasVhost(w: World, k: UserKey) {
    VhostOf(k).Some? ==> VhostOf(k).value in w.brokerVhosts
  }

  ghost predicate Vhosts(w: World) {
    forall k :: Granted(w.users, k) || Granting(w, k) ==> HasVhost(w, k)
  }

  /** No two user CRs manage the same broker user. */
  ghost predicate OnePerAccount(w: World) {
    forall j, k :: j in w.users && k in w.users && Account(j) == Account(k) ==> j == k
  }

  lemma WriteGrants(m: map<UserKey, User>, x: UserKey, t: Name, k: UserKey)
    ensures Granted(ReleasedUser(m, x, t), k) || Granted(AbandonedUser(m, x, t), k) ==> Granted(m, k)
    ensures ClaimedUser(m, x, t).Some? && Granted(ClaimedUser(m, x, t).value, k) ==> Granted(m, k)
  {
  }

  lemma TurlGrants(v: View, t: Name, o: Outcome, k: UserKey)
    requires Granted(TurlWorks(v, t, o).users, k)
    ensures Granted(v.users, k)
  {
    if !WritesUsers(v.task.pc) {
      QuietStep(v, t, o);
    } else if v.task.pc.ClaimUser? || v.task.pc.DelUser? {
      WriteGrants(v.users, v.task.key, t, k);
    } else if v.task.status.pending.Some? {
      WriteGrants(v.users, v.task.status.pending.value, t, k);
    }
  }

  lemma UserGrants(v: UserView, x: UserKey, o: Outcome, k: UserKey)
    requires Granted(UserWorks(v, x, o).users, k)
    ensures Granted(v.users, k) || (x == k && v.task.pc == PatchUser(true))
  {
  }

  lemma EnvGrants(w: World, s: Step, k: UserKey)
    requires !s.TurlMoves? && !s.UserMoves? && !s.VhostMoves?
    requires Granted(EnvStep(w, s).users, k)
    ensures Granted(w.users, k)
  {
  }

  lemma TurlTasksOnly(w: World, t: Name, o: Outcome, k: UserKey)
    ensures Granting(TurlStep(w, t, o), k) <==> Granting(w, k)
  {
  }

  /** A permission is recorded only after the broker calls that create the user and grant it. */
  lemma UserGranting(v: UserView, x: UserKey, o: Outcome)
    requires UserWorks(v, x, o).task.pc == PatchUser(true)
    ensures Account(x) in UserWorks(v, x, o).accounts
    ensures VhostOf(x).Some? ==> VhostOf(x).value in v.brokerVhosts
  {
    assert v.task.pc.Provision? by {
      if WritesOwn(v.task.pc) {
      } else {
        GrantingAfter(v, x, o);
      }
    }
  }

  lemma GrantingAfter(v: UserView, x: UserKey, o: Outcome)
    requires UserWorks(v, x, o).task.pc.PatchUser? && !WritesOwn(v.task.pc)
    ensures v.task.pc.Provision?
  {
  }

  lemma GrantsGrow(w: World, s: Step, k: UserKey)
    requires Granted(Apply(w, s).users, k) || Granting(Apply(w, s), k)
    ensures Granted(w.users, k) || Granting(w, k) || (Account(k) in Apply(w, s).accounts && HasVhost(Apply(w, s), k))
  {
    match s
    case TurlMoves(t, o) =>
      TurlTasksOnly(w, t, o, k);
      if !Granting(w, k) {
        TurlGrants(See(w, t), t, o, k);
      }
    case VhostMoves(v, o) => VhostFootprint(w, v, o);
    case UserMoves(x, o) =>
      var v := SeeUser(w, x);
      UserFootprint(w, x, o);
      if Granted(UserWorks(v, x, o).users, k) {
        UserGrants(v, x, o, k);
      } else if x == k {
        UserGranting(v, x, o);
      }
    case _ =>
      EnvFootprint(w, s);
      if !Granting(w, k) {
        EnvGrants(w, s, k);
      }
  }

  lemma DeleteSpares(w: World, j: UserKey, k: UserKey)
    requires Inv(w) && OnePerAccount(w) && Account(j) == Account(k) && AtDelete(w, j)
    ensures !Granted(w.users, k) && !Granting(w, k)
  {
    assert UserTaskOk(w, j, w.userTasks[j].pc);
    if k in w.userTasks {
      assert UserTaskOk(w, k, w.userTasks[k].pc);
    }
  }

  lemma StepAccounts(w: World, s: Step)
    requires Inv(w) && Accounts(w) && OnePerAccount(w)
    ensures Accounts(Apply(w, s))
  {
    forall k | Granted(Apply(w, s).users, k) || Granting(Apply(w, s), k)
      ensures Account(k) in Apply(w, s).accounts
    {
      GrantsGrow(w, s, k);
      if s.UserMoves? && Account(s.k) == Account(k) && AtDelete(w, s.k) {
        DeleteSpares(w, s.k, k);
      } else if Account(k) in w.accounts {
        AccountStays(w, s, Account(k));
      }
    }
  }

  // ---------------------------------------------------------------- vhosts on the broker

  /** A deletion decided on an object with the controller's own finalizer. */
  predicate OwnDelete(w: World, s: Step) {
    s.VhostMoves? && Deleting(w, s.v) ==> Controller in w.vhostTasks[s.v].seen
  }

  lemma VhostSpares(w: World, v: VhostKey, k: UserKey)
    requires Inv(w) && Deleting(w, v) && Controller in w.vhostTasks[v].seen && VhostOf(k) == Some(v)
    ensures !Granted(w.users, k) && !Granting(w, k)
  {
    assert VhostTaskOk(w, v, w.vhostTasks[v]);
    if k in w.users {
      assert UserOk(w, k);
    }
    if k in w.userTasks {
      assert UserTaskOk(w, k, w.userTasks[k].pc);
    }
  }

  lemma StepVhosts(w: World, s: Step)
    requires Inv(w) && Vhosts(w) && OwnDelete(w, s)
    ensures Vhosts(Apply(w, s))
  {
    forall k | Granted(Apply(w, s).users, k) || Granting(Apply(w, s), k)
      ensures HasVhost(Apply(w, s), k)
    {
      GrantsGrow(w, s, k);
      if VhostOf(k).Some? {
        var v := VhostOf(k).value;
        if s.VhostMoves? && s.v == v && Deleting(w, v) {
          VhostSpares(w, v, k);
        } else if v in w.brokerVhosts {
          BrokerVhostStays(w, s, v);
        }
      }
    }
  }

  // ---------------------------------------------------------------- runs

  ghost predicate OnePerAccountRun(w: World, ss: seq<Step>)
    decreases ss
  {
    OnePerAccount(w) && (ss != [] ==> OnePerAccountRun(Apply(w, ss[0]), ss[1..]))
  }

  predicate OwnDeleteRun(w: World, ss: seq<Step>)
    decreases ss
  {
    ss != [] ==> OwnDelete(w, ss[0]) && OwnDeleteRun(Apply(w, ss[0]), ss[1..])
  }

  lemma {:induction false} RunAccounts(w: World, ss: seq<Step>)
    requires Inv(w) && Accounts(w) && OnePerAccountRun(w, ss)
    ensures Accounts(Run(w, ss))
    decreases ss
  {
    if ss != [] {
      StepKeeps(w, ss[0]);
      StepAccounts(w, ss[0]);
      RunAccounts(Apply(w, ss[0]), ss[1..]);
    }
  }

  lemma {:induction false} RunVhosts(w: World, ss: seq<Step>)
    requires Inv(w) && Vhosts(w) && OwnDeleteRun(w, ss)
    ensures Vhosts(Run(w, ss))
    decreases ss
  {
    if ss != [] {
      StepKeeps(w, ss[0]);
      StepVhosts(w, ss[0]);
      RunVhosts(Apply(w, ss[0]), ss[1..]);
    }
  }

  /** Without external finalizers on vhosts every deletion is of that kind. */
  lemma {:induction false} UnadornedDeletes(w: World, ss: seq<Step>)
    requires Inv(w) && Unadorned(w) && forall s :: s in ss ==> !s.AddVhostExternal?
    ensures OwnDeleteRun(w, ss)
    decreases ss
  {
    if ss != [] {
      var s := ss[0];
      if s.VhostMoves? && Deleting(w, s.v) {
        assert VhostTaskOk(w, s.v, w.vhostTasks[s.v]);
        SeesOwn(w.vhostTasks[s.v].seen);
      }
      StepKeeps(w, s);
      StepUnadorned(w, s);
      UnadornedDeletes(Apply(w, s), ss[1..]);
    }
  }

  /** End to end: between two reconciles the user that a live TransportURL publishes has the
      TransportURL's finalizer, an account on its broker and its vhost on the broker; for the
      vhost "/" the TransportURL has to write it out. */
  lemma PublishedCredentialsWork(w: World, ss: seq<Step>, t: Name, k: UserKey)
    requires Start(w) && w.turls == map[]
    requires BenignRun(w, ss) && OnePerAccountRun(w, ss) && OwnDeleteRun(w, ss)
    requires k.vhost != DEFAULT_VHOST || WritesOutRun(ss, {t})
    requires Publishes(Run(w, ss), t, k)
    ensures var n := Run(w, ss);
            HasFin(n.users, k, Consumer(t)) && Account(k) in n.accounts && HasVhost(n, k)
  {
    StartHolds(w);
    RunAccounts(w, ss);
    RunVhosts(w, ss);
    ReferenceTheorem(w, ss, t, k, if k.vhost != DEFAULT_VHOST then {} else {t});
    assert Granted(Run(w, ss).users, k);
  }
}
