/** What runs of the machine lead to, a whole reconcile at a time. */
module Histories {
  import opened ApiObjects
  import opened Protocol
  import opened References
  import opened Reconcile

  const EMPTY := World(map[], map[], map[], map[], Absent, {}, {}, map[], map[], map[])

  type Allowed = Step -> bool

  const ANYTHING: Allowed := s => true

  ghost predicate RunOf(ss: seq<Step>, ok: Allowed) {
    forall s :: s in ss ==> ok(s)
  }

  /** Some run of allowed steps leads from one world to the other. */
  ghost predicate Leads(a: World, ok: Allowed, b: World) {
    exists ss :: RunOf(ss, ok) && Run(a, ss) == b
  }

  ghost predicate Reachable(w: World) {
    Leads(EMPTY, ANYTHING, w)
  }

  lemma LeadsNowhere(w: World, ok: Allowed)
    ensures Leads(w, ok, w)
  {
    assert RunOf([], ok) && Run(w, []) == w;
  }

  lemma {:induction false} RunAppends(w: World, a: seq<Step>, b: seq<Step>)
    ensures Run(w, a + b) == Run(Run(w, a), b)
    decreases a
  {
    if a == [] {
      assert a + b == b;
    } else {
      assert (a + b)[1..] == a[1..] + b;
      RunAppends(Apply(w, a[0]), a[1..], b);
    }
  }

  lemma LeadsRun(a: World, ok: Allowed, w: World, more: seq<Step>)
    requires Leads(a, ok, w) && RunOf(more, ok)
    ensures Leads(a, ok, Run(w, more))
  {
    var ss :| RunOf(ss, ok) && Run(a, ss) == w;
    RunAppends(a, ss, more);
    assert RunOf(ss + more, ok);
  }

  lemma LeadsStep(a: World, ok: Allowed, w: World, s: Step)
    requires Leads(a, ok, w) && ok(s)
    ensures Leads(a, ok, Apply(w, s))
  {
    assert [s][1..] == [];
    assert Run(w, [s]) == Apply(w, s);
    LeadsRun(a, ok, w, [s]);
  }

  lemma {:induction false} MovesAllowed(v: View, t: Name, os: Outcomes, ok: Allowed)
    requires forall pc :: ok(TurlMoves(t, os(pc)))
    ensures RunOf(Moves(v, t, os), ok)
    decreases Left(v.task.pc)
  {
    if !v.task.pc.Resting? {
      LeftFalls(v, t, os(v.task.pc));
      MovesAllowed(TurlWorks(v, t, os(v.task.pc)), t, os, ok);
    }
  }

  lemma LeadsWhole(a: World, ok: Allowed, w: World, t: Name, os: Outcomes)
    requires Leads(a, ok, w) && t !in w.turlTasks && forall pc :: ok(TurlMoves(t, os(pc)))
    ensures Leads(a, ok, Write(w, t, Whole(See(w, t), t, os)))
  {
    var begun := TurlWorks(See(w, t), t, os(Resting));
    WholeRuns(w, t, os);
    MovesAllowed(begun, t, os, ok);
    LeadsRun(a, ok, w, [TurlMoves(t, os(Resting))] + Moves(begun, t, os));
  }

  // ---------------------------------------------------------------- one reconcile of a user

  function Call(ok: bool, rest: nat): Outcome {
    Outcome(ok, false, false, rest)
  }

  predicate HasLiveVhost(w: World, k: UserKey) {
    VhostOf(k).Some? ==> VhostOf(k).value in w.vhosts && !w.vhosts[VhostOf(k).value].deleting
  }

  function WithRef(w: World, k: UserKey): World
    requires HasLiveVhost(w, k)
  {
    if VhostOf(k).None? then w else w.(vhosts := Finalize(w.vhosts, VhostOf(k).value, UserRef(k.username)))
  }

  predicate NewUser(w: World, k: UserKey) {
    && k !in w.userTasks && k in w.users && !w.users[k].deleting && !w.users[k].body.orphaned
    && Controller !in w.users[k].finalizers
    && HasLiveVhost(w, k)
  }

  predicate Permitted(w: World, k: UserKey) {
    VhostOf(k).Some? ==> VhostOf(k).value in w.brokerVhosts
  }

  /** The world after the first reconcile of a user. */
  function Served(w: World, k: UserKey, accepted: bool): World
    requires NewUser(w, k)
  {
    var u := w.users[k];
    var granted := u.body.provisioned || (accepted && Permitted(w, k));
    w.(users := w.users[k := Obj(u.finalizers + {Controller}, false, UserBody(false, true, true, granted))],
       vhosts := WithRef(w, k).vhosts,
       accounts := if accepted then w.accounts + {Account(k)} else w.accounts)
  }

  function AtPc(w: World, k: UserKey, pc: UserPc): World {
    w.(userTasks := w.userTasks[k := UserTask(pc, false)])
  }

  /** What a step of the reconcile of `k` writes back. */
  function WrittenTo(w: World, n: UserView): World {
    w.(users := n.users, vhosts := n.vhosts, accounts := n.accounts)
  }

  lemma WritesOn(w: World, k: UserKey, pc: UserPc, n: UserView)
    requires k !in w.userTasks && n.task == UserTask(n.task.pc, false)
    ensures WriteUser(AtPc(w, k, pc), k, n) ==
              if n.task.pc.Idle? then WrittenTo(w, n) else AtPc(WrittenTo(w, n), k, n.task.pc)
  {
    assert AtPc(w, k, pc).userTasks - {k} == w.userTasks;
    assert w.userTasks[k := UserTask(pc, false)][k := n.task] == w.userTasks[k := n.task];
  }

  lemma UserStarts(w: World, k: UserKey)
    requires NewUser(w, k)
    ensures var n := w.(users := Finalize(w.users, k, Controller));
            UserStep(w, k, Call(true, 0)) == n && UserStep(n, k, Call(true, 0)) == AtPc(n, k, GuardVhost)
  {
    assert w.userTasks - {k} == w.userTasks;
  }

  lemma UserGuards(w: World, k: UserKey)
    requires k !in w.userTasks && HasLiveVhost(w, k)
    ensures UserStep(AtPc(w, k, GuardVhost), k, Call(true, 0)) == AtPc(WithRef(w, k), k, RegardVhost)
  {
    var a := UserGuardsVhost(SeeUser(AtPc(w, k, GuardVhost), k), k, Call(true, 0), RegardVhost);
    WritesOn(w, k, GuardVhost, a);
  }

  lemma UserRegards(w: World, k: UserKey)
    requires k !in w.userTasks && HasLiveVhost(w, k)
    ensures UserStep(AtPc(w, k, RegardVhost), k, Call(true, 0)) == AtPc(WithRef(w, k), k, Credentials)
  {
    var b := UserGuardsVhost(SeeUser(AtPc(w, k, RegardVhost), k), k, Call(true, 0), Credentials);
    WritesOn(w, k, RegardVhost, b);
  }

  lemma RefTwice(w: World, k: UserKey)
    requires HasLiveVhost(w, k)
    ensures WithRef(WithRef(w, k), k) == WithRef(w, k)
  {
    if VhostOf(k).Some? {
      var v := VhostOf(k).value;
      var m := WithRef(w, k).vhosts;
      assert m[v].finalizers + {UserRef(k.username)} == m[v].finalizers;
      assert Finalize(m, v, UserRef(k.username)) == m;
    }
  }

  lemma UserProvisioned(w: World, k: UserKey, accepted: bool)
    requires k !in w.userTasks
    ensures UserStep(AtPc(w, k, Credentials), k, Call(true, 0)) == AtPc(w, k, Provision)
    ensures UserStep(AtPc(w, k, Provision), k, Call(accepted, 0)) ==
              AtPc(w.(accounts := if accepted then w.accounts + {Account(k)} else w.accounts), k,
                   PatchUser(accepted && Permitted(w, k)))
  {
    WritesOn(w, k, Credentials, UserReadsCredentials(SeeUser(AtPc(w, k, Credentials), k), Call(true, 0)));
    WritesOn(w, k, Provision, UserProvisions(SeeUser(AtPc(w, k, Provision), k), k, Call(accepted, 0)));
  }

  lemma UserPatched(w: World, k: UserKey, granted: bool)
    requires k !in w.userTasks && k in w.users
    ensures UserStep(AtPc(w, k, PatchUser(granted)), k, Call(true, 0)) == w.(users := PatchedUsers(w.users, k, granted))
  {
    var p := AtPc(w, k, PatchUser(granted));
    WritesOn(w, k, PatchUser(granted), UserPatches(SeeUser(p, k), k, Call(true, 0)));
  }

  ghost predicate Allows(ok: Allowed, k: UserKey) {
    forall o :: ok(UserMoves(k, o))
  }

  lemma LeadsToCredentials(a: World, ok: Allowed, w: World, k: UserKey)
    requires Leads(a, ok, w) && NewUser(w, k) && Allows(ok, k)
    ensures Leads(a, ok, AtPc(WithRef(w.(users := Finalize(w.users, k, Controller)), k), k, Credentials))
  {
    var good := UserMoves(k, Call(true, 0));
    var m := w.(users := Finalize(w.users, k, Controller));
    UserStarts(w, k);
    LeadsStep(a, ok, w, good);
    LeadsStep(a, ok, m, good);
    UserGuards(m, k);
    LeadsStep(a, ok, AtPc(m, k, GuardVhost), good);
    UserRegards(WithRef(m, k), k);
    RefTwice(m, k);
    LeadsStep(a, ok, AtPc(WithRef(m, k), k, RegardVhost), good);
  }

  lemma LeadsToPatch(a: World, ok: Allowed, w: World, k: UserKey, accepted: bool)
    requires Leads(a, ok, AtPc(w, k, Credentials)) && Allows(ok, k) && k !in w.userTasks && k in w.users
    ensures var n := w.(accounts := if accepted then w.accounts + {Account(k)} else w.accounts);
            Leads(a, ok, n.(users := PatchedUsers(w.users, k, accepted && Permitted(w, k))))
  {
    var good := UserMoves(k, Call(true, 0));
    var n := w.(accounts := if accepted then w.accounts + {Account(k)} else w.accounts);
    UserProvisioned(w, k, accepted);
    LeadsStep(a, ok, AtPc(w, k, Credentials), good);
    LeadsStep(a, ok, AtPc(w, k, Provision), UserMoves(k, Call(accepted, 0)));
    UserPatched(n, k, accepted && Permitted(w, k));
    LeadsStep(a, ok, AtPc(n, k, PatchUser(accepted && Permitted(w, k))), good);
  }

  lemma ServedUser(users: map<UserKey, User>, k: UserKey, granted: bool)
    requires k in users && !users[k].deleting && !users[k].body.orphaned
    ensures PatchedUsers(Finalize(users, k, Controller), k, granted) ==
              users[k := Obj(users[k].finalizers + {Controller}, false,
                             UserBody(false, true, true, users[k].body.provisioned || granted))]
  {
  }

  lemma ServedWorld(w: World, k: UserKey, accepted: bool)
    requires NewUser(w, k)
    ensures var n := WithRef(w.(users := Finalize(w.users, k, Controller)), k);
            && k in n.users && Permitted(n, k) == Permitted(w, k)
            && n.(accounts := if accepted then n.accounts + {Account(k)} else n.accounts,
                  users := PatchedUsers(n.users, k, accepted && Permitted(w, k))) == Served(w, k, accepted)
  {
    ServedUser(w.users, k, accepted && Permitted(w, k));
  }

  lemma LeadsServed(a: World, ok: Allowed, w: World, k: UserKey, accepted: bool)
    requires Leads(a, ok, w) && NewUser(w, k) && Allows(ok, k)
    ensures Leads(a, ok, Served(w, k, accepted))
  {
    var n := WithRef(w.(users := Finalize(w.users, k, Controller)), k);
    LeadsToCredentials(a, ok, w, k);
    LeadsToPatch(a, ok, n, k, accepted);
    ServedWorld(w, k, accepted);
  }
}
