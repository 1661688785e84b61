/** Two races the finalizers do not prevent, as runs of the machine: a second CR of the same broker
    user, and a vhost recreated under a deletion that an external finalizer had held up. */
module Races {
  import opened ApiObjects
  import opened Protocol
  import opened Footprints
  import opened References
  import opened UserSafety
  import opened FinalizerSafety
  import opened Published
  import opened Reconcile
  import opened Histories
  import opened Witnesses

  // ---------------------------------------------------------------- a TransportURL joins

  function Joining(k: UserKey): Turl {
    Turl(k, true, NO_STATUS, true, false)
  }

  predicate Vacant(w: World, v: VhostKey, k: UserKey) {
    && w.turls == map[] && w.turlTasks == map[] && w.vhosts == map[]
    && k !in w.users && k !in w.userTasks && VhostOf(k) == Some(v)
  }

  /** `t` has claimed a new vhost and a new user in it. */
  function Joined(w: World, t: Name, v: VhostKey, k: UserKey): World {
    w.(users := w.users[k := Claimant(t)], vhosts := map[v := Obj({Consumer(t)}, false, ())],
       turls := map[t := Joining(k)])
  }

  lemma JoinsLeads(a: World, w: World, t: Name, v: VhostKey, k: UserKey)
    requires Leads(a, ANYTHING, w) && Vacant(w, v, k)
    ensures Leads(a, ANYTHING, Joined(w, t, v, k))
  {
    var x := Joining(k).(guarded := false);
    LeadsStep(a, ANYTHING, w, CreateTurl(t, k, true));
    var w1 := w.(turls := map[t := x]);
    assert Apply(w, CreateTurl(t, k, true)) == w1;
    LeadsStep(a, ANYTHING, w1, TurlMoves(t, Call(true, 0)));
    var w2 := w.(turls := map[t := Joining(k)]);
    assert TurlStep(w1, t, Call(true, 0)) == w2 by {
      assert w1.turls[t := Joining(k)] == w2.turls && w1.turlTasks - {t} == map[];
    }
    JoinsWhole(a, w2, t, v, k);
  }

  lemma JoinsView(x: View, t: Name, v: VhostKey, k: UserKey)
    requires x.turl == Some(Joining(k)) && x.task == NO_RECONCILE && x.vhosts == map[] && k !in x.users &&
             VhostOf(k) == Some(v)
    ensures Whole(x, t, All(0)) ==
            x.(users := x.users[k := Claimant(t)], vhosts := map[v := Obj({Consumer(t)}, false, ())])
  {
    var p := Prepared(x, t);
    assert p.users == x.users[k := Claimant(t)] && p.task.status == NO_STATUS;
    assert p.vhosts == map[v := Obj({Consumer(t)}, false, ())];
    Awaits(x, t, All(0));
  }

  lemma JoinsWhole(a: World, w: World, t: Name, v: VhostKey, k: UserKey)
    requires Leads(a, ANYTHING, w) && w.turls == map[t := Joining(k)] && w.turlTasks == map[] && w.vhosts == map[]
    requires k !in w.users && VhostOf(k) == Some(v)
    ensures Leads(a, ANYTHING, Joined(w, t, v, k))
  {
    JoinsView(See(w, t), t, v, k);
    LeadsWhole(a, ANYTHING, w, t, All(0));
    assert w.turls[t := Joining(k)] == w.turls && w.turlTasks - {t} == map[];
  }

  // ---------------------------------------------------------------- a stale vhost deletion

  /** A vhost whose deletion an external finalizer holds up; it exists on the broker. */
  function HeldUp(v: VhostKey, id: Name): World {
    EMPTY.(vhosts := map[v := Obj({External(id)}, true, ())], brokerVhosts := {v})
  }

  /** The deletion is decided, the external finalizer goes, and the object with it. */
  lemma StaleDeletion(v: VhostKey, id: Name)
    ensures Leads(HeldUp(v, id), ANYTHING,
                  EMPTY.(brokerVhosts := {v}, vhostTasks := map[v := DeleteVhost({External(id)})]))
  {
    var w := HeldUp(v, id);
    var seen := {External(id)};
    var good := Call(true, 0);
    LeadsNowhere(w, ANYTHING);
    LeadsStep(w, ANYTHING, w, VhostMoves(v, good));
    var w1 := w.(vhostTasks := map[v := Inspect(seen)]);
    assert VhostStep(w, v, good) == w1;
    LeadsStep(w, ANYTHING, w1, VhostMoves(v, good));
    var w2 := w.(vhostTasks := map[v := DeleteVhost(seen)]);
    ProceedMeans(seen, w.users, false);
    assert w1.vhostTasks[v := DeleteVhost(seen)] == w2.vhostTasks;
    assert VhostStep(w1, v, good) == w2;
    LeadsStep(w, ANYTHING, w2, RemoveVhostExternal(v, id));
    assert seen - {External(id)} == {};
    assert w2.vhosts - {v} == map[];
  }

  lemma ServedHeld(w: World, t: Name, k: UserKey)
    requires NewUser(w, k) && w.users[k] == Claimant(t) && Permitted(w, k)
    ensures var n := Served(w, k, true).users;
            Held(n, t, k, true) && n[k].body.tracked && !n[k].deleting && n[k].finalizers == {Consumer(t), Controller}
  {
  }

  lemma StaleStep(w: World, v: VhostKey, seen: set<Finalizer>)
    requires v in w.brokerVhosts && v in w.vhostTasks && w.vhostTasks[v] == DeleteVhost(seen)
    ensures DeletesFromBroker(w, VhostMoves(v, Call(true, 0)), v)
  {
  }

  /** The vhost is recreated and used, and then the stale deletion takes it off the broker. */
  lemma VhostChainNeedsOwnFinalizer(v: VhostKey, id: Name, t: Name, k: UserKey)
    requires VhostOf(k) == Some(v)
    ensures exists n: World, s: Step ::
              && Start(HeldUp(v, id)) && Leads(HeldUp(v, id), ANYTHING, n)
              && DeletesFromBroker(n, s, v)
              && k in n.users && n.users[k].body.tracked && !n.users[k].deleting && Held(n.users, t, k, true)
  {
    var w := EMPTY.(brokerVhosts := {v}, vhostTasks := map[v := DeleteVhost({External(id)})]);
    StaleDeletion(v, id);
    JoinsLeads(HeldUp(v, id), w, t, v, k);
    var m := Joined(w, t, v, k);
    LeadsServed(HeldUp(v, id), ANYTHING, m, k, true);
    var n := Served(m, k, true);
    var s := VhostMoves(v, Call(true, 0));
    ServedHeld(m, t, k);
    StaleStep(n, v, {External(id)});
  }

  // ---------------------------------------------------------------- a second CR of the same broker user

  /** The CR of a broker user in vhost "/" and the CR of the same broker user in another vhost. */
  predicate Twins(j: UserKey, k: UserKey, v: VhostKey) {
    j.vhost == DEFAULT_VHOST && Account(j) == Account(k) && VhostOf(k) == Some(v)
  }

  /** j, being deleted, has found itself alone and is about to delete the broker user. */
  function Leaving(j: UserKey, secrets: map<SecretName, Secret>): World {
    World(map[j := Obj({Controller}, true, UserBody(true, true, true, true))], map[], map[], secrets, Absent,
          {Account(j)}, {},
          map[], map[j := UserTask(DeleteAccount, true)], map[])
  }

  lemma DesertedUsers(t: Name, j: UserKey, st: TurlStatus)
    requires st.pending.None?
    ensures Deserted(map[j := Ready(t, true)], t, st, j) == map[j := Freed()]
  {
    assert {Consumer(t), Controller} - {Consumer(t)} == {Controller};
  }

  /** j was published by `t`, which is gone. */
  lemma Deserts(t: Name, j: UserKey) returns (secrets: map<SecretName, Secret>)
    requires j.vhost == DEFAULT_VHOST
    ensures Reachable(Leaving(j, secrets).(userTasks := map[], users := map[j := Freed()]))
  {
    var x := Fresh(j).(status := FirstStatus(t, j));
    var users := map[j := Ready(t, true)];
    PublicationLeads(ANYTHING, t, j, true);
    var w := Sole(t, x, users, FirstSecrets(t, j), {Account(j)});
    var m := Sole(t, x.(deleting := true), users, FirstSecrets(t, j), {Account(j)});
    LeadsStep(EMPTY, ANYTHING, w, DeleteTurl(t));
    assert w.turls[t := x.(deleting := true)] == m.turls;
    LeadsWhole(EMPTY, ANYTHING, m, t, All(0));
    assert See(m, t) == SoleView(x.(deleting := true), users, FirstSecrets(t, j));
    DeletionDeserts(See(m, t), t, All(0));
    DesertedUsers(t, j, x.status);
    secrets := Whole(See(m, t), t, All(0)).secrets;
    assert m.turls - {t} == map[] && m.turlTasks - {t} == map[];
  }

  lemma LeavingLeads(t: Name, j: UserKey) returns (secrets: map<SecretName, Secret>)
    requires j.vhost == DEFAULT_VHOST
    ensures Reachable(Leaving(j, secrets))
  {
    secrets := Deserts(t, j);
    var good := UserMoves(j, Call(true, 0));
    var w := Leaving(j, secrets).(userTasks := map[], users := map[j := Freed()]);
    LeadsStep(EMPTY, ANYTHING, w, AdminDeletesUser(j));
    var w1 := Leaving(j, secrets).(userTasks := map[]);
    assert Delete(w.users, j) == w1.users;
    LeadsStep(EMPTY, ANYTHING, w1, good);
    LeavesAlone(j, secrets);
    LeadsStep(EMPTY, ANYTHING, w1.(userTasks := map[j := UserTask(LeaveVhost, true)]), good);
    LeadsStep(EMPTY, ANYTHING, w1.(userTasks := map[j := UserTask(ListUsers, true)]), good);
  }

  lemma LeavesAlone(j: UserKey, secrets: map<SecretName, Secret>)
    requires j.vhost == DEFAULT_VHOST
    ensures var w := Leaving(j, secrets).(userTasks := map[]);
            var good := Call(true, 0);
            var leave := w.(userTasks := map[j := UserTask(LeaveVhost, true)]);
            var list := w.(userTasks := map[j := UserTask(ListUsers, true)]);
            && UserStep(w, j, good) == leave && UserStep(leave, j, good) == list
            && UserStep(list, j, good) == Leaving(j, secrets)
  {
    var w := Leaving(j, secrets).(userTasks := map[]);
    assert !HasConsumer({Controller}) && !HasExternal({Controller});
    assert UserStep(w, j, Call(true, 0)) == w.(userTasks := map[j := UserTask(LeaveVhost, true)]);
    var leave := w.(userTasks := map[j := UserTask(LeaveVhost, true)]);
    assert leave.userTasks[j := UserTask(ListUsers, true)] == map[j := UserTask(ListUsers, true)];
    assert UserStep(leave, j, Call(true, 0)) == w.(userTasks := map[j := UserTask(ListUsers, true)]);
    var list := w.(userTasks := map[j := UserTask(ListUsers, true)]);
    assert !SharedAccount(list.users, j);
    assert list.userTasks[j := UserTask(DeleteAccount, true)] == map[j := UserTask(DeleteAccount, true)];
  }

  /** The new vhost gets its controller's finalizer and is created on the broker. */
  function Founded(w: World, v: VhostKey): World
    requires v in w.vhosts
  {
    w.(vhosts := w.vhosts[v := w.vhosts[v].(finalizers := w.vhosts[v].finalizers + {Controller})],
       brokerVhosts := w.brokerVhosts + {v})
  }

  lemma FoundedLeads(w: World, v: VhostKey)
    requires Reachable(w) && v in w.vhosts && !w.vhosts[v].deleting && Controller !in w.vhosts[v].finalizers
    requires v !in w.vhostTasks
    ensures Reachable(Founded(w, v))
  {
    var good := VhostMoves(v, Call(true, 0));
    var m := w.(vhosts := Founded(w, v).vhosts);
    assert w.vhostTasks - {v} == w.vhostTasks;
    LeadsStep(EMPTY, ANYTHING, w, good);
    assert VhostStep(w, v, Call(true, 0)) == m;
    LeadsStep(EMPTY, ANYTHING, m, good);
    assert VhostStep(m, v, Call(true, 0)) == Founded(w, v);
  }

  /** While j is about to delete their broker user, `t` comes to hold its twin. */
  lemma TwinHeld(j: UserKey, k: UserKey, v: VhostKey, t: Name) returns (n: World)
    requires Twins(j, k, v)
    ensures Reachable(n) && AtDelete(n, j) && n.accounts == {Account(j)} && Held(n.users, t, k, true) &&
            !n.users[k].deleting
  {
    var secrets := LeavingLeads(t, j);
    var w := Leaving(j, secrets);
    JoinsLeads(EMPTY, w, t, v, k);
    var m := Joined(w, t, v, k);
    FoundedLeads(m, v);
    LeadsServed(EMPTY, ANYTHING, Founded(m, v), k, true);
    n := Served(Founded(m, v), k, true);
    ServedHeld(Founded(m, v), t, k);
    assert {Account(j)} + {Account(k)} == {Account(j)};
  }

  /** A held CR loses its broker user: the listing that protects it came before it existed. */
  lemma TwinLosesAccount(j: UserKey, k: UserKey, v: VhostKey, t: Name)
    requires Twins(j, k, v)
    ensures exists n: World, s: Step ::
              && Reachable(n) && DeletesAccount(n, s, Account(k)) && Endangered(n, k, Account(k))
              && Held(n.users, t, k, true) && !n.users[k].deleting
  {
    var n := TwinHeld(j, k, v, t);
    var s := UserMoves(j, Call(true, 0));
    assert Consumer(t) in n.users[k].finalizers;
    assert DeletesAccount(n, s, Account(k));
  }
}
