/** External finalizers on vhosts: without them the vhost chain needs no proviso. */
module VhostExternals {
  import opened ApiObjects
  import opened Protocol
  import opened Footprints
  import opened FinalizerSafety

  /** Nobody but the RabbitMQ controllers finalizes vhosts. */
  ghost predicate Unadorned(w: World) {
    && (forall v :: v in w.vhosts ==> !HasExternal(w.vhosts[v].finalizers))
    && (forall v :: v in w.vhostTasks && (w.vhostTasks[v].Inspect? || w.vhostTasks[v].DeleteVhost?) ==>
          !HasExternal(w.vhostTasks[v].seen))
  }

  predicate Adorned(vhosts: map<VhostKey, Vhost>, v: VhostKey, f: Finalizer) {
    f.External? && HasFin(vhosts, v, f)
  }

  lemma TurlAdornsNone(x: View, t: Name, o: Outcome, v: VhostKey, f: Finalizer)
    requires Adorned(TurlWorks(x, t, o).vhosts, v, f)
    ensures Adorned(x.vhosts, v, f)
  {
    if Private(x.task.pc) {
      PrivateStep(x, t, o);
    }
  }

  lemma UserAdornsNone(x: UserView, k: UserKey, o: Outcome, v: VhostKey, f: Finalizer)
    requires Adorned(UserWorks(x, k, o).vhosts, v, f)
    ensures Adorned(x.vhosts, v, f)
  {
  }

  lemma VhostAdornsNone(x: VhostView, u: VhostKey, o: Outcome, v: VhostKey, f: Finalizer)
    requires Adorned(VhostWorks(x, u, o).vhosts, v, f)
    ensures Adorned(x.vhosts, v, f)
  {
  }

  lemma SeenComesFrom(x: VhostView, v: VhostKey, o: Outcome)
    ensures var n := VhostWorks(x, v, o).pc;
            && (n.Inspect? ==> v in x.vhosts && n.seen == x.vhosts[v].finalizers)
            && (n.DeleteVhost? ==> x.pc == Inspect(n.seen))
  {
  }

  predicate AddsExternal(s: Step) {
    s.AddVhostExternal?
  }

  lemma VhostUnadorned(w: World, v: VhostKey, o: Outcome)
    requires Unadorned(w)
    ensures Unadorned(VhostStep(w, v, o))
  {
    var x := SeeVhost(w, v);
    SeenComesFrom(x, v, o);
    forall u, f | Adorned(VhostWorks(x, v, o).vhosts, u, f)
      ensures Adorned(w.vhosts, u, f)
    {
      VhostAdornsNone(x, v, o, u, f);
    }
    StaysPlain(w.vhosts, VhostWorks(x, v, o).vhosts);
  }

  lemma StaysPlain(m: map<VhostKey, Vhost>, n: map<VhostKey, Vhost>)
    requires forall v :: v in m ==> !HasExternal(m[v].finalizers)
    requires forall v, f :: Adorned(n, v, f) ==> Adorned(m, v, f)
    ensures forall v :: v in n ==> !HasExternal(n[v].finalizers)
  {
    forall v, f | v in n && f in n[v].finalizers
      ensures !f.External?
    {
      assert Adorned(n, v, f) ==> Adorned(m, v, f);
    }
  }

  lemma EnvAdornsNone(w: World, s: Step, u: VhostKey, f: Finalizer)
    requires !s.TurlMoves? && !s.UserMoves? && !s.VhostMoves? && !AddsExternal(s)
    requires Adorned(EnvStep(w, s).vhosts, u, f)
    ensures Adorned(w.vhosts, u, f)
  {
  }

  lemma StepUnadorned(w: World, s: Step)
    requires Unadorned(w) && !AddsExternal(s)
    ensures Unadorned(Apply(w, s))
  {
    if s.VhostMoves? {
      VhostUnadorned(w, s.v, s.o);
    } else {
      var n := Apply(w, s);
      forall u, f | Adorned(n.vhosts, u, f)
        ensures Adorned(w.vhosts, u, f)
      {
        match s
        case TurlMoves(t, o) => TurlAdornsNone(See(w, t), t, o, u, f);
        case UserMoves(k, o) => UserAdornsNone(SeeUser(w, k), k, o, u, f);
        case _ => EnvAdornsNone(w, s, u, f);
      }
      VhostTasksStay(w, s);
      StaysPlain(w.vhosts, n.vhosts);
    }
  }

  lemma {:induction false} RunUnadorned(w: World, ss: seq<Step>)
    requires Unadorned(w) && forall s :: s in ss ==> !AddsExternal(s)
    ensures Unadorned(Run(w, ss))
    decreases ss
  {
    if ss != [] {
      StepUnadorned(w, ss[0]);
      RunUnadorned(Apply(w, ss[0]), ss[1..]);
    }
  }

  /** Without external finalizers every deletion sees the controller's own, so the chain holds
      without any proviso. */
  lemma PlainChainTheorem(w: World, ss: seq<Step>, s: Step, v: VhostKey, k: UserKey)
    requires Start(w) && Unadorned(w) && forall x :: x in ss ==> !AddsExternal(x)
    requires DeletesFromBroker(Run(w, ss), s, v)
    ensures var n := Run(w, ss);
            k in n.users && n.users[k].body.tracked && VhostOf(k) == Some(v) ==>
              n.users[k].deleting && !HasConsumer(n.users[k].finalizers)
  {
    var n := Run(w, ss);
    VhostChainTheorem(w, ss, s, v, k);
    StartHolds(w);
    RunKeeps(w, ss);
    RunUnadorned(w, ss);
    assert VhostTaskOk(n, v, n.vhostTasks[v]);
    SeesOwn(n.vhostTasks[v].seen);
  }

  lemma SeesOwn(seen: set<Finalizer>)
    requires seen != {} && !HasConsumer(seen) && !HasUserRef(seen) && !HasExternal(seen)
    ensures Controller in seen
  {
    var f :| f in seen;
    assert f == Controller;
  }
}
