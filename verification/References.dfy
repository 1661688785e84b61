/** Reference counting by finalizers: the user a live TransportURL publishes stays usable. */
module References {
  import opened ApiObjects
  import opened Protocol
  import opened Footprints

  // ---------------------------------------------------------------- holding a user

  predicate Claimed(users: map<UserKey, User>, t: Name, k: UserKey) {
    HasFin(users, k, Consumer(t))
  }

  /** `t` has its finalizer on `k`, and `k` has credentials; in a vhost of its own, or if `firm`,
      it also has its permissions. */
  predicate Held(users: map<UserKey, User>, t: Name, k: UserKey, firm: bool) {
    Claimed(users, t, k) && Usable(users, k, firm || k.vhost != DEFAULT_VHOST)
  }

  /** A change of the users that neither takes `k` away from `t` nor gives it to `t`. */
  predicate Neutral(m: map<UserKey, User>, n: map<UserKey, User>, t: Name, k: UserKey) {
    (Claimed(n, t, k) <==> Claimed(m, t, k)) && forall firm :: Held(m, t, k, firm) ==> Held(n, t, k, firm)
  }

  lemma ClaimNeutral(m: map<UserKey, User>, x: UserKey, b: Name, t: Name, k: UserKey)
    requires ClaimedUser(m, x, b).Some?
    ensures (x, b) != (k, t) ==> Neutral(m, ClaimedUser(m, x, b).value, t, k)
    ensures Claimed(ClaimedUser(m, x, b).value, b, x)
    ensures forall firm :: Held(m, b, x, firm) ==> Held(ClaimedUser(m, x, b).value, b, x, firm)
  {
  }

  lemma ReleaseNeutral(m: map<UserKey, User>, x: UserKey, b: Name, t: Name, k: UserKey)
    ensures (x, b) != (k, t) ==> Neutral(m, ReleasedUser(m, x, b), t, k) && Neutral(m, AbandonedUser(m, x, b), t, k)
    ensures !Claimed(ReleasedUser(m, x, b), b, x)
  {
    if k in m && t != b {
      assert Consumer(t) in m[k].finalizers <==> Consumer(t) in m[k].finalizers - {Consumer(b)};
    }
  }

  /** Writes that leave consumer finalizers and bodies alone. */
  lemma PlainNeutral(m: map<UserKey, User>, x: UserKey, f: Finalizer, t: Name, k: UserKey)
    requires !f.Consumer?
    ensures Neutral(m, Delete(m, x), t, k) && Neutral(m, Unfinalize(m, x, f), t, k)
    ensures CanFinalize(m, x, f) ==> Neutral(m, Finalize(m, x, f), t, k)
  {
    if x in m {
      assert Consumer(t) in m[x].finalizers - {f} <==> Consumer(t) in m[x].finalizers;
    }
  }

  lemma PatchNeutral(m: map<UserKey, User>, x: UserKey, granted: bool, t: Name, k: UserKey)
    requires x in m
    ensures Neutral(m, PatchedUsers(m, x, granted), t, k)
  {
  }

  lemma UserWorksNeutral(v: UserView, x: UserKey, o: Outcome, t: Name, k: UserKey)
    ensures Neutral(v.users, UserWorks(v, x, o).users, t, k)
  {
    match v.task.pc
    case Idle | DeleteOrphan | UnguardUser => PlainNeutral(v.users, x, Controller, t, k);
    case PatchUser(granted) =>
      if x in v.users {
        PatchNeutral(v.users, x, granted, t, k);
      }
    case _ => QuietUserStep(v, x, o);
  }

  lemma EnvNeutral(w: World, s: Step, t: Name, k: UserKey)
    requires !s.TurlMoves? && !s.UserMoves? && !s.VhostMoves?
    ensures Neutral(w.users, EnvStep(w, s).users, t, k)
  {
    match s
    case AdminDeletesUser(x) => PlainNeutral(w.users, x, Controller, t, k);
    case AddExternal(x, id) => PlainNeutral(w.users, x, External(id), t, k);
    case RemoveExternal(x, id) => PlainNeutral(w.users, x, External(id), t, k);
    case _ =>
  }

  /** The user a step of `t` itself may claim or release. */
  function Target(x: TurlTask): Option<UserKey> {
    if x.pc.ClaimUser? || x.pc.DelUser? then Some(x.key)
    else if WritesUsers(x.pc) then x.status.pending
    else None
  }

  lemma TurlWorksNeutral(v: View, b: Name, o: Outcome, t: Name, k: UserKey)
    requires b != t || Target(v.task) != Some(k)
    ensures Neutral(v.users, TurlWorks(v, b, o).users, t, k)
  {
    var x := v.task;
    if !WritesUsers(x.pc) {
      QuietStep(v, b, o);
    } else {
      ReleaseNeutral(v.users, x.key, b, t, k);
      if x.status.pending.Some? {
        ReleaseNeutral(v.users, x.status.pending.value, b, t, k);
      }
      if ClaimedUser(v.users, x.key, b).Some? {
        ClaimNeutral(v.users, x.key, b, t, k);
      }
    }
  }

  // ---------------------------------------------------------------- one TransportURL

  predicate Live(v: View) {
    v.turl.Some? && !v.turl.value.deleting
  }

  /** Before the new credentials are published the status still names the old user. */
  predicate Early(pc: TurlPc) {
    || pc.ClaimVhost? || pc.ClaimUser? || pc.ReleaseEarlier? || pc.CleanEarlier? || pc.DropVhost?
    || pc.DropOrphanVhost? || pc.AwaitUser? || pc.WriteSecret?
  }

  predicate Late(pc: TurlPc) {
    pc.CheckConsumer? || pc.CheckNodes? || pc.Release? || pc.CleanSecret? || pc.SweepSecret?
  }

  predicate AfterClaim(pc: TurlPc) {
    Late(pc) || (Early(pc) && !pc.ClaimVhost? && !pc.ClaimUser?)
  }

  /** What a running reconcile knows about the user it claims, the user it publishes and the
      users it has released; `published` is the user in the stored status. */
  ghost predicate TaskOk(users: map<UserKey, User>, t: Name, x: TurlTask, published: Option<UserKey>, firm: bool) {
    && (firm ==> x.waits) && (x.key.vhost != DEFAULT_VHOST ==> x.waits)
    && (Early(x.pc) || Late(x.pc) || x.pc.PatchStatus?)
    && x.status.pending != Some(x.key)
    && x.key !in x.released
    && (x.status.user.Some? ==> x.status.user.value !in x.released)
    && (forall k :: k in x.released ==> !Claimed(users, t, k))
    && (published.Some? && published.value !in x.released ==> Held(users, t, published.value, firm))
    && (AfterClaim(x.pc) ==> Claimed(users, t, x.key))
    && (x.pc.WriteSecret? || Late(x.pc) ==> Held(users, t, x.key, firm))
    && (Early(x.pc) ==> x.status.user == published)
    && (Late(x.pc) ==> x.status.user == Some(x.key))
    && (x.pc.PatchStatus? ==>
          x.status.user == published || (x.status.user == Some(x.key) && Held(users, t, x.key, firm)))
    && (x.pc.ReleaseEarlier? || x.pc.CleanEarlier? ==> Rotating(x))
    && (x.pc.ReleaseEarlier? ==> x.status.pending != x.status.user)
    && (x.pc.ClaimVhost? || x.pc.ClaimUser? ==> x.released == {})
  }

  ghost predicate RefOk(v: View, t: Name, firm: bool) {
    && (v.turl.Some? && v.turl.value.deleting ==> v.turl.value.guarded)
    && (!v.task.pc.Resting? ==> v.turl.Some? && v.turl.value.guarded)
    && (Live(v) ==>
          var published := v.turl.value.status.user;
          if v.task.pc.Resting? then published.Some? ==> Held(v.users, t, published.value, firm)
          else TaskOk(v.users, t, v.task, published, firm))
    && (firm && v.turl.Some? ==> v.turl.value.written)
  }

  /** The two situations in which the code lets go of a user it needs: it starts a reconcile
      for the user it is about to release, or it loses the status write after a release. */
  predicate Benign(v: View, o: Outcome) {
    && (v.task.pc.Resting? && Live(v) ==> v.turl.value.status.pending != Some(v.turl.value.spec))
    && (v.task.pc.PatchStatus? && Live(v) && !o.ok && v.turl.value.status.user.Some? ==>
          v.turl.value.status.user.value !in v.task.released)
  }

  lemma BoundaryRef(v: View, t: Name, o: Outcome, firm: bool)
    requires RefOk(v, t, firm) && Benign(v, o)
    ensures v.task.pc.Resting? ==> RefOk(TurlBegins(v), t, firm)
    ensures v.task.pc.PatchStatus? ==> RefOk(TurlPatches(v, o), t, firm)
    ensures v.task.pc.DelDone? ==> RefOk(TurlVanishes(v, o), t, firm)
  {
  }

  /** Moves of the program counter that ask for no new claim. */
  predicate MayGo(p: TurlPc, q: TurlPc) {
    || ((Early(p) || Late(p)) && q.PatchStatus?)
    || (p.ClaimVhost? && q.ClaimUser?)
    || ((p.DropVhost? || p.DropOrphanVhost?) && (q.DropOrphanVhost? || q.AwaitUser?))
    || (Late(p) && Late(q))
  }

  /** A step that touches neither users nor what the invariant says about them. */
  lemma MoveRef(v: View, n: View, t: Name, firm: bool)
    requires RefOk(v, t, firm) && n.users == v.users && n.turl == v.turl && MayGo(v.task.pc, n.task.pc)
    requires n.task.key == v.task.key && n.task.waits == v.task.waits && n.task.released == v.task.released
    requires n.task.status.user == v.task.status.user
    requires n.task.status.pending == v.task.status.pending || n.task.status.pending.None?
    ensures RefOk(n, t, firm)
  {
  }

  lemma ClaimVhostRef(v: View, t: Name, o: Outcome, firm: bool)
    requires RefOk(v, t, firm) && v.task.pc.ClaimVhost?
    ensures RefOk(TurlClaimsVhost(v, t, o), t, firm)
  {
    MoveRef(v, TurlClaimsVhost(v, t, o), t, firm);
  }

  lemma DropVhostRef(v: View, t: Name, o: Outcome, firm: bool)
    requires RefOk(v, t, firm) && (v.task.pc.DropVhost? || v.task.pc.DropOrphanVhost?)
    ensures RefOk(TurlDropsVhost(v, t, o), t, firm)
    ensures RefOk(TurlSweepsVhost(v, o), t, firm)
  {
    MoveRef(v, TurlDropsVhost(v, t, o), t, firm);
    MoveRef(v, TurlSweepsVhost(v, o), t, firm);
  }

  lemma EarlyRef(v: View, t: Name, o: Outcome, firm: bool)
    requires RefOk(v, t, firm)
    ensures v.task.pc.CleanEarlier? ==> RefOk(TurlCleansEarlier(v, o), t, firm)
    ensures v.task.pc.AwaitUser? ==> RefOk(TurlAwaitsUser(v, o), t, firm)
  {
  }

  lemma LateRef(v: View, t: Name, o: Outcome, firm: bool)
    requires RefOk(v, t, firm) && Late(v.task.pc) && !WritesUsers(v.task.pc)
    ensures RefOk(TurlWorks(v, t, o), t, firm)
  {
    match v.task.pc
    case CheckConsumer => MoveRef(v, TurlChecksConsumer(v, o), t, firm);
    case CheckNodes => MoveRef(v, TurlChecksNodes(v, o), t, firm);
    case CleanSecret => MoveRef(v, TurlCleansSecret(v, o), t, firm);
    case SweepSecret => MoveRef(v, TurlSweepsSecret(v, o), t, firm);
  }

  /** The claimed user becomes the published one. */
  lemma CompletedRef(v: View, secrets: map<SecretName, Secret>, st: TurlStatus, t: Name, firm: bool)
    requires RefOk(v, t, firm) && v.task.pc.WriteSecret? && st.pending == v.task.status.pending
    ensures RefOk(v.(secrets := secrets, task := Completed(v.task, st)), t, firm)
  {
  }

  lemma SecretRef(v: View, t: Name, o: Outcome, firm: bool)
    requires RefOk(v, t, firm) && v.task.pc.WriteSecret?
    ensures RefOk(TurlWritesSecret(v, t, o), t, firm)
  {
    var n := TurlWritesSecret(v, t, o);
    QuietSecrets(v, t, o);
    if n.task.pc.PatchStatus? {
      StoppedBefore(v, t, o);
      MoveRef(v, n, t, firm);
    } else {
      var st := CompletedFrom(v, t, o);
      CompletedRef(v, n.secrets, st, t, firm);
    }
  }

  lemma StoppedBefore(v: View, t: Name, o: Outcome)
    requires TurlWritesSecret(v, t, o).task.pc.PatchStatus?
    ensures TurlWritesSecret(v, t, o).task == v.task.(pc := PatchStatus) && TurlWritesSecret(v, t, o).turl == v.turl
  {
  }

  lemma CompletedFrom(v: View, t: Name, o: Outcome) returns (st: TurlStatus)
    requires !TurlWritesSecret(v, t, o).task.pc.PatchStatus?
    ensures var n := TurlWritesSecret(v, t, o);
            st.pending == v.task.status.pending && n == v.(secrets := n.secrets, task := Completed(v.task, st))
  {
    var c := Content(v.task.key, o.rest);
    st := v.task.status;
    if st.oldSecret.None? {
      if st.pending.Some? {
        st := st.(oldSecret := st.secret, secret := Some(Immutable(t, c)), content := Some(c));
      } else {
        var moved := st.secret.Some? && st.secret != Some(Mutable(t));
        if !(moved && st.content == Some(c)) {
          st := st.(oldSecret := if moved then st.secret else None, secret := Some(Mutable(t)), content := Some(c));
        }
      }
    }
  }

  lemma ClaimRef(v: View, t: Name, o: Outcome, firm: bool)
    requires RefOk(v, t, firm) && v.task.pc.ClaimUser?
    ensures RefOk(TurlClaimsUser(v, t, o), t, firm)
  {
  }

  lemma ReleaseRef(v: View, t: Name, o: Outcome, next: TurlPc, firm: bool)
    requires RefOk(v, t, firm)
    requires (v.task.pc.ReleaseEarlier? && next.CleanEarlier?) || (v.task.pc.Release? && next.CleanSecret?)
    ensures RefOk(TurlReleases(v, t, o, next), t, firm)
  {
  }

  lemma OwnStepRef(v: View, t: Name, o: Outcome, firm: bool)
    requires RefOk(v, t, firm) && Benign(v, o)
    ensures RefOk(TurlWorks(v, t, o), t, firm)
  {
    match v.task.pc
    case ClaimUser => ClaimRef(v, t, o, firm);
    case ReleaseEarlier => ReleaseRef(v, t, o, CleanEarlier, firm);
    case Release => ReleaseRef(v, t, o, CleanSecret, firm);
    case WriteSecret => SecretRef(v, t, o, firm);
    case ClaimVhost => ClaimVhostRef(v, t, o, firm);
    case DropVhost | DropOrphanVhost => DropVhostRef(v, t, o, firm);
    case CleanEarlier | AwaitUser => EarlyRef(v, t, o, firm);
    case CheckConsumer | CheckNodes | CleanSecret | SweepSecret => LateRef(v, t, o, firm);
    case Resting | PatchStatus | DelDone => BoundaryRef(v, t, o, firm);
    case DelPending | DelSecret | DelUser | DelVhost =>
  }

  // ---------------------------------------------------------------- all TransportURLs, every run

  /** firm: the TransportURLs that always write their vhost out. */
  ghost predicate Refs(w: World, firm: set<Name>) {
    forall t :: RefOk(See(w, t), t, t in firm)
  }

  /** Users may change as long as no claim of `t` does. */
  lemma FrameRef(v: View, n: View, t: Name, firm: bool)
    requires RefOk(v, t, firm) && n.task == v.task
    requires Live(n) ==>
               || (Live(v) && n.turl.value.status == v.turl.value.status)
               || (n.task.pc.Resting? && n.turl.value.status.user.None?)
    requires n.turl.Some? ==> (n.turl.value.deleting ==> n.turl.value.guarded) && (firm ==> n.turl.value.written)
    requires !n.task.pc.Resting? ==> n.turl.Some? && n.turl.value.guarded
    requires forall k :: Neutral(v.users, n.users, t, k)
    ensures RefOk(n, t, firm)
  {
    forall k
      ensures Claimed(n.users, t, k) <==> Claimed(v.users, t, k)
      ensures forall f :: Held(v.users, t, k, f) ==> Held(n.users, t, k, f)
    {
      assert Neutral(v.users, n.users, t, k);
    }
  }

  lemma OtherTurlRef(w: World, b: Name, o: Outcome, t: Name, firm: bool)
    requires RefOk(See(w, t), t, firm) && b != t
    ensures RefOk(See(TurlStep(w, b, o), t), t, firm)
  {
    forall k
      ensures Neutral(w.users, TurlWorks(See(w, b), b, o).users, t, k)
    {
      TurlWorksNeutral(See(w, b), b, o, t, k);
    }
    FrameRef(See(w, t), See(Write(w, b, TurlWorks(See(w, b), b, o)), t), t, firm);
  }

  lemma OwnTurlRef(w: World, t: Name, o: Outcome, firm: bool)
    requires RefOk(See(w, t), t, firm) && Benign(See(w, t), o)
    ensures RefOk(See(TurlStep(w, t, o), t), t, firm)
  {
    var n := TurlWorks(See(w, t), t, o);
    OwnStepRef(See(w, t), t, o, firm);
    var m := See(Write(w, t, n), t);
    assert m.users == n.users && m.turl == n.turl;
    assert !n.task.pc.Resting? ==> m.task == n.task;
  }

  lemma UserStepRef(w: World, x: UserKey, o: Outcome, t: Name, firm: bool)
    requires RefOk(See(w, t), t, firm)
    ensures RefOk(See(UserStep(w, x, o), t), t, firm)
  {
    forall k
      ensures Neutral(w.users, UserWorks(SeeUser(w, x), x, o).users, t, k)
    {
      UserWorksNeutral(SeeUser(w, x), x, o, t, k);
    }
    FrameRef(See(w, t), See(WriteUser(w, x, UserWorks(SeeUser(w, x), x, o)), t), t, firm);
  }

  lemma VhostStepRef(w: World, x: VhostKey, o: Outcome, t: Name, firm: bool)
    requires RefOk(See(w, t), t, firm)
    ensures RefOk(See(VhostStep(w, x, o), t), t, firm)
  {
  }

  lemma EnvRef(w: World, s: Step, t: Name, firm: bool)
    requires RefOk(See(w, t), t, firm)
    requires !s.TurlMoves? && !s.UserMoves? && !s.VhostMoves? && (firm ==> WritesOut(s, {t}))
    ensures RefOk(See(EnvStep(w, s), t), t, firm)
  {
    forall k
      ensures Neutral(w.users, EnvStep(w, s).users, t, k)
    {
      EnvNeutral(w, s, t, k);
    }
    FrameRef(See(w, t), See(EnvStep(w, s), t), t, firm);
  }

  predicate BenignStep(w: World, s: Step) {
    s.TurlMoves? ==> Benign(See(w, s.t), s.o)
  }

  /** A spec of these TransportURLs names its vhost, even if that is "/". */
  predicate WritesOut(s: Step, firm: set<Name>) {
    (s.CreateTurl? || s.EditSpec?) && s.t in firm ==> s.written
  }

  lemma StepRefs(w: World, s: Step, firm: set<Name>)
    requires Refs(w, firm) && BenignStep(w, s) && WritesOut(s, firm)
    ensures Refs(Apply(w, s), firm)
  {
    forall t
      ensures RefOk(See(Apply(w, s), t), t, t in firm)
    {
      match s
      case TurlMoves(b, o) =>
        if b == t {
          OwnTurlRef(w, t, o, t in firm);
        } else {
          OtherTurlRef(w, b, o, t, t in firm);
        }
      case UserMoves(k, o) => UserStepRef(w, k, o, t, t in firm);
      case VhostMoves(v, o) => VhostStepRef(w, v, o, t, t in firm);
      case _ => EnvRef(w, s, t, t in firm);
    }
  }

  predicate BenignRun(w: World, ss: seq<Step>)
    decreases ss
  {
    ss != [] ==> BenignStep(w, ss[0]) && BenignRun(Apply(w, ss[0]), ss[1..])
  }

  predicate WritesOutRun(ss: seq<Step>, firm: set<Name>) {
    forall s :: s in ss ==> WritesOut(s, firm)
  }

  lemma {:induction false} RunRefs(w: World, ss: seq<Step>, firm: set<Name>)
    requires Refs(w, firm) && BenignRun(w, ss) && WritesOutRun(ss, firm)
    ensures Refs(Run(w, ss), firm)
    decreases ss
  {
    if ss != [] {
      StepRefs(w, ss[0], firm);
      RunRefs(Apply(w, ss[0]), ss[1..], firm);
    }
  }

  lemma NoTurlsYet(w: World, firm: set<Name>)
    requires w.turls == map[] && w.turlTasks == map[]
    ensures Refs(w, firm)
  {
  }
}
