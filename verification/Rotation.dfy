/** Credential rotation from user A to user B: the old user is held until the new credentials
    are published, the old secret has no consumer and every NodeSet is up to date. */
module Rotation {
  import opened ApiObjects
  import opened Protocol
  import opened Footprints
  import opened References
  import Reconcile

  // ---------------------------------------------------------------- secrets of other TransportURLs

  /** The status names secrets of `t` only, and its hash is that of the immutable one it names. */
  predicate Own(st: TurlStatus, t: Name) {
    && (st.secret.Some? ==> st.secret.value.turl == t) && (st.oldSecret.Some? ==> st.oldSecret.value.turl == t)
    && (st.secret.Some? && st.secret.value.Immutable? ==> st.content == Some(st.secret.value.content))
  }

  predicate Owner(v: View, t: Name) {
    (v.turl.Some? ==> Own(v.turl.value.status, t)) && Own(v.task.status, t)
  }

  ghost predicate Owners(w: World) {
    forall t :: Owner(See(w, t), t)
  }

  predicate WritesSecrets(pc: TurlPc) {
    pc.CleanEarlier? || pc.WriteSecret? || pc.CleanSecret? || pc.SweepSecret? || pc.DelSecret?
  }

  predicate Boundary(pc: TurlPc) {
    pc.Resting? || pc.PatchStatus? || pc.DelDone?
  }

  lemma OwnerClaims(v: View, t: Name, o: Outcome)
    requires Owner(v, t)
    ensures Owner(TurlClaimsVhost(v, t, o), t) && Owner(TurlClaimsUser(v, t, o), t)
  {
    OwnerGoes(v, TurlClaimsVhost(v, t, o), t);
    OwnerGoes(v, TurlClaimsUser(v, t, o), t);
  }

  lemma OwnerEarly(v: View, t: Name, o: Outcome)
    requires Owner(v, t) && Early(v.task.pc) && !WritesSecrets(v.task.pc)
    ensures Owner(TurlWorks(v, t, o), t)
  {
    match v.task.pc
    case ClaimVhost | ClaimUser => OwnerClaims(v, t, o);
    case ReleaseEarlier => OwnerGoes(v, TurlReleases(v, t, o, CleanEarlier), t);
    case DropVhost => OwnerGoes(v, TurlDropsVhost(v, t, o), t);
    case DropOrphanVhost => OwnerGoes(v, TurlSweepsVhost(v, o), t);
    case AwaitUser => OwnerGoes(v, TurlAwaitsUser(v, o), t);
  }

  lemma OwnerGoes(v: View, n: View, t: Name)
    requires Owner(v, t) && n.turl == v.turl
    requires n.task.status == v.task.status.(pending := n.task.status.pending)
    ensures Owner(n, t)
  {
  }

  lemma OwnerLate(v: View, t: Name, o: Outcome)
    requires Owner(v, t) && Late(v.task.pc) && !WritesSecrets(v.task.pc)
    ensures Owner(TurlWorks(v, t, o), t)
  {
    match v.task.pc
    case CheckConsumer => OwnerGoes(v, TurlChecksConsumer(v, o), t);
    case CheckNodes => OwnerGoes(v, TurlChecksNodes(v, o), t);
    case Release => OwnerGoes(v, TurlReleases(v, t, o, CleanSecret), t);
  }

  lemma OwnerPlain(v: View, t: Name, o: Outcome)
    requires Owner(v, t) && !WritesSecrets(v.task.pc) && !Boundary(v.task.pc)
    ensures Owner(TurlWorks(v, t, o), t)
  {
    match v.task.pc
    case CheckConsumer | CheckNodes | Release => OwnerLate(v, t, o);
    case DelPending => OwnerGoes(v, TurlDeletesPending(v, t, o), t);
    case DelUser => OwnerGoes(v, TurlAbandonsUser(v, t, o), t);
    case DelVhost => OwnerGoes(v, TurlAbandonsVhost(v, t, o), t);
    case _ => OwnerEarly(v, t, o);
  }

  lemma OwnerBoundary(v: View, t: Name, o: Outcome)
    requires Owner(v, t) && Boundary(v.task.pc)
    ensures Owner(TurlWorks(v, t, o), t)
  {
  }

  lemma OwnerUpdates(v: View, t: Name, c: Content)
    requires Owner(v, t)
    ensures Owner(TurlUpdatesSecret(v, t, c), t)
  {
  }

  lemma OwnerSecret(v: View, t: Name, o: Outcome)
    requires Owner(v, t)
    ensures Owner(TurlWritesSecret(v, t, o), t)
  {
    OwnerUpdates(v, t, Content(v.task.key, o.rest));
  }

  lemma OwnerSweep(v: View, t: Name, o: Outcome)
    requires Owner(v, t)
    ensures Owner(TurlCleansEarlier(v, o), t) && Owner(TurlCleansSecret(v, o), t)
    ensures Owner(TurlSweepsSecret(v, o), t) && Owner(TurlDeletesSecret(v, o), t)
  {
  }

  lemma OwnerWorks(v: View, t: Name, o: Outcome)
    requires Owner(v, t)
    ensures Owner(TurlWorks(v, t, o), t)
  {
    if Boundary(v.task.pc) {
      OwnerBoundary(v, t, o);
    } else if !WritesSecrets(v.task.pc) {
      OwnerPlain(v, t, o);
    } else {
      OwnerSecret(v, t, o);
      OwnerSweep(v, t, o);
    }
  }

  /** A reconcile that gets past its secret publishes the credentials of the user it claimed,
      unless an earlier secret was still waiting to be cleaned up. */
  lemma CompletedPublishes(v: View, t: Name, o: Outcome)
    requires Owner(v, t) && v.task.pc.WriteSecret? && v.task.status.oldSecret.None?
    requires Late(TurlWorks(v, t, o).task.pc)
    ensures var n := TurlWorks(v, t, o);
            && n.task.status.user == Some(v.task.key)
            && Reconcile.Shows(n.secrets, n.task.status.secret, Content(v.task.key, o.rest))
  {
    var c := Content(v.task.key, o.rest);
    if v.task.status.pending.None? {
      UpdatePublishes(v, t, c);
    }
  }

  lemma UpdatePublishes(v: View, t: Name, c: Content)
    requires Own(v.task.status, t) && Late(TurlUpdatesSecret(v, t, c).task.pc)
    ensures var n := TurlUpdatesSecret(v, t, c);
            n.task.status.user == Some(v.task.key) && Reconcile.Shows(n.secrets, n.task.status.secret, c)
  {
  }

  lemma PlainSecrets(v: View, t: Name, o: Outcome)
    requires !WritesSecrets(v.task.pc)
    ensures TurlWorks(v, t, o).secrets == v.secrets
  {
  }

  lemma OthersWritten(v: View, t: Name, o: Outcome, name: SecretName)
    requires Owner(v, t) && name.turl != t
    ensures SameAt(v.secrets, TurlWritesSecret(v, t, o).secrets, name)
  {
  }

  lemma OthersSwept(v: View, t: Name, o: Outcome, name: SecretName)
    requires Owner(v, t) && name.turl != t
    ensures SameAt(v.secrets, SweptSecret(v.secrets, v.task.status.oldSecret), name)
  {
  }

  lemma OthersSecrets(v: View, t: Name, o: Outcome, name: SecretName)
    requires Owner(v, t) && name.turl != t
    ensures SameAt(v.secrets, TurlWorks(v, t, o).secrets, name)
  {
    if !WritesSecrets(v.task.pc) {
      PlainSecrets(v, t, o);
    } else {
      OthersWritten(v, t, o, name);
      OthersSwept(v, t, o, name);
    }
  }

  // ---------------------------------------------------------------- the handover

  /** TransportURL t moves from user a, published in secret first, to user b. */
  datatype Handing = Handing(t: Name, a: UserKey, b: UserKey, first: SecretName)

  /** The new credentials are not published yet. */
  predicate Before(st: TurlStatus, h: Handing) {
    && st.user == Some(h.a) && (st.pending.None? || st.pending == Some(h.a))
    && st.secret == Some(h.first) && st.oldSecret.None?
  }

  /** The new credentials are published in a secret of their own. */
  predicate After(st: TurlStatus, h: Handing) {
    && st.user == Some(h.b) && st.pending == Some(h.a) && st.oldSecret == Some(h.first)
    && st.secret.Some? && st.secret.value.Immutable? && st.secret.value.turl == h.t
    && st.secret.value.content.user == h.b
  }

  predicate Underway(st: TurlStatus, h: Handing) {
    Before(st, h) || After(st, h)
  }

  /** While t still holds a, its reconcile is somewhere before the release. */
  predicate TaskUnderway(x: TurlTask, h: Handing) {
    && x.key == h.b
    && match x.pc
       case ClaimVhost | ClaimUser | PatchStatus => Underway(x.status, h)
       case DropVhost | DropOrphanVhost | AwaitUser | WriteSecret =>
         Underway(x.status, h) && x.status.pending == Some(h.a)
       case CheckConsumer | CheckNodes | Release => After(x.status, h)
       case _ => false
  }

  predicate HandingOver(v: View, h: Handing) {
    && h.a != h.b
    && Live(v) && v.turl.value.guarded && v.turl.value.spec == h.b
    && Underway(v.turl.value.status, h)
    && (v.task.pc.Resting? ||
          (TaskUnderway(v.task, h) &&
           (After(v.turl.value.status, h) ==>
            After(v.task.status, h) && v.task.status.secret == v.turl.value.status.secret)))
  }

  lemma HandoverWrites(v: View, h: Handing, o: Outcome)
    requires HandingOver(v, h) && v.task.pc.WriteSecret?
    ensures HandingOver(TurlWorks(v, h.t, o), h)
    ensures Passed(v, TurlWorks(v, h.t, o), h)
  {
  }

  /** A step of the reconcile that at most remembers a. */
  predicate Steps(v: View, n: View, h: Handing) {
    && n.turl == v.turl && n.task.key == v.task.key
    && (n.task.status == v.task.status ||
          (v.task.pc.ClaimUser? && n.task.status == v.task.status.(pending := Some(h.a))))
    && match v.task.pc
       case ClaimVhost => n.task.pc.PatchStatus? || n.task.pc.ClaimUser?
       case ClaimUser => n.task.pc.PatchStatus? || (n.task.pc.DropVhost? && n.task.status.pending == Some(h.a))
       case DropVhost | DropOrphanVhost | AwaitUser =>
         n.task.pc.PatchStatus? || n.task.pc.DropOrphanVhost? || n.task.pc.AwaitUser? || n.task.pc.WriteSecret?
       case _ => false
  }

  lemma StepsOn(v: View, n: View, h: Handing)
    requires HandingOver(v, h) && Steps(v, n, h)
    ensures HandingOver(n, h) && Carried(n, h) == Carried(v, h)
  {
  }

  lemma HandoverEarly(v: View, h: Handing, o: Outcome)
    requires HandingOver(v, h) && Early(v.task.pc) && !v.task.pc.WriteSecret?
    ensures Steps(v, TurlWorks(v, h.t, o), h)
  {
    match v.task.pc
    case ClaimVhost => assert Steps(v, TurlClaimsVhost(v, h.t, o), h);
    case ClaimUser => assert Steps(v, TurlClaimsUser(v, h.t, o), h);
    case DropVhost => assert Steps(v, TurlDropsVhost(v, h.t, o), h);
    case DropOrphanVhost => assert Steps(v, TurlSweepsVhost(v, o), h);
    case AwaitUser => assert Steps(v, TurlAwaitsUser(v, o), h);
  }

  lemma HandoverBoundary(v: View, h: Handing, o: Outcome)
    requires HandingOver(v, h) && (v.task.pc.Resting? || v.task.pc.PatchStatus?)
    ensures HandingOver(TurlWorks(v, h.t, o), h)
    ensures Passed(v, TurlWorks(v, h.t, o), h)
  {
  }

  lemma HandoverChecks(v: View, h: Handing, o: Outcome)
    requires HandingOver(v, h) && (v.task.pc.CheckConsumer? || v.task.pc.CheckNodes?)
    ensures HandingOver(TurlWorks(v, h.t, o), h)
    ensures Passed(v, TurlWorks(v, h.t, o), h)
  {
  }

  /** The two checks lie behind a reconcile that has come this far. */
  predicate Passed(v: View, n: View, h: Handing) {
    && (n.task.pc.CheckNodes? ==> v.task.pc.CheckConsumer? && !Consumed(v.secrets, Some(h.first)))
    && (n.task.pc.Release? ==> v.task.pc.CheckNodes? && v.nodeSets != OutOfSync)
  }

  /** Either the handover goes on, or this is the release. */
  lemma HandoverWorks(v: View, h: Handing, o: Outcome)
    requires HandingOver(v, h)
    ensures Passed(v, TurlWorks(v, h.t, o), h)
    ensures HandingOver(TurlWorks(v, h.t, o), h) || !Claimed(TurlWorks(v, h.t, o).users, h.t, h.a)
    ensures Claimed(v.users, h.t, h.a) && !Claimed(TurlWorks(v, h.t, o).users, h.t, h.a) ==> v.task.pc.Release?
  {
    if v.task.pc.WriteSecret? {
      HandoverWrites(v, h, o);
    } else if Early(v.task.pc) {
      HandoverEarly(v, h, o);
      StepsOn(v, TurlWorks(v, h.t, o), h);
    } else if v.task.pc.CheckConsumer? || v.task.pc.CheckNodes? {
      HandoverChecks(v, h, o);
    } else if !v.task.pc.Release? {
      HandoverBoundary(v, h, o);
    } else {
      ReleaseNeutral(v.users, h.a, h.t, h.t, h.a);
    }
    if !v.task.pc.Release? {
      TurlWorksNeutral(v, h.t, o, h.t, h.a);
    }
  }

  // ---------------------------------------------------------------- the new secret

  /** A secret with these credentials exists and stays. */
  predicate Issued(secrets: map<SecretName, Secret>, s: SecretName) {
    s.Immutable? && s in secrets && secrets[s].content == s.content && !secrets[s].deleting
  }

  /** A secret left over from an earlier rotation that is about to disappear. */
  predicate Leftover(secrets: map<SecretName, Secret>, s: SecretName) {
    s in secrets && secrets[s].deleting
  }

  /** A change that neither creates or deletes the secret nor rewrites it; one being deleted may go. */
  predicate Spared(m: map<SecretName, Secret>, n: map<SecretName, Secret>, s: SecretName) {
    && (s in n ==> s in m && n[s].content == m[s].content && n[s].deleting == m[s].deleting)
    && (s in m && !m[s].deleting ==> s in n)
  }

  /** The step that publishes the new user for the first time. */
  predicate Publishing(v: View, o: Outcome) {
    v.task.pc.WriteSecret? && v.task.status.oldSecret.None? && o.ok
  }

  function NewName(v: View, t: Name, o: Outcome): SecretName {
    Immutable(t, Content(v.task.key, o.rest))
  }

  /** Before the release t touches no secret except the one it publishes. */
  lemma HandoverSpares(v: View, h: Handing, o: Outcome, s: SecretName)
    requires HandingOver(v, h) && !(Publishing(v, o) && s == NewName(v, h.t, o))
    ensures Spared(v.secrets, TurlWorks(v, h.t, o).secrets, s)
  {
    if v.task.pc.WriteSecret? {
      assert v.task.status.pending.Some?;
    } else {
      PlainSecrets(v, h.t, o);
    }
  }

  /** Publishing adopts a secret that is already there, even one that is being deleted. */
  lemma PublishingIssues(v: View, h: Handing, o: Outcome)
    requires HandingOver(v, h) && Publishing(v, o)
    requires NewName(v, h.t, o) in v.secrets ==> v.secrets[NewName(v, h.t, o)].content == NewName(v, h.t, o).content
    ensures var n := TurlWorks(v, h.t, o);
            && After(n.task.status, h) && n.task.status.secret == Some(NewName(v, h.t, o)) && !n.task.pc.Resting?
            && (Issued(n.secrets, NewName(v, h.t, o)) <==> !Leftover(v.secrets, NewName(v, h.t, o)))
  {
  }

  /** The secret with the new credentials that a handover has come to. */
  function Carried(v: View, h: Handing): Option<SecretName> {
    if v.turl.Some? && After(v.turl.value.status, h) then v.turl.value.status.secret
    else if !v.task.pc.Resting? && After(v.task.status, h) then v.task.status.secret
    else None
  }

  /** Only publishing gives a handover a new secret. */
  lemma CarriedOn(v: View, h: Handing, o: Outcome)
    requires HandingOver(v, h) && !v.task.pc.Release? && !Publishing(v, o)
    requires Carried(TurlWorks(v, h.t, o), h).Some?
    ensures Carried(v, h) == Carried(TurlWorks(v, h.t, o), h)
  {
    if Early(v.task.pc) && !v.task.pc.WriteSecret? {
      HandoverEarly(v, h, o);
      StepsOn(v, TurlWorks(v, h.t, o), h);
    }
  }

  // ---------------------------------------------------------------- runs

  /** An immutable secret holds what its name says. */
  ghost predicate Named(secrets: map<SecretName, Secret>) {
    forall s: SecretName :: s.Immutable? && s in secrets ==> secrets[s].content == s.content
  }

  ghost predicate Ready(w: World, h: Handing) {
    && Owners(w) && Named(w.secrets) && h.a != h.b
    && h.t in w.turls && h.t !in w.turlTasks && Claimed(w.users, h.t, h.a)
    && var x := w.turls[h.t];
       && !x.deleting && x.guarded && x.spec == h.b
       && x.status.user == Some(h.a) && x.status.pending.None?
       && x.status.secret == Some(h.first) && x.status.oldSecret.None?
  }

  /** Nobody edits or deletes the rotating TransportURL; everything else may happen. */
  predicate Steady(s: Step, h: Handing) {
    !(s.EditSpec? && s.t == h.t) && !(s.DeleteTurl? && s.t == h.t)
  }

  lemma OwnerWrite(w: World, b: Name, n: View, t: Name)
    requires Owner(See(w, t), t) && Owner(n, b)
    ensures Owner(See(Write(w, b, n), t), t)
  {
  }

  lemma OwnerEnv(w: World, s: Step, t: Name)
    requires Owner(See(w, t), t) && !s.TurlMoves? && !s.UserMoves? && !s.VhostMoves?
    ensures Owner(See(EnvStep(w, s), t), t)
  {
  }

  lemma OwnerStep(w: World, s: Step, t: Name)
    requires Owner(See(w, t), t) && (s.TurlMoves? ==> Owner(See(w, s.t), s.t))
    ensures Owner(See(Apply(w, s), t), t)
  {
    match s
    case TurlMoves(b, o) =>
      OwnerWorks(See(w, b), b, o);
      OwnerWrite(w, b, TurlWorks(See(w, b), b, o), t);
    case UserMoves(k, o) => UserFootprint(w, k, o);
    case VhostMoves(v, o) => VhostFootprint(w, v, o);
    case _ => OwnerEnv(w, s, t);
  }

  lemma OwnersStep(w: World, s: Step)
    requires Owners(w)
    ensures Owners(Apply(w, s))
  {
    forall t
      ensures Owner(See(Apply(w, s), t), t)
    {
      assert Owner(See(w, t), t);
      assert s.TurlMoves? ==> Owner(See(w, s.t), s.t);
      OwnerStep(w, s, t);
    }
  }

  lemma NamedWorks(v: View, t: Name, o: Outcome)
    requires Named(v.secrets)
    ensures Named(TurlWorks(v, t, o).secrets)
  {
    if !WritesSecrets(v.task.pc) {
      PlainSecrets(v, t, o);
    }
  }

  lemma NamedStep(w: World, s: Step)
    requires Named(w.secrets)
    ensures Named(Apply(w, s).secrets)
  {
    match s
    case TurlMoves(t, o) => NamedWorks(See(w, t), t, o);
    case UserMoves(k, o) => UserFootprint(w, k, o);
    case VhostMoves(v, o) => VhostFootprint(w, v, o);
    case _ =>
  }

  lemma {:induction false} RunOwners(w: World, ss: seq<Step>)
    requires Owners(w) && Named(w.secrets)
    ensures Owners(Run(w, ss)) && Named(Run(w, ss).secrets)
    decreases ss
  {
    if ss != [] {
      OwnersStep(w, ss[0]);
      NamedStep(w, ss[0]);
      RunOwners(Apply(w, ss[0]), ss[1..]);
    }
  }

  /** In every run from an API server without TransportURLs and secrets, statuses name only their
      own secrets and immutable secrets hold what their names say. */
  lemma NamesTheorem(w: World, ss: seq<Step>)
    requires w.turls == map[] && w.turlTasks == map[] && w.secrets == map[]
    ensures Owners(Run(w, ss)) && Named(Run(w, ss).secrets)
  {
    RunOwners(w, ss);
  }

  predicate Moves(s: Step, t: Name) {
    s.TurlMoves? && s.t == t
  }

  lemma ElseFrame(w: World, s: Step, h: Handing)
    requires h.t in w.turls && Steady(s, h) && !Moves(s, h.t)
    ensures See(Apply(w, s), h.t).turl == See(w, h.t).turl && See(Apply(w, s), h.t).task == See(w, h.t).task
  {
    match s
    case UserMoves(k, o) => UserFootprint(w, k, o);
    case VhostMoves(v, o) => VhostFootprint(w, v, o);
    case TurlMoves(_, _) =>
    case _ => EnvFootprint(w, s);
  }

  /** Steps of everybody else leave the secrets of the rotating TransportURL alone. */
  lemma ElseSpares(w: World, s: Step, h: Handing, name: SecretName)
    requires Owners(w) && !Moves(s, h.t) && name.turl == h.t
    ensures Spared(w.secrets, Apply(w, s).secrets, name)
  {
    match s
    case TurlMoves(b, o) =>
      assert Owner(See(w, b), b);
      OthersSecrets(See(w, b), b, o, name);
    case UserMoves(k, o) => UserFootprint(w, k, o);
    case VhostMoves(v, o) => VhostFootprint(w, v, o);
    case _ =>
  }

  lemma ElseHolds(w: World, s: Step, h: Handing)
    requires !Moves(s, h.t)
    ensures Claimed(Apply(w, s).users, h.t, h.a) <==> Claimed(w.users, h.t, h.a)
  {
    match s
    case TurlMoves(b, o) => TurlWorksNeutral(See(w, b), b, o, h.t, h.a);
    case UserMoves(k, o) => UserWorksNeutral(SeeUser(w, k), k, o, h.t, h.a);
    case VhostMoves(v, o) => VhostFootprint(w, v, o);
    case _ => EnvNeutral(w, s, h.t, h.a);
  }

  /** What the world shows after a step of t itself. */
  lemma OwnView(w: World, t: Name, o: Outcome)
    ensures var v := TurlWorks(See(w, t), t, o);
            var n := See(TurlStep(w, t, o), t);
            && n.turl == v.turl && n.users == v.users && n.secrets == v.secrets
            && (n.task == v.task || (v.task.pc.Resting? && n.task.pc.Resting?))
  {
  }

  lemma HandingStep(w: World, s: Step, h: Handing)
    requires Owners(w) && HandingOver(See(w, h.t), h) && Claimed(w.users, h.t, h.a) && Steady(s, h)
    ensures var n := Apply(w, s);
            && (Moves(s, h.t) ==> Passed(See(w, h.t), See(n, h.t), h))
            && (!Moves(s, h.t) ==> See(n, h.t).task == See(w, h.t).task)
            && (if Claimed(n.users, h.t, h.a) then HandingOver(See(n, h.t), h)
                else Moves(s, h.t) && See(w, h.t).task.pc.Release?)
  {
    if Moves(s, h.t) {
      HandoverWorks(See(w, h.t), h, s.o);
      OwnView(w, h.t, s.o);
    } else {
      ElseFrame(w, s, h);
      ElseHolds(w, s, h);
    }
  }

  ghost predicate SteadyRun(ss: seq<Step>, h: Handing) {
    forall s :: s in ss ==> Steady(s, h)
  }

  ghost predicate HeldUntil(w: World, ss: seq<Step>, h: Handing, d: nat)
    requires d <= |ss|
  {
    forall i: nat :: i <= d ==> Claimed(At(w, ss, i).users, h.t, h.a)
  }

  lemma {:induction false} HandingAlong(w: World, ss: seq<Step>, h: Handing, d: nat)
    requires d <= |ss| && Ready(w, h) && SteadyRun(ss, h) && HeldUntil(w, ss, h, d)
    ensures Owners(At(w, ss, d)) && Named(At(w, ss, d).secrets) && HandingOver(See(At(w, ss, d), h.t), h)
    decreases d
  {
    if d > 0 {
      HandingAlong(w, ss, h, d - 1);
      RunNext(w, ss, d - 1);
      OwnersStep(At(w, ss, d - 1), ss[d - 1]);
      NamedStep(At(w, ss, d - 1), ss[d - 1]);
      HandingStep(At(w, ss, d - 1), ss[d - 1], h);
    }
  }

  function Pc(w: World, t: Name): TurlPc {
    See(w, t).task.pc
  }

  /** Step i of the run saw that the old secret has no consumer, and passed. */
  predicate OldUnused(w: World, ss: seq<Step>, h: Handing, i: nat)
    requires i < |ss|
  {
    && Moves(ss[i], h.t) && Pc(At(w, ss, i), h.t).CheckConsumer?
    && !Consumed(At(w, ss, i).secrets, Some(h.first))
  }

  /** Step j of the run saw that NodeSets are absent or in sync, and passed. */
  predicate NodesReady(w: World, ss: seq<Step>, h: Handing, j: nat)
    requires j < |ss|
  {
    Moves(ss[j], h.t) && Pc(At(w, ss, j), h.t).CheckNodes? && At(w, ss, j).nodeSets != OutOfSync
  }

  /** From step i to state d one reconcile is past its consumer check. */
  ghost predicate SameReconcile(w: World, ss: seq<Step>, h: Handing, i: nat, d: nat)
    requires d <= |ss|
  {
    forall m: nat :: i < m <= d ==> Pc(At(w, ss, m), h.t).CheckNodes? || Pc(At(w, ss, m), h.t).Release?
  }

  /** How the run came to a state past the checks. */
  lemma CameFrom(w: World, ss: seq<Step>, h: Handing, d: nat)
    requires d <= |ss| && Ready(w, h) && SteadyRun(ss, h) && HeldUntil(w, ss, h, d)
    requires Pc(At(w, ss, d), h.t).CheckNodes? || Pc(At(w, ss, d), h.t).Release?
    ensures d > 0
    ensures Pc(At(w, ss, d), h.t).CheckNodes? ==> Pc(At(w, ss, d - 1), h.t).CheckNodes? || OldUnused(w, ss, h, d - 1)
    ensures Pc(At(w, ss, d), h.t).Release? ==> Pc(At(w, ss, d - 1), h.t).Release? || NodesReady(w, ss, h, d - 1)
  {
    assert d > 0;
    RunNext(w, ss, d - 1);
    HandingAlong(w, ss, h, d - 1);
    HandingStep(At(w, ss, d - 1), ss[d - 1], h);
  }

  lemma {:induction false} ConsumerChecked(w: World, ss: seq<Step>, h: Handing, d: nat) returns (i: nat)
    requires d <= |ss| && Ready(w, h) && SteadyRun(ss, h) && HeldUntil(w, ss, h, d)
    requires Pc(At(w, ss, d), h.t).CheckNodes? || Pc(At(w, ss, d), h.t).Release?
    ensures i < d && OldUnused(w, ss, h, i) && SameReconcile(w, ss, h, i, d)
    decreases d
  {
    CameFrom(w, ss, h, d);
    if OldUnused(w, ss, h, d - 1) {
      i := d - 1;
    } else {
      i := ConsumerChecked(w, ss, h, d - 1);
    }
  }

  /** From step j to state d the reconcile stands before its release. */
  ghost predicate AtRelease(w: World, ss: seq<Step>, h: Handing, j: nat, d: nat)
    requires d <= |ss|
  {
    forall m: nat :: j < m <= d ==> Pc(At(w, ss, m), h.t).Release?
  }

  lemma {:induction false} NodesChecked(w: World, ss: seq<Step>, h: Handing, d: nat) returns (j: nat)
    requires d <= |ss| && Ready(w, h) && SteadyRun(ss, h) && HeldUntil(w, ss, h, d)
    requires Pc(At(w, ss, d), h.t).Release?
    ensures j < d && NodesReady(w, ss, h, j) && AtRelease(w, ss, h, j, d)
    decreases d
  {
    CameFrom(w, ss, h, d);
    if NodesReady(w, ss, h, d - 1) {
      j := d - 1;
    } else {
      j := NodesChecked(w, ss, h, d - 1);
    }
  }

  // ---------------------------------------------------------------- where the new secret comes from

  /** Step q of the run publishes the new user in the secret `name`. */
  predicate PublishesAt(w: World, ss: seq<Step>, h: Handing, q: nat, name: SecretName)
    requires q < |ss|
  {
    var v := See(At(w, ss, q), h.t);
    Moves(ss[q], h.t) && Publishing(v, ss[q].o) && NewName(v, h.t, ss[q].o) == name
  }

  /** Step q is the last that publishes before state d, and it decides whether the secret stays. */
  ghost predicate DecidedAt(w: World, ss: seq<Step>, h: Handing, d: nat, name: SecretName, q: nat)
    requires d <= |ss|
  {
    && q < d && PublishesAt(w, ss, h, q, name)
    && (forall m: nat, other :: q < m < d ==> !PublishesAt(w, ss, h, m, other))
    && (Issued(At(w, ss, d).secrets, name) <==> !Leftover(At(w, ss, q).secrets, name))
  }

  lemma PublishedStep(w: World, s: Step, h: Handing)
    requires Owners(w) && Named(w.secrets) && HandingOver(See(w, h.t), h)
    requires Moves(s, h.t) && Publishing(See(w, h.t), s.o)
    ensures var name := NewName(See(w, h.t), h.t, s.o);
            && Carried(See(Apply(w, s), h.t), h) == Some(name)
            && (Issued(Apply(w, s).secrets, name) <==> !Leftover(w.secrets, name))
  {
    HandoverWrites(See(w, h.t), h, s.o);
    PublishingIssues(See(w, h.t), h, s.o);
    OwnView(w, h.t, s.o);
  }

  lemma CarriedStep(w: World, s: Step, h: Handing, name: SecretName)
    requires Owners(w) && HandingOver(See(w, h.t), h) && Steady(s, h) && name.turl == h.t
    requires Claimed(Apply(w, s).users, h.t, h.a) && !(Moves(s, h.t) && Publishing(See(w, h.t), s.o))
    requires Carried(See(Apply(w, s), h.t), h) == Some(name)
    ensures Carried(See(w, h.t), h) == Some(name)
    ensures Issued(Apply(w, s).secrets, name) <==> Issued(w.secrets, name)
  {
    if !Moves(s, h.t) {
      ElseFrame(w, s, h);
      ElseSpares(w, s, h, name);
    } else if See(w, h.t).task.pc.Release? {
      ReleaseFailed(w, s, h);
    } else {
      OwnView(w, h.t, s.o);
      CarriedOn(See(w, h.t), h, s.o);
      HandoverSpares(See(w, h.t), h, s.o, name);
    }
  }

  lemma ReleaseFailed(w: World, s: Step, h: Handing)
    requires HandingOver(See(w, h.t), h) && Claimed(Apply(w, s).users, h.t, h.a)
    requires Moves(s, h.t) && See(w, h.t).task.pc.Release?
    ensures Carried(See(Apply(w, s), h.t), h) == Carried(See(w, h.t), h)
    ensures Apply(w, s).secrets == w.secrets
  {
    OwnView(w, h.t, s.o);
    ReleaseNeutral(w.users, h.a, h.t, h.t, h.a);
    assert TurlWorks(See(w, h.t), h.t, s.o) == TurlReleases(See(w, h.t), h.t, s.o, CleanSecret);
    assert TurlWorks(See(w, h.t), h.t, s.o) == Stop(See(w, h.t));
  }

  lemma CarriedName(v: View, h: Handing)
    requires Carried(v, h).Some?
    ensures var name := Carried(v, h).value; name.Immutable? && name.turl == h.t && name.content.user == h.b
  {
  }

  lemma NotYet(w: World, ss: seq<Step>, h: Handing)
    requires Ready(w, h)
    ensures Carried(See(At(w, ss, 0), h.t), h).None?
  {
    assert At(w, ss, 0) == w;
  }

  lemma DecidedNow(w: World, ss: seq<Step>, h: Handing, d: nat, name: SecretName)
    requires d < |ss| && Owners(At(w, ss, d)) && Named(At(w, ss, d).secrets) && HandingOver(See(At(w, ss, d), h.t), h)
    requires Moves(ss[d], h.t) && Publishing(See(At(w, ss, d), h.t), ss[d].o)
    requires Carried(See(At(w, ss, d + 1), h.t), h) == Some(name)
    ensures DecidedAt(w, ss, h, d + 1, name, d)
  {
    RunNext(w, ss, d);
    PublishedStep(At(w, ss, d), ss[d], h);
  }

  lemma CarriedBefore(w: World, ss: seq<Step>, h: Handing, d: nat, name: SecretName)
    requires d < |ss| && Owners(At(w, ss, d)) && HandingOver(See(At(w, ss, d), h.t), h) && Steady(ss[d], h)
    requires Claimed(At(w, ss, d + 1).users, h.t, h.a)
    requires !(Moves(ss[d], h.t) && Publishing(See(At(w, ss, d), h.t), ss[d].o))
    requires Carried(See(At(w, ss, d + 1), h.t), h) == Some(name)
    ensures Carried(See(At(w, ss, d), h.t), h) == Some(name)
    ensures Issued(At(w, ss, d + 1).secrets, name) <==> Issued(At(w, ss, d).secrets, name)
  {
    RunNext(w, ss, d);
    CarriedName(See(At(w, ss, d + 1), h.t), h);
    CarriedStep(At(w, ss, d), ss[d], h, name);
  }

  lemma DecidedStill(w: World, ss: seq<Step>, h: Handing, d: nat, name: SecretName, q: nat)
    requires d < |ss| && DecidedAt(w, ss, h, d, name, q)
    requires !(Moves(ss[d], h.t) && Publishing(See(At(w, ss, d), h.t), ss[d].o))
    requires Issued(At(w, ss, d + 1).secrets, name) <==> Issued(At(w, ss, d).secrets, name)
    ensures DecidedAt(w, ss, h, d + 1, name, q)
  {
  }

  /** Whether the new secret is there to stay was decided by the step that published it. */
  lemma {:induction false} IssueDecided(w: World, ss: seq<Step>, h: Handing, d: nat, name: SecretName) returns (q: nat)
    requires d <= |ss| && Ready(w, h) && SteadyRun(ss, h) && HeldUntil(w, ss, h, d)
    requires Carried(See(At(w, ss, d), h.t), h) == Some(name)
    ensures DecidedAt(w, ss, h, d, name, q)
    decreases d
  {
    NotYet(w, ss, h);
    HandingAlong(w, ss, h, d - 1);
    if Moves(ss[d - 1], h.t) && Publishing(See(At(w, ss, d - 1), h.t), ss[d - 1].o) {
      q := d - 1;
      DecidedNow(w, ss, h, d - 1, name);
    } else {
      CarriedBefore(w, ss, h, d - 1, name);
      q := IssueDecided(w, ss, h, d - 1, name);
      DecidedStill(w, ss, h, d - 1, name, q);
    }
  }

  // ---------------------------------------------------------------- the theorem

  /** The release at step d comes after checks of the same reconcile that found the old secret
      unused and the NodeSets up to date; and the new credentials are there to stay if and only
      if the step that published them did not adopt a secret already being deleted. */
  ghost predicate SafeRelease(w: World, ss: seq<Step>, h: Handing, d: nat)
    requires d < |ss|
  {
    && (exists i: nat, j: nat ::
          i < j < d && OldUnused(w, ss, h, i) && NodesReady(w, ss, h, j) && SameReconcile(w, ss, h, i, d))
    && (exists q: nat, name ::
          Carried(See(At(w, ss, d), h.t), h) == Some(name) && name.Immutable? && name.content.user == h.b &&
          DecidedAt(w, ss, h, d, name, q))
  }

  lemma ReleaseIsSafe(w: World, ss: seq<Step>, h: Handing, d: nat)
    requires d < |ss| && Ready(w, h) && SteadyRun(ss, h) && HeldUntil(w, ss, h, d)
    requires !Claimed(At(w, ss, d + 1).users, h.t, h.a)
    ensures SafeRelease(w, ss, h, d)
  {
    RunNext(w, ss, d);
    HandingAlong(w, ss, h, d);
    HandingStep(At(w, ss, d), ss[d], h);
    var v := See(At(w, ss, d), h.t);
    CarriedName(v, h);
    var q := IssueDecided(w, ss, h, d, Carried(v, h).value);
    var j := NodesChecked(w, ss, h, d);
    var i := ConsumerChecked(w, ss, h, j);
    assert SameReconcile(w, ss, h, i, d);
  }

  ghost predicate ReleasedBefore(w: World, ss: seq<Step>, h: Handing, n: nat)
    requires n <= |ss|
  {
    exists d: nat :: d < n && HeldUntil(w, ss, h, d) && SafeRelease(w, ss, h, d)
  }

  lemma HeldOrReleased(w: World, ss: seq<Step>, h: Handing, n: nat)
    requires n < |ss| && Ready(w, h) && SteadyRun(ss, h) && HeldUntil(w, ss, h, n)
    ensures HeldUntil(w, ss, h, n + 1) || ReleasedBefore(w, ss, h, n + 1)
  {
    if !Claimed(At(w, ss, n + 1).users, h.t, h.a) {
      ReleaseIsSafe(w, ss, h, n);
    }
  }

  /** Rotation safety: whatever fails or gets lost, t holds the old user in every state of the
      run up to a safe release. */
  lemma {:induction false} RotationTheorem(w: World, ss: seq<Step>, h: Handing, n: nat)
    requires n <= |ss| && Ready(w, h) && SteadyRun(ss, h)
    ensures HeldUntil(w, ss, h, n) || ReleasedBefore(w, ss, h, n)
    decreases n
  {
    if n > 0 {
      RotationTheorem(w, ss, h, n - 1);
      if HeldUntil(w, ss, h, n - 1) {
        HeldOrReleased(w, ss, h, n - 1);
      }
    } else {
      assert At(w, ss, 0) == w;
    }
  }

  // ---------------------------------------------------------------- without leftovers

  lemma NoNewLeftover(w: World, s: Step, h: Handing, name: SecretName)
    requires Owners(w) && HandingOver(See(w, h.t), h) && Steady(s, h) && name.turl == h.t
    requires Leftover(Apply(w, s).secrets, name)
    ensures Leftover(w.secrets, name)
  {
    if !Moves(s, h.t) {
      ElseSpares(w, s, h, name);
    } else {
      OwnView(w, h.t, s.o);
      if !(Publishing(See(w, h.t), s.o) && name == NewName(See(w, h.t), h.t, s.o)) {
        HandoverSpares(See(w, h.t), h, s.o, name);
      }
    }
  }

  lemma {:induction false} StaysWithout(w: World, ss: seq<Step>, h: Handing, d: nat, name: SecretName)
    requires d <= |ss| && Ready(w, h) && SteadyRun(ss, h) && HeldUntil(w, ss, h, d) && name.turl == h.t
    requires !Leftover(w.secrets, name)
    ensures !Leftover(At(w, ss, d).secrets, name)
    decreases d
  {
    assert At(w, ss, 0) == w;
    if d > 0 {
      StaysWithout(w, ss, h, d - 1, name);
      HandingAlong(w, ss, h, d - 1);
      RunNext(w, ss, d - 1);
      if Leftover(At(w, ss, d).secrets, name) {
        NoNewLeftover(At(w, ss, d - 1), ss[d - 1], h, name);
        assert false;
      }
    }
  }

  /** So without leftovers of earlier rotations to b the release finds the new credentials. */
  lemma ReleaseFindsSecret(w: World, ss: seq<Step>, h: Handing, d: nat)
    requires d < |ss| && Ready(w, h) && SteadyRun(ss, h) && HeldUntil(w, ss, h, d)
    requires !Claimed(At(w, ss, d + 1).users, h.t, h.a)
    requires forall name: SecretName ::
               name.turl == h.t && name.Immutable? && name.content.user == h.b ==> !Leftover(w.secrets, name)
    ensures exists name: SecretName :: name.Immutable? && name.content.user == h.b && Issued(At(w, ss, d).secrets, name)
  {
    ReleaseIsSafe(w, ss, h, d);
    var q: nat, name :|
      Carried(See(At(w, ss, d), h.t), h) == Some(name) && name.Immutable? && name.content.user == h.b &&
      DecidedAt(w, ss, h, d, name, q);
    CarriedName(See(At(w, ss, d), h.t), h);
    StaysWithout(w, ss, h, q, name);
  }
}
