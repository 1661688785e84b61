/** Whole reconciles of one TransportURL, undisturbed, each call with an outcome of its own. */
module Reconcile {
  import opened ApiObjects
  import opened Protocol
  import opened Footprints
  import opened References

  /** Every program counter occurs at most once in a reconcile, so outcomes are given by counter. */
  type Outcomes = TurlPc -> Outcome

  /** An upper bound on the steps a reconcile has left. */
  function Left(pc: TurlPc): nat {
    match pc
    case Resting => 0
    case PatchStatus => 1
    case SweepSecret | DelDone => 2
    case CleanSecret | DelVhost => 3
    case Release | DelUser => 4
    case CheckNodes | DelSecret => 5
    case CheckConsumer | DelPending => 6
    case WriteSecret => 7
    case AwaitUser => 8
    case DropOrphanVhost => 9
    case DropVhost => 10
    case CleanEarlier => 11
    case ReleaseEarlier => 12
    case ClaimUser => 13
    case ClaimVhost => 14
  }

  /** A reconcile comes to an end, and only by its patch or by the removal of its object. */
  predicate Falls(p: TurlPc, q: TurlPc) {
    Left(q) < Left(p) && (q.Resting? ==> p.PatchStatus? || p.DelDone?)
  }

  lemma LeftFallsDeleting(v: View, t: Name, o: Outcome)
    requires v.task.pc.DelPending? || v.task.pc.DelSecret? || v.task.pc.DelUser?
    ensures Falls(v.task.pc, TurlWorks(v, t, o).task.pc)
  {
  }

  lemma LeftFallsLeaving(v: View, t: Name, o: Outcome)
    requires v.task.pc.DelVhost? || v.task.pc.DelDone? || v.task.pc.PatchStatus?
    ensures Falls(v.task.pc, TurlWorks(v, t, o).task.pc)
  {
  }

  lemma LeftFallsChecking(v: View, t: Name, o: Outcome)
    requires v.task.pc.CheckConsumer? || v.task.pc.CheckNodes?
    ensures Falls(v.task.pc, TurlWorks(v, t, o).task.pc)
  {
  }

  lemma LeftFallsReleasing(v: View, t: Name, o: Outcome)
    requires v.task.pc.Release? || v.task.pc.CleanSecret? || v.task.pc.SweepSecret?
    ensures Falls(v.task.pc, TurlWorks(v, t, o).task.pc)
  {
  }

  lemma LeftFallsClaiming(v: View, t: Name, o: Outcome)
    requires v.task.pc.ClaimVhost? || v.task.pc.ClaimUser? || v.task.pc.ReleaseEarlier? || v.task.pc.CleanEarlier?
    ensures Falls(v.task.pc, TurlWorks(v, t, o).task.pc)
  {
  }

  lemma LeftFallsWaiting(v: View, t: Name, o: Outcome)
    requires v.task.pc.DropVhost? || v.task.pc.DropOrphanVhost? || v.task.pc.AwaitUser?
    ensures Falls(v.task.pc, TurlWorks(v, t, o).task.pc)
  {
  }

  lemma LeftFallsWriting(v: View, t: Name, o: Outcome)
    requires v.task.pc.WriteSecret?
    ensures Falls(v.task.pc, TurlWorks(v, t, o).task.pc)
  {
    if !TurlWritesSecret(v, t, o).task.pc.PatchStatus? {
      var st := CompletedFrom(v, t, o);
    }
  }

  lemma LeftFalls(v: View, t: Name, o: Outcome)
    requires !v.task.pc.Resting?
    ensures Falls(v.task.pc, TurlWorks(v, t, o).task.pc)
  {
    match v.task.pc
    case DelPending | DelSecret | DelUser => LeftFallsDeleting(v, t, o);
    case DelVhost | DelDone | PatchStatus => LeftFallsLeaving(v, t, o);
    case WriteSecret => LeftFallsWriting(v, t, o);
    case ClaimVhost | ClaimUser | ReleaseEarlier | CleanEarlier => LeftFallsClaiming(v, t, o);
    case DropVhost | DropOrphanVhost | AwaitUser => LeftFallsWaiting(v, t, o);
    case SweepSecret | CleanSecret | Release => LeftFallsReleasing(v, t, o);
    case CheckNodes | CheckConsumer => LeftFallsChecking(v, t, o);
  }

  /** Work until the reconcile is over. */
  function Rest(v: View, t: Name, os: Outcomes): View
    decreases Left(v.task.pc)
  {
    if v.task.pc.Resting? then v
    else
      LeftFalls(v, t, os(v.task.pc));
      Rest(TurlWorks(v, t, os(v.task.pc)), t, os)
  }

  /** A reconcile from its beginning. */
  function Whole(v: View, t: Name, os: Outcomes): View {
    Rest(TurlWorks(v, t, os(Resting)), t, os)
  }

  /** The steps of the machine that this reconcile takes. */
  function Moves(v: View, t: Name, os: Outcomes): seq<Step>
    decreases Left(v.task.pc)
  {
    if v.task.pc.Resting? then []
    else
      LeftFalls(v, t, os(v.task.pc));
      [TurlMoves(t, os(v.task.pc))] + Moves(TurlWorks(v, t, os(v.task.pc)), t, os)
  }

  // ---------------------------------------------------------------- as a run of the machine

  predicate Tidy(v: View) {
    v.task.pc.Resting? ==> v.task == NO_RECONCILE
  }

  lemma WorksTidy(v: View, t: Name, o: Outcome)
    requires Tidy(v)
    ensures Tidy(TurlWorks(v, t, o))
  {
    if !v.task.pc.Resting? {
      LeftFalls(v, t, o);
    }
  }

  lemma WriteSee(w: World, t: Name)
    requires t in w.turlTasks ==> !w.turlTasks[t].pc.Resting?
    ensures Write(w, t, See(w, t)) == w
  {
    var n := Write(w, t, See(w, t));
    assert n.turls == w.turls && n.turlTasks == w.turlTasks;
  }

  lemma SeeWrite(w: World, t: Name, n: View)
    requires Tidy(n) && n.nodeSets == w.nodeSets
    ensures See(Write(w, t, n), t) == n
  {
  }

  lemma WriteTwice(w: World, t: Name, m: View, n: View)
    ensures Write(Write(w, t, m), t, n) == Write(w, t, n)
  {
    var a, b := Write(Write(w, t, m), t, n), Write(w, t, n);
    assert a.turls == b.turls && a.turlTasks == b.turlTasks;
  }

  lemma EarlyNodes(v: View, t: Name, o: Outcome)
    requires Early(v.task.pc)
    ensures TurlWorks(v, t, o).nodeSets == v.nodeSets
  {
  }

  lemma WorksNodes(v: View, t: Name, o: Outcome)
    ensures TurlWorks(v, t, o).nodeSets == v.nodeSets
  {
    if Early(v.task.pc) {
      EarlyNodes(v, t, o);
    }
  }

  lemma {:induction false} RestRuns(w: World, v: View, t: Name, os: Outcomes)
    requires Tidy(v) && v.nodeSets == w.nodeSets
    ensures Run(Write(w, t, v), Moves(v, t, os)) == Write(w, t, Rest(v, t, os))
    decreases Left(v.task.pc)
  {
    if !v.task.pc.Resting? {
      var o := os(v.task.pc);
      var n := TurlWorks(v, t, o);
      LeftFalls(v, t, o);
      WorksTidy(v, t, o);
      WorksNodes(v, t, o);
      SeeWrite(w, t, v);
      WriteTwice(w, t, v, n);
      RestRuns(w, n, t, os);
      assert Moves(v, t, os)[1..] == Moves(n, t, os);
    }
  }

  /** A whole reconcile of the machine. */
  lemma WholeRuns(w: World, t: Name, os: Outcomes)
    requires t !in w.turlTasks
    ensures var begun := TurlWorks(See(w, t), t, os(Resting));
            Run(w, [TurlMoves(t, os(Resting))] + Moves(begun, t, os)) == Write(w, t, Whole(See(w, t), t, os))
  {
    var begun := TurlWorks(See(w, t), t, os(Resting));
    WorksTidy(See(w, t), t, os(Resting));
    WorksNodes(See(w, t), t, os(Resting));
    RestRuns(w, begun, t, os);
    var ss := [TurlMoves(t, os(Resting))] + Moves(begun, t, os);
    assert ss[1..] == Moves(begun, t, os);
  }

  // ---------------------------------------------------------------- what a complete reconcile leaves

  /** Every call succeeds, except perhaps the final patch. */
  ghost predicate Smooth(os: Outcomes) {
    forall pc: TurlPc :: !pc.PatchStatus? ==> os(pc).ok
  }

  function Patched(v: View, st: TurlStatus, landed: bool): View
    requires v.turl.Some?
  {
    v.(turl := Some(if landed then v.turl.value.(status := st) else v.turl.value), task := NO_RECONCILE)
  }

  /** A TransportURL that changed at most in its status. */
  predicate SameBut(x: Option<Turl>, y: Option<Turl>) {
    x.Some? && y.Some? && y.value == x.value.(status := y.value.status)
  }

  lemma Next(v: View, t: Name, os: Outcomes)
    requires !v.task.pc.Resting?
    ensures Rest(v, t, os) == Rest(TurlWorks(v, t, os(v.task.pc)), t, os)
  {
  }

  lemma FromPatch(v: View, t: Name, os: Outcomes)
    requires v.task.pc.PatchStatus? && v.turl.Some?
    ensures Rest(v, t, os) == Patched(v, v.task.status, os(PatchStatus).ok)
  {
  }

  lemma FromSweep(v: View, t: Name, os: Outcomes)
    requires v.task.pc.SweepSecret? && v.turl.Some? && Smooth(os)
    ensures var former := v.task.status.oldSecret;
            Rest(v, t, os) ==
              if former.None? || v.task.status.pending.Some? || Consumed(v.secrets, former)
              then Patched(v, v.task.status, os(PatchStatus).ok)
              else Patched(v.(secrets := SweptSecret(v.secrets, former)), v.task.status.(oldSecret := None),
                           os(PatchStatus).ok)
  {
    FromPatch(TurlSweepsSecret(v, os(SweepSecret)), t, os);
  }

  lemma FromClean(v: View, t: Name, os: Outcomes)
    requires v.task.pc.CleanSecret? && v.turl.Some? && Smooth(os)
    ensures Rest(v, t, os) ==
              Patched(v.(secrets := SweptSecret(v.secrets, v.task.status.oldSecret)),
                      v.task.status.(pending := None, oldSecret := None), os(PatchStatus).ok)
  {
    FromSweep(TurlCleansSecret(v, os(CleanSecret)), t, os);
  }

  lemma FromRelease(v: View, t: Name, os: Outcomes)
    requires v.task.pc.Release? && v.turl.Some? && Smooth(os) && v.task.status.pending.Some?
    ensures Rest(v, t, os) ==
              Patched(v.(users := ReleasedUser(v.users, v.task.status.pending.value, t),
                         secrets := SweptSecret(v.secrets, v.task.status.oldSecret)),
                      v.task.status.(pending := None, oldSecret := None), os(PatchStatus).ok)
  {
    FromClean(TurlReleases(v, t, os(Release), CleanSecret), t, os);
  }

  /** The end of a rotation: checks, release, cleanup. */
  lemma FromCheck(v: View, t: Name, os: Outcomes)
    requires v.task.pc.CheckConsumer? && v.turl.Some? && Smooth(os) && v.task.status.pending.Some?
    requires !Consumed(v.secrets, v.task.status.oldSecret) && v.nodeSets != OutOfSync
    ensures Rest(v, t, os) ==
              Patched(v.(users := ReleasedUser(v.users, v.task.status.pending.value, t),
                         secrets := SweptSecret(v.secrets, v.task.status.oldSecret)),
                      v.task.status.(pending := None, oldSecret := None), os(PatchStatus).ok)
  {
    Next(v, t, os);
    assert TurlWorks(v, t, os(CheckConsumer)) == Go(v, CheckNodes);
    Next(Go(v, CheckNodes), t, os);
    assert TurlWorks(Go(v, CheckNodes), t, os(CheckNodes)) == Go(v, Release);
    FromRelease(Go(v, Release), t, os);
  }

  /** The secret that a rotation leaves behind. */
  function Former(st: TurlStatus): Option<SecretName> {
    if st.oldSecret.Some? then st.oldSecret else st.secret
  }

  /** The status of a reconcile that rotates, after its secret; an older secret still waiting
      to be cleaned up takes the place of a new one. */
  function Issuing(st: TurlStatus, t: Name, c: Content): TurlStatus {
    if st.oldSecret.Some? then st
    else st.(oldSecret := st.secret, secret := Some(Immutable(t, c)), content := Some(c))
  }

  function WithSecret(secrets: map<SecretName, Secret>, st: TurlStatus, t: Name, c: Content): map<SecretName, Secret> {
    if st.oldSecret.Some? || Immutable(t, c) in secrets then secrets
    else secrets[Immutable(t, c) := Secret(c, false, false)]
  }

  function Rotated(v: View, t: Name, c: Content): View
    requires v.task.status.pending.Some?
  {
    var st := v.task.status;
    v.(users := ReleasedUser(v.users, st.pending.value, t),
       secrets := SweptSecret(WithSecret(v.secrets, st, t, c), Former(st)))
  }

  lemma FromWritePending(v: View, t: Name, os: Outcomes)
    requires v.task.pc.WriteSecret? && v.turl.Some? && Smooth(os) && v.task.status.pending.Some?
    requires !Consumed(v.secrets, Former(v.task.status)) && v.nodeSets != OutOfSync
    ensures var c := Content(v.task.key, os(WriteSecret).rest);
            Rest(v, t, os) ==
              Patched(Rotated(v, t, c),
                      Issuing(v.task.status, t, c).(user := Some(v.task.key), vhost := VhostOf(v.task.key),
                                                    pending := None, oldSecret := None),
                      os(PatchStatus).ok)
  {
    var c := Content(v.task.key, os(WriteSecret).rest);
    var st := v.task.status;
    var n := v.(secrets := WithSecret(v.secrets, st, t, c), task := Completed(v.task, Issuing(st, t, c)));
    Next(v, t, os);
    assert TurlWorks(v, t, os(WriteSecret)) == n;
    assert n.task.status.oldSecret == Former(st) && !Consumed(n.secrets, Former(st));
    FromCheck(n, t, os);
  }

  /** What holds a rotation up. */
  predicate Hindered(v: View, former: Option<SecretName>) {
    Consumed(v.secrets, former) || v.nodeSets == OutOfSync
  }

  /** A consumer of the secret left behind, or a NodeSet, ends the reconcile after it published. */
  lemma FromWriteBlocked(v: View, t: Name, os: Outcomes)
    requires v.task.pc.WriteSecret? && v.turl.Some? && Smooth(os) && v.task.status.pending.Some?
    requires Hindered(v, Former(v.task.status))
    ensures var c := Content(v.task.key, os(WriteSecret).rest);
            Rest(v, t, os) ==
              Patched(v.(secrets := WithSecret(v.secrets, v.task.status, t, c)),
                      Issuing(v.task.status, t, c).(user := Some(v.task.key), vhost := VhostOf(v.task.key)),
                      os(PatchStatus).ok)
  {
    var c := Content(v.task.key, os(WriteSecret).rest);
    var st := v.task.status;
    var n := v.(secrets := WithSecret(v.secrets, st, t, c), task := Completed(v.task, Issuing(st, t, c)));
    Next(v, t, os);
    assert TurlWorks(v, t, os(WriteSecret)) == n;
    Next(n, t, os);
    if Consumed(n.secrets, n.task.status.oldSecret) {
      FromPatch(Go(n, PatchStatus), t, os);
    } else {
      FromNodes(n, t, os);
    }
  }

  lemma FromNodes(v: View, t: Name, os: Outcomes)
    requires v.turl.Some? && v.nodeSets == OutOfSync
    ensures Rest(Go(v, CheckNodes), t, os) == Patched(v, v.task.status, os(PatchStatus).ok)
  {
    Next(Go(v, CheckNodes), t, os);
    FromPatch(Go(v, PatchStatus), t, os);
  }

  /** A mutable secret that has to be created ends the reconcile. */
  lemma FromWriteNew(v: View, t: Name, os: Outcomes)
    requires v.task.pc.WriteSecret? && v.turl.Some? && Smooth(os)
    requires v.task.status.pending.None? && v.task.status.oldSecret.None? && Mutable(t) !in v.secrets
    ensures Rest(v, t, os) ==
              Patched(v.(secrets :=
                         v.secrets[Mutable(t) := Secret(Content(v.task.key, os(WriteSecret).rest), false, false)]),
                      v.task.status, os(PatchStatus).ok)
  {
    Next(v, t, os);
    FromPatch(TurlWritesSecret(v, t, os(WriteSecret)), t, os);
  }

  /** So does one that has to be brought up to date; whoever uses it keeps using it. */
  lemma FromWriteChanged(v: View, t: Name, os: Outcomes)
    requires v.task.pc.WriteSecret? && v.turl.Some? && Smooth(os)
    requires v.task.status.pending.None? && v.task.status.oldSecret.None? && Mutable(t) in v.secrets
    requires v.secrets[Mutable(t)].content != Content(v.task.key, os(WriteSecret).rest)
    ensures var c := Content(v.task.key, os(WriteSecret).rest);
            Rest(v, t, os) ==
              Patched(v.(secrets := v.secrets[Mutable(t) := v.secrets[Mutable(t)].(content := c)]),
                      v.task.status, os(PatchStatus).ok)
  {
    Next(v, t, os);
    FromPatch(TurlWritesSecret(v, t, os(WriteSecret)), t, os);
  }

  /** The status of a reconcile that finds its mutable secret up to date. */
  function Settling(st: TurlStatus, t: Name, c: Content): TurlStatus {
    var moved := st.secret.Some? && st.secret != Some(Mutable(t));
    if moved && st.content == Some(c) then st
    else st.(oldSecret := if moved then st.secret else None, secret := Some(Mutable(t)), content := Some(c))
  }

  /** An old secret without a rotation: nothing is written, and it goes as soon as nobody uses it. */
  lemma FromWriteLingering(v: View, t: Name, os: Outcomes)
    requires v.task.pc.WriteSecret? && v.turl.Some? && Smooth(os)
    requires v.task.status.pending.None? && v.task.status.oldSecret.Some?
    ensures var st := v.task.status.(user := Some(v.task.key), vhost := VhostOf(v.task.key));
            Rest(v, t, os) ==
              if Consumed(v.secrets, st.oldSecret) then Patched(v, st, os(PatchStatus).ok)
              else Patched(v.(secrets := SweptSecret(v.secrets, st.oldSecret)), st.(oldSecret := None),
                           os(PatchStatus).ok)
  {
    var n := v.(task := Completed(v.task, v.task.status));
    Next(v, t, os);
    assert TurlWorks(v, t, os(WriteSecret)) == n;
    FromSweep(n, t, os);
  }

  lemma FromWriteSame(v: View, t: Name, os: Outcomes)
    requires v.task.pc.WriteSecret? && v.turl.Some? && Smooth(os)
    requires v.task.status.pending.None? && v.task.status.oldSecret.None?
    requires Mutable(t) in v.secrets && v.secrets[Mutable(t)].content == Content(v.task.key, os(WriteSecret).rest)
    ensures var st := Settling(v.task.status, t, Content(v.task.key, os(WriteSecret).rest))
                        .(user := Some(v.task.key), vhost := VhostOf(v.task.key));
            Rest(v, t, os) ==
              if st.oldSecret.None? || Consumed(v.secrets, st.oldSecret) then Patched(v, st, os(PatchStatus).ok)
              else Patched(v.(secrets := SweptSecret(v.secrets, st.oldSecret)), st.(oldSecret := None),
                           os(PatchStatus).ok)
  {
    var st := Settling(v.task.status, t, Content(v.task.key, os(WriteSecret).rest));
    var n := v.(task := Completed(v.task, st));
    Next(v, t, os);
    assert TurlWorks(v, t, os(WriteSecret)) == n;
    FromSweep(n, t, os);
  }

  /** Without a rotation no claim changes any more. */
  lemma FromWritePlain(v: View, t: Name, os: Outcomes)
    requires v.task.pc.WriteSecret? && v.turl.Some? && Smooth(os) && v.task.status.pending.None?
    ensures var n := Rest(v, t, os);
            && n.users == v.users && n.task == NO_RECONCILE && SameBut(v.turl, n.turl)
            && if os(PatchStatus).ok
               then n.turl.value.status.user in {v.task.status.user, Some(v.task.key)}
               else n.turl == v.turl
  {
    var n := TurlWritesSecret(v, t, os(WriteSecret));
    Next(v, t, os);
    if n.task.pc.PatchStatus? {
      StoppedBefore(v, t, os(WriteSecret));
      QuietSecrets(v, t, os(WriteSecret));
      FromPatch(n, t, os);
    } else {
      var st := CompletedFrom(v, t, os(WriteSecret));
      FromSweep(n, t, os);
    }
  }

  // ---------------------------------------------------------------- what comes before the secret

  function DroppedVhosts(vhosts: map<VhostKey, Vhost>, x: TurlTask, t: Name): map<VhostKey, Vhost> {
    if x.status.vhost.None? || x.status.vhost == VhostOf(x.key) then vhosts
    else SweptVhost(Unfinalize(vhosts, x.status.vhost.value, Consumer(t)), x.status.vhost.value)
  }

  lemma FromDrop(v: View, t: Name, os: Outcomes)
    requires v.task.pc.DropVhost? && Smooth(os)
    ensures Rest(v, t, os) == Rest(Go(v.(vhosts := DroppedVhosts(v.vhosts, v.task, t)), AwaitUser), t, os)
  {
    var x := v.task;
    Next(v, t, os);
    if x.status.vhost.Some? && x.status.vhost != VhostOf(x.key) {
      var m := Go(v.(vhosts := Unfinalize(v.vhosts, x.status.vhost.value, Consumer(t))), DropOrphanVhost);
      assert TurlWorks(v, t, os(DropVhost)) == m;
      Next(m, t, os);
    }
  }

  lemma FromAwait(v: View, t: Name, os: Outcomes)
    requires v.task.pc.AwaitUser? && v.turl.Some? && !Usable(v.users, v.task.key, v.task.waits)
    ensures Rest(v, t, os) == Patched(v, v.task.status, os(PatchStatus).ok)
  {
    Next(v, t, os);
    FromPatch(Go(v, PatchStatus), t, os);
  }

  predicate Superseding(st: TurlStatus, k: UserKey) {
    st.user.Some? && st.user != Some(k) && st.pending.Some? && st.pending != st.user
  }

  /** A user that an even earlier rotation still remembers goes first. */
  function HandedOver(v: View, t: Name): View {
    var x := v.task;
    if Superseding(x.status, x.key) then
      v.(users := ReleasedUser(v.users, x.status.pending.value, t),
         secrets := SweptSecret(v.secrets, x.status.oldSecret),
         task := TurlTask(DropVhost, x.key, x.waits, x.status.(pending := x.status.user, oldSecret := None),
                          x.released + {x.status.pending.value}))
    else if Rotating(x) then v.(task := x.(pc := DropVhost, status := x.status.(pending := x.status.user)))
    else Go(v, DropVhost)
  }

  lemma FromClaim(v: View, t: Name, os: Outcomes)
    requires v.task.pc.ClaimUser? && Smooth(os) && ClaimedUser(v.users, v.task.key, t).Some?
    ensures Rest(v, t, os) == Rest(HandedOver(v.(users := ClaimedUser(v.users, v.task.key, t).value), t), t, os)
  {
    var x := v.task;
    var m := v.(users := ClaimedUser(v.users, x.key, t).value, task := Handover(x));
    Next(v, t, os);
    assert TurlWorks(v, t, os(ClaimUser)) == m;
    if Superseding(x.status, x.key) {
      assert m.task == x.(pc := ReleaseEarlier);
      Next(m, t, os);
      var n := TurlReleases(m, t, os(ReleaseEarlier), CleanEarlier);
      assert TurlWorks(m, t, os(ReleaseEarlier)) == n;
      Next(n, t, os);
    }
  }

  /** The claim on the vhost can be made. */
  predicate VhostFree(vhosts: map<VhostKey, Vhost>, k: UserKey, t: Name) {
    VhostOf(k).Some? ==> ClaimedVhost(vhosts, VhostOf(k).value, t).Some?
  }

  function HeldVhosts(vhosts: map<VhostKey, Vhost>, k: UserKey, t: Name): map<VhostKey, Vhost>
    requires VhostFree(vhosts, k, t)
  {
    if VhostOf(k).None? then vhosts else ClaimedVhost(vhosts, VhostOf(k).value, t).value
  }

  lemma FromClaimVhost(v: View, t: Name, os: Outcomes)
    requires v.task.pc.ClaimVhost? && Smooth(os) && VhostFree(v.vhosts, v.task.key, t)
    ensures Rest(v, t, os) == Rest(Go(v.(vhosts := HeldVhosts(v.vhosts, v.task.key, t)), ClaimUser), t, os)
  {
    Next(v, t, os);
  }

  // ---------------------------------------------------------------- from the beginning

  /** A live TransportURL whose claims can be made. */
  predicate CanClaim(v: View, t: Name) {
    && v.task == NO_RECONCILE && Live(v) && v.turl.value.guarded
    && ClaimedUser(v.users, v.turl.value.spec, t).Some? && VhostFree(v.vhosts, v.turl.value.spec, t)
  }

  /** And its user is ready. */
  predicate CanComplete(v: View, t: Name) {
    && CanClaim(v, t)
    && Usable(v.users, v.turl.value.spec, Waits(v.turl.value)) && !v.users[v.turl.value.spec].deleting
  }

  function Claiming(v: View, t: Name): View
    requires CanClaim(v, t)
  {
    var x := v.turl.value;
    v.(users := ClaimedUser(v.users, x.spec, t).value, vhosts := HeldVhosts(v.vhosts, x.spec, t),
       task := TurlTask(ClaimUser, x.spec, Waits(x), x.status, {}))
  }

  /** The reconcile just before it turns to its secret. */
  function Prepared(v: View, t: Name): View
    requires CanClaim(v, t)
  {
    var h := HandedOver(Claiming(v, t), t);
    Go(h.(vhosts := DroppedVhosts(h.vhosts, h.task, t)), WriteSecret)
  }

  lemma StaysUsable(users: map<UserKey, User>, k: UserKey, waits: bool, t: Name, p: UserKey)
    requires Usable(users, k, waits) && !users[k].deleting
    ensures var m := ClaimedUser(users, k, t).value;
            Usable(m, k, waits) && Usable(ReleasedUser(m, p, t), k, waits)
  {
  }

  lemma Arrives(v: View, t: Name, os: Outcomes)
    requires CanClaim(v, t) && Smooth(os)
    ensures Whole(v, t, os) == Rest(Go(Prepared(v, t), AwaitUser), t, os)
  {
    var x := v.turl.value;
    var v1 := v.(task := TurlTask(ClaimVhost, x.spec, Waits(x), x.status, {}));
    assert TurlWorks(v, t, os(Resting)) == v1;
    FromClaimVhost(v1, t, os);
    FromClaim(Go(v1.(vhosts := HeldVhosts(v.vhosts, x.spec, t)), ClaimUser), t, os);
    FromDrop(HandedOver(Claiming(v, t), t), t, os);
  }

  lemma Prepares(v: View, t: Name, os: Outcomes)
    requires CanComplete(v, t) && Smooth(os)
    ensures Whole(v, t, os) == Rest(Prepared(v, t), t, os)
  {
    var x := v.turl.value;
    Arrives(v, t, os);
    StaysUsable(v.users, x.spec, Waits(x), t, if x.status.pending.Some? then x.status.pending.value else x.spec);
    Next(Go(Prepared(v, t), AwaitUser), t, os);
  }

  /** A user that is not ready yet ends the reconcile, with its claims made. */
  lemma Awaits(v: View, t: Name, os: Outcomes)
    requires CanClaim(v, t) && Smooth(os)
    requires !Usable(Prepared(v, t).users, v.turl.value.spec, Waits(v.turl.value))
    ensures Whole(v, t, os) == Patched(Prepared(v, t), Prepared(v, t).task.status, os(PatchStatus).ok)
  {
    Arrives(v, t, os);
    FromAwait(Go(Prepared(v, t), AwaitUser), t, os);
  }

  /** The user whose release the reconcile has scheduled. */
  lemma PreparedPending(v: View, t: Name)
    requires CanComplete(v, t)
    ensures var st := v.turl.value.status;
            var x := Prepared(v, t).task;
            && x.key == v.turl.value.spec
            && x.status.user == st.user && x.status.secret == st.secret
            && x.status.pending == (if st.user.Some? && st.user != Some(x.key) then st.user else st.pending)
            && x.status.oldSecret == (if Superseding(st, x.key) then None else st.oldSecret)
  {
  }

  lemma PreparedClaims(v: View, t: Name, u: UserKey)
    requires CanComplete(v, t)
    ensures var k := v.turl.value.spec;
            var st := v.turl.value.status;
            Claimed(Prepared(v, t).users, t, u) <==>
              (u == k || Claimed(v.users, t, u)) && !(Superseding(st, k) && st.pending == Some(u))
  {
    var k := v.turl.value.spec;
    var st := v.turl.value.status;
    var m := ClaimedUser(v.users, k, t).value;
    ClaimNeutral(v.users, k, t, t, u);
    if Superseding(st, k) {
      assert Prepared(v, t).users == ReleasedUser(m, st.pending.value, t);
      ReleaseNeutral(m, st.pending.value, t, t, u);
    } else {
      assert Prepared(v, t).users == m;
    }
  }

  /** Nobody uses the secrets that a rotation would leave behind, and no NodeSet holds it up. */
  predicate Unhindered(v: View) {
    && v.turl.Some? && v.nodeSets != OutOfSync
    && !Consumed(v.secrets, v.turl.value.status.oldSecret) && !Consumed(v.secrets, v.turl.value.status.secret)
  }

  /** The users a complete reconcile lets go of: the one it remembers, and the one it replaces. */
  function LetGo(st: TurlStatus, k: UserKey): set<UserKey> {
    (if st.pending.Some? then {st.pending.value} else {}) +
    (if st.user.Some? && st.user != Some(k) then {st.user.value} else {})
  }

  lemma PreparedUnused(v: View, t: Name)
    requires CanComplete(v, t) && Unhindered(v)
    ensures !Consumed(Prepared(v, t).secrets, Former(Prepared(v, t).task.status))
  {
    PreparedPending(v, t);
  }

  lemma ReleasedLast(v: View, t: Name, os: Outcomes)
    requires CanComplete(v, t) && Smooth(os) && Unhindered(v) && Prepared(v, t).task.status.pending.Some?
    ensures var n := Whole(v, t, os);
            var p := Prepared(v, t);
            && n.users == ReleasedUser(p.users, p.task.status.pending.value, t)
            && n.task == NO_RECONCILE && SameBut(v.turl, n.turl)
            && (if os(PatchStatus).ok then n.turl.value.status.user == Some(v.turl.value.spec) else n.turl == v.turl)
  {
    Prepares(v, t, os);
    PreparedUnused(v, t);
    FromWritePending(Prepared(v, t), t, os);
  }

  /** A complete reconcile leaves the finalizers of `t` exactly on its spec's user and the users
      it held before, without those it lets go of; and the spec's user may be among these. */
  lemma ClaimsExactly(v: View, t: Name, os: Outcomes, u: UserKey)
    requires CanComplete(v, t) && Smooth(os) && Unhindered(v)
    ensures var n := Whole(v, t, os);
            var k := v.turl.value.spec;
            var st := v.turl.value.status;
            && n.task == NO_RECONCILE && SameBut(v.turl, n.turl)
            && (Claimed(n.users, t, u) <==> (u == k || Claimed(v.users, t, u)) && u !in LetGo(st, k))
            && if os(PatchStatus).ok
               then n.turl.value.status.user == Some(k) || (LetGo(st, k) == {} && n.turl.value.status.user == st.user)
               else n.turl == v.turl
  {
    var p := Prepared(v, t);
    PreparedClaims(v, t, u);
    PreparedPending(v, t);
    if p.task.status.pending.Some? {
      ReleasedLast(v, t, os);
      ReleaseNeutral(p.users, p.task.status.pending.value, t, t, u);
    } else {
      Prepares(v, t, os);
      FromWritePlain(p, t, os);
    }
  }

  // ---------------------------------------------------------------- the published secret

  /** Does this secret hold the content `c`?  An immutable secret is named after its content. */
  predicate Shows(secrets: map<SecretName, Secret>, s: Option<SecretName>, c: Content) {
    s.Some? && if s.value.Immutable? then s.value.content == c else s.value in secrets && secrets[s.value].content == c
  }

  /** Every secret keeps its content or is the one just issued. */
  predicate Keeps(m: map<SecretName, Secret>, n: map<SecretName, Secret>, issued: SecretName, s: SecretName) {
    s in n && s != issued ==> s in m && n[s].content == m[s].content
  }

  lemma PreparedKeeps(v: View, t: Name, s: SecretName, issued: SecretName)
    requires CanComplete(v, t)
    ensures Keeps(v.secrets, Prepared(v, t).secrets, issued, s)
  {
  }

  lemma RotatedKeeps(v: View, t: Name, c: Content, s: SecretName)
    requires v.task.status.pending.Some?
    ensures Keeps(v.secrets, Rotated(v, t, c).secrets, Immutable(t, c), s)
  {
  }

  /** The secret that a complete reconcile publishes when it replaces its user. */
  lemma RotatedSecret(v: View, t: Name, os: Outcomes, s: SecretName)
    requires CanComplete(v, t) && Smooth(os) && Unhindered(v) && os(PatchStatus).ok
    requires v.turl.value.status.user.Some? && v.turl.value.status.user != Some(v.turl.value.spec)
    ensures var n := Whole(v, t, os);
            var c := Content(v.turl.value.spec, os(WriteSecret).rest);
            && n.turl.Some? && n.turl.value.status.secret == Issuing(Prepared(v, t).task.status, t, c).secret
            && Keeps(v.secrets, n.secrets, Immutable(t, c), s)
  {
    var p := Prepared(v, t);
    var c := Content(v.turl.value.spec, os(WriteSecret).rest);
    Prepares(v, t, os);
    PreparedUnused(v, t);
    PreparedPending(v, t);
    FromWritePending(p, t, os);
    PreparedKeeps(v, t, s, Immutable(t, c));
    RotatedKeeps(p, t, c, s);
  }

  // ---------------------------------------------------------------- deletion

  /** What a deletion whose calls all succeed leaves of the users. */
  function Deserted(users: map<UserKey, User>, t: Name, st: TurlStatus, k: UserKey): map<UserKey, User> {
    AbandonedUser(if st.pending.Some? then ReleasedUser(users, st.pending.value, t) else users, k, t)
  }

  function DesertedVhosts(vhosts: map<VhostKey, Vhost>, t: Name, k: UserKey): map<VhostKey, Vhost> {
    if VhostOf(k).None? then vhosts else Unfinalize(vhosts, VhostOf(k).value, Consumer(t))
  }

  function DesertedSecrets(secrets: map<SecretName, Secret>, st: TurlStatus): map<SecretName, Secret> {
    if st.pending.None? then secrets else SweptSecret(secrets, st.oldSecret)
  }

  lemma FromDelVhost(v: View, t: Name, os: Outcomes)
    requires v.task.pc.DelVhost? && Smooth(os)
    ensures var n := Rest(v, t, os);
            && n.turl.None? && n.task == NO_RECONCILE && n.users == v.users && n.secrets == v.secrets
            && n.vhosts == DesertedVhosts(v.vhosts, t, v.task.key)
  {
    var m := TurlAbandonsVhost(v, t, os(DelVhost));
    Next(v, t, os);
    assert m.task.pc.DelDone? && m.users == v.users;
    Next(m, t, os);
  }

  lemma FromDelUser(v: View, t: Name, os: Outcomes)
    requires v.task.pc.DelUser? && Smooth(os)
    ensures var n := Rest(v, t, os);
            && n.turl.None? && n.task == NO_RECONCILE && n.users == AbandonedUser(v.users, v.task.key, t)
            && n.secrets == v.secrets && n.vhosts == DesertedVhosts(v.vhosts, t, v.task.key)
  {
    FromDelVhost(TurlAbandonsUser(v, t, os(DelUser)), t, os);
  }

  lemma DeletionDeserts(v: View, t: Name, os: Outcomes)
    requires v.task == NO_RECONCILE && v.turl.Some? && v.turl.value.deleting && Smooth(os)
    ensures var n := Whole(v, t, os);
            && n.turl.None? && n.task == NO_RECONCILE
            && n.users == Deserted(v.users, t, v.turl.value.status, v.turl.value.spec)
            && n.vhosts == DesertedVhosts(v.vhosts, t, v.turl.value.spec)
            && n.secrets == DesertedSecrets(v.secrets, v.turl.value.status)
  {
    var x := v.turl.value;
    var m := v.(task := TurlTask(DelPending, x.spec, Waits(x), x.status, {}));
    assert TurlWorks(v, t, os(Resting)) == m;
    Next(m, t, os);
    if x.status.pending.None? {
      FromDelUser(Go(m, DelUser), t, os);
    } else {
      var r := TurlReleases(m, t, os(DelPending), DelSecret);
      assert TurlWorks(m, t, os(DelPending)) == r;
      Next(r, t, os);
      FromDelUser(TurlDeletesSecret(r, os(DelSecret)), t, os);
    }
  }

  /** A deletion whose calls succeed takes the finalizer off the vhost of the spec and leaves every
      other vhost and finalizer alone; a rotation it interrupts loses its old secret, at once or, if
      somebody uses it, as soon as nobody does. */
  lemma DeletionLeaves(v: View, t: Name, os: Outcomes)
    requires v.task == NO_RECONCILE && v.turl.Some? && v.turl.value.deleting && Smooth(os)
    ensures var n := Whole(v, t, os);
            var st := v.turl.value.status;
            && (match VhostOf(v.turl.value.spec)
                case None => n.vhosts == v.vhosts
                case Some(h) => Drops(v.vhosts, n.vhosts, h, Consumer(t)))
            && (st.pending.Some? && st.oldSecret.Some? && st.oldSecret.value in n.secrets ==>
                  n.secrets[st.oldSecret.value].consumed && n.secrets[st.oldSecret.value].deleting)
            && (forall s :: st.pending.None? || st.oldSecret != Some(s) ==> SameAt(v.secrets, n.secrets, s))
  {
    DeletionDeserts(v, t, os);
    if VhostOf(v.turl.value.spec).Some? {
      SweepDrops(v.vhosts, VhostOf(v.turl.value.spec).value, Consumer(t));
    }
  }
}
