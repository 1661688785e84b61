/** What a TransportURL publishes is what its spec and the cluster say: a change reaches the
    published secret within two undisturbed reconciles. */
module Publication {
  import opened ApiObjects
  import opened Protocol
  import opened Footprints
  import opened References
  import opened Reconcile
  import opened Rotation
  import Progress

  // ---------------------------------------------------------------- the next reconcile completes as well

  /** What a reconcile leaves of its claims. */
  lemma WholeClaims(v: View, t: Name, os: Outcomes)
    requires CanComplete(v, t) && Smooth(os)
    ensures var n := Whole(v, t, os);
            var p := Prepared(v, t);
            && n.task == NO_RECONCILE && SameBut(v.turl, n.turl) && n.vhosts == p.vhosts && n.nodeSets == v.nodeSets
            && (|| n.users == p.users
                || (p.task.status.pending.Some? && n.users == ReleasedUser(p.users, p.task.status.pending.value, t)))
  {
    var p := Prepared(v, t);
    Prepares(v, t, os);
    if p.task.status.pending.Some? {
      if Hindered(p, Former(p.task.status)) {
        FromWriteBlocked(p, t, os);
      } else {
        FromWritePending(p, t, os);
      }
    } else if p.task.status.oldSecret.Some? {
      FromWriteLingering(p, t, os);
    } else if Mutable(t) !in p.secrets {
      FromWriteNew(p, t, os);
    } else if p.secrets[Mutable(t)].content != Content(p.task.key, os(WriteSecret).rest) {
      FromWriteChanged(p, t, os);
    } else {
      FromWriteSame(p, t, os);
    }
  }

  lemma ReleaseOtherUsable(users: map<UserKey, User>, k: UserKey, waits: bool, t: Name, p: UserKey)
    requires Usable(users, k, waits) && !users[k].deleting && p != k
    ensures var m := ReleasedUser(users, p, t); Usable(m, k, waits) && !m[k].deleting
  {
  }

  lemma PreparedReady(v: View, t: Name)
    requires CanComplete(v, t) && v.turl.value.status.pending != Some(v.turl.value.spec)
    ensures var p := Prepared(v, t);
            var k := v.turl.value.spec;
            && Usable(p.users, k, Waits(v.turl.value)) && !p.users[k].deleting
            && VhostFree(p.vhosts, k, t) && p.task.status.pending != Some(k)
  {
    var x := v.turl.value;
    var m := ClaimedUser(v.users, x.spec, t).value;
    PreparedPending(v, t);
    Progress.RotatedVhosts(v, t);
    if Superseding(x.status, x.spec) {
      ReleaseOtherUsable(m, x.spec, Waits(x), t, x.status.pending.value);
    }
  }

  lemma CompletesAgain(v: View, t: Name, os: Outcomes)
    requires CanComplete(v, t) && Smooth(os) && v.turl.value.status.pending != Some(v.turl.value.spec)
    ensures CanComplete(Whole(v, t, os), t)
  {
    var p := Prepared(v, t);
    WholeClaims(v, t, os);
    PreparedReady(v, t);
    if p.task.status.pending.Some? {
      ReleaseOtherUsable(p.users, v.turl.value.spec, Waits(v.turl.value), t, p.task.status.pending.value);
    }
  }

  // ---------------------------------------------------------------- what is shown

  /** The stored status names the spec's user and a secret with this content. */
  predicate Publishing(v: View, t: Name, c: Content) {
    && v.turl.Some? && v.turl.value.status.user == Some(v.turl.value.spec) && Own(v.turl.value.status, t)
    && Shows(v.secrets, v.turl.value.status.secret, c)
    && (v.turl.value.status.secret == Some(Mutable(t)) ==> v.turl.value.status.oldSecret != Some(Mutable(t)))
  }

  predicate Current(v: View, t: Name, c: Content) {
    Mutable(t) in v.secrets && v.secrets[Mutable(t)].content == c
  }

  /** No rotation is under way or due, and none has left a secret behind. */
  predicate Unrotated(v: View) {
    && v.turl.Some? && v.turl.value.status.pending.None? && v.turl.value.status.oldSecret.None?
    && (v.turl.value.status.user.Some? ==> v.turl.value.status.user == Some(v.turl.value.spec))
  }

  lemma UnrotatedPrepared(v: View, t: Name)
    requires CanComplete(v, t) && Unrotated(v)
    ensures var p := Prepared(v, t);
            && p.secrets == v.secrets && p.turl == v.turl && p.task.status == v.turl.value.status
            && p.task.key == v.turl.value.spec && p.task.pc.WriteSecret?
  {
  }

  /** A reconcile that finds the mutable secret up to date publishes. */
  lemma CurrentPublishes(v: View, t: Name, os: Outcomes)
    requires CanComplete(v, t) && Smooth(os) && os(PatchStatus).ok && Unrotated(v) && Own(v.turl.value.status, t)
    requires Current(v, t, Content(v.turl.value.spec, os(WriteSecret).rest))
    ensures var c := Content(v.turl.value.spec, os(WriteSecret).rest);
            Publishing(Whole(v, t, os), t, c) && Current(Whole(v, t, os), t, c)
  {
    Prepares(v, t, os);
    UnrotatedPrepared(v, t);
    FromWriteSame(Prepared(v, t), t, os);
  }

  /** Otherwise it writes the secret and leaves the status for the next one. */
  lemma StaleIsWritten(v: View, t: Name, os: Outcomes)
    requires CanComplete(v, t) && Smooth(os) && Unrotated(v)
    requires !Current(v, t, Content(v.turl.value.spec, os(WriteSecret).rest))
    ensures var n := Whole(v, t, os);
            n.turl == v.turl && Current(n, t, Content(v.turl.value.spec, os(WriteSecret).rest))
  {
    Prepares(v, t, os);
    UnrotatedPrepared(v, t);
    if Mutable(t) !in v.secrets {
      FromWriteNew(Prepared(v, t), t, os);
    } else {
      FromWriteChanged(Prepared(v, t), t, os);
    }
  }

  lemma RotatingPublishes(v: View, t: Name, os: Outcomes)
    requires CanComplete(v, t) && Smooth(os) && os(PatchStatus).ok && Own(v.turl.value.status, t)
    requires v.turl.value.status.pending.None? && v.turl.value.status.oldSecret.None?
    requires v.turl.value.status.user.Some? && v.turl.value.status.user != Some(v.turl.value.spec)
    ensures var n := Whole(v, t, os);
            Publishing(n, t, Content(v.turl.value.spec, os(WriteSecret).rest)) &&
            n.turl.value.status.pending != Some(v.turl.value.spec)
  {
    var p := Prepared(v, t);
    Prepares(v, t, os);
    PreparedPending(v, t);
    assert p.turl == v.turl && p.task.status.pending == v.turl.value.status.user;
    if Hindered(p, Former(p.task.status)) {
      FromWriteBlocked(p, t, os);
    } else {
      FromWritePending(p, t, os);
    }
  }

  // ---------------------------------------------------------------- it stays that way

  lemma RotatingStays(v: View, t: Name, os: Outcomes)
    requires CanComplete(v, t) && Smooth(os) && os(PatchStatus).ok && v.turl.value.status.pending.Some?
    requires Publishing(v, t, Content(v.turl.value.spec, os(WriteSecret).rest))
    ensures Publishing(Whole(v, t, os), t, Content(v.turl.value.spec, os(WriteSecret).rest))
  {
    var p := Prepared(v, t);
    Prepares(v, t, os);
    assert p.secrets == v.secrets && p.turl == v.turl && p.task.status == v.turl.value.status;
    if Hindered(p, Former(p.task.status)) {
      FromWriteBlocked(p, t, os);
    } else {
      FromWritePending(p, t, os);
    }
  }

  /** What is published stays published while spec and cluster stay the same, and outside a rotation
      in the same secret. */
  lemma PublishingStays(v: View, t: Name, os: Outcomes)
    requires CanComplete(v, t) && Smooth(os) && os(PatchStatus).ok
    requires Publishing(v, t, Content(v.turl.value.spec, os(WriteSecret).rest))
    ensures Publishing(Whole(v, t, os), t, Content(v.turl.value.spec, os(WriteSecret).rest))
    ensures v.turl.value.status.pending.None? ==>
              Whole(v, t, os).turl.value.status.secret == v.turl.value.status.secret
  {
    var p := Prepared(v, t);
    if v.turl.value.status.pending.Some? {
      RotatingStays(v, t, os);
    } else {
      Prepares(v, t, os);
      assert p.secrets == v.secrets && p.turl == v.turl && p.task.status == v.turl.value.status;
      if p.task.status.oldSecret.Some? {
        FromWriteLingering(p, t, os);
      } else if Mutable(t) !in p.secrets {
        FromWriteNew(p, t, os);
      } else if p.secrets[Mutable(t)].content != Content(p.task.key, os(WriteSecret).rest) {
        FromWriteChanged(p, t, os);
      } else {
        FromWriteSame(p, t, os);
      }
    }
  }

  /** From every state without a rotation under way, and whatever the secrets hold: two undisturbed
      reconciles for the same cluster end with the spec's user and its content published; without a
      change of user the first of them brings the mutable secret up to date. */
  lemma PublicationTheorem(v: View, t: Name, os: Outcomes, next: Outcomes)
    requires CanComplete(v, t) && Smooth(os) && os(PatchStatus).ok && Smooth(next) && next(PatchStatus).ok
    requires Own(v.turl.value.status, t) && os(WriteSecret).rest == next(WriteSecret).rest
    requires v.turl.value.status.pending.None? && v.turl.value.status.oldSecret.None?
    ensures var c := Content(v.turl.value.spec, os(WriteSecret).rest);
            var m := Whole(v, t, os);
            && CanComplete(m, t) && Publishing(Whole(m, t, next), t, c)
            && (Unrotated(v) ==> Current(m, t, c))
  {
    var c := Content(v.turl.value.spec, os(WriteSecret).rest);
    CompletesAgain(v, t, os);
    WholeClaims(v, t, os);
    var m := Whole(v, t, os);
    if !Unrotated(v) {
      RotatingPublishes(v, t, os);
      PublishingStays(m, t, next);
    } else if Current(v, t, c) {
      CurrentPublishes(v, t, os);
      PublishingStays(m, t, next);
    } else {
      StaleIsWritten(v, t, os);
      CurrentPublishes(m, t, next);
    }
  }

  /** An old secret without a rotation is removed by the first reconcile that finds it unused, and
      stays as it is until then. */
  lemma LingeringRemoved(v: View, t: Name, os: Outcomes, s: SecretName)
    requires CanComplete(v, t) && Smooth(os) && os(PatchStatus).ok
    requires v.turl.value.status.pending.None? && v.turl.value.status.oldSecret == Some(s)
    requires v.turl.value.status.user == Some(v.turl.value.spec)
    ensures var n := Whole(v, t, os);
            && n.turl.Some?
            && if Consumed(v.secrets, Some(s))
               then SameAt(v.secrets, n.secrets, s) && n.turl.value.status.oldSecret == Some(s)
               else s !in n.secrets && n.turl.value.status.oldSecret.None?
  {
    var p := Prepared(v, t);
    Prepares(v, t, os);
    assert p.secrets == v.secrets && p.turl == v.turl && p.task.status == v.turl.value.status;
    FromWriteLingering(p, t, os);
  }
}
