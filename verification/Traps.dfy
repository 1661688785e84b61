/** Where the protocol does not keep what one would like, and exactly when it does: each statement
    is about a whole reconcile and has a condition on the stored object. */
module Traps {
  import opened ApiObjects
  import opened Protocol
  import opened References
  import opened Reconcile

  /** The user in the stored status has the TransportURL's finalizer. */
  predicate Backed(v: View, t: Name) {
    v.turl.Some? && v.turl.value.status.user.Some? ==> Claimed(v.users, t, v.turl.value.status.user.value)
  }

  /** A complete reconcile leaves the published user held exactly when it did not start out to
      release that very user: rotating back, or giving a rotation up, ends unheld. */
  lemma RotateBackExactly(v: View, t: Name, os: Outcomes)
    requires CanComplete(v, t) && Smooth(os) && os(PatchStatus).ok && Unhindered(v)
    ensures Backed(Whole(v, t, os), t) <==> v.turl.value.status.pending != Some(v.turl.value.spec)
  {
    var k := v.turl.value.spec;
    ClaimsExactly(v, t, os, k);
  }

  /** If the status write of a complete reconcile is lost, the stored user is still held exactly
      when it is the spec's user and not the one to be released. */
  lemma LostPatchExactly(v: View, t: Name, os: Outcomes, u: UserKey)
    requires CanComplete(v, t) && Smooth(os) && !os(PatchStatus).ok && Unhindered(v)
    requires v.turl.value.status.user == Some(u) && Claimed(v.users, t, u)
    ensures var n := Whole(v, t, os);
            && n.task == NO_RECONCILE && n.turl == v.turl
            && (Backed(n, t) <==> u == v.turl.value.spec && v.turl.value.status.pending != Some(u))
  {
    ClaimsExactly(v, t, os, u);
  }

  /** A complete rotation publishes the new user's credentials exactly when no older secret is
      waiting to be cleaned up, or an earlier rotation that goes first cleans it up. */
  lemma NewSecretExactly(v: View, t: Name, os: Outcomes)
    requires CanComplete(v, t) && Smooth(os) && os(PatchStatus).ok && Unhindered(v)
    requires v.turl.value.status.user.Some? && v.turl.value.status.user != Some(v.turl.value.spec)
    requires !Shows(v.secrets, v.turl.value.status.secret, Content(v.turl.value.spec, os(WriteSecret).rest))
    ensures var st := v.turl.value.status;
            var n := Whole(v, t, os);
            && n.turl.Some? && n.turl.value.status.user == Some(v.turl.value.spec)
            && (Shows(n.secrets, n.turl.value.status.secret, Content(v.turl.value.spec, os(WriteSecret).rest)) <==>
                  st.oldSecret.None? || (st.pending.Some? && st.pending != st.user))
  {
    ClaimsExactly(v, t, os, v.turl.value.spec);
    var s := v.turl.value.status.secret;
    RotatedSecret(v, t, os, if s.Some? then s.value else Mutable(t));
    PreparedPending(v, t);
  }

  /** A deleted TransportURL leaves its finalizer on a user for ever exactly when it held that
      user and neither its spec nor its pending release names it. */
  lemma LeakExactly(v: View, t: Name, os: Outcomes, k: UserKey)
    requires v.task == NO_RECONCILE && v.turl.Some? && v.turl.value.deleting && Smooth(os)
    ensures var n := Whole(v, t, os);
            && n.turl.None? && n.task == NO_RECONCILE
            && (Claimed(n.users, t, k) <==>
                  Claimed(v.users, t, k) && k != v.turl.value.spec && v.turl.value.status.pending != Some(k))
  {
    var x := v.turl.value;
    DeletionDeserts(v, t, os);
    if x.status.pending.Some? {
      var m := ReleasedUser(v.users, x.status.pending.value, t);
      ReleaseNeutral(v.users, x.status.pending.value, t, t, k);
      ReleaseNeutral(m, x.spec, t, t, k);
    } else {
      ReleaseNeutral(v.users, x.spec, t, t, k);
    }
  }
}
