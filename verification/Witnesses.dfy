/** Reachable cases of the traps: states the controllers get into from an empty API server and in
    which one more undisturbed reconcile goes wrong. */
module Witnesses {
  import opened ApiObjects
  import opened Protocol
  import opened References
  import opened Reconcile
  import opened Histories
  import opened Traps

  // ---------------------------------------------------------------- one TransportURL in vhost "/"

  function All(rest: nat): Outcomes {
    pc => Call(true, rest)
  }

  function Lost(): Outcomes {
    (pc: TurlPc) => Call(!pc.PatchStatus?, 0)
  }

  /** A world with one TransportURL, no vhost and no running reconcile. */
  function Sole(t: Name, x: Turl, users: map<UserKey, User>, secrets: map<SecretName, Secret>,
                accounts: set<(Name, Name)>): World {
    World(users, map[], map[t := x], secrets, Absent, accounts, {}, map[], map[], map[])
  }

  function SoleView(x: Turl, users: map<UserKey, User>, secrets: map<SecretName, Secret>): View {
    View(users, map[], secrets, Absent, Some(x), NO_RECONCILE)
  }

  function Body(granted: bool): UserBody {
    UserBody(false, true, true, granted)
  }

  /** A user that `t` holds and that has been through its first reconcile. */
  function Ready(t: Name, granted: bool): User {
    Obj({Consumer(t), Controller}, false, Body(granted))
  }

  function Claimant(t: Name): User {
    Obj({Consumer(t)}, false, UserBody(false, false, false, false))
  }

  lemma WritesSole(t: Name, x: Turl, users: map<UserKey, User>, secrets: map<SecretName, Secret>,
                   accounts: set<(Name, Name)>, n: View)
    requires n.turl.Some? && n.vhosts == map[] && n.task == NO_RECONCILE
    ensures Write(Sole(t, x, users, secrets, accounts), t, n) == Sole(t, n.turl.value, n.users, n.secrets, accounts)
  {
    var w := Sole(t, x, users, secrets, accounts);
    assert w.turls[t := n.turl.value] == map[t := n.turl.value];
    assert w.turlTasks - {t} == map[];
  }

  lemma LeadsSole(ok: Allowed, t: Name, x: Turl, users: map<UserKey, User>, secrets: map<SecretName, Secret>,
                  accounts: set<(Name, Name)>, os: Outcomes, n: View)
    requires Leads(EMPTY, ok, Sole(t, x, users, secrets, accounts)) && forall pc :: ok(TurlMoves(t, os(pc)))
    requires Whole(SoleView(x, users, secrets), t, os) == n
    requires n.turl.Some? && n.vhosts == map[] && n.task == NO_RECONCILE
    ensures Leads(EMPTY, ok, Sole(t, n.turl.value, n.users, n.secrets, accounts))
  {
    var w := Sole(t, x, users, secrets, accounts);
    assert See(w, t) == SoleView(x, users, secrets);
    LeadsWhole(EMPTY, ok, w, t, os);
    WritesSole(t, x, users, secrets, accounts, n);
  }

  /** Claiming a user that is held already changes nothing. */
  lemma ClaimAgain(users: map<UserKey, User>, k: UserKey, t: Name)
    requires Claimed(users, t, k) && !users[k].body.orphaned
    ensures ClaimedUser(users, k, t) == Some(users)
  {
    assert users[k].finalizers + {Consumer(t)} == users[k].finalizers;
    assert users[k := users[k]] == users;
  }

  /** A reconcile that finds all its claims made, up to its secret. */
  lemma PreparedAgain(v: View, t: Name)
    requires v.task == NO_RECONCILE && Live(v) && v.turl.value.guarded
    requires var x := v.turl.value;
             && (x.status.vhost.None? || x.status.vhost == VhostOf(x.spec)) && !Superseding(x.status, x.spec)
             && Claimed(v.users, t, x.spec) && Usable(v.users, x.spec, Waits(x))
             && !v.users[x.spec].body.orphaned && !v.users[x.spec].deleting
             && (VhostOf(x.spec).Some? ==> HasFin(v.vhosts, VhostOf(x.spec).value, Consumer(t)))
    ensures var x := v.turl.value;
            var rotating := x.status.user.Some? && x.status.user != Some(x.spec);
            var st := if rotating then x.status.(pending := x.status.user) else x.status;
            CanComplete(v, t) && Prepared(v, t) == v.(task := TurlTask(WriteSecret, x.spec, Waits(x), st, {}))
  {
    var x := v.turl.value;
    ClaimAgain(v.users, x.spec, t);
    if VhostOf(x.spec).Some? {
      var h := VhostOf(x.spec).value;
      assert v.vhosts[h].finalizers + {Consumer(t)} == v.vhosts[h].finalizers;
      assert v.vhosts[h := v.vhosts[h]] == v.vhosts;
    }
  }

  // ---------------------------------------------------------------- publication

  function Fresh(k: UserKey): Turl {
    Turl(k, false, NO_STATUS, true, false)
  }

  function FirstStatus(t: Name, k: UserKey): TurlStatus {
    TurlStatus(Some(k), None, None, Some(Mutable(t)), None, Some(Content(k, 0)))
  }

  function FirstSecrets(t: Name, k: UserKey): map<SecretName, Secret> {
    map[Mutable(t) := Secret(Content(k, 0), false, false)]
  }

  function Accepted(k: UserKey, accepted: bool): set<(Name, Name)> {
    if accepted then {Account(k)} else {}
  }

  ghost predicate AllowsTurl(ok: Allowed, t: Name) {
    forall rest :: ok(TurlMoves(t, Call(true, rest)))
  }

  lemma CreationLeads(ok: Allowed, t: Name, k: UserKey)
    requires ok(CreateTurl(t, k, false)) && AllowsTurl(ok, t)
    ensures Leads(EMPTY, ok, Sole(t, Fresh(k), map[], map[], {}))
  {
    var x := Turl(k, false, NO_STATUS, false, false);
    LeadsNowhere(EMPTY, ok);
    LeadsStep(EMPTY, ok, EMPTY, CreateTurl(t, k, false));
    assert Apply(EMPTY, CreateTurl(t, k, false)) == Sole(t, x, map[], map[], {});
    LeadsStep(EMPTY, ok, Sole(t, x, map[], map[], {}), TurlMoves(t, Call(true, 0)));
    var w := Sole(t, x, map[], map[], {});
    assert See(w, t) == SoleView(x, map[], map[]);
    assert w.turls[t := Fresh(k)] == map[t := Fresh(k)] && w.turlTasks - {t} == map[];
  }

  /** The first reconcile creates the user and waits for it. */
  lemma ClaimLeads(ok: Allowed, t: Name, k: UserKey, accepted: bool)
    requires k.vhost == DEFAULT_VHOST && ok(CreateTurl(t, k, false)) && AllowsTurl(ok, t) && Allows(ok, k)
    ensures Leads(EMPTY, ok, Sole(t, Fresh(k), map[k := Ready(t, accepted)], map[], Accepted(k, accepted)))
  {
    CreationLeads(ok, t, k);
    var v := SoleView(Fresh(k), map[], map[]);
    var p := Prepared(v, t);
    assert p.users == map[k := Claimant(t)] && p.vhosts == map[] && p.task.status == NO_STATUS;
    Awaits(v, t, All(0));
    LeadsSole(ok, t, Fresh(k), map[], map[], {}, All(0), Patched(p, NO_STATUS, true));
    var w := Sole(t, Fresh(k), map[k := Claimant(t)], map[], {});
    LeadsServed(EMPTY, ok, w, k, accepted);
    assert {Consumer(t)} + {Controller} == {Consumer(t), Controller};
    assert map[k := Claimant(t)][k := Ready(t, accepted)] == map[k := Ready(t, accepted)];
    assert {} + {Account(k)} == {Account(k)};
    assert Served(w, k, accepted) == Sole(t, Fresh(k), map[k := Ready(t, accepted)], map[], Accepted(k, accepted));
  }

  /** A TransportURL on the default vhost publishes its user, whether or not the broker accepted it. */
  lemma PublicationLeads(ok: Allowed, t: Name, k: UserKey, accepted: bool)
    requires k.vhost == DEFAULT_VHOST && ok(CreateTurl(t, k, false)) && AllowsTurl(ok, t) && Allows(ok, k)
    ensures Leads(EMPTY, ok,
                  Sole(t, Fresh(k).(status := FirstStatus(t, k)), map[k := Ready(t, accepted)], FirstSecrets(t, k),
                       Accepted(k, accepted)))
  {
    var users := map[k := Ready(t, accepted)];
    ClaimLeads(ok, t, k, accepted);
    var v := SoleView(Fresh(k), users, map[]);
    PreparedAgain(SoleView(Fresh(k), users, map[]), t);
    Prepares(v, t, All(0));
    FromWriteNew(Prepared(v, t), t, All(0));
    LeadsSole(ok, t, Fresh(k), users, map[], Accepted(k, accepted), All(0),
              Patched(v.(secrets := FirstSecrets(t, k)), NO_STATUS, true));
    var n := SoleView(Fresh(k), users, FirstSecrets(t, k));
    PreparedAgain(SoleView(Fresh(k), users, FirstSecrets(t, k)), t);
    Prepares(n, t, All(0));
    FromWriteSame(Prepared(n, t), t, All(0));
    LeadsSole(ok, t, Fresh(k), users, FirstSecrets(t, k), Accepted(k, accepted), All(0),
              Patched(n, FirstStatus(t, k), true));
  }

  // ---------------------------------------------------------------- a rotation under way

  predicate Pair(a: UserKey, b: UserKey) {
    a != b && a.vhost == DEFAULT_VHOST && b.vhost == DEFAULT_VHOST
  }

  function Both(t: Name, a: UserKey, b: UserKey): map<UserKey, User> {
    map[a := Ready(t, true), b := Ready(t, true)]
  }

  /** `t` with this spec and status, holding both users. */
  function Holding(t: Name, spec: UserKey, st: TurlStatus, a: UserKey, b: UserKey,
                   secrets: map<SecretName, Secret>): World {
    Sole(t, Turl(spec, false, st, true, false), Both(t, a, b), secrets, {Account(a), Account(b)})
  }

  function Remembering(t: Name, a: UserKey): TurlStatus {
    FirstStatus(t, a).(pending := Some(a))
  }

  lemma Edits(t: Name, x: Turl, users: map<UserKey, User>, secrets: map<SecretName, Secret>,
              accounts: set<(Name, Name)>, spec: UserKey)
    requires Reachable(Sole(t, x, users, secrets, accounts))
    ensures Reachable(Sole(t, x.(spec := spec, written := false), users, secrets, accounts))
  {
    var w := Sole(t, x, users, secrets, accounts);
    LeadsStep(EMPTY, ANYTHING, w, EditSpec(t, spec, false));
    assert w.turls[t := x.(spec := spec, written := false)] == map[t := x.(spec := spec, written := false)];
  }

  lemma Consumes(t: Name, x: Turl, users: map<UserKey, User>, secrets: map<SecretName, Secret>,
                 accounts: set<(Name, Name)>, s: SecretName, on: bool)
    requires Reachable(Sole(t, x, users, secrets, accounts))
    ensures Reachable(Sole(t, x, users, Attached(secrets, s, on), accounts))
  {
    LeadsStep(EMPTY, ANYTHING, Sole(t, x, users, secrets, accounts), Consume(s, on));
  }

  /** The spec has moved from a to b; the first reconcile remembers a and waits for b. */
  lemma RotationBegins(t: Name, a: UserKey, b: UserKey)
    requires Pair(a, b)
    ensures Reachable(Holding(t, b, Remembering(t, a), a, b, FirstSecrets(t, a)))
  {
    var x := Turl(b, false, FirstStatus(t, a), true, false);
    var users := map[a := Ready(t, true)];
    PublicationLeads(ANYTHING, t, a, true);
    Edits(t, x.(spec := a), users, FirstSecrets(t, a), {Account(a)}, b);
    var v := SoleView(x, users, FirstSecrets(t, a));
    var p := Prepared(v, t);
    assert p.users == map[a := Ready(t, true), b := Claimant(t)] && p.task.status == Remembering(t, a);
    Awaits(v, t, All(0));
    LeadsSole(ANYTHING, t, x, users, FirstSecrets(t, a), {Account(a)}, All(0), Patched(p, Remembering(t, a), true));
    var w := Sole(t, x.(status := Remembering(t, a)), p.users, FirstSecrets(t, a), {Account(a)});
    LeadsServed(EMPTY, ANYTHING, w, b, true);
    BothServed(t, a, b, w);
  }

  lemma BothServed(t: Name, a: UserKey, b: UserKey, w: World)
    requires Pair(a, b) && NewUser(w, b) && w.users == map[a := Ready(t, true), b := Claimant(t)]
    ensures Served(w, b, true) == w.(users := Both(t, a, b), accounts := w.accounts + {Account(b)})
  {
    assert {Consumer(t)} + {Controller} == {Consumer(t), Controller};
    assert Served(w, b, true).users == Both(t, a, b);
  }

  // ---------------------------------------------------------------- the published user is let go

  /** The stored status of a live TransportURL at rest names a user without its finalizer. */
  predicate Unbacked(w: World, t: Name, k: UserKey) {
    && t in w.turls && !w.turls[t].deleting && t !in w.turlTasks
    && w.turls[t].status.user == Some(k) && !Claimed(w.users, t, k)
  }

  /** One undisturbed reconcile of `t` leads from w to n. */
  ghost predicate Reconciles(w: World, t: Name, os: Outcomes, n: World) {
    Reachable(w) && Reachable(n) && t !in w.turlTasks && n == Write(w, t, Whole(See(w, t), t, os))
  }

  lemma ReconcileLeads(w: World, t: Name, os: Outcomes)
    requires Reachable(w) && t !in w.turlTasks
    ensures Reconciles(w, t, os, Write(w, t, Whole(See(w, t), t, os)))
  {
    LeadsWhole(EMPTY, ANYTHING, w, t, os);
  }

  lemma HoldingCompletes(t: Name, spec: UserKey, st: TurlStatus, a: UserKey, b: UserKey,
                         secrets: map<SecretName, Secret>)
    requires Pair(a, b) && spec in {a, b}
    ensures CanComplete(See(Holding(t, spec, st, a, b, secrets), t), t)
  {
  }

  /** A rotation that is given up before it published: every call of the next reconcile succeeds,
      and it ends with user a published and let go. */
  lemma GivingUpBreaks(t: Name, a: UserKey, b: UserKey)
    requires Pair(a, b)
    ensures var w := Holding(t, a, Remembering(t, a), a, b, FirstSecrets(t, a));
            var n := Write(w, t, Whole(See(w, t), t, All(0)));
            && Reconciles(w, t, All(0), n) && Claimed(w.users, t, a) && Unbacked(n, t, a)
  {
    var w := Holding(t, a, Remembering(t, a), a, b, FirstSecrets(t, a));
    RotationBegins(t, a, b);
    Edits(t, Turl(b, false, Remembering(t, a), true, false), Both(t, a, b), FirstSecrets(t, a),
          {Account(a), Account(b)}, a);
    ReconcileLeads(w, t, All(0));
    HoldingCompletes(t, a, Remembering(t, a), a, b, FirstSecrets(t, a));
    ClaimsExactly(See(w, t), t, All(0), a);
  }

  /** A rotation whose status write is lost after the release. */
  lemma LostPatchBreaks(t: Name, a: UserKey, b: UserKey)
    requires Pair(a, b)
    ensures var w := Holding(t, b, Remembering(t, a), a, b, FirstSecrets(t, a));
            var n := Write(w, t, Whole(See(w, t), t, Lost()));
            && Reconciles(w, t, Lost(), n) && Claimed(w.users, t, a) && Unbacked(n, t, a)
  {
    var w := Holding(t, b, Remembering(t, a), a, b, FirstSecrets(t, a));
    RotationBegins(t, a, b);
    ReconcileLeads(w, t, Lost());
    HoldingCompletes(t, b, Remembering(t, a), a, b, FirstSecrets(t, a));
    LostPatchExactly(See(w, t), t, Lost(), a);
  }

  function NewSecret(t: Name, k: UserKey, rest: nat): SecretName {
    Immutable(t, Content(k, rest))
  }

  /** b is published beside a, whose secret is still in use. */
  function Beside(t: Name, a: UserKey, b: UserKey): TurlStatus {
    TurlStatus(Some(b), Some(a), None, Some(NewSecret(t, b, 0)), Some(Mutable(t)), Some(Content(b, 0)))
  }

  function BesideSecrets(t: Name, a: UserKey, b: UserKey, used: bool): map<SecretName, Secret> {
    map[Mutable(t) := Secret(Content(a, 0), used, false), NewSecret(t, b, 0) := Secret(Content(b, 0), false, false)]
  }

  lemma PublishedBeside(t: Name, a: UserKey, b: UserKey)
    requires Pair(a, b)
    ensures Reachable(Holding(t, b, Beside(t, a, b), a, b, BesideSecrets(t, a, b, true)))
  {
    var x := Turl(b, false, Remembering(t, a), true, false);
    var accounts := {Account(a), Account(b)};
    var used := map[Mutable(t) := Secret(Content(a, 0), true, false)];
    RotationBegins(t, a, b);
    Consumes(t, x, Both(t, a, b), FirstSecrets(t, a), accounts, Mutable(t), true);
    assert Attached(FirstSecrets(t, a), Mutable(t), true) == used;
    PreparedAgain(SoleView(x, Both(t, a, b), used), t);
    var v := SoleView(x, Both(t, a, b), used);
    Prepares(v, t, All(0));
    FromWriteBlocked(Prepared(v, t), t, All(0));
    LeadsSole(ANYTHING, t, x, Both(t, a, b), used, accounts, All(0),
              Patched(v.(secrets := BesideSecrets(t, a, b, true)), Beside(t, a, b), true));
  }

  /** Rotating back before the old user was released. */
  lemma RotateBackBreaks(t: Name, a: UserKey, b: UserKey)
    requires Pair(a, b)
    ensures var w := Holding(t, a, Beside(t, a, b), a, b, BesideSecrets(t, a, b, false));
            var n := Write(w, t, Whole(See(w, t), t, All(0)));
            && Reconciles(w, t, All(0), n) && Claimed(w.users, t, b) && Unbacked(n, t, a)
  {
    var x := Turl(b, false, Beside(t, a, b), true, false);
    var accounts := {Account(a), Account(b)};
    PublishedBeside(t, a, b);
    Consumes(t, x, Both(t, a, b), BesideSecrets(t, a, b, true), accounts, Mutable(t), false);
    assert Attached(BesideSecrets(t, a, b, true), Mutable(t), false) == BesideSecrets(t, a, b, false);
    Edits(t, x, Both(t, a, b), BesideSecrets(t, a, b, false), accounts, a);
    var w := Holding(t, a, Beside(t, a, b), a, b, BesideSecrets(t, a, b, false));
    ReconcileLeads(w, t, All(0));
    HoldingCompletes(t, a, Beside(t, a, b), a, b, BesideSecrets(t, a, b, false));
    ClaimsExactly(See(w, t), t, All(0), a);
  }

  // ---------------------------------------------------------------- old credentials for a new user

  /** A user released by its last consumer. */
  function Freed(): User {
    Obj({Controller}, false, UserBody(true, true, true, true))
  }

  function Moved(t: Name, b: UserKey): TurlStatus {
    TurlStatus(Some(b), None, None, Some(NewSecret(t, b, 0)), None, Some(Content(b, 0)))
  }

  /** The rotation from a to b has completed. */
  lemma RotationDone(t: Name, a: UserKey, b: UserKey)
    requires Pair(a, b)
    ensures Reachable(Sole(t, Turl(b, false, Moved(t, b), true, false), map[a := Freed(), b := Ready(t, true)],
                           map[NewSecret(t, b, 0) := Secret(Content(b, 0), false, false)], {Account(a), Account(b)}))
  {
    var x := Turl(b, false, Remembering(t, a), true, false);
    RotationBegins(t, a, b);
    PreparedAgain(SoleView(x, Both(t, a, b), FirstSecrets(t, a)), t);
    var v := SoleView(x, Both(t, a, b), FirstSecrets(t, a));
    Prepares(v, t, All(0));
    FromWritePending(Prepared(v, t), t, All(0));
    FreedUsers(t, a, b);
    assert SweptSecret(BesideSecrets(t, a, b, false), Some(Mutable(t))) ==
           map[NewSecret(t, b, 0) := Secret(Content(b, 0), false, false)];
    var n := Patched(Rotated(Prepared(v, t), t, Content(b, 0)), Moved(t, b), true);
    LeadsSole(ANYTHING, t, x, Both(t, a, b), FirstSecrets(t, a), {Account(a), Account(b)}, All(0), n);
  }

  lemma FreedUsers(t: Name, a: UserKey, b: UserKey)
    requires a != b
    ensures ReleasedUser(Both(t, a, b), a, t) == map[a := Freed(), b := Ready(t, true)]
  {
    assert {Consumer(t), Controller} - {Consumer(t)} == {Controller};
  }

  /** The secrets while the consumer of b's first secret has not moved on to the mutable one. */
  function Lingering(t: Name, b: UserKey, used: bool): map<SecretName, Secret> {
    map[NewSecret(t, b, 0) := Secret(Content(b, 0), used, false), Mutable(t) := Secret(Content(b, 1), false, false)]
  }

  function Outdated(t: Name, b: UserKey): TurlStatus {
    TurlStatus(Some(b), None, None, Some(Mutable(t)), Some(NewSecret(t, b, 0)), Some(Content(b, 1)))
  }

  /** b's credentials changed after the rotation, and the next reconcile writes the mutable secret. */
  lemma CredentialsChanged(t: Name, a: UserKey, b: UserKey)
    requires Pair(a, b)
    ensures Reachable(Sole(t, Turl(b, false, Moved(t, b), true, false), map[a := Freed(), b := Ready(t, true)],
                           Lingering(t, b, true), {Account(a), Account(b)}))
  {
    var x := Turl(b, false, Moved(t, b), true, false);
    var users := map[a := Freed(), b := Ready(t, true)];
    var accounts := {Account(a), Account(b)};
    var unused := map[NewSecret(t, b, 0) := Secret(Content(b, 0), false, false)];
    var used := map[NewSecret(t, b, 0) := Secret(Content(b, 0), true, false)];
    RotationDone(t, a, b);
    Consumes(t, x, users, unused, accounts, NewSecret(t, b, 0), true);
    assert Attached(unused, NewSecret(t, b, 0), true) == used;
    var v := SoleView(x, users, used);
    PreparedAgain(SoleView(x, users, used), t);
    Prepares(v, t, All(1));
    FromWriteNew(Prepared(v, t), t, All(1));
    LeadsSole(ANYTHING, t, x, users, used, accounts, All(1),
              Patched(v.(secrets := Lingering(t, b, true)), Moved(t, b), true));
  }

  /** The reconcile after that publishes it; b's first secret is still in use. */
  lemma ChangePublished(t: Name, a: UserKey, b: UserKey)
    requires Pair(a, b)
    ensures Reachable(Sole(t, Turl(b, false, Outdated(t, b), true, false), map[a := Freed(), b := Ready(t, true)],
                           Lingering(t, b, true), {Account(a), Account(b)}))
  {
    var x := Turl(b, false, Moved(t, b), true, false);
    var users := map[a := Freed(), b := Ready(t, true)];
    CredentialsChanged(t, a, b);
    var v := SoleView(x, users, Lingering(t, b, true));
    PreparedAgain(SoleView(x, users, Lingering(t, b, true)), t);
    Prepares(v, t, All(1));
    FromWriteSame(Prepared(v, t), t, All(1));
    LeadsSole(ANYTHING, t, x, users, Lingering(t, b, true), {Account(a), Account(b)}, All(1),
              Patched(v, Outdated(t, b), true));
  }

  /** A rotation from b to a that completes with b's credentials in the published secret, and
      lets go of b. */
  lemma OldCredentialsPublished(t: Name, a: UserKey, b: UserKey)
    requires Pair(a, b)
    ensures var w := Sole(t, Turl(a, false, Outdated(t, b), true, false), map[a := Freed(), b := Ready(t, true)],
                          Lingering(t, b, false), {Account(a), Account(b)});
            var n := Write(w, t, Whole(See(w, t), t, All(0)));
            && Reconciles(w, t, All(0), n) && t in n.turls && n.turls[t].status.user == Some(a)
            && !Shows(n.secrets, n.turls[t].status.secret, Content(a, 0)) && !Claimed(n.users, t, b)
  {
    var x := Turl(b, false, Outdated(t, b), true, false);
    var users := map[a := Freed(), b := Ready(t, true)];
    var accounts := {Account(a), Account(b)};
    ChangePublished(t, a, b);
    Consumes(t, x, users, Lingering(t, b, true), accounts, NewSecret(t, b, 0), false);
    assert Attached(Lingering(t, b, true), NewSecret(t, b, 0), false) == Lingering(t, b, false);
    Edits(t, x, users, Lingering(t, b, false), accounts, a);
    var w := Sole(t, x.(spec := a), users, Lingering(t, b, false), accounts);
    ReconcileLeads(w, t, All(0));
    assert See(w, t) == SoleView(x.(spec := a), users, Lingering(t, b, false));
    NewSecretExactly(See(w, t), t, All(0));
    ClaimsExactly(See(w, t), t, All(0), b);
  }

  // ---------------------------------------------------------------- a finalizer left for ever

  /** The spec moves on and the TransportURL is deleted before it reconciles again. */
  lemma DeletionLeaks(t: Name, a: UserKey, b: UserKey)
    requires Pair(a, b)
    ensures var w := Sole(t, Turl(b, false, FirstStatus(t, a), true, true), map[a := Ready(t, true)],
                          FirstSecrets(t, a), {Account(a)});
            var n := Write(w, t, Whole(See(w, t), t, All(0)));
            && Reconciles(w, t, All(0), n) && t !in n.turls && Claimed(n.users, t, a)
  {
    var x := Turl(b, false, FirstStatus(t, a), true, false);
    var users := map[a := Ready(t, true)];
    PublicationLeads(ANYTHING, t, a, true);
    Edits(t, x.(spec := a), users, FirstSecrets(t, a), {Account(a)}, b);
    var w := Sole(t, x, users, FirstSecrets(t, a), {Account(a)});
    var m := Sole(t, x.(deleting := true), users, FirstSecrets(t, a), {Account(a)});
    LeadsStep(EMPTY, ANYTHING, w, DeleteTurl(t));
    assert w.turls[t := x.(deleting := true)] == m.turls;
    ReconcileLeads(m, t, All(0));
    LeakExactly(See(m, t), t, All(0), a);
  }
}
