/** The TransportURL, RabbitMQUser and RabbitMQVhost controllers over one API server
    and one broker, as a machine whose atomic steps are the controllers' single writes.

    A controller's reconcile is a task with a program counter and the values it read;
    between two of its steps any other controller, any administrator and any consuming
    service may take steps of their own.  An `Outcome` says how the calls of a step went. */
module Protocol {
  import opened ApiObjects

  /** Shared CRs are singletons named after (cluster, vhost, username): the key stands
      for the canonical, collision-free name. */
  datatype UserKey = UserKey(cluster: Name, vhost: Name, username: Name)
  datatype VhostKey = VhostKey(cluster: Name, vhost: Name)

  /** The broker's own vhost "/", which has no CR. */
  const DEFAULT_VHOST: Name := 0

  function VhostOf(k: UserKey): Option<VhostKey> {
    if k.vhost == DEFAULT_VHOST then None else Some(VhostKey(k.cluster, k.vhost))
  }

  function Account(k: UserKey): (Name, Name) {
    (k.cluster, k.username)
  }

  /** orphaned: the orphaned label; secret: Status.SecretName is set; tracked: Status.VhostRef
      is set; provisioned: Status.Vhost is set, so the broker accepted user and permissions. */
  datatype UserBody = UserBody(orphaned: bool, secret: bool, tracked: bool, provisioned: bool)
  type User = Obj<UserBody>
  type Vhost = Obj<()>

  /** What a transport secret says: whose credentials, and everything else in the URL. */
  datatype Content = Content(user: UserKey, rest: nat)
  datatype SecretName = Mutable(turl: Name) | Immutable(turl: Name, content: Content)
  datatype Secret = Secret(content: Content, consumed: bool, deleting: bool)

  datatype TurlStatus = TurlStatus(
    user: Option<UserKey>,           // RabbitmqUserRef
    pending: Option<UserKey>,        // PreviousRabbitmqUserRef
    vhost: Option<VhostKey>,         // RabbitmqClusterName and RabbitmqVhost
    secret: Option<SecretName>,      // SecretName
    oldSecret: Option<SecretName>,   // PreviousSecretName
    content: Option<Content>)        // SecretHash
  /** written: Spec.Vhost is not empty, which for the vhost "/" makes the controller wait for more. */
  datatype Turl = Turl(spec: UserKey, written: bool, status: TurlStatus, guarded: bool, deleting: bool)

  datatype NodeSets = Absent | InSync | OutOfSync

  datatype TurlPc =
    | Resting
    | ClaimVhost | ClaimUser | ReleaseEarlier | CleanEarlier | DropVhost | DropOrphanVhost
    | AwaitUser | WriteSecret | CheckConsumer | CheckNodes | Release | CleanSecret | SweepSecret
    | PatchStatus
    | DelPending | DelSecret | DelUser | DelVhost | DelDone
  /** waits: the reconcile waits for the user's Status.Vhost; released: the users this reconcile
      has taken its finalizer off. */
  datatype TurlTask = TurlTask(pc: TurlPc, key: UserKey, waits: bool, status: TurlStatus, released: set<UserKey>)

  datatype UserPc =
    | Idle
    | GuardVhost | Reread | DeleteOrphan | RegardVhost | Credentials | Provision | PatchUser(provisioned: bool)
    | LeaveVhost | LeaveOrphanVhost | ListUsers | DeleteAccount | UnguardUser
  datatype UserTask = UserTask(pc: UserPc, orphaned: bool)

  datatype VhostPc =
    | NoTask
    | Inspect(seen: set<Finalizer>)
    | RemoveOrphans(seen: set<Finalizer>, stale: set<Finalizer>)
    | DeleteVhost(seen: set<Finalizer>)
    | UnguardVhost(seen: set<Finalizer>)

  datatype World = World(
    users: map<UserKey, User>,
    vhosts: map<VhostKey, Vhost>,
    turls: map<Name, Turl>,
    secrets: map<SecretName, Secret>,
    nodeSets: NodeSets,
    accounts: set<(Name, Name)>,    // users on the brokers
    brokerVhosts: set<VhostKey>,        // vhosts on the brokers
    turlTasks: map<Name, TurlTask>,
    userTasks: map<UserKey, UserTask>,
    vhostTasks: map<VhostKey, VhostPc>)

  const NO_STATUS := TurlStatus(None, None, None, None, None, None)

  /** ok: the calls of the step succeed (for a patch: it lands); gone: the cluster is missing
      or being deleted; timedOut: the vhost's deletion is older than the orphan timeout;
      rest: the hosts, port, password and flags that go into a transport secret. */
  datatype Outcome = Outcome(ok: bool, gone: bool, timedOut: bool, rest: nat)

  datatype Step =
    | TurlMoves(t: Name, o: Outcome)
    | UserMoves(k: UserKey, o: Outcome)
    | VhostMoves(v: VhostKey, o: Outcome)
    | CreateTurl(t: Name, key: UserKey, written: bool)
    | EditSpec(t: Name, key: UserKey, written: bool)
    | DeleteTurl(t: Name)
    | AdminDeletesUser(k: UserKey)
    | AdminDeletesVhost(v: VhostKey)
    | AddExternal(k: UserKey, id: Name)
    | RemoveExternal(k: UserKey, id: Name)
    | AddVhostExternal(v: VhostKey, id: Name)
    | RemoveVhostExternal(v: VhostKey, id: Name)
    | Consume(s: SecretName, on: bool)
    | SetNodeSets(n: NodeSets)

  // ---------------------------------------------------------------- writes on users and vhosts

  /** CreateOrUpdate of a shared user by consumer `t`; it also takes the orphaned label off. */
  function ClaimedUser(users: map<UserKey, User>, k: UserKey, t: Name): Option<map<UserKey, User>> {
    if k !in users then
      Some(users[k := Obj({Consumer(t)}, false, UserBody(false, false, false, false))])
    else if CanFinalize(users, k, Consumer(t)) then
      Some(users[k := Obj(users[k].finalizers + {Consumer(t)}, users[k].deleting, users[k].body.(orphaned := false))])
    else
      None
  }

  /** CreateOrUpdate of a shared vhost by consumer `t`. */
  function ClaimedVhost(vhosts: map<VhostKey, Vhost>, v: VhostKey, t: Name): Option<map<VhostKey, Vhost>> {
    if v !in vhosts then Some(vhosts[v := Obj({Consumer(t)}, false, ())])
    else if CanFinalize(vhosts, v, Consumer(t)) then Some(Finalize(vhosts, v, Consumer(t)))
    else None
  }

  /** releaseUserFinalizer: drop the finalizer, label the user when no consumer is left. */
  function ReleasedUser(users: map<UserKey, User>, k: UserKey, t: Name): map<UserKey, User> {
    if k !in users then users else
      var u := users[k];
      var fs := u.finalizers - {Consumer(t)};
      var mark := u.body.orphaned || (!u.deleting && !HasConsumer(fs));
      Put(users, k, Obj(fs, u.deleting, u.body.(orphaned := mark)))
  }

  /** The release of a deleted TransportURL, which also takes a wrong label off. */
  function AbandonedUser(users: map<UserKey, User>, k: UserKey, t: Name): map<UserKey, User> {
    if k !in users then users else
      var u := users[k];
      var fs := u.finalizers - {Consumer(t)};
      var mark := if u.deleting then u.body.orphaned else !HasConsumer(fs);
      Put(users, k, Obj(fs, u.deleting, u.body.(orphaned := mark)))
  }

  /** deleteOrphanedCR and deleteOrphanedVhost.  Reading and deleting are two calls; an
      `AdminDeletesVhost` step in between shows that the gap adds no behaviour. */
  function SweptVhost(vhosts: map<VhostKey, Vhost>, v: VhostKey): map<VhostKey, Vhost> {
    if v !in vhosts || vhosts[v].deleting || HasConsumer(vhosts[v].finalizers) || HasUserRef(vhosts[v].finalizers)
    then vhosts
    else Delete(vhosts, v)
  }

  /** cleanupOldTransportSecret: a consumer's finalizer turns the deletion into a mark. */
  function SweptSecret(secrets: map<SecretName, Secret>, s: Option<SecretName>): map<SecretName, Secret> {
    if s.None? || s.value !in secrets then secrets
    else if secrets[s.value].consumed then secrets[s.value := secrets[s.value].(deleting := true)]
    else secrets - {s.value}
  }

  predicate Consumed(secrets: map<SecretName, Secret>, s: Option<SecretName>) {
    s.Some? && s.value in secrets && secrets[s.value].consumed
  }

  // ---------------------------------------------------------------- TransportURL controller

  /** What a step inside a reconcile of one TransportURL reads and writes. */
  datatype View = View(
    users: map<UserKey, User>,
    vhosts: map<VhostKey, Vhost>,
    secrets: map<SecretName, Secret>,
    nodeSets: NodeSets,
    turl: Option<Turl>,
    task: TurlTask)

  const NO_RECONCILE := TurlTask(Resting, UserKey(0, DEFAULT_VHOST, 0), false, NO_STATUS, {})

  function Go(v: View, pc: TurlPc): View {
    v.(task := v.task.(pc := pc))
  }

  /** An early return: the deferred patch still writes the status computed so far. */
  function Stop(v: View): View {
    Go(v, PatchStatus)
  }

  function TurlClaimsVhost(v: View, t: Name, o: Outcome): View {
    match VhostOf(v.task.key)
    case None => Go(v, ClaimUser)
    case Some(vhost) =>
      var claimed := ClaimedVhost(v.vhosts, vhost, t);
      if !o.ok || claimed.None? then Stop(v)
      else Go(v.(vhosts := claimed.value), ClaimUser)
  }

  predicate Rotating(x: TurlTask) {
    x.status.user.Some? && x.status.user != Some(x.key)
  }

  /** Credential rotation: remember the old user, after letting go of an even older one. */
  function Handover(x: TurlTask): TurlTask {
    if Rotating(x) && x.status.pending.Some? && x.status.pending != x.status.user
    then x.(pc := ReleaseEarlier)
    else if Rotating(x) then x.(pc := DropVhost, status := x.status.(pending := x.status.user))
    else x.(pc := DropVhost)
  }

  function TurlClaimsUser(v: View, t: Name, o: Outcome): View {
    var claimed := ClaimedUser(v.users, v.task.key, t);
    if !o.ok || claimed.None? then Stop(v)
    else v.(users := claimed.value, task := Handover(v.task))
  }

  function TurlReleases(v: View, t: Name, o: Outcome, next: TurlPc): View {
    var x := v.task;
    if !o.ok || x.status.pending.None? then Stop(v)
    else
      var k := x.status.pending.value;
      v.(users := ReleasedUser(v.users, k, t), task := x.(pc := next, released := x.released + {k}))
  }

  function TurlCleansEarlier(v: View, o: Outcome): View {
    var x := v.task;
    if !o.ok then Stop(v)
    else
      v.(secrets := SweptSecret(v.secrets, x.status.oldSecret),
         task := x.(pc := DropVhost, status := x.status.(pending := x.status.user, oldSecret := None)))
  }

  function TurlDropsVhost(v: View, t: Name, o: Outcome): View {
    var x := v.task;
    if x.status.vhost.None? || x.status.vhost == VhostOf(x.key) then Go(v, AwaitUser)
    else if !o.ok then Stop(v)
    else Go(v.(vhosts := Unfinalize(v.vhosts, x.status.vhost.value, Consumer(t))), DropOrphanVhost)
  }

  function TurlSweepsVhost(v: View, o: Outcome): View {
    var x := v.task;
    if !o.ok || x.status.vhost.None? then Stop(v)
    else Go(v.(vhosts := SweptVhost(v.vhosts, x.status.vhost.value)), AwaitUser)
  }

  /** The user has credentials and, if that is waited for, its permissions. */
  predicate Usable(users: map<UserKey, User>, k: UserKey, waits: bool) {
    k in users && users[k].body.secret && (waits ==> users[k].body.provisioned)
  }

  predicate Waits(x: Turl) {
    x.written || x.spec.vhost != DEFAULT_VHOST
  }

  function TurlAwaitsUser(v: View, o: Outcome): View {
    if o.ok && Usable(v.users, v.task.key, v.task.waits) then Go(v, WriteSecret) else Stop(v)
  }

  /** The values written at the end of a complete reconcile. */
  function Completed(x: TurlTask, st: TurlStatus): TurlTask {
    x.(status := st.(user := Some(x.key), vhost := VhostOf(x.key)),
       pc := if st.pending.Some? then CheckConsumer else SweepSecret)
  }

  /** The first reconcile of a rotation publishes the new credentials beside the old ones. */
  function TurlRotatesSecret(v: View, t: Name, c: Content): View {
    var x := v.task;
    var name := Immutable(t, c);
    var secrets := if name in v.secrets then v.secrets else v.secrets[name := Secret(c, false, false)];
    v.(secrets := secrets,
       task := Completed(x, x.status.(oldSecret := x.status.secret, secret := Some(name), content := Some(c))))
  }

  /** Otherwise the mutable secret is kept up to date; a write ends the reconcile early. */
  function TurlUpdatesSecret(v: View, t: Name, c: Content): View {
    var x := v.task;
    var st := x.status;
    var base := Mutable(t);
    var moved := st.secret.Some? && st.secret != Some(base);
    if base !in v.secrets then Stop(v.(secrets := v.secrets[base := Secret(c, false, false)]))
    else if v.secrets[base].content != c then
      Stop(v.(secrets := v.secrets[base := v.secrets[base].(content := c)]))
    else if moved && st.content == Some(c) then v.(task := Completed(x, st))
    else v.(task := Completed(x, st.(oldSecret := if moved then st.secret else None,
                                    secret := Some(base), content := Some(c))))
  }

  function TurlWritesSecret(v: View, t: Name, o: Outcome): View {
    var x := v.task;
    if x.status.oldSecret.Some? then v.(task := Completed(x, x.status))
    else if !o.ok then Stop(v)
    else if x.status.pending.Some? then TurlRotatesSecret(v, t, Content(x.key, o.rest))
    else TurlUpdatesSecret(v, t, Content(x.key, o.rest))
  }

  function TurlChecksConsumer(v: View, o: Outcome): View {
    var former := v.task.status.oldSecret;
    if former.Some? && (!o.ok || Consumed(v.secrets, former)) then Stop(v) else Go(v, CheckNodes)
  }

  function TurlChecksNodes(v: View, o: Outcome): View {
    if !o.ok || v.nodeSets == OutOfSync then Stop(v) else Go(v, Release)
  }

  function TurlCleansSecret(v: View, o: Outcome): View {
    var x := v.task;
    if !o.ok then Stop(v)
    else
      v.(secrets := SweptSecret(v.secrets, x.status.oldSecret),
         task := x.(pc := SweepSecret, status := x.status.(pending := None, oldSecret := None)))
  }

  function TurlSweepsSecret(v: View, o: Outcome): View {
    var x := v.task;
    var former := x.status.oldSecret;
    if former.None? || x.status.pending.Some? || !o.ok || Consumed(v.secrets, former) then Stop(v)
    else
      v.(secrets := SweptSecret(v.secrets, former),
         task := x.(pc := PatchStatus, status := x.status.(oldSecret := None)))
  }

  function TurlDeletesPending(v: View, t: Name, o: Outcome): View {
    if v.task.status.pending.None? then Go(v, DelUser) else TurlReleases(v, t, o, DelSecret)
  }

  function TurlDeletesSecret(v: View, o: Outcome): View {
    var x := v.task;
    if !o.ok then Stop(v)
    else
      v.(secrets := SweptSecret(v.secrets, x.status.oldSecret),
         task := x.(pc := DelUser, status := x.status.(pending := None, oldSecret := None)))
  }

  function TurlAbandonsUser(v: View, t: Name, o: Outcome): View {
    if !o.ok then Stop(v)
    else Go(v.(users := AbandonedUser(v.users, v.task.key, t)), DelVhost)
  }

  function TurlAbandonsVhost(v: View, t: Name, o: Outcome): View {
    match VhostOf(v.task.key)
    case None => Go(v, DelDone)
    case Some(vhost) =>
      if !o.ok then Stop(v) else Go(v.(vhosts := Unfinalize(v.vhosts, vhost, Consumer(t))), DelDone)
  }

  /** The first reconcile only adds the TransportURL's own finalizer. */
  function TurlBegins(v: View): View {
    if v.turl.None? then v else
    var x := v.turl.value;
    if x.deleting then v.(task := TurlTask(DelPending, x.spec, Waits(x), x.status, {}))
    else if !x.guarded then v.(turl := Some(x.(guarded := true)))
    else v.(task := TurlTask(ClaimVhost, x.spec, Waits(x), x.status, {}))
  }

  /** The deferred patch ends every reconcile, successful or not. */
  function TurlPatches(v: View, o: Outcome): View {
    if o.ok && v.turl.Some? then
      v.(turl := Some(v.turl.value.(status := v.task.status)), task := NO_RECONCILE)
    else v.(task := NO_RECONCILE)
  }

  /** The last write of a deletion takes the TransportURL's own finalizer off. */
  function TurlVanishes(v: View, o: Outcome): View {
    if o.ok then v.(turl := None, task := NO_RECONCILE) else v.(task := NO_RECONCILE)
  }

  function TurlWorks(v: View, t: Name, o: Outcome): View {
    match v.task.pc
    case Resting => TurlBegins(v)
    case ClaimVhost => TurlClaimsVhost(v, t, o)
    case ClaimUser => TurlClaimsUser(v, t, o)
    case ReleaseEarlier => TurlReleases(v, t, o, CleanEarlier)
    case CleanEarlier => TurlCleansEarlier(v, o)
    case DropVhost => TurlDropsVhost(v, t, o)
    case DropOrphanVhost => TurlSweepsVhost(v, o)
    case AwaitUser => TurlAwaitsUser(v, o)
    case WriteSecret => TurlWritesSecret(v, t, o)
    case CheckConsumer => TurlChecksConsumer(v, o)
    case CheckNodes => TurlChecksNodes(v, o)
    case Release => TurlReleases(v, t, o, CleanSecret)
    case CleanSecret => TurlCleansSecret(v, o)
    case SweepSecret => TurlSweepsSecret(v, o)
    case PatchStatus => TurlPatches(v, o)
    case DelPending => TurlDeletesPending(v, t, o)
    case DelSecret => TurlDeletesSecret(v, o)
    case DelUser => TurlAbandonsUser(v, t, o)
    case DelVhost => TurlAbandonsVhost(v, t, o)
    case DelDone => TurlVanishes(v, o)
  }

  function See(w: World, t: Name): View {
    View(w.users, w.vhosts, w.secrets, w.nodeSets,
         if t in w.turls then Some(w.turls[t]) else None,
         if t in w.turlTasks then w.turlTasks[t] else NO_RECONCILE)
  }

  function Write(w: World, t: Name, v: View): World {
    w.(users := v.users, vhosts := v.vhosts, secrets := v.secrets,
       turls := if v.turl.Some? then w.turls[t := v.turl.value] else w.turls - {t},
       turlTasks := if v.task.pc.Resting? then w.turlTasks - {t} else w.turlTasks[t := v.task])
  }

  function TurlStep(w: World, t: Name, o: Outcome): World {
    Write(w, t, TurlWorks(See(w, t), t, o))
  }

  // ---------------------------------------------------------------- RabbitMQUser controller

  /** What a step inside a reconcile of one user reads and writes. */
  datatype UserView = UserView(
    users: map<UserKey, User>,
    vhosts: map<VhostKey, Vhost>,
    accounts: set<(Name, Name)>,
    brokerVhosts: set<VhostKey>,
    task: UserTask)

  function UserAt(v: UserView, pc: UserPc): UserView {
    v.(task := v.task.(pc := pc))
  }

  function UserEnds(v: UserView): UserView {
    UserAt(v, Idle)
  }

  function UserGuardsVhost(v: UserView, k: UserKey, o: Outcome, next: UserPc): UserView {
    match VhostOf(k)
    case None => UserAt(v, next)
    case Some(vhost) =>
      if o.ok && CanFinalize(v.vhosts, vhost, UserRef(k.username))
      then UserAt(v.(vhosts := Finalize(v.vhosts, vhost, UserRef(k.username))), next)
      else UserEnds(v)
  }

  /** The orphan path re-reads the user before it deletes it. */
  function UserRereads(v: UserView, k: UserKey, o: Outcome): UserView {
    if o.ok && k in v.users && v.users[k].body.orphaned then UserAt(v, DeleteOrphan) else UserEnds(v)
  }

  function UserDeletesOrphan(v: UserView, k: UserKey, o: Outcome): UserView {
    UserEnds(if o.ok then v.(users := Delete(v.users, k)) else v)
  }

  function UserReadsCredentials(v: UserView, o: Outcome): UserView {
    if o.ok then UserAt(v, Provision) else UserEnds(v)
  }

  function UserProvisions(v: UserView, k: UserKey, o: Outcome): UserView {
    if !o.ok then UserAt(v, PatchUser(false))
    else
      var permitted := VhostOf(k).Some? ==> VhostOf(k).value in v.brokerVhosts;
      UserAt(v.(accounts := v.accounts + {Account(k)}), PatchUser(permitted))
  }

  /** The deferred patch of the status; a permission once granted stays recorded. */
  function PatchedUsers(users: map<UserKey, User>, k: UserKey, granted: bool): map<UserKey, User>
    requires k in users
  {
    var b := users[k].body;
    users[k := users[k].(body := b.(secret := true, tracked := true, provisioned := b.provisioned || granted))]
  }

  function UserPatches(v: UserView, k: UserKey, o: Outcome): UserView
    requires v.task.pc.PatchUser?
  {
    if !o.ok || k !in v.users then UserEnds(v)
    else UserEnds(v.(users := PatchedUsers(v.users, k, v.task.pc.provisioned)))
  }

  function UserLeavesVhost(v: UserView, k: UserKey, o: Outcome): UserView {
    match VhostOf(k)
    case None => UserAt(v, ListUsers)
    case Some(vhost) =>
      if !o.ok then UserEnds(v)
      else if vhost !in v.vhosts then UserAt(v, ListUsers)
      else UserAt(v.(vhosts := Unfinalize(v.vhosts, vhost, UserRef(k.username))), LeaveOrphanVhost)
  }

  function UserSweepsVhost(v: UserView, k: UserKey, o: Outcome): UserView {
    if !o.ok || VhostOf(k).None? then UserEnds(v)
    else UserAt(v.(vhosts := SweptVhost(v.vhosts, VhostOf(k).value)), ListUsers)
  }

  /** Another CR, not being deleted, manages the same broker user. */
  predicate SharedAccount(users: map<UserKey, User>, k: UserKey) {
    exists other :: other in users && other != k && Account(other) == Account(k) && !users[other].deleting
  }

  function UserListsUsers(v: UserView, k: UserKey, o: Outcome): UserView {
    if o.gone then UserAt(v, UnguardUser)
    else if !o.ok then UserEnds(v)
    else if SharedAccount(v.users, k) then UserAt(v, UnguardUser)
    else UserAt(v, DeleteAccount)
  }

  function UserDeletesAccount(v: UserView, k: UserKey, o: Outcome): UserView {
    if !o.ok then UserEnds(v) else UserAt(v.(accounts := v.accounts - {Account(k)}), UnguardUser)
  }

  function UserVanishes(v: UserView, k: UserKey, o: Outcome): UserView {
    UserEnds(if o.ok then v.(users := Unfinalize(v.users, k, Controller)) else v)
  }

  /** Deletion waits for consumers and external controllers; otherwise the user's own
      finalizer comes first and the finalizer on its vhost second. */
  function UserBegins(v: UserView, k: UserKey): UserView {
    if k !in v.users then v else
    var u := v.users[k];
    if u.deleting then
      if HasConsumer(u.finalizers) || HasExternal(u.finalizers) then v
      else v.(task := UserTask(LeaveVhost, u.body.orphaned))
    else if Controller !in u.finalizers then v.(users := Finalize(v.users, k, Controller))
    else v.(task := UserTask(GuardVhost, u.body.orphaned))
  }

  function UserWorks(v: UserView, k: UserKey, o: Outcome): UserView {
    match v.task.pc
    case Idle => UserBegins(v, k)
    case GuardVhost => UserGuardsVhost(v, k, o, if v.task.orphaned then Reread else RegardVhost)
    case Reread => UserRereads(v, k, o)
    case DeleteOrphan => UserDeletesOrphan(v, k, o)
    case RegardVhost => UserGuardsVhost(v, k, o, Credentials)
    case Credentials => UserReadsCredentials(v, o)
    case Provision => UserProvisions(v, k, o)
    case PatchUser(_) => UserPatches(v, k, o)
    case LeaveVhost => UserLeavesVhost(v, k, o)
    case LeaveOrphanVhost => UserSweepsVhost(v, k, o)
    case ListUsers => UserListsUsers(v, k, o)
    case DeleteAccount => UserDeletesAccount(v, k, o)
    case UnguardUser => UserVanishes(v, k, o)
  }

  function SeeUser(w: World, k: UserKey): UserView {
    UserView(w.users, w.vhosts, w.accounts, w.brokerVhosts,
             if k in w.userTasks then w.userTasks[k] else UserTask(Idle, false))
  }

  function WriteUser(w: World, k: UserKey, v: UserView): World {
    w.(users := v.users, vhosts := v.vhosts, accounts := v.accounts,
       userTasks := if v.task.pc.Idle? then w.userTasks - {k} else w.userTasks[k := v.task])
  }

  function UserStep(w: World, k: UserKey, o: Outcome): World {
    WriteUser(w, k, UserWorks(SeeUser(w, k), k, o))
  }

  // ---------------------------------------------------------------- RabbitMQVhost controller

  predicate KnownUsername(users: map<UserKey, User>, name: Name) {
    exists k :: k in users && k.username == name
  }

  /** What one pass over the user finalizers of a deleted vhost decides. */
  datatype Verdict = Blocked | Proceed | Discard(stale: set<Finalizer>)

  function Judge(fs: set<Finalizer>, users: map<UserKey, User>, timedOut: bool): Verdict {
    var refs := set f | f in fs && f.UserRef?;
    if refs == {} then Proceed
    else if !timedOut || exists f :: f in refs && KnownUsername(users, f.username) then Blocked
    else Discard(refs)
  }

  /** What a step inside a reconcile of one vhost reads and writes. */
  datatype VhostView = VhostView(
    users: map<UserKey, User>,
    vhosts: map<VhostKey, Vhost>,
    brokerVhosts: set<VhostKey>,
    pc: VhostPc)

  /** The user list is read after the vhost.  A vhost that changed in between makes the
      removal of stale finalizers fail with a conflict. */
  function VhostInspects(x: VhostView, v: VhostKey, seen: set<Finalizer>, o: Outcome): VhostView {
    match Judge(seen, x.users, o.timedOut)
    case Blocked => x.(pc := NoTask)
    case Discard(stale) =>
      if v in x.vhosts && x.vhosts[v].deleting && x.vhosts[v].finalizers == seen
      then x.(pc := RemoveOrphans(seen, stale))
      else x.(pc := NoTask)
    case Proceed =>
      if o.gone then x.(pc := UnguardVhost(seen))
      else if !o.ok then x.(pc := NoTask)
      else x.(pc := DeleteVhost(seen))
  }

  function VhostDiscards(x: VhostView, v: VhostKey, seen: set<Finalizer>, stale: set<Finalizer>,
                         o: Outcome): VhostView {
    if o.ok && v in x.vhosts && x.vhosts[v].finalizers == seen then
      x.(vhosts := Put(x.vhosts, v, x.vhosts[v].(finalizers := seen - stale)), pc := NoTask)
    else x.(pc := NoTask)
  }

  function VhostDeletes(x: VhostView, v: VhostKey, seen: set<Finalizer>, o: Outcome): VhostView {
    if o.ok then x.(brokerVhosts := x.brokerVhosts - {v}, pc := UnguardVhost(seen)) else x.(pc := NoTask)
  }

  /** The controller's own finalizer comes off the object as read; without it nothing is patched. */
  function VhostVanishes(x: VhostView, v: VhostKey, seen: set<Finalizer>, o: Outcome): VhostView {
    if o.ok && Controller in seen then x.(vhosts := Unfinalize(x.vhosts, v, Controller), pc := NoTask)
    else x.(pc := NoTask)
  }

  function VhostBegins(x: VhostView, v: VhostKey, o: Outcome): VhostView {
    if v !in x.vhosts then x else
    var fs := x.vhosts[v].finalizers;
    if x.vhosts[v].deleting then
      if HasConsumer(fs) then x else x.(pc := Inspect(fs))
    else if Controller !in fs then x.(vhosts := Finalize(x.vhosts, v, Controller))
    else if o.ok then x.(brokerVhosts := x.brokerVhosts + {v})
    else x
  }

  function VhostWorks(x: VhostView, v: VhostKey, o: Outcome): VhostView {
    match x.pc
    case NoTask => VhostBegins(x, v, o)
    case Inspect(seen) => VhostInspects(x, v, seen, o)
    case RemoveOrphans(seen, stale) => VhostDiscards(x, v, seen, stale, o)
    case DeleteVhost(seen) => VhostDeletes(x, v, seen, o)
    case UnguardVhost(seen) => VhostVanishes(x, v, seen, o)
  }

  function SeeVhost(w: World, v: VhostKey): VhostView {
    VhostView(w.users, w.vhosts, w.brokerVhosts, if v in w.vhostTasks then w.vhostTasks[v] else NoTask)
  }

  function WriteVhost(w: World, v: VhostKey, x: VhostView): World {
    w.(vhosts := x.vhosts, brokerVhosts := x.brokerVhosts,
       vhostTasks := if x.pc.NoTask? then w.vhostTasks - {v} else w.vhostTasks[v := x.pc])
  }

  function VhostStep(w: World, v: VhostKey, o: Outcome): World {
    WriteVhost(w, v, VhostWorks(SeeVhost(w, v), v, o))
  }

  // ---------------------------------------------------------------- everybody else

  function Created(turls: map<Name, Turl>, t: Name, key: UserKey, written: bool): map<Name, Turl> {
    if t in turls then turls else turls[t := Turl(key, written, NO_STATUS, false, false)]
  }

  function Edited(turls: map<Name, Turl>, t: Name, key: UserKey, written: bool): map<Name, Turl> {
    if t in turls then turls[t := turls[t].(spec := key, written := written)] else turls
  }

  /** Without its own finalizer a TransportURL is gone at once. */
  function Deleted(turls: map<Name, Turl>, t: Name): map<Name, Turl> {
    if t !in turls then turls
    else if turls[t].guarded then turls[t := turls[t].(deleting := true)]
    else turls - {t}
  }

  /** A consuming service adds or removes its finalizer on a transport secret. */
  function Attached(secrets: map<SecretName, Secret>, s: SecretName, on: bool): map<SecretName, Secret> {
    if s !in secrets || (secrets[s].deleting && on) then secrets
    else if secrets[s].deleting then secrets - {s}
    else secrets[s := secrets[s].(consumed := on)]
  }

  function EnvStep(w: World, s: Step): World
    requires !s.TurlMoves? && !s.UserMoves? && !s.VhostMoves?
  {
    match s
    case CreateTurl(t, key, written) => w.(turls := Created(w.turls, t, key, written))
    case EditSpec(t, key, written) => w.(turls := Edited(w.turls, t, key, written))
    case DeleteTurl(t) => w.(turls := Deleted(w.turls, t))
    case AdminDeletesUser(k) => w.(users := Delete(w.users, k))
    case AdminDeletesVhost(v) => w.(vhosts := Delete(w.vhosts, v))
    case AddExternal(k, id) =>
      if CanFinalize(w.users, k, External(id)) then w.(users := Finalize(w.users, k, External(id))) else w
    case RemoveExternal(k, id) => w.(users := Unfinalize(w.users, k, External(id)))
    case AddVhostExternal(v, id) =>
      if CanFinalize(w.vhosts, v, External(id)) then w.(vhosts := Finalize(w.vhosts, v, External(id))) else w
    case RemoveVhostExternal(v, id) => w.(vhosts := Unfinalize(w.vhosts, v, External(id)))
    case Consume(s, on) => w.(secrets := Attached(w.secrets, s, on))
    case SetNodeSets(n) => w.(nodeSets := n)
  }

  /** One step; a step that is not enabled changes nothing. */
  function Apply(w: World, s: Step): World {
    match s
    case TurlMoves(t, o) => TurlStep(w, t, o)
    case UserMoves(k, o) => UserStep(w, k, o)
    case VhostMoves(v, o) => VhostStep(w, v, o)
    case _ => EnvStep(w, s)
  }

  function Run(w: World, ss: seq<Step>): World
    decreases ss
  {
    if ss == [] then w else Run(Apply(w, ss[0]), ss[1..])
  }
}
