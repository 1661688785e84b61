/** The one way a release can find no new credentials: a rotation adopts a secret that an earlier
    rotation left behind half deleted.  A reachable run in which that happens. */
module Leftovers {
  import opened ApiObjects
  import opened Protocol
  import opened Footprints
  import opened References
  import opened Reconcile
  import opened Histories
  import opened Witnesses
  import Rotation

  const GOOD := Call(true, 0)

  // ---------------------------------------------------------------- a rotation step by step

  /** `t` has rotated to x and its spec names y. */
  function Spec(t: Name, x: UserKey, y: UserKey): Turl {
    Turl(y, false, Moved(t, x), true, false)
  }

  function OnlyHolds(t: Name, x: UserKey, y: UserKey): map<UserKey, User> {
    map[x := Ready(t, true), y := Freed()]
  }

  function Early(t: Name, x: UserKey, y: UserKey, secrets: map<SecretName, Secret>, i: nat): View
    requires i <= 5
  {
    var st := if i < 3 then Moved(t, x) else Moved(t, x).(pending := Some(x));
    var pc := [Resting, ClaimVhost, ClaimUser, DropVhost, AwaitUser, WriteSecret][i];
    View(if i < 3 then OnlyHolds(t, x, y) else Both(t, x, y), map[], secrets, Absent, Some(Spec(t, x, y)),
         if i == 0 then NO_RECONCILE else TurlTask(pc, y, false, st, {}))
  }

  /** y is published in a secret of its own, beside x. */
  function Late(t: Name, x: UserKey, y: UserKey, secrets: map<SecretName, Secret>, pc: TurlPc): View {
    var st := TurlStatus(Some(y), Some(x), None, Some(NewSecret(t, y, 0)), Some(NewSecret(t, x, 0)),
                         Some(Content(y, 0)));
    View(Both(t, x, y), map[], secrets, Absent, Some(Spec(t, x, y)), TurlTask(pc, y, false, st, {}))
  }

  lemma EarlyNext(t: Name, x: UserKey, y: UserKey, secrets: map<SecretName, Secret>, i: nat)
    requires Pair(x, y) && i < 5
    ensures TurlWorks(Early(t, x, y, secrets, i), t, GOOD) == Early(t, x, y, secrets, i + 1)
  {
    if i == 2 {
      assert {Controller} + {Consumer(t)} == {Consumer(t), Controller};
      assert ClaimedUser(OnlyHolds(t, x, y), y, t).value == Both(t, x, y);
    }
  }

  function WithNew(secrets: map<SecretName, Secret>, t: Name, y: UserKey): map<SecretName, Secret> {
    if NewSecret(t, y, 0) in secrets then secrets
    else secrets[NewSecret(t, y, 0) := Secret(Content(y, 0), false, false)]
  }

  lemma WriteNext(t: Name, x: UserKey, y: UserKey, secrets: map<SecretName, Secret>)
    requires Pair(x, y)
    ensures TurlWorks(Early(t, x, y, secrets, 5), t, GOOD) == Late(t, x, y, WithNew(secrets, t, y), CheckConsumer)
  {
  }

  lemma CheckNext(t: Name, x: UserKey, y: UserKey, secrets: map<SecretName, Secret>)
    requires !Consumed(secrets, Some(NewSecret(t, x, 0)))
    ensures TurlWorks(Late(t, x, y, secrets, CheckConsumer), t, GOOD) == Late(t, x, y, secrets, CheckNodes)
    ensures TurlWorks(Late(t, x, y, secrets, CheckNodes), t, GOOD) == Late(t, x, y, secrets, Release)
  {
  }

  function Releasing(t: Name, x: UserKey, y: UserKey, secrets: map<SecretName, Secret>): View {
    var v := Late(t, x, y, secrets, CleanSecret);
    v.(users := map[x := Freed(), y := Ready(t, true)], task := v.task.(released := {x}))
  }

  lemma ReleaseNext(t: Name, x: UserKey, y: UserKey, secrets: map<SecretName, Secret>)
    requires Pair(x, y)
    ensures TurlWorks(Late(t, x, y, secrets, Release), t, GOOD) == Releasing(t, x, y, secrets)
  {
    FreedUsers(t, x, y);
    assert {} + {x} == {x};
  }

  // ---------------------------------------------------------------- how the leftover comes about

  lemma LeadsTurl(a: World, w: World, t: Name, v: View)
    requires Leads(a, ANYTHING, Write(w, t, v)) && Tidy(v) && v.nodeSets == w.nodeSets
    ensures Leads(a, ANYTHING, Write(w, t, TurlWorks(v, t, GOOD)))
  {
    LeadsStep(a, ANYTHING, Write(w, t, v), TurlMoves(t, GOOD));
    SeeWrite(w, t, v);
    WriteTwice(w, t, v, TurlWorks(v, t, GOOD));
  }

  lemma LeadsRest(a: World, w: World, t: Name, v: View)
    requires Leads(a, ANYTHING, Write(w, t, v)) && Tidy(v) && v.nodeSets == w.nodeSets
    ensures Leads(a, ANYTHING, Write(w, t, Rest(v, t, All(0))))
  {
    RestRuns(w, v, t, All(0));
    LeadsRun(a, ANYTHING, Write(w, t, v), Moves(v, t, All(0)));
  }

  lemma {:induction false} LeadsEarly(w: World, t: Name, x: UserKey, y: UserKey, secrets: map<SecretName, Secret>,
                                      i: nat)
    requires Pair(x, y) && i <= 5 && w.nodeSets == Absent &&
             Leads(EMPTY, ANYTHING, Write(w, t, Early(t, x, y, secrets, 0)))
    ensures Leads(EMPTY, ANYTHING, Write(w, t, Early(t, x, y, secrets, i)))
    decreases i
  {
    if i > 0 {
      LeadsEarly(w, t, x, y, secrets, i - 1);
      EarlyNext(t, x, y, secrets, i - 1);
      LeadsTurl(EMPTY, w, t, Early(t, x, y, secrets, i - 1));
    }
  }

  function Single(t: Name, x: UserKey, used: bool, deleting: bool): map<SecretName, Secret> {
    map[NewSecret(t, x, 0) := Secret(Content(x, 0), used, deleting)]
  }

  /** The secrets of both users, the first left behind by a rotation. */
  function Half(t: Name, x: UserKey, y: UserKey, used: bool, deleting: bool): map<SecretName, Secret> {
    Single(t, x, used, deleting)[NewSecret(t, y, 0) := Secret(Content(y, 0), false, false)]
  }

  function Start(t: Name, x: UserKey, y: UserKey, secrets: map<SecretName, Secret>): World {
    Sole(t, Spec(t, x, y), OnlyHolds(t, x, y), secrets, {Account(x), Account(y)})
  }

  lemma WritesStart(t: Name, x: UserKey, y: UserKey, secrets: map<SecretName, Secret>)
    ensures Write(Start(t, x, y, secrets), t, Early(t, x, y, secrets, 0)) == Start(t, x, y, secrets)
  {
    WriteSee(Start(t, x, y, secrets), t);
  }

  lemma LeadsToRelease(t: Name, x: UserKey, y: UserKey)
    requires Pair(x, y) && Reachable(Start(t, x, y, Single(t, x, false, false)))
    ensures Reachable(Write(Start(t, x, y, Single(t, x, false, false)), t,
                            Releasing(t, x, y, Half(t, x, y, false, false))))
  {
    var w := Start(t, x, y, Single(t, x, false, false));
    var secrets := Half(t, x, y, false, false);
    WritesStart(t, x, y, Single(t, x, false, false));
    LeadsEarly(w, t, x, y, Single(t, x, false, false), 5);
    WriteNext(t, x, y, Single(t, x, false, false));
    LeadsTurl(EMPTY, w, t, Early(t, x, y, Single(t, x, false, false), 5));
    CheckNext(t, x, y, secrets);
    LeadsTurl(EMPTY, w, t, Late(t, x, y, secrets, CheckConsumer));
    LeadsTurl(EMPTY, w, t, Late(t, x, y, secrets, CheckNodes));
    ReleaseNext(t, x, y, secrets);
    LeadsTurl(EMPTY, w, t, Late(t, x, y, secrets, Release));
  }

  lemma ConsumeCommutes(w: World, t: Name, v: View, s: SecretName, on: bool)
    ensures Apply(Write(w, t, v), Consume(s, on)) == Write(w, t, v.(secrets := Attached(v.secrets, s, on)))
  {
  }

  /** What a reconcile leaves that finds its old secret in use only when it removes it. */
  function Cleaned(t: Name, x: UserKey, y: UserKey): View {
    SoleView(Turl(y, false, Moved(t, y), true, false), map[x := Freed(), y := Ready(t, true)],
             Half(t, x, y, true, true))
  }

  lemma CleansHalf(t: Name, x: UserKey, y: UserKey)
    requires Pair(x, y)
    ensures Rest(Releasing(t, x, y, Half(t, x, y, true, false)), t, All(0)) == Cleaned(t, x, y)
  {
    FromClean(Releasing(t, x, y, Half(t, x, y, true, false)), t, All(0));
    assert SweptSecret(Half(t, x, y, true, false), Some(NewSecret(t, x, 0))) == Half(t, x, y, true, true);
  }

  /** A consumer comes back to the old secret between its check and its removal. */
  lemma HalfDeleted(t: Name, x: UserKey, y: UserKey)
    requires Pair(x, y) && Reachable(Start(t, x, y, Single(t, x, false, false)))
    ensures Reachable(Sole(t, Turl(y, false, Moved(t, y), true, false), map[x := Freed(), y := Ready(t, true)],
                           Half(t, x, y, true, true), {Account(x), Account(y)}))
  {
    var w := Start(t, x, y, Single(t, x, false, false));
    var v := Releasing(t, x, y, Half(t, x, y, false, false));
    var n := Releasing(t, x, y, Half(t, x, y, true, false));
    LeadsToRelease(t, x, y);
    LeadsStep(EMPTY, ANYTHING, Write(w, t, v), Consume(NewSecret(t, x, 0), true));
    assert Attached(Half(t, x, y, false, false), NewSecret(t, x, 0), true) == Half(t, x, y, true, false);
    ConsumeCommutes(w, t, v, NewSecret(t, x, 0), true);
    LeadsRest(EMPTY, w, t, n);
    CleansHalf(t, x, y);
    WritesSole(t, Spec(t, x, y), OnlyHolds(t, x, y), Single(t, x, false, false), {Account(x), Account(y)},
               Cleaned(t, x, y));
  }

  /** `t` holds a, its spec names b, and a secret of b is half deleted. */
  lemma LeftoverReachable(t: Name, a: UserKey, b: UserKey)
    requires Pair(a, b)
    ensures Reachable(Start(t, a, b, Half(t, b, a, true, true)))
  {
    RotationDone(t, a, b);
    Edits(t, Turl(b, false, Moved(t, b), true, false), map[a := Freed(), b := Ready(t, true)],
          Single(t, b, false, false), {Account(a), Account(b)}, a);
    assert map[a := Freed(), b := Ready(t, true)] == OnlyHolds(t, b, a) &&
           {Account(a), Account(b)} == {Account(b), Account(a)};
    HalfDeleted(t, b, a);
    assert map[b := Freed(), a := Ready(t, true)] == OnlyHolds(t, a, b);
    Edits(t, Turl(a, false, Moved(t, a), true, false), OnlyHolds(t, a, b), Half(t, b, a, true, true),
          {Account(a), Account(b)}, b);
  }

  // ---------------------------------------------------------------- the release without new credentials

  /** The reconcile adopts the half-deleted secret, its consumer leaves, the reconcile goes on. */
  function Course(t: Name, b: UserKey): seq<Step> {
    var go := TurlMoves(t, GOOD);
    [go, go, go, go, go, go, Consume(NewSecret(t, b, 0), false), go, go, go]
  }

  function Stage(t: Name, a: UserKey, b: UserKey, i: nat): View
    requires i <= 9
  {
    var before, after := Half(t, b, a, true, true), Single(t, a, false, false);
    if i <= 5 then Early(t, a, b, before, i)
    else if i == 6 then Late(t, a, b, before, CheckConsumer)
    else Late(t, a, b, after, [CheckConsumer, CheckNodes, Release][i - 7])
  }

  lemma StageNext(t: Name, a: UserKey, b: UserKey, i: nat)
    requires Pair(a, b) && i < 9
    ensures var w := Start(t, a, b, Half(t, b, a, true, true));
            Apply(Write(w, t, Stage(t, a, b, i)), Course(t, b)[i]) == Write(w, t, Stage(t, a, b, i + 1))
  {
    var w := Start(t, a, b, Half(t, b, a, true, true));
    var before, after := Half(t, b, a, true, true), Single(t, a, false, false);
    var v, n := Stage(t, a, b, i), Stage(t, a, b, i + 1);
    if i == 6 {
      assert Attached(before, NewSecret(t, b, 0), false) == after;
    } else {
      SeeWrite(w, t, v);
      if i < 5 {
        EarlyNext(t, a, b, before, i);
      } else if i == 5 {
        WriteNext(t, a, b, before);
      } else {
        CheckNext(t, a, b, after);
      }
      WriteTwice(w, t, v, n);
    }
  }

  lemma {:induction false} StageAt(t: Name, a: UserKey, b: UserKey, i: nat)
    requires Pair(a, b) && i <= 9
    ensures var w := Start(t, a, b, Half(t, b, a, true, true));
            At(w, Course(t, b), i) == Write(w, t, Stage(t, a, b, i))
    decreases i
  {
    var w := Start(t, a, b, Half(t, b, a, true, true));
    if i == 0 {
      WritesStart(t, a, b, Half(t, b, a, true, true));
      assert Course(t, b)[..0] == [];
    } else {
      StageAt(t, a, b, i - 1);
      StageNext(t, a, b, i - 1);
      RunNext(w, Course(t, b), i - 1);
    }
  }

  lemma StageHolds(t: Name, a: UserKey, b: UserKey, i: nat)
    requires Pair(a, b) && i <= 9
    ensures Claimed(Stage(t, a, b, i).users, t, a)
  {
  }

  lemma LeftoverReady(t: Name, a: UserKey, b: UserKey)
    requires Pair(a, b)
    ensures Rotation.Ready(Start(t, a, b, Half(t, b, a, true, true)), Rotation.Handing(t, a, b, NewSecret(t, a, 0)))
  {
  }

  /** Step d of the run lets go of the old user while no secret holds the new one's credentials. */
  ghost predicate ReleasesBare(w: World, ss: seq<Step>, h: Rotation.Handing, d: nat) {
    && Rotation.Ready(w, h) && Rotation.SteadyRun(ss, h) && d < |ss|
    && Rotation.HeldUntil(w, ss, h, d) && !Claimed(At(w, ss, d + 1).users, h.t, h.a)
    && forall s :: s in At(w, ss, d).secrets ==> At(w, ss, d).secrets[s].content.user != h.b
  }

  lemma ReleaseWithoutSecret(t: Name, a: UserKey, b: UserKey)
    requires Pair(a, b)
    ensures exists w: World, ss: seq<Step>, first: SecretName, d: nat ::
              Reachable(w) && ReleasesBare(w, ss, Rotation.Handing(t, a, b, first), d)
  {
    var w, ss := Start(t, a, b, Half(t, b, a, true, true)), Course(t, b);
    var h := Rotation.Handing(t, a, b, NewSecret(t, a, 0));
    LeftoverReachable(t, a, b);
    LeftoverReady(t, a, b);
    forall i: nat | i <= 9
      ensures Claimed(At(w, ss, i).users, t, a)
    {
      StageAt(t, a, b, i);
      StageHolds(t, a, b, i);
    }
    StageAt(t, a, b, 9);
    LastStep(t, a, b);
    assert Rotation.HeldUntil(w, ss, h, 9);
    assert At(w, ss, 9).secrets == Single(t, a, false, false);
    assert ReleasesBare(w, ss, Rotation.Handing(t, a, b, NewSecret(t, a, 0)), 9);
  }

  lemma LastStep(t: Name, a: UserKey, b: UserKey)
    requires Pair(a, b)
    ensures var w := Start(t, a, b, Half(t, b, a, true, true)); !Claimed(At(w, Course(t, b), 10).users, t, a)
  {
    var w := Start(t, a, b, Half(t, b, a, true, true));
    var v := Stage(t, a, b, 9);
    StageAt(t, a, b, 9);
    RunNext(w, Course(t, b), 9);
    SeeWrite(w, t, v);
    ReleaseNext(t, a, b, Single(t, a, false, false));
  }
}
