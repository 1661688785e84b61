/** The texts behind `Finalizer`: which names the controllers build and how they tell them apart. */
module FinalizerNames {

  const CONSUMER_PREFIX: string := "turl.openstack.org/t-"
  const USER_PREFIX: string := "rmquser.openstack.org/u-"
  const USER_FINALIZER: string := "rabbitmquser.rabbitmq.openstack.org/finalizer"
  const USER_CONTROLLER_FINALIZER: string := "rabbitmquser.openstack.org/finalizer"
  const LEGACY_FINALIZER: string := "transporturl.rabbitmq.openstack.org/finalizer"
  const CLEANUP_FINALIZER: string := "rabbitmq.openstack.org/cleanup-blocked"

  /** Kubernetes allows 63 characters after the slash; two of them are "t-". */
  const MAX_DIRECT: nat := 61
  const HASH_LENGTH: nat := 8

  /** A hash abbreviated to eight characters; nothing else is known about it. */
  ghost predicate Abbreviates(hash: string -> string) {
    forall s :: |hash(s)| == HASH_LENGTH
  }

  /** TransportURLFinalizerFor. */
  function FinalizerFor(name: string, hash: string -> string): string {
    if |name| <= MAX_DIRECT then CONSUMER_PREFIX + name
    else CONSUMER_PREFIX + name[..MAX_DIRECT - HASH_LENGTH] + hash(name)
  }

  function Segment(name: string, hash: string -> string): string {
    if |name| <= MAX_DIRECT then name else name[..MAX_DIRECT - HASH_LENGTH] + hash(name)
  }

  /** Two TransportURLs share a finalizer exactly when they are the same, when both are long and
      agree on the kept part and the hash, or when a name of full length happens to spell the
      shortened form of a long one. */
  lemma SharedFinalizer(a: string, b: string, hash: string -> string)
    requires Abbreviates(hash)
    ensures FinalizerFor(a, hash) == FinalizerFor(b, hash) <==>
              || a == b
              || (|a| > MAX_DIRECT && |b| > MAX_DIRECT
                  && a[..MAX_DIRECT - HASH_LENGTH] == b[..MAX_DIRECT - HASH_LENGTH] && hash(a) == hash(b))
              || (|a| == MAX_DIRECT < |b| && a == Segment(b, hash))
              || (|b| == MAX_DIRECT < |a| && b == Segment(a, hash))
  {
    assert FinalizerFor(a, hash) == CONSUMER_PREFIX + Segment(a, hash);
    assert FinalizerFor(b, hash) == CONSUMER_PREFIX + Segment(b, hash);
    assert (CONSUMER_PREFIX + Segment(a, hash))[|CONSUMER_PREFIX|..] == Segment(a, hash);
    assert (CONSUMER_PREFIX + Segment(b, hash))[|CONSUMER_PREFIX|..] == Segment(b, hash);
    if |a| > MAX_DIRECT && |b| > MAX_DIRECT && Segment(a, hash) == Segment(b, hash) {
      var n := MAX_DIRECT - HASH_LENGTH;
      assert Segment(a, hash)[..n] == a[..n] && Segment(b, hash)[..n] == b[..n];
      assert Segment(a, hash)[n..] == hash(a) && Segment(b, hash)[n..] == hash(b);
    }
  }

  /** What follows the slash keeps within the 63 characters that Kubernetes allows. */
  lemma SegmentFits(name: string, hash: string -> string)
    requires Abbreviates(hash)
    ensures "turl.openstack.org/" <= FinalizerFor(name, hash)
    ensures |FinalizerFor(name, hash)| <= |"turl.openstack.org/"| + 63
  {
  }

  predicate IsConsumer(f: string) {
    CONSUMER_PREFIX <= f
  }

  predicate IsUserRef(f: string) {
    |f| > |USER_PREFIX| && USER_PREFIX <= f
  }

  predicate IsInternal(f: string) {
    || f == USER_FINALIZER || f == LEGACY_FINALIZER || f == USER_CONTROLLER_FINALIZER || f == CLEANUP_FINALIZER
    || IsConsumer(f) || USER_PREFIX <= f
  }

  /** The prefix tests recognise what was built and never confuse the kinds. */
  lemma KindsDisjoint(name: string, hash: string -> string, f: string)
    ensures IsConsumer(FinalizerFor(name, hash)) && !IsUserRef(FinalizerFor(name, hash))
    ensures name != "" ==> IsUserRef(USER_PREFIX + name) && !IsConsumer(USER_PREFIX + name)
    ensures !(IsConsumer(f) && IsUserRef(f))
    ensures !IsConsumer(USER_CONTROLLER_FINALIZER) && !IsUserRef(USER_CONTROLLER_FINALIZER)
    ensures IsInternal(FinalizerFor(name, hash)) && IsInternal(USER_PREFIX + name) &&
            IsInternal(USER_CONTROLLER_FINALIZER)
  {
    assert CONSUMER_PREFIX[0] == 't' && USER_PREFIX[0] == 'r';
    assert IsConsumer(f) ==> f[0] == CONSUMER_PREFIX[0];
    assert IsUserRef(f) ==> f[0] == USER_PREFIX[0];
    assert (USER_PREFIX + name)[0] == 'r' && FinalizerFor(name, hash)[0] == 't';
    assert USER_CONTROLLER_FINALIZER[1] == 'a' && USER_PREFIX[1] == 'm';
  }
}
