/** The controllers' own code on one object: finalizer lists edited in place, labels, and the
    loops that scan them.  Each method is tied to the atomic write of `Protocol` it performs. */
module ControllerCode {
  import opened ApiObjects
  import opened Protocol

  /** A user object as read from the API server, edited and then written back. */
  class UserObject {
    var finalizers: seq<Finalizer>
    var deleting: bool
    var body: UserBody

    constructor (finalizers: seq<Finalizer>, deleting: bool, body: UserBody)
      ensures this.finalizers == finalizers && this.deleting == deleting && this.body == body
    {
      this.finalizers, this.deleting, this.body := finalizers, deleting, body;
    }

    function Value(): User
      reads this
    {
      Obj(Elements(finalizers), deleting, body)
    }

    method AddFinalizer(f: Finalizer) returns (updated: bool)
      modifies this`finalizers
      ensures Elements(finalizers) == old(Elements(finalizers)) + {f}
      ensures updated <==> f !in old(finalizers)
    {
      updated := f !in finalizers;
      if updated {
        finalizers := finalizers + [f];
      }
      assert Elements(finalizers) == old(Elements(finalizers)) + {f};
    }

    method RemoveFinalizer(f: Finalizer) returns (updated: bool)
      modifies this`finalizers
      ensures Elements(finalizers) == old(Elements(finalizers)) - {f}
      ensures updated <==> f in old(finalizers)
    {
      var kept: seq<Finalizer> := [];
      updated := false;
      for i := 0 to |finalizers|
        invariant forall g :: g in kept <==> g in finalizers[..i] && g != f
        invariant updated <==> f in finalizers[..i]
      {
        if finalizers[i] != f {
          kept := kept + [finalizers[i]];
        } else {
          updated := true;
        }
      }
      finalizers := kept;
      assert Elements(kept) == old(Elements(finalizers)) - {f};
    }

    method HasConsumers() returns (found: bool)
      ensures found <==> HasConsumer(Elements(finalizers))
    {
      found := false;
      for i := 0 to |finalizers|
        invariant !found && forall f :: f in finalizers[..i] ==> !f.Consumer?
      {
        if finalizers[i].Consumer? {
          assert finalizers[i] in Elements(finalizers);
          return true;
        }
      }
    }

    /** The mutation under CreateOrUpdate: take the user and clear its orphaned label. */
    method Claim(t: Name)
      modifies this
      ensures forall users: map<UserKey, User>, k ::
                k in users && users[k] == old(Value()) && CanFinalize(users, k, Consumer(t)) ==>
                  ClaimedUser(users, k, t) == Some(users[k := Value()])
    {
      var _ := AddFinalizer(Consumer(t));
      body := body.(orphaned := false);
    }

    /** releaseUserFinalizer; the update is skipped only when there is nothing to write. */
    method Release(t: Name) returns (updated: bool)
      modifies this
      ensures forall users: map<UserKey, User>, k :: k in users && users[k] == old(Value()) ==>
                ReleasedUser(users, k, t) == Put(users, k, Value())
      ensures !updated ==> Value() == old(Value())
    {
      updated := RemoveFinalizer(Consumer(t));
      if !deleting {
        var consumers := HasConsumers();
        if !consumers && !body.orphaned {
          body := body.(orphaned := true);
          updated := true;
        }
      }
      assert old(Elements(finalizers)) - {Consumer(t)} == old(Elements(finalizers)) || updated;
    }

    /** The release of a deleted TransportURL also clears a label that no longer holds. */
    method Abandon(t: Name) returns (updated: bool)
      modifies this
      ensures forall users: map<UserKey, User>, k :: k in users && users[k] == old(Value()) ==>
                AbandonedUser(users, k, t) == Put(users, k, Value())
      ensures !updated ==> Value() == old(Value())
    {
      updated := RemoveFinalizer(Consumer(t));
      if !deleting {
        var consumers := HasConsumers();
        if !consumers && !body.orphaned {
          body := body.(orphaned := true);
          updated := true;
        } else if consumers && body.orphaned {
          body := body.(orphaned := false);
          updated := true;
        }
      }
      assert old(Elements(finalizers)) - {Consumer(t)} == old(Elements(finalizers)) || updated;
    }

    /** May the controller start to tear the user down?  First consumers, then strangers. */
    method DeletionBlocked() returns (blocked: bool, externals: seq<Finalizer>)
      ensures blocked <==> HasConsumer(Elements(finalizers)) || HasExternal(Elements(finalizers))
      ensures blocked && !HasConsumer(Elements(finalizers)) ==>
                Elements(externals) == set f | f in finalizers && f.External?
    {
      externals := [];
      var consumers := HasConsumers();
      if consumers {
        return true, [];
      }
      for i := 0 to |finalizers|
        invariant forall f :: f in externals <==> f in finalizers[..i] && f.External?
      {
        if finalizers[i].External? {
          externals := externals + [finalizers[i]];
        }
      }
      blocked := |externals| > 0;
      if blocked {
        assert finalizers[..|finalizers|] == finalizers && externals[0] in externals;
        assert externals[0] in Elements(finalizers);
      }
    }
  }

  /** One entry of the list of all users that a controller asks the API server for. */
  datatype ListedUser = ListedUser(key: UserKey, deleting: bool)

  /** The list call returns every user, in any order. */
  ghost predicate Lists(list: seq<ListedUser>, users: map<UserKey, User>) {
    && (forall u :: u in list ==> u.key in users && u.deleting == users[u.key].deleting)
    && (forall k :: k in users ==> exists u :: u in list && u.key == k)
  }

  /** The user controller's check that no other CR manages the same broker user. */
  method SkipAccountDelete(list: seq<ListedUser>, k: UserKey, ghost users: map<UserKey, User>) returns (skip: bool)
    requires Lists(list, users)
    ensures skip <==> SharedAccount(users, k)
  {
    skip := false;
    for i := 0 to |list|
      invariant !skip
      invariant forall u :: u in list[..i] ==> u.key == k || Account(u.key) != Account(k) || u.deleting
    {
      if list[i].key != k && Account(list[i].key) == Account(k) && !list[i].deleting {
        return true;
      }
    }
    forall other | other in users && other != k && Account(other) == Account(k)
      ensures users[other].deleting
    {
      var u :| u in list && u.key == other;
    }
  }

  method UsersByUsername(list: seq<ListedUser>) returns (index: map<Name, seq<ListedUser>>)
    ensures forall name :: name in index ==> index[name] != []
    ensures forall name, u :: name in index && u in index[name] ==> u in list && u.key.username == name
    ensures forall u :: u in list ==> u.key.username in index && u in index[u.key.username]
  {
    index := map[];
    for i := 0 to |list|
      invariant forall name :: name in index ==> index[name] != []
      invariant forall name, u :: name in index && u in index[name] ==> u in list[..i] && u.key.username == name
      invariant forall u :: u in list[..i] ==> u.key.username in index && u in index[u.key.username]
    {
      assert list[..i + 1] == list[..i] + [list[i]];
      var name := list[i].key.username;
      index := index[name := (if name in index then index[name] else []) + [list[i]]];
    }
  }

  /** The pass over the user finalizers of a vhost that is being deleted. */
  method JudgeVhost(fs: seq<Finalizer>, list: seq<ListedUser>, timedOut: bool, ghost users: map<UserKey, User>)
    returns (blocked: bool, stale: seq<Finalizer>)
    requires Lists(list, users)
    ensures Judge(Elements(fs), users, timedOut) ==
              if blocked then Blocked else if stale == [] then Proceed else Discard(Elements(stale))
  {
    var index := UsersByUsername(list);
    stale := [];
    blocked := false;
    ghost var refs := set f | f in Elements(fs) && f.UserRef?;
    for i := 0 to |fs|
      invariant !blocked
      invariant forall f :: f in stale <==> f in fs[..i] && f.UserRef?
      invariant stale != [] ==> timedOut
      invariant forall f :: f in stale ==> !KnownUsername(users, f.username)
    {
      if fs[i].UserRef? {
        assert fs[i] in refs;
        if fs[i].username in index {
          assert index[fs[i].username][0] in list;
          assert KnownUsername(users, fs[i].username);
          return true, stale;
        }
        assert !KnownUsername(users, fs[i].username);
        if !timedOut {
          return true, stale;
        }
        stale := stale + [fs[i]];
      }
    }
    assert fs[..|fs|] == fs;
    assert Elements(stale) == refs;
    if stale != [] {
      assert stale[0] in refs;
    }
  }

  /** Drop the stale finalizers of a vhost, one after the other, for a single update. */
  method RemoveStale(fs: seq<Finalizer>, stale: seq<Finalizer>) returns (kept: seq<Finalizer>)
    ensures Elements(kept) == Elements(fs) - Elements(stale)
  {
    kept := fs;
    for i := 0 to |stale|
      invariant forall f :: f in kept <==> f in fs && f !in stale[..i]
    {
      var rest: seq<Finalizer> := [];
      for j := 0 to |kept|
        invariant forall f :: f in rest <==> f in kept[..j] && f != stale[i]
      {
        if kept[j] != stale[i] {
          rest := rest + [kept[j]];
        }
      }
      assert kept[..|kept|] == kept && stale[..i + 1] == stale[..i] + [stale[i]];
      kept := rest;
    }
    assert stale[..|stale|] == stale;
  }

  /** The scan before a shared CR is deleted for want of consumers; `SweptVhost` acts on it. */
  method Unreferenced(fs: seq<Finalizer>) returns (free: bool)
    ensures free <==> !HasConsumer(Elements(fs)) && !HasUserRef(Elements(fs))
  {
    for i := 0 to |fs|
      invariant forall f :: f in fs[..i] ==> !f.Consumer? && !f.UserRef?
    {
      if fs[i].Consumer? || fs[i].UserRef? {
        assert fs[i] in Elements(fs);
        return false;
      }
    }
    return true;
  }
}
