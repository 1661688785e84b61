/** Objects with finalizers and the three rules of the API server they live in:
    a write replaces one object atomically, an object that is being deleted gains
    no new finalizer, and it vanishes as soon as its last finalizer is gone. */
module ApiObjects {

  datatype Option<+T> = None | Some(value: T)

  function Elements<T(==)>(s: seq<T>): set<T> {
    set x | x in s
  }

  /** Names of objects, users and clusters: only compared with each other. */
  type Name = nat

  /** The finalizer names the RabbitMQ controllers put on shared objects. */
  datatype Finalizer =
    | Consumer(turl: Name)      // turl.openstack.org/t-<TransportURL>
    | UserRef(username: Name)   // rmquser.openstack.org/u-<username>, on vhosts only
    | Controller                  // the object's own controller
    | External(id: Name)        // anything the RabbitMQ controllers do not manage

  datatype Obj<+S> = Obj(finalizers: set<Finalizer>, deleting: bool, body: S)

  predicate HasFin<K, S>(m: map<K, Obj<S>>, k: K, f: Finalizer) {
    k in m && f in m[k].finalizers
  }

  predicate HasConsumer(fs: set<Finalizer>) {
    exists f :: f in fs && f.Consumer?
  }

  predicate HasUserRef(fs: set<Finalizer>) {
    exists f :: f in fs && f.UserRef?
  }

  predicate HasExternal(fs: set<Finalizer>) {
    exists f :: f in fs && f.External?
  }

  /** Write `o` under `k`; the server drops it when it is deleting and bare. */
  function Put<K, S>(m: map<K, Obj<S>>, k: K, o: Obj<S>): map<K, Obj<S>> {
    if o.deleting && o.finalizers == {} then m - {k} else m[k := o]
  }

  /** May an update leave finalizer `f` on the object `k`? */
  predicate CanFinalize<K, S>(m: map<K, Obj<S>>, k: K, f: Finalizer) {
    k in m && (m[k].deleting ==> f in m[k].finalizers)
  }

  function Finalize<K, S>(m: map<K, Obj<S>>, k: K, f: Finalizer): map<K, Obj<S>>
    requires CanFinalize(m, k, f)
  {
    m[k := m[k].(finalizers := m[k].finalizers + {f})]
  }

  function Unfinalize<K, S>(m: map<K, Obj<S>>, k: K, f: Finalizer): map<K, Obj<S>> {
    if k in m then Put(m, k, m[k].(finalizers := m[k].finalizers - {f})) else m
  }

  /** A Delete call: finalizers turn it into a deletion mark. */
  function Delete<K, S>(m: map<K, Obj<S>>, k: K): map<K, Obj<S>> {
    if k in m then Put(m, k, m[k].(deleting := true)) else m
  }
}
