/** The storage-wipe upgrade machine of the RabbitMq controller.

    Phases go None -> DeletingResources -> WaitingForCluster -> None.  A reconcile works on a
    copy of the status, and a deferred patch writes that copy back however the reconcile ends. */
module Upgrade {
  import opened ApiObjects
  import opened Versions

  datatype QueueType = Mirrored | Quorum
  datatype Phase = NoUpgrade | DeletingResources | WaitingForCluster
  datatype Reason = NoWipe | VersionUpgrade | QueueTypeMigration

  datatype Spec = Spec(target: Option<string>, queueType: Option<QueueType>)
  datatype Status = Status(
    current: Option<string>, phase: Phase, reason: Reason, queueType: Option<QueueType>, proxy: bool)

  /** wipe: the version in the script of the wipe-data container, if there is one. */
  datatype StatefulSet = StatefulSet(version: string, wipe: Option<string>, proxy: bool)

  /** reconfigured: the clients-reconfigured annotation is set. */
  datatype Cluster = Cluster(spec: Spec, status: Status, reconfigured: bool, sts: Option<StatefulSet>)

  const DEFAULT_VERSION: string := "4.2"
  const ADOPTED_VERSION: string := "3.9"

  /** How the calls of one reconcile go; every combination is possible. */
  datatype Fate = Fate(
    readable: bool,       // the StatefulSet can be looked up before the version is initialised
    cleared: bool,        // the patch that clears ProxyRequired lands
    consumed: bool,       // the patch that removes the annotation lands
    prepared: bool,       // the work before the phase switch succeeds
    provided: bool,       // secrets, config maps and services are in place
    peeked: bool,         // the StatefulSet can be looked up for its wipe-data container
    gone: bool,           // the API server carries out the deletion
    deleted: bool,        // the delete step reports success
    stored: bool,         // the API server carries out the StatefulSet write
    written: bool,        // the write reports success
    ready: bool,          // all replicas are ready
    tailed: bool,         // disruption budget and per-pod services are in place
    policed: bool,        // the mirroring policy can be changed
    lands: bool)          // the status patch lands

  // ---------------------------------------------------------------- the pieces of a reconcile

  function InitialVersion(spec: Spec, adopted: bool): string {
    if adopted then ADOPTED_VERSION else if spec.target.Some? then spec.target.value else DEFAULT_VERSION
  }

  /** Is a wipe due?  None: the versions cannot be compared. */
  function WipeDue(spec: Spec, st: Status): Option<Reason>
    requires st.current.Some?
  {
    var version := if spec.target.Some? then RequiresStorageWipe(st.current.value, spec.target.value) else Some(false);
    if version.None? then None
    else if version.value then Some(VersionUpgrade)
    else if spec.queueType == Some(Quorum) && st.queueType == Some(Mirrored) then Some(QueueTypeMigration)
    else Some(NoWipe)
  }

  function ConfigVersion(spec: Spec, st: Status): string
    requires st.current.Some?
  {
    if spec.target.Some? then spec.target.value else st.current.value
  }

  /** The StatefulSet a reconcile asks for; an existing wipe-data container is preserved. */
  function Template(spec: Spec, st: Status, existing: Option<StatefulSet>): StatefulSet
    requires st.current.Some?
  {
    var v := ConfigVersion(spec, st);
    var wipe := !st.phase.NoUpgrade? || (existing.Some? && existing.value.wipe.Some?);
    StatefulSet(v, if wipe && ValidVersion(v) then Some(v) else None, st.proxy)
  }

  predicate NeedsProxy(spec: Spec, st: Status) {
    && spec.queueType == Some(Quorum)
    && ((spec.target.Some? && st.current.Some? && Is3xTo4x(st.current.value, spec.target.value))
        || st.reason.QueueTypeMigration?)
  }

  /** The status after the StatefulSet has been deleted for the wipe. */
  function Deleted(spec: Spec, st: Status): Status {
    st.(proxy := st.proxy || NeedsProxy(spec, st),
        queueType := if spec.queueType.Some? then spec.queueType else st.queueType,
        phase := WaitingForCluster)
  }

  function Completed(spec: Spec, st: Status): Status {
    if st.phase.WaitingForCluster?
    then st.(phase := NoUpgrade, reason := NoWipe, current := if spec.target.Some? then spec.target else st.current)
    else st
  }

  /** Status.QueueType follows the spec; a mirroring policy that cannot be changed stops it. */
  function Synced(spec: Spec, st: Status, policed: bool): Status {
    if spec.queueType.None? || spec.queueType == st.queueType then st
    else if !policed && (spec.queueType.value.Mirrored? || st.queueType == Some(Mirrored)) then st
    else st.(queueType := spec.queueType)
  }

  function Ready(spec: Spec, st: Status, f: Fate): Status {
    if !f.ready then st
    else if !f.tailed then Completed(spec, st)
    else Synced(spec, Completed(spec, st), f.policed)
  }

  /** The work under the deferred patch: the status to be written and the StatefulSet. */
  function Worked(c: Cluster, st: Status, wipe: bool, f: Fate): (Status, Option<StatefulSet>)
    requires st.current.Some?
  {
    if !f.prepared then (st, c.sts)
    else if wipe && st.phase.NoUpgrade? then (st.(phase := DeletingResources), c.sts)
    else if !f.provided then (st, c.sts)
    else if wipe && st.phase.DeletingResources? then
      if f.deleted then (Deleted(c.spec, st), None) else (st, if f.gone then None else c.sts)
    else
      var wanted := Some(Template(c.spec, st, if f.peeked then c.sts else None));
      if f.written then (Ready(c.spec, st, f), wanted)
      else (st, if f.stored then wanted else c.sts)
  }

  function Reconciled(c: Cluster, f: Fate): Cluster {
    var st := c.status;
    if st.current.None? then
      if !f.lands || !f.readable then c
      else c.(status := st.(current := Some(InitialVersion(c.spec, c.sts.Some?))))
    else if st.phase.NoUpgrade? && WipeDue(c.spec, st).None? then c
    else
      var due := if st.phase.NoUpgrade? then WipeDue(c.spec, st).value else st.reason;
      var wipe := !st.phase.NoUpgrade? || !due.NoWipe?;
      if c.reconfigured then
        if !f.cleared then c else c.(status := st.(proxy := false), reconfigured := !f.consumed)
      else
        var started := if wipe then st.(reason := due) else st;
        var (written, sts) := Worked(c, started, wipe, f);
        c.(status := if f.lands then written else st, sts := sts)
  }

  // ---------------------------------------------------------------- the controller's own code

  class Reconciler {
    var spec: Spec
    var status: Status
    var reconfigured: bool
    var sts: Option<StatefulSet>

    constructor (c: Cluster)
      ensures Value() == c
    {
      spec, status, reconfigured, sts := c.spec, c.status, c.reconfigured, c.sts;
    }

    function Value(): Cluster
      reads this
    {
      Cluster(spec, status, reconfigured, sts)
    }

    method InitialiseVersion(f: Fate)
      requires status.current.None?
      modifies this`status
      ensures Value() == Reconciled(old(Value()), f)
    {
      var version := DEFAULT_VERSION;
      if !f.readable {
        return;
      }
      if sts.Some? {
        version := ADOPTED_VERSION;
      } else if spec.target.Some? {
        version := spec.target.value;
      }
      if f.lands {
        status := status.(current := Some(version));
      }
    }

    /** Queue-type bookkeeping once the cluster is ready. */
    method Finish(st0: Status, f: Fate) returns (st: Status)
      requires f.ready
      ensures st == Ready(spec, st0, f)
    {
      st := st0;
      if st.phase.WaitingForCluster? {
        st := st.(phase := NoUpgrade, reason := NoWipe);
        if spec.target.Some? {
          st := st.(current := spec.target);
        }
      }
      if !f.tailed {
        return;
      }
      if spec.queueType.Some? {
        assert spec.queueType.value.Mirrored? || spec.queueType.value.Quorum?;
        if spec.queueType == Some(Mirrored) && st.queueType != Some(Mirrored) {
          if !f.policed {
            return;
          }
          st := st.(queueType := Some(Mirrored));
        } else if spec.queueType != Some(Mirrored) && st.queueType == Some(Mirrored) {
          if !f.policed {
            return;
          }
        }
        if spec.queueType == Some(Quorum) && st.queueType != Some(Quorum) {
          st := st.(queueType := Some(Quorum));
        }
      }
    }

    /** Everything under the deferred patch, on the in-memory status. */
    method Work(st0: Status, wipe: bool, f: Fate) returns (st: Status)
      requires st0.current.Some?
      modifies this`sts
      ensures (st, sts) == Worked(old(Value()), st0, wipe, f)
    {
      st := st0;
      if !f.prepared {
        return;
      }
      if wipe && st.phase.NoUpgrade? {
        st := st.(phase := DeletingResources);
        return;
      }
      if !f.provided {
        return;
      }
      if wipe && st.phase.DeletingResources? {
        if f.gone || f.deleted {
          sts := None;
        }
        if !f.deleted {
          return;
        }
        if !st.proxy && NeedsProxy(spec, st) {
          st := st.(proxy := true);
        }
        if spec.queueType.Some? && st.queueType != spec.queueType {
          st := st.(queueType := spec.queueType);
        }
        st := st.(phase := WaitingForCluster);
        return;
      }
      var wanted := Template(spec, st, if f.peeked then sts else None);
      if f.stored || f.written {
        sts := Some(wanted);
      }
      if f.written && f.ready {
        st := Finish(st, f);
      }
    }

    method Reconcile(f: Fate)
      modifies this
      ensures Value() == Reconciled(old(Value()), f)
    {
      if status.current.None? {
        InitialiseVersion(f);
        return;
      }
      var st := status;
      var wipe := true;
      if st.phase.NoUpgrade? {
        var due := WipeDue(spec, st);
        if due.None? {
          return;
        }
        wipe := !due.value.NoWipe?;
        if wipe {
          st := st.(reason := due.value);
        }
      }
      if reconfigured {
        if f.cleared {
          status := status.(proxy := false);
          reconfigured := !f.consumed;
        }
        return;
      }
      st := Work(st, wipe, f);
      if f.lands {
        status := st;
      }
    }
  }
}
