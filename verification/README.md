# Verified model of the infra-operator's protocols

This project models three parts of an OpenStack infrastructure operator and proves what every
run of them keeps. All of it is one Dafny project: `dafny verify dfyconfig.toml`.

**1. Shared RabbitMQ users and vhosts.** TransportURLs claim shared user and vhost CRs with one
finalizer each, users put a finalizer on their vhost, orphaned users are labelled by one controller
and deleted by another, and a change of credentials hands over between two users and two secrets.
`Protocol` is a machine whose atomic steps are the single API-server or broker writes of the
TransportURL, RabbitMQUser and RabbitMQVhost controllers. A reconcile is a task with a program
counter; steps of other controllers, administrators and consuming services fall between any two of
its steps, every call may fail and every status write may be lost. `Run` applies an arbitrary
sequence of steps; a step that is not enabled changes nothing. `ControllerCode` holds the
controllers' own loops and in-place edits on one object, each tied to the write of `Protocol` it
performs; `FinalizerNames` the finalizer texts behind the datatype `Finalizer`.

- `UserSafety`, `FinalizerSafety`, `VhostExternals`, `Timeouts`, `Removals`: the orphan label and what is
  deleted for it, broker accounts and the safety check before one is deleted, the vhost chain, how a
  user's finalizer leaves a vhost, and what a removal does on the broker, over every run.
- `References`, `Published`, `DefaultVhost`: the reference invariant, and end to end: published
  credentials exist on the broker, with the exact condition for the vhost "/".
- `Rotation`: the old user is held until a safe release, over every run.
- `Reconcile`: a whole undisturbed reconcile as one function, with the claims it leaves; `Publication`: a
  change reaches the published secret; `Progress`: undisturbed controllers complete a rotation and
  remove orphans and unreferenced vhosts.
- `Traps`: where the code falls short, each time with the exact condition on the stored object.
  `Histories` builds runs a reconcile at a time; `Witnesses`, `Leftovers` and `Races` are runs from an
  empty API server that end in each of the traps.

**2. The storage-wipe upgrade of RabbitMq.** `Upgrade` has the reconcile as a class that mutates
its fields, proved equal to a function of the old state and of how each call went; `UpgradeSafety`
has admission and the theorems over runs; `Volume` the wipe script command by command on one
volume, with crashes; `Rollout` runs both together; `Versions` the version texts.

**3. IP address management.** `Addresses` and `Ipam` have first-fit allocation (the class of the
source with its loops), `NetAdmission` the two webhooks, `Reservations` the IPSet reconciler and
the runs, `SubnetSafety`, `FixedAddresses` and `Readiness` the invariants.

`TransportUrl` proves that a transport URL text determines what it was built from.

How to read the models:

- Names are numbers (`Name`): the code only compares them. A shared CR is named after its cluster,
  vhost and username, so its key stands for its hashed canonical name, which is taken to be free of
  collisions. Network and subnet names stand for their case-folded form.
- A write that the API server would refuse for a changed resource version is a failed call.
- A merge patch of a reconciler's own finalizers is one atomic write.
- `Whole` is one reconcile of a TransportURL from start to end with nobody in between; `Smooth` outcomes
  have every call but perhaps the final patch succeed, and `Unhindered` says that no consumer of the
  secrets it leaves and no NodeSet holds it up.
- `Outcome` and `Fate` collect how the calls of a step or reconcile go; theorems hold for all of them.

## Model

| member | source | states |
|---|---|---|
| UserSafety.OrphanLabelTheorem | internal/controller/rabbitmq/transporturl_controller.go:1098-1137 | in every state of every run a user with the orphaned label has no consumer finalizer |
| FinalizerSafety.VhostChainTheorem | internal/controller/rabbitmq/rabbitmqvhost_controller.go:200-378 | in every run, external finalizers included, a step that takes a vhost off the broker happens only when each user whose status names it is being deleted and held by no TransportURL, provided the deletion was decided on an object with the controller's own finalizer |
| VhostExternals.PlainChainTheorem | internal/controller/rabbitmq/rabbitmqvhost_controller.go:197-381 | without external finalizers on vhosts that proviso always holds, so the chain needs none |
| Races.VhostChainNeedsOwnFinalizer | internal/controller/rabbitmq/rabbitmqvhost_controller.go:197-226 | the proviso is needed: for every vhost a run, from a start in which an external finalizer holds its deletion up, in which that finalizer leaves late, the vhost is recreated and used, and the stale deletion takes it off the broker |
| UserSafety.AccountTheorem | internal/controller/rabbitmq/rabbitmquser_controller.go:463-678 | in every run a step that deletes a broker user belongs to a CR that is being deleted and has no consumer finalizer |
| UserSafety.ReclaimRaceTheorem | internal/controller/rabbitmq/rabbitmquser_controller.go:653-678 | what the safety check buys: when a broker user is deleted, an earlier step of the same removal listed all users and found no other undeleted CR of the account, so a held CR that loses its broker user was missing or being deleted at that step |
| UserSafety.NoRaceTheorem | internal/controller/rabbitmq/rabbitmquser_controller.go:214-237 | so with one CR per account no held CR ever loses its broker user |
| UserSafety.OrphanDeletionTheorem | internal/controller/rabbitmq/rabbitmquser_controller.go:214-237 | in every run a user is deleted only by an administrator, or by its own controller after an earlier step of the same reconcile read it again and found it labelled and without consumer |
| Removals.UserRemovalTheorem | internal/controller/rabbitmq/rabbitmquser_controller.go:650-703 | in every run a user loses its controller's finalizer, and so leaves the API server, only by its own removal, after an earlier step of it deleted the broker user, found the cluster gone or found another undeleted CR of the same cluster and username |
| Removals.VhostRemovalTheorem | internal/controller/rabbitmq/rabbitmqvhost_controller.go:308-381 | in every run a vhost loses its controller's finalizer, and so leaves the API server, only by its own removal, decided on an object with it, after an earlier step deleted the vhost from the broker or found the cluster gone |
| Races.TwinLosesAccount | internal/controller/rabbitmq/rabbitmquser_controller.go:653-678 | with two it happens: a reachable state in which the next step deletes the broker user of a CR that is held, provisioned and not being deleted |
| FinalizerSafety.RunKeeps | internal/controller/rabbitmq/rabbitmquser_controller.go:131-181 | the whole finalizer invariant (shape, labels, claims, running reconciles, user-to-vhost chain) survives every run |
| FinalizerSafety.StepKeeps | internal/controller/rabbitmq/transporturl_controller.go:184-389 | every single step of any controller, administrator or consumer keeps the invariant |
| FinalizerSafety.TurlKeeps | internal/controller/rabbitmq/transporturl_controller.go:285-645 | every write of a TransportURL reconcile keeps it |
| FinalizerSafety.UserKeeps | internal/controller/rabbitmq/rabbitmquser_controller.go:146-178 | every write of a user reconcile keeps it, including the two-phase finalizers and the re-read before an orphan is deleted |
| FinalizerSafety.VhostKeeps | internal/controller/rabbitmq/rabbitmqvhost_controller.go:197-381 | every write of a vhost reconcile keeps it, including the removal of timed-out finalizers decided on a stale list |
| FinalizerSafety.ClaimUserKeeps | internal/controller/rabbitmq/transporturl_controller.go:313-344 | claiming a user, also one about to be deleted, keeps it, because the claimer holds the vhost |
| FinalizerSafety.ProceedMeans | internal/controller/rabbitmq/rabbitmqvhost_controller.go:236-293 | the deletion proceeds if and only if no user finalizer is on the vhost |
| Timeouts.TimeoutTheorem | internal/controller/rabbitmq/rabbitmqvhost_controller.go:236-306 | in every run a user's finalizer leaves a vhost only by the removal of a deleted, unheld user CR of that name there, or after an earlier step that found the timeout over and no CR of that name |
| Footprints.BrokerVhostStays | internal/controller/rabbitmq/rabbitmqvhost_controller.go:372-376 | nothing but the vhost's own delete call takes it off the broker |
| Footprints.AccountStays | internal/controller/rabbitmq/rabbitmquser_controller.go:671-678 | nothing but the delete call of a CR of that account takes the account off the broker |
| Footprints.FailedTurlCall | internal/controller/rabbitmq/transporturl_controller.go:1145-1163 | a failed call of a TransportURL reconcile writes nothing and ends it, but for its final patch |
| Footprints.FailedUserCall | internal/controller/rabbitmq/rabbitmquser_controller.go:525-703 | a failed call of a user reconcile writes nothing and ends it; only a user the broker refuses still gets its status |
| Footprints.FailedVhostCall | internal/controller/rabbitmq/rabbitmqvhost_controller.go:236-381 | a failed call of a vhost reconcile writes nothing and ends it |
| References.OwnStepRef | internal/controller/rabbitmq/transporturl_controller.go:355-645 | each step of a TransportURL's own reconcile keeps its claims consistent with its in-memory and stored status |
| References.TurlWorksNeutral | internal/controller/rabbitmq/transporturl_controller.go:1098-1137 | a step of one TransportURL neither gives nor takes another one's claim, and its own only on the user it acts on |
| References.UserWorksNeutral | internal/controller/rabbitmq/rabbitmquser_controller.go:183-703 | no step of the user controller gives or takes a consumer's claim or breaks working credentials |
| References.StepRefs | internal/controller/rabbitmq/transporturl_controller.go:95-181 | every benign step of anybody keeps the reference invariant of all TransportURLs |
| References.RunRefs | internal/controller/rabbitmq/transporturl_controller.go:359-374 | so does every run, double rotations included |
| Published.ReferenceTheorem | internal/controller/rabbitmq/transporturl_controller.go:313-344 | between two reconciles the finalizer of a live TransportURL is on the user its stored status names, and that user has credentials, and its permissions if it is in a vhost of its own or the TransportURL always writes its vhost out |
| Published.StepAccounts | internal/controller/rabbitmq/rabbitmquser_controller.go:653-678 | with one CR per account, a user recorded as provisioned and in use has its account on the broker, after every step |
| Published.StepVhosts | internal/controller/rabbitmq/rabbitmquser_controller.go:430-446 | a user recorded as provisioned and in use has its vhost on the broker, after every step |
| Published.PublishedCredentialsWork | internal/controller/rabbitmq/transporturl_controller.go:595-598 | end to end: the user a live TransportURL publishes is held, its account exists on the broker and so does its vhost, in a vhost of its own or in "/" written out |
| Published.UnadornedDeletes | internal/controller/rabbitmq/rabbitmqvhost_controller.go:197-381 | in every run without external finalizers on vhosts each vhost deletion is decided on the controller's own finalizer, so that the end-to-end theorem needs no hypothesis about it |
| DefaultVhost.WorksExactly | internal/controller/rabbitmq/transporturl_controller.go:408-414 | published credentials work in every such run if and only if the vhost is not "/" or the spec writes it out, because only then the controller waits for the user's vhost |
| DefaultVhost.PublishedWithoutAccount | internal/controller/rabbitmq/transporturl_controller.go:403-410 | for every user in "/" a run with the vhost unset in which the broker refuses the user and it is published without an account |
| Rotation.OwnerWorks | internal/controller/rabbitmq/transporturl_controller.go:519-590 | through every step the status of a TransportURL names only its own secrets and carries the hash of the immutable one it names |
| Rotation.CompletedPublishes | internal/controller/rabbitmq/transporturl_controller.go:523-598 | a reconcile that gets past its secret publishes a secret with the credentials of the user it claimed, unless an earlier secret awaits clean-up |
| Publication.PublicationTheorem | internal/controller/rabbitmq/transporturl_controller.go:523-598 | from every state without a rotation under way, whatever the secrets hold, two undisturbed reconciles for the same cluster end with the spec's user and its current content published; without a change of user the first brings the mutable secret up to date |
| Publication.PublishingStays | internal/controller/rabbitmq/transporturl_controller.go:541-593 | what is published stays published while spec and cluster stay the same |
| Publication.LingeringRemoved | internal/controller/rabbitmq/transporturl_controller.go:624-645 | an old secret without a rotation is removed by the first reconcile that finds it unused |
| Rotation.HandoverWorks | internal/controller/rabbitmq/transporturl_controller.go:519-622 | each step of the rotating reconcile keeps the handover going, or is the release |
| Rotation.HandingStep | internal/controller/rabbitmq/transporturl_controller.go:355-374 | no step of anybody disturbs a handover or drops the old user before the release |
| Rotation.NamesTheorem | internal/controller/rabbitmq/transporturl_controller.go:715-745 | in every run from the start statuses name only their own secrets and immutable secrets hold what their names say |
| Rotation.OthersSecrets | internal/controller/rabbitmq/transporturl_controller.go:756-784 | a TransportURL never touches another one's transport secrets |
| Rotation.ConsumerChecked | internal/controller/rabbitmq/transporturl_controller.go:1058-1074 | a reconcile past its consumer check has an earlier step of the run that saw the old secret without consumer |
| Rotation.NodesChecked | internal/controller/rabbitmq/transporturl_controller.go:1075-1091 | a reconcile at its release has an earlier step that saw NodeSets absent or in sync |
| Rotation.IssueDecided | internal/controller/rabbitmq/transporturl_controller.go:740-748 | whether the secret with the new credentials is there to stay was decided by the last step that published it: if and only if that step did not find a secret of that name already being deleted |
| Rotation.ReleaseIsSafe | internal/controller/rabbitmq/transporturl_controller.go:1145-1163 | when the old user is first dropped both checks of the same reconcile lie behind, and the new credentials are there to stay if and only if the publishing step did not adopt a half-deleted secret |
| Rotation.ReleaseFindsSecret | internal/controller/rabbitmq/transporturl_controller.go:740-748 | without leftovers of earlier rotations to the new user the release always finds the new credentials |
| Leftovers.ReleaseWithoutSecret | internal/controller/rabbitmq/transporturl_controller.go:740-748 | a reachable rotation that adopts a half-deleted secret and lets go of the old user while no secret holds the new credentials |
| Rotation.RotationTheorem | internal/controller/rabbitmq/transporturl_controller.go:611-622 | in every run, whatever fails or is lost, the old user is held in every state up to such a safe release |
| Progress.RotationCompletes | internal/controller/rabbitmq/transporturl_controller.go:359-389 | one undisturbed reconcile, also to another vhost, publishes and holds the new user, releases and labels the old one and removes the old secret; a vhost that is left loses exactly this finalizer and is deleted if no reference is left |
| Progress.OrphanRemoved | internal/controller/rabbitmq/rabbitmquser_controller.go:525-703 | an undisturbed orphan leaves the API server, the broker unless another CR manages its account or the cluster is gone, and its vhost, which is deleted if no reference is left; every other vhost and finalizer stays |
| Progress.OrphanVhostRemoved | internal/controller/rabbitmq/rabbitmquser_controller.go:544-559 | if nobody else references the orphan's vhost, the vhost goes too, from API server and broker |
| Progress.VhostRemoved | internal/controller/rabbitmq/rabbitmqvhost_controller.go:308-381 | an unreferenced deleted vhost is gone from the API server after four steps at most, and from the broker if the cluster is still there |
| Progress.StaleVhostRemoved | internal/controller/rabbitmq/rabbitmqvhost_controller.go:236-306 | finalizers of users that no longer exist hold a deleted vhost up before the timeout; after it they are discarded and the vhost goes |
| Reconcile.ClaimsExactly | internal/controller/rabbitmq/transporturl_controller.go:359-622 | after a whole reconcile whose calls succeed, with nothing holding it up, the TransportURL's finalizers are exactly on its spec's user and the users it held, without the one it remembered and the one it replaces |
| Reconcile.WholeRuns | internal/controller/rabbitmq/transporturl_controller.go:84-181 | such a reconcile is a run of the machine, whatever its outcomes |
| Reconcile.DeletionDeserts | internal/controller/rabbitmq/transporturl_controller.go:794-880 | a deletion whose calls succeed ends with the TransportURL gone and exactly the remembered and the spec's user released |
| Reconcile.DeletionLeaves | internal/controller/rabbitmq/transporturl_controller.go:800-875 | it takes the finalizer off the spec's vhost and leaves every other vhost and finalizer alone, and removes or marks the old secret of a rotation it interrupts |
| Traps.LostPatchExactly | internal/controller/rabbitmq/transporturl_controller.go:131-151 | if the status write of such a reconcile is lost, the stored user is still held if and only if it is the spec's user and not the remembered one |
| Witnesses.LostPatchBreaks | internal/controller/rabbitmq/transporturl_controller.go:1145-1163 | a reachable rotation whose lost status write leaves the stored status naming a user without the finalizer |
| Traps.RotateBackExactly | internal/controller/rabbitmq/transporturl_controller.go:359-374 | a whole reconcile whose calls all succeed ends with its published user held if and only if the user it remembered at its start is not the spec's |
| Witnesses.RotateBackBreaks | internal/controller/rabbitmq/transporturl_controller.go:362-366 | a reachable state, B published and A remembered, from which rotating back to A ends with A published and not held although every call succeeds |
| Witnesses.GivingUpBreaks | internal/controller/rabbitmq/transporturl_controller.go:611-616 | another one: a rotation given up before it published |
| Traps.NewSecretExactly | internal/controller/rabbitmq/transporturl_controller.go:523-593 | a whole rotation ends with the new user's credentials in the published secret if and only if no earlier secret awaits clean-up or an earlier rotation that goes first cleans it up |
| Witnesses.OldCredentialsPublished | internal/controller/rabbitmq/transporturl_controller.go:592-598 | a reachable rotation that ends with the new user in the status, the old user's credentials in the secret and the old user let go |
| Traps.LeakExactly | internal/controller/rabbitmq/transporturl_controller.go:794-880 | a complete deletion leaves the finalizer on a user if and only if it was there and neither the spec nor the remembered user names it |
| Witnesses.DeletionLeaks | internal/controller/rabbitmq/transporturl_controller.go:812-818 | a reachable case: the spec moves on and the TransportURL is deleted before it reconciles |
| ControllerCode.UserObject.AddFinalizer | internal/controller/rabbitmq/transporturl_controller.go:322 | the list afterwards has exactly the old elements and the new one; reports whether it was absent |
| ControllerCode.UserObject.RemoveFinalizer | internal/controller/rabbitmq/transporturl_controller.go:1109 | the list afterwards has exactly the other elements; reports whether it was present |
| ControllerCode.UserObject.HasConsumers | internal/controller/rabbitmq/transporturl_controller.go:1112-1118 | the scan is true if and only if a consumer finalizer is there |
| ControllerCode.UserObject.Claim | internal/controller/rabbitmq/transporturl_controller.go:321-344 | writing the edited object back is the claim of the machine |
| ControllerCode.UserObject.Release | internal/controller/rabbitmq/transporturl_controller.go:1109-1134 | writing it back is the release of the machine, and the update is skipped only when nothing changed |
| ControllerCode.UserObject.Abandon | internal/controller/rabbitmq/transporturl_controller.go:820-856 | the same for the release of a deleted TransportURL |
| ControllerCode.UserObject.DeletionBlocked | internal/controller/rabbitmq/rabbitmquser_controller.go:478-523 | deletion waits if and only if a consumer or an external finalizer is left; the external ones are listed exactly |
| ControllerCode.SkipAccountDelete | internal/controller/rabbitmq/rabbitmquser_controller.go:653-669 | true if and only if another undeleted CR has the same cluster and username |
| ControllerCode.UsersByUsername | internal/controller/rabbitmq/rabbitmqvhost_controller.go:228-234 | the index has every listed user under its own username and nothing else |
| ControllerCode.JudgeVhost | internal/controller/rabbitmq/rabbitmqvhost_controller.go:238-293 | one pass over the list decides as the machine does: wait, discard exactly the stale finalizers, or proceed |
| ControllerCode.RemoveStale | internal/controller/rabbitmq/rabbitmqvhost_controller.go:296-300 | exactly the stale finalizers are dropped |
| ControllerCode.Unreferenced | internal/controller/rabbitmq/transporturl_controller.go:1024-1032 | true if and only if neither a consumer nor a user finalizer is there |
| FinalizerNames.SharedFinalizer | apis/rabbitmq/v1beta1/conditions.go:80-90 | exactly when two TransportURL names share a finalizer; a 61-character name can spell the shortened form of a longer one |
| FinalizerNames.SegmentFits | apis/rabbitmq/v1beta1/conditions.go:46-53 | what follows the slash stays within 63 characters |
| FinalizerNames.KindsDisjoint | apis/rabbitmq/v1beta1/rabbitmquser_types.go:181-188 | the prefix tests recognise the names built and never confuse the kinds |
| Versions.ParseShow | apis/rabbitmq/v1beta1/version.go:31-58 | parsing a version written as text gives it back |
| Versions.PatternParses | apis/rabbitmq/v1beta1/version.go:31-58 | an admitted text parses to its numbers, and fails only when one is out of range |
| Versions.ValidMatches | internal/rabbitmq/cluster.go:31-81 | deciding the pattern on the parts agrees with the regular expression |
| Versions.WipeExactly | internal/rabbitmq/cluster.go:53-68 | for all versions: going from one to the other wipes the storage if and only if the major or the minor number changes |
| Versions.OrderExactly | apis/rabbitmq/v1beta1/rabbitmq_webhook.go:271-273 | for all versions: the order of the texts is the order of the numbers, component by component |
| Upgrade.Reconciler.InitialiseVersion | internal/controller/rabbitmq/rabbitmq_controller.go:183-207 | 3.9 for an adopted StatefulSet, else the target or 4.2, as the specification says |
| Upgrade.Reconciler.Finish | internal/controller/rabbitmq/rabbitmq_controller.go:870-995 | completion of an upgrade and queue-type bookkeeping |
| Upgrade.Reconciler.Work | internal/controller/rabbitmq/rabbitmq_controller.go:484-888 | phase switch, delete step and StatefulSet write on the in-memory status |
| Upgrade.Reconciler.Reconcile | internal/controller/rabbitmq/rabbitmq_controller.go:146-995 | the new object, status and StatefulSet are the specified function of the old ones and of how the calls went |
| UpgradeSafety.ValidateVersionChange | apis/rabbitmq/v1beta1/rabbitmq_webhook.go:238-284 | no error if and only if there is nothing to compare with, or both parse and the target is not below it |
| UpgradeSafety.AdmissionExactly | apis/rabbitmq/v1beta1/rabbitmq_webhook.go:238-284 | for all versions: a new target is admitted if and only if its numbers, compared one by one, do not go back |
| UpgradeSafety.Forced | apis/rabbitmq/v1beta1/rabbitmq_webhook.go:152-161 | the forced spec is one the queue-type validation accepts, and an acceptable spec is left alone |
| UpgradeSafety.MirroredExactly | apis/rabbitmq/v1beta1/rabbitmq_webhook.go:152-161 | for all versions: mirrored queues are acceptable with a target if and only if its major number is below 4 |
| UpgradeSafety.Defaulted | apis/rabbitmq/v1beta1/rabbitmq_webhook.go:59-114 | defaulting an update always sets an acceptable queue type, keeps the target and an acceptable queue type of the spec, and otherwise says where the queue type comes from |
| UpgradeSafety.VersionTheorem | internal/controller/rabbitmq/rabbitmq_controller.go:876-888 | over every run the numbers of the current version never go back and never pass those of the target |
| UpgradeSafety.AdoptionExactly | internal/controller/rabbitmq/rabbitmq_controller.go:183-201 | adopting a cluster keeps that order if and only if the target is unset or not below 3.9 |
| UpgradeSafety.FrozenTheorem | internal/controller/rabbitmq/rabbitmq_controller.go:209-237 | with the spec frozen the rank never rises, at most one wipe begins, and a finished upgrade never deletes the StatefulSet again |
| UpgradeSafety.SettledExactly | internal/controller/rabbitmq/rabbitmq_controller.go:870-888 | the rank never rises with the spec frozen if and only if the queue type was brought up to date before the wait; otherwise a second wipe becomes due |
| UpgradeSafety.UpgradeWipesExactly | internal/controller/rabbitmq/rabbitmq_controller.go:484-491 | for all versions: with the spec frozen and no migration due, reconciles ever delete the StatefulSet, and begin the one wipe, if and only if the target differs in the major or the minor number |
| UpgradeSafety.MigrationWipes | internal/controller/rabbitmq/rabbitmq_controller.go:209-237 | a migration to quorum queues without a change of version wipes as well, records its reason and asks for the proxy |
| UpgradeSafety.FirstVersion | internal/controller/rabbitmq/rabbitmq_controller.go:183-207 | a new cluster starts at its target and needs no wipe; one taken over is wiped if and only if its target is not a 3.9 |
| UpgradeSafety.DefaultVersion | internal/controller/rabbitmq/rabbitmq_controller.go:195-201 | without a target a new cluster starts at 4.2 |
| UpgradeSafety.UpgradeFinishes | internal/controller/rabbitmq/rabbitmq_controller.go:870-888 | a finished upgrade has the target as its running version, no pending reason and a StatefulSet of that version |
| UpgradeSafety.SteadyFollows | internal/controller/rabbitmq/rabbitmq_controller.go:900-995 | a good reconcile of a steady cluster brings queue type, version and proxy to what spec and status ask for |
| UpgradeSafety.PolicyExactly | internal/controller/rabbitmq/rabbitmq_controller.go:900-995 | if the mirroring policy cannot be changed, the recorded queue type moves if and only if no mirrored queues are involved |
| UpgradeSafety.UnpreparedKeeps | internal/controller/rabbitmq/rabbitmq_controller.go:484-491 | a reconcile whose preparations fail writes nothing but the reason of the wipe it found due |
| UpgradeSafety.UnreportedWrite | internal/controller/rabbitmq/rabbitmq_controller.go:795-869 | a StatefulSet write that takes effect but reports an error leaves what a reported one would, and the upgrade goes on as if it had not been made |
| UpgradeSafety.ConvergenceTheorem | internal/controller/rabbitmq/rabbitmq_controller.go:484-491 | however many reconciles fail in between, as many good ones as the rank says finish the upgrade |
| UpgradeSafety.WipeStep | internal/controller/rabbitmq/rabbitmq_controller.go:506-524 | one reconcile: nothing is written while deleting, and no existing StatefulSet gains the wipe-data container |
| UpgradeSafety.NoPartialWipeTheorem | internal/controller/rabbitmq/rabbitmq_controller.go:693-769 | over every run the container enters a StatefulSet only at its creation while waiting for the cluster |
| UpgradeSafety.MigrationCovers | internal/controller/rabbitmq/rabbitmq_controller.go:739-768 | the delete step of a migration to quorum queues leaves the proxy required and no StatefulSet without it |
| UpgradeSafety.ProxyExactly | internal/controller/rabbitmq/rabbitmq_controller.go:739-768 | for all versions: the delete step asks for the proxy if and only if it was asked for, or quorum queues come with a move from 3.x to 4.x or a migration |
| UpgradeSafety.ProxyTheorem | internal/controller/rabbitmq/proxy.go:180-187 | from then on every StatefulSet has the proxy until a reconcile's patch carries out the annotation |
| UpgradeSafety.ProxyEnds | internal/controller/rabbitmq/proxy.go:180-187 | two good reconciles after the annotation the request, the annotation and the proxy are gone |
| UpgradeSafety.PatchBumpExactly | internal/controller/rabbitmq/rabbitmq_controller.go:510-524 | a steady reconcile re-arms the wipe script if and only if the StatefulSet still has the container for another version |
| UpgradeSafety.ContainerKept | internal/controller/rabbitmq/rabbitmq_controller.go:510-524 | a steady reconcile keeps the wipe-data container if and only if it finds one |
| Rollout.PatchBumpLosesData | internal/controller/rabbitmq/rabbitmq_controller.go:510-524 | operator and volume together: a version change that asks for no wipe loses the data of a volume at the next restart if and only if the StatefulSet still has the container for another version |
| Rollout.OneWipeTheorem | internal/rabbitmq/statefulset.go:481-484 | operator and volume together: what is on a volume after its wipe survives every reconcile, crash and restart of that upgrade |
| Rollout.WipeTheorem | internal/rabbitmq/statefulset.go:471-492 | operator and volume together: every server that comes up after the deletion for an upgrade finds its volume wiped for it |
| Rollout.WipingStarts | internal/controller/rabbitmq/rabbitmq_controller.go:693-769 | the delete step starts such a course once the old pod is down |
| UpgradeSafety.PatchBumpWipes | internal/controller/rabbitmq/rabbitmq_controller.go:510-524 | a concrete case: 4.2 to 4.2.1 needs no wipe and gets one |
| Volume.DataDirectory.Wipe | internal/rabbitmq/statefulset.go:477-492 | the script cut off after any number of commands and in the midst of the next removal; with the marker present nothing changes |
| Volume.WipeRemoves | internal/rabbitmq/statefulset.go:486-489 | a complete run leaves the marker and, of the old files, only names that start with two dots |
| Volume.InterruptedWipe | internal/rabbitmq/statefulset.go:481-489 | a script that died anywhere, also half way through a removal, and is started again leaves the same names as one that did not |
| Volume.OneMarkerTheorem | internal/rabbitmq/statefulset.go:479-489 | a volume never holds two markers, whatever crashes when |
| Volume.WipedOnceTheorem | internal/rabbitmq/statefulset.go:481-484 | what a server under a template for v stored survives every crash and restart under v, or without the container, until the server changes it |
| Volume.ServingMeansWiped | internal/rabbitmq/statefulset.go:471-492 | a server that comes up under a template for v finds the marker for v |
| Volume.OtherVersionWipes | internal/rabbitmq/statefulset.go:479-489 | a restart under a template for another version removes the data |
| Addresses.BlockConvex | apis/network/v1beta1/netconfig_webhook.go:440-447 | what lies between two addresses of a CIDR block lies in the block |
| Addresses.BlockExactly | apis/network/v1beta1/netconfig_webhook.go:380-398 | an address lies in a block if and only if its leading bits, as many as the prefix says, are those of the block |
| Addresses.ZeroEndedExactly | internal/ipam/funcs.go:111-125 | the addresses skipped are those whose last octet, or last IPv6 group, is zero |
| Addresses.NextFollows | internal/ipam/funcs.go:109 | stepping visits the next address of the family, and past the top only the zero value |
| Ipam.WalkFinds | internal/ipam/funcs.go:109-140 | exactly what scanning one range finds: the least free address, else the zero value if the range reaches the top, else nothing |
| Ipam.FirstFitTheorem | internal/ipam/funcs.go:98-144 | with ranges ending below the top, the first free address in range and numeric order, and failure exactly when there is none |
| Ipam.FirstFitRunsOver | internal/ipam/funcs.go:109-139 | the zero value is handed out if and only if a range reaching the top and all before it are full |
| Ipam.TopRangeOverflows | internal/ipam/funcs.go:109-139 | a concrete case at 255.255.255.255 |
| Ipam.FirstFitInBlock | internal/ipam/funcs.go:98-141 | what is handed out is neither excluded nor reserved and lies in the block of the ranges |
| Ipam.FixedExactly | internal/ipam/funcs.go:66-96 | a fixed address is what the request gets, or it is refused, and that if and only if it is excluded or reserved |
| Ipam.AssignIPDetails.BuildExcluded | internal/ipam/funcs.go:22-35 | succeeds if and only if every text is an address, with exactly those addresses |
| Ipam.AssignIPDetails.BuildReserved | internal/ipam/funcs.go:37-52 | the same for the addresses reserved under this network name |
| Ipam.AssignIPDetails.FixedIPExists | internal/ipam/funcs.go:82-96 | refused when excluded, then when reserved, else assigned |
| Ipam.AssignIPDetails.IterateForAssignment | internal/ipam/funcs.go:98-144 | the nested search ends and is first fit |
| Ipam.AssignIPDetails.AssignIP | internal/ipam/funcs.go:55-80 | the whole assignment, errors first |
| NetAdmission.ValidateAddress | apis/network/v1beta1/netconfig_webhook.go:367-400 | no error if and only if it is an address inside the block |
| NetAdmission.ValidateAllocationRange | apis/network/v1beta1/netconfig_webhook.go:407-457 | no error if and only if both ends are inside and in ascending order |
| NetAdmission.ValidateUniqElement | apis/network/v1beta1/netconfig_webhook.go:222-238 | an error if and only if the element is known; it is known afterwards |
| NetAdmission.ValidateRanges | apis/network/v1beta1/netconfig_webhook.go:309-316 | no error if and only if all ranges are sound |
| NetAdmission.ValidateExcludes | apis/network/v1beta1/netconfig_webhook.go:318-325 | no error if and only if all excluded addresses are inside |
| NetAdmission.ValidateRoutes | apis/network/v1beta1/netconfig_webhook.go:327-343 | no error if and only if all destinations parse and all next hops are inside |
| NetAdmission.ValidateSubnet | apis/network/v1beta1/netconfig_webhook.go:276-355 | no error if and only if the subnet is sound and its name, domain and CIDR are new |
| NetAdmission.ValidateSubnets | apis/network/v1beta1/netconfig_webhook.go:149-157 | the same for all subnets of a network |
| NetAdmission.ValidateNetwork | apis/network/v1beta1/netconfig_webhook.go:134-157 | the same for one network with its name and domain |
| NetAdmission.ValidateNetworks | apis/network/v1beta1/netconfig_webhook.go:127-160 | no error if and only if names, domains and CIDRs are unique and every subnet is sound |
| NetAdmission.NetIndex | apis/network/v1beta1/netconfig_types.go:166-173 | the first network of that name |
| NetAdmission.SubnetIndex | apis/network/v1beta1/netconfig_types.go:181-186 | the first subnet of that name |
| NetAdmission.CompareSubnets | apis/network/v1beta1/netconfig_webhook.go:189-214 | no error if and only if every old subnet is still there with its CIDR and VLAN |
| NetAdmission.ValidateNetworksChanged | apis/network/v1beta1/netconfig_webhook.go:167-220 | no error if and only if that holds for every old network |
| NetAdmission.ValidateEntry | apis/network/v1beta1/ipset_webhook.go:160-221 | no error if and only if network and subnet exist, a fixed address is inside and a default route has a gateway; reports the family counted |
| NetAdmission.ValidateIPSetNetwork | apis/network/v1beta1/ipset_webhook.go:141-225 | no error if and only if that holds for all, names are unique and each family has at most one default route |
| NetAdmission.RequestIndex | apis/network/v1beta1/ipset_webhook.go:243-247 | the first requested network of that name |
| NetAdmission.ValidateIPSetChanged | apis/network/v1beta1/ipset_webhook.go:232-268 | no error if and only if every old network is still requested with its subnet, fixed address and default route |
| Reservations.EnsureReservation | internal/controller/network/ipset_controller.go:414-492 | the loop over the requested networks fills reservation and status as specified, up to the first failure |
| Reservations.FillGrows | internal/controller/network/ipset_controller.go:433-461 | existing addresses are kept, and each new one belongs to a requested network and avoids all reserved ones |
| Reservations.UniquenessTheorem | internal/ipam/funcs.go:37-52 | over every run no two Reservations hold the same address under one network name |
| Reservations.StabilityTheorem | internal/controller/network/ipset_controller.go:386-411 | an assigned address never changes while its IPSet lives |
| FixedAddresses.FixedTheorem | internal/controller/network/ipset_controller.go:433-461 | over every run what a live IPSet has reserved in a network for which it asks a fixed address is that address |
| FixedAddresses.RefusedExactly | internal/ipam/funcs.go:82-96 | a new request for a fixed address is refused if and only if the subnet excludes it or some Reservation holds it in that network |
| SubnetSafety.ChosenInside | internal/ipam/funcs.go:98-141 | a newly chosen address, fixed or found, lies in the CIDR of the subnet |
| SubnetSafety.LookupKept | apis/network/v1beta1/netconfig_webhook.go:96-98 | an admitted NetConfig still has every old subnet, with its CIDR |
| SubnetSafety.ChangeKeeps | apis/network/v1beta1/ipset_webhook.go:232-268 | an admitted IPSet change keeps every reserved address in its requested subnet |
| SubnetSafety.SubnetTheorem | internal/controller/network/ipset_controller.go:433-461 | over every run the reserved address of a live IPSet lies in the current CIDR of the requested subnet |
| SubnetSafety.ConfigTheorem | apis/network/v1beta1/netconfig_webhook.go:127-160 | over every run the current NetConfig has distinct network names and CIDRs, and gateways, ranges, excluded addresses and next hops lie in their blocks |
| SubnetSafety.ImmutableKept | apis/network/v1beta1/ipset_webhook.go:82-95 | no step changes the networks of an immutable IPSet |
| SubnetSafety.DefaultRouteTheorem | internal/controller/network/ipset_controller.go:475-487 | over every run a reconcile writes at most one default route per address family |
| SubnetSafety.StatusTheorem | internal/controller/network/ipset_controller.go:462-492 | over every run the status a reconcile writes shows, for the requested networks in order, the reserved address and the default route if one is due; all of them if and only if it succeeds |
| Readiness.Complete | internal/controller/network/ipset_controller.go:275-284 | if only requested networks are reserved and their number agrees, every request is served |
| Readiness.ReadinessTheorem | internal/controller/network/ipset_controller.go:264-294 | over every run ready is reported only when each requested network has an address, although the assignment error is overwritten |
| TransportUrl.UnescapeEscape | internal/controller/rabbitmq/transporturl_controller.go:682-683 | unescaping undoes escaping |
| TransportUrl.EscapeClean | internal/controller/rabbitmq/transporturl_controller.go:679-683 | an escaped text contains no reserved character of section 2.2 of RFC 3986 but the plus |
| TransportUrl.CreateTransportURL | internal/controller/rabbitmq/transporturl_controller.go:657-688 | the loop over the hosts builds the specified URL |
| TransportUrl.HostPortReads | internal/controller/rabbitmq/transporturl_controller.go:686 | reading host and port back by bracket and colon gives them back |
| TransportUrl.ReadUrl | internal/controller/rabbitmq/transporturl_controller.go:657-688 | a reader that knows only scheme, delimiters and query gives back user, password, hosts, port, vhost and TLS flag, each in its place |
| TransportUrl.UrlInjective | internal/controller/rabbitmq/transporturl_controller.go:667-688 | so equal texts imply equal user, password, hosts, port, TLS flag and vhost up to its leading slash |

## Where code and comments differ

- The comment that a preserved wipe-data container is a harmless no-op on restarts
  (internal/controller/rabbitmq/rabbitmq_controller.go:510-512) holds only while the version text
  stays the same; `PatchBumpLosesData` follows the code.
- The comment on deferring the release of the old user (internal/controller/rabbitmq/transporturl_controller.go:355-358)
  does not cover a rotation back to the remembered user; `RotateBackExactly` follows the code.
- The comment that a custom vhost is waited for (internal/controller/rabbitmq/transporturl_controller.go:408-409)
  also applies to "/" when the spec writes it out, and not when it leaves it unset; `WorksExactly` follows the code.

## Left out

- Published.ReferenceTheorem: assumes that no reconcile starts for the user it remembers as previous and that no status write is lost after the stored user was released; `RotateBackExactly` and `LostPatchExactly` have the exact conditions and `Witnesses` the reachable failures.
- Published.PublishedCredentialsWork: also assumes one CR per cluster and username and vhost deletions decided on the controller's own finalizer; `TwinLosesAccount` and `VhostChainNeedsOwnFinalizer` are runs in which these fail.
- Rotation.RotationTheorem: assumes that nobody edits or deletes the rotating TransportURL; `RotateBackExactly` and `LeakExactly` say what these lead to.
- SubnetSafety.SubnetTheorem: assumes that ranges end below the top address of their family; `FirstFitRunsOver` says exactly what happens otherwise.
- SubnetSafety.DefaultRouteTheorem: has the same assumption, because the zero value counts as IPv4.
- Rollout.WipeTheorem: one volume; a reconcile that finds all replicas ready is taken to find its pod serving.
- Absence of leaked finalizers: false in general, because deletion releases the user of the spec; `LeakExactly` has the condition.
- UserRef-mode TransportURLs and the cluster's default user: they add no finalizer.
- Legacy CR migration (cleanupLegacyOwnedResources, deleteLegacyOwnedResources, fixStaleVCTOwnerRefs, cleanupOldRabbitmqClusterCR): one-off adoption outside canonical names.
- Hash strength, password generation, the management API and the NodeSet hash comparison: opaque outcomes.
- Conditions, events, watches, requeue delays and the mechanics of status patches: only atomic, failed and lost writes remain.
- Whole reconciles of the TransportURL, user and vhost controllers as one method: other controllers interleave, so they are step machines; only their loops and in-place edits are methods.
- Order and duplicates inside finalizer lists: `Protocol` uses sets, `ControllerCode` relates lists to them.
- The admin's own edits of Reservations and the garbage collector's timing beyond collecting unowned objects.
- Errors while the defaulting webhook of RabbitMq looks up the existing CR, scale-down validation and the SpecCore variants of the same checks.
- Address text parsing and the DNS domain pattern: an address is its value or not an address, a domain is well-formed or not.
- BGP, InstanceHA, Memcached, Redis, DNSMasq, DNSData, Topology, services, probes and configuration text: easy facts only, or no intended property that holds.
