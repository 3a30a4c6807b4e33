# Host reservation in the bring-your-own-host provider: a Dafny model

The provider turns existing Linux hosts into Kubernetes nodes. Five independent components share one
store of ByoHost, ByoMachine, K8sInstallerConfig and Secret objects, and no component sees the whole
protocol:

- the ByoMachine controller reserves a free host, hands it scripts, and marks it for cleanup;
- the agent on each host installs, bootstraps, resets, uninstalls and frees the host;
- the ByoHost controller collects the uninstall secret of a freed host;
- the K8sInstallerConfig controller makes the two script secrets;
- a webhook guards the deletion of hosts.

The project models this as one transition system over any number of hosts and machines and proves
properties of all its runs. Four smaller parts are modelled on their own: the cloud-init executor, the
label flag, the attach label and the provider ID. `dafny verify dfyconfig.toml` checks everything.

## How it is built

| file | content |
|---|---|
| `Objects`, `Agent`, `Manager`, `ProviderId` | the objects, and each reconcile as a function of what it reads and of the point at which a call fails |
| `Protocol` | all steps, of controllers, users, garbage collection and bootstrap provider; runs |
| `Effects`, `HostMoves` | what one reconcile may change, in closed form |
| `Reservation` | the invariant of the protocol, under all faults |
| `Lifetimes`, `Orphans`, `Strandings` | reservation and deletion properties of whole runs |
| `HostSecrets`, `References`, `Leftovers`, `Releases` | the secrets that hosts name, what stays behind for good, and when a marked host can be released |
| `Records`, `MachineReports`, `HostReports` | the values that a reservation records, and what the conditions of machines and hosts mean |
| `Traces`, `Cleanliness`, `Spoilings`, `Commands`, `Reuse` | properties of the commands run on a physical host |
| `Nodes`, `Convergence`, `Stalls`, `Prospects` | provider IDs over runs; when a machine becomes ready, when it still can, and when it never does |
| `Schedules` | sequences of steps, and those that agents hear of |
| `Witnesses`, `Retakes`, `DirtyRuns`, `FaultRuns` | runs from the empty store in which faults do their damage |
| `Overlay`, `SplitRuns`, `PendingPasses`, `Serializability` | agent passes split into fetch, reads, commands and patch are serializable |
| `HostReconciler`, `Controllers`, `MachineController` | the four reconcilers in the imperative form of the source, proved against the functions |
| `Text`, `LabelFlags`, `LabelValue`, `CloudInit`, `Entries` | the smaller parts |

A step of a controller is one reconcile. A reconcile of the manager may stop at any of its API calls and
may lose its deferred patch; the agent may die before its deferred patch; scripts and host operations may
fail in any way, any number of times. The invariant of `Reservation` and everything in `Lifetimes`
tolerate all of this. Where faults break a property, a predicate names the steps that do (`Unguards`,
`Splits`, `Dangles`, `Dirties`, `LosesReset`, `ForgetsJoin`, `Leaks`), a lemma says that a single step keeps the
property if and only if it is not one of them, and the theorem about runs excludes those steps and no
others. `Strandings`, `DirtyRuns` and `FaultRuns` give, for each of these faults, a run from the empty store
in which it happens and does its damage.

For cleanliness, resets and bootstraps a second theorem says of every run, under all faults, that the
property holds if and only if the run has no step that does the damage itself (`FreesDirty`,
`RepeatsReset`, `RepeatsJoin`). The first kind of step explains the second: without a `LosesReset` before
it there is no `RepeatsReset`, and behind every `LosesReset` the same pass is possible again and is a
`RepeatsReset` (`Commands.LostResetRepeats`); so too for `ForgetsJoin` and `RepeatsJoin`.

The agent is told of changes of its host only while the host is not paused. Passes that were waiting for a
retry may still come, so every theorem about all runs allows a pass at any time. Where a member says that
something can happen, the agents in its steps act on hosts that are not paused (`Schedules.Plays`).

### Hypotheses

They are guards of the steps in `Protocol.Enabled`, or parameters:

- a patch is a per-field difference and lands atomically; a manager reconcile reads the current store;
- ByoMachine names are never reused, and the attach label of a new machine differs from those of the
  machines in the store and of the machines that hosts still name (for names that fit,
  `LabelValue.FittingNamesAreFree` proves the second);
- registration labels and user edits leave the protocol's own label and annotation keys alone;
- an admitted deletion of a ByoHost takes effect at once; a config is deleted only with its machine;
- the bootstrap provider sets the name of a data secret once;
- the installer supports no platform with an empty description (`Reservation.Sound`);
- the agent's process registers its host before it reconciles it;
- the nodes of a workload cluster are never removed, and clusters are told apart by their names alone,
  without the namespace.

That a patch of the agent arrives is no hypothesis of the protocol. It is assumed in one place, by name:
`Convergence` counts on the passes of the agent it waits for (`Undisturbing`).

Where the comments of the source differ from its code, the code is modelled: the comment in
`removeAnnotations` speaks of removing the uninstall reference, the code leaves it to the ByoHost
controller; the mode of an existing file is never used as the initial mode of a write.

## Model

| member | source | states |
|---|---|---|
| `Reservation.Invariant` | controllers/infrastructure/byomachine_controller.go:89-309 | At every point of every run, whatever fails: every host is entirely free or entirely reserved by one machine that once was attached to it, a live machine's host is its own and unmarked, every ready config of a live machine is stocked, every secret has the owner and key its name asks for |
| `Reservation.Observations` | controllers/infrastructure/byomachine_controller.go:191-217 | The lookup by label finds only the machine's own host, a host picked for reservation is free, and a live machine that finds no host was never attached |
| `Reservation.MachinePassKeeps` | controllers/infrastructure/byomachine_controller.go:236-309 | A ByoMachine reconcile stopped anywhere keeps the invariant |
| `Reservation.StoreKeeps` | controllers/infrastructure/k8sinstallerconfig_controller.go:173-260 | Storing the scripts, stopped at either write, keeps the invariant, and the config in memory may be patched in |
| `Reservation.SecretGone` | controllers/infrastructure/byohost_controller.go:47-64 | Deleting the secret that a free host names takes nothing from any live machine |
| `Reservation.AgentKeeps` | agent/reconciler/host_reconciler.go:48-84 | An agent pass with any failures, and with its patch lost or not, keeps the invariant |
| `Effects.NormalHost` | controllers/infrastructure/byomachine_controller.go:236-309 | A normal reconcile writes the host exactly if it found one or reserves one, changes at most the two script references beyond resuming or reserving, and never replaces a reference that is set |
| `Effects.TargetEvolves` | controllers/infrastructure/byomachine_controller.go:443-517 | No reconcile of a ByoMachine writes a condition of a host, takes a cleanup mark away or alters an existing reservation; the reference and the mark change exactly when announced |
| `HostMoves.AgentMoves` | agent/reconciler/host_reconciler.go:250-317 | The agent writes only conditions, unless a cleanup reaches its end, and then it releases the whole reservation |
| `Lifetimes.AtMostOneHost` | controllers/infrastructure/byomachine_controller.go:531-613 | Over a whole run a machine is attached to at most one host |
| `Lifetimes.NoHandover` | controllers/infrastructure/byomachine_controller.go:554-582 | A host's MachineRef never goes from one machine directly to another |
| `Lifetimes.LiveKeepsHost` | controllers/infrastructure/byomachine_controller.go:219-234 | A machine that is not being deleted keeps its host, unmarked |
| `Lifetimes.AllOrNothing` | controllers/infrastructure/byomachine_controller.go:576-603 | MachineRef, both labels, bootstrap secret and the three annotations are all present or all absent; mark, install secret and true conditions occur only with them |
| `Lifetimes.DeleteStrandsNobody` | apis/infrastructure/v1beta1/byohost_webhook.go:97-123 | In every reachable state the webhook admits a deletion if and only if no machine in the store would find that host by label, and a failing lookup admits no more |
| `Lifetimes.ReadyIsTruthful` | controllers/infrastructure/k8sinstallerconfig_controller.go:173-260 | A ready config of a machine not being deleted names two stored secrets with the two scripts generated for the machine's platform |
| `Lifetimes.ReadyIsFinal` | controllers/infrastructure/k8sinstallerconfig_controller.go:97-149 | A ready config stays ready as long as it exists, and goes only after its machine |
| `Records.AttachRecords` | controllers/infrastructure/byomachine_controller.go:576-603 | A reconcile that reserves a host leaves on it the machine, its cluster, its label value and its bootstrap secret, and under each of the three annotation keys the endpoint, the part of the version before the first plus sign, and the registry that this reconcile has seen |
| `Records.HeldAsRecorded` | controllers/infrastructure/byomachine_controller.go:576-603 | In every run a held host carries exactly the labels, annotations and bootstrap secret that an earlier reconcile has recorded when it reserved the host for this machine |
| `Records.RegisterRecords` | agent/registration/host_registrar.go:45-95 | A host that registers for the first time has the labels and details it gives and nothing else; a known one gets the new details only |
| `Orphans.ReconcileGuards` | controllers/infrastructure/byomachine_controller.go:219-240 | A reconcile leaves the host marked, or its machine in the store with the finalizer, if and only if it is not a reservation that loses the patch with the new finalizer |
| `Orphans.NoOrphans` | controllers/infrastructure/byomachine_controller.go:646-669 | Without that fault no run orphans a reservation |
| `Strandings.LostPatchStrands` | controllers/infrastructure/byomachine_controller.go:140-146 | A concrete run in which the lost patch does orphan a host |
| `Strandings.OrphanedForGood` | controllers/infrastructure/byomachine_controller.go:191-234 | An orphaned host stays orphaned under every step of anybody but its own deletion |
| `HostSecrets.UninstallSecretSafe` | controllers/infrastructure/k8sinstallerconfig_controller.go:221-249 | In every run in which no collection on this host is cut between deletion and patch, the uninstall secret the host names is stored and holds an uninstall script, and no other host names it |
| `HostSecrets.CollectStored` | controllers/infrastructure/byohost_controller.go:47-77 | Collecting a secret leaves every host's named secret stored, except the host's own exactly if the reconcile is cut between deletion and patch |
| `HostSecrets.ReconcilePairs` | controllers/infrastructure/byomachine_controller.go:285-305 | A reconcile leaves an install secret without an uninstall secret if and only if it is cut between the two |
| `HostSecrets.InstallComesWithUninstall` | controllers/infrastructure/byomachine_controller.go:499-517 | Without that cut an install secret comes with an uninstall secret in every run |
| `References.RunMadeOnce` | controllers/infrastructure/k8sinstallerconfig_controller.go:137-149 | In every run both script references of a host name secrets of a config that is ready, or gone together with its machine |
| `References.StaysGone` | controllers/infrastructure/k8sinstallerconfig_controller.go:173-260 | A script secret of such a config that is gone is never made again |
| `Leftovers.CollectsIff` | controllers/infrastructure/byohost_controller.go:47-64 | A reconcile of a ByoHost deletes a secret if and only if the host names it, has no MachineRef and is not marked, and touches no other secret |
| `Leftovers.ConfigStores` | controllers/infrastructure/k8sinstallerconfig_controller.go:173-260 | A reconcile of a config stores the generated install script with the config as owner, and the uninstall script without owner, as far as its writes succeed, if and only if the machine waits for scripts that can be generated; it touches no other secret |
| `Leftovers.ConfigGoesIff` | controllers/infrastructure/k8sinstallerconfig_controller.go:97-149 | A config goes with an arriving reconcile if and only if it is being deleted; any other gets its finalizer, and is ready afterwards if and only if it was or both scripts are stored now |
| `Leftovers.InstallSecretGoes` | controllers/infrastructure/k8sinstallerconfig_controller.go:303-308 | From every state with the invariant: once a machine is gone, its config and then its install secret can be collected |
| `Leftovers.NamedIff` | controllers/infrastructure/byomachine_controller.go:499-517 | The uninstall secret of a machine is named by some host if and only if the host the machine was attached to names it |
| `Leftovers.StepKeptIff` | controllers/infrastructure/k8sinstallerconfig_controller.go:221-249 | A step leaves a stored uninstall secret needed by a live machine or a host if and only if it is none of: the deletion of the machine before its host has the reference, the deletion of the ByoHost that has it, the generation of scripts for a machine being deleted |
| `Leftovers.KeptIff` | controllers/infrastructure/byohost_controller.go:47-64 | In every run, under all faults: a stored uninstall secret is still needed if and only if no step of these kinds has happened |
| `Leftovers.LeftBehindForGood` | controllers/infrastructure/byohost_controller.go:47-64 | A secret that is left behind stays stored for good, whatever anybody does |
| `Releases.ReleaseIff` | agent/reconciler/host_reconciler.go:214-300 | Some pass that its agent hears of releases a marked host if and only if the host is not paused and the uninstall secret it names, unless the agent skips installation, is stored |
| `Releases.StuckForGood` | agent/reconciler/host_reconciler.go:267-280 | A host marked for cleanup while its uninstall secret is gone stays so, whatever anybody does, until its ByoHost is deleted or its agent skips installation |
| `Releases.StepParksIff` | controllers/infrastructure/byomachine_controller.go:219-234 | A step leaves a marked and paused host marked, paused and reserved if and only if it is neither an edit that takes the pause away, nor the deletion of the ByoHost, nor a pass that completes the cleanup all the same |
| `Releases.ParkedForGood` | agent/reconciler/host_reconciler.go:215-220 | A host marked for cleanup while it is paused stays marked, paused and reserved for the same machine, whatever all controllers do, until one of these happens |
| `HostReports.NormalTells` | apis/infrastructure/v1beta1/condition_consts.go:10-60 | Every reason a normal pass writes into a condition is one whose cause it has met, and every cause leads to its reason: no MachineRef, no bootstrap secret, no install secret, directories not cleaned, script failed; a condition turns true exactly with the success of its script |
| `HostReports.NormalRuns` | agent/reconciler/host_reconciler.go:102-147 | The commands of a normal pass: no bootstrap without components unless skipping, nothing behind a failed installation, a reset behind a failed bootstrap, each with the host's own script |
| `HostReports.CleanupTells` | agent/reconciler/host_reconciler.go:250-317 | What a cleanup writes into both conditions, and its commands: the reset of installed components first, then the host's own uninstall script, each only behind success |
| `HostReports.DeletedHostRests` | agent/reconciler/host_reconciler.go:68-84 | A host that is being deleted and is not marked is left alone |
| `HostReports.ConditionsTruthful` | apis/infrastructure/v1beta1/condition_consts.go:10-18 | In every run, under all faults: on an unmarked host a true condition means that its script has succeeded and that nobody has tried to undo it since |
| `Traces.OpenIff` | agent/reconciler/host_reconciler.go:254-296 | A running flag over the commands is up exactly when some command has not been followed by its undoing |
| `Cleanliness.FreeMeansClean` | agent/reconciler/host_reconciler.go:102-147 | In every run without a step that spoils the account of the host (`Dirties`): if it has no MachineRef, every bootstrap attempt has been followed by a successful reset and every install attempt by a successful uninstall, however often scripts failed |
| `Cleanliness.StepCleanIff` | agent/reconciler/host_reconciler.go:86-317 | A step of anybody keeps the account if and only if it is none of: a pass that leaves a node joined without a recorded installation, an installation without uninstall secret, a skipping cleanup that frees installed components, the deletion of a ByoHost with something joined or installed |
| `Cleanliness.FreeMeansCleanIff` | agent/reconciler/host_reconciler.go:250-317 | In every run, under all faults: the host is never free and dirty if and only if no arriving cleanup reaches its end with an unrecorded node or unremoved components, and no dirty ByoHost is deleted |
| `Cleanliness.NormalAccounts` | agent/reconciler/host_reconciler.go:86-150 | A normal pass, with its patch arriving or lost, keeps the account (a node that may be joined is recorded as installed, what may be installed is on a reserved host with an uninstall secret) if and only if it neither leaves a joined node unrecorded nor installs without uninstall secret |
| `Cleanliness.CleanupAccounts` | agent/reconciler/host_reconciler.go:250-317 | A cleanup pass, wherever it fails and with its patch arriving or lost, keeps the account if and only if it does not free installed components in skipping mode |
| `Spoilings.SpoiledIsFreed` | agent/reconciler/host_reconciler.go:250-317 | From every state with the invariant in which the host of a machine with a finalizer is spoiled and not paused, deleting the machine and a cleanup in which everything succeeds free a dirty host |
| `Spoilings.DirtyIsDeleted` | apis/infrastructure/v1beta1/byohost_webhook.go:97-123 | After the deletion of its machine the webhook admits the deletion of a ByoHost on which something is joined or installed |
| `DirtyRuns.PassesSpoil` | agent/reconciler/host_reconciler.go:60-146 | Runs from the empty store in which a pass whose patch is lost, a pass that skips installation, and a pass behind a reconcile cut between the two references each lead to a free and dirty host |
| `DirtyRuns.SkippedUninstallSpoils` | agent/reconciler/host_reconciler.go:269-300 | The same for a cleanup that skips the uninstall script |
| `DirtyRuns.DeletionSpoils` | apis/infrastructure/v1beta1/byohost_webhook.go:97-123 | The same for the deletion of the ByoHost |
| `Retakes.DanglingIsStuck` | controllers/infrastructure/byohost_controller.go:47-77 | From every state with the invariant: a free host that names a missing uninstall secret gets stuck as soon as it is taken again and its machine is deleted |
| `Retakes.ForgottenRejoins` | agent/reconciler/host_reconciler.go:102-147 | From every state with the invariant: a free host that joined and was never cleaned up bootstraps a second time as soon as it is taken again |
| `FaultRuns.LostJoin` | agent/reconciler/host_reconciler.go:60-66 | A run from the empty store in which the patch behind a bootstrap is lost and the host bootstraps twice |
| `FaultRuns.LostReset` | agent/reconciler/host_reconciler.go:60-66 | A run from the empty store in which the patch behind a cleanup reset is lost and the host is reset twice |
| `FaultRuns.DeletedJoin` | apis/infrastructure/v1beta1/byohost_webhook.go:97-123 | A run from the empty store in which the ByoHost of a joined host is deleted, the host registers again, is taken by another machine and bootstraps twice |
| `FaultRuns.CutCollection` | controllers/infrastructure/byohost_controller.go:47-77 | A run from the empty store in which the collection of an uninstall secret is cut, and the host is taken again and gets stuck |
| `FaultRuns.LostReason` | controllers/infrastructure/byomachine_controller.go:140-146 | A run from the empty store in which the reservation loses the patch with the reason and the machine is stalled |
| `FaultRuns.PausedReason` | controllers/infrastructure/byomachine_controller.go:169-179 | A run from the empty store in which a paused reconcile overwrites the reason and the machine is stalled |
| `FaultRuns.PausedMark` | controllers/infrastructure/byomachine_controller.go:169-234 | A run from the empty store in which a host is paused with its machine and marked when that is deleted; its script is stored, and nobody resumes it |
| `FaultRuns.LeftByMachine` | controllers/infrastructure/byomachine_controller.go:219-234 | A run from the empty store in which the machine is deleted before its host has the uninstall reference, and the secret is left behind |
| `FaultRuns.LeftByHost` | apis/infrastructure/v1beta1/byohost_webhook.go:97-123 | A run from the empty store in which a free ByoHost is deleted before its secret is collected, and the secret is left behind |
| `FaultRuns.LeftByConfig` | controllers/infrastructure/k8sinstallerconfig_controller.go:134-169 | A run from the empty store in which scripts are generated for a machine that is being deleted, and the secret is left behind |
| `Commands.StepResetsIff` | agent/reconciler/host_reconciler.go:254-265 | A step keeps the record of resets true if and only if it is not a cleanup that resets successfully and loses its patch |
| `Commands.ResetOncePerInstall` | agent/reconciler/host_reconciler.go:254-300 | In every run without such a step there is a successful installation between two successful cleanup resets of a host, however often later stages fail |
| `Commands.ResetOncePerInstallIff` | agent/reconciler/host_reconciler.go:254-300 | In every run, under all faults: the resets are separated by installations if and only if no cleanup resets a host that is recorded as installed and has not been installed since its last reset |
| `Commands.LostResetRepeats` | agent/reconciler/host_reconciler.go:254-265 | Behind every cleanup that resets and loses its patch the same pass is possible again, and resets a second time without an installation in between |
| `Commands.StepJoinsIff` | agent/reconciler/host_reconciler.go:128-147 | A step keeps a joined node on record if and only if it is neither a pass that bootstraps successfully and loses its patch, nor the deletion of the ByoHost of a joined node |
| `Commands.OneJoinPerReservation` | agent/reconciler/host_reconciler.go:102-147 | In every run without such a step there is a completed cleanup between two successful bootstraps of a host |
| `Commands.OneJoinPerReservationIff` | agent/reconciler/host_reconciler.go:102-147 | In every run, under all faults: the bootstraps are separated by completed cleanups if and only if no pass bootstraps a host again whose node was joined since its last cleanup |
| `Commands.LostJoinRepeats` | agent/reconciler/host_reconciler.go:128-147 | Behind every pass that bootstraps and loses its patch the same pass is possible again, and bootstraps a second time without a cleanup in between |
| `Commands.RightScript` | agent/reconciler/host_reconciler.go:90-109 | Every bootstrap run used the data secret of the machine that held the host when it was run |
| `Reuse.ReuseEqualsFresh` | agent/reconciler/host_reconciler.go:369-402 | All later commands on a free host of any run are those of a newly registered one, whatever operations follow, if and only if it names no uninstall secret; otherwise being reserved, marked and cleaned up tells the two apart |
| `Reuse.RunActs` | controllers/infrastructure/byomachine_controller.go:443-613 | In every stretch of a run in which its ByoHost is not deleted, what happens to a host is a sequence of nine operations, edits, new registrations and lost passes among them, and its commands are those of the sequence |
| `Reuse.ReusedRun` | agent/reconciler/host_reconciler.go:369-402 | In every such stretch a free host without uninstall reference runs exactly the commands that the same operations run on a newly registered host, and ends in a state the agent cannot tell from that host's |
| `Reuse.ForeignUntouched` | agent/reconciler/host_reconciler.go:384-401 | No step of a run but an edit by hand changes a label or annotation outside the protocol's own keys, whatever patches are lost and however often the host is registered again |
| `Reuse.SkipNeverResets` | agent/reconciler/host_reconciler.go:254-265 | Where installation is skipped no cleanup ever resets |
| `ProviderId.AcceptsIff` | controllers/infrastructure/byomachine_controller.go:408-418 | The pattern check accepts the ID of another host exactly if the names agree up to characters under the dots of the checked name |
| `ProviderId.CheckIff` | controllers/infrastructure/byomachine_controller.go:400-428 | A node that carries the ID generated for some host keeps it if that host's name passes the pattern, and the call fails otherwise |
| `ProviderId.ForeignIdRefused` | controllers/infrastructure/byomachine_controller.go:414-417 | The ID of a host whose name differs in length, or at a place where this name has no dot, is refused |
| `ProviderId.WriteOnce` | controllers/infrastructure/byomachine_controller.go:400-428 | Any number of calls write the node's ID once and all return it |
| `Nodes.IdWrittenOnce` | controllers/infrastructure/byomachine_controller.go:311-332 | In every run a node's ID is empty or accepted for its name, and once written never changes |
| `MachineReports.ReconcileReports` | controllers/infrastructure/byomachine_controller.go:236-332 | What a normal reconcile leaves in the ByoMachine and on the node: the reason of how far it came, the platform of its host if none was noted, and, if and only if it came to its end, ready with the ID of the node |
| `MachineReports.RefusedIdStops` | controllers/infrastructure/byomachine_controller.go:408-418 | A node whose ID does not pass the check keeps it, and the machine gets neither ready nor an ID from it |
| `MachineReports.ReconcileHandles` | controllers/infrastructure/byomachine_controller.go:242-305 | What a normal reconcile does to the host it has found: it ends the pause, and gives it the install and then the uninstall reference that it lacks, if and only if the machine needs them, the gates are open and the ready config has them |
| `MachineReports.ConfigMadeIff` | controllers/infrastructure/byomachine_controller.go:686-729 | A config is made if and only if the machine has an installer and no config and the calls before succeed; it is made empty, and an existing one is left alone |
| `MachineReports.PauseReports` | controllers/infrastructure/byomachine_controller.go:169-179 | A paused reconcile changes the condition of the machine and the pause of its host, and nothing else |
| `MachineReports.MarkWrites` | controllers/infrastructure/byomachine_controller.go:646-669 | Marking a host sets the mark and takes the two management labels away, unless an upgrade is under way, and changes nothing else |
| `MachineReports.DeletionEndsIff` | controllers/infrastructure/byomachine_controller.go:219-234 | The finalizer goes if and only if there is no host or the host is marked in the same reconcile; the machine goes with it unless another finalizer holds it |
| `MachineReports.ReadyMeansIdentified` | controllers/infrastructure/byomachine_controller.go:311-332 | In every run, under all faults: a machine that claims to be ready in any field is marked ready, has a host, and carries the provider ID of that host's node |
| `Convergence.RankNeverFalls` | controllers/infrastructure/byomachine_controller.go:236-332 | While a machine on track is left alone, its rank over machine, config, host and node never falls, whatever all others do |
| `Convergence.RankRises` | controllers/infrastructure/k8sinstallerconfig_controller.go:137-169 | The pass of the controller responsible at a rank raises it |
| `Convergence.NeverStuck` | agent/reconciler/host_reconciler.go:86-150 | Below the top rank the responsible pass is possible, with or without skipped installation, and an agent's host is then not paused |
| `Convergence.Converges` | controllers/infrastructure/byomachine_controller.go:236-332 | For a machine with an installer, or one whose agent skips installation: one pass of config controller, machine controller, agent and machine controller, in this order and with anything in between, makes the machine ready for good with the provider ID of its node |
| `Convergence.AttachedConverges` | controllers/infrastructure/byomachine_controller.go:236-332 | From a reservation without faults of a supported host to the ready machine, in every run in which the machine is left alone and those four passes happen |
| `Convergence.AttachedIsOnTrack` | controllers/infrastructure/byomachine_controller.go:531-613 | A reservation without faults of a supported host puts the machine on track |
| `Stalls.PauseStallsIff` | controllers/infrastructure/byomachine_controller.go:169-179 | A paused or not-ready reconcile stalls a machine that was on track if and only if the machine has an installer and its config is not ready yet |
| `Stalls.StalledForGood` | controllers/infrastructure/byomachine_controller.go:257-281 | A stalled machine is never ready until it is deleted, whatever anybody does |
| `Prospects.AttachStallsIff` | controllers/infrastructure/byomachine_controller.go:140-146 | A reservation before the scripts exist stalls the machine if and only if the patch of the ByoMachine is lost |
| `Prospects.RunStory` | controllers/infrastructure/byomachine_controller.go:269-279 | In every run a machine that was never attached has neither waited for scripts nor been ready, and a live attached one has its config, its cluster label and, once its host has joined, its node |
| `Prospects.AbleIff` | controllers/infrastructure/byomachine_controller.go:236-332 | In every state of every run a live attached machine can still become ready without being deleted if and only if it has no installer, or its scripts are stored, or it waits for scripts and a platform it reports, or can still come to report, is supported |
| `Prospects.StalledOrAble` | controllers/infrastructure/byomachine_controller.go:236-332 | With an installer and a supported platform it can if and only if it is not stalled |
| `Overlay.StepDress` | controllers/infrastructure/byomachine_controller.go:443-613 | No step but an agent's reads or writes a condition of a host or a trace: changing them before or after the step is the same |
| `PendingPasses.EarlyPatch` | agent/reconciler/host_reconciler.go:60-66 | The patch of a normal pass, sent after any steps of others, changes the two conditions and nothing else |
| `PendingPasses.CleanupPatch` | agent/reconciler/host_reconciler.go:250-317 | The patch of a cleanup is what a cleanup of the present object would have written, and its commands are the same |
| `Serializability.HeldStill` | controllers/infrastructure/byomachine_controller.go:531-613 | While a host is marked for cleanup no step of anybody else touches the record of its reservation |
| `Serializability.ConditionsKept` | controllers/infrastructure/byomachine_controller.go:576-603 | No step but an agent's writes a condition of a host |
| `Serializability.Serializable` | agent/reconciler/host_reconciler.go:48-84 | With the fetch, the reads, the commands and the patch of each agent pass at four different times, the explicit schedule of atomic passes is possible step by step and leads to exactly the store that the split run has reached when no pass is under way |
| `Serializability.AtomicRunExists` | agent/reconciler/host_reconciler.go:48-150 | For every split run at rest there is a run with atomic passes that reaches the same store, with the steps of all others the same and in the same order, except that a reconcile may be stopped where it reads the node |
| `HostReconciler.Reconciler.Reconcile` | agent/reconciler/host_reconciler.go:48-84 | The pass in place leaves the host and the commands that the pass function says |
| `HostReconciler.Reconciler.ReconcileNormal` | agent/reconciler/host_reconciler.go:86-150 | The normal part, field by field, is `NormalPass` |
| `HostReconciler.Reconciler.ExecuteInstaller` | agent/reconciler/host_reconciler.go:152-185 | The install script is run if it can be read; a failure is recorded |
| `HostReconciler.Reconciler.Join` | agent/reconciler/host_reconciler.go:128-146 | Cleaning directories, bootstrapping and the reset of a failed bootstrap are `JoinPass` |
| `HostReconciler.Reconciler.HostCleanUp` | agent/reconciler/host_reconciler.go:250-317 | The cleanup in place is `CleanupPass` |
| `HostReconciler.Reconciler.ResetAndUninstall` | agent/reconciler/host_reconciler.go:254-300 | A reset is recorded at once; the uninstall script runs only behind it |
| `HostReconciler.Reconciler.Finish` | agent/reconciler/host_reconciler.go:301-317 | Only with sentinel file and endpoint address gone is the host released |
| `HostReconciler.Reconciler.RemoveAnnotations` | agent/reconciler/host_reconciler.go:369-402 | Removing the keys one by one is the release of the reservation, with the uninstall reference kept |
| `Controllers.Store.ReconcileHost` | controllers/infrastructure/byohost_controller.go:34-80 | The ByoHost reconcile in place is `HostPass`; the named secret of a free, unmarked host is gone afterwards, and so is the reference unless the reconcile is cut; a missing host is ignored |
| `Controllers.Store.ReconcileConfig` | controllers/infrastructure/k8sinstallerconfig_controller.go:63-149 | The config reconcile in place is `ConfigPass`; a config that is being deleted is gone when the patch arrives, and no other goes |
| `Controllers.Store.StoreInstallationData` | controllers/infrastructure/k8sinstallerconfig_controller.go:173-260 | Writing the secrets and the status in turn is `StoreScripts`, stopped anywhere |
| `MachineController.Reconcile` | controllers/infrastructure/byomachine_controller.go:89-188 | The reconcile with its separate host patches and the deferred machine patch leaves the store that `MachinePass` says, wherever it stops |
| `MachineController.Scope.ReconcileNormal` | controllers/infrastructure/byomachine_controller.go:236-309 | The patches sent so far always add up to one write of the view |
| `MachineController.Scope.AttachByoHost` | controllers/infrastructure/byomachine_controller.go:531-613 | The reservation, field by field, or the reason why there is none |
| `MachineController.Scope.FillReservation` | controllers/infrastructure/byomachine_controller.go:576-603 | The seven fields of the reservation, and which value stands under which annotation |
| `Records.BaseVersionIsFirst` | controllers/infrastructure/byomachine_controller.go:602 | The version annotation is the first of the parts between plus signs |
| `MachineController.Scope.SetPaused` | controllers/infrastructure/byomachine_controller.go:443-459 | Pausing or resuming the host: the annotation is set or removed on the object and in the store together, or nothing is written |
| `MachineController.Scope.Resume` | controllers/infrastructure/byomachine_controller.go:242-248 | A reconcile that is not paused resumes the host it has, or stops |
| `MachineController.Scope.CreateInstallerConfig` | controllers/infrastructure/byomachine_controller.go:686-729 | The config is created once |
| `MachineController.Scope.SetInstallationSecret` | controllers/infrastructure/byomachine_controller.go:479-497 | The install reference is taken from a ready config, or the reconcile stops |
| `MachineController.Scope.SetUninstallationSecret` | controllers/infrastructure/byomachine_controller.go:499-517 | The uninstall reference is taken from a ready config, or the reconcile stops |
| `MachineController.Scope.UpdateNodeProviderID` | controllers/infrastructure/byomachine_controller.go:311-332 | The node's ID is written and the machine becomes ready, or the reconcile stops; an ID that does not pass the check leaves node and machine as they were |
| `MachineController.Scope.ReconcileDelete` | controllers/infrastructure/byomachine_controller.go:219-234 | The mark reaches the host before the finalizer leaves the machine |
| `MachineController.Scope.MarkHostForCleanup` | controllers/infrastructure/byomachine_controller.go:646-669 | The mark is set, and two labels go unless an upgrade is under way |
| `MachineController.Scope.ReconcilePaused` | controllers/infrastructure/byomachine_controller.go:169-179 | A pause is passed on to the host and recorded on the machine |
| `LabelValue.AlwaysLegal` | controllers/infrastructure/byomachine_controller.go:731-748 | For every legal namespace and name the attach label is a legal label value of at most 63 characters |
| `LabelValue.FittingValueTells` | controllers/infrastructure/byomachine_controller.go:731-736 | Namespace and name can be read off the label value of a name that fits |
| `LabelValue.LongValueParts` | controllers/infrastructure/byomachine_controller.go:737-748 | The value of a longer name is the first 54 characters of it, a dash, and the first 8 digits of its hash |
| `LabelValue.CollideIff` | controllers/infrastructure/byomachine_controller.go:731-748 | Exactly when two names get the same label value |
| `LabelValue.ShortIsUnique` | controllers/infrastructure/byomachine_controller.go:734-736 | A name that leaves the last place free shares its value with no other; names that fit are told apart |
| `LabelValue.FittingNamesAreFree` | apis/infrastructure/v1beta1/byohost_types.go:28-32 | With the code's label values, what the protocol asks of the label of a new machine holds by itself for names that fit |
| `Stalls.OwnHostFound` | controllers/infrastructure/byomachine_controller.go:191-217 | A live machine that was attached finds the host it was attached to |
| `LabelFlags.Flag.Set` | agent/main.go:56-83 | The labels and the error that setting a text gives, with the items before an error set |
| `LabelFlags.Flag.String` | agent/main.go:46-52 | The text is the items of the map, each once, in some order |
| `LabelFlags.AcceptedIff` | agent/main.go:56-83 | A text is accepted if and only if it is not empty and every item of it that is not empty has an equals sign |
| `LabelFlags.ItemSets` | agent/main.go:72-83 | An item sets the trimmed text before its first equals sign to the trimmed text behind it |
| `LabelFlags.ErrorKeepsEarlier` | agent/main.go:60-71 | An item without an equals sign ends the setting with an error; what was set before it stays, and nothing behind it is set |
| `LabelFlags.RoundTrip` | agent/main.go:46-83 | Setting the printed text rebuilds the map, in every order of iteration, if and only if there is a label, keys and values are trimmed, keys have no comma or equals sign and values no comma |
| `LabelFlags.ListIsOneByOne` | agent/main.go:58-71 | A comma list does what setting its non-empty items one by one does, up to the first error |
| `Text.SplitJoin` | agent/main.go:58-59 | Splitting undoes joining |
| `CloudInit.Machine.Execute` | agent/cloudinit/cloudinit.go:46-83 | The files are those of the puts up to the failure; no command runs unless every file was written, and then all of them run in order, or those up to and including the one that fails |
| `CloudInit.Machine.RunCommands` | agent/cloudinit/cloudinit.go:76-81 | The commands run in order up to and including the first that fails |
| `CloudInit.Machine.WriteFiles` | agent/cloudinit/cloudinit.go:52-74 | The loop over the entries does their puts in turn and stops at the first failure |
| `CloudInit.Machine.WriteToFile` | agent/cloudinit/file_writer.go:50-118 | Open, overlay or append, mode and owner in turn; what was carried out before a failure stays |
| `CloudInit.DecodeContent` | agent/cloudinit/cloudinit.go:99-121 | The decoders are applied in turn, and any of them may refuse |
| `Entries.EncodedRoundTrip` | agent/cloudinit/cloudinit.go:84-121 | Content packed as its encoding says, in any spelling of cases and with any space around it, is unpacked to the text that was packed; under any other encoding it is taken as it is |
| `Entries.OctalRoundTrip` | agent/cloudinit/file_writer.go:71-79 | Permissions written in octal are read back, if and only if they fit 32 bits |
| `Entries.NewFileMode` | agent/cloudinit/file_writer.go:18 | A new file gets the mode 0644 |
| `Entries.LeadingZero` | agent/cloudinit/file_writer.go:71-79 | A leading zero of the permissions makes no difference |
| `Entries.OwnerIff` | agent/cloudinit/file_writer.go:87-99 | An owner is accepted if and only if it is a known user and a group with one colon between them |
| `Entries.OwnerIs` | agent/cloudinit/file_writer.go:97-115 | The file goes to the user before the colon |
| `Entries.OwnFileWritten` | agent/cloudinit/file_writer.go:50-118 | The file of a successful entry with a path of its own has the entry's text over the start of the old content, or behind it, and the entry's permissions and owner where it names some |
| `Entries.OthersUntouched` | agent/cloudinit/cloudinit.go:52-74 | A run touches only files of entries it gets to |
| `CloudInit.RetryIff` | agent/cloudinit/cloudinit.go:52-74 | A run hit anywhere followed by a full run leaves the files of one full run, whatever was there before, if and only if the full run appends nothing |
| `CloudInit.Absorbed` | agent/cloudinit/file_writer.go:56-69 | Puts that are parts of the puts of a full run are absorbed by it, with repeated paths and partial writes |
| `CloudInit.AppendedTwice` | agent/cloudinit/file_writer.go:57-59 | With an append there are files for which a retry gives another result |

## Left out

- The Kubernetes client, caches, watches, events, logging, leader election and requeue times: replaced by
  the store, the atomic patch and the free order of steps.
- The agent's work queue: a pass on a paused host, which only a retry from before the pause can start, is
  allowed at any time in the theorems about all runs, and in no member that says what can happen.
- Bodies of the install and uninstall scripts, kubeadm, kube-vip, gzip, SHA-256, YAML and templates:
  abstract functions or arbitrary outcomes.
- ByoCluster, ByoMachineTemplate, BootstrapKubeconfig and certificate reconcilers, and the create and
  update side of the webhook: short guards that would only add easy members.
- Registration beyond the creation of the ByoHost, certificate rotation, host network discovery, the
  installer registry and byohctl.
- The names of the two script secrets: they are distinct by construction instead of by their prefixes, and
  a bootstrap data secret is not one of them.
- Cleaning the two directories before a bootstrap: one outcome stands for both.
- Requests to other controllers that a reconcile triggers: every step may be taken at any time.
- Commands.RightScript: says which secret was used, not what it contained.
- Serializability.Serializable: the commands of one pass happen at one moment; of the shared store they
  touch only the node that the bootstrap, their last, makes.
- Nodes.IdWrittenOnce: nodes that are removed, and two clusters of one name in different namespaces, are
  outside the model.
- Convergence.Converges: does not say that the passes happen; it says what they lead to.
- CloudInit.Machine.Execute: directories are not modelled, only whether creating them fails.
