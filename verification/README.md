# ExitLane container runtime: verified protocols

ExitLane routes the clients of a protected WireGuard ingress through one VPN provider at a time and promises to
fail closed. Its container runtime keeps that promise with a handful of protocols, each with failure handling at
nearly every step. This project models them in Dafny 4.11 and proves what they promise over whole runs.
`dafny verify dfyconfig.toml` checks everything.

- **Crash-consistent restore** (`recovery_state.dfy`, `recovery_trace.dfy`, `recovery_coordinator.dfy`). A journaled
  transaction over database, master key, manifest and two directories. Each external step takes its fate from a
  script: it works, raises with or without its effect, or the process dies with or without it. `Truth` is the pair
  the volume stands for, whatever the live files look like; it changes only when a commit receipt becomes durable.
- **Provider firewall** (`text.dfy`, `firewall.dfy`, `firewall_meaning.dfy`, `firewall_text.dfy`,
  `firewall_round_trip.dfy`, `firewall_recognition.dfy`). The text handed to nft, the JSON objects demanded back, the
  startup recognizer, and what all of them mean for packets.
- **Provider policy generations** (`policy_machine.dfy`, `policy_invariant.dfy`, `policy_safety.dfy`,
  `policy_runs.dfy`, `policy_witness.dfy`). Start, probe, commit, stop, re-arm and rebind as tasks of a step machine
  under two locks; a run is any schedule of tasks, answers, cancellations and clock ticks.
- **Mutation authority** (`mutation_authority.dfy`). The exclusive lease with borrowed tasks, revocation, quiescence
  on loss and poisoning, as a step machine over any number of requests.
- **Maintenance guard and first setup** (`maintenance_guard.dfy`, `first_setup_rebind.dfy`). The independent drop
  table, and the controller's record of route selectors while a recovered policy moves to a new ingress.
- **Provider switch and native restore** (`provider_switch.dfy`, `native_restore.dfy`). Two rollback transactions that
  hold a guard until one side is proven.
- **DNS answer check** (`dns_response.dfy`). The response walker against the message grammar of sections 4.1.1 to
  4.1.4 of RFC 1035.

Pure code is modelled by functions and lemmas, objects that change in place by classes whose methods carry the
contracts, and interleaving tasks by step functions on a state value with an invariant that every step keeps.

## Where the code does less than one might expect

- A restore whose snapshot is left incomplete rolls back to that half snapshot. The core of the pair (database, key,
  manifest, WireGuard files) always survives. Its provider files survive under every script if and only if all of them
  can be derived from the database: `Restore` proves the one direction, and `LoseProviderFiles` exhibits, for every
  volume with a file that cannot, the script after which a rollback is reported and the file is gone.
- `recovery_required` can be reported with the receipt already gone, when removing the staged files fails last.
- The readers of the database and of the receipt admit 32 identities, the maintenance guard takes 8 and the reconcile
  hook 1. So a restore is let in, journals its receipt, and only then fails on what was known before: over the guard's
  budget it can be neither finished nor undone, and with several interfaces in the backup it is rolled back. `Restore`
  says exactly when.
- `Startup` completes undisturbed exactly when `CanFinish` holds of the volume. `StrandedExactly` lists all kinds of
  recoverable volumes for which it does not: a receipt naming more than 8 identities, a first receipt without its
  staged files, a worker cut inside a transaction under a receipt that publishes nothing, a rollback receipt over a
  half-made snapshot, a pair that is itself pending, and a pair that lists several interfaces or an unreadable subnet.
  Every kind has a witness for a whole family of pairs. One running interface is enough for a backup with eight others
  to strand the volume (`EightMoreStrand`).
- A failed rewrite that cannot even restore the blocked table removes the ingress or gives up, and a rebind that can
  neither apply nor restore its table gives up; a forwarding table may then stay in the kernel
  (`LastResortsLeaveOpen`; `LosesFromFresh` is a whole run). Until the next write that passes, `OpenTableExplained`
  says nothing about the cache.
- A link that cannot be observed after it was created stays up if its deletion fails too (`BringUp`).
- A rebind whose switched table cannot be proven, and whose restoring command fails as well, loses track of the old
  selector (`SlippedRebind`); that is the only case (`MoveRecovered`).
- Extending a maintenance guard that was armed over no identity, which drops everything, narrows it; the growth
  theorem therefore starts from a non-empty set.

## Model

| member | source | states |
|---|---|---|
| `DnsResponse.ValidDnsResponse` | backend/exitlane/container_egress.py:34-77 | for every query of at least 12 bytes and any response, accepts exactly when the header and question match and the answer section, by the grammar, has a well-formed prefix ending in an A/IN answer other than 0.0.0.0 |
| `DnsResponse.WalkAnswers` | backend/exitlane/container_egress.py:46-77 | the record loop says yes exactly when some prefix of the section within the answer count stands in the bytes |
| `DnsResponse.SkipName` | backend/exitlane/container_egress.py:48-67 | the label loop ends where a name of at most 127 labels, or its compression pointer, ends, and refuses every other byte string |
| `DnsResponse.NameReadable` | backend/exitlane/container_egress.py:49-67 | a name standing in the bytes is read to its end |
| `DnsResponse.NameWritten` | backend/exitlane/container_egress.py:49-67 | whatever is read as a name is a name of the grammar |
| `DnsResponse.RecordReadable` | backend/exitlane/container_egress.py:68-76 | a record standing in the bytes is read with its end, kind and data |
| `DnsResponse.RecordWritten` | backend/exitlane/container_egress.py:68-76 | whatever is read as a record is a record of the grammar |
| `DnsResponse.FoundIffAnswered` | backend/exitlane/container_egress.py:47-77 | reading record by record and the existence of a deciding section are the same |
| `RecoveryState.LiveIsFree` | backend/exitlane/container_recovery.py:449-472 | while a receipt selects another complete tree, any content of the live files keeps the volume recoverable and what it stands for |
| `RecoveryState.TornKeeps` | backend/exitlane/container_recovery.py:479-490 | killing a worker inside a database transaction costs no committed data |
| `RecoveryState.RefreshKeeps` | backend/exitlane/container_recovery.py:391-403 | rebuilding derived provider files, even partly, does not change what the volume stands for |
| `RecoveryState.StrandedExactly` | backend/exitlane/container_recovery.py:417-494 | the recoverable volumes that no undisturbed start finishes are exactly six kinds, each told from the receipt, the stages and the live files |
| `RecoveryState.FirstReceipt` | backend/exitlane/container_recovery.py:295-326 | after the first receipt of a restore of any readable ingress over any other, a start finishes exactly if the old pair has nothing pending and at most one interface, and both lists together name at most 8 identities |
| `RecoveryState.TunnelsCrowd` | backend/exitlane/container_maintenance.py:115-136 | one running interface and a backup with n others make a receipt of n + 1 identities |
| `RecoveryState.EightMoreStrand` | backend/exitlane/container_maintenance.py:115-136 | one running interface and a backup with eight others make a receipt that can be read back and that no start finishes |
| `RecoveryState.PlainVolume` | backend/exitlane/container_entrypoint.py:283-306 | without a receipt any sound pair is finished exactly if nothing is pending and it lists at most one interface, with a readable subnet |
| `RecoveryState.UnstagedVolume` | backend/exitlane/container_recovery.py:597-603 | for every sound pair without ingress, a durable first receipt whose staged files are gone keeps the pair and is finished by no start |
| `RecoveryState.CutVolumes` | backend/exitlane/container_recovery.py:449-472 | for every sound pair without ingress, a worker cut inside a transaction under the first or the commit receipt keeps the pair and is finished by no start |
| `RecoveryState.HalfSavedVolume` | backend/exitlane/container_recovery.py:640-655 | for every sound pair without ingress, a rollback receipt over a half-made snapshot keeps the pair and is finished by no start |
| `RecoveryState.RebuiltAlike` | backend/exitlane/container_recovery.py:391-403 | of a pair whose provider files are all derivable, any part of them rebuilds to the same pair |
| `RecoveryTrace.PublicationIsGuarded` | backend/exitlane/container_recovery.py:453-455 | in an ordered run no live component changes unless the guard was armed since the last reopening over every identity of the receipt and writers were stopped since a worker could last run |
| `RecoveryTrace.ReopeningIsEarned` | backend/exitlane/container_recovery.py:391-403 | in an ordered run every reopening follows a validated pair, a reconcile and a health result of true, in that order, with no publication in between |
| `RecoveryCoordinator.NextPhase` | backend/exitlane/container_recovery.py:604-634 | a saved restore may move its receipt to any later phase, and to the commit only with the new pair live, without losing recoverability |
| `RecoveryCoordinator.RollbackPhase` | backend/exitlane/container_recovery.py:640-655 | a rollback receipt over any snapshot keeps the volume recoverable: it selects the snapshot if complete and otherwise keeps the live pair |
| `RecoveryCoordinator.UnderwayTruth` | backend/exitlane/container_recovery.py:597-638 | at every phase the volume stands for the pair before the restore, and for the new pair exactly from the commit receipt on |
| `RecoveryCoordinator.Coordinator.Publish` | backend/exitlane/container_recovery.py:343-389 | validates its source before touching anything; completed, it makes all five components equal to the source with no sidecar or temporary left, from any partial live state; interrupted, it changes nothing the volume stands for |
| `RecoveryCoordinator.Coordinator.ReplaceFiles` | backend/exitlane/container_recovery.py:347-372 | the three renamed files and the database sidecars converge to the source from any state |
| `RecoveryCoordinator.Coordinator.FillDirectory` | backend/exitlane/container_recovery.py:373-389 | emptying and refilling a directory ends with exactly the source's entries |
| `RecoveryCoordinator.Coordinator.Record` | backend/exitlane/container_recovery.py:270-293 | replacing the receipt is all or nothing, and the volume is recoverable on both sides |
| `RecoveryCoordinator.Coordinator.Snapshot` | backend/exitlane/container_recovery.py:328-341 | however far it gets, what it leaves never passes validation with another core than the live pair's; completed, it is the live pair |
| `RecoveryCoordinator.Coordinator.Resume` | backend/exitlane/container_recovery.py:391-403 | validates, reconciles, proves health and reopens without changing what the volume stands for; undisturbed it succeeds exactly if the live pair is whole, not pending and lists at most one interface |
| `RecoveryCoordinator.Coordinator.Cleanup` | backend/exitlane/container_recovery.py:405-415 | removes the receipt before the staged files, keeping the live pair |
| `RecoveryCoordinator.Coordinator.Secure` | backend/exitlane/container_recovery.py:450-455 | a receipt is covered by the armed guard and writers are stopped before anything is published; undisturbed it succeeds exactly if the receipt can be read and names at most 8 identities |
| `RecoveryCoordinator.Coordinator.PublishSelected` | backend/exitlane/container_recovery.py:456-469 | publishes the candidate, the snapshot or nothing as the phase says; what the volume stands for survives |
| `RecoveryCoordinator.Coordinator.Initialise` | backend/exitlane/container_recovery.py:432-448 | an empty volume is initialised through recoverable states only |
| `RecoveryCoordinator.Coordinator.StartClean` | backend/exitlane/container_recovery.py:473-494 | a start without a receipt, with SQLite recovery first if needed, keeps the pair and completes undisturbed exactly when the pair stands, nothing is pending and it lists at most one interface, with a readable subnet |
| `RecoveryCoordinator.Coordinator.Startup` | backend/exitlane/container_recovery.py:425-494 | never changes what the volume stands for; completed, exactly that is live with no receipt; undisturbed, it completes exactly when the volume is of none of the stranded kinds |
| `RecoveryCoordinator.Coordinator.Revoke` | backend/exitlane/container_recovery.py:613-622 | sessions, challenges and enrollments are emptied in one transaction |
| `RecoveryCoordinator.Coordinator.Perform` | backend/exitlane/container_recovery.py:597-639 | from the first receipt to the end the transaction stays open and recoverable, or is committed; a return means the new pair is live |
| `RecoveryCoordinator.Coordinator.Rollback` | backend/exitlane/container_recovery.py:640-671 | reports a completed rollback only with the saved pair live and the receipt gone; otherwise the volume still stands for the old pair or the durable commit |
| `RecoveryCoordinator.Coordinator.Restore` | backend/exitlane/container_recovery.py:548-674 | truthful outcomes: a return means the new pair is live with its sessions emptied; a rollback report means the old core is live and no receipt is left, with all provider files too unless the snapshot is incomplete and some file is not derivable; after a single failure recovery is demanded only in named cases; undisturbed, a restore that gets its receipt returns exactly if both lists are within the guard's budget and the backup lists at most one interface, and otherwise rolls back exactly if they are within it and the old pair could start by itself |
| `RecoveryCoordinator.LoseProviderFiles` | backend/exitlane/container_recovery.py:604-655 | for every volume with a provider file that cannot be derived, returns the script for which the last clause of `Restore` promises a rollback report with every such file gone, and carries that restore out |
| `RecoveryCoordinator.Coordinator.StageBackup` | backend/exitlane/container_recovery.py:570-596 | stages the backup undisturbed exactly when both pairs stand and both ingress lists can be read, and touches nothing else |
| `RecoveryCoordinator.Coordinator.StartUntilDone` | backend/exitlane/container_recovery.py:417-494 | starts that may be cut any number of times, until one completes, leave exactly what the volume stood for |
| `RecoveryCoordinator.Coordinator.RestoreThenStart` | backend/exitlane/container_recovery.py:548-674 | crash atomicity: a restore and later starts, cut anywhere, end in all of the old pair or all of the new one, the new one only if its commit was durable; only an incomplete snapshot of a pair with files that are not derivable may cost those |
| `RecoveryCoordinator.Coordinator.Run` | backend/exitlane/container_recovery.py:417-674 | any sequence of starts, restores and worker writes under any script keeps the volume recoverable and the run ordered |
| `Text.SplitJoin` | backend/exitlane/container_runtime.py:506 | splitting a joined list of words free of the separator gives the words back |
| `Text.DottedReads` | backend/exitlane/container_runtime.py:442-457 | every address is read back from its canonical text |
| `Text.Insert` | backend/exitlane/container_runtime.py:525 | adding an address to the sorted source list keeps it sorted, without repetition and with nothing else changed |
| `Text.AscendingUnique` | backend/exitlane/container_runtime.py:461 | a sorted list without repetition is determined by its elements |
| `FirewallMeaning.OnlyExpected` | backend/exitlane/container_runtime.py:392-411 | an exact listing has no chain but the expected ones |
| `FirewallMeaning.ForwardMeaning` | backend/exitlane/container_runtime.py:274-286 | under first-match evaluation a packet of the protected interface is forwarded exactly if it is IPv4 and leaves by the committed provider; other packets from the protected subnet are not; the rest is not concerned |
| `FirewallMeaning.InputMeaning` | backend/exitlane/container_runtime.py:288-303 | exactly the DNS packets of a protected interface or subnet are kept from the host |
| `FirewallMeaning.OutputMeaning` | backend/exitlane/container_runtime.py:315-342 | a packet from a registered source leaves exactly by the probe interface, every other packet freely |
| `FirewallMeaning.NatMeaning` | backend/exitlane/container_runtime.py:305-313 | exactly what may be forwarded into the committed provider is masqueraded |
| `FirewallRoundTrip.ForwardReads` | backend/exitlane/container_runtime.py:479-486 | the printed forward rules are the demanded expressions |
| `FirewallRoundTrip.InputReads` | backend/exitlane/container_runtime.py:487-493 | the printed input rules are the demanded expressions |
| `FirewallRoundTrip.OutputReads` | backend/exitlane/container_runtime.py:494-499 | the printed output rules are the demanded expressions, for every source list |
| `FirewallRoundTrip.PrintedLoads` | backend/exitlane/container_runtime.py:474-506 | nft's reading of the printed text yields the demanded chains and rules, for every ingress, provider and source list |
| `FirewallRoundTrip.ListingExact` | backend/exitlane/container_runtime.py:344-423 | those chains and rules pass the exact check for their policy |
| `FirewallRoundTrip.ListingDetermines` | backend/exitlane/container_runtime.py:344-423 | the table of one ingress and policy passes the check for another exactly if both grant the same |
| `FirewallRecognition.InferSources` | backend/exitlane/container_runtime.py:430-461 | collects exactly the addresses the output rules name, sorted, and refuses exactly when some output rule names none |
| `FirewallRecognition.ValidatePreviousPolicy` | backend/exitlane/container_runtime.py:424-472 | accepts a listing exactly when it is the table of some policy the lifecycle can write, and adopts that policy's sources |
| `FirewallRecognition.SourcesNamed` | backend/exitlane/container_runtime.py:430-461 | the output rules of an exact listing name exactly the policy's sources |
| `FirewallRecognition.RecognitionUnique` | backend/exitlane/container_runtime.py:461-472 | a listing can be recognised with one source list only |
| `FirewallRecognition.PrintedRecognised` | backend/exitlane/container_runtime.py:424-506 | every writable policy is recognised from its own printed text with its own sources |
| `PolicySafety.WriteKeeps` | backend/exitlane/container_runtime.py:552-563 | writing a fitting table keeps the candidate's address guarded and every opening justified |
| `PolicySafety.RewriteKeeps` | backend/exitlane/container_runtime.py:552-583 | every step of a rewrite and of its recovery, however it ends, keeps the invariant |
| `PolicySafety.ProvingKeeps` | backend/exitlane/container_egress.py:460-481 | an opening is asked for only with a matching proof that is fresh enough, checked again after the last observation |
| `PolicySafety.ProvenKeeps` | backend/exitlane/container_egress.py:416-420 | a proof is recorded only for the generation its probe began with |
| `PolicySafety.RegisteredKeeps` | backend/exitlane/container_egress.py:213-223 | a generation starts with its source registered and nothing proven or committed |
| `PolicySafety.TornDownKeeps` | backend/exitlane/container_egress.py:192-202 | a teardown of a current generation is one its own instance asked for |
| `PolicySafety.ArmKeeps` | backend/exitlane/container_runtime.py:615-638 | re-arming adopts recognised sources and forgets the generation, failing at any step |
| `PolicySafety.RebindKeeps` | backend/exitlane/container_runtime.py:640-686 | rebinding to another ingress, with its restoring path, never opens forwarding |
| `PolicySafety.StepKeeps` | backend/exitlane/container_egress.py:192-493 | every step of every task keeps the invariant and lets epochs only grow |
| `PolicyRuns.EpochsGrow` | backend/exitlane/container_egress.py:192-235 | along every run epochs never decrease and within one epoch the candidate never changes |
| `PolicyRuns.PolicyAgreement` | backend/exitlane/container_egress.py:416-481 | after every run a held proof is for the current epoch and candidate; a held commit is too, and the cached interface is its own |
| `PolicyRuns.NoStaleOpening` | backend/exitlane/container_runtime.py:531-550 | every table ever opened was asked for under a matching proof at most 5 s old and taken under the same generation, and the proof came from a probe that began and ended in it |
| `PolicyRuns.OpenTableExplained` | backend/exitlane/container_runtime.py:560-583 | a forwarding table in the kernel was opened on request, and with the lock free it belongs to the current epoch and candidate and is the cached one, unless since the last passing write a recovery removed the ingress or gave up, or a rebind restored nothing |
| `PolicyRuns.LastResortsLeaveOpen` | backend/exitlane/container_runtime.py:565-583 | each of these last resorts does leave a forwarding table in the kernel, with nothing cached or committed after a rewrite |
| `PolicyRuns.TablesRecognised` | backend/exitlane/container_runtime.py:424-472 | whatever a run leaves in the kernel a later process recognises with exactly its sources |
| `PolicyRuns.TeardownsOwned` | backend/exitlane/container_egress.py:319-348 | a stop or disarm revokes a current generation only of its own interface and only for the instance that started it |
| `PolicyRuns.ForwardedOnlyIfProven` | backend/exitlane/container_runtime.py:531-563 | after every run a packet of the protected interface crosses only over IPv4 into a provider opened with a fresh proof of its own generation, and with the lock free and no last resort taken that is the current candidate, opened in the current epoch |
| `PolicyRuns.ConnectedIsCurrent` | backend/exitlane/container_egress.py:483-493 | at every moment of every run a provider reported as connected is the current candidate and the kernel forwards to no other |
| `PolicyRuns.RewriteLands` | backend/exitlane/container_runtime.py:552-564 | a rewrite whose commands all pass ends with its table in kernel and cache |
| `PolicyRuns.CommitOpens` | backend/exitlane/container_egress.py:460-477 | an undisturbed commit of a freshly proven candidate opens exactly its interface |
| `PolicyWitness.OpensFromFresh` | backend/exitlane/container_egress.py:204-481 | from every fresh process over a table it recognises and for every generation it may register, the given schedule of arm, start, probe and commit opens the table for exactly that generation |
| `PolicyWitness.CleanStartable` | backend/exitlane/container_runtime.py:514-530 | on a clean kernel every provider generation with an allowed address may be registered, so those runs exist for each |
| `PolicyWitness.LosesFromFresh` | backend/exitlane/container_runtime.py:552-583 | for each of them, the schedule continued by a failed probe whose two writes fail leaves the table open with nothing cached or committed |
| `MutationAuthority.AdmitKeeps` | backend/exitlane/container_control.py:105-113 | an owner is admitted only into an empty, unpoisoned and settled authority |
| `MutationAuthority.EndQuiesceKeeps` | backend/exitlane/container_control.py:88-96 | a quiesce call that does not return true poisons before the lock can be released |
| `MutationAuthority.JoinKeeps` | backend/exitlane/container_control.py:122-166 | the lock is released only after every borrowed task has joined and a failed one was quiesced again |
| `MutationAuthority.EndBorrowedKeeps` | backend/exitlane/container_control.py:168-207 | a borrowed task that fails revokes the lease and leaves a debt |
| `MutationAuthority.LeaseExclusion` | backend/exitlane/container_control.py:98-207 | under every order of events no owner enters while another owner, a borrowed task or an interrupted callback still runs, nor after a loss before a quiesce call made with all of them stopped returned true |
| `MutationAuthority.AcknowledgedAfterJoin` | backend/exitlane/container_control.py:417-465 | a release is acknowledged only when its owner, borrowed tasks and callback are gone |
| `MutationAuthority.OneOwner` | backend/exitlane/container_control.py:98-154 | at every moment at most one request is inside and everything running belongs to it |
| `MutationAuthority.PoisonIsPermanent` | backend/exitlane/container_control.py:84-110 | once poisoned always poisoned, and nobody is admitted any more |
| `MutationAuthority.LossNeedsProof` | backend/exitlane/container_control.py:88-150 | with the lock free, a lost writer was proven stopped or the authority is poisoned |
| `MutationAuthority.LeaseCompletes` | backend/exitlane/container_control.py:98-154 | a free and unpoisoned authority, after any run, serves the next lease to its acknowledgement and is free again |
| `MaintenanceGuard.Canonical` | backend/exitlane/container_maintenance.py:120-134 | the listed order has exactly the identities of the set |
| `MaintenanceGuard.MaintenanceMeaning` | backend/exitlane/container_maintenance.py:24-83 | on each hook a packet crosses the table exactly when it carries no armed identity; with none armed nothing is forwarded |
| `MaintenanceGuard.MaintenanceDominates` | backend/exitlane/container_maintenance.py:24-83 | whatever the provider table accepts, no packet of an armed interface or subnet is forwarded, and with no identity none at all |
| `MaintenanceGuard.MoreDropsMore` | backend/exitlane/container_maintenance.py:24-80 | larger non-empty identity sets drop a superset on every hook |
| `MaintenanceGuard.Guard.Arm` | backend/exitlane/container_maintenance.py:115-145 | the armed set only grows, the table in place covers it through every failure, and undisturbed it succeeds exactly within the budget and over its own or no table |
| `MaintenanceGuard.Guard.Release` | backend/exitlane/container_maintenance.py:147-153 | removes exactly the table that was armed, and undisturbed succeeds exactly when it reads back |
| `MaintenanceGuard.Guard.ArmMore` | backend/exitlane/container_maintenance.py:115-145 | from one arming on, over any further armings until a release, every packet of every identity armed so far is dropped and the table only gets stricter |
| `FirstSetupRebind.Controller.Retire` | backend/exitlane/container_entrypoint.py:234-274 | success proves that no selector of the interface is left in either family |
| `FirstSetupRebind.Controller.Rebind` | backend/exitlane/container_runtime.py:640-686 | the identity is the new one on success and the old one otherwise, except exactly when the switched table is unproven and the restoring command fails |
| `FirstSetupRebind.Controller.MoveRecovered` | backend/exitlane/container_entrypoint.py:427-452 | every published selector stays the recovered policy's or the recorded one, the record is cleared only after removal is proven, and exactly the failed restore of a switched table breaks this, told from the script with or without an earlier record |
| `FirstSetupRebind.Controller.ActivateIngress` | backend/exitlane/container_entrypoint.py:406-469 | an activation, failing anywhere, keeps the bookkeeping, and undisturbed it succeeds exactly when no other ingress is in the way |
| `FirstSetupRebind.Controller.BringUp` | backend/exitlane/container_runtime.py:691-731 | a failed bring-up leaves the link up exactly when it could be neither observed nor deleted, or when the lease was revoked at the end |
| `FirstSetupRebind.Controller.DeactivateIngress` | backend/exitlane/container_entrypoint.py:341-390 | takes the link down without publishing anything |
| `FirstSetupRebind.Controller.ReconcileEmpty` | backend/exitlane/container_entrypoint.py:283-303 | retires the recorded selector before the recovered policy is armed as blocked again |
| `FirstSetupRebind.Controller.ObserveIngress` | backend/exitlane/container_entrypoint.py:470-481 | first setup ends only over an ingress in service, by when nothing is recorded any more |
| `FirstSetupRebind.Controller.Run` | backend/exitlane/container_entrypoint.py:323-481 | over any sequence of requests with failures at any command the bookkeeping holds unless a restoring command failed after the switch |
| `FirstSetupRebind.SlippedRebind` | backend/exitlane/container_runtime.py:661-686 | the failing run, for any two interfaces |
| `ProviderSwitch.Switch.Connect` | backend/exitlane/main.py:3761-3768 | a provider is told to connect only with the other one last seen disconnected |
| `ProviderSwitch.Switch.Complete` | backend/exitlane/services/killswitch.py:353-367 | the guard is lifted only for proven facts of the provider the settings name |
| `ProviderSwitch.Switch.TryRollback` | backend/exitlane/main.py:3485-3533 | restores the source only behind a disconnected target, and lifts the guard only for the source's own proven egress |
| `ProviderSwitch.Switch.LeaveSource` | backend/exitlane/main.py:3698-3743 | the source is disconnected only under the armed guard; a failed disconnect ends with the source restored or the guard up |
| `ProviderSwitch.Switch.EnterTarget` | backend/exitlane/main.py:3745-3792 | the target's facts are handed on only if available, protected and bound to an interface |
| `ProviderSwitch.Switch.Activate` | backend/exitlane/main.py:3541-3859 | on every path every lifting had proven facts of the provider then persisted, no provider was told to connect with the other not seen disconnected, and an armed guard is up or was lifted for the persisted provider; undisturbed it switches, with the target connected and the source not; disturbed once, also after the target has connected, it does not leave the guard up |
| `NativeRestore.Restore.ReplaceWireguard` | backend/exitlane/lifecycle.py:518-525 | completed, the tunnel directory is the source's; cut, only that directory differs |
| `NativeRestore.Restore.Install` | backend/exitlane/lifecycle.py:672-684 | completed, all three components are the backup's with its sessions emptied |
| `NativeRestore.Restore.Recover` | backend/exitlane/lifecycle.py:692-723 | completed over a ready snapshot, all three components are those before the restore and the guard is down |
| `NativeRestore.Restore.Perform` | backend/exitlane/lifecycle.py:651-727 | the guard is lifted only over one coherent side, started and healthy; a guard left up after the snapshot keeps it; incoherent files are never left without it; undisturbed the backup is installed, after one failure past the snapshot the old files are back |

## Left out

- SQLite, tar, encryption, key derivation and secret pairing: a pair is valid or not by an abstract predicate.
- The lease check inside the recovery coordinator, the archive written by `backup`, and the journal's JSON framing beyond what its reader refuses.
- Writes of a running worker while a restore transaction is open: before publishing, the coordinator stops the worker, but the health check of a restore starts it again, and what it writes from then until the receipt is gone is not modelled.
- The first-setup hook's own file rollback in `container_entrypoint.py`, and a reconcile that finds a configured ingress while a recovered policy is held.
- External provider work inside start, probe and teardown: each is one awaited step with any outcome.
- Bringing the ingress link up again after a failed policy recovery removed it.
- Peer credentials, timeouts as durations and the framing of the control socket: any timeout is a step that may happen at any time.
- Ownership and collision checks of `_activate` beyond success and failure.
- The claim and release of the VPN operation record around a provider switch, and the wording of its errors.
- Provider sets beyond the two sides of one switch.
- What the maintenance guard already holds counts against its budget: identities left armed by an earlier failed recovery of the same process, and the running link's own identity if the database no longer lists it, are not added to those a recovery names.
- SQLite sidecars of the old database, which the native restore's rename leaves in place.
- The controller process arming or rebinding the same kernel table beside a running worker: a policy run belongs to one process and starts over whatever table is in the kernel then.
- `NativeRestore.Restore.Perform`: does not model process death, for which the native restore keeps no journal.
- `FirewallText.LoadText` reads the part of nft's grammar the printer uses; it is the model's own reading of that grammar.
- FastAPI routes, settings, events, installer, release and qualification scripts: plumbing and user interface.
