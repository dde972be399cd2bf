# Cirrocumulus, modelled and proved

Cirrocumulus runs VM-backed and Machine-backed Apps on one Node. This project models the hard core of it in
Dafny and proves what its code and documentation promise, for every input and every interleaving. Where a promise
does not hold of the code, the model keeps the code's behaviour, a lemma exhibits a run or an input that breaks
the promise, and another says exactly when it does hold.

`dafny verify dfyconfig.toml` checks everything.

## How it is laid out

**The VM registry** is one state machine (`Registry.dfy`). A `Node` is what survives the agent (rows, snapshots,
logs, host objects, VMM processes) and what does not (the VM table, starts and wakes under way, supervisors, parks,
held requests). Each section under the VM table's lock is one step; the code between locks is further
steps, each foreign call free to fail; and a crash followed by `reconcile`, itself cut short any number of times, may
come between any two.

- `RegistryInvariant.dfy`, `RegistryRuns.dfy`: the invariant, name by name and across names, and that each step keeps it.
- `NodeTheorems.dfy`, `Snapshots.dfy`, `Hostnames.dfy`: what follows for every run.
- `Outcomes.dfy`: what a start, a wake, a VM's end, a park and an rm come to, from the step that begins each to the one
  that ends it.
- `JobProgress.dfy`, `ParkProgress.dfy`, `HeldRequests.dfy`: a measure that every step of a start, a wake or a park
  lowers and no other step raises, and so that every request held for one is told when it is over.
- `Recovery.dfy`: a crash anywhere, and `reconcile`, whose own actions may come in any order and stop anywhere.
- `Counterexamples.dfy`: runs that show the conditions are needed.
- `Agent.dfy`: the agent as a class; each handler and `reconcile` is a method proved to take the machine's step.

**Beside it**: `Vm.dfy` (start steps and the undo stack), `SnapshotFiles.dfy` (the renames of a park and a wake),
`Supervisor.dfy`, `Traffic.dfy` (idle park, with the drop of a request in its three steps), `Edge.dfy` (one held
request), `Image.dfy`, `Overlay.dfy`, `ImagePaths.dfy`, `Rootfs.dfy` (OCI layers), `Target.dfy`, `Tunnel.dfy`
and `Machines.dfy` (Machines reached over SSH), `Acme.dfy`, `GuestInit.dfy`, `Logs.dfy`, `Subnet.dfy`. `Common.dfy`, `Ordered.dfy` and
`Text.dfy` hold what they share.

## Promises that do not hold as stated

| promise | broken by | holds exactly when |
|---|---|---|
| a hostname is one App's (`crates/cirro-node/src/agent.rs:725-730`) | `Counterexamples.HostnameShared`, `Counterexamples.HostnameSharedByRestart` | `Hostnames.PutBackKeepsHosts`: nothing claimed the hostname while a start that then fails had set its Ended VM aside; over a restart, `Hostnames.RestartKeepsHosts`: nobody has it on record while a start that is not on record yet has set it aside |
| a parked VM can be woken (`agent.rs:863-864`) | `Counterexamples.SnapshotLostInCrash`: a crash in mid-wake; `Counterexamples.ParkForgotten`: a park the database would not record, and a restart; `Counterexamples.CwdTaken` and `Counterexamples.LeftoverPutBack`: a failed wake's put-back takes a file that is not the snapshot's | `Snapshots.LosesExactly` step by step, `Snapshots.SnapshotsKept` over runs, `Snapshots.StaysParkedExactly` over a restart |
| a wake that fails puts the snapshot back (`crates/cirro-node/src/vm.rs:348-350`) | `SnapshotFiles.RootfsReplaced`: with no namespace the jail's root is the empty path, so the agent's working directory is taken for it; `SnapshotFiles.LeftoverReplaces`: the jail still has an earlier VM's rootfs | `SnapshotFiles.FailedWakeKeepsSnapshot` |
| a start that fails is undone (`vm.rs:335-336`) | `Vm.HalfMadeNamespaceLeft`: a namespace that `ip` half made has no undo step | the clause of `Vm.Vm.Start` on what a failed start leaves |
| an App is parked after a whole idle time (`agent.rs:168-170`) | `Traffic.OvertakenWrite`: two drops read the clock and write `last` in opposite orders | `Traffic.EarlyAfterRequestExactly`; with writes in order it always holds: `Traffic.ClaimedAfterIdleTime`, `Traffic.ClaimsExactly` |
| a failed idle park gives the App a whole idle time (`agent.rs:1259-1261`) | `Traffic.RetriedAtOnce`: the claim is let go before `last` is set | `Traffic.EarlyAfterFailureExactly` |
| an idle park never meets a request (`agent.rs:1267-1268`) | `Traffic.BusyVmParked`: the park looks its VM up again by name | `Traffic.MeetsRequestExactly`, `Traffic.SentToClaimedExactly` |
| directories merge | `Overlay.ImpliedDirCleared` | `Overlay.OverlayExactly` |
| a hard link follows its target (`crates/cirro-image/src/lib.rs:327`) | `Rootfs.LinkToLinkFirst` | last clause of `Rootfs.WriteTar` |
| a changed host key stops `ssh` until the Machine is removed and added (`crates/cirro-node/src/agent/machine.rs:70-72`) | `Tunnel.RestartForgetsLatch` | `Tunnel.LatchHolds`, `Tunnel.NoSshOnceLatched` |
| what is served is what live orders ask for (`crates/cirro-edge/src/acme.rs:320-323`) | `Acme.SharedTokenLost` | `Acme.ServedExactly`, and for whole runs `Acme.ServedAreLive` |
| no order too soon after a failure (`acme.rs:147-149`) | `Acme.BegunTooSoon` | `Acme.TooSoonExactly` |
| each shutdown request reaches the app (`crates/guest-init/src/main.rs:44-50`) | `GuestInit.AcceptInterrupted`: PID 1 panics; `GuestInit.SignalLost`: there is no handler yet | `GuestInit.AnsweredExactly` |
| a late request cannot hit a process that reused the pid (`main.rs:33-34`) | `GuestInit.ReusedPidHit` | `GuestInit.HitsExactly` |

## Model

| member | source | states |
|---|---|---|
| `NodeTheorems.EveryStateSound` | crates/cirro-node/src/agent.rs:657-1234 | every state of every run, crashes and restarts included, satisfies the whole invariant: entries, tasks, supervisors, rows, host state, logs, snapshots and held requests fit together |
| `NodeTheorems.StepKeepsInv` | crates/cirro-node/src/agent.rs:657-1234 | each step of any task, and a crash with the reconcile after it, keeps the invariant |
| `RegistryRuns.ApiKeeps` | crates/cirro-node/src/agent.rs:686-744 | reservations, removals, Apps and park claims keep it |
| `RegistryRuns.BuildKeeps` | crates/cirro-node/src/vm.rs:337-365 | each host call of a start, a wake or an unwind keeps it, whichever fail |
| `RegistryRuns.TaskKeeps` | crates/cirro-node/src/agent.rs:938-1066 | what a start or wake does once the VM is up, or is not, keeps it, with the database free to refuse |
| `RegistryRuns.SupKeeps` | crates/cirro-node/src/agent.rs:1071-1091 | a VM's parks, its end, its teardown and the record of its end keep it |
| `RegistryRuns.ParkKeeps` | crates/cirro-node/src/agent.rs:812-861 | a park's being sent, dropped, told of its VM's end and released keeps it |
| `RegistryRuns.EdgeKeeps` | crates/cirro-node/src/agent.rs:1494-1545 | requests that come, look, hold and go keep it; what each of these does is `HeldRequests.LookExactly` and `HeldRequests.ListensExactly` |
| `NodeTheorems.AddressesExclusive` | crates/cirro-node/src/agent.rs:771-782 | in every reachable state no two Starting or Running VMs hold one address, and each is in the VM range |
| `NodeTheorems.HostStateOwned` | crates/cirro-node/src/agent.rs:1191-1206 | in every reachable state each host object is a held address's, unless an undo step failed there, and each VMM is |
| `NodeTheorems.HandedOutOnceUnwound` | crates/cirro-node/src/agent.rs:1223-1234 | an address is handed out only when its last VM is dead and torn down, undo steps that failed apart |
| `NodeTheorems.CleanExactly` | crates/cirro-node/src/vm.rs:474-483 | over any run, every host object is always of a VM that is starting, running or being torn down, if and only if no teardown and no `reconcile` was over with an object left |
| `NodeTheorems.HandedOutClean` | crates/cirro-node/src/agent.rs:771-782 | an address is then handed out only when nothing at all is left there |
| `NodeTheorems.AlwaysRestarts` | crates/cirro-node/src/agent.rs:1101-1147 | from any state, and from any half-done `reconcile`, an agent can start again |
| `NodeTheorems.RegistryAndStoreAgree` | crates/cirro-node/src/agent.rs:1223-1234 | when no start or wake of a name is under way its row and its entry say the same, exactly if its last end could be recorded |
| `NodeTheorems.RowWaitsForInsert` | crates/cirro-node/src/agent.rs:976-1004 | during a start or wake the row is what a failure would put back, until the insert commits |
| `Snapshots.LosesExactly` | crates/cirro-node/src/vm.rs:351-365 | a step that is not meant to use a whole snapshot up loses it if and only if it is a failed rm that removed some of it, a put-back that renames another file over one of its three, from the jail or, without a namespace, from the working directory, a put-back that leaves one behind, or a restart when the database does not say parked or some of it is not in the parked directory |
| `Snapshots.SnapshotsKept` | crates/cirro-node/src/agent.rs:865-1009 | over any run, the snapshot of a given park, neither woken nor removed, stays whole, and its VM parked or being woken, if and only if no such step is taken |
| `Snapshots.StaysParkedExactly` | crates/cirro-node/src/agent.rs:1166-1188 | a restart leaves a VM that is parked, or in mid-wake, parked with just the files in its parked directory if and only if the database did not refuse its last end |
| `Snapshots.KeptParkIsWakeable` | crates/cirro-node/src/vm.rs:821-869 | every park that is kept makes a VM that can be woken |
| `Outcomes.StartOutcome` | crates/cirro-node/src/agent.rs:1011-1066 | from a start's reservation to its end, through any run: the VM runs at the reserved address, on the new log and with the route asked for, if and only if it came up and was recorded; else the name has what it had before |
| `Outcomes.WakeOutcome` | crates/cirro-node/src/agent.rs:938-1009 | from a wake's reservation to its end: the VM runs with the log and route it was parked with if and only if it came up and was recorded; it is parked as it was if it did not come up; and else it has ended as forced |
| `Outcomes.EndOutcome` | crates/cirro-node/src/agent.rs:1071-1091 | from a VM's being up to its end: the entry and, if the database takes it, the row say the reason that its supervisor or its last park gave, with the log and route the VM ran with |
| `Outcomes.KeptParkWaits` | crates/cirro-node/src/agent.rs:831-861 | in every reachable state a VM whose snapshot was kept and whose end is not recorded has a park that waits for that end, its claim held |
| `Outcomes.RunsOnOwnRootfs` | crates/cirro-node/src/vm.rs:547-573 | in every reachable state a VM that is up, on record or not, runs on a rootfs of its own: from when it is up, what was a snapshot's is one no longer |
| `Outcomes.MovesBackOne` | crates/cirro-node/src/vm.rs:351-365 | each rename of a put-back puts its file in the parked directory, leaves the others as they were, and is made once; the others can still be made |
| `Outcomes.TakesOne` | crates/cirro-node/src/vm.rs:351-365 | the same of a put-back without a namespace |
| `Outcomes.LooksForAll` | crates/cirro-node/src/vm.rs:351-365 | which looks for all three files |
| `Outcomes.UsedUpSnapshotGone` | crates/cirro-node/src/agent.rs:1005-1009 | a wake that is recorded removes the directory of the snapshot it used up exactly when nothing is left in it, and there is nothing unless something has touched the snapshot |
| `Outcomes.NoLogLeftBehind` | crates/cirro-node/src/agent.rs:1210-1219 | in every reachable state each console log is some VM's, or a set-aside VM's, or about to be removed, unless a starting agent could not remove it |
| `Outcomes.RemoveExactly` | crates/cirro-node/src/agent.rs:1411-1442 | an rm leaves no entry, row or App of the name, no snapshot if it was parked, and not its log, and everything else as it was |
| `Outcomes.AppsExactly` | crates/cirro-node/src/agent.rs:1384-1414 | adding or removing a Machine-backed App changes that App and nothing else |
| `HeldRequests.NoLostWakeUp` | crates/cirro-node/src/agent.rs:249-255 | in every reachable state a held request that has not been told has what it waits for under way, or a notification about to come; who is held, and for what, is `HeldRequests.LookExactly` |
| `HeldRequests.TableThenNotify` | crates/cirro-node/src/agent.rs:812-829 | the step that ends what a request holds for leaves the notification still to come |
| `HeldRequests.LookExactly` | crates/cirro-node/src/agent.rs:1557-1588 | a request that looks at an App is held for its start if and only if it is starting, for a park if and only if its VM runs and a park has claimed it, and is else let go; what it has heard stays, and nothing else changes |
| `HeldRequests.ListensExactly` | crates/cirro-node/src/agent.rs:1501-1506 | a request listens anew before each look, and gives up without a trace |
| `HeldRequests.LookAgrees` | crates/cirro-node/src/agent.rs:1557-1588 | what the edge takes a look to be, from the table, is what the request then does: hold for a start, hold for a park, wake, or answer |
| `HeldRequests.ToldExactly` | crates/cirro-node/src/agent.rs:249-255 | over any run a request has been told if and only if some task has notified since it last listened |
| `JobProgress.JobAdvances` | crates/cirro-node/src/agent.rs:938-1066 | every step of a start or wake, of its build and of its teardown ends it or lowers its measure |
| `JobProgress.JobNotDelayed` | crates/cirro-node/src/agent.rs:938-1066 | no step of anyone else raises it |
| `JobProgress.JobGoesOn` | crates/cirro-node/src/agent.rs:938-1066 | and it always has a step to take |
| `ParkProgress.ParkAdvances` | crates/cirro-node/src/agent.rs:831-861 | every step of a park, and of the supervisor that has it queued, under way or answered, ends it or lowers its measure |
| `ParkProgress.ParkNotDelayed` | crates/cirro-node/src/agent.rs:831-861 | no step of anyone else, another park sent to the same VM included, raises it |
| `ParkProgress.ParkGoesOn` | crates/cirro-node/src/agent.rs:831-861 | and it, or the supervisor it waits for, always has a step to take |
| `HeldRequests.OwnStepAdvances` | crates/cirro-node/src/agent.rs:249-255 | every step that a held request waits for tells it, or brings that nearer |
| `HeldRequests.OthersDoNotDelay` | crates/cirro-node/src/agent.rs:249-255 | no other step delays it |
| `HeldRequests.EveryScheduleTells` | crates/cirro-node/src/agent.rs:249-255 | from every reachable state, every schedule of the steps a held request waits for is bounded, and one that cannot go on has told the request |
| `HeldRequests.WaitsNoLonger` | crates/cirro-node/src/agent.rs:249-255 | in any run, whatever else goes on, no more such steps are taken while a request waits than were left, or were left once its park was sent |
| `Hostnames.NamesDisjoint` | crates/cirro-node/src/agent.rs:1384-1409 | no name is ever both a VM's and a Machine-backed App's |
| `Hostnames.HostsKept` | crates/cirro-node/src/agent.rs:694-730 | every step but a failed start's put-back, and a restart, keeps each hostname with at most one App |
| `Hostnames.PutBackKeepsHosts` | crates/cirro-node/src/agent.rs:1210-1219 | the put-back keeps hostnames unique if and only if nothing claimed the set-aside one meanwhile |
| `Hostnames.RestartKeepsHosts` | crates/cirro-node/src/agent.rs:1101-1147 | a restart leaves hostnames unique if and only if no start not yet on record had set aside a hostname that another has on record |
| `Counterexamples.HostnameShared` | crates/cirro-node/src/agent.rs:732-741 | a reachable state from which a failed start's put-back gives two Apps one hostname |
| `Counterexamples.HostnameSharedByRestart` | crates/cirro-node/src/agent.rs:1101-1147 | a reachable state from which a restart does |
| `Counterexamples.SnapshotLostInCrash` | crates/cirro-node/src/vm.rs:547-573 | a reachable state, after a crash in mid-wake, with a parked VM that has no snapshot |
| `Counterexamples.ParkForgotten` | crates/cirro-node/src/agent.rs:1166-1188 | a reachable parked VM with a whole snapshot, its end refused by the database, and a restart that ends it as AgentDown and deletes the snapshot |
| `Counterexamples.CwdTaken` | crates/cirro-node/src/vm.rs:356-357 | a reachable wake without a namespace, its snapshot whole, whose put-back replaces the rootfs by a file of the working directory |
| `Counterexamples.LeftoverPutBack` | crates/cirro-node/src/vm.rs:498-510 | a reachable failed wake, its snapshot whole, whose put-back replaces the rootfs by the one an earlier start left in the jail |
| `Recovery.CrashLeavesDiskInv` | crates/cirro-node/src/agent.rs:1093-1100 | whatever the agent was doing, what a crash leaves is fit to be reconciled |
| `Recovery.RepairKeepsDiskInv` | crates/cirro-node/src/agent.rs:1101-1206 | nor does a crash between any two actions of `reconcile` itself spoil that |
| `Recovery.RepairsAddUp` | crates/cirro-node/src/agent.rs:1101-1206 | any number of actions of `reconcile`, in any order and however often cut short, with any VMMs ending meanwhile, come to what one whole `reconcile` does of the VMMs left |
| `Recovery.RecordedDeath` | crates/cirro-node/src/agent.rs:1121-1143 | a recorded VM's VMM ending makes that record AgentDown and has its address cleaned, and changes nothing else |
| `Recovery.UnrecordedDeath` | crates/cirro-node/src/agent.rs:1191-1206 | one that no record owns ending changes nothing |
| `Recovery.ReconcileIdempotent` | crates/cirro-node/src/agent.rs:1101-1206 | reconciling again changes nothing, whatever could not be removed |
| `Recovery.ReconcileOwns` | crates/cirro-node/src/agent.rs:1191-1206 | afterwards every host object, snapshot and log that could be removed is some record's, every VMM is, and no record is of a dead running VM |
| `Recovery.ReconciledLive` | crates/cirro-node/src/agent.rs:1121-1130 | the VMs taken back are exactly the recorded-running ones whose process lives, each with its own host state and VMM |
| `Recovery.ReconciledRecords` | crates/cirro-node/src/agent.rs:1131-1143 | no record is lost or made, and none changes its log or becomes, or stops being, parked |
| `Recovery.ReconcileRestores` | crates/cirro-node/src/agent.rs:1101-1147 | the Node a starting agent makes of such a disk satisfies the whole invariant |
| `Agent.Agent.FreeAddress` | crates/cirro-node/src/agent.rs:771-782 | the lowest address no entry holds, none only when all are held |
| `Agent.Agent.FirstWithHost` | crates/cirro-node/src/agent.rs:1592-1598 | the first App in name order with the hostname, none only when no App has it |
| `Agent.Agent.StepFor` | crates/cirro-node/src/agent.rs:1557-1588 | for any hostname: an answer if a Machine-backed App has it or no App does, and else, of the first App in name order that has it, a hold for a start, a hold for a park, a wake or an answer, each exactly when its entry says so |
| `Agent.Agent.CheckStart` | crates/cirro-node/src/agent.rs:688-730 | refuses a start for the first reason in the agent's order, and only one the state machine does not admit |
| `Agent.Agent.RunVm` | crates/cirro-node/src/agent.rs:684-744 | reserves exactly when the state machine admits a start, at the lowest free address, on the next log; refused, it uses up a log number and changes nothing else |
| `Agent.Agent.WakeVm` | crates/cirro-node/src/agent.rs:865-918 | reserves a wake exactly when the VM is parked, its snapshot is there and an address is free; refused, it changes nothing and says why |
| `Agent.Agent.ForgetStart` | crates/cirro-node/src/agent.rs:1210-1219 | takes the state machine's step: the name has the set-aside VM again, or nothing, the start's own log is gone, and nothing else on disk changes |
| `Agent.Agent.RecordEnd` | crates/cirro-node/src/agent.rs:1223-1234 | takes the state machine's step, whether or not the database takes the end: the entry is Ended for the supervisor's reason, with its log and route |
| `Agent.Agent.Remove` | crates/cirro-node/src/agent.rs:1411-1442 | removes an App or an Ended VM: of an App nothing else changes; of a VM no entry, row, log or parked snapshot stays, and every other VM, record, snapshot, App and log does; each failing call leaves exactly what the state machine's failed removal does |
| `Agent.Agent.RunOnMachine` | crates/cirro-node/src/agent.rs:1384-1409 | makes the App exactly when neither its name nor its hostname is anyone's and the Machine takes it, and then adds it and changes nothing else; else nothing changes |
| `Agent.Agent.ClaimIdle` | crates/cirro-node/src/agent.rs:1269-1285 | claims exactly the Apps that idle-park, have rested and are not being parked, and touches no other claim |
| `Agent.Agent.RecordedLogs` | crates/cirro-node/src/agent.rs:1150-1161 | the logs left are exactly those some record names, and those that cannot be removed |
| `Agent.Agent.OwnedSnapshots` | crates/cirro-node/src/agent.rs:1166-1188 | the snapshots left are exactly those of parked VMs on record, and what cannot be removed of others |
| `Agent.Agent.RestoreRecord` | crates/cirro-node/src/agent.rs:1105-1144 | one record becomes the entry the design says: taken back, Ended as AgentDown, or as it was |
| `Agent.Agent.RestoreRecords` | crates/cirro-node/src/agent.rs:1105-1144 | every record does, each VM with a supervisor and a traffic record of its own |
| `Agent.Agent.SweepHostState` | crates/cirro-node/src/agent.rs:1191-1206 | leaves all host state at held addresses, elsewhere exactly the objects and jail files that cannot be removed, and VMMs at held addresses only |
| `Agent.Agent.Reconcile` | crates/cirro-node/src/agent.rs:1101-1147 | makes of any disk the reconciled Node, whichever removals fail |
| `Agent.Launch` | crates/cirro-node/src/agent.rs:303-326 | a new agent begins from whatever is on the Node, reconciled |
| `Vm.UnwindRemoves` | crates/cirro-node/src/vm.rs:474-483 | unwinding removes exactly the objects on the stack, failing steps apart |
| `Vm.Vm.Adopt` | crates/cirro-node/src/vm.rs:380-399 | an adopted VM's stack is a fully started one's |
| `Vm.Vm.HostSteps` | crates/cirro-node/src/vm.rs:579-717 | whatever an earlier VM left there: works if and only if each of its calls does; stopped anywhere, the undo steps pushed are those its calls say, and every object is on that stack, was there before, or is a namespace half made; done, the stack is the whole one, and the namespace and the link are there |
| `Vm.Vm.Teardown` | crates/cirro-node/src/vm.rs:474-483 | no VMM lives and the whole stack is unwound |
| `Vm.Vm.Start` | crates/cirro-node/src/vm.rs:337-346 | succeeds if and only if every call on the host and every one for the guest works, and then its VMM lives, with its namespace and link; failed at any step, having made its objects or not, a start leaves an object whose undo works if and only if it was there before and has no undo step pushed, or is a namespace half made |
| `Vm.HalfMadeNamespaceLeft` | crates/cirro-node/src/vm.rs:579-600 | a start that leaves a namespace behind though every undo step works |
| `SnapshotFiles.MoveFiles` | crates/cirro-node/src/vm.rs:875-889 | tries every rename and says whether all worked |
| `SnapshotFiles.MovedIs` | crates/cirro-node/src/vm.rs:875-889 | file by file, what any of the renames being refused leaves on both sides, and that nothing else changes |
| `SnapshotFiles.FailedWakeKeepsSnapshot` | crates/cirro-node/src/vm.rs:351-365 | for every content of the directories, every place a wake fails and every set of refused renames, the parked directory is as it was if and only if, for each of the three files, one that was moved in is not refused, and under the name of one that was not the directory taken for the jail has nothing or an equal file, or its rename is refused |
| `SnapshotFiles.FailedWakeInNewJail` | crates/cirro-node/src/vm.rs:348-350 | so with a namespace, a jail that had none of the files, and renames that work, every failed wake puts the snapshot back |
| `SnapshotFiles.RootfsReplaced` | crates/cirro-node/src/vm.rs:357-357 | an input on which a failed wake replaces the snapshot's rootfs |
| `SnapshotFiles.LeftoverReplaces` | crates/cirro-node/src/vm.rs:351-365 | one on which it does with a rootfs left in the jail |
| `SnapshotFiles.Park` | crates/cirro-node/src/vm.rs:821-869 | kept exactly when every call works, with the three files of this park; resumed exactly when the VM was not paused or could be resumed, its rootfs where it was; else lost; the VMM is dead exactly when its snapshot was taken; failed, no file stays, and nothing outside its own files ever changes |
| `Supervisor.WhileUp` | crates/cirro-node/src/vm.rs:430-469 | one event before any graceful stop: which end the VM, for what reason, and that a park is answered |
| `Supervisor.WhileStopping` | crates/cirro-node/src/vm.rs:774-812 | one event after: never ends as parked, and still answers a park |
| `Supervisor.Supervise` | crates/cirro-node/src/vm.rs:424-428 | over every event sequence: stops at the first that ends the VM, which explains the reason; each park answered once and in order, Ok exactly when the VM ends as parked, its VMM dead; torn down once |
| `Traffic.EveryStateSound` | crates/cirro-node/src/agent.rs:147-209 | in every interleaving the count is the requests in flight, a claimed VM's flag is set, and what the idle parker saw stays so |
| `Traffic.NoneInFlight` | crates/cirro-node/src/agent.rs:1262-1285 | from an idle claim until its release no request is in flight to the claimed VM |
| `Traffic.OneParkAtATime` | crates/cirro-node/src/agent.rs:178-186 | no VM is ever claimed by two parks |
| `Traffic.ParkingExactly` | crates/cirro-node/src/agent.rs:178-186 | a VM is closed to requests and other parks exactly as long as some park claims it |
| `Traffic.LookLetsGo` | crates/cirro-node/src/agent.rs:1269-1285 | a look of the idle parker lets go of the table when it is over, and changes nothing but the flag of a VM it claims |
| `Traffic.ClaimedAfterIdleTime` | crates/cirro-node/src/agent.rs:167-171 | when writes to `last` keep their order, nothing finished within the idle time before a claim, nor did a park fail whose write is in |
| `Traffic.ClaimsExactly` | crates/cirro-node/src/agent.rs:167-171 | and then a look at a VM with no request and no park claims it if and only if a whole idle time has gone since the last finish and the last failed park that was noted |
| `Traffic.EarlyAfterRequestExactly` | crates/cirro-node/src/agent.rs:204-209 | in any run a look may claim too early after a request if and only if the clock last written to `last` is older than the one a request last read, and the idle time since is not over |
| `Traffic.EarlyAfterFailureExactly` | crates/cirro-node/src/agent.rs:1287-1297 | and after a failed park if and only if the clock last written is older than the failure; with writes in order only while that park still owes its write |
| `Traffic.SentToClaimedExactly` | crates/cirro-node/src/agent.rs:831-836 | a park goes to the VM it claimed if and only if no VM has ended between its claim and its being sent, and an idle one then meets no request |
| `Traffic.MeetsRequestExactly` | crates/cirro-node/src/agent.rs:831-836 | an idle park reaches a VM with a request in flight if and only if a VM has ended between its claim and its being sent, and a request has entered since on the one that runs then and has not left |
| `Traffic.OvertakenWrite` | crates/cirro-node/src/agent.rs:204-209 | a reachable state in which a VM is claimed at the moment a request finished |
| `Traffic.RetriedAtOnce` | crates/cirro-node/src/agent.rs:1287-1297 | a reachable state in which a VM is claimed at the moment its idle park failed |
| `Traffic.BusyVmParked` | crates/cirro-node/src/agent.rs:831-836 | a reachable state in which an idle park has gone to a VM serving a request |
| `Edge.Resolve` | crates/cirro-node/src/agent.rs:1494-1545 | whatever the table shows and however wakes end, at most one wake of a request fails, none follows a failed one or a hold for a start, and the answer says what the code promises; what the table shows is `HeldRequests.LookAgrees` and `Agent.Agent.StepFor` |
| `ImagePaths.Normalise` | crates/cirro-image/src/lib.rs:368-382 | refuses exactly the paths with a `..`, and gives the rest in plain components |
| `ImagePaths.NormaliseIdempotent` | crates/cirro-image/src/lib.rs:368-382 | a normalised path is its own normal form |
| `ImagePaths.BelowIsPrefix` | crates/cirro-image/src/lib.rs:172-187 | at or below a path by string is at or below it by components, whatever those are |
| `ImagePaths.UnderIsPrefix` | crates/cirro-image/src/lib.rs:172-187 | below a directory by string prefix is below it by components |
| `ImagePaths.SplitJoin` | crates/cirro-image/src/lib.rs:386-396 | taking a path apart and putting it together gives it back |
| `Image.ScanExact` | crates/cirro-image/src/lib.rs:172-187 | the ordered scan with its early stop finds every key with the prefix, and only those |
| `Image.Flattened.RemoveChildren` | crates/cirro-image/src/lib.rs:172-187 | deletes exactly what is strictly below the directory |
| `Image.Flattened.Remove` | crates/cirro-image/src/lib.rs:167-170 | deletes a path and all below it |
| `Image.Flattened.Apply` | crates/cirro-image/src/lib.rs:93-165 | refuses exactly the layers with an entry it cannot take, and else makes the layer's tree, which `Overlay.TreeIsMeaning` says in components |
| `Image.Open` | crates/cirro-image/src/lib.rs:76-90 | all layers in order, refused exactly when some layer is, the tree being what `Overlay.FlattenIsMeaning` says in components |
| `Overlay.TreeIsMeaning` | crates/cirro-image/src/lib.rs:93-165 | after every entry of every layer the tree built in place is the declarative one, in which whiteouts, entries and directories are told by path components |
| `Overlay.FlattenIsMeaning` | crates/cirro-image/src/lib.rs:76-165 | for every list of layers the flattened tree is the declarative one: what no later opaque marker, no later whiteout of the path or of a directory above it, and no later entry took away |
| `Overlay.FlattenHolds` | crates/cirro-image/src/lib.rs:93-165 | of one entry: it is at a path if and only if it wins there |
| `Overlay.HidesIs` | crates/cirro-image/src/lib.rs:115-123 | what a whiteout removes, by string: the name after `.wh.` in its directory with all below it, all below its directory for the opaque marker, everything for a bare `.wh.` at the root, and nothing else, by components |
| `Overlay.RefusedExactly` | crates/cirro-image/src/lib.rs:124-152 | an entry is refused if and only if its path has a `..`, or it is no whiteout and is of an unsupported type or a hard link to a path with one |
| `Overlay.OpenedStaysWithin` | crates/cirro-image/src/lib.rs:76-165 | in a tree that is opened every path is a normal one, every entry of a supported type, and every hard link stays within the image |
| `Overlay.HideAllIs` | crates/cirro-image/src/lib.rs:115-123 | a layer's whiteouts, wherever in it they are listed, take exactly the paths that one of them covers by components |
| `Overlay.OverlayExactly` | crates/cirro-image/src/lib.rs:153-161 | after every entry of every layer the tree is the image specification's, in which directories always merge, if and only if none is listed over an implied one |
| `Overlay.ParentsFirstOverlays` | crates/cirro-image/src/lib.rs:153-161 | layers that list each directory before what is in it are read as the specification says |
| `Overlay.ImpliedDirCleared` | crates/cirro-image/src/lib.rs:155-161 | two layers on which a directory loses its child |
| `Overlay.HidesEverything` | crates/cirro-image/src/lib.rs:115-123 | besides the root's opaque marker, only a whiteout of the empty name at the root hides everything |
| `Rootfs.WithGuestFiles` | crates/cirro-image/src/lib.rs:253-280 | closed under parents, with the guest's files and mount points in place and the image's own entries otherwise kept |
| `Rootfs.WriteTar` | crates/cirro-image/src/lib.rs:284-355 | each path once, each directory before all in it, and a hard link after its target if and only if that is no hard link or comes first in path order |
| `Rootfs.LinkToLinkFirst` | crates/cirro-image/src/lib.rs:327-327 | a tree whose hard link is written before its target |
| `Target.ShowThenParse` | crates/cirro-node/src/agent/machine.rs:651-690 | what is shown of a target reads back as it |
| `Target.ParseExactly` | crates/cirro-node/src/agent/machine.rs:651-690 | a text is taken for a target if and only if it is its user and host, and a port in decimal unless that is 22, each fit to be an `ssh` argument |
| `Target.RecordedTargetKept` | crates/cirro-node/src/agent/machine.rs:651-690 | what is recorded of any accepted text reads back as the same target |
| `Tunnel.RunSsh` | crates/cirro-node/src/agent/machine.rs:599-631 | from any lines: whether it logged in, whether the host key was another, and the last line that says why, if any does |
| `Tunnel.RunTunnel` | crates/cirro-node/src/agent/machine.rs:562-588 | over any series of runs each retry waits min(2^n, 30) seconds, n being how many runs there were since the last that logged in, or the first; and none follows a changed key |
| `Tunnel.WaitIs` | crates/cirro-node/src/agent/machine.rs:545-548 | the nth retry in a row waits min(2^(n-1), 30) seconds |
| `Tunnel.EveryStateSound` | crates/cirro-node/src/agent/machine.rs:433-468 | in every interleaving each link says what its own `ssh` has seen, and only the current generation's runs on |
| `Tunnel.UpMeans` | crates/cirro-node/src/agent/machine.rs:597-631 | Up if and only if the current generation's `ssh` has logged in and runs, or has ended and the link is still to be told |
| `Tunnel.LoginIsMarked` | crates/cirro-node/src/agent/machine.rs:599-631 | a login that is seen puts the link up |
| `Tunnel.EndIsMarked` | crates/cirro-node/src/agent/machine.rs:562-588 | the end of an `ssh` puts the link down and records a changed key if one was seen; the task runs `ssh` again if and only if none was |
| `Tunnel.OneTaskRuns` | crates/cirro-node/src/agent/machine.rs:433-468 | a Machine that is added, changed or restarted with gets a new generation, the only one that may run `ssh`; removed, it has none |
| `Tunnel.LatchHolds` | crates/cirro-node/src/agent/machine.rs:451-453 | with a changed host key on the current link no `ssh` starts, and the latch stays if and only if the Machine is not removed and the agent not restarted |
| `Tunnel.NoSshOnceLatched` | crates/cirro-node/src/agent/machine.rs:562-588 | over whole runs, however its Apps change |
| `Tunnel.OldGenerationHarmless` | crates/cirro-node/src/agent/machine.rs:45-47 | an old `ssh` ending never marks the new one down |
| `Tunnel.RestartForgetsLatch` | crates/cirro-node/src/agent/machine.rs:88-112 | a reachable state in which an agent restart runs `ssh` again after a changed key |
| `Machines.Machines.AddApp` | crates/cirro-node/src/agent/machine.rs:167-219 | adds exactly when name and hostname are free and the Machine connects and records; else memory and database are as before, and the reason is the first in order; they always agree |
| `Machines.Machines.RemoveApp` | crates/cirro-node/src/agent/machine.rs:223-240 | removes from both or neither, and says whether there was one |
| `Machines.Machines.CheckApp` | crates/cirro-node/src/agent/machine.rs:172-187 | refuses for the first reason in order, naming the hostname's owner |
| `Acme.Acme.Look` | crates/cirro-edge/src/acme.rs:150-165 | goes on exactly when neither check of the state machine stops it, and takes both steps |
| `Acme.Acme.Start` | crates/cirro-edge/src/acme.rs:331-341 | takes the state machine's step: the hostname, exactly when no order has it |
| `Acme.Acme.Answer` | crates/cirro-edge/src/acme.rs:344-351 | takes the state machine's step: the token is served, and kept to be taken back |
| `Acme.Acme.Drop` | crates/cirro-edge/src/acme.rs:354-361 | its loop takes the state machine's two steps: every token of the order, then its hostname |
| `Acme.Acme.Record` | crates/cirro-edge/src/acme.rs:169-187 | takes the state machine's step, for either result |
| `Acme.EveryStateSound` | crates/cirro-edge/src/acme.rs:150-188 | in every interleaving of calls each hostname being ordered is one order's, the backoff fits the failures, and nothing is served that no live order asked for |
| `Acme.OneLiveOrder` | crates/cirro-edge/src/acme.rs:331-341 | at most one order per hostname lives |
| `Acme.FailureWaits` | crates/cirro-edge/src/acme.rs:179-187 | the kth failure in a row waits min(300 * 2^(k-1), 21600) seconds |
| `Acme.ServedExactly` | crates/cirro-edge/src/acme.rs:354-361 | a step keeps all live orders' challenges served if and only if it does not drop an order that shares a token with another |
| `Acme.ServedAreLive` | crates/cirro-edge/src/acme.rs:320-323 | with tokens of each order's own, the challenges served (section 8.3 of RFC 8555) are exactly the live orders' |
| `Acme.ServesLastKey` | crates/cirro-edge/src/acme.rs:344-351 | over any run what is served for a token is the key it was last answered with |
| `Acme.SharedTokenLost` | crates/cirro-edge/src/acme.rs:354-361 | a reachable state in which a live order's challenge is not served |
| `Acme.TooSoonExactly` | crates/cirro-edge/src/acme.rs:150-168 | once a call has looked, its hostname is waiting at a later moment if and only if the last order of it to end since failed and its wait, by the number of failures in a row, has not run out |
| `Acme.FreshExactly` | crates/cirro-edge/src/acme.rs:150-168 | and its certificate is fresh if and only if an order has ended with one since and the last of these still is |
| `Acme.BegunTooSoon` | crates/cirro-edge/src/acme.rs:150-168 | a reachable state in which one begins within a wait |
| `GuestInit.EveryStateSound` | crates/guest-init/src/main.rs:33-58 | in every interleaving of signals, forks, ends and orphans with `main`, the pid kept, the flag and the processes fit together |
| `GuestInit.AnsweredExactly` | crates/guest-init/src/main.rs:246-327 | once `main` waits for the app, a shutdown request has become a SIGTERM to it if and only if it came with the handler in place, outside `accept` and before the app was reaped; one that came otherwise never does |
| `GuestInit.ForwardedAtOnce` | crates/guest-init/src/main.rs:51-58 | from `APP_PID`'s being set until the app is reaped a signal is a SIGTERM to the app at once |
| `GuestInit.StillForwarded` | crates/guest-init/src/main.rs:320-327 | a signal that came before the app is answered by `main`'s own next steps |
| `GuestInit.PanicsExactly` | crates/guest-init/src/main.rs:142-142 | PID 1 panics if and only if a signal interrupts `accept` |
| `GuestInit.NeverForwarded` | crates/guest-init/src/main.rs:142-142 | and then no signal ever becomes a SIGTERM |
| `GuestInit.AcceptInterrupted` | crates/guest-init/src/main.rs:142-142 | a reachable state in which it has |
| `GuestInit.SignalLost` | crates/guest-init/src/main.rs:246-257 | a reachable state in which the app runs and a request that came before the handler is lost |
| `GuestInit.DownWithoutProcesses` | crates/guest-init/src/main.rs:272-281 | the machine goes down only when no process is left, and none comes after |
| `GuestInit.OrphansAreReaped` | crates/guest-init/src/main.rs:272-281 | a process that loses its parent stays in use and, once it ends, is PID 1's to reap |
| `GuestInit.PowersOff` | crates/guest-init/src/main.rs:272-281 | once every process has ended, `main`'s own next steps reap them all and take the machine down |
| `GuestInit.HitsExactly` | crates/guest-init/src/main.rs:272-281 | in any run the SIGTERMs that reach another process are exactly those of signals between the app's being reaped and `APP_PID`'s being cleared, with the pid in use again |
| `GuestInit.ReusedPidHit` | crates/guest-init/src/main.rs:272-281 | a reachable state in which it would |
| `GuestInit.ReapUntilNoChildren` | crates/guest-init/src/main.rs:272-281 | ends exactly at the first "no child", with `APP_PID` cleared exactly if the app was among those reaped |
| `Logs.Chunk` | crates/cirro-node/src/agent.rs:1667-1674 | the next bytes of the log, all the rest of it when short of a chunk |
| `Logs.PrintLog` | crates/cirro/src/main.rs:937-968 | however the log grows between polls, what is printed is its beginning; a plain `logs` stops at the first read short of a chunk, with all that was there when it began; a follow stops at the first such read whose poll saw the VM ended, with all that was written by then |
| `Logs.LogNumberRoundTrip` | crates/cirro-node/src/agent.rs:1651-1662 | a log's number reads back from its file name, whatever the VM's name |
| `Logs.NextLogNumber` | crates/cirro-node/src/agent.rs:1651-1662 | one past the highest number any file carries |
| `Logs.NewLogIsNew` | crates/cirro-node/src/agent.rs:652-655 | no start reuses a log that is there |
| `Subnet.NothingOverflows` | crates/cirro-node/src/subnet.rs:39-57 | for every prefix length from 16 to 30 no 32-bit address computation wraps |
| `Subnet.BroadcastIsLast` | crates/cirro-node/src/subnet.rs:45-57 | the broadcast address is the last of the subnet's |
| `Subnet.WithLow16Inverse` | crates/cirro-node/src/subnet.rs:45-51 | the low 16 bits give back an address if and only if it is a VM's, and never any but a VM's |
| `Subnet.ParseOfHostId` | crates/cirro-node/src/vm.rs:299-302 | a host id reads back as the address's low 16 bits |
| `Subnet.HostIdRoundTrip` | crates/cirro-node/src/vm.rs:1081-1087 | from a host object's name the sweep gets back the VM address that made it, and only such addresses |
| `Subnet.ParsedHostIdFits` | crates/cirro-node/src/vm.rs:1081-1087 | every name that passes is a 16-bit word |
| `Subnet.HostIdsAndUidsDistinct` | crates/cirro-node/src/vm.rs:587-589 | no two VM addresses of a subnet share a host id or a uid |
| `Subnet.SubnetRoundTrip` | crates/cirro-node/src/subnet.rs:15-39 | every printed subnet parses back to itself |
| `Subnet.ParseOfAnyAddress` | crates/cirro-node/src/subnet.rs:15-29 | any address with a length from 16 to 30 reads as the subnet it is in |
| `Subnet.StoreTakesItsOwnSubnet` | crates/cirro-node/src/state.rs:93-111 | the state database takes an agent back if and only if its subnet is the one it was made for |

## Left out

- Foreign calls (`ip`, `nft`, jailer, Firecracker's API, cgroups, `ssh`, SQLite, the ACME exchange): each is a step that works or fails, with the objects it may leave; the database is a map with atomic writes.
- HTTP, TLS, tar, gzip and ext4 encodings, the TUI and the CLI's parsing and tables, metrics, run configuration, image cache, install and release: little but plumbing or small folds.
- A VM's memory, vCPUs and times, the texts of errors, the recorded reason of a failed wake beyond `Edge.Resolve`, and name and route syntax checks: they change nothing in the protocol.
- A console log, or a used-up snapshot's empty directory, whose removal fails while the agent runs: the code ignores it and so does nothing else; a starting agent's removals may fail, and `Outcomes.NoLogLeftBehind` says so.
- Shutting down: it only refuses starts and waits for those under way.
- A `reconcile` that stops because the database refuses an end or a directory cannot be read: it is a crash between two of its actions, from which a run may restart; records that name no address or process are not represented.
- The bound of four on a supervisor's channel: a park that waits for room in it counts as queued. Requests to stop a VM that share the channel may come at any time.
- A snapshot whose load fails is taken not to have run, and files other than a snapshot's three, in jails and parked directories, are not told apart.
- An ACME order's success removes the failure and stores the certificate under two locks; `Acme` takes both in one step.
- Panics of the agent's own tasks, and Machines that fail to be restored.
- Jailer is taken to be in its cgroup when that is killed, and a killed VMM to be dead when its host state is removed.
- An aborted `ssh` task ends at its next `await`: between that and the abort it may finish writing to its own, old, link, but starts nothing.
- Order of notification: `Registry` marks all held requests at once, as `notify_waiters` does for those already listening.
- A console log whose file is removed, or whose name is reused, while a client follows it: `Logs.PrintLog` is about a log that is only added to.
- `crates/cirro-node/src/agent.rs` reads a start's log number before it takes the lock; the model takes both at once, which only the order of the numbers could tell.
- Numbers past 2^64 in log names: `Logs.NewLogIsNew` is about numbers that fit.
