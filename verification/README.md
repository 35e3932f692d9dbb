# A model of the fleet deploy tool and the Ceph backup job

This project models, in Dafny, the parts of the repository whose correctness depends on order, concurrency or
partial failure:

- **The build, copy and activate pipeline** as one concurrent machine: a build, a poller, any number of copy
  workers, two bounded channels, one activation worker, and the result slots that start out as *Deployed*
  (`Pipeline.dfy`, `PipelineSafety.dfy`, `PipelineProgress.dfy`, `PipelineSupply.dfy`, `PipelineOutcome.dfy`,
  `StopRule.dfy`, `PipelineMisses.dfy`, `PipelineTrail.dfy`, `Polling.dfy`).
- **The deploy of one host**, command by command. Every command may fail, take effect, or take effect and lose
  its reply; the host may reboot before any command. `Session.dfy` and `Deploy.dfy` are the code;
  `Watchdog.dfy`, `Noout.dfy` and `Master.dfy` are three disciplines that the code is proved to follow, each a
  fold over the log of commands and replies; `WatchdogTheorems.dfy` and the second halves of `Noout.dfy` and
  `Master.dfy` turn each fold into statements about the events themselves, and `WatchdogTraces.dfy` builds the
  stretches of events on which a promise breaks. `Progress.dfy` counts what a deploy has done and `Exits.dfy` says
  exactly how it may end; `Causes.dfy` and `Endings.dfy` turn that into the causes of a failure, read off the events,
  and `Modes.dfy` says what each mode sends. `Kernel.dfy` decides whether a reboot is owed.
- **Whole runs**: the scheduler that drives the pipeline into deploys, the serial loop of the other two modes, the
  evals and prechecks in front and the exit code behind (`Fleet.dfy`, `Run.dfy`, `Precheck.dfy`, `Program.dfy`,
  `Hosts.dfy`; `Listing.dfy` has what lists picked in order have in common).
- **The RBD backup job**: a pool of images, snapshots, clones, mappings and mounts, the job's commands on it,
  runs cut anywhere, and the cleanup of the next run (`Rbd.dfy`, `Tidying.dfy`, `Backup.dfy`).
- **The line-prefixing writer** (`Output.dfy`).

Replies, store contents, listings, the schedule, the prompt, the clock and reboots are nondeterministic. A
session's methods are proved once for every choice.

## Where the code does not do what it says

- *Already running and booting this config.* `deploySafe` skips a host whose active path and system profile are
  the plan (deployment/deploy.go:110-115). The boot entry is never read. A persist that sets the profile and
  fails at the boot entry leaves the two apart (`WatchdogTheorems.HalfPersisted`); the next deploy of the same path
  skips the host and reports it deployed although it boots something else
  (`WatchdogTraces.SkippedWithStaleBootEntry`). `WatchdogTraces.FailedBootSwitch` is such a first deploy on a host
  whose paths all agreed, and `Program.TrueBootsPlanInEveryRun` says for every run exactly when true means that the
  plan boots.
- *Deployed and persisted successfully* (deployment/deploy.go:199). On a host that reboots between the read-back and
  the disarm, say because the watchdog fires, every later command can succeed while the old system runs
  (`WatchdogTraces.RebootInWindow`). `WatchdogTheorems.TrueRunsPlanIff` says exactly when the plan runs on a host that
  does not reboot by itself.
- *Every command routed through here is idempotent, so the retry is always safe* (deployment/ssh.go:210-211). It is,
  even across a reboot between the tries, for every command but one: a boot switch whose first try takes effect and
  loses its reply leaves, after a reboot, a state that no single try leaves. `Wire.RedialRefinesOnce` has the exact
  condition.
- *A path appearing is unambiguous evidence that this host's build is done* (deployment/pipeline.go:156-159). A path
  not appearing is not the reverse: a store query that fails in the last sweep, by its timeout for one, reports a
  host that was built as not built. `PipelineOutcome.ScheduleIndependent` says that exactly those hosts' results
  depend on timing, and `PipelineMisses.MissChangesResult` gives, for every host that needs a build, two schedules
  with different results.
- *Failing to remove something fails the run* (modules/services/ceph-backup.nix:77-78). Failing to *list* does
  not: the listings sit in a loop's command substitution, where neither errexit nor pipefail acts. What the listings
  hide is an input of the model, and `Backup.BackupRun.Cleanup` says exactly what a successful cleanup leaves: what
  they hide, and nothing else. It succeeds, but for failing commands, if and only if nothing that shows is held by
  something hidden (`Tidying.Blocks`). In `Backup.CleanupLeavesSnapshot` a cut run's snapshot survives a successful
  cleanup; in `Backup.RunOverNoImages` a main listing that prints nothing ends in a recorded success over no images,
  with every status file dropped.
- *Forget volumes that no longer exist* (modules/services/ceph-backup.nix:152-158). `grep -q` leaves at its first
  match; a listing too long to be printed by then fails the pipeline under pipefail, and the status of a volume that
  does exist is dropped, as in `Backup.RunDropsLiveStatus`. Which checks break off is an input too:
  `Backup.BackupRun.Run` says that a listed volume's status is kept if and only if its own does not.
- `priorPath` is the path that was *active*, not the one the host would boot, so a watchdog reboot lands on
  the pre-deploy boot default (`WatchdogTheorems.RebootBeforePersist`), which need not be `priorPath` as the
  comment at deployment/deploy.go:158-164 has it.

## Model

| member | source | states |
|---|---|---|
| `PipelineSafety.Keeps` | deployment/pipeline.go:89-149 | every step of the seeding loop, build, poller, copy workers and activation worker keeps every host in exactly one place, with its slot and the history agreeing |
| `PipelineSafety.FinishedRun` | deployment/pipeline.go:89-151 | under every schedule, on return each host has one verdict, its slot holds it, Deploy was called once for it exactly when the slot reads Deployed or DeployFailed, and no slot is left on its initial value |
| `PipelineSafety.FinishedIsEmpty` | deployment/pipeline.go:128-151 | on return no host is in a queue, at a worker or with the poller: its only place is its verdict |
| `PipelineSafety.StartInv` | deployment/pipeline.go:89-110 | the invariant holds before the first step, for every todo list with distinct names |
| `Pipeline.Config.SlotOwn` | deployment/pipeline.go:89-95 | with distinct names the name index sends each status to its own host's slot |
| `PipelineProgress.SendsNeverBlock` | deployment/pipeline.go:97-110 | in every reachable state each send, the seeding ones before any receiver exists included, finds room in a channel that is open |
| `PipelineProgress.NextStep` | deployment/pipeline.go:112-149 | until RunPipeline returns some step is enabled: no deadlock |
| `PipelineProgress.Decreases` | deployment/pipeline.go:112-149 | every step of every schedule lowers one measure over poll ticks left and stages left per host |
| `PipelineProgress.SchedulesAreBounded` | deployment/pipeline.go:112-151 | no schedule is longer than the measure of the state it starts in |
| `PipelineOutcome.BuildAndCopyFailuresFixed` | deployment/pipeline.go:128-200 | for every run and whatever queries answer, in terms of each host's path, store and copy: BuildFailed exactly when it was not up to date and its path never appeared, or the last sweep missed it; CopyFailed and reaching activation likewise settled both ways |
| `PipelineOutcome.FailuresAgreeAcrossRuns` | deployment/pipeline.go:128-200 | two runs with the same builds and copies agree on a host being BuildFailed and being CopyFailed if and only if their last sweeps missed it in both or in neither, whatever the schedules, worker counts, on-failure values and activations |
| `PipelineOutcome.ActivationIsSequentialFold` | deployment/pipeline.go:213-241 | exactly the built, copied and not missed hosts arrive, once each, and get the statuses of a sequential fold over the order of arrival |
| `PipelineOutcome.FoldWithoutHalt` | deployment/pipeline.go:213-237 | when no failing host stops the rest, the fold's verdict on a host does not depend on the order |
| `PipelineOutcome.ScheduleIndependent` | deployment/pipeline.go:77-242 | with continue and no failing k3s host every schedule gives every host one fixed result, if and only if the last sweep did not miss it |
| `StopRule.CancelledIff` | deployment/pipeline.go:213-241 | in every finished schedule the hosts that reach activation do so once each; the host at any position is Cancelled if and only if one that arrived before it failed and has "k3s" among its groups, or failed at all when on-failure is stop; every other one has what its own deploy gave |
| `StopRule.DrainedRight` | deployment/pipeline.go:213-237 | the same of the activation worker alone, for every order of arrival and all outcomes, and it is halted exactly after such a failure |
| `PipelineMisses.MissChangesResult` | deployment/pipeline.go:174-194 | for every host that needs a build and whose path appears, two whole schedules with the same outcomes, one that builds it and one that reports it BuildFailed |
| `PipelineMisses.RunToEnd` | deployment/pipeline.go:77-151 | under any fixed outcomes some schedule reaches the end, with honest answers throughout or with a miss at every query |
| `PipelineSupply.KeepsSupplied` | deployment/pipeline.go:112-145 | every step keeps: the build was given exactly the derivations of the hosts to build and the extra ones, copies carry own paths, and whoever is past the copy stage was up to date or shipped |
| `Polling.SortIsStable` | deployment/pipeline.go:171-172 | the poller's sort is ordered by the hosts' order numbers and keeps hosts of equal order as they were |
| `Polling.Sweep` | deployment/pipeline.go:174-184 | the in-place compaction over the aliased array is the order-preserving filter of what it held, and what it sends is the complementary filter |
| `Polling.PickedSplits` | deployment/pipeline.go:174-184 | what is kept and what is sent are together the pending hosts, each as often |
| `Polling.PickedInOrder` | deployment/pipeline.go:171-184 | both halves of a sweep stay in host order |
| `Polling.MachineSweep` | deployment/pipeline.go:174-184 | the machine's query steps do to its queues what the array code does |
| `Polling.PollBuilds` | deployment/pipeline.go:160-200 | over all sweeps, dispatched plus unbuilt is a permutation of pending, nothing is dispatched twice, and each sweep dispatches in order |
| `PipelineTrail.TrailStep` | deployment/pipeline.go:112-237 | a schedule taken one step at a time, each deploy's result noted when it is known, is a schedule with those outcomes from the start |
| `Fleet.RunPipeline` | deployment/pipeline.go:77-151 | results, copies and builds are those of a whole schedule of the machine, in which a deploy works exactly where the log says it returned true; every host gets one verdict, its slot holds it, and the begins and ends in the log are exactly the verdicts'; a host that arrived is cancelled exactly after a failure of a k3s node, or any when failures are final; the build is asked for exactly the stale hosts' and extra derivations, every copy is a host's own path, and none that needs one is deployed without |
| `Fleet.EventMeansVerdict` | deployment/pipeline.go:219-225 | a host's deploy of its own path returned true exactly when it has the verdict Deployed |
| `Fleet.Activate` | deployment/pipeline.go:219-237 | one activation keeps log, verdicts and noout warnings in step; a noout left set means the rest is halted |
| `Fleet.NewEventsCarry` | deployment/deploy.go:107-181 | every event a run adds to the log is of one of its jobs, every begin is in the run's mode, and every path begun, ended or switched to is that job's |
| `Fleet.SerialDeploys` | deployment/main.go:251-266 | the serial loop deploys in order, each in the mode asked for, goes on after every failure but the first of a host with "k3s" among its groups or, when failures are final, of any, stops exactly there, and names exactly the hosts that failed |
| `Fleet.FailedAt` | deployment/main.go:251-266 | the names reported are those of exactly the called hosts whose deploy did not return true, in order |
| `Precheck.ResolveToplevels` | deployment/build.go:52-92 | with slots filled in any order: all or nothing; on an error the names are exactly those of the hosts whose eval failed, did not parse or lacks a half, each once and in host order; else every host has its own toplevel under its own name |
| `Precheck.PrecheckHost` | deployment/precheck.go:67-95 | failed exactly when unreachable, skipped exactly when unreachable or a printer that is not idle and not forced, up to date exactly when both paths read are the plan, and the plan carries the two halves of the given toplevel |
| `Precheck.PrecheckAll` | deployment/precheck.go:48-65 | results keep host order and each is made from its own host's toplevel and probe, whatever order the probes finish in |
| `Run.Partition` | deployment/main.go:213-237 | the names that failed the precheck, the names skipped and the jobs to deploy, each in order, and whether a k3s node failed |
| `Run.FaultyAt` | deployment/main.go:214-225 | the failed names are those of exactly the hosts whose precheck failed, in host order |
| `Run.SkippedAt` | deployment/main.go:214-225 | the skipped names are those of exactly the hosts left out without a failure, in host order |
| `Run.TodoAt` | deployment/main.go:214-225 | the jobs are those of exactly the hosts not left out, in host order |
| `Run.NotDeployedAt` | deployment/main.go:239-250 | in safe mode the failed names are those of exactly the hosts whose slot does not read Deployed, in order |
| `Run.RunFleet` | deployment/main.go:213-285 | exit 0 exactly when no precheck failed, every host to deploy had its deploy return true and every build-only path is valid; the failed names are the faulty ones, then those of the deploys; what was asked, shipped, skipped and logged; a k3s precheck failure asks for and sends nothing |
| `Run.DeployAll` | deployment/main.go:239-266 | either deploy loop fails nobody exactly when every host's deploy of its own path returned true; the names it gives are, in order, in safe mode those of every job without such an end in the log and in the others of every job whose deploy the log says returned false; the log only grows, by events of these jobs in this mode; the noout warnings name exactly the host whose noout is outstanding, if any |
| `Program.Prepare` | deployment/main.go:189-203 | with distinct names every selected and every build-only host gets the Out and Drv halves of its own eval, or nobody does |
| `Program.Orchestrate` | deployment/main.go:186-285 | exit 0 exactly when every eval is usable, every host reachable and skipped by policy or deployed with success, and every build-only Out in the store; every deploy is begun in the mode asked for, and every one begun or ended and every path switched to is the own eval's Out; in safe mode the derivations asked for are exactly the own Drvs of the hosts that need a build, then the build-only ones; every copy is an own Out, and every such host deployed with success had one; noout warnings exact; the log only grows |
| `Program.OwnDrvAsked` | deployment/pipeline.go:112-117 | every reachable, not skipped, not up-to-date host has its own Drv among those asked for |
| `Program.OwnDrvsAt` | deployment/pipeline.go:112-117 | and those are the only ones: one for each reachable host, not a busy or silent printer unless forced, that does not run and keep its Out, in host order |
| `Program.EveryRunIsSafe` | deployment/main.go:239-266 | over every run's log: the ssh master rule, at most one outstanding noout at any step and none when a deploy starts, and every stretch of a safe deploy possible, within the watchdog discipline and ended as it allows, under its own name and path |
| `Program.TrueBootsPlanInEveryRun` | deployment/deploy.go:107-201 | in every run, a safe deploy that returned true leaves the plan as boot entry if and only if a watchdog arm was acknowledged in it or the entry was the plan before |
| `Program.EveryDeployIsAccounted` | deployment/deploy.go:63-250 | in every run and mode a deploy ended false if and only if its events show a cause: no probe answered; the gate refused (something down elsewhere, or the set not acknowledged); arm refused; test unacknowledged and no fresh probe answered after it; three attempts, the last not full; after a full attempt a read-back that is empty or not the plan; profile or boot write, or rebuild, not acknowledged; no answer after the reboot; twelve polls without Ready; or the noout not cleared, its clear failed or thirty looks none sent and the last not clean. And each step that worked was followed by the next |
| `Endings.EveryEndHasCause` | deployment/deploy.go:63-250 | the same of any log within the three disciplines whose ends fit |
| `Endings.DoneEnds` | deployment/deploy.go:107-250 | the body alone, both ways; outside the safe mode a rebuild is sent; in it an acknowledged arm is followed by the test, a test accepted or followed by an answered probe by an attempt, a full attempt by a read-back, a read-back of the plan by the profile write, an acknowledged profile write by the boot write and the disarm, an acknowledged boot write or rebuild by the node check where there is one |
| `Endings.CephEnds` | deployment/deploy.go:72-93 | with the gate around it: the tree is asked for, nothing down elsewhere is followed by the set, and a body that worked under it by the clear or thirty looks |
| `Program.EveryCommandFitsItsMode` | deployment/deploy.go:77-83 | in every run a nixos-rebuild is sent staged only in a deploy of mode boot and activating only in mode switch, and the watchdog, test, profile and boot-entry commands only in safe mode |
| `Program.BootActivatesNothingInAnyRun` | deployment/deploy.go:202-250 | in every run a deploy of mode boot leaves the running system as it was on a host that does not reboot |
| `Modes.CommandsOfMode` | deployment/deploy.go:77-83 | the commands of a deploy fit its mode, and it rebuilds at most once |
| `Modes.BootActivatesNothing` | deployment/deploy.go:202-250 | the same of one deploy's events, whatever took effect |
| `Modes.RebuildStays` | deployment/deploy.go:206-250 | an acknowledged rebuild is the profile and the boot entry at every later point, and in mode switch the running system too, whatever reboots come between |
| `Hosts.FleetIsSound` | deployment/hosts.go:59-144 | the managed hosts have distinct names and every Ceph host is in group k3s |
| `Wire.RedialedCommandsIdempotent` | deployment/ssh.go:206-212 | running a command's effect twice is running it once |
| `Wire.RedialRefinesOnce` | deployment/ssh.go:199-231 | some single try with the same last answer leaves the host as the redialled command did, even if the first try took effect and lost its reply and the host rebooted in between, if and only if it is not a boot switch lost across a reboot into the new entry |
| `Session.Session.SshRun` | deployment/ssh.go:213-220 | the log grows by one try, or by two with one drop between exactly when the first was a transport failure and there is a master; every try is over the shared master exactly when there is one |
| `Session.Session.SshRunOnce` | deployment/ssh.go:224-231 | exactly one try, over the shared master when there is one |
| `Session.Session.SshRunDirect` | deployment/ssh.go:237-244 | exactly one try, on a connection of its own |
| `Session.Session.DropMaster` | deployment/ssh.go:108-121 | logs a drop exactly when there is a control directory, and afterwards that host's master is not an old one |
| `Session.Session.ReachableDirect` | deployment/ssh.go:255-261 | logs one probe on a connection of its own, and is true exactly when that was answered |
| `Master.LawfulIffFreshRides` | deployment/ssh.go:101-107 | the rule the code keeps is exactly: no command rides a host's master after a disruption over it without a drop of that host's master between, in any deploy of the run, and every probe after a disruption dials its own |
| `WatchdogTheorems.EveryDeployLawful` | deployment/deploy.go:107-201 | in a lawful run the events of every safe deploy, cut anywhere, keep the discipline on which the following rows rest |
| `WatchdogTheorems.EveryDeployEndedWell` | deployment/deploy.go:107-201 | in a lawful run every safe deploy ended under its own name and path, and true only where its events say: skipped as up to date or boot write acknowledged, back from any reboot, ready |
| `WatchdogTheorems.SentUnderBegin` | deployment/deploy.go:107-181 | whatever a run sends goes to the host of the latest begin, and every path tested, kept or booted is that begin's plan |
| `WatchdogTheorems.PersistEvidence` | deployment/deploy.go:126-181 | profile and boot entry are written only with the plan, and only after an acknowledged arm, a test of the plan, one attempt that passed every check in order, and a read of the active path equal to the plan, in that order |
| `WatchdogTheorems.BootUntouched` | deployment/deploy.go:126-175 | until a persist command is sent, profile and boot entry are as before the deploy, whatever took effect |
| `WatchdogTheorems.RebootBeforePersist` | deployment/deploy.go:126-175 | a reboot at any point before that lands on the pre-deploy boot default |
| `WatchdogTheorems.AckedIsKept` | deployment/deploy.go:389-402 | an acknowledged profile or boot write is still there at every later point |
| `WatchdogTheorems.TrueBootsPlanIff` | deployment/deploy.go:107-201 | a deploy that returns true leaves the plan as boot entry exactly when it went through activation or the entry was the plan before |
| `WatchdogTheorems.TrueDeployBootsPlanIff` | deployment/deploy.go:107-201 | the same of every ended safe deploy in a run's log, with activation read off the log as an acknowledged arm |
| `WatchdogTheorems.TrueBootsPlanWhenCoherent` | deployment/deploy.go:347-363 | where profile and boot entry agreed before, and the profile reads were answered, true means the plan boots |
| `WatchdogTheorems.TrueRunsPlanIff` | deployment/deploy.go:107-201 | on a host that does not reboot by itself and answers truly, true leaves the plan running if and only if the deploy activated, or sent no reboot that took effect, or the host boots the plan |
| `WatchdogTheorems.TrueDeployRunsPlanIff` | deployment/deploy.go:107-201 | the same of every ended safe deploy in a run's log |
| `WatchdogTraces.RebootInWindow` | deployment/deploy.go:175-201 | a deploy with every command acknowledged and every read true that returns true on a host running its old system |
| `WatchdogTheorems.HalfPersisted` | deployment/deploy.go:389-402 | a persist that stops between its two steps leaves the profile on the plan and the boot entry as it was, and the plan active if the host stayed up |
| `WatchdogTraces.SkippedWithStaleBootEntry` | deployment/deploy.go:110-124 | after every half persist, the next deploy's probe, gate, reads, kernel queries and node check, all answered and true, end in true on a host that boots what it booted before |
| `WatchdogTraces.FailedBootSwitch` | deployment/deploy.go:126-184 | a first deploy of that kind, command by command, on a host that ran, kept and booted one path |
| `WatchdogTheorems.ArmedOnce` | deployment/deploy.go:276-292 | the arm command is sent at most once per deploy |
| `WatchdogTheorems.TimerLeftArmed` | deployment/deploy.go:129-175 | an acknowledged arm with no disarm sent leaves that timer live, unless the host rebooted since |
| `WatchdogTheorems.UndisarmedTimerIsLive` | deployment/deploy.go:129-175 | the same at every point of every run's log |
| `WatchdogTheorems.DisarmOnlyWhenHarmless` | deployment/deploy.go:129-171 | before a persist, a disarm is sent only if no arm was acknowledged and nothing activated, or the path read back is non-empty, as before the deploy, and not the plan |
| `Deploy.DeploySafe` | deployment/deploy.go:107-201 | keeps the discipline; every way out is characterised: true after an up-to-date check or an acknowledged boot write with the host back and ready, false only at a named step, after three attempts or twelve polls where those are the reason; the timer disarmed exactly where it may be; a reboot sent and warned about exactly as the flag and the kernel answers say |
| `Deploy.FinishSafe` | deployment/deploy.go:176-201 | from a verified activation: clears a stuck unit, persists, disarms in either case, goes on to the checks exactly after an acknowledged boot write and returns what they say |
| `Deploy.DeployUnsafe` | deployment/deploy.go:206-250 | sends one rebuild, staged exactly in mode boot; true exactly when it succeeded, the host is back from any reboot and the node is ready; a staged one always owes a reboot |
| `Deploy.HostAtPath` | deployment/deploy.go:356-363 | up to date exactly when both reads returned the non-empty plan; the active path is handed back |
| `Deploy.ArmWatchdog` | deployment/deploy.go:276-292 | one command, no redial; the unit name comes back whether or not it was acknowledged |
| `Deploy.DisarmWatchdog` | deployment/deploy.go:294-304 | a disarm of that unit is sent, whatever comes back |
| `Deploy.ActivateTest` | deployment/deploy.go:311-336 | drops the master whatever the result; an unacknowledged test counts only if the host answers a direct probe, and is then marked as stuck |
| `Deploy.VerifyActivePath` | deployment/deploy.go:375-387 | holds exactly when the path read is non-empty and expected |
| `Deploy.PersistBoot` | deployment/deploy.go:389-402 | the boot entry only after an acknowledged profile write; true exactly when both were acknowledged |
| `Deploy.VerifyConnectivity` | deployment/health.go:53-83 | true exactly when one attempt passed every check, in order, up to the last; false only after three attempts |
| `Deploy.WaitForK8sReady` | deployment/health.go:19-48 | true exactly when the last status seen was an error-free True; false only after twelve |
| `Deploy.RebootAndWait` | deployment/deploy.go:452-477 | adds to the log one reboot command, the drop of the master if there is one, then direct probes only; true exactly when there was a last one and it was answered |
| `Deploy.ApplyReboot` | deployment/deploy.go:413-438 | adds nothing or exactly a reboot's events: always with always, never with never, with auto exactly when one is owed and with ask only then; warns exactly when a reboot is owed and not done |
| `Deploy.DetectKernelChange` | deployment/reboot.go:106-140 | asks the four questions and answers by the last replies to them |
| `Deploy.KernelAndPostChecks` | deployment/deploy.go:406-438 | the reboot follows the flag and the kernel answers, then the node check; the result says both ways whether the host came back and is ready |
| `Kernel.KernelChanged` | deployment/reboot.go:69-101 | true exactly when both kernels are known and differ, or both parameter lists have words and their sets of words differ |
| `Kernel.ChangedIff` | deployment/reboot.go:64-101 | the same of the raw texts: not all spaces, different once trimmed; or both with a word and some word in one and not in the other, so order, repetition and spacing do not matter |
| `Kernel.FieldIff` | deployment/reboot.go:83-89 | a string is among the fields exactly when it is a maximal run of characters that are not spaces |
| `Kernel.TrimMeans` | deployment/reboot.go:70-71 | trimming takes off the spaces at both ends and only those |
| `Deploy.CephBeforeDeploy` | deployment/ceph.go:83-104 | asks for the tree first; with nothing down elsewhere it sends a set and passes exactly when that is acknowledged; otherwise it refuses, with nothing on record as set |
| `Deploy.CephAfterDeploy` | deployment/ceph.go:110-145 | true exactly when the clear was acknowledged, after a clean look; false only after a failed clear that followed a clean look, or thirty looks none of which was clean; then the noout stays on record |
| `Deploy.Deploy` | deployment/deploy.go:63-93 | one deploy adds its begin, in its mode, its body and its end to the log, the body allowing that end; by its own events the reboot is sent as the flag says of what is owed, and only once the new system is kept; it warns of a reboot owed and not sent and of a noout left on record, and of nothing else; a noout is left only by a failed Ceph deploy |
| `Noout.HeldIsHeld` | deployment/ceph.go:97-102 | the bookkeeping is the declarative fact: told set, and not told cleared since |
| `Noout.AtMostOneNoout` | deployment/pipeline.go:213-237 | at every step of every run at most one host has a noout told set and not told cleared, and none when a deploy starts |
| `Noout.NoDeployAfterLeftSet` | deployment/pipeline.go:226-237 | once a noout stays on record no further deploy starts |
| `Noout.SetEvidence` | deployment/ceph.go:83-102 | noout is set only after a tree, of the same deploy, with nothing down on another host, and with none outstanding |
| `Noout.UnsetEvidence` | deployment/ceph.go:115-137 | noout is cleared only after the latest tree of the same deploy had every OSD up and the groups read after it were all clean |
| `Noout.ClearedAfterCleanLook` | deployment/deploy.go:84-93 | a Ceph deploy that ends with nothing outstanding was told set, looked clean, and was told cleared, in that order |
| `Noout.GoodEndWasGated` | deployment/deploy.go:84-93 | at every end of a Ceph deploy with true in a run's log, that whole sequence is in the log before, and nothing is outstanding |
| `Noout.DisruptedUnderNoout` | deployment/deploy.go:73-83 | a watchdog, activation, rebuild or reboot command reaches a Ceph host only while its noout is told set and not told cleared |
| `Ceph.DownOsdsByHost` | deployment/ceph.go:27-44 | the map holds exactly the hosts that are last to list an OSD that is not up, OSDs no host lists under the empty name, each with the names of exactly those OSDs, in tree order |
| `Ceph.TreeAllows` | deployment/ceph.go:90-96 | allows if and only if every OSD that is not up is listed by a host node named as the target with no later host node listing it (or, for an empty target name, by none), whatever the map order |
| `Ceph.HostMap` | deployment/ceph.go:28-35 | maps each id to the name of the host node that lists it with no later host node doing so, and an id no host lists to nothing or the empty name |
| `Ceph.ParentIff` | deployment/ceph.go:28-35 | an OSD hangs under exactly one name, that of its last listing host node or the empty one |
| `Ceph.AllActiveClean` | deployment/ceph.go:56-64 | sums the active+clean groups over all states and compares with the total |
| `Ceph.AllCleanMeansNoOther` | deployment/ceph.go:56-64 | on an honest summary the check holds exactly when no group is in another state |
| `Rbd.KeepsInv` | modules/services/ceph-backup.nix:76-128 | every command of the job or of anyone else that takes effect keeps the pool's invariant |
| `Rbd.KeepsForeign` | modules/services/ceph-backup.nix:81-95 | no command of the job changes an unprefixed image, snapshot, protection, clone, mapping or mount |
| `Rbd.EveryHistoryKeepsInv` | modules/services/ceph-backup.nix:107-128 | cut runs, other users and reboots in any order leave a pool fit for the next cleanup |
| `Rbd.CutAnywhere` | modules/services/ceph-backup.nix:107-128 | cut a run after any of its commands, with any outcomes: the invariant holds and nothing foreign has changed |
| `Backup.BackupRun.Cleanup` | modules/services/ceph-backup.nix:76-95 | for any listings: what a successful cleanup leaves is exactly what they hide; every command is about something they show; unless something that shows is held by something hidden every command is in order and it fails only if an acceptable command fails, and otherwise it fails |
| `Tidying.FullListings` | modules/services/ceph-backup.nix:80-94 | listings that hide nothing leave nothing and nothing is in the way |
| `Tidying.DevStage` | modules/services/ceph-backup.nix:80-87 | after the device stage exactly the hidden devices that held shown images are in the way of the next |
| `Tidying.CloneStage` | modules/services/ceph-backup.nix:85-94 | after the clone stage exactly the hidden clones of shown snapshots are in the way of the next |
| `Backup.BackupRun.UnmapAll` | modules/services/ceph-backup.nix:80-84 | on success the prefixed devices left are exactly the hidden ones; it fails, in order, only for a fault or a hidden mount of a shown device |
| `Backup.BackupRun.RemoveClones` | modules/services/ceph-backup.nix:85-87 | on success the prefixed images left are exactly the hidden ones, and only the others' parent links are gone; it fails, in order, only for a fault or a device left on a shown image |
| `Backup.BackupRun.RemoveSnaps` | modules/services/ceph-backup.nix:88-94 | on success the prefixed snapshots left are exactly those hidden or on hidden images, a failing unprotect tolerated; it fails, in order, only for a fault or a clone left of a shown snapshot |
| `Backup.RecoverFromCut` | modules/services/ceph-backup.nix:76-95 | after a run cut anywhere and any history since, the next cleanup leaves exactly what its listings hide; with full listings nothing prefixed is left, every command is in order and it fails only for a fault |
| `Backup.CleanupLeavesSnapshot` | modules/services/ceph-backup.nix:88-94 | a run cut after its first command, then a cleanup whose image listing prints nothing: it succeeds, whatever commands would do, and the snapshot is there |
| `Backup.RunOverNoImages` | modules/services/ceph-backup.nix:140-161 | a run whose main listing prints nothing exits 0, records success, copies nothing and drops every status |
| `Backup.RunDropsLiveStatus` | modules/services/ceph-backup.nix:152-161 | a run in which a status check breaks off exits 0 without the status of a volume that is there |
| `Backup.UnstagingRestores` | modules/services/ceph-backup.nix:109-128 | unmap, remove, unprotect and snapshot removal undo snapshot, protect, clone and map, back to the very same pool |
| `Backup.UnstagingAccepted` | modules/services/ceph-backup.nix:125-128 | each undoing command is acceptable in its turn |
| `Backup.BackupRun.BackupOne` | modules/services/ceph-backup.nix:97-129 | an image without metadata or in an excluded namespace gets no command, no copy and no status; any other is snapshotted first, and copied only if it holds a filesystem: then, on success, one copy of this image's own snapshot under its own claim and its status; on success the pool is as before; it fails only for a stated reason |
| `Backup.BackupRun.Run` | modules/services/ceph-backup.nix:71-161 | however it ends, every new snapshot, clone and device is of a listed image with metadata whose namespace is not excluded, and every new copy and status of such an image with a filesystem, the copy of its own snapshot under its own claim. Success is recorded exactly when it exits 0; then the images are exactly those the main listing shows, the copies one of each of those to save and no other, in order, a status left for an image exactly when it is listed, its check did not break off and it had one or was saved, and what is left exactly what the first cleanup's listings hide; it exits 0 unless an acceptable command fails, the connection does, something hidden is in the way or an image has no room; with full listings nothing prefixed is left unless the last command failed; nothing foreign changes |
| `Output.PrefixWriter.Write` | deployment/output.go:31-47 | complete lines are out behind their prefixes and the buffer holds no newline between writes |
| `Output.PrefixWriter.Flush` | deployment/output.go:50-60 | the output is the prefix-every-line image of everything written since the last flush |
| `Output.Stream` | deployment/output.go:31-60 | for every split into writes, then a flush, the output is the image of the concatenated input, character by character |
| `Output.TagAfterLines` | deployment/output.go:33-45 | complete lines are tagged independently of what follows |

## Left out

- Real ssh, nix, kubectl, curl, systemd, rbd and kopia, and JSON decoding: commands have stated effects and any reply.
- Plan and summary printing, flag parsing, signals, temporary directories, argv builders, `SelectHosts`, `BuildOnlyHosts`: plumbing and easy loops.
- The `--build` mode (deployment/main.go:131-163): resolve, build and check, no state machine.
- Wall-clock time: a reboot may come before any command, so no bound on the 120 s timer is used.
- The printer's state: an input of the precheck, not read off its JSON; and what the operator answers to the reboot prompt: arbitrary.
- The semaphore of eight in `PrecheckAll` (probes finish in any order instead), and ssh traffic of the precheck itself, which enters as probe results.
- Whether a drop closes the master: it is taken to, as a failed `ssh -O exit` cannot be told from there having been none.
- The build's extra derivations: RunPipeline may return while they are still building, so nothing is said about them but the final check.
- `ceph-restore`, retention policies and the rest of the backup module: no protocol of their own.
- Other users acting on the pool *during* a backup run, and mounts stacked on one mount point: others act between runs only, and a mount point holds one mount.
- Failure of `rm -f` on a status file and of writing `last-run`, when a status check breaks off, and image names with regular-expression characters in `grep -qx`: taken as plain success, any time and equality.
- Wire.RedialedCommandsIdempotent: about the modelled effects; that a second arm would be refused by systemd is not modelled, as the arm is never redialled.
- Program.Orchestrate: in switch and boot mode nixos-rebuild evaluates and builds by itself, so there the plan in a deploy's begin and end is what the precheck resolved, not necessarily what the host then runs.
- Noout.AtMostOneNoout: about what the run was told; a set that took effect while both replies were lost is not on record, and the code records no warning for it either.
