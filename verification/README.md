# RouterKit verification

A Dafny model of RouterKit's planning and transaction code, with proofs of what that code promises. The project checks
with `dafny verify dfyconfig.toml`.

## What is modelled

RouterKit turns a manifest of local SOCKS endpoints into router state (proxies, routing policies, one device
assignment) in several places, each with the same shape: plan, apply, verify, roll back.

| part | modules | what the proofs establish |
|---|---|---|
| Fixture planner and simulator | `Text`, `Mac`, `Ordering`, `Sets`, `PlanModel`, `PlanBuilder`, `PlanExecution`, `PlanBindings`, `PlanStages`, `PlanRuns`, `PlanFixpoint`, `PlanIntegrity`, `PlanStatus`, `PlanBuild`, `PlanSimulator`, `PlanRollback`, `PlanReport`, `PlanSimulation`, `PlanPermutation` | when a plan may go ahead and what it does to each object follows from the observed records; on every unblocked plan all run-time error branches are unreachable and the result is a fixpoint of the planner; every injected fault restores the start exactly; the rollback list walks the run backwards; a plan does not depend on inventory order |
| Native live planner, packet and executor | `LiveModel`, `LivePlanner`, `LiveDecisions`, `LiveTransaction`, `LiveEffects`, `LiveVerification`, `LivePacket`, `LivePacketMeaning`, `LiveRendering`, `LiveApply`, `LiveExecutor` | the rendered commands, interpreted on the router state, reach the separately computed post-state; packets validate and verify exactly when they should, and a valid packet does just what it says; the executor succeeds, restores, or says it cannot prove either, each for a cause |
| Binary replacement | `BootstrapLifecycle`, `Bootstrap` | with a failure or signal at any step the target is the original or the validated candidate, unless a rollback is unproven; exactly when that is reported by exit code 3; exactly when there is nothing to do |
| Live-install receipts | `InstallReceipt`, `InstallRuns`, `InstallGrounds`, `LiveInstall`, `InstallSession` | evidence keeps receipts valid whatever it resets; over every run of persisted receipts epochs, evidence, authority and DNS freshness stay in order; no stage passes without the tools and the evidence it rests on |
| Dependency cycles, device inventory | `CycleCheck`, `Devices`, `DeviceTheory`, `DeviceOrder`, `DeviceArrangement`, `DeviceDescription`, `DeviceNormalization` | the search finds a cycle exactly when there is one; device normalisation partitions records, makes of each group just what its records say, keeps selectable devices apart, and depends on the order of the records in exactly one case |

Code that computes values is written as functions. Code that works step by step is written as methods and classes with
the source's own fields and loops (`LiveApply.Router`, `BootstrapLifecycle.Lifecycle`, `Bootstrap.Transaction`,
`LiveInstall.LiveReceipt`, `InstallSession.Session`, `CycleCheck.Search`), proved against specification functions and
relations about which the properties are then proved. The session, for one, is shown to make only the steps of
`InstallRuns.Moved`, which ask nothing of a receipt except that a written one passes `validate_receipt`.

Whatever the code does not decide itself is quantified over: a router, a bootstrap run and a live-install session each
carry a function from time to what happens next (a request refused, a step failed, a signal, a tool's answer), and the
contracts hold for every such function.

## What turned out not to hold, and when it does

- A built plan can fail its own validator. `_validate_reference` treats an empty reference value as missing
  (`scripts/routerkit_netcraze_plan.py:977-980`), so a plan that reuses an object with an empty id on which another
  action depends is refused by the builder's own last check. `PlanIntegrity.BuiltPlanIntegrity` gives the condition in
  both directions, `EmptyIdentifierBreaksPlan` an instance. The snapshot parser rejects empty ids, and
  `NamedInventoryPasses` shows that this is enough.
- The rendered commands do not reach the expected state for a disabled profile that has to be created: they always end
  with `up` (`scripts/routerkit_netcraze_live.py:473`), while the expected state keeps `profile.enabled`
  (`scripts/routerkit_netcraze_external.py:129`). `LiveEffects.CommandsReachExpected` is an equivalence, and
  `ApplyLivePlan` can only succeed when all created profiles are enabled.
- A plan that reuses an object whose number is above 15 gets no packet: the identifier is refused late, in validation.
  `LivePacket.PacketExists` is an equivalence, `HighIdentifierGetsNoPacket` an instance.
- Exit code 3 of the bootstrap can be masked. `end_recovery` returns to an active phase when no signal has been
  requested (`scripts/routerkit_bootstrap_apply.py:217-219`). If the inner handler's rollback fails, a first signal that
  arrives in the outer handler, in the `finally` or before cleanup begins then raises; the process ends with
  `128 + signum`, or with 1 if cleanup fails too. A first signal while the inner handler is being left makes the outer
  handler recover once more instead. `Bootstrap.Transaction.Apply` states exactly when code 3 is reported, in terms of
  the signals that arrive before and after the end of the last recovery; `Bootstrap.MaskedRun` is a run that masks it.
- Evidence that resets installation stages can be followed, in the same invocation, by marking the component stage; the
  next write then refuses the receipt. `InstallSession.Session.ProveComponent` and `RunComponent` are equivalences in
  terms of the installation, `InstallRuns.ComponentAfterEvidenceIff` in terms of the evidence;
  `InstallSession.RefusedResume` is a whole invocation that ends so. Run-level statements are about persisted receipts.
- Normalising device records can depend on their order: records of one device with the same sort key may compete for
  its identifier, name, Wi-Fi band, interface or policy, and the first one wins. `DeviceArrangement.OrderFreeIff` is an
  equivalence for every list of records, `OrderShows` an instance; records with different sort keys never compete.

## Model

| member | source | states |
|---|---|---|
| `Mac.NormalizedMacIsTrusted` | scripts/routerkit_devices.py:224-243 | what is accepted comes out with the digits of the trimmed text as six lower-case octets joined by colons, is neither all zeros nor all ones, and is unicast |
| `Mac.NormalizeMacIsIdempotent` | scripts/routerkit_devices.py:224-243 | a normalised MAC is accepted again and unchanged, so identities compared after normalisation are stable |
| `Text.CleanTextIsIdempotent` | scripts/routerkit_netcraze_plan.py:273-281 | a cleaned text field is accepted again and unchanged |
| `PlanModel.NamesSeparatePorts` | scripts/routerkit_netcraze_plan.py:802-807 | the code-owned connection and policy names, also casefolded, are equal only for equal ports |
| `PlanModel.IdentitiesSeparateSlots` | scripts/routerkit_netcraze_plan.py:877-878 | generated simulation identities are equal only for equal slots |
| `PlanModel.NormalizedProfilesAreNormal` | scripts/routerkit_netcraze_plan.py:321-374 | normalisation yields slots 1..n in order with distinct ports, and is a permutation of what was given |
| `PlanModel.NormalProfilesAreFixed` | scripts/routerkit_netcraze_plan.py:321-374 | a normalised manifest normalises to itself |
| `PlanModel.NormalizationIff` | scripts/routerkit_netcraze_plan.py:321-374 | a manifest is accepted exactly if it has one to three valid profiles on different ports whose slots are 1 up to their number, in any order |
| `PlanModel.NormalizedDeviceIsNormal` | scripts/routerkit_netcraze_plan.py:762-772 | a normalised device selection normalises to itself |
| `PlanModel.LookupConnection` | scripts/routerkit_netcraze_plan.py:513-581 | in a duplicate-free inventory a lookup by id returns the one object carrying it |
| `PlanBuild.CollectExactConnections` | scripts/routerkit_netcraze_plan.py:1297-1303 | the loop collects each semantically equal connection once |
| `PlanBuild.ChooseConnection` | scripts/routerkit_netcraze_plan.py:1297-1403 | the loop-found choice is the specified one, independent of list order: creation exactly when no connection equals the profile, none has its name and its generated id is free; reuse exactly of a connection that alone equals it |
| `PlanBuild.ChoosePolicy` | scripts/routerkit_netcraze_plan.py:1405-1532 | the same for policies, given the connection reference they depend on |
| `PlanBuild.PlanConnections` | scripts/routerkit_netcraze_plan.py:1297-1403 | after the first loop the actions, the recorded references and the blocked flag are those of the specification |
| `PlanBuild.PlanPolicies` | scripts/routerkit_netcraze_plan.py:1405-1532 | after the second loop likewise, with the references of the first loop resolved by slot |
| `PlanBuild.PlanObjects` | scripts/routerkit_netcraze_plan.py:1297-1608 | all object actions in order, and refused exactly when some object was refused |
| `PlanBuild.BuildNormalPlan` | scripts/routerkit_netcraze_plan.py:1273-1691 | the imperative builder returns exactly the specified plan, blocked or not |
| `PlanBuild.BuildChangePlan` | scripts/routerkit_netcraze_plan.py:1273-1691 | for every input whatever: manifest, device and snapshot are refused in that order; otherwise the one plan is returned, unless its own validator refuses it, which happens exactly when a kept object another action depends on has an empty id; and the plan may go ahead exactly when the observed records allow it |
| `PlanStatus.PlanGoesAheadIff` | scripts/routerkit_netcraze_plan.py:1242-1691 | a plan may go ahead if and only if the state is supported, fresh and its default policy known, every profile has one equal connection or can have a new one and likewise its policy, no new policy hangs on what the default policy uses, and the device is unassigned or already where it belongs, all said over the fields of the records |
| `PlanStatus.EveryObjectIsDecided` | scripts/routerkit_netcraze_plan.py:1297-1608 | in every plan, blocked or not, each object is kept, created or refused as the records say, with its name, endpoint, proposal and dependencies, the identity kept or the reason of the refusal, and a backup and a fresh snapshot demanded for whatever is not kept |
| `PlanStatus.EveryReadiness` | scripts/routerkit_netcraze_plan.py:1294-1690 | in a blocked plan every action is blocked; otherwise what is kept is ready and the rest waits for hardware |
| `PlanStatus.ProjectionShows` | scripts/routerkit_netcraze_plan.py:584-623 | the default projection is the default policy itself with the connection it uses, if the default is known, and neither otherwise |
| `PlanStatus.PlanIsEmittedIff` | scripts/routerkit_netcraze_plan.py:969-984 | a plan is emitted rather than refused by its own validator exactly when no kept connection, and no kept policy a device is put on, has an empty id |
| `PlanStatus.OnlineRouterIsExtended` | scripts/routerkit_netcraze_plan.py:1365-1403 | a concrete router with one uplink and a known default policy on it, whose plan creates connection and policy |
| `PlanIntegrity.PlannedIds` | scripts/routerkit_netcraze_plan.py:986-1239 | the actions of every built plan carry the ids the validator expects, in its order and number |
| `PlanIntegrity.PlannedShapes` | scripts/routerkit_netcraze_plan.py:986-1239 | every action of every built plan has the shape (operation, target, proposal, dependencies, readiness) the validator demands for its id |
| `PlanIntegrity.PlannedReadiness` | scripts/routerkit_netcraze_plan.py:986-1239 | readiness, blocked status and the non-targeting flag of every built plan agree |
| `PlanIntegrity.PlannedDefaultAction` | scripts/routerkit_netcraze_plan.py:1242-1270 | the default-policy verification of every built plan says what the non-targeting proof found |
| `PlanIntegrity.BuiltPlanIntegrity` | scripts/routerkit_netcraze_plan.py:986-1239 | a built plan, blocked or not, passes every clause of the independent validator if and only if no reused object it depends on has an empty id |
| `PlanIntegrity.NamedInventoryPasses` | scripts/routerkit_netcraze_plan.py:1273-1691 | a plan built on any inventory without empty ids, blocked or not, passes every clause of the validator |
| `PlanIntegrity.EmptyIdentifierBreaksPlan` | scripts/routerkit_netcraze_plan.py:969-984 | a concrete consistent snapshot for which the planner emits a plan its validator refuses |
| `PlanIntegrity.IntegrityDeterminesPlan` | scripts/routerkit_netcraze_plan.py:986-1239 | two plans that pass the validator with the same purpose, source and actions are the same plan: rollback, status, default-policy proof and both fingerprints cannot be altered on their own |
| `PlanBindings.ChoicesBind` | scripts/routerkit_netcraze_plan.py:1297-1608 | when no object is refused, every profile is bound to one connection and one policy, different profiles to different ones |
| `PlanStages.EveryStageIsConsistent` | scripts/routerkit_netcraze_plan.py:513-581 | every combination of created objects a run passes through satisfies snapshot consistency, with the default-policy projection unchanged |
| `PlanRuns.StepAdvances` | scripts/routerkit_netcraze_plan.py:1871-1919 | each action of an unblocked plan applies to the state its predecessors left and leads to the next one; no dependency is ever unresolved |
| `PlanRuns.ObjectStaysVerified` | scripts/routerkit_netcraze_plan.py:1922-2045 | an object action verified once stays verified through all later steps |
| `PlanFixpoint.UnblockedPlanEnacts` | scripts/routerkit_netcraze_plan.py:1297-1690 | the actions of an unblocked plan are, position by position, the instructions its bindings call for |
| `PlanFixpoint.UnblockedPlanRuns` | scripts/routerkit_netcraze_plan.py:2107-2170 | on every unblocked plan each step applies, keeps consistency and the default policy, passes its verification, and changes the state exactly when its operation is a mutation: the error branches are unreachable |
| `PlanFixpoint.FinalChoices` | scripts/routerkit_netcraze_plan.py:1297-1532 | on the final state each profile finds exactly its own connection and policy again |
| `PlanFixpoint.PlannedStateIsFixpoint` | scripts/routerkit_netcraze_plan.py:2147-2170 | replanning on the final state is unblocked and only reuses or verifies |
| `PlanFixpoint.RunEndsPlanned` | scripts/routerkit_netcraze_plan.py:2107-2146 | the run of an unblocked plan ends in that planned state |
| `PlanSimulator.ApplyKeepsTheRest` | scripts/routerkit_netcraze_plan.py:1871-1919 | no step of any plan touches an object the plan does not name, or edits or removes anything |
| `PlanSimulator.RunKeepsTheRest` | scripts/routerkit_netcraze_plan.py:1834-1842 | nor does any number of steps |
| `PlanSimulator.TraceIsRun` | scripts/routerkit_netcraze_plan.py:2107-2146 | the successive snapshots of an unblocked plan are the iterates of the step function, each consistent |
| `PlanSimulator.CheckedStep` | scripts/routerkit_netcraze_plan.py:2107-2146 | applying one action and making every check finds no error |
| `PlanSimulator.Execute` | scripts/routerkit_netcraze_plan.py:2107-2170 | the loop stops exactly after the first action the fault names, with completed ids a prefix of the plan and the rollback stack that prefix calls for |
| `PlanSimulator.RollBack` | scripts/routerkit_netcraze_plan.py:2175-2200 | popping the stack restores the initial snapshot exactly, or, made to fail, leaves the state alone after recording one action |
| `PlanSimulation.PlannedStateSettles` | scripts/routerkit_netcraze_plan.py:2147-2170 | the idempotency rerun on the final state succeeds and has nothing left to do |
| `PlanSimulation.Rerun` | scripts/routerkit_netcraze_plan.py:2147-2170 | the rerun reports idempotency on every settled state |
| `PlanSimulation.Finish` | scripts/routerkit_netcraze_plan.py:2147-2211 | what is reported after the loop is the specified outcome of the position where it stopped |
| `PlanSimulation.RunAccepted` | scripts/routerkit_netcraze_plan.py:2096-2211 | an accepted plan has exactly the outcome the injected fault determines |
| `PlanSimulation.SimulateChangePlan` | scripts/routerkit_netcraze_plan.py:2070-2211 | for every plan and snapshot, built by the planner or not, exactly one refusal or the outcome the fault determines; for a plan that is accepted, a fault leaves the initial snapshot, the ids up to the fault and the matching tail of the rollback list; a rollback made to fail after a mutation leaves everything the run had done; without a fault all actions are done and planning again only reuses |
| `PlanReport.OutcomeIsReported` | scripts/routerkit_netcraze_plan.py:2107-2211 | every outcome of an accepted plan is fault undone, fault left in place or all done, according to the fault, the mutations made before it and the rollback |
| `PlanReport.MutationsShow` | scripts/routerkit_netcraze_plan.py:2107-2146 | a run of an accepted plan is back where it began exactly as long as it has made no mutation |
| `PlanReport.ExpectedIdsDiffer` | scripts/routerkit_netcraze_plan.py:1022-1032 | the ids a plan must carry differ pairwise, so a fault names one action |
| `PlanSimulation.EveryStateIsUndisturbed` | scripts/routerkit_netcraze_plan.py:584-623 | at every intermediate state the snapshot is consistent, the default-policy projection and unrelated objects are unchanged, and no earlier object is edited or removed |
| `PlanSimulation.EveryOutcomeIsUndisturbed` | scripts/routerkit_netcraze_plan.py:2107-2211 | the same for the final state of every outcome, including when rollback is made to fail |
| `PlanRollback.EnactedPlanIsReversible` | scripts/routerkit_netcraze_plan.py:859-874 | the rollback action of every mutation removes exactly what that mutation added |
| `PlanRollback.RemovalsRetrace` | scripts/routerkit_netcraze_plan.py:1669-1671 | executing any prefix of the rollback list from the state after any prefix of the plan leads back to an earlier state of the run |
| `PlanRollback.RollbackRetracesRun` | scripts/routerkit_netcraze_plan.py:859-874 | executed as real removals the rollback list walks the run backwards through consistent states and ends in the initial snapshot |
| `PlanRollback.PerformedRollbackIsSuffix` | scripts/routerkit_netcraze_plan.py:2175-2200 | what is undone after stopping early is exactly the tail of the plan's own rollback list |
| `PlanPermutation.FingerprintForgetsOrder` | scripts/routerkit_netcraze_plan.py:637-665 | reordering connections, policies and assignments or renaming the snapshot does not change the semantic fingerprint |
| `PlanPermutation.FingerprintIff` | scripts/routerkit_netcraze_plan.py:637-665 | two consistent snapshots have one semantic fingerprint exactly if they observe the same state, default, connections, policies, assignments and capabilities, in any order |
| `PlanPermutation.ReorderedIsConsistent` | scripts/routerkit_netcraze_plan.py:513-581 | nor its consistency |
| `PlanPermutation.PlanForgetsOrder` | scripts/routerkit_netcraze_plan.py:1273-1691 | nor the plan |
| `PlanPermutation.PlanCurrentOnEveryOrdering` | scripts/routerkit_netcraze_plan.py:2082-2095 | so a plan built on one ordering is accepted for simulation on every other |
| `LiveModel.FirstFree` | scripts/routerkit_netcraze_live.py:351-357 | the number found is free and every smaller one is taken; none is found only when all are taken |
| `LiveModel.NextFreeIsLeast` | scripts/routerkit_netcraze_live.py:351-357 | a newly chosen id is unused and carries the least free number; an existing id out of range refuses the choice |
| `LiveModel.ExecAppended` | scripts/routerkit_netcraze_live.py:163-196 | running two command lists one after the other is running their concatenation |
| `LivePlanner.BoundObject` | scripts/routerkit_netcraze_live_compat.py:47-51 | a bound id is the only owner of its name, and for the semantic planner the only object of its meaning |
| `LivePlanner.BoundAllFits` | scripts/routerkit_netcraze_live_compat.py:54-147 | each profile of a plan fits its objects and different profiles get different ones |
| `LivePlanner.LivePlanBindsDistinctly` | scripts/routerkit_netcraze_live.py:385-464 | every plan of either planner binds distinct profiles to distinct, fitting proxies and policies |
| `LivePlanner.CreatedIdsAreLeast` | scripts/routerkit_netcraze_live.py:405-446 | every created id carries the least number free at its turn, given those reserved before |
| `LivePlanner.PlannersAgree` | scripts/routerkit_netcraze_live_compat.py:54-147 | on states where every matching object met on the way carries its code-owned name, both planners return the same plan or both refuse |
| `LivePlanner.BindOne` | scripts/routerkit_netcraze_live_compat.py:79-117 | the checks for one object return the specified id and action or refuse |
| `LivePlanner.BindProfiles` | scripts/routerkit_netcraze_live_compat.py:73-126 | the loop that grows the reserved ids returns the specified bindings |
| `LivePlanner.BuildLivePlan` | scripts/routerkit_netcraze_live_compat.py:54-147 | the planner as it runs returns exactly the specified plan or refusal, in either mode |
| `LiveDecisions.LivePlanIff` | scripts/routerkit_netcraze_live_compat.py:54-147 | a live plan comes out if and only if it follows the rules, said over the router's records: names owned at most once and by what they mean, at most one candidate, reuse of it or the least free number, and a device kept, assigned, or moved with authority |
| `LiveDecisions.LivePlanRefusedIff` | scripts/routerkit_netcraze_live_compat.py:54-147 | nothing else is a reason to refuse: refusal means that no plan follows the rules |
| `LiveTransaction.UndoneSteps` | scripts/routerkit_netcraze_external.py:187-220 | running the commands of reversible steps and then their undo commands in reverse order restores the state |
| `LiveTransaction.ProxyStepReversible` | scripts/routerkit_netcraze_live.py:467-474 | whichever part of a proxy's creation ran, removing the interface restores the state |
| `LiveTransaction.AssignmentStepReversible` | scripts/routerkit_netcraze_external.py:205-214 | the assignment's rollback restores the previous policy or its absence |
| `LiveTransaction.ProxyStepsRun` | scripts/routerkit_netcraze_live.py:467-474 | the creation commands of all proxies leave exactly the expected proxies, always switched on |
| `LiveTransaction.PolicyStepsRun` | scripts/routerkit_netcraze_live.py:477-481 | the creation commands of all policies leave exactly the expected policies |
| `LiveTransaction.CommandsRun` | scripts/routerkit_netcraze_external.py:187-220 | what the whole command list produces, whatever the enabled flags |
| `LiveEffects.LivePlanFits` | scripts/routerkit_netcraze_live_compat.py:54-147 | every plan of either planner fits the state it was made for, with an assignment action that says how the device's present policy relates to the target |
| `LiveEffects.ProxiesAreExtended` | scripts/routerkit_netcraze_external.py:120-134 | the expected proxies are the old ones untouched, one for each created binding, and nothing else |
| `LiveEffects.PoliciesAreExtended` | scripts/routerkit_netcraze_external.py:136-146 | the same for policies |
| `LiveEffects.FittingPlanHasPostState` | scripts/routerkit_netcraze_external.py:106-156 | no plan of the planner selects an occupied slot |
| `LiveEffects.CommandsReachExpected` | scripts/routerkit_netcraze_external.py:106-220 | running the rendered commands reaches exactly the separately computed post-state if and only if every profile whose proxy is created is enabled; the rollback commands restore the pre-state in any case |
| `LiveEffects.DisabledProfileIsNotReached` | scripts/routerkit_netcraze_live.py:467-474 | a concrete disabled profile whose commands do not reach the expected state |
| `LiveEffects.NoCommandsNoChange` | scripts/routerkit_netcraze_external.py:263-270 | nothing is rendered exactly when the expected post-state is the pre-state |
| `LiveVerification.ExpectedStateIsApplied` | scripts/routerkit_netcraze_live_compat.py:150-186 | the post-apply check passes on every state holding the expected objects |
| `LiveVerification.CommandsAreAppliedIffEnabled` | scripts/routerkit_netcraze_live_compat.py:150-186 | after the rendered commands the check passes if and only if every created profile is enabled |
| `LiveVerification.ReplanningReuses` | scripts/routerkit_netcraze_external.py:541-565 | replanning on the expected post-state, without authority to move, reuses exactly the plan's objects and keeps its assignment |
| `LivePacket.PacketPlanRecovers` | scripts/routerkit_netcraze_external.py:328-346 | the plan read back from a packet is the plan it was built from |
| `LivePacket.BuiltPacketIsValid` | scripts/routerkit_netcraze_external.py:349-538 | a packet built from a fitting plan passes the independent validator if and only if every identifier it names is in the supported range |
| `LivePacket.PacketExists` | scripts/routerkit_netcraze_external.py:223-314 | a packet comes out exactly when contract, device and plan are accepted and every identifier is in range |
| `LivePacket.HighIdentifierGetsNoPacket` | scripts/routerkit_netcraze_external.py:223-314 | a concrete router with a reusable Proxy16: the plan is made, the packet is refused |
| `LivePacket.VerificationIsExact` | scripts/routerkit_netcraze_external.py:568-619 | for a built packet an observed state verifies before the change exactly when it is the pre-state, and after it exactly when it is the expected post-state, up to the order of guard lines |
| `LivePacket.PacketRoundTrip` | scripts/routerkit_netcraze_external.py:223-314 | a packet's commands lead to a state that verifies if and only if created profiles are enabled, its rollback commands lead back to one that verifies as the pre-state, and it has no commands exactly when it expects no change |
| `LivePacketMeaning.ValidationDeterminesPacket` | scripts/routerkit_netcraze_external.py:366-538 | two packets valid for one manifest that agree on states, guard, native objects and assignment are the same packet: commands, rollback, gates, expectations and fingerprint leave no choice |
| `LivePacketMeaning.ValidPacketDoesWhatItSays` | scripts/routerkit_netcraze_external.py:407-506 | run where its slots are free and the device is where it was, the commands of any valid packet make exactly the objects its bindings call for, put the device where its assignment says, touch nothing else, and its rollback commands restore that state |
| `LivePacketMeaning.ValidPacketGates` | scripts/routerkit_netcraze_external.py:505-534 | a valid packet writes, asks for a backup, saves and verifies exactly when its bindings or its assignment call for a change, and otherwise expects the state it starts from |
| `LiveRendering.ExpectedState` | scripts/routerkit_netcraze_external.py:106-156 | the dictionary loops compute the specified post-state or refuse an occupied slot |
| `LiveRendering.RenderCommands` | scripts/routerkit_netcraze_external.py:187-220 | the rendering loops produce all proxy, policy and assignment commands in order, and the undo commands in the opposite order |
| `LiveRendering.SizeShowsDuplicates` | scripts/routerkit_netcraze_external.py:457-458 | comparing a list's length with its set's size finds duplicates, both ways |
| `LiveRendering.ValidateBindings` | scripts/routerkit_netcraze_external.py:407-458 | the loop accepts exactly the bindings that match the manifest, are in range and share no object |
| `LiveRendering.ValidatePacket` | scripts/routerkit_netcraze_external.py:349-538 | the validator accepts exactly the valid packets and returns their plan |
| `LiveRendering.BuildExternal` | scripts/routerkit_netcraze_external.py:223-314 | the builder returns exactly the specified packet or refusal |
| `LiveApply.Router.Write` | scripts/routerkit_netcraze_live.py:173-194 | an accepted command has its full effect and is logged, a refused one has none |
| `LiveApply.PartialRunUndone` | scripts/routerkit_netcraze_live.py:565-615 | however far a reversible run got, the rollback stack built by then takes it back to the start |
| `LiveApply.RunStep` | scripts/routerkit_netcraze_live.py:566-585 | one step runs its first command, pushes its undo, runs the rest, and stops at the first refusal with state, log and stack in agreement |
| `LiveApply.CreateProxies` | scripts/routerkit_netcraze_live.py:566-574 | the proxy loop runs the proxy steps in order and reports the ids it created |
| `LiveApply.CreatePolicies` | scripts/routerkit_netcraze_live.py:576-584 | the policy loop likewise |
| `LiveExecutor.RollBack` | scripts/routerkit_netcraze_live.py:605-627 | rolling back reports success exactly when all its requests are granted and the last reading shows the old guard, and then running and saved objects are those before the run |
| `LiveExecutor.ApplyWrites` | scripts/routerkit_netcraze_live.py:565-593 | the forward writes follow the plan's steps in order, and the stack matches them at every stop |
| `LiveExecutor.ConfirmedIsExpected` | scripts/routerkit_netcraze_live.py:594-604 | a confirmed configuration after all commands is exactly the expected post-state |
| `LiveExecutor.Transact` | scripts/routerkit_netcraze_live.py:565-630 | after the backup: verified and saved in the expected state, or exactly as before, or unproven; an error before undoing begins has a cause (a refusal, a moved guard or a disabled profile), and unproven is reported exactly when undoing meets a refusal or another guard |
| `LiveExecutor.ApplyLivePlan` | scripts/routerkit_netcraze_live.py:528-630 | with any request failing at any point: success means the router holds exactly the planned post-state under an unchanged guard and has saved it, an ordinary error means the objects are exactly those before, and rollback-unproven is reported exactly when undoing meets a refusal or another guard; with every request granted, a steady guard, a plan that still stands and enabled profiles it succeeds; what was written is given command by command |
| `LiveExecutor.ExecutorFollowsPacket` | scripts/routerkit_netcraze_external.py:187-220 | a complete local run writes the packet's commands in order and then saves, and its rollback stack is the packet's rollback list |
| `BootstrapLifecycle.Lifecycle.HandleSignal` | scripts/routerkit_bootstrap_apply.py:197-202 | the first signal is remembered; it raises only in an active phase, which it closes |
| `BootstrapLifecycle.Lifecycle.EndRecovery` | scripts/routerkit_bootstrap_apply.py:217-219 | the phase after a recovery is closed only if a signal was requested |
| `BootstrapLifecycle.Lifecycle.RunChild` | scripts/routerkit_bootstrap_apply.py:272-331 | a child is like any other step, except that a pending request raises unless recovery is under way; no termination ever carries the exit code of a child |
| `Bootstrap.Transaction.CreateBackup` | scripts/routerkit_bootstrap_apply.py:1021-1038 | a successful backup, new or reused, holds exactly the original content, and no other backup is made, changed or lost |
| `Bootstrap.Transaction.InstallContent` | scripts/routerkit_bootstrap_apply.py:1041-1057 | what stops the part before the rename leaves the target alone, what stops the part after it leaves the new content |
| `Bootstrap.Transaction.RollBack` | scripts/routerkit_bootstrap_apply.py:1060-1124 | a rollback that returns normally has restored the original binary, or its absence |
| `Bootstrap.Transaction.Recover` | scripts/routerkit_bootstrap_apply.py:1327-1350 | handled recovery either restores the target and clears the receipt or is marked unproven with a rollback error; the phase handed back is closed only if a signal has been heard by then |
| `Bootstrap.Transaction.Replace` | scripts/routerkit_bootstrap_apply.py:1296-1324 | the guarded part ends verified with a receipt naming the candidate, or raises with the replacement still undoable; only a signal or a failure stops it |
| `Bootstrap.Transaction.FailedReplacement` | scripts/routerkit_bootstrap_apply.py:1326-1359 | the inner handler leaves the files restored, or reports an unproven rollback, or hands a termination to the outer handler, which recovers once more |
| `Bootstrap.Transaction.Body` | scripts/routerkit_bootstrap_apply.py:1196-1359 | every way out of the body is settled, recoverable by the outer handlers, or reported as unproven |
| `Bootstrap.Transaction.HandleEscaped` | scripts/routerkit_bootstrap_apply.py:1360-1395 | the outer handlers leave nothing recoverable undone: a termination during replacement is recovered from once more, and what cannot be proven is then reported as such |
| `Bootstrap.Transaction.Execute` | scripts/routerkit_bootstrap_apply.py:1196-1398 | after the outer handlers nothing recoverable is left undone, and an unproven rollback is reported as such unless a first signal has come since the last recovery ended |
| `Bootstrap.Transaction.Apply` | scripts/routerkit_bootstrap_apply.py:1418-1477 | whatever fails and whenever signals arrive: the files end as found, or restored without a receipt, or as the validated candidate with its receipt, unless a rollback is unproven; exit code 3 always means an unproven rollback; an unproven rollback is reported by it if and only if a signal came between taking the handlers over and the end of the last recovery, or none came from then until cleanup began, at most four moments later; a target that differs from the original always has a verified backup; cleanup and restore failures never hide code 3; success means that no signal came from taking the handlers over until they were given back; success leaves everything as found exactly when the receipt found names this release, archive and version, the binary found is the one it names and reports that version, its backup verifies and no package was missing, and otherwise leaves the candidate with a receipt of this release and a verified backup of what it replaced; a run without signals or failures succeeds exactly if there is nothing to do or the filed backup is undamaged; other backups are never touched |
| `BootstrapLifecycle.Lifecycle.Restore` | scripts/routerkit_bootstrap_apply.py:181-195 | while the handlers are given back a first signal is still noted without raising; giving back fails exactly when a handler cannot be put back, and the lifecycle is over either way |
| `BootstrapLifecycle.SilenceIsUnheard` | scripts/routerkit_bootstrap_apply.py:197-202 | the signal remembered over a stretch of time is none exactly when none arrived in it |
| `Bootstrap.MaskedRun` | scripts/routerkit_bootstrap_apply.py:1360-1398 | a concrete whole run: a first installation fails after the rename, so does undoing it, SIGTERM arrives while that is reported, and the process ends with 143, the unvalidated candidate in place and no receipt |
| `InstallReceipt.InitialReceiptIsValid` | scripts/routerkit_live_install.py:219-261 | the initial receipt satisfies the whole validity predicate |
| `InstallReceipt.ResetKeepsValid` | scripts/routerkit_live_install.py:635-653 | every reset that evidence can ask for keeps a valid receipt valid |
| `InstallReceipt.AcceptKeepsValid` | scripts/routerkit_live_install.py:807-858 | accepting evidence preserves the whole validity predicate, for every valid receipt and every evidence |
| `InstallReceipt.AcceptedStages` | scripts/routerkit_live_install.py:807-858 | evidence is accepted exactly if it repeats what its epoch is bound to, is the first of the current epoch without a change, or opens the next epoch with one; then each stage is as it was or untouched, as the kind of change says |
| `InstallReceipt.AcceptedFields` | scripts/routerkit_live_install.py:635-653 | manifest, disposition, reboot decision, native transaction and DNS gate are kept exactly as far as the stages that established them |
| `InstallReceipt.NativeOutlivesEpochIff` | scripts/routerkit_live_install.py:839-853 | a passed native stage survives a new epoch if and only if that is the refresh it asked for in the epoch right after its own; every other advance undoes it and all later stages |
| `InstallRuns.AcceptAdvances` | scripts/routerkit_live_install.py:807-858 | an acceptance moves the epoch by at most one, to the evidence's epoch, binds that epoch to this evidence, and keeps identity, authority and all recorded epochs in order |
| `InstallRuns.MarkKeepsSound` | scripts/routerkit_live_install.py:595-598 | recording a stage dates it by the current epoch and keeps every run invariant |
| `InstallRuns.ComponentPersistsIff` | scripts/routerkit_live_install.py:1361-1378 | the component stage can be persisted if and only if every installation stage is done |
| `InstallRuns.ComponentAfterEvidenceIff` | scripts/routerkit_live_install.py:1349-1378 | after evidence that opens a new epoch that is so if and only if the installation was complete and the evidence reports no change of storage or binary and no contradiction |
| `InstallRuns.ReadyIsReachable` | scripts/routerkit_live_install.py:1170-1333 | a run from a fresh local receipt writes a complete installation with the component stage next |
| `InstallRuns.ResetBeforeComponentIsRefused` | scripts/routerkit_live_install.py:1349-1378 | on that receipt, concrete evidence of a replaced binary and a working component passes both guards of the component stage, and the receipt with that stage is not valid |
| `InstallRuns.StepKeepsSound` | scripts/routerkit_live_install.py:535-1647 | every step an invocation makes on the receipt in memory keeps all recorded epochs in order, and DNS evidence later than the native write that asked for it |
| `InstallRuns.EveryRunIsGood` | scripts/routerkit_live_install.py:535-1647 | in every run from a fresh receipt, generated by the steps alone, what was written is valid, and every receipt, written or not, has its epochs in order and follows the ones before it |
| `InstallRuns.FinalPassMeansFreshDns` | scripts/routerkit_live_install.py:1575-1647 | whatever a run does, a final PASS it has written after a required native write rests on DNS evidence from a strictly later epoch and on a fully reported installation |
| `InstallRuns.RunIsMonotone` | scripts/routerkit_live_install.py:552-598 | along what any run has written epochs and authority never shrink, the identity is fixed and each epoch is bound to one evidence |
| `InstallRuns.UpgradeOnlyGrows` | scripts/routerkit_live_install.py:552-592 | resuming succeeds exactly for the same identity without loss of authority, and changes nothing but intent and authority |
| `LiveInstall.LiveReceipt.ResetStages` | scripts/routerkit_live_install.py:635-653 | the in-place reset is the specified one |
| `LiveInstall.LiveReceipt.AcceptEvidence` | scripts/routerkit_live_install.py:807-858 | the in-place acceptance is the specified one, and refused evidence leaves the receipt alone |
| `LiveInstall.LiveReceipt.Upgrade` | scripts/routerkit_live_install.py:552-592 | the in-place authority upgrade is the specified one |
| `InstallRuns.AcceptedRuntimeIsGood` | scripts/routerkit_live_install.py:1139-1167 | recording a runtime from evidence always makes a receipt that can be persisted |
| `InstallSession.Session.Persist` | scripts/routerkit_live_install.py:535-549 | only valid receipts are ever written |
| `InstallSession.Session.AcceptExternalRuntime` | scripts/routerkit_live_install.py:1096-1167 | a runtime is taken over only with a manifest just read, its slot enabled, and evidence that shows the target router running this release with it; then all installation stages are done |
| `InstallSession.Session.RunInstallation` | scripts/routerkit_live_install.py:1170-1333 | the installation part makes only steps of a run, continues only when the installation is done, and passes each stage only on its grounds: readiness evidence and the tools asked, successful |
| `InstallSession.Session.AttemptStage` | scripts/routerkit_live_install.py:1236-1303 | a delegated stage that is open is passed exactly if its tool succeeds and the receipt can be written |
| `InstallSession.Session.Preflight` | scripts/routerkit_live_install.py:1181-1240 | network and storage pass only on evidence that shows all six readiness checks and a successful preflight |
| `InstallSession.Session.Setup` | scripts/routerkit_live_install.py:1257-1280 | source, generation and strict plan pass only after a successful setup, and the manifest on record is the one then read |
| `InstallSession.Session.EnableAutostart` | scripts/routerkit_live_install.py:1305-1333 | autostart passes only if its tool succeeds and reports verified state |
| `InstallSession.Session.ProveComponent` | scripts/routerkit_live_install.py:1345-1373 | with a present, proven component and a granted write it continues if and only if the installation is complete at that moment; otherwise it ends with code 2 and nothing is written |
| `InstallSession.Session.RunComponent` | scripts/routerkit_live_install.py:1336-1406 | component and reboot stages are passed only by the evidence they require; with a present, proven component and granted writes the component stage gets on record if and only if the installation is complete once the evidence is accepted |
| `InstallSession.Session.RunNative` | scripts/routerkit_live_install.py:1409-1594 | no native step starts before installation, component and reboot are done; the local adapter passes the stage exactly if it plans, applies and verifies, the reboot is proven and the receipt can be written, and the receipt says what it reported; the external one only with the packet on record, a running state verified from another snapshot than the planned one and, where a save is due, a saved state verified from a third |
| `InstallSession.Session.RunDnsGate` | scripts/routerkit_live_install.py:1596-1628 | the DNS stage is passed exactly by evidence of protected, verified, reachable DNS, from an epoch after a native write that asked for it, once the native stage is done and if the receipt can be written |
| `InstallSession.Session.RunClient` | scripts/routerkit_live_install.py:1630-1644 | the client stage is passed exactly by evidence of an assigned client with domain DNS and HTTPS, once the DNS stage is done and if the receipt can be written |
| `InstallSession.Session.Invoke` | scripts/routerkit_live_install.py:1816-1870 | one whole invocation, however it ends, makes only steps of a run and leaves no final PASS resting on stale DNS evidence anywhere on record; every stage a receipt written by it has done and the one read in had not rests on the tools asked, what they answered and what the evidence shows; it completes only with every stage done and a final PASS on record, and does so for every local installation on its way in a world that helps; evidence that proves the component but undoes a part of a complete local installation ends it with code 2 after writing only the reset receipt |
| `InstallGrounds.DeservedTogether` | scripts/routerkit_live_install.py:1050-1647 | what two consecutive parts of an invocation pass on their grounds, the whole passes on its grounds |
| `InstallSession.CompleteFirstRun` | scripts/routerkit_live_install.py:1816-1870 | a first invocation for a local router, in a world that helps and with evidence that shows everything, ends with every stage done and a final PASS on record |
| `InstallSession.RefusedResume` | scripts/routerkit_live_install.py:1336-1378 | a concrete whole resume in which every tool and write would succeed: it ends with code 2, and the last receipt written is the reset one, without the component stage |
| `InstallSession.Lifetime` | scripts/routerkit_live_install.py:1816-1870 | over any apply followed by any resumes, with any intents, evidence and outcomes: every receipt ever written follows all earlier ones, and none holds a final PASS on stale DNS evidence |
| `CycleCheck.Search.Visit` | scripts/routerkit_hardware_canary.py:800-811 | the visit reports a cycle only if there is one, and otherwise finishes the node with everything below it |
| `CycleCheck.FinishedMeansAcyclic` | scripts/routerkit_hardware_canary.py:796-813 | a complete finishing order rules out every cycle |
| `CycleCheck.DetectCycle` | scripts/routerkit_hardware_canary.py:796-813 | terminates on every finite map and returns true if and only if the graph restricted to its own keys has a directed cycle, self-loops included |
| `Devices.SameKeySameIdentity` | scripts/routerkit_devices.py:313-321 | records grouped together have the same identity |
| `Devices.MacIdentityShows` | scripts/routerkit_devices.py:291-302 | a MAC identity is carried by exactly the records with that MAC |
| `DeviceTheory.RecordsArePartitioned` | scripts/routerkit_devices.py:362-364 | every record is in exactly one group, as often as it was given |
| `DeviceTheory.AddressesAreConserved` | scripts/routerkit_devices.py:390-400 | no address is lost and none is made up |
| `DeviceTheory.SelectableDevicesAreDistinct` | scripts/routerkit_devices.py:377-464 | selectable devices carry normalised trusted MACs and differ pairwise both in MAC and in what is shown of them |
| `DeviceDescription.DraftIsDescribed` | scripts/routerkit_devices.py:376-430 | each device is what its records make it: selectable exactly with a trusted MAC and no vendor id shared with another identity, with the reason otherwise; all addresses and sources; state, link and staleness of the whole group; and each field of the first record that has it |
| `DeviceDescription.NormalizedDevices` | scripts/routerkit_devices.py:355-472 | normalisation refuses exactly too many records or a device with too many addresses, and otherwise returns each device once, in the order of the list, unselectable exactly if another one looks the same |
| `DeviceOrder.NormalizationForgetsOrder` | scripts/routerkit_devices.py:305-470 | the outcome is the same for every arrangement of records that agree wherever those of one device that sort alike compete for a field |
| `DeviceArrangement.RefusalForgetsOrder` | scripts/routerkit_devices.py:355-400 | whether records are refused never depends on their order |
| `DeviceArrangement.SwapShows` | scripts/routerkit_devices.py:324-353 | two records that sort alike, compete for a field and disagree on it make different devices in their two orders |
| `DeviceArrangement.OrderFreeIff` | scripts/routerkit_devices.py:305-470 | for every list of records, every arrangement has the same outcome if and only if they are refused anyway or agree wherever they compete |
| `DeviceArrangement.DistinctKeysAreOrderFree` | scripts/routerkit_devices.py:305-321 | in particular records with pairwise different sort keys may come in any order |
| `DeviceArrangement.OrderShows` | scripts/routerkit_devices.py:324-330 | two concrete records, one MAC under two names, whose order decides the name |
| `DeviceNormalization.GroupRecords` | scripts/routerkit_devices.py:362-364 | the grouping loop builds exactly the specified groups |
| `DeviceNormalization.FindConflicts` | scripts/routerkit_devices.py:366-374 | the loop over vendor ids finds exactly those shared by different identities |
| `DeviceNormalization.Disambiguate` | scripts/routerkit_devices.py:432-461 | the counting loops make exactly the devices with a shared label unselectable |
| `DeviceNormalization.NormalizeRecords` | scripts/routerkit_devices.py:355-472 | the whole procedure returns the specified devices or error |
| `DeviceNormalization.SelectDevice` | scripts/routerkit_devices.py:939-964 | a choice selects exactly an existing selectable device, or nobody, or is refused |

## Left out

- SHA-256 digests: a fingerprint is the canonical value it digests, so equal fingerprints mean equal values; hash
  formats and constant-time comparison are not modelled.
- Unicode case folding: a name carries its casefolded (and, for devices, lower-case) form next to its text.
- JSON, VLESS and running-config parsing, command-line handling, prompts, and text or JSON rendering: models start from
  parsed records. Secret-marker scans of receipts and evidence are part of that text handling.
- Running-config files list each object once per id; the live state is therefore a map from id to object.
- Precondition and requirement texts of plan actions: reduced to whether a fresh snapshot is demanded.
- Routers: a refused command has no effect, objects change only through this run's own commands, and only the
  default-policy guard may change on its own.
- Files: descriptors, permissions, symbolic links, inode checks and flushing are steps that succeed or fail; a rename is
  atomic. Temporary files are not modelled.
- Interpreter-level interleavings in the bootstrap: signals arrive between the modelled steps and in the windows between
  handlers. Signals before handlers are installed or after they are restored have the process's own effect and are not
  part of this model.
- Package installation, download, ZIP extraction and version probing in the bootstrap: steps with an outcome.
- A second bootstrap run is not claimed to change nothing: line 1237 of `scripts/routerkit_bootstrap_apply.py` compares
  the raw banner line with the bare version.
- Live-install sub-stages (preflight, setup, backup, autostart and the native tools): outcomes chosen by the environment.
  The external native stage's packet is represented by its fingerprint and its write gate.
- Receipt and evidence shapes, hash formats and enumerations: given by the types. Schema and contract constants of
  receipts are omitted.
- PlanBuild.CollectExactConnections: sorting of exact matches before the count is kept only as far as it matters, one
  list without repetitions.
- LivePlanner.PlannersAgree: the condition follows the name-based planner's own path, so objects it never looks at are
  not constrained.
- InstallSession.Session.Invoke: a device's evidence file is one value per invocation; status output is not modelled.
- InstallSession.Session.RunComponent: an authorised reboot without evidence, which fails inside the tool at line 1397 of
  `scripts/routerkit_live_install.py`, ends the invocation without a write.
- DeviceNormalization.NormalizeRecords: addresses of a device are a set; their display order and the result's source list
  are not modelled. Record ids and fallback names are arbitrary functions of the group's seed.
- Hardware-canary manifest validation other than cycle detection, autostart, the setup wizard and the orchestrating
  entry points: fixed tables and plumbing.
