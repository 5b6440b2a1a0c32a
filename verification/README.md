# What the deployer promises, proved

`libid-deploy` converges a chain onto a network file: it deploys what the chain
lacks, re-sends configuration, performs requested upgrades, and hands its Safes
and its factory to their declared owners. This project models that program in
Dafny and proves what it promises about every chain, every file and every point
at which it can be interrupted.

`dafny verify dfyconfig.toml` checks everything.

## The model

**The Safe hand-over** (`OwnerSets`, `OwnerProgram`, `OwnerManager`, `OwnerRing`,
`Abi`, `MultiSend`, `Safes`). `CallsTo` and `ExecBatch` are the two loops of
`safes.rs`. On the other side stands Safe v1.4.1: its owner manager as a
`prev -> next` map with a count and a threshold, refusing what GS201 to GS205
refuse, its pre-validated signature check, and `MultiSendCallOnly`'s index loop
over raw bytes. The two sides meet only in bytes, so the end-to-end result covers
encoding, packing, wrapping in `multiSend(bytes)`, signing, unwrapping, unpacking,
decoding and running on the linked list.
`OwnerRing` is the owner manager again as an object that rewrites its links in
place.

**The chain** (`Config`, `Worlds`). A `World` is what the program can observe:
the factory with its two-step owner and its name records, proxies as
(implementation, owner, storage), other code by hash, and Safes. `Apply` says
what each transaction does and when it reverts: the owner gate and single-use
names of `factory.deploy`, the initializers' checks, the code-hash check of
`setTrustRoots`, and implementations that may predate a getter.

**The run** (`Converge`). A run is a list of goals in the order `run` meets them.
`MoveFor` is what the program does about one goal on one world: keep it, reuse a
factory record, send, or stop. `RunAll` is a run with its trace, its report and
the world it leaves, whether it finishes or not. The only values carried along a
run are the circuit verifiers' sites, located before anything is sent.

**The program** (`Applier`). The class `Applier` is `apply.rs` and
`apply/safes.rs` step by step: presence flags read up front, the gate computed
from them, loops over platforms, circuits, requested upgrades and Safes, fields
updated as the run reports. Every method is proved to do exactly what its goals
say, and `ApplyFile` to be `RunAll`, so the results about runs are results about
the program. The table below lists the methods that loop or put steps together;
each of the others is one step, and its contract names the goals it meets.

**The plan** (`Checks`, `Plan`). `Checks` is the decision of each line, `Planner`
the object that pushes the lines, `Build` the whole plan. Here too the table lists
the methods that loop.

Everything else proves properties of these:

| file | about |
|---|---|
| `Stability` | a goal does its work, and no goal undoes another |
| `Interruption`, `Recovery` | runs cut anywhere, and picking up from there |
| `Sites` | located circuit verifiers do not move during a run |
| `Convergence` | crash recovery, repeated crashes, idempotence |
| `GoalState` | what a finished run leaves; quiet runs after upgrades |
| `Flow` | the owner gate, no dangling wiring, upgrades once and in time |
| `Deployments`, `Agreement`, `QuietPlans` | the plan predicts the run |
| `Permanence` | what no transaction of any file can undo |
| `SafeHistory` | a Safe over any history of runs and files |
| `Transactions` | what a run may send and change, in the file's own fields, and in what order |
| `NotaryPointers` | the one pointer a run hands on unseen |
| `Progress` | runs succeed from a virgin chain or any partial deployment, old implementations included where the run upgrades them |
| `Lockstep`, `Restart` | runs with upgrades, cut anywhere and started again |
| `Rotation` | a new circuits release is rotated onto with the upgrade, and only with it |
| `Witness` | concrete chains for the exact conditions |
| `Tracking` | a run built up goal by goal, for the loops of `Applier` |

## What the statements assume

- `Valid(cfg)`: what loading a file checks (`config.rs:382-477`), and that
  addresses derived for different names differ. A Safe's declared address is
  compared with `predicted`, the one its name derives; for the other components the
  declared addresses stand for the derived ones.
- `RecordsHold`: the factory records a name only where it put code. Every
  transaction keeps it, and `Worlds.EveryChainHolds` proves it of every chain
  that started without the factory; the same lemma gives `SafesHealthy`, that
  every Safe's list is one its owners can use.
- `Renewable(cfg, opts, w)`, for the runs that succeed: the chain can host the stack
  and holds nothing foreign under its names, the deployer can take the factory if
  anything needs it, and every proxy answers to the deployer and either does what
  the file needs or is among the requested upgrades.
- Nobody else sends transactions during a run. Between runs `SafeHistory` allows
  anything.

## Where the code and its description part

- *Idempotence after upgrades.* The next plain run is quiet unless, on the chain
  the run started on, no vendored verifier of the circuit X and GitHub share could
  be located, its name held foreign code, and just one of the two pointed at
  vendored code (`QuietAfterUpgrades`). `UpgradeUnsettles` is such a chain: the
  upgrade makes X's verifier readable, the sites were located before, and GitHub's
  rotation is left to the next run.
- *A quiet plan.* No line shows the Google verifier's root list pointer
  (`apply.rs:1168-1170` against `plan.rs:485-531`). A quiet plan means a quiet
  run if and only if that pointer is right (`QuietPlanQuietRun`); otherwise the run
  sends exactly its repair or stops without sending (`UnwiredRun`), and moving the
  pointer leaves every plan as it was (`QuietPlanMissesTheRoots`).
  `QuietPlanUnquietRun` is a chain with a plan free of remarks and a run that sends.
- *The notary pointer.* Neither plan nor apply ever checks the Notary Service a
  Platform Verifier points at (`PlanIgnoresNotary`, `GoalsIgnoreNotary`): a rotation
  reads it off the proxy and hands it back (`apply.rs:1207-1219`). So a run hands on
  addresses with code except, exactly, where it rotates a platform whose stored
  notary has none (`NoDanglingWiring`, `WiringForeseen`); `NotaryAstray` is such a run.
- *Restarting a run with upgrades.* An upgrade can make a proxy readable, and a run
  started again then locates another verifier. It succeeds wherever the uncut run
  does, unless no vendored verifier of the circuit X and GitHub share could be
  located, its name held foreign code, and the one of the two that does not point at
  vendored code can neither be rotated nor is upgraded (`RestartsExactly`).
  `RestartCanFail` is such a run.
- *The pinned code hash.* The plan warns of a stale pin before it looks at the
  pointer (`plan/checks.rs:439-447`); apply keeps a pointer that is right
  (`apply.rs:1195`). `TrustRootsLineIsMove` is the exact relation.
- *Any owner.* Without a declared owner the plan accepts whoever owns the factory
  (`plan/checks.rs:573-590`) while apply wants the deployer; it still sends nothing
  when it is not the owner, so a quiet plan stays a quiet run.
- *Vendored code.* `converge_trust_roots` keeps a verifier at the located address
  whatever its code, so "every platform ends on vendored code" needs the release's
  names to hold only its own code (`FinishedIsVendored`).

## Model

| member | source | states |
|---|---|---|
| OwnerSets.SameAsIsSetEquality | bin/libid-deploy/src/safes.rs:197-201 | On lists without repeats `same_as` is exactly equality of the owner sets and of the thresholds |
| OwnerSets.SameAsIsAnEquivalence | bin/libid-deploy/src/safes.rs:197-201 | Hence it is reflexive, symmetric and transitive there |
| OwnerSets.SameAsIsOneSidedOnRepeats | bin/libid-deploy/src/safes.rs:197-201 | With a repeated owner it accepts one way and refuses the other, for any two owners |
| OwnerSets.OwnerFaultFindsTheFirst | bin/libid-deploy/src/config.rs:415-422 | The scan of declared owners accepts exactly the duplicate-free lists without zero, sentinel or the Safe itself |
| OwnerSets.AdmittedIsUsable | bin/libid-deploy/src/config.rs:382-429 | A declared Safe is admitted if and only if its name is well formed, its address is the predicted one and a Safe there can hold the declared set |
| OwnerSets.FaultIsFirst | bin/libid-deploy/src/config.rs:382-429 | What loading says of a table that is not admitted: the first fault in the order of the fields, and of the first owner with one |
| OwnerProgram.OwnerCallsReplay | bin/libid-deploy/src/safes.rs:217-247 | The add and remove calls never revert and leave the missing owners, in declared order, before the kept ones in on-chain order |
| OwnerProgram.ProgramReachesTarget | bin/libid-deploy/src/safes.rs:208-257 | From any owner list and threshold a Safe can hold to any it can be handed to, the whole program never reverts and ends `same_as` the target |
| OwnerProgram.DisjointHandOverReadsAsDeclared | bin/libid-deploy/src/safes.rs:458-467 | A hand-over to a disjoint set ends reading exactly as declared |
| OwnerProgram.ProgramLength | bin/libid-deploy/src/safes.rs:213-257 | One call per missing owner, one per extra owner, and at most one for the threshold |
| OwnerProgram.NoFasterProgram | bin/libid-deploy/src/safes.rs:213-257 | No sequence of the three calls that replays without reverting to the target owners has fewer calls than owners are missing and extra |
| OwnerProgram.ProgramNearlyShortest | bin/libid-deploy/src/safes.rs:213-257 | The program is at most one call longer than any that reaches the target |
| OwnerProgram.ThresholdCallCanBeFolded | bin/libid-deploy/src/safes.rs:248-255 | Where it is one longer, the last owner call under the target threshold does the work of both |
| OwnerProgram.ProgramEmptyIffSame | bin/libid-deploy/src/safes.rs:486-491 | No call is made exactly when the sets are already the same |
| OwnerManager.ReadsIsGetOwners | bin/libid-deploy/src/safes.rs:321-337 | A store linked as a ring through a list is the store whose walk reads as that list: what `getOwners` returns |
| OwnerManager.OnlyPredecessorLinks | bin/libid-deploy/src/safes.rs:224-230 | In a ring exactly one node links to an owner: the one before it in the list |
| OwnerManager.AddKeepsTheRing | bin/libid-deploy/src/safes.rs:88-89 | Insertion at the head keeps one acyclic ring, through the owner and then the old list |
| OwnerManager.RemoveKeepsTheRing | bin/libid-deploy/src/safes.rs:90-92 | Unlinking behind the predecessor keeps one acyclic ring, through the list without the owner |
| OwnerManager.ManageRefinesReplay | bin/libid-deploy/src/safes.rs:425-456 | One call on the linked list succeeds exactly when it does on the list the test replays, and then the links read as that list |
| OwnerManager.ManageAllRefinesReplay | bin/libid-deploy/src/safes.rs:425-456 | The same for a whole batch |
| OwnerManager.ManageAllKeepsHealthy | bin/libid-deploy/src/safes.rs:425-456 | No batch that executes, whoever wrote it, leaves an owner list or threshold its owners cannot use |
| OwnerManager.SetupIsBootstrap | bin/libid-deploy/src/safes.rs:290-311 | The Safe created by the deployer reads as the deployer alone with threshold one |
| OwnerRing.Ring.GetOwners | bin/libid-deploy/src/safes.rs:321-337 | Following the links from the sentinel back to it reads the owners, each once and in order |
| OwnerRing.Ring.AddOwnerWithThreshold | bin/libid-deploy/src/safes.rs:88-89 | In place: accepted exactly for a new, unreserved owner and a threshold the owners can meet, and then the list has it at its head |
| OwnerRing.Ring.RemoveOwner | bin/libid-deploy/src/safes.rs:90-92 | In place: accepted exactly behind the owner's predecessor, with a threshold those left can meet, and then the list lacks it |
| OwnerRing.Ring.ChangeThreshold | bin/libid-deploy/src/safes.rs:93-94 | In place: accepted exactly from one to the owner count |
| OwnerRing.Ring.Call | bin/libid-deploy/src/safes.rs:425-456 | One call does to the links what the test's replay does to the list, refusals included |
| OwnerRing.Ring.HandOver | bin/libid-deploy/src/safes.rs:208-257 | Run call by call on the links, the program is never refused and the owners end `same_as` the target |
| Abi.DecodeEncode | bin/libid-deploy/src/safes.rs:88-94 | The contract decodes each encoded owner call to the call itself |
| MultiSend.MultiSendRoundTrip | bin/libid-deploy/src/safes.rs:352-361 | Parsed with the index loop, the packed blob is one plain call to the Safe per call, in order, with its data unchanged |
| MultiSend.DecodeEncodeMultiSend | bin/libid-deploy/src/safes.rs:368-372 | The `multiSend(bytes)` call that carries the blob decodes to the blob, padding and all |
| Safes.CallsTo | bin/libid-deploy/src/safes.rs:208-257 | The for and while loops of the program, with their in-place list, emit exactly the encoded program |
| Safes.ExecBatch | bin/libid-deploy/src/safes.rs:352-383 | The packing loop and the signature build exactly the batch transaction |
| Safes.HandOverBlobFits | bin/libid-deploy/src/safes.rs:352-372 | A hand-over's blob, whatever the owner lists, has a length one word can hold |
| Safes.BatchRunsItsCalls | bin/libid-deploy/src/safes.rs:348-383 | Executed by the Safe, the batch passes the signature check and runs exactly the calls it was built from, through both layers of encoding |
| Safes.ExecutesOnlyItsOwn | bin/libid-deploy/src/safes.rs:339-383 | Whatever the transaction, owners change only for a sender who signs alone, by the signature that names the sender, through calls of the Safe to itself, and for no refund but in ether it holds |
| Safes.ProgramRunsOnTheRing | bin/libid-deploy/src/safes.rs:208-257 | On the linked list itself the program never reverts and leaves the kept owners under the declared threshold |
| Safes.HandOverExecutes | bin/libid-deploy/src/safes.rs:208-257 | From the fields of the Safe transaction down, in bytes: while the deployer signs alone, it executes, even on a Safe without ether, and leaves the declared owners and threshold |
| Safes.DeclaredHandOver | bin/libid-deploy/src/config.rs:382-429 | The same for every Safe a file is admitted with |
| Worlds.ApplyKeepsRecords | bin/libid-deploy/src/apply.rs:990-1064 | No transaction leaves the factory with a record for a name without code, or at another address |
| Worlds.EveryChainHolds | bin/libid-deploy/src/apply.rs:990-1064 | Every chain that started without factory and Safes has true records and usable owner lists, whatever the files of one factory sent, their deployers and circuits releases differing |
| Permanence.TxRecordsOnlyGrow | bin/libid-deploy/src/apply.rs:990-1064 | No transaction, whoever built it, changes a record or code already there, and none adds a record but under a free name, at an empty address, by the owner of the factory |
| Permanence.TxProxyMoves | bin/libid-deploy/src/apply.rs:1174-1347 | A proxy keeps its owner and moves only at its word: a setting through the setter its implementation has, a verifier only onto the code that implementation pins, or the implementation and then no setting |
| Permanence.TxProxyStarts | bin/libid-deploy/src/apply.rs:694-730 | A fresh contract is its owner's, an escrow over a node-keyed registry, a Platform Verifier on the code it pins |
| Permanence.NothingIsReplaced | bin/libid-deploy/src/apply.rs:1009-1064 | Records, code and the owners of proxies are for good, whatever any files sent |
| Permanence.EveryChainIsWired | bin/libid-deploy/src/apply.rs:731-746 | Every chain that started without the contracts has its escrow bound to the registry and no Platform Verifier at an address without code, whatever the files of one factory sent |
| Permanence.EscrowCheckPasses | bin/libid-deploy/src/apply.rs:731-746 | So the one setting apply can only check stops no run on such a chain |
| Permanence.HeldAgainstAll | bin/libid-deploy/src/apply/safes.rs:75-92 | A Safe that none of the deployers signs for alone is altered by no transaction of any of their files, whatever it carries |
| Stability.ActMeets | bin/libid-deploy/src/apply.rs:507-830 | When the transaction of a goal lands and is confirmed, the goal is met: nothing more would be sent for it |
| Stability.RecordedName | bin/libid-deploy/src/apply.rs:1009-1023 | A name on the factory's record is reported without sending where the record is the predicted address, and ends the run where it is another |
| Stability.ActKeeps | bin/libid-deploy/src/apply.rs:357-451 | No goal undoes another: what was met before a transaction of the run is met after it |
| Interruption.InterruptedIsPrefix | bin/libid-deploy/src/apply.rs:357-451 | The state of a run cut after k transactions is the chain after exactly the first k of its trace |
| Interruption.MetThrough | bin/libid-deploy/src/apply.rs:357-451 | A goal the run has met stays met wherever the run is cut later |
| Recovery.FinishedIsMet | bin/libid-deploy/src/apply.rs:357-451 | At the end of a finished run every goal of it but an upgrade is met |
| Recovery.Resume | bin/libid-deploy/src/apply.rs:357-451 | From any cut the same goals run on to the same world, sending what was left |
| Sites.SitesStay | bin/libid-deploy/src/circuits.rs:144-165 | Wherever a run without upgrades is cut, locating the circuit verifiers again gives the addresses located at the start |
| Sites.RunsAgree | bin/libid-deploy/src/apply.rs:300-304 | Runs whose sites differ only in how a verifier with code was found are the same run |
| Convergence.GoalsAreOrdered | bin/libid-deploy/src/apply.rs:357-451 | In every run the deployer takes the factory before offering it on, and everything that may need it comes before it is handed on |
| Convergence.CrashRecovery | bin/libid-deploy/src/apply.rs:357-451 | A run cut after any of its transactions and started again succeeds, ends in the same world and sends exactly the rest |
| Convergence.RepeatedCrashes | bin/libid-deploy/src/apply.rs:990-1064 | Any number of cuts, one after the other, change nothing about the end |
| Convergence.Idempotence | bin/libid-deploy/src/apply.rs:357-451 | After a finished run a second run of the file succeeds, sends nothing and reports nothing |
| Convergence.QuietAfterAcceptance | bin/libid-deploy/src/apply.rs:855-933 | Nor does the next run send anything once the declared owner has taken the factory a run offered it |
| GoalState.FinishedIsConverged | bin/libid-deploy/src/apply.rs:419-447 | A finished run, with or without upgrades, leaves signer, fee, recipient, wiring, registrations and acceptance as the file's fields say; a factory still the deployer's is offered to the owner the file declares, never on a dev chain; every Safe has the declared owners or ones the deployer cannot sign for |
| GoalState.AnySignerConverges | bin/libid-deploy/src/apply.rs:362-372 | Whoever signs, a run that succeeds is the deployer's and converges; any other signer's does nothing |
| GoalState.FinishedIsVendored | bin/libid-deploy/src/circuits.rs:19-33 | Where the release's names hold only its own code, every platform ends on the vendored verifier of its circuit |
| GoalState.QuietAfterUpgrades | bin/libid-deploy/src/apply.rs:1195-1215 | After any run that finishes the next plain run is quiet if and only if the chain it started on did not have: no vendored verifier to locate, foreign code at the name, and just one of X and GitHub pointing at vendored code |
| GoalState.AgreementIsForeseen | bin/libid-deploy/src/circuits.rs:144-165 | The same condition on the starting chain tells whether X and GitHub end agreeing on vendored code |
| GoalState.QuietWhereCircuitsAgree | bin/libid-deploy/src/apply.rs:1195-1215 | On the chain a run leaves, the next plain run is quiet if and only if they agree |
| GoalState.QuietWhereNamesAreVendored | bin/libid-deploy/src/apply.rs:1174-1215 | In particular after any run on a chain where the shared circuit's name holds only the release's code |
| Witness.UpgradeUnsettles | bin/libid-deploy/src/circuits.rs:150-158 | A concrete file and chain on which an upgrade run succeeds and the next plain run still sends |
| Witness.QuietPlanUnquietRun | bin/libid-deploy/src/plan.rs:485-531 | A concrete file and chain with a plan without a remark, on which the run sends exactly the repair of the Google verifier's pointer |
| Witness.OutdatedConverges | README.md:117-123 | A concrete chain of the release before, brought up to date by the run with the upgrade and stopping the run without |
| Flow.PassedIsMet | bin/libid-deploy/src/apply.rs:357-451 | Everything a run passed on its way to a goal is met when it gets there |
| Flow.OwnerGateCovers | bin/libid-deploy/src/apply.rs:394-417 | Wherever a run is about to go through `factory.deploy`, the signer owns the factory |
| Flow.GoalsFlow | bin/libid-deploy/src/apply.rs:419-430 | In every run a contract is deployed before its address is passed on or it is read, and upgraded before it is read |
| Flow.NoDanglingWiring | bin/libid-deploy/src/apply.rs:510-1232 | Every contract address a transaction of a run hands to an initializer or setter holds code when it is sent, if and only if it is not a rotation handing back a stored notary without code |
| NotaryPointers.RunKeepsNotaries | bin/libid-deploy/src/apply.rs:1207-1219 | No run, finished or not, repairs or spoils a platform's notary pointer; a fresh platform keeps the declared one or none |
| NotaryPointers.FreshPlatformsPoint | bin/libid-deploy/src/platforms.rs:86-111 | A platform a run deployed points at the declared Notary Service from then on, and Google's at none |
| NotaryPointers.RunRotatesAs | bin/libid-deploy/src/apply.rs:1207-1219 | Every rotation hands back the notary the run found on the chain, and the located verifier |
| NotaryPointers.WiringForeseen | bin/libid-deploy/src/apply.rs:1207-1219 | Whether a transaction dangles, told from the chain the run starts on |
| NotaryPointers.NothingDanglesFrom | bin/libid-deploy/src/apply.rs:1207-1219 | In particular none does where the platforms point at the declared Notary Service, at code or at none |
| NotaryPointers.PlanIgnoresNotary | bin/libid-deploy/src/plan.rs:485-531 | The plan is the same wherever a platform's notary pointer points |
| NotaryPointers.GoalsIgnoreNotary | bin/libid-deploy/src/apply.rs:1185-1232 | So is what a run does about every goal, a rotation's argument aside |
| Witness.NotaryAstray | bin/libid-deploy/src/apply.rs:1207-1219 | A concrete run that succeeds, converges and hands on a notary address without code |
| Flow.SafesNeedRelease | bin/libid-deploy/src/apply/safes.rs:28-39 | A run creates or executes on a Safe only where the chain has the four release contracts |
| Flow.FrontUpgrades | bin/libid-deploy/src/apply.rs:1319-1347 | The goals of a run hold each requested upgrade exactly as often as it was requested |
| Flow.UpgradesRunOnce | bin/libid-deploy/src/apply.rs:432-441 | A run that gets to the count of its upgrades has sent each requested one once, so the count never stops it |
| Flow.UpgradeBeforeRead | bin/libid-deploy/src/apply.rs:1319-1326 | Nothing before an upgrade reads through the proxy it upgrades, and the proxy is deployed by then |
| Flow.DecidesWithout | bin/libid-deploy/src/apply.rs:1319-1326 | Another implementation behind a proxy a goal is said not to read through changes nothing the goal decides |
| Deployments.DeployedIsWhatWasMissing | bin/libid-deploy/src/apply.rs:245-258 | A finished run reports a component exactly when the file asks for it and the chain lacked it at the start, and none twice |
| Plan.Planner.Circuits | bin/libid-deploy/src/plan.rs:317-320 | A line per circuit, and the map of their addresses the platforms are checked against |
| Plan.Planner.Platforms | bin/libid-deploy/src/plan.rs:323-333 | Every platform in order, with its acceptance where the registry is |
| Plan.Planner.FactoryRecords | bin/libid-deploy/src/plan.rs:535-561 | A line per canonical name against the factory's record, and its owner's, where the factory is |
| Plan.Planner.ReleaseContracts | bin/libid-deploy/src/plan/safes.rs:146-157 | A line per Safe release contract, and whether all of them are canonical |
| Plan.Planner.Safes | bin/libid-deploy/src/plan/safes.rs:141-178 | The Safes' lines, none beyond the release where it is not canonical |
| Plan.Build | bin/libid-deploy/src/plan.rs:183-218 | The planner's pushes add up to one item per covered line, in order, with the status of its answer |
| Agreement.PlanCovers | bin/libid-deploy/src/plan.rs:252-340 | Exactly which lines a plan has on a chain: each line's own condition, both ways |
| Agreement.LinesInOrder | bin/libid-deploy/src/plan.rs:252-340 | No line twice, and all in one order, whichever the chain leaves out |
| Agreement.MarkedIsMissing | bin/libid-deploy/src/plan.rs:252-340 | A plan that gets to the Safes marks for deployment exactly what the file asks for and the chain lacks |
| Agreement.PlanPredictsDeploys | bin/libid-deploy/src/plan.rs:252-340 | Before a run that succeeds, a component is marked for deployment if and only if the run reports it deployed |
| Agreement.HasDeploysPredicts | bin/libid-deploy/src/plan.rs:144-148 | `has_deploys` before such a run: the keyless deployer is missing or something is reported deployed |
| QuietPlans.SettingLineIsMove | bin/libid-deploy/src/plan/checks.rs:98-222 | For each setting of a contract that is there: fine is kept, configure is sent, a failed read stops the run, and conversely |
| QuietPlans.CheckLineIsMove | bin/libid-deploy/src/plan/checks.rs:237-295 | The escrow and acceptance lines are fine exactly when apply goes on |
| QuietPlans.TrustRootsLineIsMove | bin/libid-deploy/src/plan/checks.rs:427-467 | How the trust roots line relates to what apply does, stale pins and undeployed verifiers included |
| QuietPlans.OwnersLineIsMove | bin/libid-deploy/src/plan/safes.rs:78-136 | A Safe's owners line: fine exactly on the declared set, configure exactly when apply sends, a warning exactly when the read fails, which stops apply, or apply leaves other owners alone |
| QuietPlans.OwnersLineMeans | bin/libid-deploy/src/plan/safes.rs:78-136 | The same told from the owners as a set, the threshold and the deployer |
| QuietPlans.OwnersMoveMeans | bin/libid-deploy/src/apply/safes.rs:64-114 | What apply does with that Safe, told from the same: stop, leave alone, or hand over |
| QuietPlans.QuietPlanHoldsOwners | bin/libid-deploy/src/plan/safes.rs:141-178 | Behind a quiet plan every declared Safe is there with exactly the declared owners and threshold |
| QuietPlans.CircuitLineMeans | bin/libid-deploy/src/plan.rs:465-478 | A circuit's line: fine where a platform uses the vendored code or the name holds it, a deployment where neither is there, a warning on foreign code |
| QuietPlans.AcceptsLineMeans | bin/libid-deploy/src/plan/checks.rs:232-260 | A platform reads as accepted exactly where the registry reads the declared proof verifier and that has some verifier for the platform |
| QuietPlans.RecordLineMeans | bin/libid-deploy/src/plan.rs:535-561 | A record's line: fine, skipped or a warning by whether the record is the declared address, missing or another |
| QuietPlans.OwnerLineMeans | bin/libid-deploy/src/plan/checks.rs:573-590 | The factory owner's line: to be configured exactly where the file declares another owner |
| QuietPlans.QuietPlanQuietRun | bin/libid-deploy/src/plan/checks.rs:45-590 | After a plan with every line fine or skipped, a run succeeds and sends nothing if and only if the Google verifier reads the declared root list |
| QuietPlans.UnwiredRun | bin/libid-deploy/src/apply.rs:1236-1257 | After a quiet plan with the pointer elsewhere, a run is exactly its repair where the verifier answers `setJwtRoots` to the deployer, and otherwise stops having sent nothing |
| QuietPlans.QuietPlanMissesTheRoots | bin/libid-deploy/src/plan.rs:485-531 | Every quiet plan stays quiet with that pointer moved, and the run then sends exactly its repair, or stops where the verifier does not take it |
| QuietPlans.QuietRunQuietPlan | bin/libid-deploy/src/plan/checks.rs:45-590 | Before a run that does nothing the plan has no deployment, and its only remarks are ones apply never acts on |
| SafeHistory.EveryRunIsLawful | bin/libid-deploy/src/apply/safes.rs:53-114 | Whatever happened before, a run cut anywhere leaves a Safe alone or, only where the deployer signs alone, on that file's set |
| SafeHistory.HeldForGood | bin/libid-deploy/src/apply/safes.rs:75-92 | Once the deployer no longer signs alone, no run of any file alters the Safe again unless its owners act |
| SafeHistory.RunExecsOnce | bin/libid-deploy/src/apply/safes.rs:94-114 | A run executes at most one transaction on each Safe, and none on one already on its file's set |
| Transactions.OnlyWhatIsAskedFor | bin/libid-deploy/src/apply.rs:357-451 | Every transaction of any run, finished or not, written in the file's fields: fresh settings, setters, transfers to the declared owner, acceptances for another key on a dev chain only, upgrades requested, Safes declared, and Safe transactions that ask the Safe for no value, gas or refund |
| Transactions.NothingElseMoves | bin/libid-deploy/src/apply.rs:357-451 | No run changes of a contract it found what the file and the command do not ask for: no key loses its trust, no registration, owner or other setting is lost |
| Transactions.GoalsInOrder | bin/libid-deploy/src/apply.rs:381-447 | The order of a run, goal by goal |
| Progress.GoalsFollow | bin/libid-deploy/src/apply.rs:357-451 | In every run each goal comes after all the goals it relies on |
| Progress.GoalSucceeds | bin/libid-deploy/src/apply.rs:507-1295 | A goal whose needs are met, and that reads through no proxy still too old, is met or its transaction lands and does its work |
| Progress.ReadsNothingStale | README.md:364-372 | When a run comes to a goal it has upgraded every requested proxy the goal reads through |
| Progress.RunSucceeds | README.md:364-372 | A run succeeds and converges from every chain that can host the stack and holds any part of it under the deployer's keys, where each proxy does what the file needs or is upgraded by the run; every platform ends on the vendored verifier, every proxy serves the file, every requested one runs the embedded implementation |
| Progress.UpgradedEndsOnRelease | bin/libid-deploy/src/apply.rs:1300-1317 | Once a run has upgraded a proxy it ends on the embedded implementation |
| Progress.CutIsRenewable | bin/libid-deploy/src/apply.rs:357-451 | Cut anywhere, such a run leaves a chain the same command succeeds on |
| Progress.UpgradeRunRestarts | bin/libid-deploy/src/apply.rs:357-451 | A run with upgrades, cut after any of its transactions and started again with the same command, succeeds and converges |
| Lockstep.RunFollows | bin/libid-deploy/src/apply.rs:300-304 | Two runs of the same goals that located the circuit verifiers differently: where the one succeeds so does the other, and the chains differ at most in which vendored verifier a platform points at |
| Restart.ReplayedRun | bin/libid-deploy/src/apply.rs:357-451 | With the sites it had, a run with upgrades started again anywhere ends where it would have ended |
| Restart.RestartSucceeds | bin/libid-deploy/src/apply.rs:357-451 | Cut after any transaction and started again, a run that succeeds uncut succeeds and converges, leaving the same chain but for which vendored verifier a platform points at, unless it is trapped |
| Restart.RepeatedRestarts | bin/libid-deploy/src/apply.rs:357-451 | The same after any number of cuts |
| Restart.RestartsExactly | bin/libid-deploy/src/circuits.rs:144-165 | A run that succeeds uncut can be cut anywhere and started again if and only if the chain it starts on is not trapped |
| Witness.RestartCanFail | bin/libid-deploy/src/circuits.rs:144-165 | A concrete run that succeeds and a cut from which the same command does not |
| Progress.FreshDeploySucceeds | bin/libid-deploy/src/apply.rs:464-477 | On a virgin chain the first run succeeds if and only if the flag is given; without it nothing is sent |
| Rotation.NeverRotated | bin/libid-deploy/src/apply.rs:1174-1215 | A run without its upgrade never sends `setTrustRoots` to a platform that pins other code, however far it gets |
| Rotation.RotationNeedsUpgrade | README.md:117-123 | Where the release's names hold only its own code, such a platform, using other code, is not rotated by a run that does not upgrade it, and the run does not succeed |
| Rotation.RotatesExactlyWithUpgrade | README.md:117-123 | Where only that upgrade is lacking, a run succeeds, and rotates the platform onto the vendored verifier, if and only if it upgrades it |
| Tracking.RunAppend | bin/libid-deploy/src/apply.rs:357-451 | A run of one list of goals and then another is the run of both |
| Applier.Applier.UpgradeIfRequested | bin/libid-deploy/src/apply.rs:1326-1347 | The loop performs every request naming the component, in order, and no other |
| Applier.Applier.PlatformSteps | bin/libid-deploy/src/apply.rs:426-429 | Every platform in launch order |
| Applier.Applier.CheckAcceptsBindings | bin/libid-deploy/src/apply.rs:808-828 | The run goes on exactly when every platform is accepted |
| Applier.Applier.CheckRelease | bin/libid-deploy/src/apply/safes.rs:28-39 | The loop accepts exactly a chain with the four Safe release contracts |
| Applier.Applier.HandOverExec | bin/libid-deploy/src/apply/safes.rs:94-94 | The transaction sent is the hand-over built by the two loops from what was just read |
| Applier.Applier.SafesStep | bin/libid-deploy/src/apply/safes.rs:23-48 | Every Safe in order, none where the release is not there |
| Applier.Applier.LookAtContracts | bin/libid-deploy/src/apply.rs:387-404 | The presence flags, and whether any entry contract is missing |
| Applier.Applier.LocateCircuits | bin/libid-deploy/src/apply.rs:405-414 | The sites of both circuits, and whether a verifier is missing at one |
| Checks.LocateSite | bin/libid-deploy/src/circuits.rs:144-165 | The loop over the platforms of a circuit finds the first that can be read and uses the vendored code, else the release's own name |
| Applier.Applier.Converge | bin/libid-deploy/src/apply.rs:357-451 | The whole run: its verdict, its transactions, the world it leaves and its report are those of `RunAll`; another signer's fails with nothing sent |
| Applier.ApplyFile | bin/libid-deploy/src/apply.rs:310-372 | On another chain id, or signed by another key, it fails with nothing sent; else the run |

## Left out

- RPC transport, nonce retries, receipts, KMS signing, TOML parsing and rendering are not modelled: a transaction lands or reverts, a read answers or fails.
- keccak256, CREATE2 and CREATE3 are not computed: predicted addresses are given with the file, and different names have different addresses.
- Implementation addresses are not modelled: a proxy holds what its implementation answers and pins, so worlds compare up to implementation addresses and orphan implementations.
- What the contracts of `libid-contracts` check is modelled from their use and description here (`rotation_codehash_at` as: the located code is the vendored one and the implementation pins it); their source is not part of this model.
- Safe v1.4.1 is modelled from its error codes, the replay in the tests and the deployed bytecode fixture; signatures other than the pre-validated one are not.
- What a refund takes from a Safe is not followed: no run asks for one (`OnlyWhatIsAskedFor`), and one it could not make reverts. `setup` is its effect, the deployer as only owner.
- A rotation's notary is not checked again by `setTrustRoots`: it is the one the contract accepted before.
- Safes.HandOverExecutes: the ten arguments of `execTransaction` are a record, as `exec_batch` returns them, and their encoding as calldata is left to the library that sends it.
- A length word in a packed record that points past the blob reads as no record at all in the model; the contract would read zeros. `exec_batch` never builds one.
- `acceptsBindings` is modelled through the declared Proof Verifier only: a registry that points elsewhere accepts nothing.
- The initial fee recipient of a fresh Notary Service is a parameter. Keys, owners and fee recipients are accounts, and nothing is claimed about code at their addresses.
- Balance top-up and impersonation on a dev chain are one accepting transaction.
- The summary's `configured` entries and every text are left out; the deployed and upgraded ones are kept.
- The plan's line for a factory declared at another address than predicted is left out: loading the file rules it out.
- Upgrade names, platform and circuit tables are finite and taken as they are; the two circuits are met in the order bearer link, Google.
- Recovery.Resume: runs without upgrades only, as an upgrade is repeated by design when it is requested again; for runs with upgrades see `RestartSucceeds`.
- Convergence.CrashRecovery: runs without upgrades only, for the same reason.
- Progress.UpgradeRunRestarts: chains that are `Renewable` only, as its cuts are again; `RestartSucceeds` starts from every chain the uncut run succeeds on.
- Worlds.ApplyKeepsRecords: a chain on which code vanishes (self-destruct) is outside the model.
- Progress.RunSucceeds: one direction; a chain outside its conditions may still let a run through, for instance with an older implementation that answers what the run happens to call. For a platform that pins and uses other code `RotatesExactlyWithUpgrade` is both directions.
- QuietPlans.OwnersLineIsMove: a Safe whose threshold does not fit 64 bits warns in the plan and stops the run; the line alone does not tell it from one its owners hold.
