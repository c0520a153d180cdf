# Models and proofs for madup-infra-manager and its evaluation tools

This Dafny project models the parts of the repository whose behaviour spans runs, loops and graphs,
and proves what each of them is for. `dafny verify dfyconfig.toml` checks all of it.

How it is written:

- What a program computes or how a store changes is a function on values. A class or a method with
  the loops of the source is proved to compute it, and the theorems are about the function.
- A remote call ends in one of three ways: it takes effect and reports success, it takes effect and
  reports an error, or it has no effect. A crash is a run that ends. Events of other callers may come
  between any two calls. A theorem over all sequences of events is one over all interleavings and
  all failures.
- Where a property fails, a lemma shows the failing run, and another says exactly when it holds.

The modules:

- `ReleaseGuard`: commits form a finite acyclic graph with trees; the scanner is any function from
  content to matches. Scanning the changed paths of outbound commits covers their whole trees.
- `DispatchLedger`: the claim, run, mark, reconcile protocol of scheduled jobs.
- `IamReconciler`, `IamEvaluation`, `IamContract`: evaluating policies against a contract and applying the
  proposed bindings, section by section, all together, and for the repository's own contract.
- `SlackInstalls`, `PendingStates`: the index of active installs per tenant, and one-shot OAuth states.
- `DirectoryLease`, `SnapshotLedger`: the synchronisation lease and snapshots applied exactly once.
- `CostEnforcement`: pausing resources with faults at any call, and retrying.
- `MixedPick`, `SampleSelector`: enumerating combinations by a coprime step, and the stratified sample.
- `EdgeProof`, `SetCookie`: the worker and the gateway agree on requests; taking joined cookies apart.
- `Robots`: robots.txt groups, patterns and verdicts.
- `LiveRun`: a live run and its regrading count the same.
- `GuardText`: the guard's parser, path display and bounded reader.
- `Prelude`, `Text`, `Arithmetic`: shared types, strings and number facts.

## Model

| member | source | states |
|---|---|---|
| `ReleaseGuard.Coverage` | plugins/madup-infra-manager/infra/release/public_release_guard.py:533-578 | every file of every outbound commit of any commit graph, merges and roots included, was introduced (and so scanned) by some outbound commit, or sits at the same path in a commit reachable from a base |
| `ReleaseGuard.CleanScanCovers` | plugins/madup-infra-manager/infra/release/public_release_guard.py:533-578 | if no changed blob holds a match outside the baseline, then no blob of any outbound tree does, unless it was public at that path |
| `ReleaseGuard.BlobMapExact` | plugins/madup-infra-manager/infra/release/public_release_guard.py:562-573 | the recorded blob keys are exactly the non-baseline matches in changed blobs, and the commit recorded with each really has it, although later commits overwrite earlier ones |
| `ReleaseGuard.DiffMapExact` | plugins/madup-infra-manager/infra/release/public_release_guard.py:544-559 | the recorded patch keys are exactly the non-baseline matches in patches, over every parent of every commit, and the commit recorded with each really has it |
| `ReleaseGuard.RangeMeaning` | plugins/madup-infra-manager/infra/release/public_release_guard.py:533-578 | over the commits of a range: no blob finding means nothing new leaks, and every finding names an outbound commit that introduced that match at that path |
| `ReleaseGuard.Baseline.Contains` | plugins/madup-infra-manager/infra/release/public_release_guard.py:136-148 | the cached answer equals a fresh scan of the path in all refs, whatever was cached before |
| `ReleaseGuard.ScanParent` | plugins/madup-infra-manager/infra/release/public_release_guard.py:544-559 | the inner loop returns exactly the keys of the patches and the paths that were not deleted |
| `ReleaseGuard.ScanCommitRange` | plugins/madup-infra-manager/infra/release/public_release_guard.py:533-578 | the nested loops compute the map of blob keys and the map of patch keys |
| `ReleaseGuard.VerifyRange` | plugins/madup-infra-manager/infra/release/public_release_guard.py:586-588 | blob findings and diff findings appear exactly if some outbound commit has such a match, each names a real one, and an empty list of blob findings means that nothing new leaks |
| `ReleaseGuard.DiffMeaning` | plugins/madup-infra-manager/infra/release/public_release_guard.py:544-559 | a patch match in some outbound commit is reported, and every diff finding names an outbound commit whose patch has that match |
| `ReleaseGuard.VerifyPrePush` | plugins/madup-infra-manager/infra/release/public_release_guard.py:601-644 | a push, word by word: it exits 11 exactly if the range from the remote object (or, for a new ref, from all refs of the remote) to the local object of some line that is not a deletion holds a blob match, else 12 exactly if one holds a patch match, else 0; without 11 nothing new leaks through any line; every finding belongs to a line; a line of other than four words gives error 2 before anything is verified |
| `ReleaseGuard.VerifyLine` | plugins/madup-infra-manager/infra/release/public_release_guard.py:616-642 | one line: new or known remote ref, deletions skipped, and findings exactly if an outbound commit of the line has a match |
| `ReleaseGuard.FirstErrorMeans` | plugins/madup-infra-manager/infra/release/public_release_guard.py:281-289 | the first line that stops the guard decides its error: 2 for a ref that is empty or begins with a dash, 4 for a malformed object id, an unknown commit or an empty remote namespace; none exactly if no line stops it |
| `DispatchLedger.AtMostOneLaunch` | plugins/madup-infra-manager/control-plane/src/mim_control_plane/adapters/cloud_run_job_dispatch.py:152-266 | over every run in which dispatches of a tick do not overlap, with crashes and ambiguous outcomes at every call: the job is called at most once for a tick, calls that raise without an effect included, so at most one launch; and all receipts for a tick name the same execution |
| `DispatchLedger.OneCallEach` | plugins/madup-infra-manager/control-plane/src/mim_control_plane/adapters/cloud_run_job_dispatch.py:182-225 | over every interleaving a dispatch calls the job at most once, however the call ends, and only if its first read found no record |
| `DispatchLedger.OverlapLaunchesTwice` | plugins/madup-infra-manager/control-plane/src/mim_control_plane/runtime.py:332-339 | without that lease it is false, and exactly so: from any state that keeps the invariant, some continuation has two dispatches of one request both launch if and only if each has launched, holds the claim, or has read no record while the record is absent or still claimed |
| `DispatchLedger.OverlapReached` | plugins/madup-infra-manager/control-plane/src/mim_control_plane/runtime.py:332-339 | two dispatches that begin before either creates are such a state, so some run launches a tick twice |
| `DispatchLedger.RunHopeless` | plugins/madup-infra-manager/control-plane/src/mim_control_plane/adapters/cloud_run_job_dispatch.py:182-202 | a dispatch outside that condition never launches, whatever follows |
| `DispatchLedger.Unconditional` | plugins/madup-infra-manager/control-plane/src/mim_control_plane/adapters/cloud_run_job_dispatch.py:182-202 | over every interleaving: launches of one tick are by different dispatches, each of which read no record, and all for one request |
| `DispatchLedger.LateReaderNeverLaunches` | plugins/madup-infra-manager/control-plane/src/mim_control_plane/adapters/cloud_run_job_dispatch.py:182-202 | once a tick has a record, no dispatch that reads later ever launches, so launches are bounded by the reads before the first claim |
| `DispatchLedger.BoundForever` | plugins/madup-infra-manager/control-plane/src/mim_control_plane/adapters/cloud_run_job_dispatch.py:141-150 | a recorded tick keeps its stable token, hence its workload, for ever |
| `DispatchLedger.RunInv` | plugins/madup-infra-manager/control-plane/src/mim_control_plane/adapters/cloud_run_job_dispatch.py:182-266 | the invariant of the protocol is kept by every event of every run |
| `DispatchLedger.Dispatch` | plugins/madup-infra-manager/control-plane/src/mim_control_plane/adapters/cloud_run_job_dispatch.py:152-225 | one dispatch, interleaved with any events of others, is the run of exactly the calls it has to make, and its receipt or error is the one the protocol prescribes; undisturbed and without faults, its receipt, the executions and the record are those of the next two rows |
| `DispatchLedger.FreshDispatch` | plugins/madup-infra-manager/control-plane/src/mim_control_plane/adapters/cloud_run_job_dispatch.py:182-225 | without a record and without faults: exactly one execution is started; if it is the one asked for it is recorded and returned as created, otherwise the dispatch fails and the record stays claimed |
| `DispatchLedger.Redispatch` | plugins/madup-infra-manager/control-plane/src/mim_control_plane/adapters/cloud_run_job_dispatch.py:182-266 | with a record and without faults: nothing is started; a succeeded record is returned as not created; under a claimed or ambiguous one the only matching execution is recorded and returned as not created; no match, several matches or another token fail and change nothing |
| `DispatchLedger.LostCreateHolds` | plugins/madup-infra-manager/control-plane/src/mim_control_plane/runtime.py:319-339 | a create that took effect but raised is made good by reading again |
| `DispatchLedger.LostLaunchReconciles` | plugins/madup-infra-manager/control-plane/src/mim_control_plane/adapters/cloud_run_job_dispatch.py:195-266 | a launch that raised is marked ambiguous and reconciled: the execution is returned if it was started and is the only match, otherwise the dispatch fails and the record stays ambiguous |
| `DispatchLedger.CrashStops` | plugins/madup-infra-manager/control-plane/src/mim_control_plane/adapters/cloud_run_job_dispatch.py:152-266 | a crash ends a dispatch for good and touches nothing else |
| `DispatchLedger.Claim` | plugins/madup-infra-manager/control-plane/src/mim_control_plane/runtime.py:319-339 | a claim creates a record, or returns whatever record is there when the create raises |
| `DispatchLedger.RunAndMark` | plugins/madup-infra-manager/control-plane/src/mim_control_plane/adapters/cloud_run_job_dispatch.py:195-225 | run the job, then mark the record succeeded, or mark it ambiguous and reconcile, as a run of the protocol |
| `DispatchLedger.ResolveExisting` | plugins/madup-infra-manager/control-plane/src/mim_control_plane/adapters/cloud_run_job_dispatch.py:227-241 | an existing record is matched by token and answered from its state |
| `DispatchLedger.Reconcile` | plugins/madup-infra-manager/control-plane/src/mim_control_plane/adapters/cloud_run_job_dispatch.py:243-266 | lists, keeps the exact matches, and records the match exactly if there is one |
| `DispatchLedger.MatchingNames` | plugins/madup-infra-manager/control-plane/src/mim_control_plane/adapters/cloud_run_job_dispatch.py:243-266 | the loop collects exactly the executions of this request, in order |
| `DispatchLedger.Site.Create` | plugins/madup-infra-manager/control-plane/src/mim_control_plane/runtime.py:319-339 | create refuses to overwrite a document |
| `DispatchLedger.Site.Mark` | plugins/madup-infra-manager/control-plane/src/mim_control_plane/runtime.py:341-370 | marking overwrites the document |
| `IamReconciler.SectionConverges` | plugins/madup-infra-manager/infra/control-plane/iam/contract.py:742-787 | a ready service-account, artifact or secret section converges in one round (observed equals expected, no blocker, no action) exactly if its missing roles carry no condition, have members, and pass the screens |
| `IamReconciler.ProjectConverges` | plugins/madup-infra-manager/infra/control-plane/iam/contract.py:648-717 | the project section, evaluated ready against a well-formed contract: applying all actions and evaluating again is clean exactly if no key of the contract has a member outside the contract |
| `IamReconciler.ForeignMemberBlocks` | plugins/madup-infra-manager/infra/control-plane/iam/contract.py:648-717 | a foreign member on a key of the contract is not reported at first, and blocks after the actions are applied |
| `IamReconciler.ProjectSettledIff` | plugins/madup-infra-manager/infra/control-plane/iam/contract.py:648-717 | no blocker and no action exactly if the observed grants are those of the contract |
| `IamReconciler.NoBlockersIff` | plugins/madup-infra-manager/infra/control-plane/iam/contract.py:648-717 | the project gives no blocker exactly if every grant passes the screens and every managed identity holds only roles of the contract, each with exactly its members |
| `IamReconciler.NoActionsIff` | plugins/madup-infra-manager/infra/control-plane/iam/contract.py:648-717 | the project gives no action exactly if every identity has every binding of the contract |
| `IamReconciler.CleanAfterIff` | plugins/madup-infra-manager/infra/control-plane/iam/contract.py:648-717 | the grants after the actions give no blocker exactly if no key of the contract has a foreign member |
| `IamReconciler.LayoutIrrelevant` | plugins/madup-infra-manager/infra/control-plane/iam/contract.py:421-433 | splitting, merging, reordering or repeating bindings changes nothing that is evaluated |
| `IamReconciler.ApplyIsAppend` | plugins/madup-infra-manager/infra/control-plane/iam/contract.py:421-433 | adding one binding per action to the policy is applying the actions to its grants |
| `IamReconciler.Aggregate` | plugins/madup-infra-manager/infra/control-plane/iam/contract.py:421-433 | a key appears exactly if some binding gives it a member, with exactly the members that bindings give it |
| `IamReconciler.NormalizeExpected` | plugins/madup-infra-manager/infra/control-plane/iam/contract.py:436-440 | the grants of the contract have a key for each binding, also without members, with exactly the members that some binding gives it |
| `IamReconciler.ReportSection` | plugins/madup-infra-manager/infra/control-plane/iam/contract.py:742-787 | the loops compute the evaluation of a section: its blockers with the first unexpected role in sorting order, and its actions; it raises where sorting mixed keys does |
| `IamReconciler.ReportProject` | plugins/madup-infra-manager/infra/control-plane/iam/contract.py:616-730 | the loops compute the evaluation of the project: its blockers with the first unexpected role of an identity and the first managed foreign member of a key, and its actions; it raises where sorting mixed keys does |
| `IamReconciler.PublicBlocked` | plugins/madup-infra-manager/infra/control-plane/iam/contract.py:633-639 | the project is blocked for a public member exactly if some grant names one |
| `IamReconciler.CrossProjectBlocked` | plugins/madup-infra-manager/infra/control-plane/iam/contract.py:640-646 | and for an account of another project exactly if some grant names one |
| `IamReconciler.WorkloadBlocked` | plugins/madup-infra-manager/infra/control-plane/iam/contract.py:718-730 | a workload account is blocked under each project role it has, and under no other |
| `IamReconciler.ForbiddenBlocked` | plugins/madup-infra-manager/infra/control-plane/iam/contract.py:616-632 | the two forbidden roles are blocked exactly if somebody has them |
| `IamReconciler.UnexpectedRoleBlocked` | plugins/madup-infra-manager/infra/control-plane/iam/contract.py:652-680 | a managed identity is blocked under the first role, in sorting order, that the contract does not give it, and under no other |
| `IamReconciler.DriftBlocked` | plugins/madup-infra-manager/infra/control-plane/iam/contract.py:690-717 | a key with other members than those of the contract is blocked, and a managed one among the extra members is named |
| `IamReconciler.ProjectProposals` | plugins/madup-infra-manager/infra/control-plane/iam/contract.py:681-689 | what is proposed for the project: exactly the bindings of the contract that a managed identity lacks, each with its condition if that is whole |
| `IamReconciler.SectionMeans` | plugins/madup-infra-manager/infra/control-plane/iam/contract.py:742-787 | what is reported for one resource: exactly what its screen says of the members, drift on keys of the contract, and the first of the other roles |
| `IamReconciler.SectionProposals` | plugins/madup-infra-manager/infra/control-plane/iam/contract.py:768-776 | what is proposed for one resource: exactly the members of each missing role, without a condition |
| `IamReconciler.ComparableIff` | plugins/madup-infra-manager/infra/control-plane/iam/contract.py:661-681 | role keys can be sorted exactly if no comparison of two of them meets a text and nothing |
| `IamReconciler.ProjectRaisesIff` | plugins/madup-infra-manager/infra/control-plane/iam/contract.py:661-680 | the project evaluation raises exactly if, for a managed identity, the keys it should not have or those it lacks cannot be sorted |
| `IamReconciler.SectionRaisesIff` | plugins/madup-infra-manager/infra/control-plane/iam/contract.py:495-535 | and that of a resource exactly if its observed keys, or its missing ones, cannot be sorted |
| `IamReconciler.Least` | plugins/madup-infra-manager/infra/control-plane/iam/contract.py:661-700 | the first text in sorting order is in the set and no other text of the set comes before it |
| `IamEvaluation.Converges` | plugins/madup-infra-manager/infra/control-plane/iam/contract.py:596-887 | all sections together: applying all that a ready report proposes gives the contract's grants everywhere and a settled second report, exactly if no key of the project contract has a foreign member and the missing roles of every resource that is not left out can be bound |
| `IamEvaluation.ReadyIff` | plugins/madup-infra-manager/infra/control-plane/iam/contract.py:881-887 | a report is ready exactly if every section is and nobody reads the billing export, and settled exactly if every section is |
| `IamEvaluation.ActionsApart` | plugins/madup-infra-manager/infra/control-plane/iam/contract.py:596-887 | the actions reported for the project and for each resource are exactly those of its section |
| `IamEvaluation.Evaluate` | plugins/madup-infra-manager/infra/control-plane/iam/contract.py:596-887 | the sections one after the other, optional secrets without a policy left out, and no report if any section cannot be sorted |
| `IamEvaluation.BlockersApart` | plugins/madup-infra-manager/infra/control-plane/iam/contract.py:596-887 | the reported blockers are exactly those of the sections, each under its section, and one for the billing export |
| `IamEvaluation.ProjectReported` | plugins/madup-infra-manager/infra/control-plane/iam/contract.py:616-730 | whatever else is observed, a report names each public, foreign or workload member of the project and each of the two forbidden roles |
| `IamEvaluation.MissingPolicy` | plugins/madup-infra-manager/infra/control-plane/iam/contract.py:838-843 | an optional resource without a policy adds nothing; any other one is evaluated as one without grants |
| `IamContract.RepositoryConverges` | plugins/madup-infra-manager/infra/control-plane/iam/contract.py:210-384 | the repository's own contract: a ready report converges in one round exactly if no key of the project contract has a foreign member |
| `IamContract.ProjectNeverReady` | plugins/madup-infra-manager/infra/control-plane/iam/contract.py:616-730 | against the repository's contract no report is ready while the project has a public member, an account of another project that is not allowed, a workload account, or one of the two roles |
| `IamContract.AccountNeverReady` | plugins/madup-infra-manager/infra/control-plane/iam/contract.py:742-760 | nor while a public member or such an account has a role on one of its service accounts |
| `IamContract.ForeignAccount` | plugins/madup-infra-manager/infra/control-plane/iam/contract.py:449-475 | an account of another project is told by its ending, unless it is allowed |
| `IamContract.WorkloadAccount` | plugins/madup-infra-manager/infra/control-plane/iam/contract.py:718-730 | an account whose name begins as those of workloads do is one |
| `IamContract.ProjectIsContract` | plugins/madup-infra-manager/infra/control-plane/iam/contract.py:224-294 | its project bindings are a project contract: managed members only, each key with members and a whole condition or none, nothing that the screens block, and role lists that can be sorted |
| `IamContract.ResourceBindable` | plugins/madup-infra-manager/infra/control-plane/iam/contract.py:120-365 | whatever is observed, the missing roles of its resources can be bound |
| `IamContract.ExpectedContract` | plugins/madup-infra-manager/infra/control-plane/iam/contract.py:210-384 | the loop over the resources makes that contract |
| `SlackInstalls.OneActivePerTenant` | plugins/madup-infra-manager/control-plane/src/mim_control_plane/adapters/firestore_slack_oauth.py:423-501 | in every reachable state, given saves of active installs: a tenant has at most one active install, and it is the one its pointer names |
| `SlackInstalls.SaveKeepsIndex` | plugins/madup-infra-manager/control-plane/src/mim_control_plane/adapters/firestore_slack_oauth.py:423-501 | a committed save keeps the index exactly if it saves an active install |
| `SlackInstalls.RevokeKeepsIndex` | plugins/madup-infra-manager/control-plane/src/mim_control_plane/adapters/firestore_slack_oauth.py:604-664 | a committed revoke keeps the index: it removes the pointer exactly if it names the revoked install |
| `SlackInstalls.RunIndexed` | plugins/madup-infra-manager/control-plane/src/mim_control_plane/adapters/firestore_slack_oauth.py:423-664 | every run of saves of active installs and of revokes, with any ambiguous commits, keeps the index |
| `SlackInstalls.VersionsRise` | plugins/madup-infra-manager/control-plane/src/mim_control_plane/adapters/firestore_slack_oauth.py:440-501 | installs are never forgotten and every change raises the version |
| `SlackInstalls.LookupExact` | plugins/madup-infra-manager/control-plane/src/mim_control_plane/adapters/firestore_slack_oauth.py:510-538 | a lookup never meets a revoked install; it finds the active one of the tenant if there is one, and is denied exactly if a colliding tenant occupies the document |
| `SlackInstalls.LogicalIdsCollide` | plugins/madup-infra-manager/control-plane/src/mim_control_plane/adapters/firestore_slack_oauth.py:154-155 | exactly which arguments of a lookup share their document with another tenant: those with a colon in the team id, with a colon in the enterprise id that is not its last character, or with an enterprise id that is missing, empty or a dash |
| `SlackInstalls.StorableIdsCollide` | plugins/madup-infra-manager/control-plane/src/mim_control_plane/adapters/firestore_slack_oauth.py:154-155 | among tenants that an install can be saved for, whose ids are exact texts, a logical id is shared exactly if the enterprise id is missing or a dash, or the logical id has another colon with exact texts on both sides |
| `SlackInstalls.LogicalIdsCollided` | plugins/madup-infra-manager/control-plane/src/mim_control_plane/adapters/firestore_slack_oauth.py:154-155 | two colliding pairs: a missing enterprise id and a dash, and a colon that moves from the team id to the enterprise id |
| `SlackInstalls.OthersLeaveActive` | plugins/madup-infra-manager/control-plane/src/mim_control_plane/adapters/firestore_slack_oauth.py:423-664 | an active install and the pointer to it survive every operation for another tenant |
| `SlackInstalls.OthersLeavePointer` | plugins/madup-infra-manager/control-plane/src/mim_control_plane/adapters/firestore_slack_oauth.py:423-664 | a pointer that speaks of a tenant survives every operation for another tenant |
| `SlackInstalls.TakenOverIff` | plugins/madup-infra-manager/control-plane/src/mim_control_plane/adapters/firestore_slack_oauth.py:440-501 | an operation for another tenant changes an install exactly if that was revoked and a committed save reuses its id |
| `SlackInstalls.Repository.SaveSharedInstall` | plugins/madup-infra-manager/control-plane/src/mim_control_plane/adapters/firestore_slack_oauth.py:423-501 | the transaction of a save, with ambiguous commits, is the save that the theorems are about, and its result is the persisted install |
| `SlackInstalls.Repository.RevokeSharedInstall` | plugins/madup-infra-manager/control-plane/src/mim_control_plane/adapters/firestore_slack_oauth.py:604-664 | the transaction of a revoke, with ambiguous commits, is the revoke that the theorems are about, and its result is the revoked install |
| `SlackInstalls.SaveOkIff` | plugins/madup-infra-manager/control-plane/src/mim_control_plane/adapters/firestore_slack_oauth.py:423-501 | a save commits exactly if the install is not active and no active install has the logical id of its tenant |
| `SlackInstalls.SaveFinds` | plugins/madup-infra-manager/control-plane/src/mim_control_plane/adapters/firestore_slack_oauth.py:440-501 | after a committed save of an active install the lookup of its tenant finds it as saved, one version after a revoked install whose id it takes over; no other install changes |
| `SlackInstalls.RevokeOkIff` | plugins/madup-infra-manager/control-plane/src/mim_control_plane/adapters/firestore_slack_oauth.py:604-664 | a revoke commits exactly if the install exists, is not revoked before its creation, and no active install of another tenant occupies its logical id |
| `SlackInstalls.RevokeRevokes` | plugins/madup-infra-manager/control-plane/src/mim_control_plane/adapters/firestore_slack_oauth.py:604-664 | after a committed revoke the install is revoked, one version later and otherwise as it was; nothing is found for its tenant if it was active, and it is found for no tenant |
| `SlackInstalls.RevokedStays` | plugins/madup-infra-manager/control-plane/src/mim_control_plane/adapters/firestore_slack_oauth.py:423-664 | a revoked install stays revoked and is found for no tenant until a save of it commits |
| `SlackInstalls.GetIff` | plugins/madup-infra-manager/control-plane/src/mim_control_plane/adapters/firestore_slack_oauth.py:510-538 | in any store: nothing is found exactly where there is no pointer, only an active install that its pointer names is found, and everything else is denied |
| `SlackInstalls.Repository.GetActiveInstallForTenant` | plugins/madup-infra-manager/control-plane/src/mim_control_plane/adapters/firestore_slack_oauth.py:510-538 | the lookup reads the pointer, checks that it speaks of the tenant, then reads the install and checks that it is active |
| `PendingStates.ConsumedAtMostOnce` | plugins/madup-infra-manager/control-plane/src/mim_control_plane/adapters/firestore_slack_oauth.py:359-421 | over every interleaving and every ambiguous commit a state is consumed at most once |
| `PendingStates.ConsumedAsCreated` | plugins/madup-infra-manager/control-plane/src/mim_control_plane/adapters/firestore_slack_oauth.py:375-421 | a state is consumed strictly before it expires, with hash, installer, tenant, redirect and scopes as created |
| `PendingStates.FirstConsumeSucceeds` | plugins/madup-infra-manager/control-plane/src/mim_control_plane/adapters/firestore_slack_oauth.py:375-421 | a request that meets those conditions on an unconsumed state commits |
| `PendingStates.RefusalMeans` | plugins/madup-infra-manager/control-plane/src/mim_control_plane/adapters/firestore_slack_oauth.py:375-394 | which refusal a request meets: hash before owner, owner before tenant, redirect and scopes, and those before time and replay |
| `PendingStates.CommitWrites` | plugins/madup-infra-manager/control-plane/src/mim_control_plane/adapters/firestore_slack_oauth.py:344-410 | a committed create stores the state as given, a committed consume the same state with its time, one version later; nothing else changes |
| `PendingStates.CreatedBy` | plugins/madup-infra-manager/control-plane/src/mim_control_plane/adapters/firestore_slack_oauth.py:344-357 | a state exists only through one committed create |
| `PendingStates.Persists` | plugins/madup-infra-manager/control-plane/src/mim_control_plane/adapters/firestore_slack_oauth.py:344-421 | a state keeps its terms; once consumed, it never changes again |
| `PendingStates.Repository.CreatePendingState` | plugins/madup-infra-manager/control-plane/src/mim_control_plane/adapters/firestore_slack_oauth.py:344-357 | create refuses to overwrite |
| `PendingStates.Repository.ConsumePendingState` | plugins/madup-infra-manager/control-plane/src/mim_control_plane/adapters/firestore_slack_oauth.py:359-421 | the checks in their order, and success only after a commit that took effect |
| `DirectoryLease.MutualExclusion` | plugins/madup-infra-manager/control-plane/src/mim_control_plane/adapters/firestore_directory.py:564-630 | over every run with clocks in commit order: of two claims returned to callers, wherever each was committed, the earlier was released in between or had expired when the later was acquired, ambiguous commits and recovery included |
| `DirectoryLease.ClockOrderNeeded` | plugins/madup-infra-manager/control-plane/src/mim_control_plane/adapters/firestore_directory.py:564-630 | for any two valid claims whose clocks are out of order, a run returns both and a third claim that is neither released nor expired when the second of them is acquired |
| `DirectoryLease.NeverBlockedLonger` | plugins/madup-infra-manager/control-plane/src/mim_control_plane/adapters/firestore_directory.py:537-630 | after any run, with clocks in any order, a record blocks attempts for at most fifteen minutes |
| `DirectoryLease.SyncLease.TryAcquire` | plugins/madup-infra-manager/control-plane/src/mim_control_plane/adapters/firestore_directory.py:564-630 | the answer in every case: a duration out of bounds is refused; the claim is returned if the transaction took it over a free record, or if it raised and the record that is read afterwards is the claim; nothing is returned exactly if an unexpired record of another holder was in the way |
| `DirectoryLease.SyncLease.AcquireTx` | plugins/madup-infra-manager/control-plane/src/mim_control_plane/adapters/firestore_directory.py:582-615 | one transaction: what it returns in each case |
| `DirectoryLease.SyncLease.RecoverRead` | plugins/madup-infra-manager/control-plane/src/mim_control_plane/adapters/firestore_directory.py:292-316 | the recovering read recognises its own record only |
| `DirectoryLease.SyncLease.ReleaseLease` | plugins/madup-infra-manager/control-plane/src/mim_control_plane/adapters/firestore_directory.py:632-660 | a holder removes its own record, and a stale holder never that of its successor |
| `SnapshotLedger.ExactlyOnce` | plugins/madup-infra-manager/control-plane/src/mim_control_plane/adapters/firestore_directory.py:724-881 | any sequence of attempts, retries and ambiguous commits ends as a run of attempts for distinct snapshots: each changes users, audits and ledger in at most one step |
| `SnapshotLedger.LaterAttempts` | plugins/madup-infra-manager/control-plane/src/mim_control_plane/adapters/firestore_directory.py:468-513 | after a snapshot was applied, another attempt changes nothing, and answers replayed for the same material and conflict for another |
| `SnapshotLedger.LedgerKeeps` | plugins/madup-infra-manager/control-plane/src/mim_control_plane/adapters/firestore_directory.py:774-860 | the ledger keeps what was applied |
| `SnapshotLedger.VersionsCount` | plugins/madup-infra-manager/control-plane/src/mim_control_plane/adapters/firestore_directory.py:774-860 | a version counts the snapshots that were applied to its user |
| `SnapshotLedger.CommittedUser` | plugins/madup-infra-manager/control-plane/src/mim_control_plane/adapters/firestore_directory.py:774-860 | what one applied snapshot does to any user |
| `SnapshotLedger.WroteUser` | plugins/madup-infra-manager/control-plane/src/mim_control_plane/adapters/firestore_directory.py:774-860 | the loop of writes gives a touched user one of its changes and leaves the others |
| `SnapshotLedger.AppliedIff` | plugins/madup-infra-manager/control-plane/src/mim_control_plane/adapters/firestore_directory.py:730-850 | a snapshot is applied exactly if it is new and within the limit, each change fits the stored user and has its audit event, and no user and no event occurs twice |
| `SnapshotLedger.AnswerIff` | plugins/madup-infra-manager/control-plane/src/mim_control_plane/adapters/firestore_directory.py:724-780 | a known snapshot is a replay with its material and a conflict with another; a request over the limit is refused |
| `SnapshotLedger.AppliedInFull` | plugins/madup-infra-manager/control-plane/src/mim_control_plane/adapters/firestore_directory.py:774-860 | after a committed snapshot every changed user is stored as given, every audit event under its id, and the snapshot with its material; nothing else has changed |
| `SnapshotLedger.Repository.ApplySnapshotOnce` | plugins/madup-infra-manager/control-plane/src/mim_control_plane/adapters/firestore_directory.py:724-881 | the transaction, and the read of the ledger when it raised, with others in between |
| `CostEnforcement.RetryExactly` | plugins/madup-infra-manager/control-plane/src/mim_control_plane/adapters/cost_enforcement.py:182-404 | interrupted any number of times at any call, with or without its effect, and then retried: the same workloads and schedules and the same ending as an attempt that was never interrupted, for all interruptions, exactly if the attempt is refused anyway, or every audit event that is already stored under its ids is its own, or one stops it at a place that interruptions do not move |
| `CostEnforcement.RetryReachesSame` | plugins/madup-infra-manager/control-plane/src/mim_control_plane/adapters/cost_enforcement.py:182-359 | if every stored audit event under its ids is its own, or one stops it at a place that interruptions do not move, any sequence of interruptions and a retry end like one uninterrupted attempt |
| `CostEnforcement.OnlyEligible` | plugins/madup-infra-manager/control-plane/src/mim_control_plane/adapters/cost_enforcement.py:269-359 | over all attempts only active workloads and enabled schedules in scope change, each once, and only after its effect outside the store |
| `CostEnforcement.SuccessSettles` | plugins/madup-infra-manager/control-plane/src/mim_control_plane/adapters/cost_enforcement.py:269-359 | an attempt that returns leaves no active workload in scope and no enabled schedule unless its workload is archived, and every change is audited |
| `CostEnforcement.SuccessPauses` | plugins/madup-infra-manager/control-plane/src/mim_control_plane/adapters/cost_enforcement.py:269-359 | after an attempt that returns, each resource in full: an active workload in scope, or an enabled schedule whose workload is not archived, is paused one version later with its owner and workload as before, after its effect and with an audit event of both states and versions; every other resource is as it was |
| `CostEnforcement.InOrder` | plugins/madup-infra-manager/control-plane/src/mim_control_plane/adapters/cost_enforcement.py:193-267 | however an attempt ends, what it paused comes after everything that runs and comes sooner: workloads before schedules, each in the order of ids, was paused too |
| `CostEnforcement.ReplayChangesNothing` | plugins/madup-infra-manager/control-plane/src/mim_control_plane/adapters/cost_enforcement.py:182-404 | a replay after success changes no resource, no audit event and no effect, whatever faults it meets |
| `CostEnforcement.LostBound` | plugins/madup-infra-manager/control-plane/src/mim_control_plane/adapters/cost_enforcement.py:269-404 | over any number of attempts, at most one resource audit event is lost for each that raised |
| `CostEnforcement.Uninterrupted` | plugins/madup-infra-manager/control-plane/src/mim_control_plane/adapters/cost_enforcement.py:182-267 | without faults, from any store: exactly when the attempt returns, and exactly when its target is reached |
| `CostEnforcement.TargetKept` | plugins/madup-infra-manager/control-plane/src/mim_control_plane/adapters/cost_enforcement.py:182-359 | no attempt, however it ends, moves the target |
| `CostEnforcement.Adapter.AppendExactAudit` | plugins/madup-infra-manager/control-plane/src/mim_control_plane/adapters/cost_enforcement.py:361-404 | an event whose id exists is accepted only with the same material |
| `CostEnforcement.Adapter.PauseIfEligible` | plugins/madup-infra-manager/control-plane/src/mim_control_plane/adapters/cost_enforcement.py:269-359 | effect, save with version check, audit, in this order |
| `CostEnforcement.Adapter.PauseResources` | plugins/madup-infra-manager/control-plane/src/mim_control_plane/adapters/cost_enforcement.py:182-267 | the two loops over the resources listed at the start |
| `CostEnforcement.Adapter.EnforceUserPolicy` | plugins/madup-infra-manager/control-plane/src/mim_control_plane/adapters/cost_enforcement.py:74-145 | refuses invalid flags, texts and bases without any effect; records the policy under its action; pauses only at the pause level, and then, if it returns, has paused what it should |
| `CostEnforcement.Adapter.EnforceOrgPolicy` | plugins/madup-infra-manager/control-plane/src/mim_control_plane/adapters/cost_enforcement.py:147-180 | without an emergency stop nothing happens; with one, an invalid basis or key is refused without any effect; otherwise the stop is recorded and, if the attempt returns, everything that runs has been paused |
| `CostEnforcement.FlagsMean` | plugins/madup-infra-manager/control-plane/src/mim_control_plane/adapters/cost_enforcement.py:413-440 | three policies are valid: a warning from 70 percent, blocking from 90, pausing from 100 |
| `MixedPick.Bijection` | evals/stress/generator.py:111-120 | for all non-empty pools and a coprime step, every block of as many consecutive indices as there are combinations meets every combination of digits exactly once |
| `MixedPick.CoprimeNeeded` | evals/stress/generator.py:113-114 | with any step that is not coprime two indices in every block of that length meet, so the check is exact |
| `MixedPick.PicksDiffer` | evals/stress/generator.py:111-120 | with pools free of duplicates, indices less than a period apart get different picks |
| `MixedPick.CorpusDistinct` | evals/stress/generator.py:163-177 | for the five builders with their pools, steps and counts: no two cases have the same picks |
| `MixedPick.Pick` | evals/stress/generator.py:111-120 | the loops, with both errors: a step that is not coprime, and a division by zero for an empty pool |
| `MixedPick.ComputeGcd` | evals/stress/generator.py:113-114 | the greatest common divisor |
| `MixedPick.OrdinalsMeet` | evals/stress/generator.py:115-115 | two indices get the same ordinal exactly if they are a multiple of the period apart |
| `MixedPick.OrdinalReached` | evals/stress/generator.py:115-115 | every ordinal is reached in every block |
| `MixedPick.DigitsOfValue` | evals/stress/generator.py:116-119 | the digits of the ordinal of any digits are those digits |
| `MixedPick.ValueOfDigits` | evals/stress/generator.py:116-119 | the value of the digits of any ordinal is that ordinal |
| `SampleSelector.SampleExact` | evals/stress/sample_selector.py:25-49 | the sample has 96 cases, meets each quota, takes nothing twice, and keeps ids unique |
| `SampleSelector.SampleStratified` | evals/stress/sample_selector.py:25-49 | in the sample, each stratum of a submode has the first of its cases in key order, and as many as any other give or take one unless it is used up |
| `SampleSelector.Stratified` | evals/stress/sample_selector.py:39-46 | of what is taken from one pool: each stratum gives the first of its cases in key order, and as many as any other give or take one unless it is used up |
| `SampleSelector.Stops` | evals/stress/sample_selector.py:41-46 | the turns over the strata reach the quota exactly if the pool has that many cases |
| `SampleSelector.OrderIrrelevant` | evals/stress/sample_selector.py:25-49 | with unique ids the sample does not depend on the order of the input, and is in id order |
| `SampleSelector.TakenIsPrefix` | evals/stress/sample_selector.py:41-46 | after any number of turns each stratum has given the first cases of its bucket |
| `SampleSelector.SelectCases` | evals/stress/sample_selector.py:25-49 | the program: that selection if every submode has its quota, a division by zero if the first that has not has no cases, and a refusal of any other size |
| `SampleSelector.SelectQuotas` | evals/stress/sample_selector.py:33-46 | the loop over the submodes and their quotas |
| `SampleSelector.TakeTurns` | evals/stress/sample_selector.py:40-46 | the while loop, with its termination |
| `SampleSelector.TakeTurn` | evals/stress/sample_selector.py:42-46 | one turn: the first case that is left in its bucket, and no other bucket changes |
| `SampleSelector.GroupByStratum` | evals/stress/sample_selector.py:36-38 | the cases of each stratum, in the order of the pool |
| `SampleSelector.GroupBySubmode` | evals/stress/sample_selector.py:29-31 | the cases of each submode, in the order of the input |
| `EdgeProof.RoundTrip` | plugins/madup-infra-manager/edge/worker/src/index.js:755-790 | with key, suffix and body shared, the gateway accepts what the worker signs exactly while 0 <= now - timestamp <= 60 s, and proves exactly what was claimed |
| `EdgeProof.Binding` | plugins/madup-infra-manager/app-gateway-go/gateway/edgeproof.go:46-117 | a signature of the worker is good for one request only: what the gateway accepts with it came to the gateway within the minute, for its own host and under a known key, and has the signed method, host, target, body digest, time and identifiers |
| `EdgeProof.FieldsApart` | plugins/madup-infra-manager/app-gateway-go/gateway/edgeproof.go:166-170 | joining the nine fields by newlines is injective on fields without newlines |
| `EdgeProof.TargetLanguages` | plugins/madup-infra-manager/edge/worker/src/index.js:469-498 | the worker's language is the gateway's without a leading double slash and without an embedded scheme |
| `EdgeProof.TargetArrives` | plugins/madup-infra-manager/app-gateway-go/gateway/edgeproof.go:119-126 | the gateway puts the target together again as sent, exactly unless it ends in a lone question mark |
| `EdgeProof.TargetDelivered` | plugins/madup-infra-manager/app-gateway-go/gateway/edgeproof.go:119-143 | every target that the worker sends arrives at the gateway unchanged |
| `EdgeProof.EscapesExact` | plugins/madup-infra-manager/app-gateway-go/gateway/edgeproof.go:144-155 | a scan that steps over whole escapes accepts exactly the grammar of section 2.1 of RFC 3986 |
| `EdgeProof.ValidPercentEscapes` | plugins/madup-infra-manager/app-gateway-go/gateway/edgeproof.go:144-155 | the gateway's loop decides that grammar |
| `EdgeProof.IsAppGatewayRequestTarget` | plugins/madup-infra-manager/edge/worker/src/index.js:469-498 | the worker's loop decides its language |
| `EdgeProof.CanonicalRequestTarget` | plugins/madup-infra-manager/app-gateway-go/gateway/edgeproof.go:119-143 | the gateway answers with the target or with nothing |
| `EdgeProof.GatewayHostIff` | plugins/madup-infra-manager/app-gateway-go/gateway/edgeproof.go:184-190 | the gateway accepts a host exactly if it is one label, a dot and the suffix |
| `EdgeProof.SignedMeans` | plugins/madup-infra-manager/app-gateway-go/gateway/edgeproof.go:95-105 | the signed message has nine lines: version, destination class, method, host, target, body digest, time, request and key |
| `EdgeProof.HostsAgree` | plugins/madup-infra-manager/edge/worker/src/index.js:252-288 | the worker accepts a host exactly if the gateway does, it is not punycode, and its label is not reserved |
| `Text.ParsePrint` | plugins/madup-infra-manager/app-gateway-go/gateway/edgeproof.go:79-83 | printing a 64-bit integer in decimal and parsing it gives it back |
| `Text.SplitJoin` | plugins/madup-infra-manager/app-gateway-go/gateway/edgeproof.go:166-170 | splitting undoes joining |
| `SetCookie.SplitUndoesJoin` | plugins/madup-infra-manager/edge/worker/src/index.js:870-908 | for every list of trimmed cookies that start with token=x, splitting undoes joining by a comma and a space exactly if no cookie has a comma outside Expires that looks like its end and every cookie but the last has closed its Expires attribute |
| `SetCookie.UnclosedExpiresJoins` | plugins/madup-infra-manager/edge/worker/src/index.js:883-888 | an Expires attribute that its cookie does not close joins it with the next cookie |
| `SetCookie.Walk` | plugins/madup-infra-manager/edge/worker/src/index.js:877-897 | the scanner is inside Expires exactly where a name has opened and no semicolon has followed |
| `SetCookie.SplitCoalescedSetCookieHeader` | plugins/madup-infra-manager/edge/worker/src/index.js:870-908 | the index loop computes the pieces, and nothing for a blank header |
| `Robots.ParseInvertsPrint` | plugins/geo-page-audit/skills/geo-page-audit/scripts/geo_audit.py:99-118 | reading printed groups gives them back for every list whose groups have agents and rules, and exactly for the lists where only the first lacks agents and only the last lacks rules |
| `Robots.Conserved` | plugins/geo-page-audit/skills/geo-page-audit/scripts/geo_audit.py:99-118 | whatever the text, the groups hold its agents and rules, all of them and in order |
| `Robots.ReadsBack` | plugins/geo-page-audit/skills/geo-page-audit/scripts/geo_audit.py:99-118 | on the level of directives: reading printed groups gives them back exactly for normal lists; and reading any text gives a normal list |
| `Robots.ParseRobots` | plugins/geo-page-audit/skills/geo-page-audit/scripts/geo_audit.py:99-118 | the loop over the lines computes the groups |
| `Robots.MatchMeaning` | plugins/geo-page-audit/skills/geo-page-audit/scripts/geo_audit.py:121-130 | a pattern matches a path exactly if its stars can be filled so that it begins the path, or is all of it with a final dollar sign |
| `Robots.RobotsVerdict` | plugins/geo-page-audit/skills/geo-page-audit/scripts/geo_audit.py:133-159 | blocked exactly if the chosen group has a Disallow rule that is longer than every matching Allow rule; the rules that apply are those of the first group with the longest fitting name, or of the first with a star |
| `Robots.BlockedMeans` | plugins/geo-page-audit/skills/geo-page-audit/scripts/geo_audit.py:121-159 | the verdict without the matcher: blocked exactly if some Disallow rule, whose stars can be filled to fit the path, has more characters (wildcards aside) than every such Allow rule |
| `Robots.NamedIff` | plugins/geo-page-audit/skills/geo-page-audit/scripts/geo_audit.py:137-140 | a name fits a crawler exactly if it is not a star and one of the two, apart from case, is a part of the other |
| `Robots.LongestMeans` | plugins/geo-page-audit/skills/geo-page-audit/scripts/geo_audit.py:137-142 | the length of a group for a crawler is that of its longest fitting name, and below 0 if none fits |
| `Robots.OneChoice` | plugins/geo-page-audit/skills/geo-page-audit/scripts/geo_audit.py:135-150 | there is exactly one choice of rules |
| `Robots.FindNamed` | plugins/geo-page-audit/skills/geo-page-audit/scripts/geo_audit.py:135-143 | the first group with the longest fitting name |
| `Robots.OrderIrrelevant` | plugins/geo-page-audit/skills/geo-page-audit/scripts/geo_audit.py:153-159 | order and repetition of rules do not matter |
| `Robots.Monotone` | plugins/geo-page-audit/skills/geo-page-audit/scripts/geo_audit.py:153-159 | an added Allow rule never blocks and an added Disallow rule never frees |
| `Robots.TiesAllow` | plugins/geo-page-audit/skills/geo-page-audit/scripts/geo_audit.py:157-158 | an Allow rule that matches and is at least as long as every matching Disallow rule frees the path |
| `LiveRun.Accounts` | evals/stress/live_runner.py:417-500 | for every plan and all outcomes: in each arm runs = oracle passed + oracle failed + not executed, the pair outcomes sum to the case count, and the totals are those of the arms |
| `LiveRun.SummaryMeans` | evals/stress/live_runner.py:226-500 | every number of the summary counts what it says, in terms of the runs themselves: return code, parsing, timeout, plugin evidence and oracle |
| `LiveRun.ReleasePassedMeans` | evals/stress/live_runner.py:423-512 | the release passes exactly if in every case both runs are valid and the one with the plugin passes; then no pair is invalid, failed by both, or lost |
| `LiveRun.RegradeAgreesExactly` | evals/stress/regrade_live_run.py:105-233 | for any plan and oracle: regrading the recorded files gives the same summary for all runs exactly if no case comes twice and the oracle does not look at line endings, although the arms run in alternating order |
| `LiveRun.RegradeAgrees` | evals/stress/regrade_live_run.py:105-233 | with no case twice and an oracle that does not look at line endings, every run is regraded to the same summary |
| `LiveRun.RegradeCountsLast` | evals/stress/regrade_live_run.py:105-233 | for any plan, regrading counts for every case its last run |
| `LiveRun.RepeatedCaseDiffers` | evals/stress/regrade_live_run.py:105-233 | for any plan with a case that comes twice, and any oracle, some run is regraded to another summary |
| `LiveRun.LineEndingsDiffer` | evals/stress/regrade_live_run.py:105-233 | for any plan without repeated cases, and any oracle that sees the line endings of one of them, some run is regraded to another summary |
| `LiveRun.ExecutePlan` | evals/stress/live_runner.py:310-517 | the loop over cases and arms computes that summary and those files; a timeout that is not positive, an empty plan, and an output path that is a file or in use are refused, in this order |
| `LiveRun.RegradeRun` | evals/stress/regrade_live_run.py:57-233 | the regrading loop computes the summary of the recorded files; which refusal comes first: no summary, no cases, the first case that the corpus lacks, missing files, an output path that is a file or in use |
| `LiveRun.CountRun` | evals/stress/live_runner.py:417-450 | the counters of one run |
| `LiveRun.InvocationResult` | evals/stress/live_runner.py:226-251 | fails exactly if an executed run shows the wrong plugin evidence for its arm |
| `GuardText.ParseInvertsPrint` | plugins/madup-infra-manager/infra/release/public_release_guard.py:481-505 | parsing inverts printing for all lists of changes with non-empty NUL-free paths, and any scores |
| `GuardText.OnlyPrintedAccepted` | plugins/madup-infra-manager/infra/release/public_release_guard.py:481-505 | any output that is accepted has the tokens of the printed form of what it is parsed to; empty tokens are dropped |
| `GuardText.PrintedExactly` | plugins/madup-infra-manager/infra/release/public_release_guard.py:481-505 | an accepted output is itself a printed form exactly if it ends in NUL and has no empty token |
| `GuardText.ParseNameStatus` | plugins/madup-infra-manager/infra/release/public_release_guard.py:481-505 | the index loop computes the parse |
| `GuardText.DisplayReadsBack` | plugins/madup-infra-manager/infra/release/public_release_guard.py:213-229 | a shown path can be read back, on all strings, and has no characters but safe ones and backslashes |
| `GuardText.DisplayPath` | plugins/madup-infra-manager/infra/release/public_release_guard.py:213-221 | the loop computes the shown path |
| `GuardText.BoundedRead` | plugins/madup-infra-manager/infra/release/public_release_guard.py:308-318 | however reads are cut up: the whole stream exactly if it is within the bound, and never more than one byte beyond it is taken |
| `GuardText.Descriptor.Read` | plugins/madup-infra-manager/infra/release/public_release_guard.py:312-312 | a read is never asked for zero bytes |

## Left out

- Digests: document ids, audit ids, tick tokens and lease token hashes are modelled by what is digested, which takes the digests to be injective.
- Signatures: the keyed hash and the body digest are any functions with 64 hexadecimal digits as results; EdgeProof.Binding asks in addition that the two messages at hand do not collide.
- git, Firestore and the cloud API: git is a graph with an exact tree diff, a list of outbound commits and any patch text; a store is a map with atomic transactions; a job is a list of executions.
- ReleaseGuard: rename and copy detection only decides which patch text is scanned; the scan of the working tree and the index, the denylist file and the parsing of range expressions are not modelled.
- ReleaseGuard: the length of object ids is given, and lines come split into words.
- Secret patterns: a scan is any function from content to a list of matches.
- DispatchLedger: the checks of the job's image, service account and environment before a launch are one outcome of the launch; a listing returns all executions.
- IamReconciler: blockers and actions are sets, so their order and repetition are not kept, nor the wording of messages.
- IamEvaluation: whether the forbidden member reads the billing dataset is given; loading the policies, and policies of resources outside the contract, are not modelled.
- IamContract: which service agents of other projects are allowed is any function of their address.
- SlackInstalls: the fields of an install that decide nothing, and identity links, are not modelled.
- DirectoryLease.MutualExclusion: asks for clocks in commit order; DirectoryLease.ClockOrderNeeded shows that any two claims out of order can break it.
- SnapshotLedger: the rules of the directory domain (`validate_directory_snapshot_write`) are a limit, any relation on users and any audit function.
- CostEnforcement: one writer at a time. The version check is modelled, but nobody else changes resources between two calls. Times of events are not compared by the source and not modelled.
- CostEnforcement: identifiers are numbered in the order of their texts.
- MixedPick: the texts of the cases around the picks are not modelled.
- SampleSelector.SelectCases: asks that the first submode with fewer cases than its quota, if there is one, has none, because with some the source loops for ever (SampleSelector.Stops).
- SampleSelector.TakeTurns: asks for a pool of at least the quota, for the same reason.
- SampleSelector: identifiers and strata are numbered in the order of their texts; the digest order is any function of the id.
- EdgeProof: header transport, the worker's routes to the control plane, its body limit and access tokens are not modelled; a request line is taken apart at the first question mark, and escaped paths arrive as sent.
- EdgeProof.Binding: takes the request's method to have no line break, which HTTP does not allow.
- SetCookie: the check of each cookie after splitting is not modelled. White space is any set of characters that has the space and no visible ASCII character.
- Robots: lines are given; only ASCII letters are lowered, which is exact for field names; paths have no line breaks. Names that are empty fit every crawler, as in the source.
- Robots: against section 2.2 of RFC 9309, names fit if either contains the other, only one group applies, and wildcards do not count for the length of a rule.
- LiveRun: cases are identifiers, so entries of a plan that are not cases at all are not modelled; how reading a file back changes its line endings is any function on texts; commands, times and the parsing of output are the given outcome of a run; the corpus and the oracle do not change between run and regrading.
- GuardText: text is decoded; the errors for invalid UTF-8 are not modelled. Characters are Unicode code points without surrogates.
- Reverse proxy, dashboards, MCP routes, billing, builds, deployments, the style checker and Korean text metrics: input and output, or checks without an inductive property.
