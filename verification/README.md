# Verification of the evidence, retention and release protocols

This project models the parts of the Masterplan Optimiser service whose correctness is a matter of
protocol: what survives a crash, a lost reply or an unlucky order of events. It proves, for every
input and every run, what those parts guarantee, and states exactly where a guarantee ends.
`dafny verify dfyconfig.toml` checks everything.

## The parts

- **Evidence ledger** (`EvidenceManifest`, `Evidence`, `EvidenceProofs`, `EvidenceRuns`,
  `EvidenceTheorems`, `EvidenceService`): a hash-chained file ledger coupled to database transactions.
  A file is written before its row commits, so a rollback leaves an orphan; reconciliation must
  quarantine exactly the orphans and write exactly the missing records.
- **Bundles and archive** (`EvidenceBundle`, `BundleCreation`, `BundleTheorems`,
  `ArchiveRepository`, `ArchiveIngestion`): what a bundle id and a chain head bind, and why a check of
  neighbouring bundles orders all of them by strict prefix.
- **Uploader** (`Uploader`, `UploaderRuns`, `UploaderSafety`, `BranchStability`, `GitHubClient`,
  `HonestProvider`, `LostMerge`, `UploaderService`): a retrying state machine against a provider that
  may lose any message. Safety and termination hold for arbitrary answers; at-most-once effects hold for
  an honest provider that nobody else edits.
- **Snapshot resolution** (`Snapshots`, `SnapshotConvergence`, `SnapshotConditions`, `SnapshotSafety`,
  `SnapshotService`, `PeerSnapshots`): journalled removal with tombstones, stopped before any write and
  run again.
- **Release rollback and frontend activation** (`ReleaseRollback`, `FrontendActivation`).
- **Protection queue** (`OperationBatch`, `ReplicationQueue`) and **join codes** (`Base64Url`,
  `Pairing`).
- **Deletion cases** (`DeletionCases`, `DeletionProofs`, `DeletionDelivery`, `DeletionWitnesses`,
  `DeletionService`): the completion gate over every order of its steps.
- **Shared helpers**: `Wrappers`, `Sorting`, `Counting`.

Where the code assigns fields, moves files or loops, a class with the same fields has methods that do
the same, each proved equal to a specification function; the theorems are about those functions and
about runs of them.

## Idealisations

- A digest is the content it was taken of, or a function parameter assumed injective; signatures are a
  key attached to a file or a parse that fails. Deterministic UUIDs are injective in their name.
- One append to the ledger and one run of the quarantine loop are atomic, there are no savepoints, and
  the advisory lock serialises transactions.
- Clocks, randomness, the network, the replication script and the check results are inputs.
- Directory listings are sets or lists of names; a directory that is copied or renamed is one value.
- The key identifier and the digest of a public key stand as the key itself in the genesis record.
- The honest provider gives every new commit and merge an identifier that was not in use before.
- The steps of a deletion case are one transaction each, and `ConfirmNoBackups` and `ResolveActions`
  read the inventory of that transaction.

## What the code does not guarantee

Each point is a lemma with a concrete input or an exact condition.

- The database session does not flush by itself (`backend/app/db/database.py:9`), so a reconciliation
  that had to write a missing record reports a mismatch once and succeeds the next time
  (`UnwrittenRowIsReported`, `ReconciliationConverges`).
- A failed first initialisation has to be rolled back. Committed and followed by a lost transaction it
  wedges the ledger for good (`CommittedInterruptionWedges`, `WedgedForever`).
- A payload that uses a reserved metadata field never matches its record again (`MetadataRoundTrip`),
  and keys with colons in their first two parts can share a record id (`ColonsCollide`).
- Recovery is refused once another instance id was committed (`RecoveryIsRestartSafe`).
- After a lost merge reply a submission is never verified, whatever happens later
  (`LostMergeNeverVerifies`), and such a run exists (`LostMergeHappens`). A pull request numbered zero
  would let a retry forget its branch (`BranchIsNeverRewoundIff`).
- Snapshot resolution converges if and only if no two snapshots with the same receipt are stale for two
  different jobs (`ConvergesIff`). Otherwise it can fail for ever (`TwinsStop`, `SharedReceiptWedges`
  show one such run). A peer receipt is replayed only while the number of retained snapshots is the same
  (`PeerReplay`).
- The ingestion check accepts a bundle as the first revision of an empty archive, and from then on the
  static files can never be added (`DeclaredIffBootstrapped`).
- A second failing rename during compensation leaves a rollback half done
  (`AllOrNothingIffUndisturbed`).
- The merged policy keeps the active generation out when the staged script directive lists another
  kind of source (`ForeignSourceShutsOut`), and an activation stopped between its two backup copies
  rolls back to a stale policy (`StalePolicyRestored`).
- A protection request that a scan cannot read is picked as an ordinary file and removed by a success
  (`UnreadableRequestIsLost`), and a replication whose output is malformed is accepted with an empty
  or malformed digest in the rows it carried (`FullDigestsIff`).
- A call without processors switches the Desktop requirement of the whole case off, and the subjects of
  one event share the requirement of a processor; `DeliveredIff` says exactly when a closed case may
  hide an undelivered order. The application calls with one event and one subject a case
  (`backend/app/api/v1/gdpr.py:543`, 624, 674 and 699) and never removes a processor identity, so there
  every order is delivered (`OneScopeDelivers`).

## Model

Members named with a class are methods that change state; the others are lemmas, or methods that only
read. Helpers have no row.

| member | source | states |
|---|---|---|
| EvidenceManifest.Ledger.VerifyChain | deploy/evidence/evidence_manifest.py:805-836 | succeeds exactly on the chains: contiguous numbers, each record naming its predecessor, one instance and chain, every signature under the key; reports count, identity and head |
| EvidenceManifest.Ledger.Append | deploy/evidence/evidence_manifest.py:702-802 | adds one linked, signed record, or answers with the file already under the id when the evidence is the same; refuses the id for other evidence; changes nothing else |
| EvidenceManifest.AppendKeepsChain | deploy/evidence/evidence_manifest.py:755-797 | appending under an unused id is accepted and a chain stays a chain |
| EvidenceManifest.ChainPrefix | deploy/evidence/evidence_manifest.py:805-836 | every non-empty prefix of a chain is a chain |
| EvidenceManifest.SharedRecordSharesPast | deploy/evidence/evidence_manifest.py:811-829 | two chains that agree on one record agree on everything before it |
| EvidenceManifest.HeadOccursIffPrefix | deploy/evidence/evidence_manifest.py:805-836 | the head of one chain occurs among the digests of another if and only if the first is a prefix of the second |
| EvidenceManifest.EqualHeadsEqualChains | deploy/evidence/evidence_manifest.py:805-836 | equal heads mean equal chains |
| EvidenceService.Service.CommitTransaction | backend/app/core/evidence.py:585-641 | commits the open rows, flushing what the session had not sent |
| EvidenceService.Service.RollbackTransaction | backend/app/core/evidence.py:341-352 | returns to the committed rows and leaves the files alone |
| EvidenceService.Service.AppendOperationFile | backend/app/core/evidence.py:298-338 | one file append for one row, with the tool failing before or after the write, equal to the specification function |
| EvidenceService.Service.ClassifyLedger | backend/app/core/evidence.py:353-372 | the loop that sorts files into retained and orphaned, with its three refusals |
| EvidenceService.Service.AppendMissingFiles | backend/app/core/evidence.py:373-400 | appends the record of every row without one, in row order, up to the first tool failure |
| EvidenceService.Service.VerifyLocal | backend/app/core/evidence.py:644-703 | compares the ledger with the rows as the database stores them, and caches the head |
| EvidenceService.Service.ReconcileLocalChain | backend/app/core/evidence.py:341-436 | the whole reconciliation as the composition of classifying, quarantining, appending and verifying |
| EvidenceService.Service.RecordWorkflowOperation | backend/app/core/evidence.py:602-641 | finds the row of a key, refuses a different replay, or inserts the row and appends its record |
| EvidenceService.Service.RecoverUncommittedInitialisation | backend/app/core/evidence.py:439-522 | rebuilds chain and genesis rows from the first record and reconciles |
| EvidenceService.Service.InitialiseEvidence | backend/app/core/evidence.py:525-578 | reconciles, recovers, or starts a new chain with its genesis record |
| EvidenceService.Service.AppendWorkflowRecord | backend/app/core/evidence.py:585-641 | reconciles first, then records the workflow step |
| EvidenceProofs.MetadataRoundTrip | backend/app/core/evidence.py:233-253 | a written record matches its row again if and only if the payload avoids the reserved metadata fields |
| EvidenceProofs.MapsAgreeIffStored | backend/app/core/evidence.py:682-703 | ledger and complete rows give the same id-to-digest map exactly when every mirrored row is stored as complete |
| EvidenceProofs.ReconcileRepairs | backend/app/core/evidence.py:256-436 | on aligned files: owned files stay, exactly the unowned tail is quarantined, missing records are written once; success if and only if no row was without a file |
| EvidenceProofs.ReconcileIdempotent | backend/app/core/evidence.py:341-436 | on a settled store reconciliation changes nothing and succeeds |
| EvidenceRuns.RecordWhenCaughtUp | backend/app/core/evidence.py:602-641 | equal replay returns the first digest, a different one is refused, a new key gets exactly one row and one record |
| EvidenceRuns.FreshInitialisation | backend/app/core/evidence.py:525-578 | a first initialisation writes the genesis record or leaves the ledger empty |
| EvidenceRuns.RecoveryIsRestartSafe | backend/app/core/evidence.py:439-578 | an initialisation whose transaction was lost is recovered, with the same chain and instance and only the genesis record kept, if and only if no other instance id was committed meanwhile |
| EvidenceRuns.StepKeepsInv | backend/app/core/evidence.py:341-641 | begin, append, reconcile, commit, rollback and restart each keep files and rows aligned |
| EvidenceRuns.RunKeepsInv | backend/app/core/evidence.py:341-641 | so does every run of them |
| EvidenceTheorems.ReconciliationNeverStuck | backend/app/core/evidence.py:341-436 | after every run the ledger is a chain whose unowned files are a tail; reconciliation never meets a committed record behind an orphan, keeps every owned file, and succeeds if and only if every row has a file |
| EvidenceTheorems.ReconciliationConverges | backend/app/core/evidence.py:341-436 | without tool faults the second reconciliation succeeds with ledger equal to complete rows and the head cached, and a third changes nothing |
| EvidenceTheorems.CommittedEvidenceIsPermanent | backend/app/core/evidence.py:256-295 | over any run a committed complete row keeps its digest and its record keeps its place |
| EvidenceTheorems.OneRecordPerKey | backend/app/core/evidence.py:581-641 | over any run no two ledger records belong to one workflow key |
| EvidenceTheorems.ReplayIsExactlyOnce | backend/app/core/evidence.py:602-625 | replaying a committed step returns its one digest or is refused, and writes no record for it |
| EvidenceTheorems.RolledBackStepCanBeRedone | backend/app/core/evidence.py:585-641 | a rolled-back step can be redone under the same record id: at once if every committed row has its record, otherwise at the second attempt |
| EvidenceTheorems.RecordIdsTellKeysApart | backend/app/core/evidence.py:581-582 | record ids tell keys apart if and only if the keys differ, as long as their first two parts hold no colon |
| EvidenceTheorems.ColonsCollide | backend/app/core/evidence.py:581-582 | with a colon in the workflow type two keys share a record id |
| EvidenceTheorems.WedgedForever | backend/app/core/evidence.py:353-372 | a chain none of whose records has a row is refused by every operation, which then changes nothing |
| EvidenceTheorems.CommittedInterruptionWedges | backend/app/core/evidence.py:525-578 | committing a failed first initialisation and losing the next transaction leads there |
| EvidenceTheorems.UnwrittenRowIsReported | backend/app/core/evidence.py:373-436 | a committed row whose record was not written makes the next reconciliation write that record with the request of the row and still report a mismatch; the one after it succeeds and writes nothing |
| EvidenceBundle.SplitJoin | deploy/evidence/evidence_bundle.py:95-102 | joining texts that avoid the separator can be undone |
| EvidenceBundle.PlaceOfJoin | deploy/evidence/evidence_bundle.py:57-78 | a listed place is recovered from its path text, and is accepted exactly under an included root |
| EvidenceBundle.VerifyArchiveTrust | deploy/evidence/evidence_bundle.py:233-327 | succeeds exactly when the statements present are the statements the ledger binds, each with its own digest, instance and key; answers with the last binding |
| EvidenceBundle.VerifyProcessorArtifacts | deploy/evidence/evidence_bundle.py:330-407 | succeeds exactly when the artifacts present are the artifacts referenced, once each, with matching digest and content |
| EvidenceBundle.ExtractMembers | deploy/evidence/evidence_bundle.py:445-474 | succeeds exactly when rows and members correspond one to one with size and digest; the extracted directory follows row order |
| EvidenceBundle.VerifyBundle | deploy/evidence/evidence_bundle.py:410-518 | accepts exactly the bundles whose rows, chain, controller trust, manifest, artifacts, identity and owner all hold, and reports what the chain says |
| BundleCreation.PackedExtracts | deploy/evidence/evidence_bundle.py:84-127 | packing a clean directory and extracting it gives the same directory |
| BundleCreation.PackedVerifies | deploy/evidence/evidence_bundle.py:81-141 | a packed directory verifies if and only if its evidence does, and then verification recovers it |
| BundleCreation.CreateBundle | deploy/evidence/evidence_bundle.py:81-141 | succeeds exactly when the included evidence verifies; rows ascend by path; verifying the result recovers exactly the included files; the time is that of the latest record |
| BundleTheorems.BundleIdBinds | deploy/evidence/evidence_bundle.py:95-103 | two accepted bundles share an id if and only if they agree on everything but their time of creation |
| BundleTheorems.TimeIsFree | deploy/evidence/evidence_bundle.py:94-107 | the time of creation is not bound: an accepted bundle stays accepted under any other |
| BundleTheorems.HeadOccursMeansCarried | deploy/evidence/evidence_bundle.py:410-518 | if the head of one accepted bundle occurs in another, that one carries its records, instance key, controller statements and artifacts unchanged |
| BundleTheorems.HeadFixesEvidence | deploy/evidence/evidence_bundle.py:475-518 | equal chain heads fix the controller, the keys, the trust statement, the records and the artifacts |
| ArchiveRepository.CheckLineage | deploy/evidence/evidence_archive_repository.py:94-106 | the count check and the neighbour check over the sorted bundles of one instance |
| ArchiveRepository.VerifyRepository | deploy/evidence/evidence_archive_repository.py:55-112 | accepts exactly when all static files are there and nothing undeclared is, every entry verifies under its own path and receipt, there is one controller, and each instance passes the neighbour check |
| ArchiveRepository.NeighboursSuffice | deploy/evidence/evidence_archive_repository.py:94-106 | checking neighbours in count order is the same as comparing every pair |
| ArchiveRepository.AcceptedIffOrderedByPrefix | deploy/evidence/evidence_archive_repository.py:55-112 | accepted if and only if the files are the declared ones, all entries are valid, there is one controller, and any two bundles of an instance are strict prefixes one of the other |
| ArchiveRepository.LongerBundleCarriesShorter | deploy/evidence/evidence_archive_repository.py:94-106 | in an accepted archive the longer bundle carries all evidence of the shorter |
| ArchiveIngestion.BootstrapMeansTemplate | deploy/evidence/evidence_archive_repository.py:143-147 | the bootstrap is accepted if and only if the base is empty and the result is the exact template |
| ArchiveIngestion.IngestionMeansOneBundle | deploy/evidence/evidence_archive_repository.py:148-156 | an ingestion is accepted if and only if it adds the two files of one new bundle directory and changes nothing else |
| ArchiveIngestion.ArchiveOnlyGrows | deploy/evidence/evidence_archive_repository.py:128-156 | over any history of accepted revisions no file is removed or rewritten |
| ArchiveIngestion.DeclaredIffBootstrapped | deploy/evidence/evidence_archive_repository.py:55-156 | every later revision of an archive that began empty passes the check of its file names if and only if its first accepted revision was the template |
| Uploader.RetryDelayBounds | deploy/evidence/evidence_git_uploader.py:52-56 | every delay lies between 15 seconds and a day and honours the provider up to a day |
| Uploader.RetryDelayMonotone | deploy/evidence/evidence_git_uploader.py:52-56 | a later attempt never waits for less |
| Uploader.ErrorOutcomes | deploy/evidence/evidence_git_uploader.py:67-94 | a refused or unreadable answer ends the submission or counts one more attempt and resumes at a state that keeps its remote identity |
| Uploader.StepKeepsRowOk | deploy/evidence/evidence_git_uploader.py:118-267 | every step keeps what the later states rely on, such as the start of the checks and a valid head |
| UploaderService.Submission.Reschedule | deploy/evidence/evidence_git_uploader.py:67-94 | the retry bookkeeping, field by field |
| UploaderService.Submission.AdvanceSubmission | deploy/evidence/evidence_git_uploader.py:118-267 | one durable step, field by field, equal to the step function |
| UploaderService.Submission.Upload | deploy/evidence/evidence_git_uploader.py:167-200 | the uploading step in its order: default head, branch, digest, commit, pull request |
| UploaderRuns.StepMakesSmaller | deploy/evidence/evidence_git_uploader.py:118-267 | every due step of an unfinished submission makes the measure of attempts left, stage and remaining check time smaller, whatever is answered |
| UploaderRuns.RunsAreBounded | deploy/evidence/evidence_git_uploader.py:118-267 | a run never works for more steps than its first row allows |
| UploaderRuns.FreshRunsAreBounded | deploy/evidence/evidence_git_uploader.py:34-43 | a bound for new submissions from the retry limit and the check timeout alone |
| UploaderSafety.VerifiedMeansMatchedPassedMerged | deploy/evidence/evidence_git_uploader.py:118-249 | verified only after, in order, the bundle matched, the checks passed for exactly the stored head, and the merge of that head was acknowledged |
| UploaderSafety.MergeOnlyAfterChecks | deploy/evidence/evidence_git_uploader.py:202-236 | no merge is ever requested for a head whose checks were not seen to pass |
| UploaderSafety.TerminalIsFinal | deploy/evidence/evidence_git_uploader.py:20-20 | with archival enabled a finished submission never changes again |
| BranchStability.BranchIsNeverRewoundIff | deploy/evidence/evidence_git_uploader.py:67-94 | no continuation at all changes a stored branch, its base, head or pull request if and only if it may not start over, that is, unless archival is enabled, an attempt is left, nothing is merged, and the pull request is numbered zero or still to be opened |
| BranchStability.StoredBranchStays | deploy/evidence/evidence_git_uploader.py:167-240 | over every run of a new submission, when the provider numbers pull requests from one, branch, base, head and pull request keep the values they were first stored with |
| GitHubClient.PassedMeansAllRequiredSucceeded | deploy/evidence/github_token_client.py:334-353 | passed if and only if every run is for the head, none failed, the latest run of each required check succeeded, and the combined status does not object |
| UploaderService.TokenClient.CreateCommit | deploy/evidence/github_token_client.py:194-232 | recovers the branch of an earlier attempt or creates objects and then the branch; the branch appears even if the reply is lost |
| UploaderService.TokenClient.OpenPull | deploy/evidence/github_token_client.py:284-328 | finds the open pull request or opens one, and looks again after a race |
| UploaderService.TokenClient.MergePull | deploy/evidence/github_token_client.py:355-364 | merges at the exact head; a merged request cannot be merged again |
| UploaderService.TokenClient.RemoveBranch | deploy/evidence/github_token_client.py:366-368 | deletes the branch even if the reply is lost |
| UploaderService.TokenClient.ListOpenPulls | deploy/evidence/github_token_client.py:310-328 | the open pull requests of one branch |
| HonestProvider.CommitEffect | deploy/evidence/github_token_client.py:194-282 | at every stage, creating the commit leads to the one branch on the stored base or fails in passing |
| HonestProvider.OpenEffect | deploy/evidence/github_token_client.py:284-328 | at every stage, opening leads to the one pull request or fails in passing |
| HonestProvider.MergeEffect | deploy/evidence/github_token_client.py:355-364 | a merge happens once; a second request is refused for good |
| HonestProvider.StepHonest | deploy/evidence/evidence_git_uploader.py:118-267 | each step against an honest provider keeps row and remote state in step, whatever messages are lost |
| HonestProvider.EffectsAtMostOnce | deploy/evidence/evidence_git_uploader.py:67-94 | over any run at most one branch, one pull request, one commit and one merge; older commits keep their content, and the other branches, older pull requests and the repository identity stay as they were |
| HonestProvider.VerifiedMeansMergedOnce | deploy/evidence/evidence_git_uploader.py:221-249 | a verified submission did each effect exactly once, the branch is gone and the default branch is at the stored merge |
| HonestProvider.OnlyLocalReasonsBlock | deploy/evidence/evidence_git_uploader.py:97-115 | lost messages alone never block a submission |
| HonestProvider.LostMergeNeverVerifies | deploy/evidence/evidence_git_uploader.py:221-240 | once a run merged without storing the acknowledgement, the world never changes again and every later state awaits the merge or is a failure, never verified |
| LostMerge.LostMergeHappens | deploy/evidence/evidence_git_uploader.py:202-240 | such a run exists for every new submission that an honest provider can carry to its merge: five steps, the reply to the last one lost |
| SnapshotService.Store.PrepareJournal | deploy/management/compliance_receipts.py:220-278 | writes the journal of the superseded snapshots or accepts the matching one of an earlier run |
| SnapshotService.Store.ResolveCandidate | deploy/management/compliance_receipts.py:286-321 | rename, then removal, for one candidate, with each refusal; stopped after any number of writes it leaves that prefix of its plan |
| SnapshotService.Store.ResolveSnapshots | deploy/management/compliance_receipts.py:281-331 | all candidates, the final inventory and the journal update, as a prefix of the plan when stopped |
| SnapshotService.Store.Emit | deploy/management/compliance_receipts.py:572-620 | all journals first, then all resolutions, as a prefix of the plan when stopped |
| SnapshotService.Store.RemoveTombstone | deploy/management/compliance_receipts.py:318-321 | removes the files one by one and then the directory |
| SnapshotConvergence.OpKeepsInv | deploy/management/compliance_receipts.py:220-331 | each durable write keeps: what is gone is listed, tombstones belong to unresolved journals, journals stay sound |
| SnapshotConvergence.RunPlan | deploy/management/compliance_receipts.py:572-620 | under the invariant a run of any eligible jobs ends without error and resolves them |
| SnapshotSafety.CleanSnapshotsUntouched | deploy/management/compliance_receipts.py:281-331 | however runs are interrupted or fail, whatever the receipts and the number of snapshots, one taken at or after every purge is still there, and what is visible is unchanged |
| SnapshotSafety.RunSafe | deploy/management/compliance_receipts.py:572-620 | every write that any run plans on a safe disk renames only a snapshot from before a purge |
| SnapshotConvergence.InterruptedRunsConverge | deploy/management/compliance_receipts.py:572-620 | after any interrupted runs of several jobs in any order, one full run leaves exactly the snapshots from at or after all purges, the selected one among them, no tombstone and every journal resolved; for inventories within the limits in which no two snapshots under one receipt are stale for two jobs |
| SnapshotConvergence.TwinsStop | deploy/management/compliance_receipts.py:311-317 | with two snapshots under one receipt a run of one job can stop with one of them as a tombstone |
| SnapshotConvergence.SharedReceiptWedges | deploy/management/compliance_receipts.py:311-317 | from there a job that sorts first makes every later run fail |
| SnapshotConditions.ConvergesIff | deploy/management/compliance_receipts.py:281-331 | every full run after interrupted runs, over sorted names and requests, ends well if and only if no two snapshots under one receipt are stale for two jobs |
| SnapshotConditions.FirstRunSucceedsIff | deploy/management/compliance_receipts.py:220-243 | a first run of all jobs succeeds, whatever the receipts, if and only if at most 256 snapshots are listed and at most 128 are superseded for each job |
| PeerSnapshots.Peer.Receive | deploy/management/peer_snapshot_resolution.py:288-376 | one request to the peer: resolution as a prefix of its plan when stopped, then the receipt is signed or compared |
| PeerSnapshots.PeerReplay | deploy/management/peer_snapshot_resolution.py:310-366 | after a completed request, and only clean snapshots coming or going since, the repeated one writes nothing and is answered with the same receipt if and only if as many snapshots are retained as then |
| ReleaseRollback.Installer.SwapWithPrevious | deploy/release/install_release.py:196-215 | three renames with their compensation, when any attempt may fail |
| ReleaseRollback.Installer.RollbackRelease | deploy/release/install_release.py:218-243 | all pairs in order, or the completed ones back in reverse order |
| ReleaseRollback.SwapCompensated | deploy/release/install_release.py:196-215 | a failing swap restores both paths unless a rename fails again while it compensates |
| ReleaseRollback.AllOrNothingIffUndisturbed | deploy/release/install_release.py:218-243 | every pair exchanged or every pair as before, with no temporary left, if and only if the predecessor is incomplete and nothing moves or no second rename fails while the first failure is compensated; success if and only if the predecessor is complete and none fails |
| ReleaseRollback.OneFaultIsUndisturbed | deploy/release/install_release.py:218-243 | one failing rename is never a disturbance |
| ReleaseRollback.RollbackTwice | deploy/release/install_release.py:218-243 | two successful rollbacks give the installed release back |
| ReleaseRollback.ReleasePairsSeparate | deploy/release/install_release.py:221-229 | the paths of the release pairs are all different |
| ReleaseRollback.StagedRollbackKeepsFrontend | deploy/release/install_release.py:246-278 | whatever fails while a stage is undone, the served frontend and its policy are not touched |
| FrontendActivation.MergedAllowsBothGenerations | deploy/release/activate_frontend.py:48-62 | the merged policy allows the inline scripts of both generations if and only if the first script directive of the staged policy ends in its keyword and hashes, or already lists all of them |
| FrontendActivation.ForeignSourceShutsOut | deploy/release/activate_frontend.py:54-59 | with another source in that directive the active generation is shut out |
| FrontendActivation.OrderedFiles | deploy/release/activate_frontend.py:74-87 | every staged file once: assets, documents, the root document, the root worker |
| FrontendActivation.EveryPrefixIsServable | deploy/release/activate_frontend.py:108-113 | after any number of copies no served path is gone; once a document is copied all assets but the worker are in place, once the root document all documents, once the worker everything |
| FrontendActivation.Frontend.LoadMergedPolicy | deploy/release/activate_frontend.py:48-71 | replaces the active policy by the merged one, or leaves it |
| FrontendActivation.Frontend.Activate | deploy/release/activate_frontend.py:90-113 | backup, policy, files, stopped after any step |
| FrontendActivation.Frontend.Rollback | deploy/release/activate_frontend.py:116-130 | replaces the active tree by the previous one and restores the policy |
| FrontendActivation.RollbackRestoresIff | deploy/release/activate_frontend.py:90-130 | a rollback after an interrupted activation restores files and policy if and only if both backup copies were made, or the older backup happened to hold what was missing |
| FrontendActivation.StalePolicyRestored | deploy/release/activate_frontend.py:103-106 | stopped between the two copies, a rollback restores the policy of an older generation |
| OperationBatch.NormaliseOperations | deploy/ha/replication_bundle.py:70-91 | the loop over seen ids and sequences, equal to the specification |
| OperationBatch.NormalisedIsCanonical | deploy/ha/replication_bundle.py:70-91 | a normalised batch is strictly ascending, has exactly the given entries, is a fixed point and does not depend on their order |
| OperationBatch.AbsentIsNotFixed | deploy/ha/replication_bundle.py:70-74 | an absent list becomes the empty list, which is refused when given back |
| ReplicationQueue.Queue.QueueOperation | backend/app/core/ha_replication.py:188-217 | puts the request file of an operation in place |
| ReplicationQueue.Queue.FinishRun | deploy/ha/replication_scheduler.py:342-433 | receipts, rows and queue files after a success or a failure, with files that cannot be removed or moved |
| ReplicationQueue.Queue.AcceptRows | deploy/ha/replication_scheduler.py:105-132 | accepts the open rows of a batch whose sequence matches |
| ReplicationQueue.Queue.WriteReceipts | deploy/ha/replication_scheduler.py:57-78 | writes the public receipt of every operation of a batch |
| ReplicationQueue.Queue.SyncOperation | backend/app/core/ha_replication.py:239-334 | applies a receipt to a row that is not final, or ignores it |
| ReplicationQueue.SuccessConservesIff | deploy/ha/replication_scheduler.py:418-428 | a successful run keeps a queued operation waiting or replicated if and only if it does not remove its request as an ordinary file |
| ReplicationQueue.QueueConserves | deploy/ha/replication_scheduler.py:233-433 | over any interleaving of enqueues and runs every queued operation still waits or was carried by a successful run, unless a scan failed to read a request that the run then picked |
| ReplicationQueue.UnreadableRequestIsLost | deploy/ha/replication_scheduler.py:233-250 | in that case a success removes the request of an operation it did not carry |
| ReplicationQueue.AcceptedMeansReplicated | backend/app/core/ha_replication.py:239-334 | every accepted row names a successful replication that carried it, with the same facts |
| ReplicationQueue.AcceptanceIsFinal | backend/app/core/ha_replication.py:239-243 | an accepted row never changes again |
| ReplicationQueue.FullDigestsIff | deploy/ha/replication_scheduler.py:105-132 | every run leaves accepted rows with full digests only if and only if every successful output carries one: the scheduler stores what a malformed output left it |
| Base64Url.DecodeText | deploy/ha/pairing.py:76-84 | the decoding loop: skipped characters, padding and leftover bits |
| Base64Url.DecodeEncode | deploy/ha/pairing.py:63-84 | decoding an encoding gives the bytes back |
| Base64Url.StripThenRepad | deploy/ha/pairing.py:66-81 | stripping the padding and adding back what the length calls for is lossless |
| Pairing.ValidateIsIdempotent | deploy/ha/pairing.py:21-60 | validating a validated document changes nothing |
| Pairing.LastHyphenSeparates | deploy/ha/pairing.py:80-80 | the last hyphen separates payload and checksum, whatever the payload holds |
| Pairing.JoinCodeRoundTrip | deploy/ha/pairing.py:63-84 | decoding an encoded document with whitespace inserted anywhere gives the validated document |
| Pairing.DecodedDocumentsReencode | deploy/ha/pairing.py:63-84 | an accepted code decodes to a document that encodes to a code of the same document |
| DeletionService.CaseRecord.EnsureWorkOrder | backend/app/core/deletion_cases.py:175-259 | the requirement and the order of one active processor, created once and only with its evidence |
| DeletionService.CaseRecord.EnsureAll | backend/app/core/deletion_cases.py:175-259 | a whole call: no processor known, none active, or one order for each active one in turn; a key that cannot be verified undoes all of it |
| DeletionService.CaseRecord.RecordReport | backend/app/core/deletion_cases.py:328-426 | report, requirement, scope of pending deletions, case and evidence, or nothing |
| DeletionService.CaseRecord.RecordCopyResolution | backend/app/core/deletion_cases.py:466-521 | the copy statement, after the report, or nothing |
| DeletionService.CaseRecord.PurgeData | backend/app/core/deletion_workflow.py:647-719 | the purge from a ready or begun case, with a report or an absence receipt when Desktop copies are required, and its receipt |
| DeletionService.CaseRecord.ConfirmPeerReplication | backend/app/core/deletion_workflow.py:462-516 | the peer confirmation after the purge |
| DeletionService.CaseRecord.RegisterSuperseded | backend/app/core/deletion_workflow.py:114-140 | marks older packages one by one and never undoes a confirmed deletion |
| DeletionService.CaseRecord.RegisterClean | backend/app/core/deletion_workflow.py:63-111 | the clean package becomes the one active package |
| DeletionService.CaseRecord.ConfirmBackup | backend/app/core/deletion_workflow.py:519-599 | inventory, replacement, peer resolution and evidence, or nothing |
| DeletionService.CaseRecord.ConfirmNoControlledBackups | backend/app/core/deletion_cases.py:531-568 | the explicit statement that no backup exists |
| DeletionService.CaseRecord.MissingPrerequisites | backend/app/core/deletion_cases.py:597-623 | lists nothing exactly when every prerequisite is met |
| DeletionService.CaseRecord.FreezeChecklist | backend/app/core/deletion_cases.py:626-693 | freezes what the rows call for; a refusal leaves the restricted state behind |
| DeletionService.CaseRecord.RecordApproval | backend/app/core/deletion_cases.py:696-764 | one executor approval for the frozen checklist |
| DeletionService.CaseRecord.Close | backend/app/core/deletion_cases.py:767-874 | completes only an unchanged, approved checklist whose prerequisites still hold |
| DeletionProofs.AttemptKeepsInv | backend/app/core/deletion_cases.py:175-874 | every step keeps: stored digests are on record and records come after what they presuppose |
| DeletionProofs.CompletedCaseIsBacked | backend/app/core/deletion_cases.py:767-874 | in every order of steps a complete case has a final receipt that repeats the approved checklist, and that checklist cites a purge, the peer, a clean backup or its absence, and both reports of every required processor, all recorded before |
| DeletionProofs.RecordsComeInOrder | backend/app/core/deletion_cases.py:531-874 | purge before peer confirmation and backup, checklist before approval, approval before completion, and no operation recorded twice |
| DeletionProofs.CompleteRequirementHasBothReports | backend/app/core/deletion_cases.py:328-521 | a complete requirement carries a recorded deletion report and a recorded copy statement |
| DeletionDelivery.EnsureIsSteps | backend/app/core/deletion_cases.py:175-259 | a call for several processors is a run of single steps, so everything proved of runs holds of it |
| DeletionDelivery.OneScopeDelivers | backend/app/core/deletion_cases.py:175-874 | with one event, one subject and processors that remain, every work order of a case that closes has its report and its copy statement, whatever the order of the steps |
| DeletionWitnesses.DeliveredIff | backend/app/core/deletion_cases.py:175-874 | every closing run of a set of calls delivers every work order if and only if calls with and without processors are not mixed and no processor serves two subjects of an event; otherwise a concrete run from the opened case closes it with an undelivered order |
| Sorting.SortedTexts | deploy/evidence/evidence_bundle.py:66-72 | the given texts once each, ascending by code point |

## Left out

- HTTP, SSH, containers, SQL text, signing, hashing, UUID and archive byte layouts: parameters or idealised.
- Registration and rotation of keys, the signer block of a record, and the field-by-field patterns of records, requests, policies and markers.
- A stop inside one ledger append (a record without its signature) or between two moves of the quarantine loop, and sequence numbers beyond twelve digits.
- `portable_bundle.py`, `evidence_git.py`, `evidence_repository.py` and `portable_snapshot.py`: the same shape as bundles and archive.
- The retry lease of the uploader, its notifications, and the size limits of bundles and artifacts.
- A connection reset while a reply is read, which the client does not turn into a retryable refusal; a lost reply is modelled as a timeout.
- Extraction conflicts in which one member path is a directory of another.
- The exception handler of the installer: a fault before its directory loop does not restore the active directories.
- Crashes inside a tree copy or tree removal of the frontend backup, and `finalize`.
- The rollback of a frontend deletes every active file before it copies: no claim is made about what is served meanwhile.
- Batches above one hundred operations, the replication script itself and the witness service.
- A claim that the live purge waits for all processors: resolving outstanding actions may release it while a report is pending.
- The digest of a Desktop absence receipt is read by the purge but written by no code of the repository, so no step sets it.
- Redaction of published documents, revocation of sessions, mail, push, audit texts and the API layer that sequences the deletion steps; a case may be moved to any state but the last two by other code.
- Case folding, host-name and URL patterns of join codes: parameters, with folding assumed to be done once.
- SnapshotConvergence.InterruptedRunsConverge: needs inventories within the limits, beyond which a run is refused (`FirstRunSucceedsIff`), receipts that fix the time of their snapshot, and no two snapshots of one receipt stale for two jobs, without which the claim is false (`ConvergesIff`).
- ReplicationQueue.QueueConserves: needs that a run does not pick a request its scan could not read; otherwise the claim is false.
