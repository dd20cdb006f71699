# Credential migrations, load benchmark and money forms: a Dafny model

This project models three parts of the repository and proves what they promise.

**The Provider-credential migration pipeline** (`drizzle/data`). Three transactional data migrations run in a fixed order over
Providers, credentials, adapter defaults, authorization attempts and revocation jobs: *managed accounts*, *Provider-owned
credentials*, *deleted-Provider orphans*. Each reads a snapshot, plans or rejects, rewrites rows one at a time and then runs an
independent SQL verifier in the same transaction.

- `Tables.dfy` holds the rows and the class `Database`; a table is the sequence of its rows in the runners' order, and an
  `UPDATE ... WHERE` is a method that rewrites the hit rows and returns their number.
- `ManagedAccounts.dfy`, `OwnedCredentials.dfy` and `OrphanRepair.dfy` hold the runners: loops over rows, lookup maps,
  counters, checks that throw in between writes, commit and rollback. Every method is proved equal to a row-wise specification.
  The verifiers are separate counts over joins that do not mention the plans.
- `ManagedTheorems.dfy`, `OwnershipTheorems.dfy`, `CutoverTheorems.dfy` and `RepairTheorems.dfy` connect planner, written
  tables, verifier, receipt, dry run and second run. `Pipeline.dfy` connects consecutive stages.
- `ManagedRows.dfy`, `OwnershipRows.dfy` and `RepairRows.dfy` state each stage once more by the columns alone, without the
  functions the runners are proved against: what it accepts, what every row becomes, which failure is reported first, what the
  verifier demands, what the receipt counts and what the fingerprint is taken over.
- `LegacyDatabases.dfy` starts the pipeline on a database that has only seen schema migration 0047, described by its columns:
  no modes, pointers or defaults, secret-free terminal jobs, owners that exist, at most one credential per Provider, envelopes
  that open in the context they were made in, live identities distinct as stored and as recomputed. Its theorem is exact: such
  a database is carried through all three stages if and only if every account is live exactly when the Provider it names is in
  use. `PipelineExample.dfy` exhibits databases on both sides, `ResidualExamples.dfy` a database for every reason the second
  stage can still have to stop after the first.
- `SchemaContracts.dfy` states the foreign keys and checks around the data migrations and the preconditions of the contract
  migrations 0048, 0050 and 0052, which the outputs of the three stages are proved to meet.
- `Envelopes.dfy` and `CanonicalJson.dfy` hold encryption contexts, account identities and fingerprint preimages. Encryption
  and hashing are parameters, with the token schema they check as the predicate `accepts`; `Lawful` states what is assumed of
  them (an accepted bundle encrypts in a valid context, and decrypts back to itself; only a valid context and a complete
  envelope decrypt, and only to an accepted bundle; digests are 64 hex digits) and `ContextBound` that an envelope opens in its
  own context only. `LawfulIsConsistent` exhibits an instance of both that accepts exactly the identities the schema accepts.

**The streaming benchmark** (`scripts/benchmark-gateway-stream.py`). `LoadPhase.dfy` is the worker pool as an interleaved step
system: barrier, lock sections, clock, join. A lock section is one step, a Gateway call returns an arbitrary row, time is a
monotone input. `StreamRows.dfy` is the stream observation and the quality rule, `StreamMetrics.dfy` percentiles and nested
counts, `Benchmark.dfy` the calibration and phase loops.

**Money and the resource form** (`app/components/admin`). `Money.dfy` holds both micro-USD codecs, `ResourceForm.dfy` the
conditional options, `FormPayload.dfy` the way from a record to form values and back to a payload, `FormTheorems.dfy` what an
untouched save keeps and when it succeeds, `FormFields.dfy` what every control sends of any submitted value.

## Assumptions and findings

- Ids are primary keys. They may be blank unless a statement says otherwise, because the code tests references for truthiness
  in some places and for null in others. Where a blank reference breaks a law the exact condition is proved:
  - the ownership run passes its verifier exactly under `NoBlankReference` (`CutoverVerified`). A blank owner on a disconnected
    credential, which no constraint forbids once 0048 has dropped the owner foreign key, passes planner and dry run and is
    stopped only by the verifier (`BlankOwnerExample`). A pin to the blank id would do the same, and is counted as directly
    bound without owning anything (`PlanCounts`), but the foreign key on the pointer and the check on contexts keep it out;
  - a revocation job naming the blank account skips the epoch check (`MigrationVerified`); again the foreign key and the check
    on contexts keep such a row out of the tables;
  - so on tables whose references hold and whose ids are not blank, the two runs commit exactly when no check throws
    (`StorableStageOne`, `StorableStageTwo`).
- The managed-account run can be repeated exactly when every stored envelope sits under an id without surrounding white space:
  the source context is trimmed, the id it is compared with is not (`RerunIsNoOp`). `SpacedIdExample` is an account that
  migrates once and is rejected the second time.
- A disconnected legacy account still names its Provider. When that Provider is in use the first stage commits and the second
  rejects the database, because the Provider is then pinned to an account that is not live; under a deleted Provider both
  commit (`LegacyPipeline`, `DisconnectedCases`).
- Below zero `usd` prints the sign of the remainder inside the fraction; it agrees with the form's printer exactly for amounts
  that are not negative or are whole dollars (`UsdSign`).
- One pass of the conditional options is enough when conditions look back; when a condition looks at a later field a second
  pass can change the result (`LookingAheadNeedsTwoPasses`).
- A nullable money field whose stored value is not an integer is shown blank and saved as null; on any other field, and for a
  negative or too large amount, the save is rejected (`MoneySettles`). `MoneyUnchanged` states exactly which stored nulls and
  numbers come back as they are, and `FormSaves` when a form saves untouched, whatever fields it has.
- Numbers above 2^53 - 1 may print as another integer (2^57 prints as 144115188075855870), so `Faithful` says nothing of them.

## Model

| member | source | states |
|---|---|---|
| CanonicalJson.PreimageInjective | drizzle/data/provider-owned-credentials-core.ts:132-147 | Different sequences of fingerprint entries give different byte streams: strings, integers, booleans and null in arrays can be read back from the canonical text |
| CanonicalJson.EscapesExample | drizzle/data/provider-owned-credentials-core.ts:132-143 | Quotes, backslashes and control characters are escaped as `JSON.stringify` does, short forms first; `EscapePlain`: any other text stands for itself |
| CanonicalJson.LineExample | drizzle/data/provider-owned-credentials-core.ts:132-147 | An entry is a JSON array without spaces |
| Text.TrimTells | drizzle/data/provider-managed-accounts-core.ts:129-155 | Trimming takes white space off both ends and nothing else |
| Envelopes.IdentityHash | drizzle/data/provider-managed-accounts-core.ts:166-175 | Every identity hash it produces has the form the planner and both verifiers accept |
| Envelopes.IdentityPreimageInjective | drizzle/data/provider-managed-accounts-core.ts:129-175 | Two accounts are hashed from the same text exactly when adapter and trimmed identity coincide |
| Envelopes.CodexText | drizzle/data/provider-managed-accounts-core.ts:129-175 | The text hashed for a Codex account: adapter, NUL, and the object of account and subject, both trimmed |
| Envelopes.XaiText | drizzle/data/provider-managed-accounts-core.ts:129-175 | The text hashed for an xAI account |
| Envelopes.CopilotText | drizzle/data/provider-managed-accounts-core.ts:129-175 | The text hashed for a Copilot account: its host and numeric id |
| Envelopes.LawfulIsConsistent | app/lib/providers/schemas.ts:42-76 | The assumptions on encryption and hashing have an instance, one that encrypts exactly the bundles whose identity the token schema accepts |
| ManagedAccounts.HasDuplicate | drizzle/data/provider-managed-accounts-core.ts:493-502 | A set filled row by row finds a repeated key exactly when two rows share one |
| ManagedAccounts.Decide | drizzle/data/provider-managed-accounts-core.ts:449-461 | From the two lookup maps: a Provider's desired mode and pointer, and whether its pin is invalid |
| ManagedAccounts.WriteProvider | drizzle/data/provider-managed-accounts-core.ts:462-478 | A Provider is rewritten exactly when its binding differs from the desired one, and only that row |
| ManagedAccounts.RewriteProvider | drizzle/data/provider-managed-accounts-core.ts:448-478 | One iteration of the Provider loop: check, then write |
| ManagedAccounts.MigrateProviders | drizzle/data/provider-managed-accounts-core.ts:445-486 | The loop stops at the first invalid pin; otherwise the table is the row-wise migrated one, and counters and entries are those of the snapshot |
| ManagedAccounts.TransformDry | drizzle/data/provider-managed-accounts-core.ts:249-283 | What an apply run accepts a dry run accepts, with the same flags and identity, the envelope alone missing |
| ManagedAccounts.Adopt | drizzle/data/provider-managed-accounts-core.ts:503-517 | One credential transforms, or fails, or repeats a live identity, as the prefix specification says |
| ManagedAccounts.WriteCredential | drizzle/data/provider-managed-accounts-core.ts:518-553 | The update by id takes the table from the first i rows migrated to the first i + 1, and the missing-envelope error cannot occur |
| ManagedAccounts.RewriteCredential | drizzle/data/provider-managed-accounts-core.ts:503-553 | One iteration of the credential loop: the failure found is the first of the whole table, otherwise one more row is migrated |
| ManagedAccounts.MigrateCredentials | drizzle/data/provider-managed-accounts-core.ts:488-564 | The interleaved checks and writes equal the row-wise migration when no check throws, and report the first failure otherwise |
| ManagedAccounts.MigrateAttempts | drizzle/data/provider-managed-accounts-core.ts:566-600 | Active attempts are ended and contexts backfilled row by row; counters count exactly those rows |
| ManagedAccounts.Scope | drizzle/data/provider-managed-accounts-core.ts:605-615 | A revocation job's scope, account and epoch, and when the epoch cannot be recovered |
| ManagedAccounts.WriteJob | drizzle/data/provider-managed-accounts-core.ts:616-635 | A job is rewritten exactly when it differs from its target, and only that row |
| ManagedAccounts.RewriteJob | drizzle/data/provider-managed-accounts-core.ts:604-644 | One iteration of the job loop: check, write and fingerprint entry |
| ManagedAccounts.MigrateJobs | drizzle/data/provider-managed-accounts-core.ts:602-645 | The loop stops at the first unrecoverable epoch; otherwise every job is at its target |
| ManagedAccounts.Preconditions | drizzle/data/provider-managed-accounts-core.ts:331-348 | Non-terminal jobs, retained material and doubly owned Providers are rejected, in that order |
| ManagedAccounts.RewriteBindings | drizzle/data/provider-managed-accounts-core.ts:433-486 | The run up to the last Provider row |
| ManagedAccounts.RewriteAccounts | drizzle/data/provider-managed-accounts-core.ts:488-645 | The run from the legacy-identity check on |
| ManagedAccounts.Rewrite | drizzle/data/provider-managed-accounts-core.ts:433-646 | The whole run refines the row-wise specification: same first failure, same tables, same receipt |
| ManagedAccounts.Migrate | drizzle/data/provider-managed-accounts-core.ts:397-680 | An apply run that reaches its end has also passed the verifier |
| ManagedAccounts.Run | drizzle/data/provider-managed-accounts-core.ts:682-703 | All or nothing: a failing or dry transaction leaves every table as it was, even when it fails after some writes |
| ManagedTheorems.MigrationVerified | drizzle/data/provider-managed-accounts-core.ts:350-395 | When no check throws, all six verifier counts are zero if and only if no job names the blank account |
| ManagedTheorems.NoDuplicateGroups | drizzle/data/provider-managed-accounts-core.ts:382-389 | No two live credentials share adapter and identity afterwards |
| ManagedTheorems.MigrationKeepsAccounts | drizzle/data/provider-managed-accounts-core.ts:503-564 | Row by row the same account: what decrypted in the old context decrypts to the same token bundle in the row's own context, and the stored hash is that bundle's |
| ManagedTheorems.MigrationClosesAttempts | drizzle/data/provider-managed-accounts-core.ts:566-600 | The receipt counts the attempts whose status, context and revision change; after the run exactly the untouched attempts still hold secrets; row by row, no attempt stays active, a rewritten one has one more revision, and the others are untouched |
| ManagedTheorems.ReportCountsChanges | drizzle/data/provider-managed-accounts-core.ts:648-651 | Every changed-row number is the number of rows that differ afterwards, for encryption bound to its context |
| ManagedTheorems.DryRunForecasts | drizzle/data/provider-managed-accounts-core.ts:652-679 | After a successful dry run the apply run succeeds exactly when no job names the blank account, with the same numbers and fingerprint |
| ManagedTheorems.TransformAgain | drizzle/data/provider-managed-accounts-core.ts:229-231 | A migrated row transforms again exactly when its envelope sits under a trimmed id, and then nothing changes |
| ManagedTheorems.AgainClean | drizzle/data/provider-managed-accounts-core.ts:433-613 | Whether a second run gets through its checks is decided by the ids alone |
| ManagedTheorems.AgainEntries | drizzle/data/provider-managed-accounts-core.ts:479-644 | The second run fingerprints the same sequence of entries |
| ManagedTheorems.RerunIsNoOp | drizzle/data/provider-managed-accounts-core.ts:397-680 | Re-running a committed migration succeeds exactly under trimmed ids, changes no row and reports the same fingerprint |
| ManagedRows.ProviderRows | drizzle/data/provider-managed-accounts-core.ts:445-486 | Row by row: a managed Provider that is pinned with a pointer is unchanged; one pinned without, or without a mode but named by a credential, keeps the pointer it has and otherwise gets that credential; any other follows the default without a pointer; others are untouched |
| ManagedRows.PinAccepted | drizzle/data/provider-managed-accounts-core.ts:449-461 | A pin is accepted exactly when the account it will name exists, has an id and is of the same adapter |
| ManagedRows.TransformAccepted | drizzle/data/provider-managed-accounts-core.ts:195-283 | A credential transforms exactly when it has no envelope and is not connected, or a complete one that opens, in the context it was made in, to an account of its adapter |
| ManagedRows.CredentialRows | drizzle/data/provider-managed-accounts-core.ts:503-564 | Row by row: context the own id, identity that of the bundle or none, an envelope that opens in the own context to the same bundle, and kept where it already did; no other column changes |
| ManagedRows.JobRows | drizzle/data/provider-managed-accounts-core.ts:602-645 | Row by row: the scope a job had or its source, the account it names or was made from, that account's epoch unless it has one; no other column changes |
| ManagedRows.StageOneAccepts | drizzle/data/provider-managed-accounts-core.ts:433-646 | The first stage gets through its checks exactly on the tables described by columns, and commits exactly when besides no job names the blank account |
| ManagedRows.FailureIsFirst | drizzle/data/provider-managed-accounts-core.ts:433-646 | A reported failure is the first in the order of the checks: all earlier ones have nothing to report |
| ManagedRows.FailureIsJustified | drizzle/data/provider-managed-accounts-core.ts:433-646 | A reported failure is there: some row has the defect it names |
| ManagedRows.VerifierTells | drizzle/data/provider-managed-accounts-core.ts:350-395 | The verifier passes exactly the tables whose columns are in order |
| ManagedRows.ReceiptTells | drizzle/data/provider-managed-accounts-core.ts:648-679 | Every number of the receipt counts the rows whose columns change so: rewritten, pinned, following, re-encrypted, rehashed, cleared, terminated, backfilled |
| ManagedRows.FingerprintTells | drizzle/data/provider-managed-accounts-core.ts:435-677 | Dry or applied, the fingerprint is taken over the columns the run writes or would write |
| OwnedCredentials.CheckDefaults | drizzle/data/provider-owned-credentials-core.ts:241-254 | The first bad default row is reported; otherwise the adapter map is that of the table |
| OwnedCredentials.CheckDefault | drizzle/data/provider-owned-credentials-core.ts:243-252 | One default row: first of its adapter, and a live account of it |
| OwnedCredentials.CheckCredentials | drizzle/data/provider-owned-credentials-core.ts:256-275 | The first credential with bad provenance, context, identity or envelope is reported |
| OwnedCredentials.CheckCredential | drizzle/data/provider-owned-credentials-core.ts:256-274 | One credential against the row rule, provenance first |
| OwnedCredentials.EffectiveCredential | drizzle/data/provider-owned-credentials-core.ts:289-311 | A Provider's effective account through its mode, and what is wrong with it |
| OwnedCredentials.BindProviders | drizzle/data/provider-owned-credentials-core.ts:277-319 | Targets of all Providers, and under each account id its claimants in order |
| OwnedCredentials.Candidates | drizzle/data/provider-owned-credentials-core.ts:326 | The collected candidates of an account are its claimants |
| OwnedCredentials.MatchCredential | drizzle/data/provider-owned-credentials-core.ts:324-336 | One credential: counted as shared, counted as an orphan, or a target of its one owner |
| OwnedCredentials.MatchCredentials | drizzle/data/provider-owned-credentials-core.ts:321-336 | Shared and orphan counts and the owned targets of all live credentials |
| OwnedCredentials.PlanCutover | drizzle/data/provider-owned-credentials-core.ts:204-356 | The planner returns the first failure of the specification, or the whole plan |
| OwnedCredentials.ApplyProviders | drizzle/data/provider-owned-credentials-core.ts:530-540 | The update loop leaves exactly the row-wise cut Provider table |
| OwnedCredentials.ApplyCredentials | drizzle/data/provider-owned-credentials-core.ts:541-550 | The update loop leaves exactly the row-wise cut credential table |
| OwnedCredentials.TargetOwnerIsCut | drizzle/data/provider-owned-credentials-core.ts:507-519 | The owner that is fingerprinted is the owner that is written |
| OwnedCredentials.Fingerprint | drizzle/data/provider-owned-credentials-core.ts:503-527 | The hash is taken over the specified entry sequence |
| OwnedCredentials.Apply | drizzle/data/provider-owned-credentials-core.ts:529-551 | Both update loops and the delete leave exactly the cutover |
| OwnedCredentials.Migrate | drizzle/data/provider-owned-credentials-core.ts:450-589 | An apply run that reaches its end has also passed the verifier |
| OwnedCredentials.Run | drizzle/data/provider-owned-credentials-core.ts:591-612 | All or nothing: only a committed apply transaction changes the tables, and to the cutover |
| OwnershipRows.PlannerAcceptsOneToOne | drizzle/data/provider-owned-credentials-core.ts:212-342 | The planner accepts exactly the snapshots, by their columns, in which Providers in use and live accounts are paired one to one and every default, owner, context, identity and envelope is in order |
| OwnershipTheorems.OwnerOf | drizzle/data/provider-owned-credentials-core.ts:324-336 | A live credential of an accepted snapshot has one claimant, of its own adapter |
| OwnershipTheorems.BoundSize | drizzle/data/provider-owned-credentials-core.ts:349-351 | There are as many bound Providers as live credentials |
| OwnershipTheorems.PlanCounts | drizzle/data/provider-owned-credentials-core.ts:344-355 | Bound plus unbound Providers are all Providers, live plus disconnected are all credentials, and bound equals live except for blank pins |
| CutoverTheorems.CutoverVerified | drizzle/data/provider-owned-credentials-core.ts:397-448 | For every accepted snapshot the written tables pass all six counts exactly when there is no blank reference |
| CutoverTheorems.CutPair | drizzle/data/provider-owned-credentials-core.ts:529-553 | After the cutover a live credential and its owner point at each other |
| CutoverTheorems.CutoverKeepsBindings | drizzle/data/provider-owned-credentials-core.ts:530-551 | No Provider in use changes account, deleted ones lose their pointer, and envelopes and histories are untouched |
| CutoverTheorems.PlanCountsChanges | drizzle/data/provider-owned-credentials-core.ts:347-348 | The changed-row numbers are the numbers of rows that differ afterwards |
| CutoverTheorems.ReplanAccepted | drizzle/data/provider-owned-credentials-core.ts:204-356 | The planner accepts what it has written |
| CutoverTheorems.ReplanSameEntries | drizzle/data/provider-owned-credentials-core.ts:503-527 | The fingerprint entries are the same before and after |
| CutoverTheorems.RerunIsNoOp | drizzle/data/provider-owned-credentials-core.ts:450-589 | A committed cutover can be run again: it succeeds, changes nothing, same fingerprint |
| CutoverTheorems.DryRunForecasts | drizzle/data/provider-owned-credentials-core.ts:529-588 | After a successful dry run the apply run fails only over a blank reference and otherwise reports the same |
| CutoverTheorems.BlankOwnerExample | drizzle/data/provider-owned-credentials-core.ts:256-264 | A disconnected credential with a blank owner, which the schema stores since drizzle/0048 line 102: the dry run succeeds, the apply run fails verification |
| OwnershipRows.CutoverRows | drizzle/data/provider-owned-credentials-core.ts:529-551 | Row by row: a managed Provider is pinned, to the account it uses or to nothing; a live account is owned by the Provider that uses it; no default stays; no other column changes |
| OwnershipRows.FailureIsFirst | drizzle/data/provider-owned-credentials-core.ts:204-342 | A rejection is the first in the order of the checks |
| OwnershipRows.FailureIsJustified | drizzle/data/provider-owned-credentials-core.ts:204-342 | A rejection is there, as often as it says: exact numbers of active attempts, open jobs, shared and unused live accounts |
| OwnershipRows.VerifierTells | drizzle/data/provider-owned-credentials-core.ts:397-448 | The verifier passes exactly the tables in which pinned Providers and live accounts point at each other and owners exist |
| OwnershipRows.ReceiptTells | drizzle/data/provider-owned-credentials-core.ts:344-588 | The receipt counts the rows that differ, the Providers left with and without a pointer, and the live and disconnected accounts |
| OwnershipRows.FingerprintTells | drizzle/data/provider-owned-credentials-core.ts:503-527 | Dry or applied, the fingerprint is taken over the columns the run writes or would write |
| OrphanRepair.SurveyProviders | drizzle/data/provider-deleted-credential-orphans-core.ts:138-156 | Provider map, deleted ids and tombstone pointers of the snapshot, or the first bad row |
| OrphanRepair.Classify | drizzle/data/provider-deleted-credential-orphans-core.ts:165-186 | Whether one credential is kept, targeted or ambiguous |
| OrphanRepair.SurveyCredentials | drizzle/data/provider-deleted-credential-orphans-core.ts:158-193 | The targets are the orphaned credentials in order, or the first failure |
| OrphanRepair.IsStranded | drizzle/data/provider-deleted-credential-orphans-core.ts:214-219 | An attempt is cancelled when active and on a deleted Provider or towards a targeted credential |
| OrphanRepair.SurveyAttempts | drizzle/data/provider-deleted-credential-orphans-core.ts:207-224 | The targets are the stranded attempts in order, or a duplicate id is reported |
| OrphanRepair.PlanRepair | drizzle/data/provider-deleted-credential-orphans-core.ts:133-234 | The planner returns the specified plan or first failure |
| OrphanRepair.RepairProviders | drizzle/data/provider-deleted-credential-orphans-core.ts:392-405 | Each guarded update hits exactly one row, so the changed-during-repair error never occurs |
| OrphanRepair.RepairAttempts | drizzle/data/provider-deleted-credential-orphans-core.ts:406-422 | The same for attempts |
| OrphanRepair.RepairCredentials | drizzle/data/provider-deleted-credential-orphans-core.ts:423-449 | The same for credentials, guarded by adapter, status and owner |
| OrphanRepair.Apply | drizzle/data/provider-deleted-credential-orphans-core.ts:391-450 | The three loops leave exactly the repaired tables |
| OrphanRepair.Migrate | drizzle/data/provider-deleted-credential-orphans-core.ts:315-495 | An apply run that reaches its end has also passed the verifier |
| OrphanRepair.Run | drizzle/data/provider-deleted-credential-orphans-core.ts:497-518 | All or nothing: only a committed apply transaction changes the tables |
| RepairTheorems.RepairAccepts | drizzle/data/provider-deleted-credential-orphans-core.ts:160-193 | The planner rejects exactly the snapshots with an ambiguous tombstone pointer on a live credential |
| RepairTheorems.RepairIsExact | drizzle/data/provider-deleted-credential-orphans-core.ts:168-193 | An accepted plan disconnects precisely the live credentials without a valid owner |
| RepairTheorems.RepairEffects | drizzle/data/provider-deleted-credential-orphans-core.ts:391-449 | No row appears or disappears; rows named by the plan change epoch and revision by one and lose pointers and secrets; all others are untouched |
| RepairTheorems.RepairVerified | drizzle/data/provider-deleted-credential-orphans-core.ts:277-313 | Applying an accepted plan makes all three verifier counts zero |
| RepairTheorems.RepairPreservesOwnership | drizzle/data/provider-deleted-credential-orphans-core.ts:176-180 | Where Providers in use and their credentials point at each other, they still do, with both rows unchanged |
| RepairTheorems.NoStrandedAttempt | drizzle/data/provider-deleted-credential-orphans-core.ts:214-223 | No attempt left active names a deleted Provider or a credential this run disconnected |
| RepairTheorems.RepairTwice | drizzle/data/provider-deleted-credential-orphans-core.ts:226-233 | Replanning the repaired tables gives the empty plan |
| RepairTheorems.RerunIsNoOp | drizzle/data/provider-deleted-credential-orphans-core.ts:315-495 | A committed repair can be run again, on whatever tables it started: it commits, reports no changed row and changes none |
| RepairTheorems.PlanForecastsVerifier | drizzle/data/provider-deleted-credential-orphans-core.ts:226-233 | The planned numbers equal the verifier's counts on the unrepaired tables; for attempts they bound it |
| RepairTheorems.ReceiptMatchesVerifier | drizzle/data/provider-deleted-credential-orphans-core.ts:485-487 | The remaining-work numbers of dry and applied receipts against the verifier |
| RepairTheorems.ReceiptCountsChanges | drizzle/data/provider-deleted-credential-orphans-core.ts:478-484 | Every changed-row number is the number of rows that differ afterwards |
| RepairTheorems.ReceiptCountsErased | drizzle/data/provider-deleted-credential-orphans-core.ts:456-468 | The erased-secrets number is the number of credentials that lose a bundle |
| RepairTheorems.DryRunForecasts | drizzle/data/provider-deleted-credential-orphans-core.ts:453-494 | Dry and apply runs succeed together, with the same numbers and fingerprint |
| RepairRows.PlannerAccepts | drizzle/data/provider-deleted-credential-orphans-core.ts:133-234 | The planner accepts exactly the tables in which no live account has two tombstones pointing at it, one of another adapter, or one beside a different owner |
| RepairRows.RepairedRows | drizzle/data/provider-deleted-credential-orphans-core.ts:391-450 | Row by row: tombstones lose their pointer, live accounts without an owner in use that points back are disconnected and lose their bundle, cancelled attempts end, and nothing else changes |
| RepairRows.AttemptChanges | drizzle/data/provider-deleted-credential-orphans-core.ts:214-223 | An attempt changes exactly when it is active and its Provider is deleted, or its non-blank target is an account the repair changes |
| RepairRows.FailureIsJustified | drizzle/data/provider-deleted-credential-orphans-core.ts:160-193 | A rejection is there: some live account has the defect it names |
| RepairRows.VerifierTells | drizzle/data/provider-deleted-credential-orphans-core.ts:277-313 | The verifier passes exactly the tables without tombstone pointers, unowned live accounts and active attempts on deleted Providers |
| RepairRows.ReceiptTells | drizzle/data/provider-deleted-credential-orphans-core.ts:453-494 | The receipt counts the rows that differ, the bundles erased and the work that remains |
| RepairRows.FingerprintTells | drizzle/data/provider-deleted-credential-orphans-core.ts:453-494 | The fingerprint is taken over the columns of the rows the run looks at |
| Pipeline.StageOneDischargesStageTwo | drizzle/data/provider-owned-credentials-core.ts:212-342 | After a committed first stage the ownership planner can stop only over defaults, provenance, a pin to a dead account, or shared or orphan live credentials |
| ResidualExamples.ResidualReachable | drizzle/data/provider-owned-credentials-core.ts:241-342 | Each of these six reasons occurs: on a concrete database the first stage commits and the second stops for it |
| SchemaContracts.StorableResidual | drizzle/0047_provider_managed_accounts_expand.sql:35-38 | Where default and owner references hold, only four reasons are left: a default or a pin to an account that is not live, and live accounts with several owners or none |
| Pipeline.RepairAfterCutover | drizzle/data/provider-deleted-credential-orphans-core.ts:133-234 | The orphan planner accepts every output of the second stage and plans nothing |
| Pipeline.StageThreeQuiet | drizzle/data/provider-deleted-credential-orphans-core.ts:315-495 | The third stage commits on every output of the second without changing a row |
| LegacyDatabases.ReadableTransforms | drizzle/data/provider-managed-accounts-core.ts:206-283 | A credential whose envelope opens in its recorded context, by its columns, transforms, to the identity of the bundle it holds |
| LegacyDatabases.LegacyStageOne | drizzle/data/provider-managed-accounts-core.ts:397-680 | The first stage commits on every legacy database |
| LegacyDatabases.LegacyStageTwo | drizzle/data/provider-owned-credentials-core.ts:450-589 | The second stage commits on what the first made of it exactly when every account is live if and only if the Provider it names is in use |
| LegacyDatabases.LegacyPipeline | README.md:248-256 | A legacy database is carried through the three stages, the last with nothing to do, if and only if it is balanced in this sense; otherwise the first stage commits and the second rejects |
| PipelineExample.ConnectedCarried | README.md:248-256 | A connected account that is carried through exists for every lawful encryption |
| PipelineExample.DisconnectedCases | drizzle/0045_abandoned_killraven.sql:85-88 | A disconnected account that names its Provider is carried through exactly when that Provider is deleted; otherwise stage one commits and stage two rejects |
| PipelineExample.SpacedIdExample | drizzle/data/provider-managed-accounts-core.ts:229-231 | An account whose id begins with a space migrates once and is rejected the second time |
| SchemaContracts.ContextsAreIds | drizzle/0047_provider_managed_accounts_expand.sql:56-57 | What the first stage writes passes the check on contexts exactly when no credential id is blank |
| SchemaContracts.StorableStageOne | drizzle/0047_provider_managed_accounts_expand.sql:37-57 | Where account references hold and no credential id is blank, the first stage commits exactly when no check throws |
| SchemaContracts.StorableStageTwo | drizzle/0047_provider_managed_accounts_expand.sql:38-57 | Where pointers and owners name rows and no context is blank, the second stage commits exactly when the planner accepts |
| SchemaContracts.StageOneMeetsContract | drizzle/0048_provider_managed_accounts_contract.sql:8-96 | A committed first stage leaves tables that pass every precondition of migration 0048 |
| SchemaContracts.StageTwoMeetsContract | drizzle/0050_provider_owned_credentials_contract.sql:8-112 | A committed second stage leaves tables that pass every precondition of migration 0050, among them that no Provider owns two live credentials |
| SchemaContracts.StageTwoOwnershipSound | drizzle/data/provider-owned-credentials-core.ts:397-448 | After it every Provider in use with a pointer and its credential point at each other |
| SchemaContracts.StageThreeMeetsContract | drizzle/0052_provider_deleted_credential_orphans_contract.sql:19-66 | Where ownership was sound, a committed third stage leaves tables that pass every precondition of migration 0052 |
| LoadPhase.StepKeeps | scripts/benchmark-gateway-stream.py:205-224 | Every step of every thread keeps the invariant of the phase |
| LoadPhase.RunSafe | scripts/benchmark-gateway-stream.py:205-217 | In every interleaving: at most limit calls, at most concurrency outstanding, no row lost, stop set exactly by a failed row, and start never read before it is set |
| LoadPhase.NothingIssuedOnceClosed | scripts/benchmark-gateway-stream.py:209-217 | After a failed check, the limit or the window, nothing more is issued, and recorded rows stay |
| LoadPhase.DecisionTells | scripts/benchmark-gateway-stream.py:207-211 | A worker that looks while issuing is open claims exactly one call; once it is closed the worker leaves, then and there |
| LoadPhase.ExitTells | scripts/benchmark-gateway-stream.py:207-211 | Every worker that has left did so at a moment when issuing was closed |
| LoadPhase.BarrierFirst | scripts/benchmark-gateway-stream.py:204-222 | No call is issued before every worker and the main thread have reached the barrier |
| LoadPhase.ClockTells | scripts/benchmark-gateway-stream.py:219-222 | The clock never runs back, and the window starts when the main thread reads it, before any call is issued |
| LoadPhase.FullyParallel | scripts/benchmark-gateway-stream.py:204-222 | The bound on outstanding calls is attained: where the limit allows it the whole pool can be calling at once |
| LoadPhase.ClockRuns | scripts/benchmark-gateway-stream.py:207-211 | Time passes by any amount, whatever the threads are doing |
| LoadPhase.JoinedReport | scripts/benchmark-gateway-stream.py:219-228 | At join every issued call has left its row; the reported reason is right, and time_limit means the window had passed at every worker's exit |
| LoadPhase.RowsAreReturned | scripts/benchmark-gateway-stream.py:205-217 | At every moment a row is recorded or held exactly as often as the calls have returned it |
| LoadPhase.JoinedRows | scripts/benchmark-gateway-stream.py:219-228 | At join the report holds every row exactly as often as the calls returned it |
| LoadPhase.RunBounded | scripts/benchmark-gateway-stream.py:198-224 | Every run makes at most 5 * concurrency + 3 * limit + 4 steps besides clock ticks |
| LoadPhase.NeverStuck | scripts/benchmark-gateway-stream.py:198-224 | No deadlock at the barrier, the lock or the join: until the phase has finished, some thread can move |
| LoadPhase.Completes | scripts/benchmark-gateway-stream.py:198-224 | Every run can be completed without the clock advancing, whatever row the outstanding calls then return |
| StreamRows.StreamObservation.constructor | scripts/benchmark-gateway-stream.py:41-50 | Nothing observed yet |
| StreamRows.StreamObservation.Push | scripts/benchmark-gateway-stream.py:52-89 | The object's fields after one event are the specified observation |
| StreamRows.StreamObservation.Choose | scripts/benchmark-gateway-stream.py:74-89 | The same for one choice of an event |
| StreamRows.StreamObservation.Fields | scripts/benchmark-gateway-stream.py:91-108 | The row of the observation; having a non-blank character is the same as having a word |
| StreamRows.Observe | scripts/benchmark-gateway-stream.py:162-175 | The read loop leaves the observation of the whole history |
| StreamRows.ObservationTells | scripts/benchmark-gateway-stream.py:52-89 | Content, chunk count, first and last time are those of the whole history; finish reason, error code and usage are the last ones in it; done means a DONE mark came |
| StreamRows.RowTells | scripts/benchmark-gateway-stream.py:91-108 | Every field of the row from the history of the stream: first-token time that of the first piece, usage the last, content by its characters, protocol success exactly on a proper end, the error code case by case |
| StreamRows.ReasoningTells | scripts/benchmark-gateway-stream.py:87-89 | The first reasoning time is that of the first non-empty piece of reasoning |
| StreamRows.SafeCodeKeeps | scripts/benchmark-gateway-stream.py:111-112 | An error code is kept exactly when it has 1 to 80 letters, digits, underscores or hyphens |
| StreamRows.QualityRule | scripts/benchmark-gateway-stream.py:91-94 | A row passes exactly when status, DONE, absence of errors, usage, final finish reason and the words of the content are right |
| StreamRows.RowsAreSound | scripts/benchmark-gateway-stream.py:91-108 | Quality implies protocol success, content, first-token time and usage; protocol success implies status 200 and no error |
| StreamRows.FirstTokenIsEarliest | scripts/benchmark-gateway-stream.py:82-84 | First and last content times bound all content times |
| StreamRows.SplitSpaced | scripts/benchmark-gateway-stream.py:94 | Splitting undoes joining words with single spaces |
| StreamRows.SplitAtBlank | scripts/benchmark-gateway-stream.py:94 | Splitting at any blank character |
| StreamRows.SplitWord | scripts/benchmark-gateway-stream.py:94 | A text without blanks is one word |
| StreamRows.ExpectedIs | scripts/benchmark-gateway-stream.py:25 | The expected words are the integers from 1 to 20 |
| StreamRows.ExpectedAnswerPasses | scripts/benchmark-gateway-stream.py:25-26 | The answer the prompt asks for passes however it is cut into pieces |
| StreamMetrics.PercentileIsLeast | scripts/benchmark-gateway-stream.py:33-36 | The percentile is the least value with at least that share of samples at or below it, and is a sample |
| StreamMetrics.PercentileMonotone | scripts/benchmark-gateway-stream.py:141-143 | Percentiles grow with their rank |
| StreamMetrics.MetricsNested | scripts/benchmark-gateway-stream.py:115-140 | Quality passes, first-token samples, protocol successes, HTTP 200s and attempts are nested; failures are zero exactly when every call passed |
| StreamMetrics.MetricsOrdered | scripts/benchmark-gateway-stream.py:141-143 | p50, p95 and p99 exist and are ordered as soon as there is a sample |
| StreamMetrics.MetricsTell | scripts/benchmark-gateway-stream.py:115-143 | Every number of a phase from its rows: five counts, two sample sizes, and of each timing the least values with 50, 95 and 99 percent of the samples of completed calls at or below them |
| Benchmark.PhaseMetrics | scripts/benchmark-gateway-stream.py:219-228 | A phase whose calls return sound rows reports nested counts |
| Benchmark.RealIsConsistent | scripts/benchmark-gateway-stream.py:300-307 | What the request bounds assume of the phases can be met, for every issue window |
| Benchmark.Calibrate | scripts/benchmark-gateway-stream.py:282-289 | One or two calls; eligible exactly when both pass |
| Benchmark.RunPhases | scripts/benchmark-gateway-stream.py:300-307 | The phases of a model up to the first with a quality failure |
| Benchmark.RunBenchmark | scripts/benchmark-gateway-stream.py:279-307 | All requests of a run, in order |
| Benchmark.RequestMaximum | scripts/benchmark-gateway-stream.py:271-272 | Whatever the interleavings, no catalog entry receives more than 122 requests, and none that fails calibration more than two |
| Benchmark.ModelMaximum | scripts/benchmark-gateway-stream.py:271-272 | A model id receives at most 122 requests for every time the catalog lists it, so at most the declared 122 when the catalog has no repeats |
| Benchmark.LoadStopsAtFailure | scripts/benchmark-gateway-stream.py:300-307 | Every phase before the last one run passed entirely |
| Benchmark.ReportTells | scripts/benchmark-gateway-stream.py:279-307 | The report in full: in catalog order one or two calibration calls an entry, as the first passes; then in catalog order, for the entries of which both passed, the phases up to the first with a failed row |
| Benchmark.LevelsTell | scripts/benchmark-gateway-stream.py:300-303 | The phases have 1, 4, 8 and 16 workers and hold at most 16, 24, 32 and 48 rows |
| Money.UsdRoundTrip | app/components/admin/AdminResourceManager.tsx:181-209 | Parsing what is printed gives the amount back from 0 to 2^53 - 1, and rejects every other amount for the right reason |
| Money.InputRoundTrip | app/components/admin/PricingSyncReview.tsx:33-52 | The same for the review codec |
| Money.UsdSign | app/components/admin/PricingSyncReview.tsx:33-40 | The two printers agree exactly on amounts that are not negative or are whole dollars |
| Money.ParsersAgree | app/components/admin/PricingSyncReview.tsx:46-52 | The review accepts exactly what the form accepts untrimmed and without a trailing point, with the same value |
| Money.ParsedIsExact | app/components/admin/AdminResourceManager.tsx:198-209 | The parsed amount is the decimal itself, without rounding |
| Money.ReprintStable | app/components/admin/AdminResourceManager.tsx:181-209 | Reprinting a parsed amount keeps its value in both parsers and is idempotent |
| Money.UsdAccepts | app/components/admin/AdminResourceManager.tsx:198-209 | By characters: digits, alone or before a point and at most six digits, between white space, are accepted with the amount they say, and nothing else; only amounts above 2^53 - 1 are out of range |
| Money.InputAccepts | app/components/admin/PricingSyncReview.tsx:46-52 | The same for the review: no white space, and a digit after every point |
| Money.ValueDigit | app/components/admin/AdminResourceManager.tsx:203-205 | A digit reads as its value, so with `ValueAppend` every run of digits is read in base ten |
| Money.PrintedForm | app/components/admin/AdminResourceManager.tsx:181-196 | An amount from zero up is printed in its one shortest spelling by both printers |
| Money.NegativeForm | app/components/admin/PricingSyncReview.tsx:33-44 | What the review prints below zero, sign of the remainder included |
| ResourceForm.NormalizeConditionalOptions | app/components/admin/AdminResourceManager.tsx:245-259 | The loop is the field-by-field specification |
| ResourceForm.NormalizeOnce | app/components/admin/AdminResourceManager.tsx:245-259 | When conditions look back one pass is a fixpoint, and every conditional field then holds an offered value, or is blank if none is offered |
| ResourceForm.SettleTells | app/components/admin/AdminResourceManager.tsx:249-257 | An offered current choice is kept; otherwise the first offered option is taken, or blank where there is none; no other value changes |
| ResourceForm.PassTells | app/components/admin/AdminResourceManager.tsx:245-259 | The pass settles the fields in order, each on the values the earlier ones left |
| ResourceForm.LookingAheadNeedsTwoPasses | app/components/admin/AdminResourceManager.tsx:249-257 | A condition on a later field can need a second pass |
| FormPayload.BuildPayload | app/components/admin/AdminResourceManager.tsx:344-443 | The payload, or the first field's error |
| FormPayload.Collect | app/components/admin/AdminResourceManager.tsx:353-442 | Assignments to payload and groups field by field, then the groups merged over their base |
| FormTheorems.SentIsWritten | app/components/admin/AdminResourceManager.tsx:358-365 | What a field wrote is what its place in the final payload holds, grouped or not |
| FormFields.FieldSent | app/components/admin/AdminResourceManager.tsx:344-443 | For any submitted values, what a field sends, control by control: nothing without a turn; else the flag, the list in order, the trimmed non-empty tags, the text or null, the conversion of a date, percentage, number, amount or JSON text |
| FormFields.NothingElseSent | app/components/admin/AdminResourceManager.tsx:353-442 | Every member of a payload is sent by a field that has its turn, under its own key or its group's |
| FormFields.GroupTells | app/components/admin/AdminResourceManager.tsx:358-442 | Every property of a group is a field's, or was in the object the group is merged over |
| FormFields.FailureIsJustified | app/components/admin/AdminResourceManager.tsx:344-443 | A rejected form has a field with the defect it reports |
| FormFields.StoredTells | app/components/admin/AdminResourceManager.tsx:290-299 | What the record holds for a field is shown, null included; the default only where it holds nothing |
| FormPayload.FaithfulIsConsistent | app/components/admin/AdminResourceManager.tsx:181-209 | The assumptions on the conversions have an instance, one in which a number above the safe range prints as another integer |
| FormTheorems.SaveSucceeds | app/components/admin/AdminResourceManager.tsx:344-443 | An untouched form, opened on a record or on defaults, saves exactly when every field it writes back holds a value its conversion accepts |
| FormTheorems.MoneySettles | app/components/admin/AdminResourceManager.tsx:181-196 | In create and edit mode: null or an amount is sent, as the stored value decides, unless an update leaves a blank out; any other stored value that settles to neither stops the save |
| FormTheorems.MoneyOmitted | app/components/admin/AdminResourceManager.tsx:379-385 | A blank amount that an update leaves out is not in its payload |
| FormTheorems.MoneyConserved | app/components/admin/AdminResourceManager.tsx:328-330 | Any stored value that reads as an integer, text or number, is sent as that amount when it is in safe range, and stops the save otherwise |
| FormTheorems.NullConserved | app/components/admin/AdminResourceManager.tsx:329 | A stored null comes back as null on a nullable field that is not left out, and as zero on any other |
| FormTheorems.MoneyUnchanged | app/components/admin/AdminResourceManager.tsx:328-330 | A stored null or number that is not left out comes back unchanged exactly when it is a null of a nullable field or an amount in range |
| FormTheorems.FormSaves | app/components/admin/AdminResourceManager.tsx:344-443 | Any untouched form saves exactly when every money, number, percentage, date and JSON field it writes back shows a stored value that converts, or one it may leave blank |
| FormTheorems.NumberConverts | app/components/admin/AdminResourceManager.tsx:366-393 | A safe integer stored for a number field converts; sent as a number it must also lie within the bounds of the field |
| FormTheorems.NumberConserved | app/components/admin/AdminResourceManager.tsx:338 | A safe integer in a number field comes back |
| FormTheorems.ConfigConserved | app/components/admin/AdminResourceManager.tsx:318-324 | When all fields convert, the save succeeds and every configuration key that is not excluded and not written by a grouped field comes back unchanged; excluded ones are not sent |
| FormTheorems.CapabilitiesConserved | app/components/admin/AdminResourceManager.tsx:306-317 | When all fields convert, the save succeeds and capabilities come back as their truth values over all options, hidden ones included, and over nothing else |
| FormFields.SwitchConserved | app/components/admin/AdminResourceManager.tsx:300 | A stored boolean comes back from its switch |
| FormFields.ListConserved | app/components/admin/AdminResourceManager.tsx:301-303 | A stored list of texts comes back in its order |
| FormFields.TagsConserved | app/components/admin/AdminResourceManager.tsx:304-306 | Stored tags that are trimmed, not empty and free of commas come back in their order |
| FormFields.TextConserved | app/components/admin/AdminResourceManager.tsx:335-338 | A stored text that is not blank comes back |
| FormFields.BlankConserved | app/components/admin/AdminResourceManager.tsx:335-338 | An empty text or null comes back as null on a nullable field that is not left out |
| FormFields.PasswordWithheld | app/components/admin/AdminResourceManager.tsx:335 | An update shows a password blank and sends nothing for one that is optional and not nullable |
| FormFields.PercentConserved | app/components/admin/AdminResourceManager.tsx:332-334 | A stored percentage comes back where its text parses to it |
| FormFields.DateConserved | app/components/admin/AdminResourceManager.tsx:326-327 | A stored date comes back where its local text converts to it |

## Left out

- PostgreSQL itself: locks, isolation, SQL text, `NOW()` columns and other columns no check reads; a transaction is a snapshot and its restoration.
- The columns of an attempt's device flow and lease are one column `flow`; lease, scope, expiry and revocation columns that the orphan repair clears are not rows of the model.
- AES-GCM, HMAC, SHA-256, key and pepper configuration and the token schemas are parameters under `Lawful`; encryption is a function of bundle and context, so the random nonce is not modelled.
- Text is a sequence of characters: UTF-16 surrogates, `localeCompare` order beyond the two literal key orders, and the UTF-8 encoding before hashing are not modelled.
- An account's numeric id is an integer; its text in exponential notation above 10^21 is not modelled.
- The constant fields of receipts, `assertExpandDefinition`, database safety identity and command lines.
- The registry receipt recorded after `COMMIT`: a run whose registry call fails has changed the tables; all-or-nothing speaks of the transaction only.
- The `Map` and `Set` keys that join adapter and identity with a NUL are pairs; adapter names contain no NUL.
- HTTP, server-sent events and JSON parsing in the benchmark: an arrival carries its parsed payload; events with malformed choices, which end the call with a client error, are not modelled.
- Percentile ranks are exact rationals and rounding to three decimals is ignored; rates, status and error counters and token totals of `metrics` are left out.
- An exception inside a worker other than reading an unset clock is not modelled, since `call_gateway` turns every exception into a row.
- A catalog entry stands for its position in the catalog; `Benchmark.ModelMaximum` counts by model id.
- The percentage, date, number and JSON conversions of the form are parameters; `Faithful` and `Representable` state what a theorem uses of them.
- The text grammar of `BigInt` beyond decimal digits, labels and hints of fields, JSON editor validation and all rendering.
- A capability record that is an array is treated as having no capabilities; assigning an undefined value is treated as writing no member; member order of payloads is not modelled.
- The schema migrations 0048 to 0052 that run between the data migrations: their preconditions are predicates, their `ALTER` statements are not steps of the model.
- Foreign keys and checks are not enforced on the model's updates: a run that would write a row the schema refuses is shown as reaching the verifier, and `SchemaContracts.dfy` states what changes when the constraints hold.
