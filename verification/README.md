# The capture store, its entry protocols and its trust boundary, verified

Workflow Capture records how a task was done: a sanitised payload goes into a
relational store under a one-time confirmation (personal mode) or under a
verified harness assertion (one-shot capture). This project models that store,
the protocols that drive it and the checks in front of it, and proves what they
keep over every run.

**State.** `Schema` has one row type per SQL table of schema version 4 and the
UNIQUE, CHECK and foreign-key constraints as predicates. `Store.SqliteStore` is
the store as a class with one mutable table per field; each call migrates, then
runs one transaction, with a rollback that restores the tables. Every method is
proved equal to a function on table values (`Transactions`, `Operations`,
`Migration`), and all further results are about those functions. `Service` holds
the protocols as methods over the class, `Adapters` the same protocols over an
adapter whose every answer is an arbitrary function of all it has been asked,
`Memory.MemoryAdapter` the in-memory reference adapter, `Redaction` and
`Validation` the tree rewrite and the checks with their shared, growing logs.
What the checks let through is stated again on the fields themselves:
`Acceptance` for a candidate, `Attestation` for a trust root, an assertion and a
grant, `RedactionSyntax` for two of the patterns; `Outcomes` says when each call
succeeds, `ReadBack` what it leaves to be read.

**Runs.** A client's call is an `Operations.Action`. A run is any list of actions
of any number of clients, so every interleaving of transactions is a run; other
clients' reads need no step because they change nothing. Another client acting
between the migration and the transaction of one call is the run with the
migration (`Upgrade`) as an action of its own. Fresh identifiers and clock
readings are inputs of each call, so the results hold for all of them.

**Hashing.** A digest is the text it was computed from under a constructor, so
different texts have different digests (collision-freeness of SHA-256, FIPS
180-4). The 64 hexadecimal characters of a digest are one glyph of text.
Signature checking (section 5.1.7 of RFC 8032), keyed digests, the redaction
patterns, timestamp reading and the shortening of digests in path signatures are
function parameters, and the results hold for any of them. `RedactionPatterns`
writes out two of the patterns, the labelled credential and the payment card.

**Reading order.** The pieces meet in `Outcomes.PersonalIff` (personal capture
from end to end), `Admission.CaptureExactlyOnce` (one-shot capture under
retries), `Runs.ReachableStore` and `Report.VerificationComplete` (what every
reachable store satisfies), `Migration.MigrationResumes` (migration) and
`Refinement.RunRefines` (the two stores).

**What turned out false, and the exact conditions.**

- Verification does not succeed in every reachable store: validation does not
  look at the type of `evidence_type`, `source_ref` or `provenance`, and a TEXT
  column turns a number or boolean into text, so the stored row no longer
  matches its own hash. `Validation.AcceptedYetReported` is a concrete item;
  `Report.VerificationComplete` says exactly when the report is clean, and
  `Chain.InsertedRowSound` and `Validation.AcceptedItem` give the condition on
  an item.
- A session id is not always remembered: references/storage-adapter-contract.md:26
  promises that a session id reused with different content is refused. The code
  refuses it exactly when the session owns a row (`Attempts.TwoKeys`); a call
  answered with known content records no session
  (`Attempts.SessionNotRemembered`; `Attempts.SessionBringsTwo` works one such
  case out from an empty store).
- A migrated store satisfies the version 4 invariant exactly when the version 2
  store held what its own runtime wrote (`Migration.MigrationEstablishesInv`),
  and the migration succeeds exactly when every old confirmation names a method
  (`Migration.MigrationSucceedsIff`).
- The injected business context is marked as harness-provided exactly when the
  assertion does not itself say otherwise (`Authorization.ProjectionMarkedIff`).
- The relational store differs from the reference adapter in one call: consuming
  a second confirmation for content that another consumed confirmation already
  claims is aborted by UNIQUE (`Refinement.StepRefines`).
- `sanitize` is not idempotent. With the code's credential and card patterns in
  the code's order, the leaf `password: 4111 1111 1111 1111` becomes
  `password: [REDACTED:PAYMENT_CARD]`, and a second pass takes that label and
  mask for a credential (`RedactionPatterns.NotIdempotent`). For any patterns and
  any tree, a second pass finds nothing, and so changes nothing, exactly when no
  pattern matches any cleaned leaf (`Redaction.SecondPassQuietIff`); where every
  replacement lowers some rank of the text, that is also exactly when the second
  pass leaves the tree as it is (`Redaction.IdempotentIff`, and
  `RedactionPatterns.MasksLower` for a rank that the two patterns lower). In the
  other case an artifact that `prepare` has just made can never be confirmed
  (`Protocols.PreparedConfirmsIff`).
- A verified assertion need not bind a session: a session that is null prints as
  `None` and passes the check for a blank one (`Authorization.NullSessionVerifies`).
  The record an attested capture stores carries a session exactly when the
  assertion's is not null (`Admission.SessionBoundIff`).
- Deleting an evidence row is not always reported: the report names the
  successor, unless that is a legacy row or there is none
  (`Tamper.DeletionReported`, `Chain.TruncationUnseen`).

## Model

| member | source | states |
|---|---|---|
| `CanonicalText.LoadsCanonicalJson` | workflow_capture/util.py:7-8 | Parsing the canonical text of any JSON value gives the value back with its keys sorted (sections 4 and 7 of RFC 8259). |
| `CanonicalText.CanonicalJsonIdentifies` | workflow_capture/util.py:7-8 | Two values have the same canonical text exactly when they are equal up to key order at every depth. |
| `Digests.PayloadDigestIdentifies` | workflow_capture/util.py:16-26 | Two payloads have the same digest exactly when they agree on every field but the session id, up to key order. |
| `Digests.PayloadDigestReloaded` | workflow_capture/database.py:279-283 | A payload reloaded from its stored text still has the stored digest. |
| `Labels.NormalizeIdempotent` | workflow_capture/util.py:37-38 | Normalising a label twice changes nothing more. |
| `Labels.NormalizeIdentifies` | workflow_capture/util.py:37-38 | Two labels normalise alike exactly when they have the same lower-case words. |
| `Similar.SimilarIsNewestPrefix` | workflow_capture/database.py:342-345 | The similar tasks are the first `limit` rows of a newest-first arrangement of exactly the tasks with an equal normalised type. |
| `Similar.SimilarByWords` | workflow_capture/database.py:342-345 | Case and spacing of the asked type do not change the answer. |
| `Similar.InsertedIsSimilar` | workflow_capture/database.py:342-345 | A task just inserted is found under its own type, unless the limit is used up by tasks of that type that are as recent. |
| `Similar.SignatureIdentifies` | workflow_capture/database.py:168-169 | Two lists of accepted steps have the same path signature exactly when they agree, step by step, on actor, event type and shortened summary digest. |
| `Chain.VerifyChain` | workflow_capture/database.py:353-377 | The checking loop over one task's rows computes the recursive tally: checked, legacy and failed events, or an exception. |
| `Chain.VerifiedIff` | workflow_capture/database.py:353-377 | On a chain without legacy rows no failure is reported exactly when every link is intact, and every row is counted. |
| `Chain.ChainBinding` | workflow_capture/database.py:172-187 | Two intact chains of one task ending in the same event hash have the same length and agree at every position on every hashed field. |
| `Chain.EditedRow` | workflow_capture/database.py:362-375 | With its hash columns left alone, a row still verifies exactly when nothing it hashes has changed. |
| `Chain.TamperLocalised` | workflow_capture/database.py:354-378 | Editing one row of an intact chain is reported at that row and nowhere else. |
| `Chain.DeletionLocalised` | workflow_capture/database.py:354-378 | Deleting a row that is not the last is reported at its successor and nowhere else. |
| `Chain.TruncationUnseen` | workflow_capture/database.py:354-378 | Cutting off the tail of an intact chain is not reported. |
| `Chain.EmptiedExcerptRaises` | workflow_capture/database.py:178-187 | Emptying an internal excerpt makes the checker raise instead of reporting. |
| `Chain.InsertedRowSound` | workflow_capture/database.py:244-260 | The row the insertion loop writes for an item verifies exactly when the item's stored fields are strings or null. |
| `Tamper.EditReported` | workflow_capture/database.py:348-378 | In a whole evidence table that verifies, editing what one non-legacy row records makes the report name exactly that row, unless the edit touches nothing hashed. |
| `Tamper.DeletionReported` | workflow_capture/database.py:348-378 | In a whole evidence table that verifies, deleting a row that is not the last of its task makes the report name exactly its successor, or nothing when the successor is legacy. |
| `Tamper.DeletionElsewhere` | workflow_capture/database.py:348-378 | Such a deletion leaves every other task's chain as it was. |
| `Report.VerifyCounts` | workflow_capture/database.py:352-378 | Over any evidence table, a report that does not raise counts every row once, as legacy or as checked. |
| `Report.VerificationComplete` | workflow_capture/database.py:348-378 | In every store satisfying the invariant the report never raises, counts exactly the legacy and non-legacy rows, and is clean exactly when every item behind a non-legacy row was textual. |
| `Store.SqliteStore.Migrate` | workflow_capture/database.py:109-127 | The migration loop on the object's tables equals the migration function, failures included. |
| `Store.SqliteStore.CreateConfirmation` | workflow_capture/database.py:130-140 | The whole new state and answer of the call, as a step on the old state. |
| `Store.SqliteStore.ConfirmConfirmation` | workflow_capture/database.py:148-165 | The same, with every refusal. |
| `Store.SqliteStore.InsertSteps` | workflow_capture/database.py:231-243 | The step loop appends what the insertion function appends, or fails where it fails. |
| `Store.SqliteStore.InsertEvidence` | workflow_capture/database.py:244-263 | The evidence loop, carrying the previous hash, appends what the insertion function appends. |
| `Store.SqliteStore.InsertReferences` | workflow_capture/database.py:264-265 | The loop over external references appends what the insertion function appends, or fails where it fails. |
| `Store.SqliteStore.InsertChildren` | workflow_capture/database.py:231-265 | The three loops in a row equal their function. |
| `Store.SqliteStore.InsertTask` | workflow_capture/database.py:190-266 | Two-key insertion on the object's tables equals the insertion function. |
| `Store.SqliteStore.PersistConfirmed` | workflow_capture/database.py:269-295 | Consumption equals its step; any raise restores the state before the transaction. |
| `Store.SqliteStore.PersistAuthorized` | workflow_capture/database.py:298-313 | Authorised persistence equals its step; any raise restores the state before the transaction. |
| `Store.SqliteStore.VerifyEvidenceChains` | workflow_capture/database.py:348-378 | The two nested loops equal the verification of the table. |
| `Insertion.FreshInserted` | workflow_capture/database.py:205-266 | A fresh insertion adds exactly one task, one process, one path, steps 1..n in payload order, the chained evidence 1..m, one lineage row per event to that process and one row per external reference, and keeps every constraint; `ReadBack` and `Projection` say what is in these rows. |
| `Freshness.FreshInsertIff` | workflow_capture/database.py:205-266 | Given the invariant, unused identifiers and new content, no task, session, ordinal, reference or event-hash constraint can fail: the insertion succeeds exactly when every column can be bound, integers within 64 bits. |
| `Outcomes.AuthorizeIff` | workflow_capture/database.py:190-313 | With unused identifiers, persist_authorized succeeds exactly when the content is known and its session owns no other content, or the content is new, its columns can be bound and no row holds its session. |
| `Outcomes.ConsumeIff` | workflow_capture/database.py:269-295 | persist_confirmed succeeds exactly for a confirmed draft with this digest whose payload can be kept so and whose content no consumed draft has claimed. |
| `Outcomes.ConfirmIff` | workflow_capture/database.py:148-165 | A draft is confirmed exactly with a visible method, identity and source together or not at all, under the digest of a row still PREPARED; only that row changes, to the caller's method, identity and source and the call's clock. |
| `Projection.FreshProjects` | workflow_capture/database.py:205-265 | A fresh insertion makes the new task read back as its payload and leaves every other task's joins as they were. |
| `Projection.EveryTaskReadsBack` | workflow_capture/database.py:205-265 | In every store reached from a new database, each task's columns hold its payload's fields and the digest of its business reference; it has exactly one process, with the payload's summary and prerequisites, and exactly one path; its steps joined through them hold the payload's steps in the order 1..n; its evidence rows hold the payload's items in the order 1..n, written when the task was, external digests in lower case; its lineage names these events in order; and its reference rows hold the payload's references. |
| `ReadBack.ConsumeWrites` | workflow_capture/database.py:269-295 | persist_confirmed consumes the draft at its own moment for the task it names; a task it adds holds the drafted payload, was confirmed when the draft was and created now, in personal mode without authorization. |
| `ReadBack.AuthorizeWrites` | workflow_capture/database.py:298-313 | A task that persist_authorized adds holds the payload, confirmed and created now, in enterprise mode under the given authorization. |
| `ReadBack.EveryTaskReads` | workflow_capture/database.py:316-339 | In every store reached from a new database each task can be read, and the answer shows the stored payload under its digest, with the payload's own business and AI contexts, session, times and reference digest. |
| `ReadBack.CommitRead` | workflow_capture/database.py:269-339 | At any moment after a commit that added a task, the task is read as the drafted payload under its own contexts, created by the commit's clock and confirmed when the draft was. |
| `ReadBack.CaptureRead` | workflow_capture/database.py:298-339 | At any moment after a capture that added a task, the task is read as the record that passed the gate, by the capture's clock and under its authorization. |
| `Preservation.InsertKeepsInv` | workflow_capture/database.py:190-266 | Insertion keeps the store invariant. |
| `Preservation.PersistConfirmedKeepsInv` | workflow_capture/database.py:269-295 | Consumption keeps the store invariant. |
| `Runs.RunKeepsInv` | workflow_capture/database.py:102-313 | Every run of any clients keeps the store invariant at every schema version. |
| `Runs.ReachableStore` | workflow_capture/database.py:40-81 | From a new database, after any run: no two tasks share a content or a session, no two confirmations share a task, every row meets its status check, every consumed row names a task with its hash, and stored payloads match their hashes. |
| `Runs.RunForward` | workflow_capture/database.py:148-313 | Over any run statuses only move forward and stored rows are never changed or removed. |
| `Attempts.TwoKeys` | workflow_capture/database.py:190-204 | The session key refuses exactly when it owns a row with other content; otherwise known content is a duplicate naming the row that holds it. |
| `Attempts.SessionNotRemembered` | workflow_capture/database.py:202-204 | A call absorbed by content leaves its session free to bring different content as a second task. |
| `Attempts.SessionBringsTwo` | workflow_capture/database.py:190-204 | From an empty store, for any two goals and any session: a report kept without a session, its replay under the session, and another report under the same session are kept, duplicate, kept. |
| `Attempts.ExactlyOnce` | workflow_capture/database.py:298-313 | Over any interleaving with attempts failing before or after their transaction, all successes name one task and say duplicate exactly when the content was there before. |
| `Migration.MigrationAtomic` | workflow_capture/database.py:109-127 | Whatever fails, the database afterwards is migrations 1..k fully applied; success reaches the target; a newer database is refused untouched. |
| `Migration.MigrationResumes` | workflow_capture/database.py:109-127 | Resuming after any failure, or migrating in two legs, reaches what one uninterrupted run reaches. |
| `Migration.NoLaterVersion` | workflow_capture/database.py:109-115 | From version 4, any other target is refused and nothing changes. |
| `Migration.HistoryConserved` | workflow_capture/database.py:38-87 | Every old confirmation reappears once, in order, consumed for its task at its own time with its own hash and the task's payload; every task, step and evidence row survives column by column, the new columns null, empty or legacy; processes, paths, lineage and references are untouched. |
| `Migration.MigrationSucceedsIff` | workflow_capture/database.py:38-87 | From version 2 the migration succeeds exactly when every confirmation names a method, and otherwise changes nothing. |
| `Migration.MigratedEvidence` | workflow_capture/database.py:66-69 | Every old evidence row becomes legacy with its hash, and the report counts each once. |
| `Migration.MigrationEstablishesInv` | workflow_capture/database.py:38-87 | The migrated store satisfies the version 4 invariant exactly when the old payloads and confirmations agreed with their hashes. |
| `Service.Prepare` | workflow_capture/service.py:21-45 | Validate, sanitise, validate again, create: equal to its step on the store, with the findings log. |
| `Service.CheckArtifact` | workflow_capture/service.py:49-57 | The gate on an artifact, with its four refusals in order. |
| `Service.RunGate` | workflow_capture/service.py:115-132 | The gate of capture: validate, admit, sanitise, validate again, equal to its function with each refusal. |
| `Service.Confirm` | workflow_capture/service.py:48-71 | Gate, one adapter call, and the artifact updated from the returned row. |
| `Service.Commit` | workflow_capture/service.py:74-98 | Gate, one adapter call, two reads and the checks on them, equal to the step and the conclusion of which `ReadBack.CommitReported` gives every field. |
| `Service.Capture` | workflow_capture/service.py:101-180 | On the relational adapter: gate, one adapter call, one read and the checks on it; failures reported as the code reports them. |
| `Outcomes.GateIff` | workflow_capture/service.py:48-83 | confirm and commit let an artifact through exactly in their status, with an acceptable payload that no pattern matches, under its own digest. |
| `Outcomes.PrepareIff` | workflow_capture/service.py:21-45 | On a current store prepare succeeds exactly for a candidate acceptable before and after cleaning, under an unused id; it answers with the cleaned payload, its digest and the findings, adds exactly that draft, and otherwise changes nothing. |
| `Outcomes.ConfirmReported` | workflow_capture/service.py:48-71 | confirm succeeds exactly for an artifact that passes its gate and a draft that can be confirmed, and answers with the artifact under the caller's own method, identity and source and its clock, as in the row. |
| `Outcomes.CommitIff` | workflow_capture/service.py:74-85 | The transaction of commit succeeds exactly for an artifact that passes its gate and a draft that can be consumed. |
| `Outcomes.ConclusionIff` | workflow_capture/service.py:86-166 | Whatever was read, commit and capture conclude success exactly when the reads show the digest and the consumed confirmation or persisted status. |
| `Outcomes.PersonalIff` | workflow_capture/service.py:21-98 | An artifact carried unedited from prepare is confirmed exactly when no pattern matches a cleaned leaf and the method fits, and then committed exactly when the cleaned payload can be kept and its content is unclaimed. |
| `Outcomes.CaptureGateIff` | workflow_capture/service.py:115-132 | Capture reaches the store exactly for an acceptable candidate that the deployment admits and whose record is still acceptable when cleaned. |
| `Outcomes.CaptureIff` | workflow_capture/service.py:133-143 | A capture past its gate is kept exactly when its record can be; it is refused for its session exactly when that owns other content, and any other failure is a storage error that changes nothing. |
| `Protocols.PrepareMeans` | workflow_capture/service.py:21-28 | After prepare the store holds a PREPARED row with exactly the sanitised payload and its digest. |
| `Protocols.PersonalBinding` | workflow_capture/service.py:21-98 | With arbitrary edits to the artifact and arbitrary calls in between, what is confirmed and committed agrees with the prepared payload on every field but the session, and a new task stores exactly the prepared payload. |
| `Protocols.ConfirmedOnTheWay` | workflow_capture/database.py:148-165 | A row that was PREPARED and no longer is went through a successful confirmation of that row with its hash. |
| `Protocols.ConsumedOnce` | workflow_capture/database.py:269-295 | Once consumed, a confirmation is refused by every later consumption. |
| `Protocols.CommitReadBack` | workflow_capture/service.py:85-91 | The read-back checks of commit never fail, whatever other clients do before the reads. |
| `ReadBack.CommitReported` | workflow_capture/service.py:85-98 | After any calls of any clients, commit reports the row that holds the content, the digest and version in that row, its own clock as the moment of consumption, and a replay exactly when the content was there before. |
| `Protocols.CaptureReadBack` | workflow_capture/service.py:155-166 | The read-back checks of capture never fail, whatever other clients do before the read. |
| `Protocols.PreparedConfirmsIff` | workflow_capture/service.py:21-57 | An artifact that prepare made passes the gate of confirm exactly when no pattern matches any cleaned leaf of the candidate. |
| `Adapters.CaptureThrough` | workflow_capture/service.py:101-180 | capture over any adapter: every question it asks and its report, pending replies and each kind of exception included. |
| `Adapters.CommitThrough` | workflow_capture/service.py:74-98 | commit over any adapter: every question it asks and its answer. |
| `Adapters.PersistedExactlyIfShown` | workflow_capture/service.py:115-180 | Against any adapter at all, PERSISTED is reported exactly when the gate passed, the reply was not pending, and the adapter's read of the task it named showed the sanitised record's digest and persisted status; the report repeats that digest and the replay flag. |
| `Adapters.PendingExactlyIfDeferred` | workflow_capture/service.py:144-153 | Pending is reported exactly when the gate passed and the adapter deferred the record; nothing is read then. |
| `Adapters.CaptureAsks` | workflow_capture/service.py:115-161 | A refused candidate asks the adapter nothing; otherwise capture asks once to persist the sanitised record and at most once to read a task, and an exception anywhere is never a success. |
| `Adapters.CaptureRaises` | workflow_capture/service.py:133-161 | The package's own refusal of the record reaches the caller of capture; any other exception of the adapter is reported as a storage error. |
| `Adapters.CommittedExactlyIfShown` | workflow_capture/service.py:74-98 | Against any adapter at all, commit succeeds exactly when the artifact passed its gate and the adapter's reads show the digest stored and the confirmation consumed for that task. |
| `Adapters.CommitRaises` | workflow_capture/service.py:84-87 | An exception of the adapter reaches the caller of commit whichever of the three questions raised it. |
| `Adapters.RelationalCaptureShown` | workflow_capture/service.py:131-180 | An adapter that answers as the relational store does, whatever other clients do between its two answers, has the capture reported as persisted with the store's replay flag. |
| `Authorization.InjectTrustedContext` | workflow_capture/authorization.py:285-300 | Building the merged record in place equals the injection function. |
| `Authorization.InjectedGet` | workflow_capture/authorization.py:285-300 | Key by key, where each field of the merged record comes from. |
| `Authorization.NonInterference` | workflow_capture/authorization.py:285-300 | The merged session is the assertion's alone, and a context marked harness-provided is the assertion's projection, whatever the candidate said. |
| `Authorization.BusinessProjectionGet` | workflow_capture/authorization.py:290-297 | Key by key, what the injected business context holds of the assertion's. |
| `Authorization.ProjectionMarkedIff` | workflow_capture/authorization.py:290-299 | The injected business context is marked harness-provided exactly when the assertion's own provenance key does not override it; the AI context always is. |
| `Authorization.VerifiedMeans` | workflow_capture/authorization.py:206-265 | A verified assertion is complete, unexpired, authorises enterprise capture, has a session that is null or not blank, and its signature is accepted under the key pinned for its issuer. |
| `Attestation.VerifiedIff` | workflow_capture/authorization.py:206-265 | An assertion is verified exactly when the trust root, the assertion and the pinned key stand: version, class, mode, every required field, times, issuer, algorithm, key ids that do not differ where both are given, and the signature; the context is then that assertion's, of the root's class. |
| `Attestation.SignedTextIs` | workflow_capture/authorization.py:257-259 | The signed text is the canonical text of the assertion with every key but the signature. |
| `Attestation.PublicRecordGet` | workflow_capture/authorization.py:173-184 | Key by key, what the stored authorization of an attested capture holds. |
| `Authorization.NullSessionVerifies` | workflow_capture/authorization.py:243-244 | A concrete assertion whose session is null is verified. |
| `Authorization.ScopeAllowsIff` | workflow_capture/authorization.py:119-130 | A value is inside a scope exactly when the scope does not limit the key or lists the same normalised label or a star. |
| `Attestation.WithinIff` | workflow_capture/authorization.py:268-282 | A candidate is let through exactly inside the task, storage and department scopes, without another reference than the assertion's. |
| `Authorization.AdmittedWithinScope` | workflow_capture/authorization.py:206-300 | An attested capture is admitted only for a candidate that claims nothing, inside the verified task, department and storage scopes, and its record carries the assertion's session value, whatever that is. |
| `Authorization.AdmittedByGrant` | workflow_capture/authorization.py:362-426 | Without an assertion, a capture is admitted only outside production mode, on a standing enterprise grant, inside its scopes, in the development class. |
| `Attestation.GrantIff` | workflow_capture/authorization.py:362-397 | A grant is loaded exactly when it is complete, authorising and unexpired outside production mode, signed under the configured key or unsigned without one; it says how it was checked. |
| `Attestation.CoversIff` | workflow_capture/authorization.py:400-426 | A grant covers a candidate exactly in enterprise mode, with a session of its own, inside the scopes, with department and workflow only if marked as the harness's. |
| `Attestation.GrantRecordGet` | workflow_capture/authorization.py:342-352 | Key by key, what the stored authorization of a granted capture holds. |
| `Attestation.AdmittedIff` | workflow_capture/service.py:117-129 | A capture is admitted exactly with a configured assertion for a candidate that claims nothing, inside a verified assertion's scopes, or without one under a covering grant. |
| `Authorization.MismatchUnreachable` | workflow_capture/authorization.py:279-282 | The reference-mismatch refusal cannot be reached by a candidate that passed the untrusted-candidate rules. |
| `Authorization.TrustClass` | workflow_capture/authorization.py:206-265 | Every admission carries the class its environment demands, production only on an accepted signature over the assertion without its signature. |
| `Admission.GateTrust` | workflow_capture/service.py:116-132 | The same for every capture that passes the whole gate, and the class is in the stored authorization. |
| `Admission.SessionBoundIff` | workflow_capture/authorization.py:243-244 | The record of an attested capture carries a nonblank session string exactly when the assertion's session is not null. |
| `Admission.ProductionNeedsSignature` | workflow_capture/authorization.py:362-371 | In production mode, without an accepted signature, every capture fails and leaves the store untouched. |
| `Admission.CaptureReported` | workflow_capture/service.py:131-180 | A successful capture is later read back as persisted with the class of its environment, and says replay exactly when the content was there before. |
| `Admission.SameRecord` | workflow_capture/authorization.py:285-300 | The same candidate under the same assertion gives the same record whenever it passes the gate, whatever else changed, and the same class under the same trust root. |
| `Admission.CaptureExactlyOnce` | workflow_capture/service.py:131-180 | Any number of tries of one candidate under one assertion, refused, failing before or after the transaction, or interleaved with others, while anything else in the deployment changes, amount to one task that every success names. |
| `CleanStore.NothingForbiddenStored` | workflow_capture/validation.py:51-59 | From any database whose consumable drafts hold none, migrated history included: after any run of service calls, every task and draft stored since loads to a payload without a forbidden key at any depth. |
| `CleanStore.NoMixedChains` | workflow_capture/database.py:358-361 | From a version 2 database with any history, or a later one with pure chains and honest consumable drafts: after any run of service calls no task's chain mixes legacy and new rows. |
| `Redaction.SanitizeString` | workflow_capture/redaction.py:26-32 | The pattern loop computes the cleaned string and appends one finding per pattern that matched. |
| `Redaction.Sanitize` | workflow_capture/redaction.py:35-51 | The recursive rewrite computes the cleaned tree and appends its findings to the shared log. |
| `Redaction.CleanKeepsShape` | workflow_capture/redaction.py:35-51 | Keys, list lengths and non-string leaves are unchanged. |
| `Redaction.NoFindingsNoChange` | workflow_capture/redaction.py:26-51 | No findings means an identical output. |
| `Redaction.FindingsFollowLeaves` | workflow_capture/redaction.py:26-51 | The findings are those of the string leaves in traversal order. |
| `RedactionPaths.LeafIff` | workflow_capture/redaction.py:35-51 | The leaves are exactly the strings that a route of keys and indices leads to, each under the text of its route. |
| `RedactionPaths.FindingIff` | workflow_capture/redaction.py:26-51 | A finding is logged exactly for a leaf and a pattern that matches what the earlier patterns have made of it, under the leaf's path. |
| `Redaction.SecondPassQuietIff` | workflow_capture/redaction.py:26-51 | For any patterns and any tree, a second pass finds nothing exactly when no pattern matches any cleaned leaf, and then it changes nothing. |
| `Redaction.IdempotentIff` | workflow_capture/redaction.py:26-51 | Where every replacement lowers some rank of the text, sanitising twice equals sanitising once exactly when no pattern matches any cleaned leaf. |
| `RedactionPatterns.MasksLower` | workflow_capture/redaction.py:13-20 | Replacing a labelled credential or a payment card lowers the number of digits and of the letters s, o and k in the text. |
| `RedactionSyntax.CredentialIff` | workflow_capture/redaction.py:13 | The credential pattern matches at a position exactly when the text spells one there: a label in any case between word boundaries, a colon or equals sign with space around it, perhaps a quote, six or more characters; the match is the longest. |
| `RedactionSyntax.CardIff` | workflow_capture/redaction.py:20 | The card pattern matches at a position exactly when thirteen to nineteen digits, each with an optional blank or dash after it, stand there with no digit before or behind. |
| `RedactionPatterns.NotIdempotent` | workflow_capture/redaction.py:11-32 | With these two patterns second and ninth of eleven, a leaf that holds a labelled card number is changed again by a second pass. |
| `Validation.ScanForbidden` | workflow_capture/validation.py:51-59 | The recursive scan appends one problem per forbidden key, in order. |
| `Validation.ScanIff` | workflow_capture/validation.py:51-59 | The scan finds nothing exactly when no key at any depth is forbidden. |
| `Validation.ScanUnchangedByCleaning` | workflow_capture/service.py:22-24 | Sanitising does not change the verdict of the scan. |
| `Validation.ValidateCandidate` | workflow_capture/validation.py:171-264 | The checks append to one log, and the candidate is returned exactly when the log stays empty. |
| `Acceptance.AcceptsIff` | workflow_capture/validation.py:171-264 | A candidate is accepted exactly when it holds no forbidden key and every field is as required: names, texts and their lengths, instants, durations, contexts, steps with their confidence, the adoption status and the evidence items, retained or external. |
| `Acceptance.FullAccepted` | workflow_capture/validation.py:171-264 | A concrete candidate that gives every optional field is accepted. |
| `Acceptance.LabelledIff` | workflow_capture/validation.py:179-180 | Nothing is left of a normalised task type exactly when its text is all space. |
| `Acceptance.ForbiddenIff` | workflow_capture/validation.py:54 | A key is forbidden exactly when it spells one of the names, in any case and with any space around it. |
| `Acceptance.UntrustedIff` | workflow_capture/validation.py:130-168 | An untrusted candidate passes exactly when it names no session, does not claim to be the harness, and gives none of the harness's fields. |
| `Acceptance.DigestSpellings` | workflow_capture/database.py:172-187 | Two external items that differ in their digest alone are recorded alike exactly when the digests are one digest in whatever case, which is stored in lower case. |
| `Validation.AcceptedItem` | workflow_capture/validation.py:227-261 | An accepted evidence item never becomes legacy, and its row verifies exactly when four free fields are strings or null. |
| `Validation.AcceptedYetReported` | workflow_capture/validation.py:227-261 | A concrete accepted item whose freshly inserted row is reported as failed. |
| `Memory.MemoryAdapter.InsertTask` | tests/fixtures/memory_adapter.py:60-88 | The dict-based insertion, with its scan for the content, equals the specification step. |
| `Memory.MemoryAdapter.FindByContent` | tests/fixtures/memory_adapter.py:67-69 | The scan of the tasks finds the one task with the content, if there is one. |
| `Memory.MemoryAdapter.SimilarTasks` | tests/fixtures/memory_adapter.py:109-116 | With a limit, the answer is the newest-first prefix of exactly the tasks with an equal label. |
| `Memory.MemoryAdapter.PersistConfirmed` | tests/fixtures/memory_adapter.py:90-98 | Consumption on the dicts equals the specification step. |
| `Refinement.StepRefines` | workflow_capture/database.py:130-313 | One call on related stores: same refusal, or same answer and related stores; the relational one aborts exactly when the draft is confirmed and the task that holds its content is already claimed. |
| `Refinement.RunRefines` | workflow_capture/database.py:130-313 | Whole runs keep the stores related and answer every call alike. |
| `Refinement.ReadsAgree` | workflow_capture/database.py:316-339 | On related stores the same tasks and confirmations are known and read back the same in every field that both adapters return, JSON with its keys sorted. |
| `Refinement.SimilarAgrees` | workflow_capture/database.py:342-345 | On related stores, for any limit from zero up, the relational answer to `similar_tasks` is one the reference adapter may give, with the same type and adoption status per task. |

## Left out

- The `derived_knowledge` table has no write API and no rows here.
- Nine of the eleven redaction patterns, HMAC and Ed25519, base64, UUID generation, the clock and ISO-8601 parsing are parameters; each call reads the clock once, where the code may read it several times in one call. In the two patterns written out, word characters and digits are the ASCII ones, and case folding is that of ASCII letters and the Kelvin sign.
- The columns `confidence` (REAL) and `duration_ms` (INTEGER) hold the value as bound; the number an affinity makes of a numeric string is not modelled.
- `str()` of a list, a dict or a digest is a fixed text, so scope checks and labels on such values are coarser than in Python.
- Python's equality across number types (1 == 1.0 == True) is modelled where a version number is compared with 1, not inside whole JSON values; a list or dict used where Python needs a hashable value is reported as a refusal rather than as a TypeError.
- NaN and infinite floats, which `json.dumps` would write, are not JSON values here.
- SQLite locking, WAL and crash durability: a transaction is one atomic step. The row that `confirm_confirmation` reads after its commit is read in the same step.
- The environment variables and the files they name are a record value; adapter loading, the command line, the installer and the scripts are not part of this model.
- The texts of error messages, the confirmation summary and the list of inferred steps in the prepared artifact, and the redactions repeated in capture's report: plain copies of values the model holds.
- In-place aliasing in the reference adapter (a dict keeps the caller's payload object) is not modelled: payloads are values.
- A negative limit, which the reference adapter and SQLite treat differently, is outside the comparison of `similar_tasks`; SQLite does not say in which order it returns tasks created at the same moment.
- Labels.NormalizeIdempotent: lower-casing is that of ASCII letters and the Kelvin sign; other Unicode case mappings are not modelled.
- Labels.NormalizeIdentifies: the same.
- Service.Capture: runs on the relational adapter, which never defers; an arbitrary adapter, pending replies included, is `Adapters.CaptureThrough`.
- Refinement.StepRefines: compares calls with unused identifiers, payloads whose columns can be bound, a session that is null or a nonempty string, a nonblank method, and identity and source given together; outside these the reference adapter does not refuse what the relational store refuses.
- Refinement.RunRefines: the same, for every call of the run.
- Admission.CaptureExactlyOnce: the tries share their assertion, or none of them has one; a rotated assertion with another session is another capture.
