# Verification of Evidentia's governance core

Evidentia's guarantees are carried by small state machines over tables and by a few self-contained algorithms. This
project models them in Dafny and proves what they promise, over every input, every reachable state and every run:

- **Publication** (`PublicationPolicy`, `Pipeline*`): the draft and approval state machines, with an inductive
  invariant over both and the ledger. Four eyes, approval bound to the exact payload, single consumption, edits that
  void everything downstream, records that are always about the present text.
- **Audit ledger** (`CanonicalJson`, `CanonicalText`, `Ledger*`, `Transactions`, `AuditLedgerService`,
  `AuditSessions`): canonical serialisation as a canonical form that survives storage, the hash chain and its tamper
  evidence, appends under nested, joined and rolled-back transactions, and cached verification over whole sessions.
- **Knowledge store** (`Rows`, `Redaction`, `Knowledge*`, `TenantIsolation`, `Quarantine*`): the full-text
  mirror, cascades and the unscoped orphan sweep, isolation between tenants, quarantine and release, redaction.
- **Model access, routing and budgets** (`ModelAccess`, `CostMeter`, `Router*`, `BudgetBound`): early exits against
  the declarative rule, stable ranking, fallback inside the allowed set, and a bound on hard budgets over whole runs.
- **Algorithms**: the SPDX expression parser and evaluator (`Licences`), the chunk packing loop and heading paths
  (`Chunker`, `HeadingPaths`), robots.txt (`Robots`), Wilson intervals (`Wilson`), the login limiter (`LoginLimiter`).

Each operation is a function on values (the specification) and, where the code changes tables or runs a loop, also a
class or method in the code's own form whose contract is that function; the theorems are about the functions. `Inv` in
`PipelineInvariant` and in `KnowledgeInvariant` are the invariants every step keeps; `PipelineEffects` and
`KnowledgeEffects` state, column by column, what each operation does and where the rows of a run come from.

What the code demands of its callers appears as preconditions: tenants and actors are not empty (the ledger refuses
them), states handed to the ledger are ordinary JSON values, prices are not negative, clocks do not go back between
operations of the router and of the limiter. Operations run one after the other. `publish` is one operation with two
clock readings, before and after the adapter call.

Where the code does not keep a promise on all inputs, the condition under which it does is proved in both directions,
and a concrete input shows the failure:

- Four eyes looks at the first 10,000 ledger events of a draft only (`FourEyesExact`, `LongHistoryDefeatsFourEyes`).
- The publish event names the draft's last reviewer as approver, who may be someone who rejected an earlier version
  (`PublishEventNamesApprover`, `PublishEventNamesRejecter`).
- A successful adapter call whose approval lapses before the second clock reading leaves the text published outside
  and the row in flight (`PublishedOutsideIsRecorded`, `PublishedOutsideStaysInFlight`).
- An optional ledger id that is the empty string breaks verification of the chain (`AppendKeepsIntact`,
  `AnyMixVerifies`, `EmptyIdBreaksChain`).
- `canonicalJson` gives an undefined array element the text of null (`CanonicalTextIsExact`,
  `UndefinedElementCollides`).
- Metadata in which the caller sets `quarantine` makes a held document that is mined all the same
  (`FlaggedIngestIsExact`, `FlaggedIngestIsLoud`).
- Inner transactions are not savepoints (`FailureRestoresExactly`, `CaughtInnerFailureKeepsWrites`).
- Redaction can leave or create the term. It leaves nothing to find, after every run, exactly when the replacement is
  erasing: it does not hold the term, does not end as the term begins, and does not go on as the term does after text
  that can stand before a match (`RedactionIsExact`, `DefaultReplacementCanLeaveTheTerm`,
  `EmptyReplacementCanLeaveTheTerm`).
- A failed embedding call leaves no meter row and no event, although the router's header comment says that every
  attempt is metered and audited (`FailedEmbeddingLeavesNoTrace`, `FailedCallIsNotRecorded`).
- The licence gate judges what its parser read and drops the rest: with MIT alone allowed, `MIT ) AND GPL-3.0` passes
  (`ParserReads`, `StrayParenthesisHidesTheRest`).
- A unit longer than the target loses its rest, unless the window after it is small and merging brings the rest back
  (`LongUnitIsCut`, `LongUnitLosesItsRest`). A window that reaches the end of the text is followed by a chunk that only
  repeats part of it exactly when there is an overlap and the window holds several sentences (`TailIsRepeated`,
  `TwoUnitsRepeatOne`).
- Heading paths lose an ancestor once a skipped level is closed (`PathIsAncestorChain`, `SkippedLevelLosesParent`).
- `$` before the end of a robots.txt pattern anchors there, where section 2.2.3 of RFC 9309 gives it its meaning at
  the end only: code and standard agree on every path exactly when no `$` comes before the last position
  (`DollarAgreement`, `MiddleDollarDiffers`).

## Model

| member | source | states |
|---|---|---|
| PublicationPolicy.Decide | packages/core/src/governance/policy.ts:202-246 | denied exactly when some blocking condition holds, approval required exactly when none does and some approval condition holds; disclosure exactly for AI-assisted text under a policy that wants it, marking exactly when the policy wants that too |
| PublicationPolicy.EvaluatePublication | packages/core/src/governance/policy.ts:202-246 | the evaluator that pushes findings and then reads off the effect computes that decision, with findings in order |
| PublicationPolicy.BlockersAreExact | packages/core/src/governance/policy.ts:207-212 | the blockers name exactly the blocking conditions that hold, with their numbers |
| PublicationPolicy.ReasonsAreExact | packages/core/src/governance/policy.ts:223-232 | the reasons for asking name exactly the approval conditions that hold |
| PublicationPolicy.FindingsAreExact | packages/core/src/governance/policy.ts:217-246 | a denial states its blockers alone; any other decision states why it asks and warns exactly when readiness is neither assessed nor asked for |
| PipelineInvariant.StepKeeps | packages/core/src/publishing/pipeline.ts:121-290 | every operation, successful or throwing, keeps the invariant over drafts, approvals, publications and ledger |
| PipelineInvariant.RunKeeps | packages/core/src/publishing/pipeline.ts:121-290 | so does every run |
| PipelineInvariant.UpdateKeeps | packages/core/src/publishing/pipeline.ts:147-158 | an edit, which voids gate and approval, keeps the invariant |
| PipelineInvariant.VerifyKeeps | packages/core/src/publishing/pipeline.ts:161-176 | so does re-verification |
| PipelineInvariant.GateKeeps | packages/core/src/publishing/pipeline.ts:179-197 | so does the gate, whichever way the policy decides |
| PipelineInvariant.DecideKeeps | packages/core/src/publishing/pipeline.ts:211-219 | so does a human decision, including the one that only expires a stale approval |
| PipelineInvariant.PublishKeeps | packages/core/src/publishing/pipeline.ts:255-290 | so does publishing, including a failed adapter and an approval that lapses while the adapter runs |
| PipelineInvariant.RetentionKeeps | packages/core/src/governance/retention.ts:31-42 | so does the retention job's bulk expiry |
| PipelineInvariant.LinkFacts | packages/core/src/publishing/pipeline.ts:179-219 | a draft's approval is about that draft, for its present payload, with matching statuses, undecided by any contributor |
| PipelineTheorems.PublishedWasApproved | packages/core/src/publishing/pipeline.ts:255-290 | over every run, a published draft whose gate required approval has one, consumed once, for its exact payload, within 30 days of the request, decided by neither the requester nor a contributor |
| PipelineTheorems.ApprovalBindsContent | packages/core/src/publishing/pipeline.ts:292-294 | with collision-free hashing the approval binds body, title, slug and AI flag themselves |
| PipelineTheorems.PayloadNeverChanged | packages/core/src/governance/approvals.ts:181-195 | through the pipeline the payload-changed branch is unreachable: an approved draft is refused only because its approval expired |
| PipelineTheorems.FourEyesExact | packages/core/src/publishing/pipeline.ts:200-219 | no contributor can decide a decidable approval exactly when the 10,000-event read (with the requester) names every contributor |
| PipelineTheorems.LimitNotReached | packages/core/src/publishing/pipeline.ts:200-208 | up to 10,000 events the limited read names everyone |
| PipelineTheorems.CreatorsAreRemembered | packages/core/src/publishing/pipeline.ts:121-131 | whoever creates a draft stays a contributor in every continuation of the run |
| PipelineTheorems.EditorsAreRemembered | packages/core/src/publishing/pipeline.ts:147-158 | whoever edits a draft stays a contributor in every continuation of the run |
| PipelineTheorems.FourEyesOverRuns | packages/core/src/publishing/pipeline.ts:200-219 | over every run, the one who approved a published draft with at most 10,000 events never created or edited it |
| PipelineLimits.LongHistoryDefeatsFourEyes | packages/core/src/publishing/pipeline.ts:204-206 | past 10,000 events a recent editor can approve the draft |
| PipelineTheorems.ConsumptionIsConserved | packages/core/src/governance/approvals.ts:197-216 | consumed approvals and published drafts that carry one are in bijection |
| PipelineTheorems.OneLiveRow | packages/core/src/publishing/pipeline.ts:270-283 | a draft has one published row if it is published and none otherwise, with the published text and its hash |
| PipelineTheorems.DroppedIsNeverConsumed | packages/core/src/publishing/pipeline.ts:147-176 | an approval that its draft no longer points to is never consumed later, whatever happens |
| PipelineTheorems.VoidedIsNeverConsumed | packages/core/src/publishing/pipeline.ts:147-176 | over every run, the approval a draft had before a successful edit or re-verification is never consumed afterwards, and the ledger has no consumption of it |
| PipelineTheorems.FinalIsAbsorbing | packages/core/src/governance/approvals.ts:128-216 | rejected, expired and consumed approvals are never touched again |
| PipelineTheorems.PublishedIsImmutable | packages/core/src/publishing/pipeline.ts:147-164 | published drafts never change |
| PipelineTheorems.FailedPublishIsRetryable | packages/core/src/publishing/pipeline.ts:272-280 | a failed adapter call leaves draft and approval rows as they were, and a retry in time succeeds |
| PipelineTheorems.PublishedOutsideIsRecorded | packages/core/src/publishing/pipeline.ts:255-290 | once the start checks pass and the adapter has published, the publication is recorded exactly when there is no approval or it is still in time; otherwise the row stays in flight, the draft approved and the approval expired |
| PipelineTheorems.RecordsAreCurrent | packages/core/src/publishing/pipeline.ts:147-197 | past draft, the stored verification is that of the present text and the stored gate is the policy's decision on it |
| PipelineTheorems.PublishedIsSupported | packages/core/src/publishing/pipeline.ts:179-197 | with claim blocking on, published text has no unsupported claim and no placeholder |
| PipelineTheorems.PublishedIsMarked | packages/core/src/publishing/pipeline.ts:227-290 | where marking was required the live row has a manifest of the published body that names the approval and its approver |
| PipelineTheorems.RetentionChangesNoAnswer | packages/core/src/governance/retention.ts:31-36 | bulk expiry and expiry on access agree: running the job first changes no decision, no consumption and no resulting approval |
| PipelineEffects.SlugsAreExact | packages/core/src/publishing/pipeline.ts:122 | which slugs are proper, built up character by character, up to 121 of them |
| PipelineEffects.CreateStores | packages/core/src/publishing/pipeline.ts:121-131 | a draft is created exactly under a proper slug the tenant does not use; every column is the given value, the author the actor if none is given |
| PipelineEffects.UpdateEdits | packages/core/src/publishing/pipeline.ts:147-158 | title, body, evidence and AI flag are the given value or else the old one; author, slug, topics and source kinds stay; the readiness score stays exactly if it is a target page's |
| PipelineEffects.VerifyRecords | packages/core/src/publishing/pipeline.ts:161-176 | stores the report on the present body and evidence and, unless a target page was scored, the score of the rendered draft; the text itself stays |
| PipelineEffects.GateOutcome | packages/core/src/governance/policy.ts:202-246 | the decision on a draft, read off policy and columns: what denies it, what sends it to a human, and disclosure and marking exactly for AI-assisted text under a policy that wants them |
| PipelineEffects.GateActs | packages/core/src/publishing/pipeline.ts:179-197 | blocks, asks or approves accordingly; exactly when it asks there is a new pending approval by this actor, at this moment, for the payload the draft has |
| PipelineEffects.DecisionActs | packages/core/src/publishing/pipeline.ts:211-219 | goes through exactly for a pending request of at most 30 days and someone who neither asked nor contributed; a grant approves, a refusal rejects, and both name who decided |
| PipelineEffects.DeciderIsOutsider | packages/core/src/publishing/pipeline.ts:200-219 | whoever decides a draft is neither its author nor the actor of a create or update among its first 10,000 events |
| PipelineEffects.RefusedDecision | packages/core/src/governance/approvals.ts:142-160 | a refused decision at most expires the draft's own approval, when it is more than 30 days old, and the error says why |
| PipelineEffects.NoRowWithoutChecks | packages/core/src/publishing/pipeline.ts:255-265 | unless every check passes at the moment publishing starts there is no row and no event, whatever the adapter would answer and however long it took |
| PipelineEffects.LapsedApprovalStopsPublish | packages/core/src/publishing/pipeline.ts:265 | in particular with an approval that is not granted, or more than 30 days old at the start |
| PipelineEffects.PublishRefusals | packages/core/src/publishing/pipeline.ts:256-265 | which error stops a publication, in the order of the checks |
| PipelineEffects.PublishOutcome | packages/core/src/publishing/pipeline.ts:265-283 | once the checks pass there is one row with the present body for this target, signed exactly when there is a key; success exactly when the adapter succeeds and the approval is still in time |
| PipelineEffects.PublishActs | packages/core/src/publishing/pipeline.ts:281-288 | success marks the draft published and changes nothing else of it; the last event says who published what, with the recorded reviewer |
| PipelineEffects.PublishConsumes | packages/core/src/governance/approvals.ts:197-216 | and consumes the draft's approval, if it has one, and no other, with an event of its own |
| PipelineEffects.RetentionIsExact | packages/core/src/governance/retention.ts:31-42 | the job expires exactly the tenant's open approvals requested more than 30 days ago |
| PipelineEffects.RowsComeFromPublishes | packages/core/src/publishing/pipeline.ts:255-290 | over every run, every publication row was put by one publish that passed all its checks, with the body and manifest of that moment, and no later operation touches it |
| PipelineEffects.ApprovalsComeFromGates | packages/core/src/publishing/pipeline.ts:179-197 | over every run, every approval was asked for by one gate that sent its draft to a human, for the payload of that moment; who asked, when and for what never changes |
| PipelineEffects.GrantsComeFromDecisions | packages/core/src/publishing/pipeline.ts:211-219 | over every run, every approval that is granted or consumed was granted by one decision, in time and by an outsider, who is the one it names |
| PipelineEffects.AuthorNeverDecides | packages/core/src/publishing/pipeline.ts:200-219 | over every run, nobody approved or rejected a draft they are the author of, however long its history |
| PipelineEffects.AiTextIsMarked | packages/core/src/governance/policy.ts:214-215 | under a policy that wants AI-assisted text disclosed and marked, over every run every live row of AI-assisted text has a manifest of the published body that says so |
| PipelineEffects.PublishedPassedPolicy | packages/core/src/governance/policy.ts:202-246 | over every run, nothing the policy blocks is published, and what it sends to a human was granted by a decision of the run |
| PipelineLimits.PublishEventNamesApprover | packages/core/src/publishing/pipeline.ts:284-288 | the publish event names the approver exactly when there was an approval or never a reviewer |
| PipelineLimits.PublishEventNamesRejecter | packages/core/src/publishing/pipeline.ts:284-288 | a run in which it names someone who rejected an earlier version |
| PipelineLimits.PublishedOutsideStaysInFlight | packages/core/src/publishing/pipeline.ts:255-290 | a run from the empty state that ends with the text out, the row in flight, the draft approved and the approval expired |
| PipelineService.ApprovalService.Request | packages/core/src/governance/approvals.ts:80-113 | inserts a pending approval for the payload and logs it |
| PipelineService.ApprovalService.Expire | packages/core/src/governance/approvals.ts:128-135 | expires an open approval older than 30 days, and returns the row as it now is |
| PipelineService.ApprovalService.Decide | packages/core/src/governance/approvals.ts:142-174 | decides a pending approval unless the actor is excluded; expiry persists even when it throws |
| PipelineService.ApprovalService.CheckValid | packages/core/src/governance/approvals.ts:181-195 | granted, unexpired and for this payload, else the matching error |
| PipelineService.ApprovalService.Consume | packages/core/src/governance/approvals.ts:197-216 | consumes a valid approval and logs it |
| PipelineService.ContentPipeline.Create | packages/core/src/publishing/pipeline.ts:121-131 | creates a draft or rejects the slug |
| PipelineService.ContentPipeline.Update | packages/core/src/publishing/pipeline.ts:147-158 | the statements of an edit; what it keeps, takes and voids is stated by UpdateEdits |
| PipelineService.ContentPipeline.Verify | packages/core/src/publishing/pipeline.ts:161-176 | stores the report of the present text and drops gate and approval |
| PipelineService.ContentPipeline.Gate | packages/core/src/publishing/pipeline.ts:179-197 | stores the policy's decision, asking for approval when required |
| PipelineService.ContentPipeline.ReadContributors | packages/core/src/publishing/pipeline.ts:200-208 | the loop over ledger events collects author, creators and editors of the first 10,000 events |
| PipelineService.ContentPipeline.DecideOn | packages/core/src/publishing/pipeline.ts:211-219 | passes the decision on with the contributors excluded |
| PipelineService.ContentPipeline.Publish | packages/core/src/publishing/pipeline.ts:255-290 | the whole sequence of checks, row, adapter outcome, consumption and final updates; no row and no event unless every check passes at the start |
| PipelineService.ExpireStaleApprovals | packages/core/src/governance/retention.ts:31-42 | the job's single UPDATE and its event |
| CanonicalJson.SortKeysIsCanonical | packages/core/src/shared/hash.ts:17-29 | equal results exactly for values that agree up to key order and undefined-valued keys at every depth |
| CanonicalJson.SortKeysIdempotent | packages/core/src/shared/hash.ts:17-29 | sorting twice is sorting once |
| CanonicalJson.KeysAscend | packages/core/src/shared/hash.ts:17-29 | the keys of a canonicalised object ascend and none of its values is undefined |
| CanonicalJson.BeforeMeans | packages/core/src/shared/hash.ts:17-29 | a key comes before another exactly when it is a proper beginning of it or smaller where they first differ |
| CanonicalText.PrintedExample | packages/core/src/shared/hash.ts:13-15 | the text of a value of every kind, token by token |
| CanonicalText.ParsePrint | packages/core/src/shared/hash.ts:13-15 | parsing the text of any value gives the value JSON writes for it, and leaves what follows |
| CanonicalText.CanonicalTextIsExact | packages/core/src/shared/hash.ts:8-15 | two values have equal canonical text exactly when they are the same once undefined array elements read as null |
| CanonicalText.AnyTextDecides | packages/core/src/audit/ledger.ts:87-108 | any text that parses, canonical or not and with repeated keys or not, reads back to the canonical text of a value exactly when it says that value |
| CanonicalText.RepeatedKeyTakesLast | packages/core/src/audit/ledger.ts:105-107 | a repeated key reads as its last value |
| CanonicalText.CanonicalTextDecides | packages/core/src/shared/hash.ts:8-15 | hence, without undefined array elements, equal canonical text exactly for the same value |
| CanonicalText.UndefinedElementCollides | packages/core/src/shared/hash.ts:13-15 | two different values with one canonical text |
| CanonicalText.StoredTextIsStable | packages/core/src/audit/ledger.ts:87-108 | a state stored as canonical text, parsed and canonicalised again has the same text, so it hashes as it did on append |
| LedgerTheorems.VerdictMeansIntact | packages/core/src/audit/ledger.ts:204-218 | verification succeeds exactly for intact chains, with the true count and head hash |
| LedgerTheorems.AppendKeepsIntact | packages/core/src/audit/ledger.ts:120-161 | appending keeps the chain intact exactly when every optional id is absent or non-empty |
| LedgerTheorems.AppendHolds | packages/core/src/audit/ledger.ts:136-157 | the appended row holds what was handed in, column by column, and each state reads back to its canonical text, null if not given |
| LedgerTheorems.ReadingIsEveryColumn | packages/core/src/audit/ledger.ts:64-108 | two rows read the same exactly when no column but the hash tells them apart, empty and absent optional ids aside |
| Transactions.EmptyIdBreaksChain | packages/core/src/audit/ledger.ts:91-103 | one event with an empty request id makes a ledger that does not verify |
| LedgerTheorems.HeadDeterminesHistory | packages/core/src/audit/ledger.ts:64-85 | two non-empty verified ledgers with the same head hash hold the same events in the same order |
| LedgerTheorems.EditIsReported | packages/core/src/audit/ledger.ts:204-218 | changing a row but not its number and stored hash goes unreported exactly when it reads the same; otherwise the report names that row |
| LedgerTheorems.ForgedStateIsReported | packages/core/src/audit/ledger.ts:204-218 | replacing a stored state by other text that parses goes unreported exactly when that text says the same value |
| LedgerTheorems.RenumberingIsReported | packages/core/src/audit/ledger.ts:204-210 | giving a row another number is reported as a sequence gap |
| LedgerTheorems.RewriteIsReported | packages/core/src/audit/ledger.ts:204-218 | rewriting row i consistently, hash included, is reported at i + 1 |
| LedgerTheorems.RemovalIsReported | packages/core/src/audit/ledger.ts:204-218 | removing a non-last row is reported at the row after it; removing the last is not seen |
| LedgerTheorems.CachedVerdictIsTrue | packages/core/src/audit/ledger.ts:220-237 | for two tables that came about by appending, equal head hash and count mean the same verdict |
| Transactions.ExecKeepsAppended | packages/core/src/audit/ledger.ts:120-161 | any program of appends, with exceptions caught and transactions rolled back anywhere, leaves a table that came about by appending |
| AuditSessions.CachedAnswersAreTrue | packages/core/src/audit/ledger.ts:220-237 | after any sequence of programs, transactions committed or rolled back and earlier cached verifications, inside transactions or not, the cached answer is what a full walk would say |
| AuditLedgerService.AuditLedger.AppendEvent | packages/core/src/audit/ledger.ts:120-161 | refuses exactly an empty tenant, actor, action, object type or object id; otherwise one more row, linked to the last, that holds every column of the entry and states that read back |
| AuditLedgerService.AuditLedger.Verify | packages/core/src/audit/ledger.ts:204-218 | the walk computes the verdict on the first bad row |
| AuditLedgerService.AuditLedger.VerifyCached | packages/core/src/audit/ledger.ts:220-237 | answers from memory exactly when head hash and count are the remembered ones, and always what the full walk answers |
| Transactions.Database.Run | packages/core/src/storage/database.ts:36-55 | running appends and transactions against the connection, with its depth counter, does what the specification says, closes what it opened and keeps a table that came about by appending one |
| Transactions.Database.Transact | packages/core/src/storage/database.ts:40-55 | BEGIN, COMMIT and ROLLBACK around a callback; nested calls join; an exception that leaves the outermost transaction leaves exactly the prior table |
| Transactions.ExecChainsSurvivors | packages/core/src/storage/database.ts:36-55 | any program leaves the old rows followed by the chained surviving entries |
| Transactions.ChainedHolds | packages/core/src/audit/ledger.ts:120-161 | the i-th surviving entry is in row i after the old ones, as it was handed in |
| Transactions.AnyMixVerifies | packages/core/src/audit/ledger.ts:120-161 | any mix of nested, committed, caught and rolled-back appends leaves the old rows and then one row per survivor, in order and holding what was handed in, numbered from 1, and verifies exactly when no survivor has an empty optional id |
| Transactions.FailureRestoresExactly | packages/core/src/storage/database.ts:40-55 | a transaction that fails restores the prior table exactly when it was the outermost one or nothing in it had survived |
| Transactions.CaughtInnerFailureKeepsWrites | packages/core/src/storage/database.ts:41-42 | a caught inner failure keeps what it wrote |
| Licences.Parser.Primary | scripts/licenses.ts:37-47 | the descent over the shared index parses what the specification parses and moves the index accordingly |
| Licences.Parser.AndExpr | scripts/licenses.ts:48-52 | likewise for conjunctions |
| Licences.Parser.OrExpr | scripts/licenses.ts:53-57 | likewise for disjunctions |
| Licences.ParseExpr | scripts/licenses.ts:35-59 | terminates on every token list with the specified expression |
| Licences.RoundTrip | scripts/licenses.ts:35-59 | printing with parentheses and parsing returns the expression with all tokens consumed, exactly when operators have two or more terms and no identifier is a parenthesis |
| Licences.MinimalRoundTrip | scripts/licenses.ts:35-59 | so does printing with the fewest parentheses, AND binding tighter than OR |
| Licences.AndBindsTighter | scripts/licenses.ts:48-57 | without parentheses AND binds tighter than OR, on either side |
| Licences.AnyCapitalisation | scripts/licenses.ts:50-55 | the operators are the words "and" and "or" in any capitalisation and nothing else |
| Licences.TrimIsExact | scripts/licenses.ts:63 | an identifier is compared without the blanks at its ends and with everything between them |
| Licences.ParserReads | scripts/licenses.ts:35-59 | the parser stops, silently, exactly where a one-pass scan that knows only whether an operand is due and how many parentheses are open finds a token it cannot use |
| Licences.StrayParenthesisHidesTheRest | scripts/licenses.ts:35-66 | a stray closing parenthesis hides the rest of an expression from the gate |
| Licences.SatisfiableIsDnf | scripts/licenses.ts:61-66 | satisfiable exactly when some alternative of the disjunctive normal form uses allowed licences only |
| Licences.SatisfiableIsMonotone | scripts/licenses.ts:61-66 | allowing more licences never makes a package non-compliant |
| KnowledgeSteps.StepKeeps | packages/core/src/knowledge/store.ts:119-454 | every operation keeps keys, references, the full-text mirror and the absence of orphans |
| KnowledgeSteps.RunKeeps | packages/core/src/knowledge/store.ts:119-454 | so does every run |
| KnowledgeInvariant.DeleteKeeps | packages/core/src/knowledge/store.ts:473-479 | deleting documents, with cascades and sweep, keeps the invariant |
| KnowledgeSteps.IngestKeeps | packages/core/src/knowledge/store.ts:154-256 | so do superseding and ingesting |
| KnowledgeSteps.QuarantineKeeps | packages/core/src/knowledge/store.ts:392-454 | so do holding and releasing |
| KnowledgeSteps.RedactKeeps | packages/core/src/knowledge/store.ts:348-384 | so does redaction |
| KnowledgeSteps.EraseKeeps | packages/core/src/governance/retention.ts:66-77 | so does erasing a tenant in the given order |
| KnowledgeTheorems.MirrorOverRuns | packages/core/src/knowledge/store.ts:205-248 | after any run every chunk has exactly one full-text row with its text, heading and tenant, and there are no others |
| KnowledgeTheorems.NoOrphansOverRuns | packages/core/src/knowledge/store.ts:205-248 | after any run a source has at most one document and every entity a mention |
| KnowledgeTheorems.QuietOverRuns | packages/core/src/knowledge/store.ts:226-230 | over runs that leave the flag to the scan, quarantined documents own no claims and no mentions |
| KnowledgeTheorems.FlaggedIngestIsExact | packages/core/src/knowledge/store.ts:190-192 | ingesting clean content keeps that exactly when the caller's metadata does not set the flag or nothing is found |
| KnowledgeTheorems.FlaggedIngestIsLoud | packages/core/src/knowledge/store.ts:190-192 | a run in which clean content ingested with the flag is held and mined |
| TenantIsolation.OthersCannotTouch | packages/core/src/knowledge/store.ts:473-479 | whatever other tenants do, in any order, the rows of a tenant stay as they are, despite the unscoped sweep |
| TenantIsolation.StepIsScoped | packages/core/src/knowledge/store.ts:119-454 | no single operation touches another tenant's rows |
| QuarantineRelease.CleanIngestIsMined | packages/core/src/knowledge/store.ts:221-248 | a clean ingest gives the document exactly the claims and mentions recognition finds in its chunks |
| QuarantineRelease.HoldRemoves | packages/core/src/knowledge/store.ts:404-408 | holding removes exactly that document's claims and mentions |
| QuarantineRelease.ReleaseMines | packages/core/src/knowledge/store.ts:400-403 | releasing produces exactly what a clean ingest of the chunks produces |
| QuarantineRelease.HoldThenReleaseRestores | packages/core/src/knowledge/store.ts:392-454 | in any state where the document is as ingested, hold and release restore its claims, the mentions and which entities exist |
| QuarantineRuns.IngestedStaysAsIngested | packages/core/src/knowledge/store.ts:154-454 | after a clean ingest and any operations of any tenants, redactions that find something in its chunks, claims or entities apart, a document still there has the chunks of its ingest and is as ingested, or is held and owns no claims and no mentions |
| QuarantineRuns.HoldThenReleaseOverRuns | packages/core/src/knowledge/store.ts:392-454 | hence at every moment of such a run holding and releasing it restores all claims, mentions, chunks and full-text rows and which entities exist |
| Redaction.ErasesExactly | packages/core/src/knowledge/store.ts:351-367 | leftmost non-overlapping replacement leaves no occurrence in any text, not even across seams, exactly when the replacement is erasing |
| Redaction.SafeIsErasing | packages/core/src/knowledge/store.ts:351-367 | a replacement that lacks the term and starts and ends with characters foreign to it is erasing |
| Redaction.ReplaceAllErases | packages/core/src/knowledge/store.ts:351-367 | hence a replacement that lacks the term and starts and ends with characters foreign to it erases the term from every text |
| Redaction.OccursMeans | packages/core/src/knowledge/store.ts:320-321 | a text contains a term exactly when some part of it is the term up to folding |
| Redaction.SplitsAtFirst | packages/core/src/knowledge/store.ts:359 | up to the first match the text is copied, there the replacement goes in and the scan goes on behind it |
| Redaction.Untouched | packages/core/src/knowledge/store.ts:359 | a text without a match stays as it is |
| Redaction.EmptyReplacementCanLeaveTheTerm | packages/core/src/knowledge/store.ts:348-384 | with an empty replacement the term can reappear |
| Redaction.DefaultReplacementCanLeaveTheTerm | packages/cli/src/main.ts:251 | the default replacement "[redacted]" leaves the term "ed" |
| Redaction.InitialErases | packages/core/src/knowledge/store.ts:351-367 | a name that does not repeat its initial is erased by the initial and a dot, although they share a letter |
| KnowledgeTheorems.RedactionErases | packages/core/src/knowledge/store.ts:313-384 | after redacting with an erasing replacement, findTerm finds nothing in chunks, headings, claims, entities, titles and owners |
| KnowledgeTheorems.RedactionIsExact | packages/core/src/knowledge/store.ts:313-384 | redaction leaves nothing for findTerm to find after every run from the empty store exactly when the replacement is erasing |
| KnowledgeEffects.TenantIsErased | packages/core/src/governance/retention.ts:66-77 | after erasing a tenant no row of the seven tables is its, no mention of its entities or in its chunks is left, and the rows of every other tenant are as they were |
| KnowledgeEffects.ErasedStaysErased | packages/core/src/governance/retention.ts:66-77 | after any run that ends in erasing a tenant, and whatever the others do next, it has no row and no search for any term finds anything of it |
| KnowledgeEffects.AddSourceActs | packages/core/src/knowledge/store.ts:119-137 | the tenant's source with this locator gets the given columns or is added with them; no other row changes |
| KnowledgeEffects.LocatorsAreUnique | packages/core/src/knowledge/store.ts:119-137 | over every run a tenant has at most one source under a locator |
| KnowledgeEffects.DeletedExactly | packages/core/src/knowledge/store.ts:473-479 | chunks, claims, mentions and documents of the set go and no others; entities stay exactly if still mentioned |
| KnowledgeEffects.RemovedSourceIsGone | packages/core/src/knowledge/store.ts:296-304 | removing a source removes it, its documents and what came from them, and nothing else |
| KnowledgeEffects.IngestCanDoNothing | packages/core/src/knowledge/store.ts:158-164 | a foreign source is not found, and content that is there already changes nothing |
| KnowledgeEffects.IngestStoresDocument | packages/core/src/knowledge/store.ts:159-212 | otherwise the source's earlier document goes and the new one stands with its fingerprint, title, text and flag; the documents of other sources stay |
| KnowledgeEffects.IngestStoresChunks | packages/core/src/knowledge/store.ts:206-225 | its chunks are one for every piece, in order, with ordinal, heading and text; the chunks of other documents stay |
| KnowledgeEffects.ClaimsSay | packages/core/src/knowledge/store.ts:234-239 | a chunk's claims are those recognised in its text, in order, with text and kind and the chunk's keys |
| KnowledgeEffects.MinedClaims | packages/core/src/knowledge/store.ts:234-239 | mining writes exactly the claims recognised in the chunks |
| KnowledgeEffects.MinedMentionsAre | packages/core/src/knowledge/store.ts:240-247 | and exactly the mentions, one per entity and surface form found in a chunk |
| KnowledgeEffects.MinedAliases | packages/core/src/knowledge/store.ts:240-245 | and leaves every entity with exactly the aliases it had and the surface forms found for it |
| KnowledgeEffects.AliasesOverRuns | packages/core/src/knowledge/store.ts:240-247 | over every run each surface form that is mentioned is an alias of its entity |
| KnowledgeEffects.QuarantineActs | packages/core/src/knowledge/store.ts:392-409 | hold and release set the document's flag and change no other document, chunk or source; without a change of state nothing is mined or removed |
| KnowledgeEffects.SearchIsExact | packages/core/src/knowledge/store.ts:313-333 | a search finds nothing exactly when the term stands in no text, heading, claim, entity name, alias, title or owner of the tenant |
| KnowledgeEffects.RedactionRewrites | packages/core/src/knowledge/store.ts:348-379 | redaction replaces the term in exactly the chunks and claims that were found, removes exactly the found entities with their mentions, and changes nothing else there |
| KnowledgeEffects.RedactionRewritesDocuments | packages/core/src/knowledge/store.ts:368-372 | content and title of exactly the documents of which a chunk or the title was found |
| KnowledgeEffects.RedactionRewritesSources | packages/core/src/knowledge/store.ts:373-377 | title and owner of exactly the sources of which one of them was found |
| KnowledgeEffects.ShortTermIsRefused | packages/core/src/knowledge/store.ts:349 | a term of fewer than two characters is refused and nothing is rewritten |
| KnowledgeService.KnowledgeStore.AddSourceRow | packages/core/src/knowledge/store.ts:119-137 | inserts a source or updates the one with the locator |
| KnowledgeService.KnowledgeStore.DeleteDocumentRows | packages/core/src/knowledge/store.ts:473-479 | the statements delete the document, what cascades from it, its full-text rows and every orphan |
| KnowledgeService.KnowledgeStore.DeleteAll | packages/core/src/knowledge/store.ts:207-208 | deleting documents one after the other is deleting the set, in any order |
| KnowledgeService.KnowledgeStore.MineChunk | packages/core/src/knowledge/store.ts:231-247 | the inner loops add exactly a chunk's claims, entities and mentions |
| KnowledgeService.KnowledgeStore.UpsertChunk | packages/core/src/knowledge/store.ts:240-247 | insert-or-ignore and alias union, entity by entity |
| KnowledgeService.KnowledgeStore.InsertPieces | packages/core/src/knowledge/store.ts:221-248 | the chunk loop inserts all chunks and full-text rows and mines them unless poisoned |
| KnowledgeService.KnowledgeStore.IngestContent | packages/core/src/knowledge/store.ts:154-256 | unchanged content changes nothing; otherwise supersede, insert, mine |
| KnowledgeService.KnowledgeStore.RemoveSource | packages/core/src/knowledge/store.ts:296-304 | removes a source with everything that hangs on it |
| KnowledgeService.KnowledgeStore.SetQuarantineOn | packages/core/src/knowledge/store.ts:392-414 | hold and release, each only on a change of state |
| KnowledgeService.KnowledgeStore.Extract | packages/core/src/knowledge/store.ts:422-454 | clears the document's claims and mines its chunks one by one |
| KnowledgeService.KnowledgeStore.RedactTermIn | packages/core/src/knowledge/store.ts:348-384 | refuses short terms; rewrites every found place and removes found entities |
| KnowledgeService.KnowledgeStore.RewriteChunks | packages/core/src/knowledge/store.ts:357-366 | the loop rewrites every found chunk with its full-text row and collects the documents |
| KnowledgeService.KnowledgeStore.EraseTenantRows | packages/core/src/governance/retention.ts:66-77 | the deletes in their order leave no row of the tenant and are the erasure that leaves the others alone |
| ModelAccess.RequirementSatisfied | packages/core/src/governance/policy.ts:102-126 | satisfied exactly when no clause rules the model out; every failing clause is reported, in order |
| ModelAccess.RequirementMeans | packages/core/src/governance/policy.ts:102-126 | a requirement is met by exactly the models that have what it asks for, clause by clause |
| ModelAccess.SortClasses | packages/core/src/governance/policy.ts:140-141 | deduplicates and sorts the classes, public if none |
| ModelAccess.OrderIsUnique | packages/core/src/governance/policy.ts:140 | there is only one such list |
| ModelAccess.EvaluateModelAccess | packages/core/src/governance/policy.ts:133-176 | the nested loops with their early exits compute the specified decision, rules and reasons |
| ModelAccess.AccessIsExact | packages/core/src/governance/policy.ts:133-176 | allowed exactly when every requested class is under the registry ceiling, hit by no satisfied deny rule and covered by a satisfied allow rule |
| ModelAccess.OrderAndRepetitionIrrelevant | packages/core/src/governance/policy.ts:140 | order and repetition of classes change neither decision nor reasons |
| ModelAccess.MoreClassesNeverWiden | packages/core/src/governance/policy.ts:128-132 | asking for more classes can only lose access |
| ModelAccess.DenialNamesMostSensitive | packages/core/src/governance/policy.ts:143-174 | a denial gives one reason, about the most sensitive class that is not permitted |
| ModelAccess.PermitNamesFirstRules | packages/core/src/governance/policy.ts:143-176 | a permit names, most sensitive class first, the first allow rule in policy order that admits each class |
| ModelAccess.RefusalIsExact | packages/core/src/governance/policy.ts:143-174 | the reason for a class is the first that holds: not in the registry entry, hit by the first satisfied deny rule, mentioned by no allow rule, or complained about by the allow rules exactly as listed |
| ModelAccess.AllClassesInOrder | packages/core/src/governance/policy.ts:140-141 | the five classes from special category down to public |
| CostMeter.PriceIsNotNegative | packages/core/src/providers/costMeter.ts:58-64 | prices are not negative, no usage costs nothing, only unpriced models have no price |
| CostMeter.CachingSavesTheDifference | packages/core/src/providers/costMeter.ts:58-64 | cached input tokens save exactly the difference of the rates, nothing without a cached rate |
| CostMeter.OutputTokensCost | packages/core/src/providers/costMeter.ts:58-64 | n more output tokens cost exactly n times the output rate per million |
| CostMeter.InputTokensCost | packages/core/src/providers/costMeter.ts:58-64 | n more uncached input tokens cost exactly n times the input rate per million |
| CostMeter.CachedTokensCost | packages/core/src/providers/costMeter.ts:58-64 | n more cached tokens cost exactly n times the cached rate, or the input rate without one, even beyond the input |
| CostMeter.WindowIsExact | packages/core/src/providers/costMeter.ts:102-120 | a budget's spend and count are over the calls of its tenant and workload of the last so many times 24 hours |
| CostMeter.AlertsAreExact | packages/core/src/providers/costMeter.ts:92-98 | recording a call alerts exactly the budgets it counts towards that are over, with what they have spent |
| CostMeter.FirstBudgetBlocks | packages/core/src/providers/costMeter.ts:122-128 | the budget that blocks comes before every other that would |
| CostMeter.WindowSlides | packages/core/src/providers/costMeter.ts:102-120 | as the window slides, spend and count of past calls can only fall |
| CostMeter.Meter.Record | packages/core/src/providers/costMeter.ts:83-100 | adds the row and raises exactly the alerts of the budgets over their limit or count |
| CostMeter.Meter.FindExhausted | packages/core/src/providers/costMeter.ts:122-128 | the first hard budget over the workload that is exhausted by spend or count, none exactly if there is none |
| Router.SortIsStable | packages/core/src/providers/router.ts:90 | ranking keeps the models, puts the best first and keeps the registry's order among equals |
| Router.StrategiesRank | packages/core/src/providers/router.ts:160-173 | quality never prefers a lower tier, latency never a slower one, cost never the dearer of equals, and every strategy respects being at least as good in all respects |
| Router.PlanIsExact | packages/core/src/providers/router.ts:69-92 | candidates are exactly the permitted, servable and unpinned-out models of the tenant's registry |
| Router.RejectedInOrder | packages/core/src/providers/router.ts:69-89 | the rejected models are exactly the ones that are not usable, in the registry's order |
| Router.RejectionsAreExact | packages/core/src/providers/router.ts:69-89 | each for the first thing in its way: policy, no adapter, not capable, not the pinned model |
| Router.RefusalIsExact | packages/core/src/providers/router.ts:130-141 | a request is let through exactly when no hard budget blocks it and some model is usable; a refusal leaves the event of the blocking budget or the one that lists every rejection |
| Router.AdapterIsFound | packages/core/src/providers/router.ts:72 | shared adapter kinds are looked up by provider, others by their own name and then by provider |
| Router.StrategiesTrade | packages/core/src/providers/router.ts:160-173 | what a quality tier, a latency tier and a cost point are worth against each other under each strategy |
| Router.CostPoints | packages/core/src/providers/router.ts:161 | five points less one for every ten EUR per million tokens in and out, never below zero, two and a half without a price |
| Router.OnlyPermittedModelsAreCalled | packages/core/src/providers/router.ts:94-117 | every provider called is one the policy permits for this request; fallback never leaves that set |
| Router.FirstSuccessIsReturned | packages/core/src/providers/router.ts:101-116 | the first success among the best-ranked maxAttempts is returned, and failure means all of them failed |
| Router.EveryAttemptIsRecorded | packages/core/src/providers/router.ts:101-116 | one meter row and one event per attempt, the i-th about the i-th candidate with the same usage and price, all but the last about failures; a refusal leaves one event |
| Router.FailedEmbeddingLeavesNoTrace | packages/core/src/providers/router.ts:119-128 | a request that is not refused asks one usable model that no usable model outranks, and adds one row and one event about it exactly when that model answers |
| Router.FailedCallIsNotRecorded | packages/core/src/providers/router.ts:119-128 | with one usable model a call that is made and fails leaves the books empty |
| RouterService.PolicyAwareRouter.Plan | packages/core/src/providers/router.ts:69-92 | the loop fills candidates and rejections as specified |
| RouterService.PolicyAwareRouter.CheckRoutable | packages/core/src/providers/router.ts:130-141 | refuses an exhausted budget or an empty plan with one event |
| RouterService.PolicyAwareRouter.CompleteRequest | packages/core/src/providers/router.ts:94-117 | the retry loop does what the specification says, row by row and event by event |
| RouterService.PolicyAwareRouter.EmbedTexts | packages/core/src/providers/router.ts:119-128 | the best candidate only |
| BudgetBound.HardBudgetsHold | packages/core/src/providers/costMeter.ts:102-128 | over every run and at every later moment a hard budget's spend is below its limit plus the dearest call recorded in the run, and its count below its ceiling plus one request; zero when the limit or ceiling is not positive |
| BudgetBound.StepStaysWithin | packages/core/src/providers/router.ts:94-141 | every completion and embedding keeps that bound |
| Chunker.ChunksAreInOrder | packages/core/src/knowledge/chunker.ts:61-90 | ordinals from 0, at most one chunk per unit, starts strictly increase, ends never decrease, each chunk is the trimmed text between its offsets |
| Chunker.NothingIsLost | packages/core/src/knowledge/chunker.ts:61-90 | every unit, or its first target characters when longer, lies inside some chunk |
| Chunker.UnmergedChunksFit | packages/core/src/knowledge/chunker.ts:66-83 | a chunk that spans more than the target was extended by a merge |
| Chunker.LongUnitIsCut | packages/core/src/knowledge/chunker.ts:64-83 | a unit lies whole in some chunk exactly when it fits the target or the window after it is small |
| Chunker.LongUnitLosesItsRest | packages/core/src/knowledge/chunker.ts:71-74 | one unit of two characters with a target of one is in no chunk as a whole |
| Chunker.TailIsRepeated | packages/core/src/knowledge/chunker.ts:84-87 | a window that reaches the end is followed by a chunk that lies inside it and begins later exactly when there is an overlap and the window holds several units |
| Chunker.TwoUnitsRepeatOne | packages/core/src/knowledge/chunker.ts:84-87 | two one-character units that fit one window give two chunks, the second repeating the second unit |
| Chunker.OverlapIsExact | packages/core/src/knowledge/chunker.ts:84-87 | a unit is repeated in the next window exactly when it is the last of its window or starts inside the overlap |
| Chunker.WindowIsSound | packages/core/src/knowledge/chunker.ts:64-74 | a window takes units from its first on as long as they fit the target and no further, and cuts only a first unit that is longer |
| Chunker.WindowsGetChunks | packages/core/src/knowledge/chunker.ts:75-83 | a window gets its own chunk exactly when it is the first, has enough text or reaches the end; otherwise the chunk before it grows to its end |
| Chunker.TokenEstimateIsCeiling | packages/core/src/knowledge/chunker.ts:77-82 | the token estimate is a quarter of the length, rounded up |
| Chunker.PackUnits | packages/core/src/knowledge/chunker.ts:61-90 | the loop terminates and computes the specified chunks |
| Chunker.PackWindow | packages/core/src/knowledge/chunker.ts:64-74 | the inner packing loop with its hard split |
| Chunker.Extend | packages/core/src/knowledge/chunker.ts:75-83 | push a chunk or merge into the previous one |
| Chunker.StepBack | packages/core/src/knowledge/chunker.ts:84-87 | the overlap loop, always making progress |
| HeadingPaths.FindHeadingPath | packages/core/src/knowledge/chunker.ts:25-35 | the popping and pushing loop computes the specified path |
| HeadingPaths.BeforeIsExact | packages/core/src/knowledge/chunker.ts:28-29 | the headings up to the first that starts after the offset, one at the offset included |
| HeadingPaths.PathIsOpenHeadings | packages/core/src/knowledge/chunker.ts:25-35 | the path is the texts of the headings open there, outermost first |
| HeadingPaths.PathIsAncestorChain | packages/core/src/knowledge/chunker.ts:25-35 | the path is the ancestor chain after every heading exactly when every heading closes a stretch of levels without a gap, or everything |
| HeadingPaths.NoSkipsMeansAncestorChain | packages/core/src/knowledge/chunker.ts:25-35 | outlines that never skip a level always get the ancestor chain |
| HeadingPaths.SkippedLevelLosesParent | packages/core/src/knowledge/chunker.ts:25-35 | levels 1, 3, 2: the last heading loses its parent |
| LoginLimiter.TableIsBounded | apps/admin/src/auth.ts:77-108 | in every run the table holds at most max(1, capacity) entries, one per key |
| LoginLimiter.RenewalIsUnreachable | apps/admin/src/auth.ts:88-94 | after pruning no found entry has expired |
| LoginLimiter.LifetimeIsExact | apps/admin/src/auth.ts:87-97 | while a counter lives, exactly the first max attempts, at least one, are allowed |
| LoginLimiter.WindowIsBounded | apps/admin/src/auth.ts:77-108 | for a key never reset or evicted, any stretch of one window's length allows at most twice max attempts |
| LoginLimiter.AttemptActs | apps/admin/src/auth.ts:87-97 | a live counter, up to and including the moment it resets, gains one and allows up to the maximum; otherwise a new one opens for a window |
| LoginLimiter.AttemptSpares | apps/admin/src/auth.ts:87-107 | another key's attempt leaves a live counter alone unless the table is full and it is the oldest |
| LoginLimiter.TableIsOldestFirst | apps/admin/src/auth.ts:87-107 | over every run with a clock that does not go back, the entry that is evicted is the one that would reset first |
| LoginLimiter.ResetForgets | apps/admin/src/auth.ts:98-100 | a reset forgets the key and no other |
| LoginLimiter.LoginRateLimiter.AllowAttempt | apps/admin/src/auth.ts:87-97 | prune, evict if full, open or count |
| LoginLimiter.LoginRateLimiter.ResetKey | apps/admin/src/auth.ts:98-100 | removes the key's entry |
| LoginLimiter.LoginRateLimiter.Prune | apps/admin/src/auth.ts:101-103 | removes exactly the expired entries |
| LoginLimiter.LoginRateLimiter.EvictOldest | apps/admin/src/auth.ts:104-107 | removes the oldest entry |
| Robots.ParseRobots | packages/core/src/geo/robots.ts:50-80 | the line loop with its current group computes the specified document |
| Robots.RoundTrip | packages/core/src/geo/robots.ts:50-80 | parsing a printed document returns it exactly when every group names an agent, every group but the last has a rule, and agents are lower-case |
| Robots.ParseOneMore | packages/core/src/geo/robots.ts:50-80 | what each further line does to the document after any lines: join or open a group, add a rule to the last group or nowhere, note a sitemap, or nothing |
| Robots.AgentLineIsRemembered | packages/core/src/geo/robots.ts:53-70 | agents keep joining a group exactly while the last line with a field is a user-agent |
| Robots.AnchoredMatch | packages/core/src/geo/robots.ts:82-90 | a pattern ending in `$` matches exactly the paths its stem expands to |
| Robots.PrefixMatch | packages/core/src/geo/robots.ts:82-90 | a pattern without `$` matches exactly the paths some beginning of which it expands to |
| Robots.MiddleDollarIsAnchor | packages/core/src/geo/robots.ts:82-90 | a `$` inside a pattern anchors there, so the rule matches only if wildcards alone follow |
| Robots.DollarAgreement | packages/core/src/geo/robots.ts:82-90 | the code matches as section 2.2.3 of RFC 9309 says, on every path, exactly for patterns with no `$` before the last position |
| Robots.MiddleDollarDiffers | packages/core/src/geo/robots.ts:82-90 | the rule /a$b does not apply to the path /a$b, which the standard says it matches |
| Robots.Scan | packages/core/src/geo/robots.ts:110-125 | the one-pass scan: allowed if nothing applies, else if a longest applicable rule is an allow (section 2.2.2 of RFC 9309), and the winner is longest |
| Robots.OrderIrrelevant | packages/core/src/geo/robots.ts:110-125 | the order and repetition of rules do not matter |
| Robots.AddingRules | packages/core/src/geo/robots.ts:110-125 | an allow rule never closes a path and a disallow rule never opens one |
| Robots.SelectGroup | packages/core/src/geo/robots.ts:92-105 | the first group with a longest token that names the agent, else the first wildcard group |
| Robots.IncludesMeans | packages/core/src/geo/robots.ts:98 | a token is included in a name exactly when it stands somewhere in it |
| Robots.FirstWildcardIsFirst | packages/core/src/geo/robots.ts:104 | the wildcard group is the first that lists the wildcard |
| Robots.IsAllowed | packages/core/src/geo/robots.ts:107-126 | group selection and precedence together, with the rule that decided |
| Wilson.IntervalIsSound | packages/core/src/observatory/stats.ts:18-27 | for 0 <= k <= n the interval lies in [0, 1] and contains k/n, and the clamps never take effect |
| Wilson.IntervalInvertsScoreTest | packages/core/src/observatory/stats.ts:18-27 | the interval is exactly the set of proportions x with (x - k/n)^2 <= z^2 x (1 - x) / n, which defines a Wilson score interval |
| Wilson.IntervalIsMirrored | packages/core/src/observatory/stats.ts:18-27 | counting failures mirrors the interval |
| Wilson.HalfWidthFalls | packages/core/src/observatory/stats.ts:18-27 | at a fixed proportion the half-width falls strictly as n grows |
| Wilson.SamplesForHalfWidth | packages/core/src/observatory/stats.ts:29-34 | ends at n <= 120,000 with the target met or the cap of 100,000 reached, every size tried before being too wide |
| Wilson.NextSizeIsExact | packages/core/src/observatory/stats.ts:31 | the next size is one more than the least integer of at least 1.2 times the last |
| Wilson.RoundIsNearest | packages/core/src/observatory/stats.ts:31 | the success count is the nearest integer, halves upwards |
| Wilson.NoSamplesKnowNothing | packages/core/src/observatory/stats.ts:19 | without samples the interval is all of [0, 1] |
| Wilson.MetTargetIsSound | packages/core/src/observatory/stats.ts:29-34 | a size that meets the target gives an interval inside [0, 1] around the rounded share, at most twice the target wide |
| Wilson.EnoughSamplesMeetTarget | packages/core/src/observatory/stats.ts:18-34 | every size n with 4 n h^2 >= z^2 meets the target h, whatever the proportion, so no size tried before the answer is that large |

## Left out

- Concurrency: operations run to completion one after the other; interleavings during the adapter's and the providers' awaits are not modelled.
- Hashing and signatures: SHA-256, fingerprints and manifests are functions, collision-free where a result says so; Ed25519 and HMAC are not modelled.
- Identifiers: UUIDs are the values of a counter, so that fresh ids are fresh.
- Time: instants are integers in milliseconds; reading and writing ISO dates is not modelled.
- Drafts: language, model id, receipts, request ids, notes and row timestamps are not modelled; a draft's `verification` is present whenever it is verified, and gating without one, which cannot happen, is treated as a conflict.
- Retention: deletion of old drafts, approvals, calls and observations is not modelled, so the pipeline theorems are about runs before rows age out; a deleted draft frees its slug and leaves its approval behind, which the invariant here does not allow for.
- Erasure: the deletes of drafts, approvals, publications and registers are not modelled, only the knowledge tables.
- Ledger input: empty tenants and actors are excluded by a type in the pipeline, the store and the router; the ledger's own model refuses them as its schema does.
- JSON: numbers and strings are single tokens, integer-like and `__proto__` keys are not special; the hashed record is modelled by its fields, with states by their canonical text.
- Row order: `rows` of the ledger is the table in the order of its numbers.
- Recognition: text extraction, claims, entities, the injection scan, embeddings and confidence are functions or left out; a claim's `entities` column and validity dates are not modelled.
- Entities: an entity is its unique key; aliases are a set and are matched one by one rather than as JSON text; aliases gained by other documents are not taken back by a hold.
- Redaction: the replacement is literal (`$` has a meaning in JavaScript's `replace`), and a document's content is scrubbed only where a chunk or the title was found, as in the code.
- KnowledgeService: statements that select rows by a condition are single assignments; loops of the code over rows are loops here. The order of rows that SQL leaves open is insertion order.
- Ingest: the size limit, content types and the answer's counts are not modelled.
- Licences: works on token lists; the regular expression that splits text is not modelled. Trimming knows blanks, tabs and line ends.
- Router: request ids, job ids, prompt hashes, the logger and the message lists of errors are not modelled; `maxAttempts` is a natural number; clock readings inside alerts are inputs.
- CostMeter: the summary report is not modelled; budgets do not change within a run; windows are whole days.
- Chunker: splitting text into sentence units is not modelled; the packing loop is given non-empty, ordered, disjoint units, and options are natural numbers. A path is the list of heading texts, not the joined string.
- LoginLimiter: sessions and token comparison are not modelled.
- Robots: splitting text into fields, comments and blanks is not modelled; lower-casing is a function; paths have no line breaks, which `.` would not match. The agent catalogue is not modelled.
- Wilson: exact arithmetic over reals with a given square root; IEEE rounding and the two-proportion test are not modelled.
- Publishing adapters, rendering and escaping, the console, the CLI, analysers, evaluation runs, registers and reports: formatting, files, network calls, and tables that no operation modelled here reads.
