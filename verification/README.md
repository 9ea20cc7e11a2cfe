# FamilyClaw action runtime: a verified model

FamilyClaw runs actions for an agent: reading files, drafting issues, spending
money. Some run at once, others wait for a human. The runtime's promise is that
an action's external effect fires **at most once**, whatever crashes, restarts and
disk errors come between, and that a granted approval is not lost in a crash.
This project models that runtime and the components around it, and proves what
they promise for every input, every run and every placement of faults.

Verify everything with `dafny verify dfyconfig.toml`.

## How the model is built

- **The protocol** (`Runtime.dfy`) is a step machine over three durable logs
  (outbox rows, pending records, task snapshots), the volatile state that a crash
  wipes out (queue, ledger, limiter, proofs, registered skills) and a history of
  the effects fired. Each operation receives what its environment does at every
  fallible step: an append is acknowledged, lands without acknowledgement, is
  refused, or the process dies before it; an executor fires or not, and returns,
  fails or kills the process. A death between two steps is a death at the later
  one, since only volatile state lies between them. Restart is an operation like
  any other, and it may fail to open its logs, which leaves the process dead; so a
  run is any list of operations.
- **The facade** (`Facade.dfy`) is a class that carries the operations out one
  statement at a time; each method is proved to be the protocol's function.
- **What follows** is in `Outcomes.dfy` (what each operation answers and leaves
  behind, for every fault), `Finality.dfy` (what an Ok means for ever),
  `AtMostOnce.dfy` (no effect fires twice; blocked stays blocked; replayed
  answers are fixed), `Continuity.dfy` (a granted approval
  stays approvable), `Promises.dfy` (what submitting, approving and denying
  achieve, and what they cannot promise), `Stranding.dfy` (exactly which
  submissions survive a restart) and `Gating.dfy` (no effect without permission).
- **The stores**: `Outbox.dfy`, `PendingStore.dfy` (plain map),
  `JournalStore.dfy` (append-only log with compaction) and `JournalRuns.dfy`
  (the log refines the map, stays short, and pays for its compactions),
  `Approvals.dfy`, `Tasks.dfy`, `Limiter.dfy`, `Budget.dfy`.
- **The texts**: `Text.dfy`, `Redaction.dfy`, `RedactionLaws.dfy`,
  `RedactionJson.dfy`, `SecretShapes.dfy` (what counts as a secret, spelt out),
  `SecretScan.dfy`, `Idempotency.dfy`, `Manifest.dfy` and `Policy.dfy`.
- **The comparison**: `Competitors.dfy`, two agents without an outbox, whose
  overcount is exactly the number of crashes.

Classes stand where the source updates fields in place, loops where it loops;
each is proved against a function, and the laws are proved about the functions.

### Where code and documentation disagree

The model follows the code.

- The pending journal's step numbers are called monotonic; a refused append
  followed by a reopening repeats one (`JournalRuns.RefusalRepeatsAStep`). They
  stay ordered exactly when every reopening finds a tight log
  (`JournalRuns.OrderedExactly`), and the log stays tight exactly when no append is
  refused (`JournalRuns.NumberingIsTight`).
- Abortion is documented to block the approval whatever becomes of the
  tombstone. It does so once its intent row lands; if that append is refused the
  tombstone decides (`AtMostOnce.AbortBlocks`).
- Denial is documented to cancel the task of a pending approval. After a crash
  between commit and removal that task may already have fired
  (`Promises.DenialCanCancelAFiredTask`). It has fired, at the end of any run,
  exactly if it had at the denial (`Promises.DenialFreezesFirings`); an outbox
  without a row for the approval excludes it, and with a row nothing the runtime
  keeps can decide it (`Promises.FiringLeavesNoTrace`).
- The rate limiter is documented to admit at most the cap within a window. One
  second back on the clock gets a call too many past any cap of two or more
  (`Limiter.BackwardClockBreaksCap`); `Limiter.CapHoldsExactly` says when the cap
  holds.
- A pending approval is documented to stay approvable across a crash. After a
  submission and a restart it is approvable exactly when the record's append was
  acknowledged and the task snapshot landed
  (`Stranding.ApprovableAfterRestartExactly`). A crash between the two strands it,
  and so do a record that lands without acknowledgement and a snapshot that is
  refused (`Stranding.ApprovalCanBeStranded`); in the last two the submission
  answers an error and nothing crashes. Once approvable, it stays so
  (`Continuity.ApprovalSurvives`).
- Approvals are called single-use; the ledger alone forgets this when a restart
  reinstates a used one (`Approvals.ReinstatementAllowsSecondUse`), and keeps it
  exactly as long as reinstatements carry the current flag
  (`Approvals.TrailMatchesExactly`). The outbox is what keeps the promise
  (`AtMostOnce.AtMostOncePerKey`).
- A normalised idempotency key can be too long to be accepted again
  (`Idempotency.NormalizingTwice`).

## Model

| member | source | states |
|---|---|---|
| Facade.ActionRuntime.SubmitTaskAs | crates/familyclaw-actions/src/facade.rs:897-955 | One submission, step by step, moves the durable logs, the volatile state and the answer exactly as the protocol function says, for every fault at every step |
| Facade.ActionRuntime.SubmitTaskIdempotent | crates/familyclaw-actions/src/facade.rs:1001-1048 | A keyed submission looks the key up, logs intent, submits, and commits success or error; state and answer are the protocol's |
| Facade.ActionRuntime.Approve | crates/familyclaw-actions/src/facade.rs:1123-1217 | Approval does its checks in order, logs intent, consumes and runs, commits, and only then drops the pending record; state and answer are the protocol's |
| Facade.ActionRuntime.DenyPending | crates/familyclaw-actions/src/facade.rs:1223-1236 | Denial removes the record, cancels the task, snapshots it, and never reads the outbox |
| Facade.ActionRuntime.AbortPendingAfterContinuationFailure | crates/familyclaw-actions/src/facade.rs:1255-1322 | Abortion attempts the quarantine and the removal whatever the first answers, and reports every failure |
| Facade.ActionRuntime.WithDurableStores | crates/familyclaw-actions/src/facade.rs:411-450 | Fails exactly when a journal does not open or the snapshot file has an unreadable line; otherwise the queue is rebuilt from the last snapshots and every pending approval put back into the ledger as it was granted |
| Facade.ActionRuntime.Restored | crates/familyclaw-actions/src/facade.rs:427-450 | Reinstating the pending approvals one by one, in any order, gives the protocol's restarted state |
| Facade.ActionRuntime.EvictExpiredApprovals | crates/familyclaw-actions/src/facade.rs:1382-1384 | Eviction drops expired records only, in any order, stopping at the first failure; it answers Ok exactly when every tombstone is acknowledged, and then counts all of them |
| Facade.ActionRuntime.RegisterSkill | crates/familyclaw-actions/src/facade.rs:727-735 | A skill is registered under a fresh id; a refused registration changes nothing |
| Facade.TombstoneIsRemoval | crates/familyclaw-actions/src/pending_store.rs:843-854 | Dropping a pending record in the protocol is what the journalled store's removal does to its replayed state, whatever the append and the compaction behind it do |
| Facade.EvictionIsBurial | crates/familyclaw-actions/src/pending_store.rs:864-881 | Evicting in the protocol is what the journalled store's eviction does to its replayed state, for the tombstones that reach the log |
| Facade.FilingIsInsertion | crates/familyclaw-actions/src/pending_store.rs:820-837 | Filing a pending record in the protocol is what the journalled store's insertion does to its replayed state |
| Runtime.ApprovalKeyInjective | crates/familyclaw-actions/src/facade.rs:1060-1062 | Distinct approvals have distinct outbox keys |
| Outcomes.SubmitRuns | crates/familyclaw-actions/src/facade.rs:897-955 | A submission that needs no human, for every executor outcome and every fate of the snapshot: its effect is in the history exactly if the executor fired it; finished, the task is Done or Failed in memory and its snapshot is on disk, and the answer says so; failed, the answer is the error and nothing is on disk; pending store, ledger and limiter are untouched |
| Outcomes.SubmitOnceRuns | crates/familyclaw-actions/src/facade.rs:1001-1048 | The same under an unused key: without an acknowledged intent nothing runs; otherwise the result, success or error text, is committed last, and the caller gets it if the commit is acknowledged |
| Outcomes.SubmitParks | crates/familyclaw-actions/src/facade.rs:909-955 | A submission that needs a human, for every fault: filed exactly if the being's window and the store have room, under an approval bound to the payload's hash; snapshotted only behind an acknowledged record; refused without a trace on disk; no effect |
| Outcomes.SubmitOnceParks | crates/familyclaw-actions/src/facade.rs:1001-1048 | The same under an unused key, with the outcome, pending approval or refusal, committed |
| Outcomes.SubmitRefused | crates/familyclaw-actions/src/facade.rs:904-909 | An unknown or nil skill is refused and leaves disk, memory and effects alone |
| Outcomes.ApproveUndispatched | crates/familyclaw-actions/src/facade.rs:1123-1171 | An approval that is not dispatched: missing, answered from the outbox, in progress, unknown task, unknown skill, or without an acknowledged intent, each with its own answer and nothing run |
| Outcomes.ApproveFiresExactly | crates/familyclaw-actions/src/facade.rs:1123-1179 | In every state: approving adds the effect to the history exactly if the record is there and never dispatched, task and skill are known, the intent is acknowledged, the ledger entry is there, in time, unused and bound to the payload, the task may start, and the executor fires |
| Outcomes.ApproveDispatches | crates/familyclaw-actions/src/facade.rs:1174-1216 | And what it then leaves and answers, for every executor outcome and every fault: an executor error is committed and answered, the record and the snapshots stay; a finish is committed, then the record dropped, then the ended task snapshotted, each behind the acknowledgement before |
| Outcomes.ApproveRefused | crates/familyclaw-actions/src/approval.rs:219-282 | A ledger refusal -- missing, expired, used, bound to another payload, in this order -- is committed as the approval's outcome; the record and everything in memory stay |
| Outcomes.ApproveOutOfTurn | crates/familyclaw-actions/src/skills/mod.rs:387-412 | A granted approval whose task cannot start is used up, and the illegal transition is committed and answered |
| Outcomes.DenyOutcome | crates/familyclaw-actions/src/facade.rs:1223-1236 | Denial, for every fault: what becomes of record, task and snapshot; it answers Ok exactly if tombstone and snapshot are acknowledged and the task is known, open and storable; and then the task is Cancelled in memory, on disk and in the queue a restart rebuilds |
| Outcomes.DenyError | crates/familyclaw-actions/src/facade.rs:1223-1236 | Which error a denial answers: I/O, unknown task, ended task, unstorable task, in this order |
| Outcomes.AbortOutcome | crates/familyclaw-actions/src/facade.rs:1255-1322 | Abortion, for every fault and every phase of the key: the phase it leaves, what becomes of record, task and snapshot; it answers Ok exactly if the marker blocks and the removal is clean, so on a committed key only if the marker itself is what is committed |
| Outcomes.RestartOutcome | crates/familyclaw-actions/src/facade.rs:411-450 | A restart keeps the disk; the queue is the last snapshot of each task, the ledger the approvals of the pending records; skills, proofs and rate-limit hits are forgotten |
| Outcomes.EvictOutcome | crates/familyclaw-actions/src/facade.rs:1382-1384 | Eviction drops, of what it reaches, exactly the records whose approval has expired, and touches nothing else |
| Finality.SettledForever | crates/familyclaw-actions/src/facade.rs:525-535 | A task whose approval is gone and whose last snapshot is what the queue holds stays so through every run, crash and restart |
| Finality.DenialIsFinal | crates/familyclaw-actions/src/facade.rs:1223-1236 | After an acknowledged denial the task is Cancelled at the end of every run, in the queue and on disk, and has fired as often as before |
| Finality.AbortionIsFinal | crates/familyclaw-actions/src/facade.rs:1255-1322 | The same after an acknowledged abortion |
| Finality.CompletionIsFinal | crates/familyclaw-actions/src/facade.rs:1174-1216 | After an approval that answered Ok the task has ended as answered at the end of every run, and never fires again |
| Finality.RunIsFinal | crates/familyclaw-actions/src/facade.rs:897-955 | The same after a submission that ran at once and answered Ok |
| AtMostOnce.StepIsLegal | crates/familyclaw-actions/src/facade.rs:897-1322 | Every operation, with every fault, writes outbox rows for at most one key and only if that key had none, fires at most one effect and only under a permission that did not exist before and is used up by it |
| AtMostOnce.OutboxAnswerIsFinal | crates/familyclaw-actions/src/dispatch_outbox.rs:371-434 | Once any operation has started a key, no later operation, crash or restart changes what the outbox answers for it |
| AtMostOnce.AtMostOncePerKey | crates/familyclaw-actions/src/facade.rs:1001-1217 | In every run from empty logs the effect guarded by any key fires at most once, and only with a durable row of that key |
| AtMostOnce.AtMostOncePerTask | crates/familyclaw-actions/src/facade.rs:1001-1217 | In every run no task's effect fires twice, through whichever operations it is reached |
| AtMostOnce.AtMostOncePerDispatch | crates/familyclaw-actions/src/facade.rs:958-1048 | A caller's key causes at most one effect over its whole life: at once or through the approval it led to, never both |
| AtMostOnce.BlockedForever | crates/familyclaw-actions/src/facade.rs:1223-1322 | An approval without a pending record or with an outbox row never fires again in any run, nor does its task |
| AtMostOnce.DenyBlocks | crates/familyclaw-actions/src/facade.rs:1223-1236 | Denial blocks the approval exactly when its tombstone lands or the outbox already had a row |
| AtMostOnce.AbortBlocks | crates/familyclaw-actions/src/facade.rs:1238-1322 | Abortion blocks an approval not yet started exactly when its intent row lands or, the process alive, its tombstone does; Ok means both marker and removal are durable |
| AtMostOnce.ReplayIsStable | crates/familyclaw-actions/src/facade.rs:1010-1029 | After any run, resubmitting a started key gives one fixed answer and changes nothing: no effect, task, approval or rate-limit hit |
| AtMostOnce.ReapprovalIsStable | crates/familyclaw-actions/src/facade.rs:1139-1160 | After any run, approving a started approval gives one fixed answer while its record survives, and changes nothing |
| AtMostOnce.FirstResultIsFinal | crates/familyclaw-actions/src/facade.rs:1001-1048 | Once a key's commit row has landed, acknowledged or not, every later submission under the key, after any run, gives the first result and changes nothing: a success unchanged, a failure as ExecutionFailed with the first error's text |
| AtMostOnce.FirstAnswerIsFinal | crates/familyclaw-actions/src/facade.rs:1001-1048 | In particular an acknowledged first answer is repeated for ever by every later submission under the key |
| AtMostOnce.FirstApprovalIsFinal | crates/familyclaw-actions/src/facade.rs:1139-1198 | Once an approval's outcome is committed, approving again while its record survives, after any run, repeats that first outcome and changes nothing: a success unchanged, a failure as ExecutionFailed with its text |
| Continuity.StepFrame | crates/familyclaw-actions/src/facade.rs:897-1322 | Operations not aimed at an approval leave its task, its last snapshot, its ledger entry and its record alone |
| Continuity.ApprovalSurvives | crates/familyclaw-actions/src/facade.rs:411-450 | A granted approval stays approvable through every run of other operations, append failures, crashes and restarts |
| Promises.SubmittedOnceIsApprovable | crates/familyclaw-actions/src/facade.rs:909-955 | A keyed submission that answers with a pending approval has made it approvable in memory and on disk |
| Promises.ApproveInTime | crates/familyclaw-actions/src/facade.rs:1123-1217 | When nothing fails below it, approving fires exactly when the approval has not expired and answers Ok exactly when the clock is also not before the task's creation; the record is dropped, the outcome committed, the end snapshotted |
| Promises.ApprovalOutlivesCrashes | crates/familyclaw-actions/src/facade.rs:1123-1217 | Submit, any run of other operations with crashes and restarts, approve in time: the effect has fired exactly once |
| Stranding.StepKeepsUnknown | crates/familyclaw-actions/src/facade.rs:897-1322 | Only a submission that takes the identifier makes a task known to queue or snapshots |
| Stranding.NextIsFresh | crates/familyclaw-actions/src/facade.rs:904-909 | In every reachable state the next task is unknown on disk and in memory and its approval unused |
| Stranding.SubmittedSurvivesExactly | crates/familyclaw-actions/src/facade.rs:917-941 | After a submission under fresh identifiers the approval is listed exactly when the submission is accepted and the record lands, and approvable from disk exactly when besides the record is acknowledged and the snapshot lands |
| Stranding.SubmittedOnceSurvivesExactly | crates/familyclaw-actions/src/facade.rs:1001-1048 | The same for a keyed submission, which must also find its key unused and have its intent acknowledged |
| Stranding.ApprovableAfterRestartExactly | crates/familyclaw-actions/src/facade.rs:934-939 | From every reachable state: submit and restart, and the approval is approvable if and only if the submission was accepted, intent and record were acknowledged and the snapshot landed; if it is listed all the same it answers NotFound |
| Stranding.ApprovalCanBeStranded | crates/familyclaw-actions/src/facade.rs:934-939 | A death at the snapshot, an unacknowledged record and a refused snapshot each leave an approval that is listed after the restart but answers NotFound before any intent row |
| Stranding.StrandedForever | crates/familyclaw-actions/src/facade.rs:1161-1167 | In every later run, approving a stranded approval changes nothing and fires nothing |
| Gating.RunIsGated | crates/familyclaw-actions/src/skills/mod.rs:304-444 | In every run an unapproved effect comes from submitting a skill that needs no human, and an approved one from a pending record whose ledger entry is known, unexpired, unconsumed and bound to the firing task's payload |
| Gating.HighRiskIsAlwaysApproved | crates/familyclaw-actions/src/manifest.rs:221-258 | At every point of every run: while a skill is registered with the spec of a validated manifest that may spend money or write externally, submitting it fires nothing, keyed or not, whatever was registered before; such effects fire only through an approval |
| Promises.DenialCanCancelAFiredTask | crates/familyclaw-actions/src/facade.rs:1190-1236 | After a death between commit and removal, denial succeeds and cancels a task whose effect has fired |
| Promises.DenialFreezesFirings | crates/familyclaw-actions/src/facade.rs:1223-1236 | After a denial whose tombstone lands, the task has fired at the end of every run exactly as often as at the denial |
| Promises.DenialBeforeIntentIsFinal | crates/familyclaw-actions/src/facade.rs:1223-1236 | In particular, if the outbox had no row for the approval, the cancelled task never fires |
| Promises.FiringLeavesNoTrace | crates/familyclaw-actions/src/facade.rs:1148-1198 | For every executor outcome and every fault, approving leaves the same disk, memory, liveness and answer whether or not the effect fired, so no condition on what the runtime keeps decides it |
| Promises.DiskCannotTell | crates/familyclaw-actions/src/facade.rs:1170-1176 | For instance a kill just before the effect and one just after it leave the same disk, with one effect between them |
| Promises.NoRecoveryRuleIsExactlyOnce | crates/familyclaw-actions/src/facade.rs:1148-1157 | No recovery rule that reads only the disk yields exactly-once, which is why an intent without a commit is refused |
| Outbox.StoredOutcomeRoundTrip | crates/familyclaw-actions/src/dispatch_outbox.rs:108-151 | Storing and reading back an outcome keeps a success unchanged and an error's text |
| Outbox.JournalDispatchOutbox.ReplayKeyLoop | crates/familyclaw-actions/src/dispatch_outbox.rs:371-399 | The loop over the rows computes the key's replayed state |
| Outbox.JournalDispatchOutbox.LookupKey | crates/familyclaw-actions/src/dispatch_outbox.rs:407-414 | Lookup answers the phase of the replayed state |
| Outbox.JournalDispatchOutbox.RecordIntent | crates/familyclaw-actions/src/dispatch_outbox.rs:416-424 | Appends the key's intent row, unless the append is refused |
| Outbox.JournalDispatchOutbox.RecordCommitted | crates/familyclaw-actions/src/dispatch_outbox.rs:426-434 | Appends the key's committed row with its outcome, unless the append is refused |
| Outbox.InMemoryDispatchOutbox.LookupKey | crates/familyclaw-actions/src/dispatch_outbox.rs:253-263 | Answers the phase of the key's entry |
| Outbox.InMemoryDispatchOutbox.RecordIntent | crates/familyclaw-actions/src/dispatch_outbox.rs:265-268 | Sets the intent flag and keeps a committed outcome |
| Outbox.InMemoryDispatchOutbox.RecordCommitted | crates/familyclaw-actions/src/dispatch_outbox.rs:270-276 | Sets the intent flag and the outcome |
| Outbox.StoresAgree | crates/familyclaw-actions/src/dispatch_outbox.rs:248-276 | After any history of records and reopenings the in-memory and the journal outbox answer every key identically |
| Outbox.PhaseIsMonotone | crates/familyclaw-actions/src/dispatch_outbox.rs:371-434 | A key's phase only moves NotStarted, InProgress, Committed; it leaves NotStarted exactly when a row of its own that counts is written |
| Outbox.KeysAreIndependent | crates/familyclaw-actions/src/dispatch_outbox.rs:371-399 | Rows of other keys never affect a key's answer |
| Outbox.LookupExactly | crates/familyclaw-actions/src/dispatch_outbox.rs:371-414 | A key is committed with the outcome of its last committed row; without one it is in progress if it has an intent row, and not started otherwise |
| PendingStore.InMemoryPendingStore.Insert | crates/familyclaw-actions/src/pending_store.rs:462-475 | A new id needs room under the cap, a replacement does not; the cap is never exceeded |
| PendingStore.InMemoryPendingStore.Remove | crates/familyclaw-actions/src/pending_store.rs:481-483 | Removal returns the record if there was one, and it is gone |
| PendingStore.InMemoryPendingStore.List | crates/familyclaw-actions/src/pending_store.rs:489-491 | Listing gives every record once |
| PendingStore.InMemoryPendingStore.EvictExpired | crates/familyclaw-actions/src/pending_store.rs:493-498 | Eviction removes exactly the expired records and counts them |
| JournalStore.CompactionKeepsState | crates/familyclaw-actions/src/pending_store.rs:735-788 | Writing the live records back in any order replays to the same state, one row per live record |
| JournalStore.JournalPendingStore.ReplayState | crates/familyclaw-actions/src/pending_store.rs:661-705 | The replay loop computes the state in which a later row wins |
| JournalStore.JournalPendingStore.Compact | crates/familyclaw-actions/src/pending_store.rs:735-788 | Compaction keeps the live rows only, numbered 0..N, sets the counter to N, reports the dead rows dropped, and changes nothing when the swap fails |
| JournalStore.JournalPendingStore.OpenWithCapacity | crates/familyclaw-actions/src/pending_store.rs:601-616 | Opening counts the rows to infer the next step number |
| JournalStore.JournalPendingStore.Append | crates/familyclaw-actions/src/pending_store.rs:637-654 | A reserved step number is spent even when the append fails |
| JournalStore.JournalPendingStore.MaybeAutoCompact | crates/familyclaw-actions/src/pending_store.rs:799-816 | Compacts exactly when the factor is positive and the rows reach 64 and exceed factor * live, saturating; a failed compaction is swallowed |
| JournalStore.JournalPendingStore.Insert | crates/familyclaw-actions/src/pending_store.rs:820-837 | Insertion checks the cap against the replayed state, appends, and may compact |
| JournalStore.JournalPendingStore.Len | crates/familyclaw-actions/src/pending_store.rs:856-858 | Counts the live records, never more than the rows |
| JournalStore.JournalPendingStore.Remove | crates/familyclaw-actions/src/pending_store.rs:843-854 | Removal writes a tombstone only for an existing record, returns it, and may compact |
| JournalStore.JournalPendingStore.EvictExpired | crates/familyclaw-actions/src/pending_store.rs:864-881 | Eviction buries the expired records one at a time and may compact |
| JournalRuns.JournalRefinesMap | crates/familyclaw-actions/src/pending_store.rs:819-881 | After any history of operations, failed appends, compactions that succeed, fail or die, and reopenings, the log replays to what the plain map store holds |
| JournalRuns.InsertAnswersAsMap | crates/familyclaw-actions/src/pending_store.rs:820-837 | An acknowledged insertion answers as the map store does |
| JournalRuns.RemoveAnswersAsMap | crates/familyclaw-actions/src/pending_store.rs:843-854 | An acknowledged removal answers as the map store does |
| JournalRuns.EvictAnswersAsMap | crates/familyclaw-actions/src/pending_store.rs:864-881 | An acknowledged eviction removes and counts exactly the expired records |
| JournalRuns.InsertExactly | crates/familyclaw-actions/src/pending_store.rs:820-837 | Insertion for every fault of its append and its compaction: refused only for a new record in a full store; a refused or unacknowledged append is answered as an error; an acknowledged one is followed by compaction exactly at 64 rows and factor times the live ones, whose failure stays unseen |
| JournalRuns.RemoveExactly | crates/familyclaw-actions/src/pending_store.rs:843-854 | Removal likewise; without a record it writes nothing |
| JournalRuns.EvictCutShort | crates/familyclaw-actions/src/pending_store.rs:864-881 | The first tombstone that is not acknowledged ends an eviction, with that append's fate and the tombstones before it on disk |
| JournalRuns.EvictExactly | crates/familyclaw-actions/src/pending_store.rs:864-881 | An eviction none of whose tombstones fails writes one for each expired record, answers their number, and compacts exactly at the threshold |
| JournalRuns.CompactExactly | crates/familyclaw-actions/src/pending_store.rs:735-788 | A compaction that swaps leaves one put per live record, numbered from zero; one that does not leaves log and counter alone |
| JournalRuns.CapacityHolds | crates/familyclaw-actions/src/pending_store.rs:820-837 | The number of live records never exceeds the cap in any history that starts within it |
| JournalRuns.CompletedIsBounded | crates/familyclaw-actions/src/pending_store.rs:799-816 | Any completed operation that wrote rows leaves at most max(63, factor * live) of them, however long the log was |
| JournalRuns.LogStaysBounded | crates/familyclaw-actions/src/pending_store.rs:504-523 | A log opened within the bound stays within it, the saturating multiplication included |
| JournalRuns.CompactionIsAmortised | crates/familyclaw-actions/src/pending_store.rs:799-816 | With any factor but 1 the rows rewritten by automatic compaction are at most twice the rows appended plus the rows dead at open, in any history |
| JournalRuns.FactorOneOverpays | crates/familyclaw-actions/src/pending_store.rs:799-816 | With factor 1 one acknowledged replacement on a log of 64 live rows and no dead one appends 1 row and rewrites 64 |
| JournalRuns.AmortisedExactly | crates/familyclaw-actions/src/pending_store.rs:799-816 | The cost bound holds over all histories of automatic compaction if and only if the factor is not 1 |
| JournalRuns.StepTight | crates/familyclaw-actions/src/pending_store.rs:637-654 | An operation keeps row i carrying step i exactly when no append of it is refused |
| JournalRuns.NumberingIsTight | crates/familyclaw-actions/src/pending_store.rs:637-654 | Row i carries step i throughout a history exactly when no append in the history is refused |
| JournalRuns.ReopenedIncreasing | crates/familyclaw-actions/src/pending_store.rs:601-615 | After a reopening the next row continues increasing numbers exactly when the log was tight |
| JournalRuns.OrderedExactly | crates/familyclaw-actions/src/pending_store.rs:601-654 | The step numbers increase and the counter stays ahead of them throughout a history exactly when every reopening in it finds a tight log |
| JournalRuns.NumbersIncreaseExactly | crates/familyclaw-actions/src/pending_store.rs:564-654 | The step numbers increase throughout a history exactly when no operation lands its first row while the counter is behind without renumbering the log |
| JournalRuns.RefusalRepeatsAStep | crates/familyclaw-actions/src/pending_store.rs:601-615 | A refused append followed by a reopening gives two rows the same step number |
| Limiter.DangerousToolRateLimiter.CheckAndRecord | crates/familyclaw-actions/src/pending_store.rs:256-279 | Drops the head older than the window, admits exactly if fewer than the cap are left, and records exactly then |
| Limiter.DangerousToolRateLimiter.CountInWindow | crates/familyclaw-actions/src/pending_store.rs:283-296 | Counts what eviction leaves, and creates no entry |
| Limiter.CallExactly | crates/familyclaw-actions/src/pending_store.rs:256-279 | One call on any queue: it drops exactly the head older than the window, is admitted exactly if fewer than the cap are left, and is recorded exactly then |
| Limiter.RefusedExactlyWhenFull | crates/familyclaw-actions/src/pending_store.rs:256-279 | With an advancing clock a call is refused exactly when the window ending now holds the cap of accepted calls |
| Limiter.WindowCap | crates/familyclaw-actions/src/pending_store.rs:205-223 | No closed interval as long as the window holds more accepted calls of a being than the cap: under any clock for a cap of zero or one, under an advancing clock for every cap |
| Limiter.BeingsAreIndependent | crates/familyclaw-actions/src/pending_store.rs:219-226 | A being's queue and accepted calls depend on its own calls only |
| Limiter.BackwardClockBreaksCap | crates/familyclaw-actions/src/pending_store.rs:256-279 | For every window and every cap of two or more, a history whose clock steps back by one second once gets one call too many accepted inside one window |
| Limiter.CapHoldsExactly | crates/familyclaw-actions/src/pending_store.rs:205-279 | All histories whose clock runs back by at most d seconds keep the cap if and only if d is zero or the cap is at most one |
| Approvals.SaturatingExpiry | crates/familyclaw-actions/src/approval.rs:73-81 | On every representable instant the expiry is now + ttl clamped to the clock's range |
| Approvals.ConstantTimeEq | crates/familyclaw-actions/src/approval.rs:88-99 | The xor-accumulating loop decides equality |
| Approvals.ApprovalLedger.Consume | crates/familyclaw-actions/src/approval.rs:219-282 | Succeeds exactly for a known, unexpired, unused approval bound to the payload's hash, which it then marks; otherwise nothing but the trail changes, and error and audit event name the first failing check |
| Approvals.ApprovalLedger.Grant | crates/familyclaw-actions/src/approval.rs:175-205 | A fresh approval is bound to the hash, unconsumed, and expires at now + ttl clamped to the clock's range; the grant is on the trail |
| Approvals.ApprovalLedger.Deny | crates/familyclaw-actions/src/approval.rs:289-300 | A denial is only put on the trail |
| Approvals.ApprovalLedger.Reinstate | crates/familyclaw-actions/src/approval.rs:315-317 | The given copy replaces whatever the ledger held, and the trail does not grow |
| Approvals.TrailMatchesExactly | crates/familyclaw-actions/src/approval.rs:219-317 | Throughout a history the trail holds one consumption of an approval exactly when its flag is set, if and only if every reinstatement of it carries the flag the ledger has at that moment |
| Approvals.SingleUse | crates/familyclaw-actions/src/approval.rs:219-282 | In every history whose reinstatements carry the current flag an approval is consumed at most once, and once exactly when its flag is set |
| Approvals.ReinstatementsBoundUse | crates/familyclaw-actions/src/approval.rs:302-317 | An approval is consumed at most once more than it is reinstated |
| Approvals.ReinstatementAllowsSecondUse | crates/familyclaw-actions/src/approval.rs:302-317 | The bound is reached: the ledger alone would let a reinstated approval be used twice |
| Tasks.EdgesExactly | crates/familyclaw-actions/src/task.rs:92-113 | The sixteen legal edges, written out as pairs |
| Tasks.ValidExactly | crates/familyclaw-actions/src/task.rs:212-236 | A task is stored exactly if its ids are not nil, it was not updated before its creation, and its deadline is not before its schedule |
| Tasks.ReachesIsClosure | crates/familyclaw-actions/src/task.rs:92-113 | Which status can ever follow which: the closure of the edge relation, with a chain of edges for every pair |
| Tasks.HistoryIsLegal | crates/familyclaw-actions/src/task.rs:340-500 | Over any history no task is lost or relabelled, statuses move along edges, and a terminal one is final |
| Tasks.TaskQueue.Transition | crates/familyclaw-actions/src/task.rs:384-408 | Succeeds exactly on one of the sixteen edges; the task then has the new status and time and nothing else has changed, and the event names both statuses; refused, nothing changes |
| Tasks.TaskQueue.Submit | crates/familyclaw-actions/src/task.rs:340-350 | A storable task under a fresh id is stored; otherwise nothing changes |
| Tasks.TaskQueue.Suspend | crates/familyclaw-actions/src/task.rs:420-446 | Only a running task is suspended; status, reason and time are recorded |
| Tasks.TaskQueue.Resume | crates/familyclaw-actions/src/task.rs:454-477 | Only a suspended task resumes, and its reason is cleared |
| Tasks.TaskQueue.IncrementRetry | crates/familyclaw-actions/src/task.rs:484-502 | The retry count rises by one unless it is at the 32-bit maximum |
| Tasks.DurableTaskQueue.AppendSnapshot | crates/familyclaw-actions/src/task.rs:554-577 | A line is written exactly for a storable task whose append lands, and answered Ok exactly if it is also acknowledged |
| Tasks.TaskQueue.NextReady | crates/familyclaw-actions/src/task.rs:507-514 | The eligible task with the least identifier, whatever the map's order |
| Tasks.LatestIsLastSnapshot | crates/familyclaw-actions/src/task.rs:584-609 | Reloading keeps, for each task, its last snapshot |
| Tasks.DurableTaskQueue.Reload | crates/familyclaw-actions/src/task.rs:584-609 | The loop over the file computes the last snapshot of each task, or fails on an unreadable line |
| Tasks.ReloadEqualsLive | crates/familyclaw-actions/src/task.rs:554-609 | If every change is snapshotted, a reload equals the live queue after any history |
| Tasks.CrashesKeepHistoriesLegal | crates/familyclaw-actions/src/task.rs:554-609 | With snapshots skipped and restarts anywhere, the log never records an illegal history and never runs ahead of the live queue |
| Tasks.TerminalSnapshotIsFinal | crates/familyclaw-actions/src/task.rs:92-113 | A terminal snapshot is followed only by the same status |
| Redaction.TextOfParse | crates/familyclaw-actions/src/proof.rs:144-150 | Splitting a text into words and whitespace loses nothing |
| Redaction.RedactBearerSubstrings | crates/familyclaw-actions/src/proof.rs:182-207 | The find loop marks exactly the words that follow a word ending in Bearer and a space, and reports each |
| Redaction.RedactKeyedToken | crates/familyclaw-actions/src/proof.rs:213-230 | A secret key with a value keeps its key and separator and loses its value |
| Redaction.RedactText | crates/familyclaw-actions/src/proof.rs:144-179 | The two passes compute the word-by-word redaction, and the report grows by exactly its findings |
| Redaction.RedactWord | crates/familyclaw-actions/src/proof.rs:152-176 | One word: key and value first, then the value patterns, else unchanged |
| RedactionLaws.RedactionIsIdempotent | crates/familyclaw-actions/src/proof.rs:144-230 | Redacting any text twice is redacting it once |
| RedactionLaws.NoSecretWordRemains | crates/familyclaw-actions/src/proof.rs:77-123 | No word of any redacted text matches a secret pattern, and a secret key is followed by the marker |
| RedactionLaws.BearerTokensAreMarked | crates/familyclaw-actions/src/proof.rs:182-207 | Wherever "Bearer " occurs in a redacted text, the marker or no token follows |
| RedactionLaws.WhitespaceIsKept | crates/familyclaw-actions/src/proof.rs:144-179 | Every whitespace character stays, in its order |
| RedactionLaws.EmptyReportMeansUnchanged | crates/familyclaw-actions/src/proof.rs:144-179 | A report that did not grow means an unchanged text |
| RedactionJson.RedactionMakesNoSecret | crates/familyclaw-actions/src/proof.rs:77-123 | A text that is no secret as a whole does not become one by being redacted |
| RedactionJson.RedactInnerDeep | crates/familyclaw-actions/src/proof.rs:324-376 | The recursive redactor with its report computes the redacted value and its findings in order |
| RedactionJson.ValueIsIdempotent | crates/familyclaw-actions/src/proof.rs:313-376 | Redacting any JSON value twice is redacting it once |
| RedactionJson.ShapeIsKept | crates/familyclaw-actions/src/proof.rs:324-376 | Redaction keeps keys, order, lengths and every value that is not a string |
| RedactionJson.NoSecretsRemain | crates/familyclaw-actions/src/proof.rs:324-376 | At every depth: under a secret key the marker or nothing, elsewhere no string or word that matches a pattern |
| RedactionJson.NoHitsUnchanged | crates/familyclaw-actions/src/proof.rs:313-376 | An empty report means an unchanged value |
| SecretShapes.NothingLeaks | crates/familyclaw-actions/src/proof.rs:68-123 | Spelt out character by character: no word of a redacted text, wherever it stands, is sk- and eight letters or digits, AKIA and twelve capitals or digits, 32 or more hex digits, or 24 or more base64 characters with one of + / =; and one of the six secret names, in any ASCII case, is given nothing but the marker |
| SecretShapes.EveryWord | crates/familyclaw-actions/src/proof.rs:144-230 | What becomes of every word, in the same terms: the marker behind Bearer and a space, key and marker behind a secret name, the marker for a token shape, and otherwise the word itself at its place |
| SecretShapes.ReportExactly | crates/familyclaw-actions/src/proof.rs:144-230 | The report lists exactly those findings, the Bearer tokens first, each under its pattern's name |
| SecretShapes.NothingFoundExactly | crates/familyclaw-actions/src/proof.rs:144-230 | A text draws no finding, and stays as it is, exactly if it has no word behind Bearer and only harmless ones |
| SecretShapes.StringExactly | crates/familyclaw-actions/src/proof.rs:324-354 | A JSON string: the marker under a secret name or if it is a secret as a whole, otherwise its text redacted; with what is reported |
| SecretShapes.NothingLeaksInside | crates/familyclaw-actions/src/proof.rs:324-376 | No redacted JSON value leaks, at any depth, in the same terms |
| SecretShapes.HarmlessExactly | crates/familyclaw-actions/src/proof.rs:313-376 | A JSON value draws no finding, and stays as it is, exactly if nothing in it is under a secret name, a secret as a whole, or a finding in a text |
| SecretScan.NothingIsSkipped | crates/familyclaw-actions/src/policy.rs:315-336 | An occurrence inside another one is at no word boundary, so skipping past an occurrence skips no assignment |
| SecretScan.HasAssignmentOf | crates/familyclaw-actions/src/policy.rs:315-336 | The skip-ahead loop finds an assignment exactly when there is one |
| SecretScan.HasSecretFieldAssignment | crates/familyclaw-actions/src/policy.rs:315-345 | True exactly when one of the six names, written out, stands at a boundary, in any ASCII case, and is assigned a value |
| SecretScan.AssignsExactly | crates/familyclaw-actions/src/policy.rs:315-345 | A name assigns at a position exactly if it stands there, no letter, digit or _ stands before it, and an assigned value follows |
| SecretScan.AssignedExactly | crates/familyclaw-actions/src/policy.rs:338-350 | What follows a name assigns a value exactly if it is optional whitespace, = or :, optional whitespace, optional quotes, and a letter, a digit, - or _ |
| SecretScan.OtherNamesCanBeSkipped | crates/familyclaw-actions/src/policy.rs:315-336 | For a name that is no word the same loop can miss an assignment |
| Idempotency.AcceptedExactly | crates/familyclaw-actions/src/idempotency.rs:87-113 | A key is accepted exactly if, trimmed, it is not empty, has at most 128 bytes and an id of letters, digits and the five signs; the normal form is the lower-cased scope or default, a colon, and the trimmed id |
| Idempotency.NormalizingTwice | crates/familyclaw-actions/src/idempotency.rs:87-113 | The normal form of an accepted key is its own normal form, unless the key has no scope and more than 120 bytes: then it is rejected |
| Idempotency.KeysCollideExactly | crates/familyclaw-actions/src/idempotency.rs:87-113 | Accepted keys share a normal form exactly when trimmed ids and lower-cased scopes agree |
| Budget.ResourceBudget.TryAcquire | crates/familyclaw-actions/src/resource_budget.rs:113-156 | Refused exactly when a cap is reached, in the order queue, global, skill, and then nothing changes; granted, both counters rise by one |
| Budget.ResourceLease.Release | crates/familyclaw-actions/src/resource_budget.rs:192-215 | Gives the capacity back once; a second release changes nothing |
| Budget.ReleaseConserves | crates/familyclaw-actions/src/resource_budget.rs:192-209 | Releasing an unreleased lease never saturates and keeps every counter exact |
| Budget.TotalIsSum | crates/familyclaw-actions/src/resource_budget.rs:76-84 | The global counter is the sum of the per-skill counters |
| Budget.EveryRunConserves | crates/familyclaw-actions/src/resource_budget.rs:113-215 | In every reachable state the counters equal the unreleased leases, globally and per skill, no zero entry remains and no cap is exceeded |
| Competitors.EffectsAreStepsPlusCrashes | bench-competitors/hermes/memory_md_agent.py:66-84 | For any step count and any sequence of restarts, effects fired = steps completed + crashes hit |
| Competitors.OvercountIsCrashes | bench-competitors/openclaw/memory_md_agent.py:65-97 | A finishing run has overcounted by exactly the crashes before it |
| Competitors.EachCrashRepeatsItsStep | bench-competitors/openclaw/memory_md_agent.py:84-91 | Each step fires once for its completion and once for every crash inside it |
| Competitors.TrimIsLongestSuffix | bench-competitors/hermes/memory_md_agent.py:46-49 | The kept memory is the longest suffix within the budget |
| Competitors.TrimIncrementally | bench-competitors/hermes/memory_md_agent.py:59-63 | Trimming at every save is trimming the whole history once |
| Competitors.HermesAgent.SaveState | bench-competitors/hermes/memory_md_agent.py:59-63 | Trims first, then writes both files |
| Competitors.OpenClawAgent.SaveState | bench-competitors/openclaw/memory_md_agent.py:55-62 | Writes the state first, then keeps the last eight lines in the memory file |
| Competitors.HermesAgent.RunWorkload | bench-competitors/hermes/memory_md_agent.py:66-90 | A run moves the files as the protocol says; state file and memory file hold the trimmed history |
| Competitors.OpenClawAgent.RunWorkload | bench-competitors/openclaw/memory_md_agent.py:65-97 | A run moves the files as the protocol says; the memory file holds the last eight lines, the state file at least those |
| Policy.AutoRunExactly | crates/familyclaw-actions/src/policy.rs:175-207 | Only reads and local writes ever run unapproved, each exactly under the policies that admit it |
| Manifest.WalkFindsFirst | crates/familyclaw-actions/src/manifest.rs:432-454 | The recursive walk finds the first node in document order, key before value, that trips the detector |
| Manifest.FirstHitIsFirst | crates/familyclaw-actions/src/manifest.rs:432-454 | A path is returned exactly when some node trips the detector, and no earlier one does |
| Manifest.WalkMissesNothing | crates/familyclaw-actions/src/manifest.rs:432-454 | The walk finds something exactly if some string or key of the value, at any depth, trips the detector |
| Manifest.CollectTextFields | crates/familyclaw-actions/src/manifest.rs:330-349 | The list holds a text under a label exactly when the manifest has it there, in declaration order and none twice; the signature has no label |
| Manifest.FirstInList | crates/familyclaw-actions/src/manifest.rs:204-211 | The first listed text that trips the detector is the manifest's first field that does |
| Manifest.ValidateManifest | crates/familyclaw-actions/src/manifest.rs:181-263 | The checks one statement at a time, with the loops over text fields and permissions, give the first failing check's error |
| Manifest.ValidExactly | crates/familyclaw-actions/src/manifest.rs:181-263 | A manifest is accepted exactly when it is named, versioned, has an object schema, carries no secret in any text field or anywhere in the schema, states an honest risk, and, if it names a publisher, carries a trusted signature |
| Manifest.HighRiskNeedsApproval | crates/familyclaw-actions/src/manifest.rs:221-258 | A valid manifest that may spend money or write externally always requires approval |
| Manifest.RegistryStaysSafe | crates/familyclaw-actions/src/registry.rs:46-56 | In every reachable registry this holds of every manifest, and none is ever replaced |
| Manifest.SkillRegistry.Register | crates/familyclaw-actions/src/registry.rs:46-56 | Stores a valid manifest under a fresh id; otherwise changes nothing |

## Left out

- `FileJournal` internals (`crates/familyclaw-durable/src/file.rs`): an append is taken to be all-or-nothing and durable, a compaction to swap logs atomically. A partial write that returns an error, and a failure to reopen the handle after the rename, are not modelled.
- Torn lines in the task snapshot file: unlike the journals it is not healed on opening, and a half-written last line would make the restart fail instead of losing one snapshot.
- Undecodable journal rows and failing reads: every row a store reads back is one a store wrote. The snapshot file alone may hold unreadable lines.
- JSON and TOML encoding, SHA-256 (section 6.2 of FIPS 180-4) and Ed25519 (RFC 8032): payloads are texts, the hash is any function of them, a signature check is a predicate.
- UUIDs: identifiers are numbers from a counter that survives restarts, so they are fresh; a submission reserves those of its task, action and approval together.
- The statuses Planned, Ready and Running that a submission passes through within one call: the queue is left in the status the call ends with. The execution audit log and taint flags are not modelled.
- Texts of error messages: only the kind of error and its subject are kept, and the text that replay repeats.
- The in-memory-only runtime configuration (`ActionRuntime::new`), whose outbox and pending store do not survive a crash.
- Concurrent callers of the journalled store's insert: the runtime's mutating methods take it exclusively, and the model is sequential. Mutexes and poisoning are not modelled.
- `redact_value`, the shallow redactor: it is the deep one without its substring pass. Sorting and removing duplicates from the report's pattern names.
- The other detectors behind `detect_secret_like` (key prefixes, long tokens, entropy): validation takes the detector as a parameter.
- The disk methods of `IdempotencyStore`, tool descriptors, skill listings, evals, receipts, the ACP client and channel bridge: wrappers and plumbing around the modelled parts.
- The competitor agents' process kill, environment variables and file encoding: a crash is the hook the harness sets; the step count, four in the source, is any positive number.
- Step counters and row counts as machine words, except in the compaction threshold, where the saturating multiplication is written out.
- Limiter.WindowCap: for a cap of two or more it needs a clock that does not run backwards for the being, and Limiter.CapHoldsExactly shows that it must.
- JournalRuns.CompactionIsAmortised: counts automatic compaction only, since an operator may compact as often as they like; the factor 1 it excludes breaks the bound (JournalRuns.AmortisedExactly).
- Promises.ApprovalOutlivesCrashes: a caller's key must not be the outbox key of an approval still to come; the two share one outbox and the source keeps them apart by convention only.
