# Organization provisioning saga: a verified model

The model covers the durable saga engine of the Organization Provisioning plugin: its PostgreSQL
storage layer, the worker batch that drives it, the paged list, and the part of the configuration
that `start` relies on. A saga creates an organization, puts up to 64 entitlement grants, and on
request revokes the grants it put. Six operations change it (`start`, `claim_next`,
`finalize_effect`, `quarantine_expired`, `retry`, `request_cleanup`), and they may interleave in any
order.

## Structure

- `Keys`, `Rows`: identifiers, downstream keys, the rows of the four tables and their CHECK clauses.
- `Sagas`: what each operation does to one saga. `Database`: the operations as whole transactions.
- `Storage`: the class `Store`, one imperative method per storage function, each proved equal to its
  transaction.
- `Journal`, `Invariant`, `Preservation`: replaying the activity log, what holds of every saga, and
  why each operation keeps it.
- `Runs`, `Reach`, `Histories`, `Mutations`, `Fencing`, `Progress`, `Decisions`, `Receipts`, `Schema`:
  arbitrary interleavings of steps and the whole-run guarantees.
- `Written`, `Leases`, `Stamps`: what each operation writes, field by field and without the functions
  that `Store` and the transactions share; what a lease protects; the times every step stamps.
- `Executor`, `Worker`: one provider call, and `process_due` with everyone else's steps between its
  transactions. `Delivery`: from a start's request to the provider call, and from its answer back to
  the rows. `Schedule`: calling `process_due` again and again while it answers `has_more`.
- `Paging`: `list` and whole walks along `next_cursor`. `Configuration`: grant templates.

## Assumptions

- A transaction is one atomic step. Every operation on an existing saga locks its row first, and a
  skipped locked row is a step that other workers take.
- Fresh UUIDs never repeat: new effect ids and lease tokens are not in the tables (`Runs.Enabled`,
  `Worker.FreshTokens`). The request hash is an opaque value.
- Times are arbitrary inputs; no result assumes that clocks agree. A lease's end is the claiming
  process's clock plus the lease, and a quarantine compares it with the time it reads itself.
- The effect rows and activity rows are grouped under the saga they reference. The effect rows are
  held in (kind, ordinal) order, which `Schema.RowsAreSorted` proves is the order of every query.
  `finalize_effect` finds its row by effect id alone; the model looks in the record's own saga, and
  `Schema.KeysUnique` shows no other saga can hold that id.
- Row conditions that an UPDATE repeats after the row was selected and locked under the same
  condition are not written twice.
- `Worker.ProcessDue` starts from tables that satisfy the saga invariant, as all reachable ones do.
- The provider's answer is any answer its interface allows for the effect's kind.

## Model

Rows marked as supporting are steps towards the others.

| member | source | states |
|---|---|---|
| `Histories.ReachableDbInv` | crates/lenso-organization-provisioning-postgres-plugin/src/storage.rs:174-284 | Every interleaving of `start`, claims, finalizations, quarantines, retries and cleanups, from empty tables, keeps for every saga: row layout, row constraints, the prefix shape (done rows, at most one active row, pending rows; create and puts frozen after cleanup), the status summary and the journal; and keeps rows of different sagas apart and every mutation row complete |
| `Histories.OneActiveEffect` | crates/lenso-organization-provisioning-postgres-plugin/src/storage.rs:789-811 | In every reachable state at most one effect of the current phase is in flight, failed or unknown, and every effect before it is done |
| `Histories.StartedIsDue` | crates/lenso-organization-provisioning-postgres-plugin/src/storage.rs:213-274 | Supporting: a started saga is reachable from empty tables, pending, due at once, and has one row per grant and one for the organization |
| `Preservation.StartInv` | crates/lenso-organization-provisioning-postgres-plugin/src/storage.rs:213-274 | A started saga satisfies the invariant for any validated grants and fresh ids |
| `Preservation.ClaimMoves` | crates/lenso-organization-provisioning-postgres-plugin/src/storage.rs:789-853 | Claiming a due saga takes exactly the cursor row, is a legal recorded move, and keeps the invariant |
| `Preservation.FinalizeMoves` | crates/lenso-organization-provisioning-postgres-plugin/src/storage.rs:912-1055 | Finalizing under a live token acts on the cursor row, is a legal recorded move, and keeps the invariant, for every outcome that fits the row |
| `Preservation.QuarantineMoves` | crates/lenso-organization-provisioning-postgres-plugin/src/storage.rs:712-756 | Quarantine acts on the cursor row; its direct status write is what a refresh would have stored; the invariant is kept |
| `Preservation.RetryMoves` | crates/lenso-organization-provisioning-postgres-plugin/src/storage.rs:387-527 | Every accepted retry is a legal recorded move of the cursor row and keeps the invariant |
| `Preservation.CleanupInv` | crates/lenso-organization-provisioning-postgres-plugin/src/storage.rs:595-670 | An accepted cleanup keeps the invariant while freezing the first phase and opening the second |
| `Histories.StatusAgrees` | crates/lenso-organization-provisioning-postgres-plugin/src/storage.rs:1144-1206 | In every reachable state stored status, error and residue agree with the effect rows: running with no error when a row is in flight, otherwise exactly what a fresh scan would store |
| `Invariant.ScanSeesBlocked` | crates/lenso-organization-provisioning-postgres-plugin/src/storage.rs:1151-1203 | The scan's "has an error" logic equals "some row is unknown" and "some row is failed", because such rows always carry an error |
| `Invariant.ScanAgrees` | crates/lenso-organization-provisioning-postgres-plugin/src/storage.rs:1144-1203 | With nothing in flight the scan computes the status and error of the one active row, or pending, or completed |
| `Invariant.ClaimIsCursor` | crates/lenso-organization-provisioning-postgres-plugin/src/storage.rs:789-811 | The claim query picks the first row that is not done, in kind and ordinal order, and finds none exactly when all are done |
| `Sagas.PickIsFirst` | crates/lenso-organization-provisioning-postgres-plugin/src/storage.rs:789-811 | Supporting: a query with ORDER BY and LIMIT 1 picks an eligible row that no eligible row precedes |
| `Histories.LogRebuildsSaga` | crates/lenso-organization-provisioning-postgres-plugin/src/storage.rs:1476-1500 | The activity rows of a reachable saga carry exactly revisions 1..revision, and folding them from the all-pending start gives every effect's state, attempts, error and lease, the cleanup flag and the status |
| `Receipts.LogNamesIds` | crates/lenso-organization-provisioning-postgres-plugin/src/storage.rs:963-989 | In every reachable state the activity rows name the external id of every create and put row, and the saga's organization and membership, exactly; a row an operator confirmed holds some id |
| `Histories.AttemptsInHistory` | crates/lenso-organization-provisioning-postgres-plugin/src/storage.rs:819-820 | An effect's attempts are its claims, and equal its accepted resets plus one if it was claimed since the last of them |
| `Histories.ClaimsAreSeparated` | crates/lenso-organization-provisioning-postgres-plugin/src/storage.rs:426-446 | Between any two claims of one effect an accepted retry reset it |
| `Histories.UnknownIsNotReplayed` | crates/lenso-organization-provisioning-postgres-plugin/src/storage.rs:437-446 | After an unknown outcome the effect is claimed again only after a `confirm_not_applied` |
| `Journal.SettledForever` | crates/lenso-organization-provisioning-postgres-plugin/src/storage.rs:912-931 | Once the log says an effect is applied or compensated, no later activity row is about it |
| `Decisions.RetryAccepted` | crates/lenso-organization-provisioning-postgres-plugin/src/storage.rs:387-511 | A retry is carried out if and only if it names the current revision, the saga is blocked, and the resolution and observed ids are the ones its status and the blocked row's kind call for |
| `Preservation.RetryTargetIsCursor` | crates/lenso-organization-provisioning-postgres-plugin/src/storage.rs:391-418 | The row a retry picks is the only row in the state it searches for, it belongs to the current phase, and it does not depend on how effect ids sort |
| `Decisions.BlockedHasTarget` | crates/lenso-organization-provisioning-postgres-plugin/src/storage.rs:391-418 | In `manual_review`, and in `failed` and `cleanup_failed` for a `retry_failed`, there is always a row to act on |
| `Decisions.RetryUnblocks` | crates/lenso-organization-provisioning-postgres-plugin/src/storage.rs:513-513 | An accepted retry leaves the blocked status: pending again, or completed when the last open row was confirmed |
| `Preservation.CleanupExact` | crates/lenso-organization-provisioning-postgres-plugin/src/storage.rs:595-648 | `request_cleanup` keeps every row but the unfinished puts, which it skips, and adds exactly one revoke per applied put, in order, each put having its grant id |
| `Decisions.CleanupIsExact` | crates/lenso-organization-provisioning-postgres-plugin/src/storage.rs:595-648 | In any later state the revokes and the applied puts correspond one to one, with the put's ordinal, id and grant id; a put is applied if and only if a revoke names it |
| `Decisions.CleanupIsFinal` | crates/lenso-organization-provisioning-postgres-plugin/src/storage.rs:795-811 | Over any run after cleanup no create or put row changes, no revoke is added, revokes keep their identity, and the organization ids stay |
| `Decisions.CleanupCompletedMeans` | crates/lenso-organization-provisioning-postgres-plugin/src/storage.rs:1199-1203 | `cleanup_completed` means every such revoke is compensated |
| `Decisions.CompletedMeans` | crates/lenso-organization-provisioning-postgres-plugin/src/storage.rs:1199-1203 | `completed` means every create and put is applied with its external id and the organization is recorded |
| `Mutations.StartReplays` | crates/lenso-organization-provisioning-postgres-plugin/src/storage.rs:191-211 | A repeated `start` returns its committed response and changes nothing, after any run in between, whatever saga id and effect ids the repeat drew |
| `Mutations.RetryReplays` | crates/lenso-organization-provisioning-postgres-plugin/src/storage.rs:359-386 | The same for `retry`, however far the revision has moved |
| `Mutations.CleanupReplays` | crates/lenso-organization-provisioning-postgres-plugin/src/storage.rs:554-581 | The same for `request_cleanup` |
| `Mutations.StartReuseRefused` | crates/lenso-organization-provisioning-postgres-plugin/src/storage.rs:1427-1429 | A `start` that reuses a committed key with another operation, actor or hash is refused with a conflict and changes nothing, after any run |
| `Mutations.RetryReuseRefused` | crates/lenso-organization-provisioning-postgres-plugin/src/storage.rs:359-377 | The same for `retry`, where a caller that does not own the saga is first told it does not exist |
| `Mutations.CleanupReuseRefused` | crates/lenso-organization-provisioning-postgres-plugin/src/storage.rs:554-572 | The same for `request_cleanup` |
| `Mutations.ReuseConflicts` | crates/lenso-organization-provisioning-postgres-plugin/src/storage.rs:1427-1429 | Supporting: what the mutation check itself answers to such a reuse |
| `Mutations.LookupCases` | crates/lenso-organization-provisioning-postgres-plugin/src/storage.rs:1393-1446 | Supporting: the mutation check executes if and only if the key is unused, conflicts if and only if operation, actor or hash differ, and else answers the response; it never finds an incomplete row |
| `Histories.StartNeverBreaks` | crates/lenso-organization-provisioning-postgres-plugin/src/storage.rs:191-283 | In reachable tables a `start` with a fresh saga id never meets a storage error: it executes, replays or conflicts |
| `Histories.RetryNeverBreaks` | crates/lenso-organization-provisioning-postgres-plugin/src/storage.rs:359-542 | In reachable tables a `retry` never meets a storage error |
| `Histories.CleanupNeverBreaks` | crates/lenso-organization-provisioning-postgres-plugin/src/storage.rs:554-685 | In reachable tables a `request_cleanup` never meets a storage error: every applied put has its grant id |
| `Schema.OneStartRow` | crates/lenso-organization-provisioning-postgres-plugin/src/storage.rs:191-232 | Each saga has exactly one committed `start` mutation row |
| `Fencing.TokenResolvedOnce` | crates/lenso-organization-provisioning-postgres-plugin/src/storage.rs:712-931 | Of all finalizations and quarantines along a run that meet a token, at most one changes the tables; after it, every finalization under the token, of whatever outcome and after any further steps, answers Superseded and leaves every table unchanged |
| `Fencing.ResolvedIffEnded` | crates/lenso-organization-provisioning-postgres-plugin/src/storage.rs:712-931 | A token's lease is ended by exactly these steps: finalizations under it that change the tables, and quarantines that meet it expired |
| `Fencing.LateWorkerIsSuperseded` | crates/lenso-organization-provisioning-postgres-plugin/src/storage.rs:712-735 | Once an expired lease was quarantined, the late finalization of the worker that held it is superseded and changes nothing, after any run |
| `Fencing.QuarantineEnds` | crates/lenso-organization-provisioning-postgres-plugin/src/storage.rs:712-735 | A quarantine ends the lease it meets |
| `Fencing.FinalizeEnds` | crates/lenso-organization-provisioning-postgres-plugin/src/storage.rs:912-1055 | Every finalization that changes anything ends the lease of its own token |
| `Fencing.TokenEndedOnce` | crates/lenso-organization-provisioning-postgres-plugin/src/storage.rs:815-827 | Supporting: along any run a token's lease ends at most once, and the token is spent from then on |
| `Fencing.SpentForever` | crates/lenso-organization-provisioning-postgres-plugin/src/storage.rs:815-827 | Supporting: a token whose lease has ended is never live again, after any run |
| `Fencing.SpentIsSuperseded` | crates/lenso-organization-provisioning-postgres-plugin/src/storage.rs:917-931 | Supporting: a finalization under a spent token answers Superseded and leaves every table unchanged |
| `Progress.HasMoreExact` | crates/lenso-organization-provisioning-postgres-plugin/src/storage.rs:1063-1070 | `has_more` is true if and only if some saga is due for a claim or has an expired lease, although its query ignores effect kinds |
| `Progress.WorkerStepDrops` | crates/lenso-organization-provisioning-postgres-plugin/src/storage.rs:688-1061 | Every claim, finalization and quarantine that changes anything lowers twice the pending rows plus the leased rows |
| `Progress.WorkersStop` | crates/lenso-organization-provisioning-postgres-plugin/src/lib.rs:457-491 | Without new requests, workers can take at most as many effective steps as the tables weigh |
| `Progress.ClaimsBounded` | crates/lenso-organization-provisioning-postgres-plugin/src/storage.rs:766-853 | A saga with n grants is claimed at most 1 + 2n times more than it is retried, over its whole life |
| `Decisions.StepRaisesRevision` | crates/lenso-organization-provisioning-postgres-plugin/src/storage.rs:1204-1209 | A step changes at most one saga and raises that saga's revision by exactly one |
| `Decisions.OneDecisionPerRevision` | crates/lenso-organization-provisioning-postgres-plugin/src/storage.rs:387-389 | Two retries or cleanups carried out on one saga named different revisions, the later one the greater |
| `Histories.RunLater` | crates/lenso-organization-provisioning-postgres-plugin/src/storage.rs:465-473 | Write-once over any run: organization and membership ids, completion times and past log rows never change once written; cleanup is never withdrawn; nothing changes a saga in `cleanup_completed` |
| `Schema.KeysUnique` | crates/lenso-organization-provisioning-postgres-plugin/migrations/001_create_organization_provisioning.sql:28-47 | No reachable state has two effect rows with the same id, the same downstream key, or the same saga, kind and ordinal |
| `Schema.ChecksHold` | crates/lenso-organization-provisioning-postgres-plugin/migrations/001_create_organization_provisioning.sql:4-52 | Every row of every reachable state satisfies the CHECK clauses, and a revoke's source row exists in its saga |
| `Schema.RowsAreSorted` | crates/lenso-organization-provisioning-postgres-plugin/src/storage.rs:1144-1146 | The rows of a saga are held in the order its queries sort by, so reading them in sequence is reading them sorted |
| `Keys.DownstreamKeyInjective` | crates/lenso-organization-provisioning-postgres-plugin/src/storage.rs:235-262 | The three downstream key formats never give two (saga, kind, ordinal) triples the same key |
| `Written.StartWrites` | crates/lenso-organization-provisioning-postgres-plugin/src/storage.rs:174-284 | A `start` under an unused key stores exactly what was asked for: the request's name, slug, owner and requester; one create row and, for grant i, a put row numbered i with that grant's subject kind, feature and limit, each under its own key text; one started activity counting the grants; the reply shows the stored saga and the key replays it |
| `Written.StartedForever` | crates/lenso-organization-provisioning-postgres-plugin/src/storage.rs:213-263 | Over every run after the start these stay stored: name, slug, owner, requester, the create row's key, and each put row's number, key, subject kind, feature and limit |
| `Delivery.RequestReachesProvider` | crates/lenso-organization-provisioning-postgres-plugin/src/lib.rs:502-668 | After any run, whatever row of a started saga is claimed, the call it leads to is the one the start asked for: the create with the start's name, slug, owner and key; put i on the saga's own organization for the subject kind, feature and limit (read back from its digits) of grant i; a revoke of the grant id its put obtained |
| `Delivery.AnswerReachesRow` | crates/lenso-organization-provisioning-postgres-plugin/src/lib.rs:502-668 | The organization and membership ids, grant ids and error codes a provider answers with are the ones stored, on the row the record holds and no other; a lost answer stores the code for its kind |
| `Written.RetryWrites` | crates/lenso-organization-provisioning-postgres-plugin/src/storage.rs:350-543 | Every `retry` under an unused key: which failure it gets, in the code's order, from status, revision, resolution, observed ids and the blocked row's kind; otherwise it acts on the saga's one unknown or failed row, resetting it or storing exactly the observed organization and membership (create), grant id (put) or nothing new (revoke), with status, times, activity and reply |
| `Written.CleanupWrites` | crates/lenso-organization-provisioning-postgres-plugin/src/storage.rs:545-686 | Every `request_cleanup` under an unused key: carried out exactly for the owner, at the current revision, on a `completed` or `failed` saga not yet in cleanup, else which failure, in the code's order; when carried out, every applied put has one revoke with its key, grant and limit, every other put is skipped, and the phase opens, complete at once when nothing was applied |
| `Leases.ClaimWrites` | crates/lenso-organization-provisioning-postgres-plugin/src/storage.rs:789-853 | A claim leases the first pending row: token, lease end, attempt, status, activity and times; the record is a copy of that row and of the saga's request |
| `Leases.LeaseProtects` | crates/lenso-organization-provisioning-postgres-plugin/src/storage.rs:700-735 | Over every run from its claim on, a row leased under the claim's token is leased until exactly the time the claim set, and while it is, no quarantine at or before that time changes anything |
| `Leases.TimelyIsNotSuperseded` | crates/lenso-organization-provisioning-postgres-plugin/src/storage.rs:912-931 | A worker that finalizes before any quarantine past its lease's end is never superseded, whatever else is committed since its claim |
| `Leases.QuarantineWrites` | crates/lenso-organization-provisioning-postgres-plugin/src/storage.rs:712-756 | A quarantine changes a saga if and only if a row is in flight with its lease end passed; that row becomes unknown with the expiry code, its lease cleared and its token recorded |
| `Leases.FinalizeWrites` | crates/lenso-organization-provisioning-postgres-plugin/src/storage.rs:933-1055 | What each outcome writes to the row that is still held, to the saga's ids and to the activity, field by field |
| `Leases.AnswerMeans` | crates/lenso-organization-provisioning-postgres-plugin/src/storage.rs:919-1060 | The answer tells what was done: superseded if and only if the row was no longer held, and if and only if nothing changed; applied, failed or manual review if and only if the held row is now applied or compensated, failed, or unknown |
| `Leases.UndoneMeans` | crates/lenso-organization-provisioning-postgres-plugin/src/storage.rs:1063-1070 | In every reachable state a claim is due exactly for the sagas in a pending status, and a quarantine exactly where a row in flight has its lease end in the past |
| `Leases.StatusMeans` | crates/lenso-organization-provisioning-postgres-plugin/src/storage.rs:1144-1206 | The status values by the rows of the phase: running, failed and manual review exactly when a row is in flight, failed or unknown, each in its phase's own wording; pending and completed with no such row |
| `Stamps.StepStamps` | crates/lenso-organization-provisioning-postgres-plugin/src/storage.rs:1204-1209 | Every step that changes a saga stamps it and every row it writes with its own time, raises the revision by one, and writes a completion time once, when its status is first reached |
| `Storage.Store.Start` | crates/lenso-organization-provisioning-postgres-plugin/src/storage.rs:174-284 | The transaction statement by statement: its tables and reply are those of the specified start, and under an unused key exactly the ones `Written.StartWrites` describes by field; anything but success changes nothing |
| `Storage.Store.InsertEffects` | crates/lenso-organization-provisioning-postgres-plugin/src/storage.rs:234-263 | Supporting: the insertion loop leaves one create row and one put row per grant, numbered from zero; `Written.StartWrites` says what these rows hold |
| `Storage.Store.Retry` | crates/lenso-organization-provisioning-postgres-plugin/src/storage.rs:350-543 | The same for `retry`, including every refusal and the rollback of the reserved key: in a reachable store and under an unused key, exactly the outcome described by field in `Written.RetryWrites` |
| `Storage.Store.ApplyResolution` | crates/lenso-organization-provisioning-postgres-plugin/src/storage.rs:426-511 | Supporting: the row updates of each resolution, or the refusal that keeps the rows; `Written.RetryWrites` says what they hold |
| `Storage.Store.RequestCleanup` | crates/lenso-organization-provisioning-postgres-plugin/src/storage.rs:545-686 | The same for `request_cleanup`: in a reachable store and under an unused key, exactly the outcome described by field in `Written.CleanupWrites` |
| `Storage.Store.InsertRevokes` | crates/lenso-organization-provisioning-postgres-plugin/src/storage.rs:610-648 | The loop inserts one revoke per applied put and stops at a put without a grant id |
| `Storage.Store.ClaimNext` | crates/lenso-organization-provisioning-postgres-plugin/src/storage.rs:766-899 | Claims the next effect of the due saga with the earliest update time, the least id among equals, and leases its row under the new token until the clock plus leaseSeconds; answers its record; idle if and only if no saga is due |
| `Storage.Store.FinalizeEffect` | crates/lenso-organization-provisioning-postgres-plugin/src/storage.rs:901-1061 | Tables and answer are those of the specified finalization; for an issued record in a reachable store the answer names the state its row is now in, or superseded, as in `Leases.AnswerMeans` |
| `Storage.Store.QuarantineExpired` | crates/lenso-organization-provisioning-postgres-plugin/src/storage.rs:688-764 | The batch is a run of quarantine steps, each on the least recently updated expired saga, at most `limit`; fewer only when none is left; on a broken row everything is rolled back |
| `Storage.Store.ScanRows` | crates/lenso-organization-provisioning-postgres-plugin/src/storage.rs:1151-1178 | The loop computes the first unknown error, the first failed error, and whether anything is open, over the rows of the phase only |
| `Storage.Store.RefreshSagaStatus` | crates/lenso-organization-provisioning-postgres-plugin/src/storage.rs:1126-1216 | Stores the scanned status, error, residue and completion times under the next revision |
| `Storage.Store.SelectOldest` | crates/lenso-organization-provisioning-postgres-plugin/src/storage.rs:700-702 | The row selection: the eligible saga whose update time is least, and of those the least id; none only when none is eligible |
| `Storage.Store.BeginMutation` | crates/lenso-organization-provisioning-postgres-plugin/src/storage.rs:1384-1446 | Reserves an unused key and otherwise answers what the stored row says, changing nothing |
| `Storage.Store.HasMoreWork` | crates/lenso-organization-provisioning-postgres-plugin/src/storage.rs:1063-1070 | In a reachable store the query answers true if and only if a claim or a quarantine would find something, although it looks at states and statuses only |
| `Executor.ClaimedIsComplete` | crates/lenso-organization-provisioning-postgres-plugin/src/lib.rs:502-668 | Everything a worker can claim reaches its provider with the intended request: the create under its own key, a put on the saga's organization for a valid subject and feature, a revoke of exactly the grant its put obtained; the defensive failures never happen |
| `Executor.OutcomeFits` | crates/lenso-organization-provisioning-postgres-plugin/src/lib.rs:502-668 | Supporting: no outcome mismatches its effect's kind |
| `Executor.VerdictDecides` | crates/lenso-organization-provisioning-postgres-plugin/src/lib.rs:502-668 | Finalizing what the provider answered: a call that took effect completes its row and advances the saga, a refusal fails it, and a lost answer always ends in manual review, never in a failure a plain retry would repeat; no other row changes |
| `Worker.ProcessDue` | crates/lenso-organization-provisioning-postgres-plugin/src/lib.rs:447-500 | Bounds outside 1..100 and 5..300 are refused unchanged, and only they; a valid request never fails, is one run of exactly the told claims, finalizations and interfering steps; completed, failed and manual_review count the claimed rows that ended applied or compensated, failed, and unknown (plus the quarantined sagas), with claimed = completed + failed + (manual_review - quarantined) + superseded and quarantined + claimed <= limit; `has_more` says whether a claim or quarantine would find something; undisturbed, nothing is superseded, the work left drops by at least quarantined + 2 claimed, a short batch leaves nothing due, and work that was there gets done |
| `Schedule.ProcessUntilDone` | docs/postgresql-operations.md:73-79 | The documented calling loop: without interference and with clocks that do not go back, calling `process_due` while it answers `has_more` comes to an end, after at most one call more than the tables weigh, with nothing left that a claim or a quarantine would find |
| `Worker.ProcessOne` | crates/lenso-organization-provisioning-postgres-plugin/src/lib.rs:466-491 | One turn claims the oldest due effect and finalizes it with its provider's outcome, with arbitrary steps before the claim and during the call |
| `Worker.TurnIsRun` | crates/lenso-organization-provisioning-postgres-plugin/src/lib.rs:466-491 | A turn in a reachable store never breaks, is part of one run, and undisturbed is never superseded |
| `Worker.ClaimedTurn` | crates/lenso-organization-provisioning-postgres-plugin/src/lib.rs:474-491 | A claim and its finalization, with anything in between, are steps of one run, and the finalization always answers |
| `Schedule.HasMoreLater` | crates/lenso-organization-provisioning-postgres-plugin/src/storage.rs:1063-1066 | Supporting: work does not go away by waiting |
| `Worker.TurnLeases` | crates/lenso-organization-provisioning-postgres-plugin/src/storage.rs:813-827 | Supporting: a turn's claim leases its row under the turn's token until the turn's clock plus leaseSeconds |
| `Worker.FinalizeIsStep` | crates/lenso-organization-provisioning-postgres-plugin/src/storage.rs:901-931 | Finalizing an issued record never fails; it is superseded if and only if the record no longer holds its row |
| `Paging.List` | crates/lenso-organization-provisioning-postgres-plugin/src/lib.rs:298-345 | A page is refused exactly when the limit is not 1..100; otherwise it holds the newest rows of the caller in the status asked for and past the cursor, in strictly descending order of creation time and id, and a cursor at its last row if and only if a matching row was left out |
| `Paging.ListRows` | crates/lenso-organization-provisioning-postgres-plugin/src/storage.rs:311-329 | The ordered, limited query: first rows, newest first, all of them when there are fewer than the limit |
| `Paging.WalkIsPartition` | crates/lenso-organization-provisioning-postgres-plugin/src/lib.rs:316-344 | On a fixed table a completed walk returns every saga of the caller in the status asked for exactly once, nothing else, strictly descending |
| `Paging.WalkEnds` | crates/lenso-organization-provisioning-postgres-plugin/src/lib.rs:327-341 | On a fixed table no walk has more than one page more than there are rows |
| `Paging.WalkSurvivesChanges` | crates/lenso-organization-provisioning-postgres-plugin/src/lib.rs:316-344 | With no status filter, a completed walk returns every saga its caller had at the start exactly once, under arbitrary steps between its pages |
| `Paging.WalkKeepsMatching` | crates/lenso-organization-provisioning-postgres-plugin/src/lib.rs:316-344 | With any filter, under arbitrary steps between its pages, a completed walk returns every saga that matches at each page read exactly once, and no saga twice |
| `Paging.WalkDescends` | crates/lenso-organization-provisioning-postgres-plugin/src/storage.rs:318-320 | A walk is strictly descending even when the tables change between its pages |
| `Configuration.ValidateGrants` | crates/lenso-organization-provisioning-postgres-plugin/src/lib.rs:119-133 | The loop accepts exactly the templates that are few enough, well formed and distinct by subject kind and feature |
| `Configuration.ConfiguredStartIsOk` | crates/lenso-organization-provisioning-postgres-plugin/src/lib.rs:147-166 | The snapshots of a validated configuration succeed and give `start` everything it relies on |
| `Configuration.SnapshotsFailWhen` | crates/lenso-organization-provisioning-postgres-plugin/src/lib.rs:147-166 | Snapshotting fails if and only if some limit does not parse |
| `Configuration.LimitRoundTrips` | crates/lenso-organization-provisioning-postgres-plugin/src/lib.rs:595-595 | A limit written out for the provider reads back as the same limit |

## Left out

- Authorization, actor assertions, secrets, plugin lifecycle and schema setup.
- The generated wire types and their JSON form, provider receipts (`provider_receipt`), row decoding
  and database errors; a response is the view value itself.
- Isolation below a transaction: snapshots, row rechecks after locking and `SKIP LOCKED` timing.
- The Organization and Entitlements providers. Nothing is claimed about how often a provider acts: a
  late call from a worker that lost its lease is outside this code's control.
- SHA-256, UUID generation, RFC 3339 text and the cursor's text form: a page cursor carries its
  (created_at, id) pair.
- 64-bit and 32-bit overflow of revision and attempts, and the saturating counters of `process_due`.
- Validation of names, slugs, subjects, evidence, idempotency keys, callers and status filters, and the
  mapping of provider errors to codes; `Configuration.ConfiguredStartIsOk` takes the request's length
  bounds as given.
- `get`, and the failures of `load_view` and `complete_mutation` that no transaction can meet.
- Rows whose state, status or kind is none of the known texts.
- Receipts.LogNamesIds: says of a row confirmed by `confirm_applied` only that it holds some id, because
  its activity row does not record the observed ids.
- The status table in `docs/plugin-card.md` is not followed where the code differs: it omits
  `cleanup_failed` to `cleanup_pending` and `manual_review` to the cleanup statuses, which the code has.
- `refresh_saga_status` is modelled with its revision bump always on, as every caller passes it.
