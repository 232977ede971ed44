# Verified model of the AI credit ledger, dashboard insights, snapshots and billing events

This Dafny project models the stateful core of the back end and proves what its transactions keep.
`dafny verify dfyconfig.toml` checks all of it.

**AI credits and lease-guarded execution.** One AI request is a chain of separate transactions: submit the message,
reserve a credit, claim a lease, call the provider outside any transaction, then complete or fail. `CreditLedger`
holds accounts, ledger entries and adjustment rows; `Execution` adds conversations, messages and replies, with one
function a transaction; `CreditDatabase` is the same state as an object whose methods update its tables, and its
`Execute` is the whole request. `ExecutionRuns` lets any number of requests interleave at every transaction boundary:
they may share a key, crash, outlive their lease and be superseded while administrators adjust the limit and the
entitlement service answers differently each time. `RunTheorems`, `RecoveryTheorems`, `Recoverability`,
`StrandedCredits`, `AdjustmentTheorems` and `EntitlementCuts` state what holds over all runs. `RequestDecisions` says
what each transaction decides and writes, and `Answers` exactly which requests store the provider's text and with
which code every other one fails. `StaleClaims` and `StaleSessions` show what survives, and what does not, when a
session decides on an older image of the message.

**Insight accumulator.** `InsightModel` reads report rows into events and folds them into the nested tables in one
pass, failing as the code fails. `InsightSpec` says what the tables mean with plain sums and membership over the
events. `InsightSteps` proves that the pass succeeds exactly on the admissible logs and then holds that meaning,
`InsightOrder` and `InsightTheorems` that no order matters, `InsightConservation` that the aggregates add up.
`InsightReadings` says which rows can be read and what each of their cells contributes. `InsightAccumulator` is the
object itself. `ColumnStatistics` is the per-column pass of a snapshot.

**Decimal text.** `DecimalText` has both parsers and the printer; `DecimalLemmas` and `DecimalGrouping` prove round
trips; `DecimalDress` characterizes the accepted texts, with currency symbols, percent signs, parentheses and white
space; `DecimalPrecision` and `InsightExactness` prove that eighty digits never round, and `InsightRounding` that the
tables therefore hold exactly the values the running totals come to.

**Snapshots.** `Snapshots` is the capture, build, validate and store protocol among concurrent edits;
`SnapshotContents` says what a snapshot holds in terms of the tables and artifacts alone; `SnapshotTheorems` proves
the protocol linearizable; `SnapshotDatabase` is its imperative form.

**Billing.** `Invoices` has the out-of-order invoice consumer, `Billing` checkouts, subscription synchronization and
the webhook claim; `BillingTheorems` covers runs of them; `BillingDecisions` and `SubscriptionSync` say exactly what
each transaction accepts and writes, and that a subscription row is what the last snapshot applied to it says;
`WebhookDecisions` which events are taken; `CheckoutOrder` says exactly when a checkout moves back; `BillingDatabase`
is the imperative form.

Readings that need stating:

- A transaction is atomic. A locked read sees the committed row, but an ORM session may keep the image it already has:
  the session factory sets `expire_on_commit=False` (`app/db/session.py:31`), and unlike
  `app/services/dashboard_snapshots.py:972-979` these locked reads do not ask for `populate_existing`: the message reads
  of `_claim`, `_mark_pre_reservation_failure`, `_fail_claim` and `_complete_claim`
  (`app/services/ai_execution.py:644-650`, `:806-812`, `:844-850`, `:900-906`) and the checkout reads of `create` and
  `_expire_rejected_attempt` (`app/services/billing.py:630-636`, `:407-412`).
- For checkouts both readings are modelled; `refreshes` is the parameter and `false` the code as it stands. Everything
  in `BillingTheorems` holds for both, except `IndexNeverFires`. For the code as it stands,
  `CheckoutOrder.StepMovesBackExactlyWhen` and `RunForwardExactlyWhen` name the two steps, and the only two, that move a
  checkout back.
- For requests the protocol in `ExecutionRuns` refreshes its reads. `StaleSessions` runs every transaction on an
  arbitrary image of the message instead: credits are still charged once an answer, because the entry, which no session
  holds between transactions, is read again; the lease does not fence (`StaleClaims.OldImageEvicts`,
  `StaleSessions.SupersededAnswerIsKept`).
- Fresh identifiers and tokens come from one increasing supply.
- A conversation's grounding either succeeds or not, once and for all, because snapshots are immutable.
- A failed message can leave its credit reserved. `StrandedCredits` says exactly when and that it then stays so.
- The repository's documentation (`README.md:2902`) says usage never exceeds the effective entitlement limit. The code
  checks this only when it reserves or adjusts, and the promise is false: `EntitlementCuts.OverEntitlementHappens` is a
  run over the limit, and `EntitlementCuts.WithinExactlyWhen` says which runs keep it.
- The partial unique index on ongoing checkouts is modelled as the rollback it causes.
- Values in the insight tables are integers in units of 10^-20, the finest that the accepted text can express.

## Model

| member | source | states |
|---|---|---|
| LedgerLemmas.ReserveKeeps | app/services/ai_credits.py:248-355 | a reservation keeps the ledger invariant: exact key index, counters equal to the numbers of RESERVED and CONSUMED entries, use within finite limits, chained adjustments |
| LedgerLemmas.ConsumeKeeps | app/services/ai_credits.py:357-393 | consuming keeps the invariant, its counter guard never fires, and it settles exactly the entries that exist and are not RELEASED |
| LedgerLemmas.ReleaseKeeps | app/services/ai_credits.py:395-432 | releasing keeps the invariant, its counter guard never fires, and it settles exactly the entries that exist and are not CONSUMED |
| LedgerLemmas.AdjustKeeps | app/services/admin_ai_credits.py:180-322 | every adjustment, accepted or refused, keeps the ledger invariant |
| LedgerLemmas.ReservedMeansCounted | app/services/ai_credits.py:370-378 | a RESERVED entry implies a positive reserved counter on its account |
| LedgerLemmas.MoveCounters | app/services/ai_credits.py:378-384 | moving one entry out of RESERVED with its account's counters keeps the counters of every account exact |
| LedgerLemmas.DeltaTotalAppend | app/services/admin_ai_credits.py:160-178 | one more row changes the summed deltas of its own account only |
| RequestDecisions.ReserveDecides | app/services/ai_credits.py:260-342 | a known key is answered with its entry's row and its account's counters; a new key that can be reserved adds one RESERVED entry, counts it and sets the ceiling to the effective limit, and nothing else changes |
| RequestDecisions.ConsumeDecides | app/services/ai_credits.py:357-393 | consuming moves a RESERVED entry and one unit of its account, repeats its result for a CONSUMED one, and refuses a missing or RELEASED one, each with its error |
| RequestDecisions.ReleaseDecides | app/services/ai_credits.py:395-432 | releasing moves a RESERVED entry and one unit of its account with the reason, repeats its result for a RELEASED one, and refuses a missing or CONSUMED one, each with its error |
| ExecutionLemmas.SubmitKeeps | app/services/ai_conversations.py:397-481 | submitting keeps the store invariant and changes no settled row; a replay writes nothing |
| ExecutionLemmas.ClaimKeeps | app/services/ai_execution.py:635-768 | claiming keeps the store invariant and the guarantee to the other requests |
| ExecutionLemmas.MarkFailedKeeps | app/services/ai_execution.py:798-831 | marking before a reservation keeps the invariant |
| ExecutionLemmas.ReleaseCreditKeeps | app/services/ai_execution.py:1111-1136 | the recovery release keeps the invariant where it is due |
| ExecutionLemmas.FailClaimKeeps | app/services/ai_execution.py:833-887 | failing a claim keeps the invariant, whoever calls it |
| ExecutionLemmas.CompleteClaimKeeps | app/services/ai_execution.py:889-1024 | completing a claim keeps the invariant, whoever calls it |
| ExecutionLemmas.HolderFacts | app/services/ai_execution.py:712-739 | a PENDING message with a token holds an entry that exists and is RESERVED |
| ExecutionLemmas.HolderUnique | app/models/ai.py:480-500 | no two messages hold one entry |
| RequestDecisions.ClaimDecides | app/services/ai_execution.py:644-768 | a claim tells a settled message's answer or error, waits for a live lease, and otherwise writes entry, fresh token and lease end; without grounding it fails; nothing else changes |
| RequestDecisions.MarkDecides | app/services/ai_execution.py:806-831 | only a PENDING message without an entry is marked, with code and time |
| RequestDecisions.LateCompletionDecides | app/services/ai_execution.py:909-950 | a completion whose token is no longer current changes nothing and returns the stored answer, the stored error, or that another request is running |
| RequestDecisions.LateClaimDecides | app/services/ai_execution.py:1104-1166 | where a claim leads: the answer, the error, waiting, or holding the lease from the request's own clock reading |
| RunLemmas.StepKeeps | app/services/ai_execution.py:1026-1287 | every step of every request, crash, adjustment or clock tick keeps the invariant of store, clients, tokens and leases |
| RunTheorems.ChargedExactlyOnce | app/services/ai_execution.py:889-1018 | after any run there is one message, one entry and one reply a key, and an entry is CONSUMED exactly when a completed message holding it has its reply |
| RunTheorems.TenantBilledPerAnswer | app/models/ai.py:59-134 | after any run a tenant's summed consumed counters equal its stored answers |
| RunTheorems.NoOverspend | app/services/ai_credits.py:290-327 | after any run every account has exact counters and uses no more than its finite limit |
| RunTheorems.StatusesAgree | app/models/ai.py:519-577 | after any run every message row has its status' NULL shape, a lease means a RESERVED entry, and a FAILED message's entry is RELEASED |
| RunTheorems.FailureRefundsOnce | app/services/ai_execution.py:858-884 | the token holder's failure step moves exactly one credit from RESERVED to RELEASED, with time and reason, and fails its message with the code; no other row changes, and a superseded step changes nothing |
| RunTheorems.CompletionChargesOnce | app/services/ai_execution.py:944-1018 | the holder's accepted completion moves exactly one credit to CONSUMED and stores one reply with the request's tenant, conversation, entry, text and time; no other row changes, and any other completion changes nothing |
| Answers.CallSettles | app/services/ai_execution.py:1171-1258 | from every world of the invariant the holder of the lease stores the provider's own text exactly when it has at most 12,000 characters, is a valid analysis where the conversation asks for one, and the database takes the rows; in every other case the message fails with the code of that case, one clause a provider failure, and the credit is released |
| Answers.RequestAnswers | app/services/ai_execution.py:1026-1287 | the same for the whole request, new or taken up again, with the code of each refused reservation and of an ungrounded conversation |
| Answers.AnsweredExactlyWhenServed | app/services/ai_execution.py:1227-1287 | a request ends with the provider's text stored for its message if and only if the credit can be had, the context rendered, the text used and the rows stored; otherwise it ends failed with a code and no credit charged |
| Answers.RefusalOf | app/services/ai_credits.py:262-315 | each kind of access that cannot reserve has its own refusal, a used-up limit another, and a negative limit or an account that cannot be inserted a third |
| RunTheorems.OneHolder | app/services/ai_execution.py:730-739 | at most one client holds a message's current token |
| RunTheorems.LeaseSlack | app/services/ai_execution.py:559-562 | the lease leaves at least thirty seconds beyond the provider timeout |
| RunTheorems.RunTimed | app/services/ai_execution.py:717-729 | in every reachable state no provider call started before the clock reading its lease was computed from |
| RunTheorems.CallsNeverOverlap | app/services/ai_execution.py:717-739 | over any run two provider calls for one message that start within the lease's slack and last at most the timeout are disjoint in time |
| RecoveryTheorems.SettledForever | app/services/ai_execution.py:959-1018 | over any further run settled entries, settled messages, replies and conversations never change |
| RecoveryTheorems.SubmitsExactlyWhen | app/services/ai_conversations.py:397-481 | a new key stores one pending row in a conversation of its own tenant, a known key returns its row exactly when conversation, author and content are the same, and every other submission changes nothing |
| RecoveryTheorems.ResubmitsExactlyWhen | app/services/ai_conversations.py:368-395 | after any further run, submitting under a known key is accepted exactly for what was first asked and is a conflict otherwise |
| RecoveryTheorems.ReplayReturnsTheSame | app/services/ai_execution.py:579-612 | repeating a settled request after any further run returns the same answer or error and writes nothing |
| RecoveryTheorems.NoGuardFires | app/services/ai_execution.py:864-873 | in no run does a request die on an integrity error that escapes its handlers; the claim's errors, which are handled, are the next row's |
| RecoveryTheorems.ClaimGuardExactlyWhen | app/services/ai_execution.py:1111-1136 | in any world of the invariant a claim ends in the handled integrity error exactly when the message's conversation exists and its context cannot be rendered; its other guards never fire |
| Recoverability.RequestSettles | app/services/ai_execution.py:1026-1287 | an uninterrupted request that is new, or finds its message PENDING without a live lease, ends with the message COMPLETED or FAILED and its entry settled, or with none, from any world of the invariant |
| Recoverability.OneRetrySettles | app/services/ai_execution.py:1026-1287 | from every reachable state one uninterrupted retry of a PENDING message without a live lease leaves it COMPLETED or FAILED with its entry settled, or with none |
| Recoverability.OwnStepsDescend | app/services/ai_execution.py:1026-1287 | each of a request's own steps lowers a rank or changes nothing, so a request ends |
| Recoverability.DoneIsFinal | app/services/ai_execution.py:1026-1287 | a finished request takes no further step |
| StrandedCredits.StrandsExactlyWhen | app/services/ai_execution.py:798-831 | a step leaves a FAILED message with a RESERVED entry if and only if it marks a refused request's message while the key's entry is RESERVED, or reserves for a key whose message is FAILED and has no entry, with access, an account and an effective limit above its use |
| StrandedCredits.SecondRequest | app/services/ai_execution.py:1075-1101 | in every run the stranding step belongs to one request while another request reserved the key before it, or marked the message before it |
| StrandedCredits.ReservesExactlyWhen | app/services/ai_credits.py:290-327 | a reservation for a new key is granted exactly when access is granted, the account exists or can be inserted, and its effective limit is absent or non-negative and above its use |
| StrandedCredits.StrandedForever | app/services/ai_execution.py:701-710 | a stranded credit of a grounded conversation stays reserved in every later state |
| StrandedCredits.StrandingHappens | app/services/ai_execution.py:1111-1136 | a concrete run of two same-key requests ends with a stranded credit |
| StaleClaims.OldImageEvicts | app/services/ai_execution.py:644-650 | in a reachable state a claim that decides on the image loaded at submission takes the message from a holder with a live lease, where the refreshed claim waits |
| StaleClaims.ClaimsCollide | app/services/ai_execution.py:717-739 | two clients at their claim: the first takes the lease, the second takes it over when its image is the submitted row |
| StaleClaims.HolderKeptExactlyWhenSeen | app/services/ai_execution.py:717-739 | a claim that reaches the lease check leaves the current token in place exactly when its own image shows a live lease |
| StaleClaims.SeenIsCurrent | app/services/ai_execution.py:644-739 | with the committed row as the image the claim is that of the protocol |
| StaleSessions.StepCharges | app/services/ai_execution.py:833-1024 | a transaction on any image of the message keeps exact counters, limits and the pairing of consumed entries with answers, and changes no settled entry |
| StaleSessions.ChargedOnceOnAnyImage | app/services/ai_execution.py:889-1018 | over every run on arbitrary images counters are exact, finite limits hold, and an entry is CONSUMED exactly when one answer of its tenant names it |
| StaleSessions.BilledPerAnswerOnAnyImage | app/models/ai.py:59-134 | over every run on arbitrary images a tenant's summed consumed counters equal its stored answers |
| StaleSessions.SeenAreCurrent | app/services/ai_execution.py:798-1024 | with the committed row as the image the three settling transactions are those of the protocol |
| StaleSessions.SupersededSettlesExactlyWhen | app/services/ai_execution.py:936-957 | a holder whose token was replaced still settles exactly when its image shows its own token, entry and a PENDING row and the entry is still RESERVED |
| StaleSessions.SupersededAnswerIsKept | app/services/ai_execution.py:900-906 | a concrete run: while a second session holds the message under a live lease, the first completes on its old image and is charged |
| AdjustmentTheorems.LedgerIsAChain | app/services/admin_ai_credits.py:287-322 | after any run each adjustment's `before` is its base plus all earlier deltas of the account, its `after` adds its own delta, it has its audit row, and its key is unique |
| AdjustmentTheorems.LedgerListsTheGrants | app/services/admin_ai_credits.py:287-304 | over any run the adjustment ledger lists, in order, exactly the adjustments whose conditions held when they were asked for |
| AdjustmentTheorems.RowsJoin | app/services/admin_ai_credits.py:287-304 | successive rows of one account under one base join: after equals the next before |
| AdjustmentTheorems.AdjustReplay | app/services/admin_ai_credits.py:213-238 | a same-key replay returns the stored row and adds nothing; a changed request under that key is refused |
| AdjustmentTheorems.AdjustsExactlyWhen | app/services/admin_ai_credits.py:180-350 | under a new key an adjustment, up or down, is granted exactly when actor, tenant, size, entitlement and account allow it and use stays within the ceiling before and after; the stored limit is then base plus all deltas, `remaining` that minus use, and no other row changes |
| AdjustmentTheorems.AdjustRefusals | app/services/admin_ai_credits.py:192-300 | each refusal of a new adjustment has the error of the first condition that fails |
| AdjustmentTheorems.CeilingIsSumOfDeltas | app/services/ai_credits.py:119-148 | over any run with an unchanged finite base the stored limit is that base plus the sum of the account's deltas |
| AdjustmentTheorems.RemainingAgrees | app/services/ai_credits.py:490-510 | `remaining` in a ledger snapshot equals what usage history recomputes |
| AdjustmentTheorems.UsageShows | app/services/ai_credits.py:470-490 | usage history shows base plus deltas minus use, zero for an account past it, nothing for an unlimited one, and fails for a negative ceiling |
| AdjustmentTheorems.ReservationWithinEntitlement | app/services/ai_credits.py:290-327 | a new reservation stays within the entitlement in force at that moment |
| EntitlementCuts.WithinExactlyWhen | README.md:2902 | usage stays within the base last reported plus all adjustments throughout a run if and only if no step of the run is told a base that leaves less than is used at that moment |
| EntitlementCuts.StepWithin | app/services/ai_credits.py:290-327 | after a step that asks for the base an account is within it exactly when it was before; any other step keeps it within |
| EntitlementCuts.OverEntitlementHappens | app/services/ai_credits.py:119-148 | a concrete run ends with one credit in use under an effective limit of zero |
| CreditDatabase.Database.ReserveCredit | app/services/ai_credits.py:248-355 | the reserving method's tables and result are those of the reservation function, and the tables stay valid |
| CreditDatabase.Database.Consume | app/services/ai_credits.py:357-393 | likewise for consuming; the ledger invariant is kept |
| CreditDatabase.Database.Release | app/services/ai_credits.py:395-432 | likewise for releasing; the ledger invariant is kept |
| CreditDatabase.Database.Adjust | app/services/admin_ai_credits.py:180-322 | likewise for an adjustment, granted and refused as `AdjustmentTheorems.AdjustsExactlyWhen` says |
| CreditDatabase.Database.Submit | app/services/ai_conversations.py:397-481 | likewise for a submission |
| CreditDatabase.Database.Claim | app/services/ai_execution.py:635-768 | likewise for a claim; the tables stay valid when the snapshot is of the key's own entry |
| CreditDatabase.Database.MarkPreReservationFailure | app/services/ai_execution.py:798-831 | likewise for the mark before a reservation, whoever calls it |
| CreditDatabase.Database.FailClaim | app/services/ai_execution.py:833-887 | likewise for a failed claim, whoever calls it |
| CreditDatabase.Database.CompleteClaim | app/services/ai_execution.py:889-1024 | likewise for a completed claim, whoever calls it |
| CreditDatabase.Database.Execute | app/services/ai_execution.py:1026-1287 | from any state of the world a whole request leaves the tables and the outcome of an uninterrupted run of its protocol steps and keeps the world's invariant; when its message is new or pending without a live lease its key is settled, it is answered exactly when it can be served, and then the stored reply holds the provider's text |
| BoundedPrompt.BoundedPrompt | app/services/ai_execution.py:513-542 | the prompt is refused exactly when the context fills it; otherwise it is the headed context and a suffix of the joined transcript, at most 30,000 characters in all, complete when it fits and within two characters of the budget when it does not |
| BoundedPrompt.SelectingStep | app/services/ai_execution.py:532-538 | each turn of the selection keeps the room count and the suffix property |
| BoundedPrompt.TranscriptGrows | app/services/ai_execution.py:518-523 | one more line adds to the transcript a blank line, its speaker and its trimmed text, or nothing when it is blank |
| DecimalLemmas.PrintThenParse | app/services/dashboard_insights.py:310-368 | printing then parsing, with either parser, gives back the value, for all values of at most 40 integer and 20 fraction digits |
| DecimalLemmas.PrintIdentifiesValues | app/services/dashboard_insights.py:360-368 | two values print the same text exactly when they are equal |
| DecimalLemmas.PrintIsTidy | app/services/dashboard_snapshots.py:183-194 | printed text has no trailing fraction zero and no negative zero |
| DecimalLemmas.StrictExtendsSnapshot | app/services/dashboard_snapshots.py:197-221 | whatever the snapshot parser accepts, the insight parser accepts with the same value |
| DecimalLemmas.ParenthesesNegate | app/services/dashboard_insights.py:329-353 | a number in parentheses parses to the negated value |
| DecimalLemmas.Unwrapped | app/services/dashboard_insights.py:327-344 | for a clean number in parentheses and nothing else the rewriting steps leave the number and the sign flag |
| DecimalGrouping.GroupingKeepsValue | app/services/dashboard_insights.py:345-349 | a number with thousands separators parses to the value of the plain one |
| DecimalDress.DressedValue | app/services/dashboard_insights.py:327-356 | every numeral, plain or grouped, signed with '-', '+' or U+2212, with spaces inside, a currency symbol before or after it, a percent sign and parentheses, each optional and with white space between, parses to its own value, negated by parentheses; where the field does not allow the decoration, or with a sign inside parentheses, it does not parse |
| DecimalDress.AcceptedIsDressed | app/services/dashboard_insights.py:327-356 | conversely every accepted text is such a numeral in such a decoration, and the field allows it |
| DecimalDress.FlattenPieces | app/services/dashboard_insights.py:327-344 | unifying signs and dropping spaces works piece by piece and leaves every other character |
| DecimalDress.SnapshotReads | app/services/dashboard_snapshots.py:197-221 | the snapshot parser reads every plain numeral of at most 40 and 20 digits with white space around it, with its value |
| DecimalDress.SnapshotReadsOnly | app/services/dashboard_snapshots.py:197-221 | and it reads nothing else |
| DecimalPrecision.AcceptedInDomain | app/services/dashboard_insights.py:37-38 | every accepted text has a value of at most 40 integer and 20 fraction digits |
| DecimalPrecision.TotalsAreExact | app/services/dashboard_insights.py:250-256 | fewer than 10^20 accepted values keep every running total below 10^80, so the context never rounds it |
| DecimalPrecision.RoundsToNearest | app/services/dashboard_insights.py:250-256 | a sum of more than eighty digits is rounded to the nearest eighty-digit value, ties to the even one |
| InsightExactness.RunningTotalIsSum | app/services/dashboard_insights.py:543-554 | running totals at precision 80, in any order, equal the sum of the scaled values |
| InsightRounding.TablesAreNotRounded | app/services/dashboard_insights.py:617-646 | over cells of the exact domain and fewer than 10^20 rows, every additive value per period, every value per label and every value per period and label of the tables is the eighty-digit running total of the cells the rows add under it |
| InsightSteps.StepKeeps | app/services/dashboard_insights.py:556-681 | from tables that mean what a log says, an event succeeds exactly when the longer log is admissible and the new tables then mean what it says |
| InsightSteps.FoldRefines | app/services/dashboard_insights.py:556-681 | the one-pass fold succeeds exactly on admissible logs and then every table holds its declarative meaning |
| InsightSteps.ConsistentStep | app/services/dashboard_insights.py:593-615 | the overlap and ambiguity checks reject a reading exactly when it disagrees with an earlier one |
| InsightSteps.AddValueKeeps | app/services/dashboard_insights.py:617-646 | totals, periods, labels, points and the point counter stay exact, and fail exactly at the cardinality bounds |
| InsightSteps.SeeUnique | app/services/dashboard_insights.py:533-541 | the unique labels of a dimension are those seen |
| InsightTheorems.PassRefines | app/services/dashboard_insights.py:556-681 | a pass over rows succeeds exactly when every row reads well and the log is admissible, and then represents the log |
| InsightReadings.RowReadsExactlyWhen | app/services/dashboard_insights.py:556-681 | a mapped row is read exactly when its columns exist and each cell is readable, and then contributes exactly the labels, readings, count and update its cells show: each value from its own cell with that field's decorations, under the row's period and the labels its measure splits by, each update field from its own column |
| InsightReadings.RowsAndUpdatesCounted | app/services/dashboard_insights.py:648-681 | after a pass the row counter is the number of rows with a numeric cell and there is one update a row with a status cell |
| InsightReadings.SqueezeIsWords | app/services/dashboard_insights.py:385-396 | a label is the cell's words with one space between them |
| InsightTheorems.RowOrderIrrelevant | app/services/dashboard_insights.py:556-681 | permuting rows, and iterating each row's numeric fields in any order, changes neither success nor any table |
| InsightTheorems.ValuesArePlainSums | app/services/dashboard_insights.py:617-646 | each value per period, per label, and per period and label is the sum over rows of what the row's own cells say |
| InsightTheorems.OneSourcePerMeasure | app/services/dashboard_insights.py:593-615 | rows that fill one measure for one period come from one dataset, and for a point-in-time measure share the one reported value |
| InsightTheorems.PassConserved | app/schemas/dashboard.py:126-148 | after a pass the outflow aggregates of every required dimension add up in every direction |
| InsightConservation.OutflowConserved | app/services/dashboard_insights.py:600-646 | grand total, sum over periods, sum over labels and double sum are equal, period by period and label by label |
| InsightConservation.PartsAddUp | app/services/dashboard_insights.py:619-646 | splitting an amount by label or by period loses and doubles nothing |
| InsightConservation.RowsAndColumns | app/services/dashboard_insights.py:633-646 | the nested point table has one total, by rows or by columns |
| InsightConservation.VariancesTotal | app/services/dashboard_insights.py:939-966 | whatever the labels and the two periods, the rows' differences add up to the difference of the two periods' sums |
| InsightConservation.VariancesAddUp | app/services/dashboard_insights.py:931-993 | the variance rows add up to the current period's total minus the prior period's |
| InsightConservation.CoverageExactlyWhen | app/services/dashboard_insights.py:703-710 | the coverage check passes exactly when every required measure has a value and all are measured at the same periods |
| InsightAccumulator.Accumulator.ObserveUnique | app/services/dashboard_insights.py:533-541 | the set update in place equals the label event |
| InsightAccumulator.Accumulator.ObserveReading | app/services/dashboard_insights.py:593-646 | the in-place update of one numeric cell equals its event |
| InsightAccumulator.Accumulator.ObservePlaces | app/services/dashboard_insights.py:620-646 | the loop over dimensions equals the recursive aggregation |
| InsightAccumulator.Accumulator.Observe | app/services/dashboard_insights.py:556-681 | observing a row succeeds exactly when its events fold, and leaves the tables of that fold |
| InsightAccumulator.Accumulator.ObserveAll | app/services/dashboard_snapshots.py:518-525 | observing all rows equals the pass |
| ColumnStatistics.ColumnIsExact | app/services/dashboard_snapshots.py:115-150 | a column's counters, sum and extremes are plain counts, sums and extremes over the lines |
| ColumnStatistics.CellsAddUp | app/services/dashboard_snapshots.py:137-145 | filled and blank cells of a column are together the lines of its sheet |
| ColumnStatistics.LineOrderIrrelevant | app/services/dashboard_snapshots.py:509-516 | the order of the lines changes no column |
| ColumnStatistics.ObserveLine | app/services/dashboard_snapshots.py:512-516 | one line moves every column of its sheet and no other by one observation |
| ColumnStatistics.Aggregate | app/services/dashboard_snapshots.py:434-571 | the pass succeeds exactly when every line fits the declared columns and the counts are those announced, and then holds each column's statistics |
| SnapshotTheorems.SourceOrderIrrelevant | app/services/dashboard_snapshots.py:882-899 | the same sources in any order are the same request, whatever its outcome |
| SnapshotTheorems.BeginCaptures | app/services/dashboard_snapshots.py:901-935 | a capture has sorted ready sources, one signature a source, and an insight configuration that maps exactly those sources |
| SnapshotTheorems.CommitIsAtomic | app/services/dashboard_snapshots.py:972-1086 | a request that replays or stores behaves as if all of it had run at its commit |
| SnapshotTheorems.MaterializesExactlyWhen | app/services/dashboard_snapshots.py:874-1086 | an uninterrupted request whose payload the tables and artifacts determine replays the last version when the hashes agree and else stores the next one with that payload; any other changes nothing and fails for the first thing wrong with it |
| SnapshotContents.DeterminedExactlyWhen | app/services/dashboard_snapshots.py:874-970 | a request is captured and built into a payload if and only if it names 1 to 20 distinct usable sources, the payload repeats the dashboard's columns, holds each source's signature and artifact in ascending order and the insight rendered from them, and its size fits |
| SnapshotContents.BuildsExactlyWhen | app/services/dashboard_snapshots.py:940-970 | building from a capture succeeds with exactly the payload of the captured columns, the artifacts read and their rendering |
| SnapshotContents.ReadyExactlyWhen | app/services/dashboard_snapshots.py:272-293 | a source is ready exactly when it is completed, all its artifact names are present and not blank, and its sizes and counts are in range |
| SnapshotTheorems.UndisturbedIsAtomic | app/services/dashboard_snapshots.py:874-1086 | a request between whose transactions nothing happens is the atomic request |
| SnapshotTheorems.DamagedHistoryRefused | app/services/dashboard_snapshots.py:1027-1086 | a last row whose hash is not its payload's is refused, and so is a version already taken |
| SnapshotTheorems.StoredShape | app/services/dashboard_snapshots.py:1034-1050 | a storing commit appends the row of version n+1 with the built payload and its hash, which differs from the last row's |
| SnapshotTheorems.CommitKeeps | app/services/dashboard_snapshots.py:1018-1086 | a commit appends at most one row, of the next version, to one dashboard and keeps the history invariant |
| SnapshotTheorems.VersionsNeverCollide | app/models/dashboard.py:172-176 | a commit fails exactly for a missing or edited dashboard or a missing, unusable or changed source, each with its error; the version constraint and the stored-hash check never fire |
| SnapshotTheorems.HistoriesAreGapless | app/services/dashboard_snapshots.py:1018-1050 | after any run a dashboard's versions are 1 to n, adjacent hashes differ, hashes are those of the payloads, and source rows match the payload |
| SnapshotTheorems.StoredFromStateInForce | app/services/dashboard_snapshots.py:972-1086 | every snapshot in a dashboard's history entered at a commit, and there its kind, title, configuration and insight configuration were the dashboard's, its sources the jobs' signatures with the artifacts they name, its insight rendered from these or absent, its hash and source rows those of its payload |
| SnapshotDatabase.ReadArtifacts | app/services/dashboard_snapshots.py:940-948 | the reading loop returns one artifact a source, in order, or fails |
| SnapshotDatabase.Database.BeginMaterialization | app/services/dashboard_snapshots.py:874-938 | the read transaction returns the specified capture or error |
| SnapshotDatabase.Database.LatestSnapshot | app/services/dashboard_snapshots.py:1018-1026 | the query loop finds the row of highest version |
| SnapshotDatabase.Database.CommitMaterialization | app/services/dashboard_snapshots.py:972-1086 | the locked transaction's tables and outcome are those specified |
| SnapshotDatabase.Database.Materialize | app/services/dashboard_snapshots.py:874-1086 | an uninterrupted request is the atomic specification, whose result `SnapshotTheorems.MaterializesExactlyWhen` spells out |
| Invoices.StoredIsLatest | app/services/billing.py:1070-1171 | after any deliveries the stored row is the last usable event among those of greatest event time and status, every column holding that event's own field; no row exactly when none was usable |
| Invoices.UpsertDecides | app/services/billing.py:1081-1103 | against an earlier usable event a new one is stored unless it is unusable or strictly older in time and rank |
| Invoices.RefusesExactlyWhen | app/services/billing.py:1089-1163 | an event is refused exactly for another customer or tenant or an unusable field, unless it is outdated before that is looked at |
| Invoices.ConvergesExactlyWhen | app/services/billing.py:81-87 | the stored row is the same for every order and repetition of the same events exactly when the events tied at the greatest time and rank agree |
| BillingTheorems.PrepareKeeps | app/services/billing.py:450-565 | preparing an attempt keeps one ongoing checkout a business and one a key, loses no claimed event, and moves invoices only forward |
| BillingDecisions.PreparesExactlyWhen | app/services/billing.py:450-565 | a known key returns its attempt or conflicts on another plan, a live checkout is in the way, a newest current subscription must not be attached or paid for, and otherwise one pending row is stored for it or for a new one; only a returned or stored attempt commits the expiry of lapsed ones |
| BillingTheorems.PublishKeeps | app/services/billing.py:630-643 | publishing keeps the same on either image, the index refusing a second ongoing checkout |
| BillingTheorems.RejectKeeps | app/services/billing.py:400-421 | expiring a rejected attempt keeps the same on either image |
| BillingDecisions.PublishesExactlyWhen | app/services/billing.py:630-643 | publishing writes session, address and expiry and opens what the image shows as pending, unless the index refuses the row |
| BillingDecisions.RejectsExactlyWhen | app/services/billing.py:400-421 | a rejected attempt expires now unless a refreshed read finds it published or ended |
| BillingDecisions.EndsExactlyWhen | app/services/billing.py:1022-1068 | a checkout event is ignored without checkout metadata and otherwise taken exactly when it names a checkout, its subscription and environment; expiry spares a completed checkout, completion keeps its first time |
| BillingTheorems.EndKeeps | app/services/billing.py:1022-1068 | a checkout event keeps the same |
| BillingTheorems.SyncKeeps | app/services/billing.py:766-891 | synchronization keeps the same, and remote subscription ids stay unique |
| SubscriptionSync.SyncsExactlyWhen | app/services/billing.py:766-891 | a snapshot is taken over exactly when it belongs to a row, has a configured price and a known status, and the row then has exactly that plan, status, customer, remote id and price and the named checkout is complete; a known row with another price or status is closed down to no plan and incomplete; a foreign subscription is ignored and anything else refused |
| SubscriptionSync.RowIsLastHeard | app/services/billing.py:766-891 | over any run, on either image, a subscription row is what the last snapshot applied to it says, and empty if there was none |
| SubscriptionSync.StepHears | app/services/billing.py:1212-1285 | one step changes no subscription row but the one its accepted snapshot is about |
| BillingTheorems.ProcessKeeps | app/services/billing.py:1212-1285 | a webhook either claims its unclaimed event with its effect or leaves every table as it was |
| WebhookDecisions.ProcessesExactlyWhen | app/services/billing.py:1212-1285 | a usable event is a duplicate when claimed and otherwise taken exactly when its body can be: a snapshot that is applied or foreign, a checkout event that names its checkout, an invoice whose subscription is found and whose delivery is not refused; it is recorded as processed or ignored accordingly, and an event that is not taken changes nothing |
| BillingTheorems.RunKeeps | app/services/billing.py:386-421 | over any run, on either image, the invariant holds, checkouts keep their identity and completion time, and no invoice moves back |
| BillingTheorems.OneCheckoutAtATime | app/models/billing.py:59-73 | in every reachable state, on either image, a business has at most one pending or open checkout, and one checkout a key |
| BillingTheorems.IndexNeverFires | app/models/billing.py:68-73 | with refreshed reads the index never refuses a publication: a pending attempt opens, in every reachable state |
| BillingTheorems.AppliedAtMostOnce | app/services/billing.py:992-1020 | over any run, on either image, an event id takes effect at most once, exactly when it is claimed |
| BillingTheorems.InvoiceIsItsDeliveries | app/services/billing.py:1173-1210 | whatever else a run does, on either image, an invoice row is what its accepted deliveries in order make of it |
| BillingTheorems.WebhookOrderIrrelevant | app/services/billing.py:1212-1285 | two runs, each on either image, that accepted the same untied deliveries for an invoice, among any other events, end with the same row |
| CheckoutOrder.StepMovesBackExactlyWhen | app/services/billing.py:630-643 | a step of the code as it stands lowers a checkout's status if and only if it publishes one already complete or expired that the index admits, or rejects one already complete |
| CheckoutOrder.RunForwardExactlyWhen | app/services/billing.py:400-421 | a run of the code as it stands never lowers any checkout's status between two of its points if and only if none of its steps is such a step |
| CheckoutOrder.RefreshedRunForward | app/services/billing.py:630-643 | with refreshed reads no run lowers a status |
| CheckoutOrder.StampMarksCompletion | app/services/billing.py:1022-1068 | with refreshed reads a completion time marks exactly the completed checkouts, in every reachable state |
| CheckoutOrder.StatusForwardExactlyWhenRefreshed | app/services/billing.py:630-643 | so all runs move only forward exactly for the refreshed reading |
| CheckoutOrder.Reopened | app/services/billing.py:641-642 | with the old image a run reopens a completed checkout |
| CheckoutOrder.Discarded | app/services/billing.py:414-420 | with the old image a run expires a completed checkout |
| BillingDatabase.Database.ExpireStaleAttempts | app/services/billing.py:386-398 | the loop expires exactly the lapsed ongoing attempts of the business |
| BillingDatabase.Database.PrepareAttempt | app/services/billing.py:450-565 | the method's tables and outcome are those specified; every error rolls back |
| BillingDatabase.Database.PublishAttempt | app/services/billing.py:630-643 | the method's tables are those specified, for either read |
| BillingDatabase.Database.ExpireRejectedAttempt | app/services/billing.py:400-421 | the method's tables are those specified, for either read |
| BillingDatabase.Database.SyncSubscription | app/services/billing.py:766-891 | synchronization's tables and result are those specified, which `SubscriptionSync.SyncsExactlyWhen` spells out |
| BillingDatabase.Database.CompleteCheckout | app/services/billing.py:1022-1068 | a checkout event's tables and result are those specified |
| BillingDatabase.Database.UpsertInvoice | app/services/billing.py:1070-1171 | an invoice event's tables and result are those specified |
| BillingDatabase.Database.ProcessEvent | app/services/billing.py:1212-1285 | claim, effect and result happen together or not at all, as specified |

## Left out

- BoundedPrompt.BoundedPrompt: the history is an input; which messages the query of `app/services/ai_execution.py:614-633` returns is not modelled, so nothing says the current message is in the prompt.
- RunTheorems.CallsNeverOverlap: a call that starts or ends outside its time bound is not covered; the claim's own clock reading is an input, and requests' clocks only grow.
- StrandedCredits.StrandedForever: for conversations whose context cannot be grounded a later retry may release the credit; the lemma does not cover them.
- DecimalLemmas.PrintThenParse: digits and white space are the ASCII ones; other Unicode digits and spaces are not modelled.
- InsightTheorems.RowOrderIrrelevant: the list of status updates follows row order, so only its multiset is preserved; which error a failing pass reports is not modelled.
- InsightConservation.VariancesAddUp: the two periods are arbitrary labels, so the date parsing behind `_period_sort_key` is not modelled; percentages and sorting of the rows are not either.
- ColumnStatistics.Aggregate: decompression, line length limits, JSON decoding and profile validation are inputs; a sheet's declared columns are distinct, as the profile check ensures.
- StaleSessions.ChargedOnceOnAnyImage: the images vary in the message only; ledger entries, accounts and replies are read from the tables, and each request settles the entry of its own key.
- CheckoutOrder.RunForwardExactlyWhen: the old image is the pending row that the request prepared or replayed; a session that re-read it in between is the refreshed reading.
- Invoices.StoredIsLatest: currency codes are capitalized letter by letter in the ASCII range.
- Invoices.ConvergesExactlyWhen: all deliveries of an invoice resolve to one local subscription and business; an event for another is refused by the code and depends on order.
- Floats and integers beyond forty digits in report cells, because they are outside the exact decimal domain.
- Averages and percentages, because they divide and round.
- Rendering of series, breakdowns, anomalies, recommendations, PDF and HTML.
- Subscription and entitlement lookups: their answers (period, base limit, refusal) are inputs of each reservation and adjustment, and may change between steps.
- Provider, storage, payment and email adapters: results are inputs, artifact versions are immutable, and hashes are a function compared for equality.
- Timestamps except leases, event times and checkout expiry: `last_message_at`, `updated_at` and the timestamp-ordering checks, because two requests' clocks can cross.
- Normalization of message content and idempotency keys before a submission.
- Message history, grounding context and prompt text inside a claim; the prompt is modelled on its own.
- Trial, period and cancellation columns and event stamps of a subscription, and entitlement rows deleted by synchronization.
- Uniqueness of the provider's checkout session ids, which the provider guarantees.
- Validation of checkout prices and parameters before an attempt is prepared.
- Concurrent inserts inside one transaction: transactions are atomic, so the retry branches after a uniqueness violation (`app/services/billing.py:528-563`, `app/services/ai_conversations.py:449-472`) do not occur.
- Release reasons and audit texts as free strings; they are enumerations or left out.
- Authentication, uploads, report processing jobs, admin listings and metrics.
