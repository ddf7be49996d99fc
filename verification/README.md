# Keyer policy engine: a verified model

Keyer keeps per-key policies (models, request rates, dollar budgets), charges every request to a quota ledger that is
written through to SQLite, and reports what was used. This project models that engine — `internal/policy` — in Dafny and
proves what it keeps over whole runs. Code that works on mutable state (ledger, limiter, store, state file, configuration)
is a class or a method with loops, proved against a specification function; the laws are lemmas about those functions.

| file | what it models |
|---|---|
| `UsageWindows.dfy` | daily and weekly windows as values, a log of charges and its replay |
| `UsageLedgers.dfy` | the ledger object: charge on a copy, write through, publish; summaries, snapshots, resets |
| `UsageProtocol.dfy` | charging, flushing, resetting, key and plan edits, `Configure` and `Close` as interleaved steps |
| `UsageProtocolOperations.dfy` | the whole effect of each of these operations, for every outcome, when its thread runs alone |
| `UsageProtocolSafety.dfy`, `UsageProtocolTheorems.dfy`, `UsageProtocolSchedules.dfy` | the inductive invariant of that protocol, what follows from it, and concrete schedules |
| `LockOrder.dfy` | the lock programs of the store operations, with the reader-writer lock and the flusher join |
| `RateLimiting.dfy`, `BudgetGate.dfy` | admission control and its bounds over unbounded runs |
| `PolicyConfig.dfy` | normalization of keys, plans and legacy aliases |
| `PlanBindings.dfy`, `PolicyStore.dfy`, `StoreConfiguration.dfy`, `KeyPreviews.dfy` | subscription plans and key operations, the hash index, save before publish, `Configure` |
| `Prices.dfy`, `Pricing.dfy` | amounts on the grid of 1e-12 USD, cost breakdown, the receipt of a request |
| `UsageHistory.dfy` | filters, trend buckets and totals, pages |
| `LegacyMigration.dfy` | the event history carried out of the legacy JSON state, and the ids given afterwards |
| `StoredTimes.dfy` | the milliseconds in which the state file keeps times |
| `Strings.dfy`, `Int64.dfy`, `Wrappers.dfy` | byte order, trimming and folding; 64-bit wrap-around; `Option` and `Result` |

Instants are nanoseconds since the zero value of Go's `time.Time` (so `IsZero` is `== 0`), columns of `usage_events` are
Unix nanoseconds, those of keys and plans Unix milliseconds (`StoredTimes`). Ledger money is counted in grid units; `Pricing.ChargesAccumulateExactly` is why that loses nothing.
Clock readings, the outcome of a transaction and the schedule of threads are parameters and therefore arbitrary.

Findings, each with a lemma that exhibits it:

- A charge whose ledger was captured before the database, as `RecordResponseCost` does, can be computed from a replaced
  ledger and committed to the new database. A commit is sound exactly when the captured ledger is still the store's
  (`CommitIsSoundIffLedgerIsCurrent`). `ResponseChargeCanBeLost` is a schedule in which it is not, and in which the next
  flush takes the committed charge out of the file again. `RecordUsage` captures in the other order and is always sound.
- The request limiter admits `(n + 1) * rpm - 1` requests in some interval of n minutes, for every n >= 1, and never more.
- A key's daily total equals the sum over its models exactly when no charge of the day carried a negative cache cost or
  token count: the key level drops those, the model level adds them (`NegativeTokensDisagree` is such a charge).
- The state file rounds the times of keys and plans down to milliseconds and reads two of them as "no time": the first
  one of 1970, which it writes as zero, and the first one of year 1, which it reads as Go's zero time. A subscription that
  expired there never expires once the file has been opened again, and every other one stays expired
  (`ExpirySurvivesIff`); `Expiry1970IsForgotten` is such a plan. `ReopeningChangesNothingIff` is the exact condition under
  which all of a policy comes back.
- A trend adds up to its totals exactly when no selected row before 1970 is rounded up past the end of the range
  (SQLite truncates toward zero); `RowBefore1970IsNotShown` is such a row.
- A page number near 2^62 wraps the offset around and shows the first page again (`HugePageRepeatsTheFirst`).
- The id of an expired event that a migration leaves behind stays unused exactly when the legacy counter or some retained
  id exceeds it and the largest 64-bit id is not retained (`DroppedIdStaysUnusedIff`); `DroppedIdIsGivenAgain` is an input
  on which it is handed out again. The largest id, if retained, blocks every insert until it expires, after which ids
  start over at 1 (`LargestIdBlocksInserts`).
- Storing a key leaves a dangling binding exactly when its own binding names no plan (`UpsertKeyDangles`).
- A row is the replay since the key's last reset or deletion exactly when no deletion is waiting to be saved or was undone
  by loading the file again (`RowIsSinceTheLastReset`). Only `Close`, which goes on when its flush fails, makes the latter
  possible (`OnlyCloseUndoesDeletions`); `CloseUndoesADeletion` is such a run.
- The comment at `internal/policy/cost.go:296` calls the reported hits those billed at the cache price; the code reports
  the hits of a request without a cache price as well, and the model follows the code (`HitsAreReportedWithoutAPrice`).

## Model

| member | source | states |
|---|---|---|
| UsageProtocolTheorems.MemoryAgreesWithFile | internal/policy/store_usage_persistence.go:30-46 | from any files an earlier process left, in every schedule of `RecordUsage`, flusher ticks, flushes, resets, key and plan edits, deletions, `Configure`, `Close` and failing transactions: whenever `persistMu` is free each live entry equals its row in the current file, and the two tables are equal unless a `DeleteKey` save failed since the last full write |
| UsageProtocolTheorems.NothingErasedNothingLost | internal/policy/store_usage_persistence.go:30-46 | in a run that neither resets usage nor deletes the key, its row in every file is the row found at the start grown by every charge ever committed for it there: nothing is lost, doubled or reordered by flushes, edits, other deletions, `Configure` or `Close` |
| UsageProtocolTheorems.CommittedChargesSurvive | internal/policy/store.go:155-185 | from any point of a run at which no reset and no deletion of the key is under way and no deletion of it waits to be saved into that file, and as long as none begins, what was committed before stays in the row and later charges are added to it; and whenever that file is current again, after any number of `Configure` calls, the live ledger holds exactly that |
| UsageProtocolTheorems.RowIsSinceTheLastReset | internal/policy/state_database.go:548-616 | a row is made of exactly the charges committed since the last reset or deletion of the key if and only if no deletion of it is waiting to be saved and none that was undone by loading the file again lingers; while none lingers the row has the replayed value if and only if none is waiting |
| UsageProtocolTheorems.HistoryIsIntendedIff | internal/policy/store.go:729-760 | the same for every log: what the saves made of a key's row is what its resets and deletions intended, exactly unless a deletion is waiting or lingering |
| UsageProtocolTheorems.OnlyCloseUndoesDeletions | internal/policy/store.go:83-89 | in a run without `Close` no deletion is ever undone: deletions wait in the current file only, and a `Configure` that cannot save them gives up |
| UsageProtocolSchedules.CloseUndoesADeletion | internal/policy/store.go:907-919 | a run in which a deletion and the flush of `Close` both fail to save, after which the deleted key's usage is back in the file and in the live ledger |
| UsageProtocolTheorems.StepGrowsLog | internal/policy/store.go:729-863 | a step adds at most one entry to the log, and only the operation the entry names makes it at that point: reset entries come from `ResetAllUsage`, deletion entries from `DeleteKey` of that key |
| UsageProtocolTheorems.RowsFoldCommits | internal/policy/state_database.go:568-616 | in every state of every run a row is the value found at the start, unless reset since or a deletion of it was saved, grown by the charges committed since |
| UsageProtocolTheorems.RowsAccountForCommits | internal/policy/state_database.go:568-616 | if the row found at the start accounts for earlier charges, the row accounts at every point of every run for those and the ones committed since, day by day and week by week, for the key and for each model, so restarts and crashes do not break the account |
| UsageProtocolTheorems.FullWritesCopyTheLedger | internal/policy/store.go:824-863 | a flush, edit or deletion that writes leaves the file equal to the live ledger, which it does not change, and takes out of it exactly the deletions that were waiting to be saved |
| UsageProtocolTheorems.SwapHandsOver | internal/policy/store.go:155-185 | at the swap in `Configure` the old file holds all of the live ledger, the new ledger equals the new file, and on the same path the live usage is unchanged, so every committed charge is still there |
| UsageProtocolTheorems.StraddlingChargeIsAllOrNothing | internal/policy/store.go:395-444 | a `RecordUsage` that straddles a swap finds its captured handle open exactly when it is still the store's database; then it writes and its ledger is the current one, otherwise the store is unchanged |
| UsageProtocolTheorems.CommitIsSoundIffLedgerIsCurrent | internal/policy/store.go:354-367 | a committing charge leaves memory equal to the file and the file equal to its log if and only if the ledger it captured is still the store's |
| UsageProtocolSchedules.ResponseChargeCanBeLost | internal/policy/store.go:357-366 | a concrete schedule in which `RecordResponseCost` reads the ledger, `Configure` runs, and the commit breaks that agreement; after the next flush the file is what it was before the commit, without the charge the log holds |
| UsageProtocolSchedules.FlushErasesStaleCharge | internal/policy/store.go:354-367 | after every commit of a stale state the next flush puts the file back, so the row no longer stands for its log |
| UsageProtocolTheorems.FirstIsNeverStale | internal/policy/store.go:395-444 | a charge that captured the database first never commits a state computed from a replaced ledger |
| UsageProtocolTheorems.RunKeepsInv | internal/policy/store.go:72-187 | every schedule without `RecordResponseCost` stays inside the invariant, starting on any files |
| UsageProtocolSchedules.ConfigureCompletes | internal/policy/store.go:72-187 | from any state with both locks free and no flusher running, an uninterrupted `Configure` ends with a new open database and a new ledger |
| UsageProtocolOperations.ResetCompletes | internal/policy/store.go:843-863 | from any state with both locks free and the database open, the uninterrupted moves of a reset leave file and live ledger empty and the log longer by just that reset, and nothing else changed; without a database the ledger is emptied |
| UsageProtocolOperations.ResetGivesUp | internal/policy/store.go:854-858 | a reset that cannot be saved changes neither |
| UsageProtocolOperations.DeletionCompletes | internal/policy/store.go:729-760 | an uninterrupted deletion takes exactly the key out of the live ledger and makes the file equal to it |
| UsageProtocolOperations.DeletionIsNotSaved | internal/policy/store.go:750-760 | one whose save fails takes the key out of the ledger only, and is remembered as not saved |
| UsageProtocolOperations.RefusalChangesNothing | internal/policy/store.go:735-743 | an edit or deletion that is refused changes nothing |
| UsageProtocolOperations.EditCompletes | internal/policy/store.go:696-726 | an edit writes the live ledger into the file, or changes no usage if that fails |
| UsageProtocolOperations.FlushCompletes | internal/policy/store.go:824-839 | so does a flush |
| UsageProtocolOperations.ChargeCompletes | internal/policy/store_usage_persistence.go:21-48 | an uninterrupted charge replaces one entry, in ledger and file alike, by what the live entry becomes with the request's model and amounts at the time the clock showed, and logs exactly that |
| UsageProtocolOperations.ChargeIsDropped | internal/policy/store_usage_persistence.go:22-29 | a charge that does not commit, has no key or finds no database changes nothing |
| UsageProtocolOperations.FlusherStarts | internal/policy/store.go:880-892 | a flusher is started if none is registered |
| UsageProtocolOperations.FlusherFlushes | internal/policy/store.go:925-937 | a round of the flusher writes the live ledger into the file |
| UsageProtocolOperations.FlusherIsJoined | internal/policy/store.go:894-904 | whoever stops the flusher waits until it is done, and then goes on |
| UsageProtocolOperations.CloseCompletes | internal/policy/store.go:907-919 | `Close` flushes, and detaches and closes the database even if that has failed |
| UsageProtocolOperations.ConfigureSucceeds | internal/policy/store.go:72-187 | an uninterrupted `Configure` flushes the old file, loads the new one into a new ledger, publishes both and closes the old handle; all files keep their rows |
| UsageProtocolOperations.ConfigureNeedsItsFlush | internal/policy/store.go:83-89 | if its flush fails nothing has changed |
| UsageProtocolOperations.ConfigureAbandons | internal/policy/store.go:101-163 | if loading, saving or the backfill fails the new handle is closed again and database, live ledger and all rows are those of the flush |
| UsageProtocolOperations.AbandonedIsUnused | internal/policy/store.go:101-163 | what such a `Configure` has loaded and written back changes no row and is not in use |
| UsageProtocolSafety.StepKeepsInv | internal/policy/store_usage_persistence.go:7-48 | every single step of every operation keeps the invariant, the commit of a stale state being the only exception |
| UsageWindows.ReplayAccounts | internal/policy/usage.go:82-192 | with a clock that does not go back, replaying charges gives a daily total that is the sum over the window's UTC day and a weekly total that is the sum over seven days from its start, for the key and for each model |
| UsageWindows.MeterSums | internal/policy/usage.go:82-111 | lazily reset windows account for all dated amounts and start where the last reset put them |
| UsageWindows.WindowsStart | internal/policy/usage.go:82-111 | when windows start: a charge within seven days of the weekly start finds that window, a later one starts the next, the first one starts the first, and the day is the charge's own; so for the key and, counted from its own first charge, for the charged model, while other models keep theirs |
| UsageWindows.KeyReconcilesWithModels | internal/policy/usage.go:149-192 | key totals of the day equal the sums over the models whose window is on that day if and only if no charge of the day carried a negative cache cost or token count; dollars and calls always agree |
| UsageWindows.ModelsOfTheDay | internal/policy/usage.go:100-111 | the models on the day of the last charge add up to all charges of that day although their windows reset independently |
| UsageWindows.GuardedAgainstRaw | internal/policy/usage.go:158-173 | the key level is never below the plain sum of the charges, and equal exactly when nothing negative was dropped |
| UsageWindows.ZeroDayAccountsIff | internal/policy/usage.go:82-87 | for clocks that may stand on Go's zero day the daily total is the sum of the day if and only if the last charge lies on a later day or what came before it on the zero day sums to nothing |
| UsageWindows.NegativeTokensDisagree | internal/policy/usage.go:149-192 | an input: one charge of minus one input token leaves the key's total of the day at zero and that of its models at minus one |
| UsageWindows.ZeroDayLosesCharges | internal/policy/usage.go:82-87 | an input: on Go's zero day two charges leave a daily count of one |
| UsageLedgers.UsageLedger.RecordCost | internal/policy/usage.go:127-145 | the entry and the row become the charged state together, or neither changes, and exactly when; other keys and states already in the ledger are untouched; an empty id does nothing |
| UsageLedgers.UsageTable.PersistUsageEntry | internal/policy/state_database.go:568-616 | after pruning, one transaction writes the row under the trimmed id and the dated event, or neither; a closed database, a blank id or a failed prune always fails; what was pruned stays pruned |
| UsageLedgers.UsageTable.MaybePrune | internal/policy/state_database.go:803-830 | at most once an hour, or when the clock has gone back, the events past the retention period go and no other; a failed attempt is due again at once |
| UsageLedgers.RecentKeeps | internal/policy/state_database.go:821-825 | pruning keeps exactly the events dated at or after the cutoff |
| UsageLedgers.EventsAreKeptNinetyDays | internal/policy/state_database.go:803-831 | over any run of writes with a clock that does not go back and no failed clean-up the table holds only written events, all that are at most ninety days old, and none older by more than an hour unless it was written within that hour |
| UsageLedgers.ApplyCostInPlace | internal/policy/usage.go:149-192 | the in-place update of the copy computes the charged state that the replay lemmas are about |
| UsageLedgers.AddGuarded | internal/policy/usage.go:154-173 | dollars and calls always grow the key-level amounts, each of the others only when positive |
| UsageLedgers.EnsureDailyWindow | internal/policy/usage.go:82-87 | the daily window restarts at midnight UTC, other fields stay |
| UsageLedgers.EnsureWeeklyWindow | internal/policy/usage.go:89-97 | the weekly window restarts at the first use seven days after its start (WindowsStart says what that makes of a run of charges), other fields stay |
| UsageLedgers.CloneUsageState | internal/policy/usage.go:66-78 | the copy has the same content and shares no object with the original; nil gives an unused state |
| UsageLedgers.UsageLedger.LoadFromState | internal/policy/usage.go:35-46 | the ledger holds fresh copies of exactly the non-nil states, no two sharing a table |
| UsageLedgers.UsageLedger.Snapshot | internal/policy/usage.go:49-62 | fresh, unshared copies of every entry, with the same content |
| UsageLedgers.UsageLedger.Summary | internal/policy/usage.go:221-256 | shows the sum of the charges of the current UTC day, the sum of the week that the last charge belongs to as long as it lasts, and when it ends, without changing the ledger |
| UsageLedgers.UsageLedger.ModelUsage | internal/policy/usage.go:306-343 | exactly the models that are configured or used, in name order, each with the sums of its own charges of the day and of its running week and the price of its last configured rule; the ledger is not changed |
| UsageLedgers.UsageLedger.OverLimit | internal/policy/usage.go:261-273 | which reason is given, exactly and told from the dated charges: daily if and only if the day's charges have reached a positive daily limit, else weekly if and only if those of the running week have reached a positive weekly one, else none |
| UsageLedgers.UsageLedger.ResetUsage | internal/policy/usage.go:276-280 | removes one entry |
| UsageLedgers.UsageLedger.ResetAllUsage | internal/policy/usage.go:283-287 | removes all entries |
| UsageLedgers.ChargeGrowsTheView | internal/policy/usage.go:221-256 | a charge adds to exactly what a reader at that instant is shown: summary and model row grow by the charge, other models' rows stay |
| RateLimiting.RateLimiter.Allow | internal/policy/limiter.go:34-52 | the decision and the new bucket of one id; every other bucket stays |
| RateLimiting.RateLimiter.Reset | internal/policy/limiter.go:54-58 | removes one bucket |
| RateLimiting.BucketCounts | internal/policy/limiter.go:34-52 | an open bucket was opened by a call and counts between one and rpm admissions |
| RateLimiting.CallIsCounted | internal/policy/limiter.go:34-52 | one call opens a new window after a minute or when the clock has gone back, is counted below the limit, and is refused without effect at it |
| RateLimiting.RpmBound | internal/policy/limiter.go:34-52 | over any calls of any ids, every half-open interval of n minutes holds at most (n + 1) * rpm - 1 admissions of an id |
| RateLimiting.RpmBoundIsTight | internal/policy/limiter.go:34-52 | for every limit and every n >= 1 readings that do not go back reach (n + 1) * rpm - 1 admissions within n minutes |
| RateLimiting.DenialFollowsAdmissions | internal/policy/limiter.go:45-48 | a denied call comes after rpm admissions of the same id within the last minute |
| BudgetGate.OvershootBound | internal/policy/store.go:323-329 | with at most k requests of a key in flight, each costing at most c, its current daily and weekly spending stay strictly below the limit plus k * c at every later reading, across window changes, resets and deletions of keys, in every run from any gate that is within that bound |
| BudgetGate.GateIsExact | internal/policy/store.go:323-329 | a request is let in if and only if the charges of the day and of the running week are below both limits, and nothing but its flight changes |
| BudgetGate.StepStaysWithin | internal/policy/usage.go:261-273 | the inductive step: spending plus what requests in flight can still cost stays below that bound |
| BudgetGate.RestartIsReady | internal/policy/store.go:97-104 | with nothing in flight, as after a restart, a gate is within the bound if and only if the usage loaded from the file is |
| BudgetGate.OvershootBoundIsTight | internal/policy/store.go:323-329 | for every limit, daily, weekly or both, every k > 0 and every c > 0 a fair run ends one unit below the bound in both windows |
| LockOrder.NoDeadlock | internal/policy/store.go:72-187 | in every schedule of the modelled store operations and flushers, with readers that overtake a writer about to lock or wait for it, while some operation is unfinished an unfinished one can take its next step even if all writers about to lock hold readers back, also while `Configure` or `Close` waits for a flusher in the middle of a flush |
| LockOrder.OperationsAreOrdered | internal/policy/store.go:824-937 | every operation takes its locks in the order updateMu, flusher join, persistMu, Store.mu, ledger, initialization, database, limiter |
| LockOrder.WaitsEnd | internal/policy/store.go:894-937 | following who waits for whom ends at a thread that can move |
| LockOrder.RunKeepsInv | internal/policy/store.go:880-937 | in every schedule the locks a thread holds nest in that order and only flushers are joined |
| LockOrder.LocksExclude | internal/policy/store.go:72-187 | in every schedule a lock that is held exclusively is held by nobody else, shared or not |
| PolicyConfig.LookupIsPreserved | internal/policy/config.go:244-352 | after normalization the rule found for any model name comes from the first raw rule of that name among the key's own rules and its aliases' targets: its name trimmed, each of its prices rounded to within half a grid unit and unchanged on the grid, its mode; names and ids are pairwise distinct |
| PolicyConfig.ReferenceAddsTargets | internal/policy/config.go:279-301 | one more alias reference adds that alias's targets behind all other rules, each price the reference's own if it has one, else the alias's, and is refused if and only if the alias is unknown |
| PolicyConfig.PoliciesAreKept | internal/policy/config.go:244-269 | every normalized key and plan keeps its rate, both budgets, flags and times in their places, with ids, names, hash, preview and binding trimmed |
| PolicyConfig.KeyIsAcceptedIff | internal/policy/config.go:244-349 | a key is accepted if and only if its id is new and not blank, its numbers are not negative, its aliases are known and its rules acceptable |
| PolicyConfig.PlanIsAcceptedIff | internal/policy/config.go:357-392 | so is a plan, and the error that refuses it names one of its defects |
| PolicyConfig.ErrorsExplain | internal/policy/config.go:252-348 | the error that refuses a key names a defect that the key has |
| PolicyConfig.NormalizeAllIsIdempotent | internal/policy/config.go:222-355 | a second pass over a normalized configuration, plans included, succeeds and changes nothing |
| PolicyConfig.AcceptedIff | internal/policy/config.go:304-349 | a rule list is accepted if and only if every rule has a name and the first of each name has four non-negative amounts and a known or blank mode |
| PolicyConfig.KeptAnswers | internal/policy/config.go:304-349 | the kept list answers each name with its first raw rule, at that rule's own prices and mode |
| PolicyConfig.KeptIsDistinct | internal/policy/config.go:317-321 | kept names are pairwise distinct ignoring case |
| PolicyConfig.NormalizedPlan | internal/policy/config.go:357-392 | a plan normalized through a key keeps its lookups, at their own prices, its id and expiry |
| PolicyConfig.LastAliasCounts | internal/policy/config.go:235-242 | of several aliases with one folded name the last counts, and a blank name is none |
| PolicyConfig.Normalize | internal/policy/config.go:222-355 | the in-place rewrite ends with the normalized keys and plans and no aliases, or reports the same error |
| PolicyConfig.NormalizePlansOf | internal/policy/config.go:223-233 | plans are rewritten one by one, duplicates refused |
| PolicyConfig.NormalizeKeysOf | internal/policy/config.go:244-352 | keys are rewritten one by one, duplicates refused |
| PolicyConfig.NormalizePlanProcedure | internal/policy/config.go:357-392 | the detour of a plan through the configuration of one key computes the normalized plan |
| PolicyConfig.NormalizeKeyProcedure | internal/policy/config.go:247-351 | one key with its defaults, checks, expansion and dedupe |
| PolicyConfig.BuildAliasTable | internal/policy/config.go:235-242 | the loop builds the table in which the last alias of a name counts |
| PolicyConfig.ExpandRefsProcedure | internal/policy/config.go:273-302 | the expansion loop appends all targets of the referenced aliases in order, or reports the unknown one |
| PolicyConfig.AppendTargets | internal/policy/config.go:279-301 | the targets of one alias with the overrides of one reference |
| PolicyConfig.KeepFirst | internal/policy/config.go:304-349 | the dedupe loop keeps the first rule of each name at its own prices, or reports the first error |
| PlanBindings.RebindIsExact | internal/policy/store_subscription_plans.go:254-265 | afterwards the plan has exactly the submitted keys, a key whose binding changed is dated, no other key changed and no key's own policy did |
| PlanBindings.PlansConserveKeys | internal/policy/store_subscription_plans.go:173-400 | over any run of plan operations, refused and failed ones included, no key appears or disappears, every key's own rate, models, limits, hash and flag stay, no binding dangles, and an unbound key has its original effective policy |
| PlanBindings.KeysAnswerForTheirPlan | internal/policy/store_subscription_plans.go:23-41 | over any run of plan operations a key answers on its own identity with the rate, models, budgets and expiry of the plan it has come to be bound to, each in its own place, and with its original ones if that plan is none or unknown |
| PlanBindings.StoredPlanIsEnforced | internal/policy/store_subscription_plans.go:173-280 | once a plan is stored exactly the submitted keys (or those bound before) are bound to it and answer with its new values |
| PlanBindings.EffectiveAnswers | internal/policy/store_subscription_plans.go:23-41 | the effective policy is the one answer that takes all six policy values from a known plan and everything else from the key |
| PlanBindings.BindingIsExact | internal/policy/store_subscription_plans.go:283-346 | binding a key changes that key's binding and date and nothing else |
| PlanBindings.DropUnbindsItsKeys | internal/policy/store_subscription_plans.go:349-400 | a deletion removes the plan and unbinds and dates exactly its keys |
| PlanBindings.UpsertKeyDangles | internal/policy/store.go:696-726 | storing a key keeps bindings sound if and only if its own binding is empty or known |
| PolicyStore.Store.UpsertSubscriptionPlan | internal/policy/store_subscription_plans.go:173-280 | succeeds exactly when the plan is valid, exists or not as asked, every submitted key is free for it and the save commits; then memory and file hold the exact new bindings, the plan's keys being the submitted ids without blanks; on any error neither changed |
| PolicyStore.StampKeepsTheInput | internal/policy/store_subscription_plans.go:195-222 | what is stored is the submitted policy under the trimmed id, with the creation time the plan has or now, and answers like the submitted rules |
| PolicyStore.Store.SetKeySubscriptionPlan | internal/policy/store_subscription_plans.go:283-346 | binds or unbinds one known key to a known plan, saved before published, and returns it as its plan has it, value by value; an unchanged binding needs no save; on any error nothing changed |
| PolicyStore.Store.DeleteSubscriptionPlan | internal/policy/store_subscription_plans.go:349-400 | returns exactly the number of keys it unbound; on any error nothing changed |
| PolicyStore.BindSubmitted | internal/policy/store_subscription_plans.go:224-266 | the loops refuse exactly the submissions with an unknown key or a key of another plan, and otherwise compute the exact rebinding |
| PolicyStore.UnbindRows | internal/policy/store_subscription_plans.go:349-400 | the loop frees the plan's keys and counts them |
| PolicyStore.CountIsCardinality | internal/policy/store_subscription_plans.go:349-400 | the counter equals the number of bound ids |
| PolicyStore.Store.Replace | internal/policy/store_subscription_plans.go:403-426 | fresh records for all rows and an index that agrees with them |
| PolicyStore.Store.SaveThenReplace | internal/policy/store_subscription_plans.go:275-279 | the configuration is published if and only if it was saved |
| PolicyStore.Store.RebuildKeysByHash | internal/policy/store_subscription_plans.go:56-84 | each non-empty hash maps to the very record that a scan in id order finds first |
| PolicyStore.IndexComplete | internal/policy/store_subscription_plans.go:56-84 | an index built over all ids in order agrees with the linear scan |
| PolicyStore.SameHashesSameIndex | internal/policy/store.go:593-640 | changes that keep all hashes keep the index valid without a rebuild |
| PolicyStore.Store.FindByHash | internal/policy/store.go:559-591 | returns the first key, in id order, whose trimmed and folded hash is the one asked for, with every value of its plan's policy in its own place (or unchanged without a known plan), and nothing exactly when no key has that hash |
| PolicyStore.Store.UpsertKey | internal/policy/store.go:696-726 | an invalid key changes nothing; a valid one is published and, when it reports success, saved |
| PolicyStore.UpsertStoresTheInput | internal/policy/store.go:696-726 | an accepted key is stored under its trimmed id with the submitted policy, keeps the creation time it has, is modified now, answers like its submitted rules, and no other key changes |
| PolicyStore.Store.DeleteKey | internal/policy/store.go:729-760 | an unknown id changes nothing; a known one leaves memory and index, its limiter bucket and its ledger entry, no other id does, and on success it leaves the file |
| PolicyStore.Store.RotateKey | internal/policy/store.go:763-804 | the record is changed in place, keeps its place in the id map, is found under the new hash and loses its limiter bucket only |
| PolicyStore.Store.LearnKeyPreview | internal/policy/store.go:593-640 | the exact condition under which a missing preview is written to file, events and shared record, each stamped by its own clock reading; the index stays valid |
| PolicyStore.StateFile.Save | internal/policy/state_database.go:424-546 | emptying and refilling the tables in one transaction leaves exactly the stored form of the given rows, or the old ones |
| PolicyStore.HeldIsStored | internal/policy/state_database.go:448-477 | the rows of a key table, saved in any order, are read back as the stored form of that table, row by row |
| StoredTimes.StoredTimeIs | internal/policy/state_database.go:688-700 | a time comes back unchanged if and only if it is absent or a whole millisecond other than the first one of 1970; it comes back as "no time" if and only if it lies in one of two milliseconds; any other comes back less than a millisecond earlier, and what came back once comes back unchanged |
| PolicyStore.StateFile.UpdateKeyPreview | internal/policy/state_database.go:658-686 | one row gets its preview and a modification time in milliseconds only if it is still the same key without one, and in the same transaction the key's events without a preview get the masked one |
| PolicyStore.BackfillIsExact | internal/policy/state_database.go:676-680 | a backfill changes nothing but missing previews of that key, and fills them all with the given one |
| StoreConfiguration.Configure | internal/policy/store.go:72-187 | on success memory and index hold the normalized, dated configuration of the file (or of the caller, for a new file), and after a saved policy exactly its stored form; the new file holds the stored form of memory, and the previous database is closed; on any error the store is untouched; it succeeds if and only if the caller's configuration and the rows of a known file are acceptable and nothing fails |
| StoreConfiguration.LoadableIff | internal/policy/store.go:111-120 | whether the rows of a file can be loaded is decided row by row and by their trimmed ids, whatever the order in which they are read |
| StoreConfiguration.ReopeningGivesStoredForm | internal/policy/store.go:101-163 | opening a file that holds a saved policy always loads, and loads exactly the stored form of that policy with missing times filled in, whatever the order of the rows |
| StoreConfiguration.ReopeningChangesNothingIff | internal/policy/store.go:125-149 | the loaded policy is the published one if and only if every time of every key and plan is a whole millisecond that does not read as "no time" (unless the clock itself stands in such a millisecond and happens to replace a creation time by itself) |
| StoreConfiguration.ReopeningAgainChangesNothing | internal/policy/store.go:125-149 | unless a creation time read as "no time", opening the file any further time, at any clock, changes nothing |
| StoreConfiguration.ConfiguredIsSettled | internal/policy/store.go:106-149 | every policy that `Configure` publishes is normalized and has both times set, so that the preceding laws apply to it |
| StoreConfiguration.PlanEditsKeepNormal | internal/policy/store_subscription_plans.go:173-400 | every operation on plans and bindings keeps the published policy normalized, so its file can be opened again |
| StoreConfiguration.KeyEditsKeepNormal | internal/policy/store.go:696-804 | so does creating, updating, deleting and rotating a key and learning the preview of a presented secret |
| StoreConfiguration.ExpirySurvivesIff | internal/policy/store.go:291 | an expired key stays expired after its file is opened again, at every instant, if and only if its expiry does not read as "no time", otherwise it never expires; and no key expires a full millisecond early |
| StoreConfiguration.Expiry1970IsForgotten | internal/policy/state_database.go:688-700 | an input: a plan that ends at 1970-01-01T00:00:00Z has expired in the running store and never expires after the file is opened again |
| StoreConfiguration.Load | internal/policy/store.go:97-185 | normalizing, saving and publishing succeed together or leave the store untouched |
| StoreConfiguration.PublishInto | internal/policy/store.go:155-185 | the prepared tables reach the file first and the store only afterwards |
| StoreConfiguration.Prepare | internal/policy/store.go:111-154 | the prepared tables are exactly the dated rows of the normalized configuration, each under its own id |
| StoreConfiguration.ConfiguredKeysAnswer | internal/policy/store.go:106-141 | every key of the caller's list is in the running store with its own policy, budgets, flags and times (missing ones filled in), and answers each model with its first raw rule at that rule's own prices |
| StoreConfiguration.ConfiguredPlansAnswer | internal/policy/store.go:142-152 | so does every plan of the caller's list |
| Prices.UsdIsOnGrid | internal/policy/config.go:31-36 | a whole number of grid units is its own rounding |
| Prices.NormalizeIsIdempotent | internal/policy/config.go:31-36 | rounding twice is rounding once |
| Prices.NormalizeRounds | internal/policy/config.go:31-36 | the result is a whole number of grid units within half a unit, and the amount itself if that is one |
| Pricing.ComponentsAddUp | internal/policy/cost.go:319-367 | for every input the four components sum exactly to the total, and all five lie on the grid |
| Pricing.ComponentsAreNearExact | internal/policy/cost.go:338-364 | each component is within half a unit of the exact price of its own tokens |
| Pricing.BillIsNearExact | internal/policy/cost.go:319-367 | for every provider and price the total is within two units of the exact price of the reported tokens |
| Pricing.TokensAreConserved | internal/policy/cost.go:319-360 | the three additive providers report the hits and, with the cache writes, the input in full; for all others hits, as far as they fit into the input, and the rest make it up; hits are the cache-read tokens or else the cached ones; an unpriced request is free |
| Pricing.HitsAreReportedWithoutAPrice | internal/policy/cost.go:325-361 | without a cache-read price every hit within the input is reported and none is billed separately |
| Pricing.CachePriceIsADiscount | internal/policy/cost.go:333-362 | with a cache-read price no higher than the input price the bill exceeds the all-at-input-price bill by at most one unit |
| Pricing.DiscountBoundIsTight | internal/policy/cost.go:319-367 | a request for which that unit is reached |
| Pricing.BillingPathsAgree | internal/policy/cost.go:248-256 | without cache tokens the two billing functions differ by at most one unit |
| Pricing.ReceiptAddsUp | internal/policy/store.go:427-486 | for every request the recorded cost is the sum of the recorded components, equals what is returned and what the ledger is charged, and nothing uncharged costs anything while there is a ledger |
| Pricing.ChargedIff | internal/policy/store.go:437-486 | a request is charged if and only if there is a ledger, the model has a rule, and the call succeeded (by call) or any tokens were reported (by tokens); a charge by call is the rule's price and carries no tokens |
| Pricing.ReceiptIsItemized | internal/policy/store.go:471-485 | each recorded component of a charge by tokens is within half a unit of the exact price of the tokens that reach the ledger with it, and for subset providers those tokens make up the input |
| Pricing.NormalRulesAreOnGrid | internal/policy/config.go:344-347 | normalization puts the price of a call on the grid, so every charge lies on it |
| Pricing.ChargesAccumulateExactly | internal/policy/usage.go:154-155 | rounding after every charge never moves a total: it is the start plus the charges in whole units |
| Pricing.EqualChargesTotal | internal/policy/usage.go:154-155 | n equal charges of a grid amount total exactly n times the amount |
| UsageHistory.TrendConservesTotals | internal/policy/usage_history.go:327-375 | every column of the series sums to `Totals`, for hours and days, if and only if no selected row before 1970 falls past the end; in particular for all timestamps from 1970 on |
| UsageHistory.SeriesSumsCharted | internal/policy/usage_history.go:337-375 | the series sums to the rows whose bucket is in range, none of them counted twice |
| UsageHistory.RowLandsOnce | internal/policy/usage_history.go:342-375 | one more row raises exactly one point if its bucket is in range, and none otherwise |
| UsageHistory.TrendIsContiguous | internal/policy/usage_history.go:327-375 | for every filter the points follow each other by hours, or by days beyond 48 hours, and cover the normalized range from `since` to `until` |
| UsageHistory.PointsHoldTheirRows | internal/policy/usage_history.go:337-375 | for rows from 1970 on each point holds the totals of the rows of its own hour or day |
| UsageHistory.RangeIsProper | internal/policy/usage_history.go:724-734 | a proper range is kept, a missing end is now, a missing or empty range is the week before its end |
| UsageHistory.SelectedIff | internal/policy/usage_history.go:671-722 | a row is selected if and only if it lies in the half-open range and meets every given condition on its own column |
| UsageHistory.ColumnsAreSums | internal/policy/usage_history.go:438-451 | every aggregate column is the sum of its own column, and requests, successes and failures count rows |
| UsageHistory.RowsLandInTheirOwnBucket | internal/policy/usage_history.go:342-343 | the queried bucket contains the timestamp if and only if it is not before 1970 or is itself a boundary |
| UsageHistory.RowBefore1970IsNotShown | internal/policy/usage_history.go:342-343 | a row counted in the totals and missing from the series |
| UsageHistory.CostColumnsAddUp | internal/policy/usage_history.go:438-451 | if every row's components add up to its cost so do the sums, and requests are successes plus failures |
| UsageHistory.Overview | internal/policy/usage_history.go:311-380 | the map filled with empty points, overwritten by the query's groups and read out again is the series of per-bucket aggregates over the normalized range |
| UsageHistory.FillGroups | internal/policy/usage_history.go:352-371 | after the groups are written every point holds the aggregate of its rows |
| UsageHistory.PagesOfATable | internal/policy/usage_history.go:230-275 | for every table with distinct ids, filter and page size, the pages 1 to `total_pages` are, one after the other, exactly the selected rows, newest first, none repeated and none missing; all but the last are full and later ones are empty while their offset fits in 64 bits |
| UsageHistory.PagesPartition | internal/policy/usage_history.go:230-275 | for any list, pages 1 to `total_pages` concatenate to it |
| UsageHistory.PageIsEmptyIff | internal/policy/usage_history.go:250-252 | a page is empty if and only if there are no rows or its wrapped offset lies past them |
| UsageHistory.HugePageRepeatsTheFirst | internal/policy/usage_history.go:250-252 | a page number whose offset wraps to zero shows the first page |
| UsageHistory.OrderByOrders | internal/policy/usage_history.go:252 | the list is sorted by timestamp and id, both descending, and is a permutation of the selected rows |
| UsageHistory.OrderIsUnique | internal/policy/usage_history.go:252 | there is only one such list, however the query finds it |
| UsageHistory.EventPage | internal/policy/usage_history.go:230-275 | page and size clamped to 1 and to 1 to 200 with 50 by default, counts, and the slice of the ordered list that is returned |
| LegacyMigration.PrepareEvents | internal/policy/state_migration.go:175-211 | succeeds if and only if all ids, dropped events included, are positive and distinct, and otherwise names the first offender; the loop's result is the sorted retained events and the next id |
| LegacyMigration.PreparationIsSound | internal/policy/state_migration.go:175-211 | source is retained plus dropped, retained ids are distinct and sorted, and the next id exceeds them all and is at least the legacy counter if and only if the largest 64-bit id is not taken |
| LegacyMigration.RetainedAreMigrated | internal/policy/state_migration.go:188-203 | an event is in the result if and only if it is the migrated form of a source event inside the retention period, and it comes from that event column by column |
| LegacyMigration.MigrationKeepsColumns | internal/policy/state_database.go:731-767 | what migration makes of each column: counts kept, negative measurements removed, a missing time filled in, the key masked; an event is left behind if and only if it is more than ninety days old |
| LegacyMigration.PruneKeeps | internal/policy/state_database.go:821-831 | a clean-up removes exactly the rows older than its cutoff and keeps the sequence |
| LegacyMigration.MigratedIsNormal | internal/policy/state_database.go:731-767 | a migrated event is already in the form in which events are recorded: no negative values, and normalizing it again at any time changes nothing |
| KeyPreviews.MaskIsTrimmed | internal/policy/keys.go:60-72 | a masked preview shows exactly the last four characters, if there are so many, of what follows the last three dots, and needs no trimming |
| KeyPreviews.AfterDotsIs | internal/policy/keys.go:65-67 | that part starts after the last occurrence of the dots, or at the start |
| KeyPreviews.SecretIsMasked | internal/policy/keys.go:49-72 | a long secret is kept by its first seven and last five characters, and an event shows the last four |
| LegacyMigration.ImportEvents | internal/policy/state_migration.go:246-273 | the rows are replaced by the events and the sequence ends just below the next id; a repeated id fails |
| LegacyMigration.IdsContinue | internal/policy/state_migration.go:278-296 | any mix of inserts and clean-ups hands out the next id and its successors without gap or repeat until 64-bit ids run out |
| LegacyMigration.MigrationContinuesIds | internal/policy/state_migration.go:155-296 | after a migration every run of inserts starts at the prepared next id and shares no id with a retained event |
| LegacyMigration.IdIsGivenIff | internal/policy/state_migration.go:278-296 | some run of inserts and clean-ups hands out an id if and only if it lies above the sequence |
| LegacyMigration.DroppedIdStaysUnusedIff | internal/policy/state_migration.go:191-211 | for every source the id of a dropped event is never handed out if and only if it lies below the next id, that is, if and only if the legacy counter or some retained id exceeds it and the largest 64-bit id is not retained |
| LegacyMigration.DroppedIdsStayUnusedIff | internal/policy/state_migration.go:191-211 | the same for all dropped events together |
| LegacyMigration.DroppedIdIsGivenAgain | internal/policy/state_migration.go:191-193 | an input on which the id of an expired event is handed out again |
| LegacyMigration.LargestIdBlocksInserts | internal/policy/state_migration.go:205-211 | with the largest id retained the next id wraps to one, every insert fails, and once that event is cleaned up ids start over at one |

## Left out

- UsageProtocolTheorems.MemoryAgreesWithFile: schedules contain no `RecordResponseCost`, whose capture order breaks it; that operation is covered by CommitIsSoundIffLedgerIsCurrent and ResponseChargeCanBeLost.
- UsageWindows.ReplayAccounts: clocks that go back are excluded, where windows reset by design; and clocks on Go's zero day, in year 1, for which ZeroDayAccountsIff gives the exact condition and ZeroDayLosesCharges an input. Only a clock set by a test hook stands there.
- RateLimiting.RpmBound: fixed limit per id, no `Reset` and readings that do not go back, because each of them reopens windows by design.
- BudgetGate.OvershootBound: authorization and recording are atomic steps and limits are fixed; limits that are lowered while requests are in flight have no such bound.
- PolicyStore.Store.UpsertKey: publishes before it saves, so after a failed save memory and file differ; agreement is stated on success only, as for DeleteKey and RotateKey.
- PolicyStore.Store.RotateKey: the new secret arrives as its hash and preview; generating keys and hashing them are not part of this model.
- Pricing.ComponentsAddUp: prices are exact reals; IEEE rounding, NaN and infinity, and the escape for amounts near the largest float are not modelled.
- Pricing.TokensAreConserved: token counts are unbounded integers, without the wrap-around of their 64-bit sums.
- UsageHistory.Overview: averages and percentiles of latency and time to first token and the filter options are not modelled; nor are instants outside what 64-bit Unix nanoseconds can hold.
- LegacyMigration.PrepareEvents: event columns that are only copied or trimmed like the ones shown are left out; the key half of the migration is the normalization of PolicyConfig with the dating and the stored times of StoreConfiguration, and is not modelled again.
- UsageHistory.EventPage: the filter options of the returned page are not modelled.
- LockOrder.NoDeadlock: queries for keys and plans take one read lock, like the first step of every operation, and are not listed one by one.
- UsageProtocolOperations.ConfigureSucceeds: says what an operation does when no other thread moves; what interleaving leaves of it is the subject of UsageProtocolTheorems.
- SQLite, WAL, schema migration and file publishing: a transaction either applies fully or leaves its tables alone, and a closed database always fails.
- StoreConfiguration.Configure: two handles on one path are two `StateFile` objects here, so that the old handle would read the new rows is not captured; it is closed. Resolving the path, the usage rows and the backfill of event previews are only outcomes.
- Usage rows inside the configuration saves of PolicyStore: their interleaving is the subject of UsageProtocol, where an edit is one full usage write.
- Request events and pruning inside the protocol: they are modelled in UsageLedgers, one call at a time, and in LegacyMigration.
- JSON, YAML, HTTP headers, token extraction from response bodies and event streams, and the order of the checks in `authorize` before the limiter.
- `SetClock` on a configured store, a hook that drops the ledger; it occurs in LockOrder only.
- `historyErr`: a last-writer flag that does not tell which call failed.
- Case folding outside ASCII, where `ToLower` and `EqualFold` differ.
- Analysis reports, heatmaps, percentiles and filter options: queries without state of their own.
- The management API, the C interface of the plugin, the web interface, nginx and scripts.
