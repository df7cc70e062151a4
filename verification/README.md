# Verification of the control plane's protocols and decision procedures

This project models the parts of a control plane for coding agents that hold real algorithms, and proves what they
promise. `dafny verify dfyconfig.toml` checks all of it. Each group of modules below follows one program.

- **Parent-death watchdog** (`ProcessTable`, `Watchdog`, `WatchdogSafety`, `WatchdogTiming`, `WatchdogTheorems`,
  `WatchdogReviewer`, `WatchdogGraces`, `WatchdogRuns`, `WatchRoutine`). Owner, watcher, anchor and reviewer are the parties of a step relation over a process
  table with process groups, zombies and reusable process ids (section 4.14, Process ID Reuse, Base Definitions,
  POSIX.1-2017). Time is discrete, in milliseconds; a party that may act does so at most `slack` later; any party may
  crash at any time. `WatchRoutine` is the watcher's own routine, statement by statement, with its descriptors.
- **File-size checker** (`FileLimits`, `FileCheck`, `FileCheckRun`, `FileCheckTheorems`, `FileCheckEvidence`,
  `FileCheckCoverage`, `FileCheckBatches`, `TokenCache`, `CacheRefresh`, `CacheTheorems`, `CacheConditions`,
  `TokenCounter`). `FileCheckRun.CheckFiles` and
  `CacheRefresh.CacheFile.Refresh` are the two loops of the program; their specifications are functions of the files,
  the policy, the recorded counts and the counters' answers, and the theorems are about those functions.
- **Native-history admission** (`Records`, `Admission`, `Prefixes`). The one-pass boundary scan, the lenient scanner
  beside it, and the bounded ancestry walk; `Records` says on the records' own fields what a sound log is.
- **Process-tree ownership and quotas** (`ProcessClosure`, `ProcessOwnership`, `StartLedger`). Two ways to compute
  descendants, the processes that a run tracks and sweeps, and the locked ledgers of starts and turns.
- **Runtime configuration** (`ConfigLayers`, `RuntimeConfig`, `ConfigTheorems`, `ConfigPaths`, `ConfigWrites`,
  `ConfigMeaning`).
  `ConfigLayers` is the strict constructor against the fail-open loader for any set of fields; `RuntimeConfig` gives
  the program's own fields, and `ConfigTheorems.FieldsAreSound` shows that they meet what the layers need.
- **Transcript indexing** (`TranscriptIndex`). The handler's fingerprint, extraction, three upserts and mark, against
  a concurrent writer of the transcript, unreadable bookkeeping and crashes.
- **Backend catalog and registry** (`BackendResolver`, `BackendRegistry`). Identifier index and resolver; the registry
  under interleaved ensure, stop and prune calls.

`Values` holds decoded JSON values with Python's truth and equality.

## What the proofs found

Several promises hold only under a condition. Each condition is proved exact, and each failure has a witness.

- The anchor does not always bound its group. `b5-watchdog.py:201-207` closes the status pipe in a `finally` and says
  that the timer remains armed. If the watcher has crashed, the report fails on the broken pipe, the handler's own
  report fails too, and the second failure ends the anchor and its daemon timer; a child that the reviewer left behind
  then survives (`WatchdogRuns.WatcherCrashLeavesSurvivors`). The bound holds exactly when the watcher has not crashed
  or the anchor was not lost (`WatchdogRuns.GroupDiesInTimeIff`). A member that left the group may also rejoin it after
  the last signal (`WatchdogRuns.RejoiningSurvives`), so for the whole group the condition adds that no member changes
  group (`WatchdogRuns.WholeGroupDiesInTimeIff`).
- The watcher's KILL precedes the anchor's hard kill exactly when four late actions fit into the termination grace
  (`WatchdogRuns.HardKillIsALastResort`).
- Batching distinct files is invisible exactly when no path followed by a colon begins another's
  (`FileCheckBatches.GroupingIsInvisibleIff`): the check for an earlier error compares texts by prefix.
- A family without a configured maximum passes with a warning only (`FileCheckTheorems.UnlimitedFamilyPasses`). A policy
  prevents it for a file exactly when the file's rule gives a maximum to every family that can judge its chain, or lets
  no such file pass (`FileCheckCoverage.NothingEscapesIff`).
- A completion without a turn id hides an earlier one, so that a finished turn passes for an open one at a Stop boundary
  (`Admission.StopAdmitsACompletedTurn`). A Stop boundary means an open turn exactly when no such completion follows the
  last start (`Admission.StopMeansOpenIff`).
- The set expansion of descendants checks no identity: it agrees with the in-place closure exactly when the root still
  holds its process id or nothing claims it as parent (`ProcessClosure.ClosuresAgreeIff`).
- The index is honest exactly with at most one drainer (`TranscriptIndex.HonestIff`): an overtaken one can leave an older
  extraction under a newer fingerprint (`TranscriptIndex.TwoDrainersLie`).
- `stop_backend` says that it removes an entry after successful teardown. It removes the entry without teardown exactly
  when no adapter is registered for the recorded type (`BackendRegistry.RemovedWithoutTeardownIff`), and it removes only
  what it has read exactly when there is no second caller (`BackendRegistry.RemovesWhatItReadIff`): otherwise it may
  remove a replacement that it never stopped (`BackendRegistry.StopRemovesAReplacement`).

## Model

| member | source | states |
|---|---|---|
| ProcessTable.CallKeeps | scripts/experiments/codex-hooks/b5-watchdog.py:162-163 | Every fork, exit, reap and regrouping keeps the table well formed and the anchor's claim to its process id and group; only a reaping ends its entry, a group without loyal members gains none, and an anchor alone in its session stays so except by its own fork |
| ProcessTable.SessionGrowsByForks | scripts/experiments/codex-hooks/b5-watchdog.py:131-138 | Whoever is in the anchor's session after any call was in it before or is the child of a member's fork |
| ProcessTable.RecipientsAreFollowers | scripts/experiments/codex-hooks/b5-watchdog.py:114-118 | While the anchor is not reaped, a signal to its group number reaches only processes of the session it founded |
| WatchdogTheorems.SignalsStayInTheGroup | scripts/experiments/codex-hooks/b5-watchdog.py:160-169 | In every run, every group signal of watcher or anchor reaches only members of the group the anchor founded, all born after the run began, however process ids are reused |
| WatchdogTheorems.SignalsThenReaps | scripts/experiments/codex-hooks/b5-watchdog.py:151-169 | In every reachable state the watcher's signals are a prefix of INT, TERM, KILL (KILL alone after completion) followed by one reaping; the plan is complete when the watcher has exited; the anchor is held until then and nothing follows the reaping |
| WatchdogReviewer.ReviewerEndsBeforeCompletion | scripts/experiments/codex-hooks/b5-watchdog.py:188-199 | In every run, once the watcher is complete, no live process bears the birth number of the reviewer that was launched |
| WatchdogReviewer.LiveReviewerIsWarned | scripts/experiments/codex-hooks/b5-watchdog.py:155-163 | In every run, the watcher's KILL finds the launched reviewer alive only after INT and TERM |
| WatchdogReviewer.CodeIsTheReviewers | scripts/experiments/codex-hooks/b5-watchdog.py:151-199 | In every run, a complete watcher's code is the reported return code, or 128 and the number of the signal that ended the reviewer |
| WatchdogGraces.SignalsAreNeverEarly | scripts/experiments/codex-hooks/b5-watchdog.py:158-189 | In every run a full second lies between INT and TERM and half a second between TERM and KILL, and the anchor's own KILL comes at least two seconds after both the deadline and its arming |
| WatchdogGraces.InterruptionHasCause | scripts/experiments/codex-hooks/b5-watchdog.py:143-163 | In every run the watcher interrupts the group only at the deadline, after the control pipe was closed, or with the anchor dead |
| WatchdogTheorems.EarlyReapingFreesTheGroup | scripts/experiments/codex-hooks/b5-watchdog.py:161-169 | Reaping a dead anchor frees its id exactly when nobody else is left in its group, and then a stranger can take the id, lead a group of that number and receive the signal |
| WatchdogTheorems.GroupDiesInTime | scripts/experiments/codex-hooks/b5-watchdog.py:171-189 | Unless the watcher has crashed and the anchor was lost otherwise than by its group's signals, every member of the anchor's group that never changed group is dead after the later of deadline and arming plus the longer of the hard-kill delay and the signalling time |
| WatchdogTheorems.NothingBeforeArming | scripts/experiments/codex-hooks/b5-watchdog.py:171-200 | While the anchor has not read its payload nobody else is in its session, and once it is dead nobody of its group is left |
| WatchdogTheorems.WatcherFinishesFirst | scripts/experiments/codex-hooks/b5-watchdog.py:159-189 | With slack below a quarter of the termination grace, every signal of the watcher precedes the anchor's hard kill, which never strikes while the watcher lives |
| WatchdogTheorems.OwnerOutwaitsTheWatcher | scripts/experiments/codex-hooks/b5-watchdog.py:99-111 | The owner's patience runs out only with a watcher that never read its payload and has no anchor |
| WatchdogTheorems.TimeNeverStops | scripts/experiments/codex-hooks/b5-watchdog.py:145-156 | In every reachable state either time may pass or the party whose action is due can act |
| WatchdogRuns.BothCrashesLeaveSurvivors | scripts/experiments/codex-hooks/b5-watchdog.py:171-207 | If watcher and anchor both crash, the reviewer and its child are alive in the group at any later time |
| WatchdogRuns.WatcherCrashLeavesSurvivors | scripts/experiments/codex-hooks/b5-watchdog.py:191-207 | A crash of the watcher alone suffices when the reviewer then exits and leaves a child |
| WatchdogRuns.GroupDiesInTimeIff | scripts/experiments/codex-hooks/b5-watchdog.py:159-207 | For each fault pattern, the bound on the members that never changed group holds in every run if and only if the watcher has not crashed or the anchor was not lost |
| WatchdogRuns.RejoiningSurvives | scripts/experiments/codex-hooks/b5-watchdog.py:159-169 | With no crash and no loss, a child that left the group and rejoins it after the watcher has exited is a living member at any later time |
| WatchdogRuns.WholeGroupDiesInTimeIff | scripts/experiments/codex-hooks/b5-watchdog.py:159-207 | Given which of a watcher crash, an anchor loss and a change of group may happen, the whole group is dead by the limit in every run if and only if not both guards may fail and no member may change group |
| WatchdogRuns.HardKillIsALastResort | scripts/experiments/codex-hooks/b5-watchdog.py:183-189 | The anchor signals its group in no run with a live watcher if and only if four times the slack is below the termination grace |
| WatchRoutine.Routine.Attempt | scripts/experiments/codex-hooks/b5-watchdog.py:121-158 | The try block spawns exactly when deadline, control pipe and spawn allow it, completes exactly when a nonempty status was read alone, and returns the status, 125 for end of file, and 124 for timeout or control |
| WatchRoutine.RoutineIsTheProtocol | scripts/experiments/codex-hooks/b5-watchdog.py:121-169 | Under the same circumstances the routine and the protocol's watcher spawn alike, complete alike and end with the same code, and the protocol's watcher then stands at KILL after completion, at INT without it, and at its exit without an anchor |
| WatchRoutine.Routine.Watch | scripts/experiments/codex-hooks/b5-watchdog.py:121-168 | On every way out each of the three descriptors is closed once, and a spawned anchor is signalled and reaped as its completion calls for |
| FileLimits.ProbeThreshold | scripts/check-file-limits.py:383-395 | The conservative screen is the lowest of the tiktoken thresholds that target and maximum configure: it is one of them, at most each, and absent exactly when both lack one |
| FileLimits.MethodForFamily | scripts/check-file-limits.py:194-196 | The method found is the first of the chain with the family, and none is found exactly when no method has it |
| FileCheckRun.CheckFiles | scripts/check-file-limits.py:486-625 | The batched program with its dictionaries, groups and live probes computes exactly the errors and warnings that each file's route and judged count call for |
| FileCheckRun.SortCandidate | scripts/check-file-limits.py:534-587 | One candidate lands in the dictionaries its route prescribes, with exactly the errors of that route |
| FileCheckRun.CountedAt | scripts/check-file-limits.py:587-606 | A file's count comes from its own method chain's group, whichever groups were counted before or after |
| FileCheckTheorems.NoSilentPass | scripts/check-file-limits.py:499-625 | No error is reported if and only if every file meets its line limit and every candidate is at or below its screen or has a current or authoritative count within its family's maximum, for every pattern of missing answers |
| FileCheckEvidence.PassingNeedsEvidence | scripts/check-file-limits.py:315-343 | With recorded counts and no error, every provider-backed candidate above its screen has an entry whose digest is that of its bytes, whose method is in its chain and gives its family, and whose count is within that family's maximum |
| FileCheckEvidence.EditsAreNoticed | scripts/check-file-limits.py:310-331 | An edit of such a file that changes its digest makes the check fail, whatever else is recorded |
| FileCheckEvidence.EvidenceSuffices | scripts/check-file-limits.py:315-343 | Where every candidate is such a file, the check is error-free if and only if every file meets its line limit and every candidate has such an entry |
| FileCheckEvidence.LinesAreBounded | scripts/check-file-limits.py:127-135 | A file fails the line check if and only if it is under a whitelisted prefix or there is none, has limits, exists, and is longer than its rule or the default of 2000 lines allows |
| FileCheckEvidence.TheFirstMatchLimits | scripts/check-file-limits.py:149-156 | A file has limits if and only if the first rule that matches it does not skip it, and then that rule's |
| FileCheckEvidence.MethodsAreListed | scripts/check-file-limits.py:167-173 | The methods are the nonblank texts of the rule's own list, or of the policy's where the rule has none, or the local method alone where nothing is named; never none |
| FileCheckEvidence.LimitsOfFamilies | scripts/check-file-limits.py:364-380 | A number bounds every family, a mapping only the families it names by a number, fractions are cut off toward zero, and nothing else bounds |
| FileCheckTheorems.NoWarningNoExcess | scripts/check-file-limits.py:409-438 | Without errors and warnings every candidate cleared the screen or has a count that is not positive or within a configured maximum |
| FileCheckTheorems.EnforcedIff | scripts/check-file-limits.py:409-438 | Where no error is reported, the warning of a missing maximum marks exactly the candidates whose judged count no maximum bounds |
| FileCheckTheorems.UnlimitedFamilyPasses | scripts/check-file-limits.py:409-438 | For every positive number of tokens a file of a family without a maximum is checked without an error, with that one warning |
| FileCheckCoverage.NothingEscapesIff | scripts/check-file-limits.py:364-438 | Over all checkouts with faithful counters and recorded entries, no file of a rule passes unscreened with a positive count that no maximum bounds if and only if the rule gives a maximum to every family that can judge its chain, or lets no such file pass at all |
| FileCheckTheorems.ProvidersCannotDecide | scripts/check-file-limits.py:548-623 | With recorded counts supplied, two worlds that differ only in what provider-backed chains answer are both error-free or both not |
| FileCheckBatches.GroupingIsInvisible | scripts/check-file-limits.py:486-625 | For independent counters, local counts for all and separated distinct paths, the errors of a batch are, as a multiset, those of its files checked alone |
| FileCheckBatches.GroupingWarnsAlike | scripts/check-file-limits.py:409-438 | So are the warnings, whatever the paths |
| FileCheckBatches.GroupingIsInvisibleIff | scripts/check-file-limits.py:486-625 | The errors of distinct files are those of the files alone for all independent counters with local counts if and only if no path followed by a colon begins another |
| FileCheckBatches.UnseparatedPathsHideErrors | scripts/check-file-limits.py:608-615 | For every list of distinct files and every two of them of which one with a colon begins the other, independent counters exist under which the batch loses the error that the file alone has |
| TokenCache.CacheRoundTrip | scripts/check-file-limits.py:256-356 | What is written is read back entry by entry if every entry is valid, and rejected as a whole otherwise |
| TokenCache.LoadedAreValid | scripts/check-file-limits.py:256-297 | Whatever the file holds, an accepted load holds only valid provider entries |
| CacheConditions.ReadableIff | scripts/check-file-limits.py:256-297 | A file of counts is accepted if and only if it is missing or a mapping of version 1 whose entries all hold 64 lower-case hexadecimal digits, a method, a provider's family and a nonnegative integer |
| CacheConditions.ReadAsStored | scripts/check-file-limits.py:270-296 | An accepted load holds exactly the file's keys, each with the file's own digest, method, family and count |
| CacheRefresh.CacheFile.Refresh | scripts/check-file-limits.py:628-710 | The refresh computes the specified outcome, and the file changes only when it is written, to exactly the recorded entries |
| CacheRefresh.RecordGroups | scripts/check-file-limits.py:667-704 | The recording loops add, group by group, exactly one entry or one refusal for each file asked |
| CacheConditions.WrittenIff | scripts/check-file-limits.py:628-710 | A refresh writes if and only if some file is whitelisted, limited and there, the local counter reports, the stored file can be read, and every such file has a local count and is without providers, at or below its screen, or answered by a provider of its chain with bytes that can be hashed |
| CacheTheorems.RecordingsAre | scripts/check-file-limits.py:644-710 | An unrefused recording drops every file that needs no provider, records every provider answer under its key, and leaves every other key as it was |
| CacheTheorems.RefreshRecordsProviders | scripts/check-file-limits.py:667-710 | After a written refresh every entry of a probed file is a provider family's answer for its exact bytes, never the tiktoken fallback |
| CacheTheorems.RefreshKeepsTheRest | scripts/check-file-limits.py:628-710 | A refresh that does not replace everything leaves the entries of all other keys unchanged |
| CacheTheorems.CheckAfterRefresh | scripts/check-file-limits.py:486-710 | A check after a refresh with distinct keys and unchanged bytes asks no provider and judges each file above its screen by the recorded count |
| CacheTheorems.WrittenCacheLoads | scripts/check-file-limits.py:256-356 | Loading what a refresh wrote accepts it and returns every entry |
| CacheTheorems.RefreshLoadCheck | scripts/check-file-limits.py:256-710 | From a refresh through the file it leaves to a check: the load gives every entry back, no candidate is probed, and the check is error-free if and only if all line limits hold and every file asked about has a recorded answer within its maximum |
| TokenCounter.FamiliesAgree | scripts/count-tokens.py:235-277 | The counter gives every method the family that the checker derives for it, and no answer to methods without one |
| TokenCounter.FirstAnswerWins | scripts/count-tokens.py:280-311 | A chain yields the answer of its first method that has one, and none when no method answers |
| TokenCounter.AcceptedMeansProviderAnswered | scripts/count-tokens.py:280-322 | A count carries a provider family of the chain if and only if the first method to answer is a provider's: neither local counts nor the fallback pass for one |
| TokenCounter.ModelBeforeLocal | scripts/count-tokens.py:220-232 | Without named methods the model's own tokenizer is asked first, and the local count decides exactly where it has no answer |
| TokenCounter.LocalAsksNoProvider | scripts/count-tokens.py:280-322 | A local count is the same whatever the providers would answer and whatever methods are named, and honours the model's own encoding |
| Admission.Absorb | scripts/experiments/codex-hooks/b5-admission.py:121-143 | One record is absorbed exactly when it is readable, named, and opens a closed exchange or closes an open one; duplicates and unmatched outputs are told apart |
| Admission.ScanRows | scripts/experiments/codex-hooks/b5-admission.py:116-143 | The scan ends without raising if and only if every exchange alternates from a call on; its pending set is then the exchanges that end with a call, and its turn variables are those of the last start |
| Admission.CheckBoundary | scripts/experiments/codex-hooks/b5-admission.py:116-168 | On the records' own fields: a prefix is admitted if and only if every call opens a closed exchange, every output closes an open one, none is open at the end, and the last turn is complete under its own id or, for a Stop event, open with the quoted final answer as its last message; exactly an orderly prefix with an open exchange is refused as unfinished |
| Records.ExchangesArePaired | scripts/experiments/codex-hooks/b5-admission.py:122-145 | In an admitted prefix every function or custom tool call has a later output under its id, and every output an earlier call |
| Admission.FinishedExchangeIsAdmitted | scripts/experiments/codex-hooks/b5-admission.py:116-150 | A turn of a start, a call of either sort, its output and the completion is admitted, whatever the ids |
| Admission.FinishedIff | scripts/experiments/codex-hooks/b5-admission.py:121-145 | The scan's exchanges are in order, and all closed, exactly when the records themselves say so, call by call |
| Records.JoinedAppends | scripts/experiments/codex-hooks/b5-admission.py:151-155 | The final answer's text grows by the text of each further output_text item and by nothing else |
| Admission.OrderlyPrefix | scripts/experiments/codex-hooks/b5-admission.py:131-140 | A prefix whose exchanges are out of order cannot be repaired by later records, so raising at once is exact |
| Admission.PendingCalls | scripts/experiments/codex-hooks/b5-prefix.py:17-29 | The lenient scanner returns exactly the ids whose last function or custom tool record is a call, and raises exactly on unhashable kinds and ids |
| Admission.ScansAgree | scripts/experiments/codex-hooks/b5-admission.py:131-145 | Where the strict scan does not raise, neither does the lenient one, and both leave the same exchanges open |
| Admission.StopAdmitsACompletedTurn | scripts/experiments/codex-hooks/b5-admission.py:142-164 | A log whose turn has completed under its id is admitted at a Stop boundary because a later completion without id follows |
| Admission.StopMeansOpenIff | scripts/experiments/codex-hooks/b5-admission.py:142-164 | For every admitted Stop boundary, no completion at all follows the last start if and only if none without a turn id does |
| Prefixes.ReadPrefix | scripts/experiments/codex-hooks/b5-admission.py:93-113 | The read returns the declared length or the whole file, ending in a newline and within the budget, and fails on a sound file only if every such prefix exceeds the budget |
| Prefixes.ReadLink | scripts/experiments/codex-hooks/b5-admission.py:46-63 | One file of the walk is accepted with the one prefix that answers the request, and refused only if no answer fits |
| Prefixes.SelectPrefixes | scripts/experiments/codex-hooks/b5-admission.py:25-82 | For every depth limit and byte budget the walk ends and returns a chain if and only if it is the recorded history: the file asked for, then for each link the file whose thread, byte length and number of records its first record declares as base, with matching fork fields, distinct threads, a last file that declares nothing, and both budgets kept |
| Prefixes.AncestryIff | scripts/experiments/codex-hooks/b5-admission.py:64-82 | The walk's links are exactly the declared ones: `thread_id`, `end_byte_offset` as the bytes and `end_ordinal_exclusive` as the records of the next file |
| Prefixes.AncestryIsUnique | scripts/experiments/codex-hooks/b5-admission.py:33-82 | At most one ancestry answers a request |
| Prefixes.LongerExtends | scripts/experiments/codex-hooks/b5-admission.py:64-82 | Of two chains for one request the longer extends the shorter, whose last file then declares a base |
| ProcessClosure.Pass | scripts/experiments/codex-hooks/probe-runtime.py:157-161 | One pass adds only processes of every closed superset, reports a change exactly when it added one, and leaves a closed set alone |
| ProcessClosure.CloseInPlace | scripts/experiments/codex-hooks/probe-runtime.py:154-161 | The loop ends with the least set that holds the known processes and every child of an identity-checked parent, whatever the order of the table, and keeps what was known |
| ProcessClosure.ClosureIgnoresOrder | scripts/experiments/codex-hooks/probe-runtime.py:154-161 | Any two results that the closure may have for one table, in whatever order it is listed, are the same processes with the same rows |
| ProcessClosure.ExpandDescendants | scripts/experiments/codex-hooks/b5-lifetime.py:159-164 | The expansion ends with the least set that holds the root and every child of a member |
| ProcessClosure.LeastIsDescendants | scripts/experiments/codex-hooks/b5-fault.py:72-78 | A process is in the least closed set if and only if a chain of parents leads from it into the base |
| ProcessClosure.LiveRootAgrees | scripts/experiments/codex-hooks/probe-runtime.py:76-77 | From a root that still holds its process id both closures are the same set |
| ProcessClosure.ClosuresAgreeIff | scripts/experiments/codex-hooks/b5-lifetime.py:159-164 | The two closures of one root agree if and only if the root still holds its process id or no other process claims it as parent |
| ProcessOwnership.ClosureIsOwned | scripts/experiments/codex-hooks/probe-runtime.py:154-161 | Closing owned processes over one snapshot makes only owned processes known, however ids were reused since |
| ProcessOwnership.Track | scripts/experiments/codex-hooks/probe-runtime.py:147-164 | Each poll makes known exactly the child, the registered processes and all their descendants by identity-checked parents, beside what was known; all that is known is owned and closed under the last listing |
| ProcessOwnership.NoDescendantEscapes | scripts/experiments/codex-hooks/probe-runtime.py:149-161 | A process that some poll lists below a process known by then, by parents that hold their ids, is known from then on |
| ProcessOwnership.HistoryIsUnique | scripts/experiments/codex-hooks/probe-runtime.py:147-164 | What is known after each poll is decided by the polls, whatever the order of the listings |
| ProcessOwnership.SignalOwned | scripts/experiments/codex-hooks/probe-runtime.py:76-97 | A process is signalled if and only if the listing made for it shows its id with the start time recorded for it |
| ProcessOwnership.Sweep | scripts/experiments/codex-hooks/probe-runtime.py:167-175 | All that is known, with the identities registered last, is owned; each round takes every known process listed under its start time and not as a zombie, no other and each once; it signals only processes whose own listing shows that start time, and all of those that every listing of the round shows so |
| StartLedger.Ledger.ReserveStart | scripts/experiments/codex-hooks/b5-runtime.py:39-88 | A start is appended if and only if it is eligible and every quota has room; a refusal appends nothing; every quota is kept |
| StartLedger.ReservationKeepsQuotas | scripts/experiments/codex-hooks/b5-runtime.py:66-74 | An admitted start keeps the total, the case limits, the halves of split cases, the role allocations and the four API starts |
| StartLedger.EveryInterleavingIsWithinQuotas | scripts/experiments/codex-hooks/b5-runtime.py:17-88 | After any sequence of locked requests from an empty ledger every quota is kept |
| StartLedger.EveryRowWasAllowed | scripts/experiments/codex-hooks/b5-runtime.py:39-65 | Every start recorded in any run was asked for with a model and a role, with the product gate approved for product cases, and with extra usage off or API starts authorized as its mode requires |
| StartLedger.ApiStartsAreAuthorized | scripts/experiments/codex-hooks/b5-runtime.py:70-74 | In any run the API starts never exceed what one of their own requests was authorized for |
| StartLedger.LimitsFillTheTotal | scripts/experiments/codex-hooks/b5-runtime.py:17-36 | The case limits add up to the total of 60 |
| StartLedger.TotalMeansEveryCase | scripts/experiments/codex-hooks/b5-runtime.py:66-67 | The total is reached if and only if every case is exhausted |
| StartLedger.RoomUntilFull | scripts/experiments/codex-hooks/b5-runtime.py:49-74 | Below the total some eligible start still has room under every quota at once |
| StartLedger.TurnLedger.ReserveTurn | scripts/experiments/codex-hooks/probe-runtime.py:199-212 | Turns are reserved if and only if ceiling and count are positive and the sum stays within the ceiling; the recorded sum grows by exactly the count |
| ConfigLayers.LoaderIsAlwaysValid | src/forge/runtime_config.py:698-793 | For every mapping the loader returns a configuration that satisfies every check of the constructor |
| ConfigLayers.SectionsAreIsolated | src/forge/runtime_config.py:735-787 | For any set of sections that fail, loading equals loading without those keys, whatever the other keys hold, and those sections are at their defaults |
| ConfigLayers.RebuildIsIdentity | src/forge/runtime_config.py:598-607 | Rebuilding any valid configuration from its dictionary returns it |
| ConfigLayers.WhatIsAcceptedLoads | src/forge/runtime_config.py:698-793 | Whatever the strict constructor accepts is loaded with no section and no whole-configuration fallback, with the same sections and with scalars that differ only by the loader's softening |
| ConfigLayers.LoadingIsIdempotent | src/forge/runtime_config.py:714-793 | Loading the dictionary of a loaded configuration returns it |
| ConfigLayers.FallsBackIff | src/forge/runtime_config.py:789-793 | The whole configuration falls back if and only if some scalar in the file fails its check after softening |
| ConfigTheorems.FieldsAreSound | src/forge/runtime_config.py:182-549 | The program's own fields, checks, coercions and defaults meet all that the layers need, so every promise above holds of them |
| ConfigTheorems.SectionIsStable | src/forge/runtime_config.py:225-407 | Coercing a section that passes its checks leaves it unchanged |
| ConfigTheorems.RereadDiffersIff | src/forge/runtime_config.py:714-733 | The loader changes a scalar if and only if it is a text holding a boolean or a flag holding a string |
| ConfigMeaning.SwitchesLoadAsWords | src/forge/runtime_config.py:714-720 | A boolean in a text field loads exactly as the word on or off would, whatever else the file holds |
| ConfigMeaning.FlagWordsLoadAsBooleans | src/forge/runtime_config.py:721-732 | A quoted flag loads as the boolean that its word names, and as if it were missing where it names none |
| ConfigMeaning.LoadedRanges | src/forge/runtime_config.py:498-549 | Whatever the file holds, every checked scalar is loaded as one of its words or within its range |
| ConfigMeaning.LoadedSkills | src/forge/runtime_config.py:357-407 | Whatever the file holds, the loaded skill map names skills alone, each explicit or left to the model |
| ConfigMeaning.LoadedStatusLine | src/forge/runtime_config.py:182-244 | Whatever the file holds, the loaded status line has known modes, string segments and ages of at least one |
| ConfigMeaning.LoadedTelemetry | src/forge/runtime_config.py:246-356 | Whatever the file holds, the loaded telemetry bounds are nonnegative integers and the trace flag is a boolean |
| ConfigMeaning.OneScalarLoads | src/forge/runtime_config.py:714-793 | For any sound fields, a scalar alone in the file loads as softened if it passes its check, and as its default otherwise |
| ConfigPaths.DictToRuntimeConfig | src/forge/runtime_config.py:698-793 | The loop over the fields and the four patches compute exactly the loader's specification |
| ConfigPaths.PatchSections | src/forge/runtime_config.py:735-787 | The patches replace exactly the present sections that raise, and nothing else |
| ConfigPaths.StoredSkillsAgreeIff | src/forge/runtime_config.py:664-695 | The stored skill map equals the loaded one if and only if every scalar in the file passes its check after softening or nothing is stored |
| ConfigPaths.EnvChangesOnlyTheLogLevel | src/forge/runtime_config.py:552-607 | The environment override replaces the log level by the level asked for and leaves every other field of a valid configuration alone |
| ConfigMeaning.DebugWords | src/forge/runtime_config.py:552-575 | The words for debug, off, info and warning, each if and only if, and no override for any other word |
| ConfigWrites.ConfigFile.SetKey | src/forge/cli/config_cmd.py:621-652 | The file is written if and only if the constructor accepts the updated mapping; then the key reads back, every path apart from it is as before, and otherwise nothing changes |
| ConfigWrites.UpdateNested | src/forge/cli/config_cmd.py:630-637 | The descent that replaces missing and non-mapping children yields a mapping in which the key reads back and every path apart from it is unchanged |
| ConfigWrites.WrittenIsRead | src/forge/cli/config_cmd.py:570-576 | Reading a nested path back after a write gives the value written |
| ConfigWrites.OthersAreUntouched | src/forge/cli/config_cmd.py:630-637 | A nested write changes no path that neither leads to the key nor lies below it |
| ConfigWrites.AcceptedWritesLoad | src/forge/cli/config_cmd.py:639-652 | Every accepted write is loaded without any fallback, with the sections of the strict reading |
| ConfigWrites.SetThenLoad | src/forge/cli/config_cmd.py:152-177 | A scalar accepted by the set command is exactly what the next load returns for it |
| ConfigMeaning.SetReadsFlagsAsTheLoader | src/forge/cli/config_cmd.py:517-522 | The set command and the loader read every nonblank flag word alike where its case folds alike |
| ConfigMeaning.SetReadsByType | src/forge/cli/config_cmd.py:498-525 | A number is taken exactly as its type's reader gives it, and a text exactly as it stands |
| TranscriptIndex.InvariantStep | src/forge/cli/main.py:274-315 | Every step of the handler, the transcript's writer, the bookkeeping and a crash keeps what the recorded fingerprint vouches for |
| TranscriptIndex.IndexIsHonest | src/forge/cli/main.py:286-315 | With one drainer, in every run, a recorded fingerprint equal to the live one means that all three stores hold the extraction of exactly that version |
| TranscriptIndex.ReturnsAreEarned | src/forge/cli/main.py:274-315 | A normal return finds the transcript gone without indexing, or all three stores at the live version with no other fingerprint recorded |
| TranscriptIndex.QuietRunIndexes | src/forge/cli/main.py:274-315 | An undisturbed run from any state the protocol allows ends normally with the live version recorded and stored |
| TranscriptIndex.TwoDrainersLie | src/forge/cli/main.py:298-315 | With two drainers a reachable state at rest records the live fingerprint while a store holds another version |
| TranscriptIndex.HonestIff | src/forge/cli/main.py:274-315 | Every reachable state of any number of drainers is honest if and only if there is at most one |
| BackendResolver.BuildIdentifierLookup | src/forge/backend/sources.py:192-207 | A catalog is indexed if and only if its identifiers are nonempty and each belongs to one source; the index then maps every identifier to its source's id |
| BackendResolver.AddSource | src/forge/backend/sources.py:195-206 | A source's identifiers, repeats skipped, are added if and only if none is empty or taken |
| BackendResolver.ResolverAgreesWithIndex | src/forge/backend/sources.py:324-361 | On every id and alias of an accepted catalog the resolver finds the source that the index names, by id or by alias |
| BackendResolver.FoundIsTheOnlyBearer | src/forge/backend/sources.py:312-361 | In any catalog, what is found is the one source that bears the identifier in the way reported: by id, by alias where no id matches, or by its declared kind, adapter or provider where nothing else does |
| BackendResolver.IdsAreUnique | src/forge/backend/sources.py:338-345 | An accepted catalog never yields the duplicate-id error |
| BackendResolver.AmbiguousIff | src/forge/backend/sources.py:347-361 | An identifier is ambiguous if and only if it is no id and no alias but the kind of several sources, and unknown if and only if it is no kind either |
| BackendResolver.ResolutionIgnoresOrder | src/forge/backend/sources.py:324-361 | Reordering a catalog, valid or not, changes no resolution |
| BackendRegistry.OnlyCallsForTheEntryChangeIt | src/forge/backend/__init__.py:116-188 | In every run, an entry that differs between two moments was in between pruned with a dead recorded process, or committed to by a call that had begun with a read of that entry |
| BackendRegistry.PruneSparesTheRest | src/forge/backend/registry.py:165-190 | In every run, an entry to which no call commits stays as it is over any number of prunes if it has no process id or its process is found alive by each |
| BackendRegistry.RemovedWithoutTeardownIff | src/forge/backend/__init__.py:165-188 | In every run, each removal ends a stop that read the entry and took one teardown step and no other; that step was a registered adapter's normal return if and only if an adapter is registered for the type read |
| BackendRegistry.StopWithoutAnAdapter | src/forge/backend/__init__.py:183-188 | A run in which a stop removes an entry that nothing has torn down |
| BackendRegistry.StopRemovesWhatItRead | src/forge/backend/__init__.py:176-188 | Where nobody commits a change to the entry between read and removal, a stop removes exactly the process it read |
| BackendRegistry.StopRemovesAReplacement | src/forge/backend/__init__.py:176-188 | For any two processes a run exists in which a stop of the first removes the second's entry |
| BackendRegistry.RemovesWhatItReadIff | src/forge/backend/__init__.py:116-188 | For every number of callers, every removal of every run finds its entry gone or as its stop read it if and only if there is at most one caller |
| BackendRegistry.RegistryStore.PruneDeadPids | src/forge/backend/registry.py:165-190 | The loop keeps, unchanged, exactly the entries without a process id or with a live process, and reports each other once |
| BackendRegistry.RegistryStore.EnsureBackend | src/forge/backend/__init__.py:116-163 | Undisturbed, a healthy entry is reused unchanged; otherwise the entry is dropped and what was started takes its place, also when starting fails |
| BackendRegistry.RegistryStore.StopBackend | src/forge/backend/__init__.py:165-188 | Undisturbed, the entry is removed unless it is missing or a registered adapter fails |

## Left out

- WatchdogTheorems.GroupDiesInTime: the bound adds the scheduling slack, and delivery of a fatal signal is taken as
  instantaneous; it covers the members that never changed group, not one that left the group, even if it rejoined.
- WatchdogRuns.GroupDiesInTimeIff: speaks of the members that never changed group; `WholeGroupDiesInTimeIff` speaks of all.
- FileCheckCoverage.NothingEscapesIff: counts are as the counter's contract gives them (a provider family of the chain
  asked, or that of the local and fallback counts), recorded entries as a load accepts them.
- Watchdog: standard output and error of the reviewer, interruption of the owner by the keyboard, and the anchor's exit
  before it has read its payload appear only as steps that close pipes or end a party.
- Watchdog: a reviewer that itself exits with code 124 is reported as a timeout, so the two are not told apart.
- WatchRoutine.Routine.Watch: a signal call that fails otherwise than for a missing process would skip the remaining
  cleanup; such failures are not modelled.
- FileCheckRun.CheckFiles: assumes that a counter answers only for paths it was asked about; glob matching, path
  resolution, digests and message texts are parameters.
- FileLimits: a policy number that is not finite, on which the integer conversion raises, is not a value of the model.
- TokenCache: a malformed entry that would raise a type error while loading counts as a rejected cache.
- CacheTheorems.CheckAfterRefresh: which of several methods of one family is recorded is the first configured one; the
  claims are about the family.
- Admission.PendingCalls: returns a set; the sorting of the result, which raises on mixed types, is left out, and ids
  are compared structurally.
- Prefixes.SelectPrefixes: the rollout search, links, file types, the identity pattern and the parse of a prefix into
  records are parameters; a file that changes while it is read is one that yields nothing; the digest is left out.
- Prefixes: the refusal of a missing plan (`require_plan`) is not part of this model.
- ProcessOwnership.SignalOwned: check and signal are two steps of the program; an id that is reused between them is not
  captured.
- ProcessOwnership.Sweep: the grace periods between the rounds and the final wait, with its exit code, are left out.
- StartLedger.Ledger.ReserveStart: record fields that no quota reads (digest, times, process ids) are left out; the file
  lock makes each request one step.
- RuntimeConfig: keys are strings, and floating-point values are finite; the program accepts a value that is not a
  number wherever it compares with a bound, and such a value is not equal to itself after rebuilding.
- RuntimeConfig: YAML reading and writing, comments and quoting, `edit` and `reset`, and the cached singleton.
- ConfigWrites.ConfigFile.SetKey: the nested mapping is a value that the descent rebuilds; in-place aliasing of ruamel's
  mapping is not captured. The allowlists of segment and skill names that the command checks first are left out.
- TranscriptIndex.IndexIsHonest: every mutation is taken to give a fingerprint of its own, although two writes within
  one timestamp and of one size would share theirs; rebuilding and cleaning the index are other writers, of which only
  the pruning of missing files is modelled.
- TranscriptIndex.ReturnsAreEarned: bookkeeping that is reset between the mark and the last recheck leaves no
  fingerprint recorded, which is stated as such.
- TranscriptIndex: the handler is a step relation rather than a method, because the writer acts between its statements.
- BackendResolver: the validation of a source's own fields and the required environment variables.
- BackendRegistry: mutual exclusion of two ensure calls for one id is not promised by the program and not claimed.
- BackendRegistry.RegistryStore.PruneDeadPids: the order of the reported ids is left open.
- Subprocesses, file locks, hash and JSON libraries, command-line rendering, editors, network probes, containers and
  exporters: they are parameters or absent.
