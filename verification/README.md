# Verified models of torque's algorithmic cores

This project models eleven self-contained cores of torque (a server that queues and supervises
coding tasks, with its scripts and remote agent) in Dafny and proves what they promise. Loops and
updates stay loops, classes and methods; each is proved against a definition that says what the result
is, and the promises are proved about those definitions, for all inputs and all runs.

`dafny verify dfyconfig.toml` checks everything.

| file | models | main results |
|---|---|---|
| `Text.dfy`, `FunctionScan.dfy`, `FunctionGroups.dfy`, `LineWindows.dfy`, `ReviewChunks.dfy` | the review chunker | the extracted intervals are the only ones meeting a scanner-free definition and miss no brace-language declaration; greedy grouping is optimal and unique; any run of at most 101 lines of a split text lies in one window, and which runs of 102 do not; every line of every detected function is in some chunk |
| `Dependencies.dfy`, `KahnSort.dfy`, `DiContainer.dfy` | the dependency-injection container | sorting succeeds exactly on acyclic graphs and otherwise reports the largest set of services waiting for each other; a boot's instances do not depend on the order used; disposal never precedes a dependent's; a restart gives the same services |
| `RotatingLog.dfy` | the rotating logger | the files are a suffix of everything written; sizes are bounded; nothing is lost before more than maxFiles * maxSize newer bytes exist |
| `Sorting.dfy`, `GatePlan.dfy`, `ShellWords.dfy` | the pre-push gate planner | a plan is the join of its files' needs, so more files never run less, except compared with an empty diff; the shell encoding round-trips for all strings at both levels |
| `WindowLog.dfy`, `QuotaTracker.dfy`, `LatencyRing.dfy` | the quota tracker | at most the limit per window and twice the limit in any interval of that length; the rolling average is the mean of the last ten valid latencies |
| `WindowLog.dfy`, `ErrorLimiter.dfy` | the error rate limiter | at most twenty errors of a key in any minute, sweeps included |
| `QueueTrigger.dfy` | the debounced queue trigger | passes never nest, start at least 15 ms apart, and no request outside shutdown is lost |
| `CodexConfig.dfy` | the TOML edit | idempotent on texts, including mixed line endings; one table, the expected URL first, all other lines kept, and the result determined |
| `LaneLocks.dfy` | the test-lane locks | mutual exclusion among live processes in every interleaving; selection of the lowest usable lane; distinct ports |
| `Baseline.dfy` | the audit baseline | exact multiset subtraction; a written baseline absorbs what it was written from |
| `AgentCapacity.dfy` | the agent's running counter | equals the unfinished children and stays within the limit, in any interleaving |

Where code and its comments disagree the model follows the code: a Python class directly followed by
an indented method is dropped rather than closed (`FunctionScan.DeclarationCovered`, with the input of
`ClassLineDropped`), an empty diff runs everything and so can be narrowed by adding a file
(`GatePlan.NeverNarrows`, with `EmptyDiffNarrowed`), and a late line window can be empty
(`LineWindows.EmptyWindow`, with `LongLineEmptyWindow`).  A violation's identity is not unique when a name holds
a separator (`Baseline.FingerprintDistinct`, with `SharedIdentity`).  `Wrappers.dfy` and `Sequences.dfy` hold
the option type and subsequences.

## Model

| member | source | states |
|---|---|---|
| Text.SplitOfJoin | server/chunked-review.js:429-430 | joining lines and splitting the result again, as the hybrid strategy does for an oversized function, gives back the lines |
| Text.SliceSpans | server/chunked-review.js:276-281 | the text taken for lines first..last is as long as those lines with a break between neighbours |
| FunctionScan.ExtractBraced | server/chunked-review.js:32-105 | each function starts at the first declaration after its predecessor and stops at the first line that can end it; nothing declared is left after the last one |
| FunctionScan.ExtractionUnique | server/chunked-review.js:196-253 | those conditions admit one list of functions only, for C# as for JavaScript |
| FunctionScan.ExtractionWellPlaced | server/chunked-review.js:90-101 | the intervals are in range, strictly ordered and disjoint |
| FunctionScan.EndsFirst | server/chunked-review.js:59-98 | a function's last line is the first from its start on where a brace closes at depth zero, the file ends, or the next line declares at depth zero (in C#, at most one) |
| FunctionScan.NoDeclarationMissed | server/chunked-review.js:63-85 | every line on which a declaration was matched lies in some detected function |
| FunctionScan.ExtractPython | server/chunked-review.js:141-189 | the result is exactly the kept declarations in order, each running to the line before the next declaration |
| FunctionScan.PythonWellPlaced | server/chunked-review.js:163-186 | the Python intervals are in range, ordered and disjoint |
| FunctionScan.LineCovered | server/chunked-review.js:141-189 | a line lies in a detected function if and only if it belongs to a declaration whose next one is not indented deeper |
| FunctionScan.DeclarationCovered | server/chunked-review.js:166-178 | so a declaration's lines, up to the next declaration, are all in a detected function or none is |
| FunctionScan.ClassLineDropped | server/chunked-review.js:166-178 | a two-line file, a class and its indented method: the class line is in no detected function |
| FunctionGroups.GroupFunctionsIntoChunks | server/chunked-review.js:262-333 | the chunks hold the functions in order, record their lines and the sum of their tokens, each measured on the function's own lines, and are packed; a chunk is marked for splitting exactly if it is one function over the limit less 2000, and fits otherwise |
| FunctionGroups.AddFunction | server/chunked-review.js:275-325 | one more function keeps all of that, given the open chunk |
| FunctionGroups.GroupingOptimal | server/chunked-review.js:305-315 | no order-preserving grouping under the same rules has fewer groups |
| FunctionGroups.PackedUnique | server/chunked-review.js:305-330 | only one grouping is valid and packed, so the chunks are determined |
| LineWindows.CreateLineBasedChunks | server/chunked-review.js:341-371 | as many windows as the token budget asks for, each with its range and the tokens of its own lines, none if it is empty |
| LineWindows.CountByBudget | server/chunked-review.js:346-350 | the number of windows is the least that keeps each one's share within the limit less 2000, or 500 |
| LineWindows.RunInOneWindow | server/chunked-review.js:350-357 | every run of at most 101 consecutive lines lies inside one window |
| LineWindows.LongerRunSplit | server/chunked-review.js:350-357 | a run of 102 lines lies inside no window if and only if its two middle lines are in different blocks |
| LineWindows.EmptyWindow | server/chunked-review.js:356-357 | a window is empty if and only if its block starts 50 or more lines past the end |
| LineWindows.SomeWindowEmpty | server/chunked-review.js:350-357 | a text has an empty window if and only if its last window's block starts 50 or more lines past the end |
| LineWindows.LongLineEmptyWindow | server/chunked-review.js:346-357 | a text of one line of 104000 characters under a limit of 2500 tokens gets 52 windows, the last one empty |
| ReviewChunks.Expand | server/chunked-review.js:426-451 | a group becomes one chunk with its names and tokens, or its function's windows in file numbering |
| ReviewChunks.FunctionsReviewed | server/chunked-review.js:414-466 | each function lies in one chunk, or, if split, every run of at most 101 of its lines does; all chunks stay in the file |
| ReviewChunks.GenerateReviewChunks | server/chunked-review.js:380-487 | which strategy is chosen when, and that its chunks are the whole file, the windows, or the expanded groups |
| ReviewChunks.PlanReviews | server/chunked-review.js:380-487 | whatever the strategy, the chunks stay in the file and review every function; without functions every run of at most 101 lines is reviewed |
| ReviewChunks.PlanStated | server/chunked-review.js:380-487 | every chunk states the names of its functions and the sum of their tokens, or, without functions, the tokens of its own lines of the file |
| ReviewChunks.ReviewBraced | server/chunked-review.js:409-417 | from scanned lines to chunks: the plan is the one for the extracted functions, and every line of every function and every declaration is in some chunk |
| ReviewChunks.ReviewPython | server/chunked-review.js:409-417 | the same for Python: every line of every function and every kept declaration is in some chunk |
| Dependencies.OrderedIsAcyclic | server/container.js:85-103 | a dependency-first order rules out cycles |
| Dependencies.StuckHasCycle | server/container.js:96-101 | services that each wait for another one among them contain a cycle |
| KahnSort.FindUnregistered | server/container.js:52-60 | reports an unregistered dependency exactly when there is one |
| KahnSort.ReverseEdges | server/container.js:75-83 | each service appears among a dependency's dependents as often as it names it |
| KahnSort.Step | server/container.js:86-94 | taking one service off the queue keeps the in-degrees equal to the unsorted dependencies, duplicates counted, and queues exactly those that reach zero |
| KahnSort.TopoSort | server/container.js:50-104 | a dependency-first permutation if the complete graph is acyclic, an unregistered dependency if it is incomplete, and otherwise the largest set of services each waiting for one of the set |
| DiContainer.Container.Register | server/container.js:118-135 | registers or replaces in place before boot only, with the error for each refused case |
| DiContainer.Container.Boot | server/container.js:154-198 | fails exactly on missing or circular dependencies; otherwise calls every factory once, dependencies first, with exactly its declared dependencies and their instances or undefined; its result is the instance, and it is listed as failed exactly if it threw; a fail-fast boot stops at the first throw |
| DiContainer.MadeRight | server/container.js:170-184 | the calls along a dependency-first order, one for each factory: what they were given and what became of their results, in terms of registrations and instances alone |
| DiContainer.BootUnique | server/container.js:166-188 | two boots of the same registrations have the same instances and failures, whatever dependency-first orders they used |
| DiContainer.Container.EnsureBooted | server/container.js:204-210 | the same as a boot, failures included, and repeats the recorded result once booted |
| DiContainer.Container.Get | server/container.js:212-223 | after boot every registered service that did not fail is found |
| DiContainer.Container.Freeze | server/container.js:240-245 | freezes a booted container only; that frozen implies booted is kept by every method |
| DiContainer.Container.Override | server/container.js:328-336 | replaces a registration, and the instance once booted, and resolves nothing again |
| DiContainer.OverrideThenDispose | server/container.js:278-336 | a service first added by an override after boot is never disposed; those of the boot order with a disposer are |
| DiContainer.Container.Dispose | server/container.js:278-308 | disposes in reverse boot order past errors, reports exactly those that threw, and returns to the unbooted state |
| DiContainer.DisposedAfterDependents | server/container.js:282-294 | no service is disposed before one that depends on it, and none twice |
| DiContainer.Restart | server/container.js:268-272 | booting, disposing and booting again succeeds exactly on complete acyclic registrations and then gives the same services and failures |
| RotatingLog.Logger.Write | server/logger.js:264-298 | the files after a line are those of the specification's step, and lines below the level change nothing |
| RotatingLog.Logger.Rotate | server/logger.js:177-224 | the downward renames shift every file by one and drop the oldest |
| RotatingLog.Logger.WriteLine | server/logger.js:226-239 | the line is appended and the size counter equals the current file's size; a closed stream's counter may hold anything, since opening reads the size again |
| RotatingLog.Logger.ReadBack | server/logger.js:192-217 | reading from the highest number down to the current file gives the retained lines in order |
| RotatingLog.RunKeepsSuffix | server/logger.js:290-294 | over any run the files are a suffix of all lines, no file exceeds maxSize by more than one line, every rotated file exceeds maxSize, and losses need maxFiles full files |
| RotatingLog.LostOnlyWhenFull | server/logger.js:194-217 | if anything is lost, more than maxFiles * maxSize bytes of newer lines are retained |
| Sorting.UniqSortedBySet | scripts/pre-push-gate-plan.js:208-210 | two lists sort to the same list if and only if they have the same elements |
| Sorting.BeforeMeans | scripts/pre-push-gate-plan.js:208-210 | one string comes before another if and only if it ends first or has the smaller character where they first differ |
| GatePlan.AddFile | scripts/pre-push-gate-plan.js:288-351 | one file changes the plan's fields to the join of what was needed and what the file needs |
| GatePlan.PlanFromFiles | scripts/pre-push-gate-plan.js:248-378 | the plan, read as the gate runs it, is the settled join of all files' needs; and in terms of paths and lookups alone, which suites run, whole or with exactly which tests, and when the perf gate, the audit and the strict audit run |
| GatePlan.AllOfUnion | scripts/pre-push-gate-plan.js:288-351 | what a union of files needs is the join of what the parts need, in any order |
| GatePlan.PlanOfUnion | scripts/pre-push-gate-plan.js:353-378 | the plan of a union of nonempty diffs is the join of their plans |
| GatePlan.PlanOfSet | scripts/pre-push-gate-plan.js:249-249 | the plan depends on the set of changed files only |
| GatePlan.NeverNarrows | scripts/pre-push-gate-plan.js:284-286 | adding files never narrows what runs, if and only if the first diff names a file, the added ones name none, or one of them runs everything |
| GatePlan.EverythingIff | scripts/pre-push-gate-plan.js:288-351 | everything runs if and only if no file is named or some named file is unsafe, a gate file or outside the known directories |
| GatePlan.EmptyDiffNarrowed | scripts/pre-push-gate-plan.js:284-286 | an empty diff runs everything; with README.md added nothing runs |
| GatePlan.StrictNeedsAudit | scripts/pre-push-gate-plan.js:236-246 | every file that triggers the strict audit is on a branch that runs the audit or everything |
| GatePlan.TriggerForcesAudit | scripts/pre-push-gate-plan.js:277-282 | a diff with such a file always runs the strict audit |
| GatePlan.ServerTestShape | scripts/pre-push-gate-plan.js:69-73 | which paths are server tests, as prefix, middle and suffix |
| GatePlan.DashboardTestShape | scripts/pre-push-gate-plan.js:65-67 | which paths are dashboard tests |
| GatePlan.AuditTriggerShape | scripts/pre-push-gate-plan.js:236-246 | the strict triggers are the .js files directly in an audited directory that are no server tests |
| GatePlan.GateFileShape | scripts/pre-push-gate-plan.js:294-297 | the gate files, by name and under the coordinator |
| GatePlan.DocsOnlyIff | scripts/pre-push-gate-plan.js:368-370 | nothing runs if and only if there are changes and all are safe documentation paths |
| GatePlan.Widen | scripts/pre-push-gate-plan.js:422-443 | the codegraph pass only adds tests to a limited server run and leaves everything else alone |
| ShellWords.ReadQuoted | scripts/pre-push-gate-plan.js:556-558 | a quoted value reads as exactly its characters, joined to the word before it |
| ShellWords.ArgsRoundTrip | scripts/pre-push-gate-plan.js:560-562 | splitting the encoded arguments by the POSIX quoting rules gives back the paths, for all strings |
| ShellWords.PlanRoundTrip | scripts/pre-push-gate-plan.js:564-583 | evaluating the printed script sets exactly thirteen variables, each field's to its value with flags as 1 and 0, and splitting the two argument variables gives back the plan's lists |
| WindowLog.TwiceTheLimit | server/free-quota-tracker.js:421-428 | events limited per window are at most twice the limit in any closed interval of window length |
| QuotaTracker.LastEntryCounts | server/free-quota-tracker.js:76-101 | a new tracker starts each provider with its last entry's limits, zero counters, windows of a minute and a day from then, no cooldown and no backoff |
| QuotaTracker.FreeQuotaTracker.CanSubmit | server/free-quota-tracker.js:110-131 | true if and only if the provider is known, no cooldown lies ahead and each of the four limits is missing, not positive, or above its counter, a lapsed window counting as empty; and the whole new state |
| QuotaTracker.FreeQuotaTracker.RecordUsage | server/free-quota-tracker.js:133-145 | one request and its tokens more in both windows, reset first if lapsed, and the backoff starts over; a token count that is not finite counts as zero |
| QuotaTracker.FreeQuotaTracker.RecordRateLimit | server/free-quota-tracker.js:182-201 | the whole new state with a given or a backed-off cooldown |
| QuotaTracker.FreeQuotaTracker.Tick | server/free-quota-tracker.js:337-344 | every provider's lapsed windows and cooldown are reset |
| QuotaTracker.QuotaHolds | server/free-quota-tracker.js:110-145 | in every run, questions without a request included, no minute or day window admits more than its limit, and no interval of that length more than twice it, although windows reset lazily |
| QuotaTracker.RefusedOnlyWhenFull | server/free-quota-tracker.js:110-131 | in a run a request is refused if and only if a cooldown runs or a positive limit of an unlapsed window is reached |
| QuotaTracker.CounterIsLog | server/free-quota-tracker.js:133-145 | in every run the request counters are the numbers of requests admitted in their windows |
| QuotaTracker.TokensOvershootOnce | server/free-quota-tracker.js:125-143 | a token counter passes its limit by less than the last admitted request |
| QuotaTracker.CooldownHolds | server/free-quota-tracker.js:116-123 | nothing is admitted before a cooldown ends unless another rate limit replaces it |
| QuotaTracker.BackoffGrows | server/free-quota-tracker.js:193-198 | n rate limits without a retry time and without a request in between, whatever is asked meanwhile, wait 30, 60, 120 and then 300 seconds |
| QuotaTracker.Drive | server/free-quota-tracker.js:74-201 | in a tracker of several providers each one's state is that of its own events, ticks included |
| LatencyRing.Ring.RecordLatency | server/free-quota-tracker.js:154-162 | the ring holds the last ten valid latencies in circular order; invalid values change nothing |
| LatencyRing.Ring.GetAverageLatency | server/free-quota-tracker.js:171-180 | the result is the mean of the last min(n, 10) valid latencies ever recorded, or the default |
| LatencyRing.AverageIsMean | server/free-quota-tracker.js:154-180 | that average is 5000 ms at first, and then the mean of the last ten valid latencies, or of all if there are fewer |
| ErrorLimiter.Limiter.ShouldLogError | server/index.js:594-621 | an error is suppressed exactly when its window is running and let ten through already |
| ErrorLimiter.Limiter.Sweep | server/index.js:624-635 | the sweep forgets exactly the trackers two windows old and lets nothing through |
| ErrorLimiter.Limiter.RateBound | server/index.js:586-588 | in every reachable state at most twenty errors of a key were let through in any minute |
| QueueTrigger.Trigger.ProcessQueue | server/task-manager.js:626-656 | the new state and outcome; a pass starts exactly when none is pending or running, the debounce has passed and the server is not stopping |
| QueueTrigger.Trigger.TimerFires | server/task-manager.js:637-641 | a due timer clears itself and calls again |
| QueueTrigger.Drive | server/task-manager.js:626-692 | the methods, called for any sequence of events, reach the state the lemmas are about |
| QueueTrigger.PendingIffTimer | server/task-manager.js:628-641 | in every run the pending flag is set if and only if a timer is |
| QueueTrigger.PassesApart | server/task-manager.js:632-692 | in every run, between two starts of a pass the first one has ended, and at least 15 ms have passed |
| QueueTrigger.NoCallLost | server/task-manager.js:626-656 | in every run without a shutdown, every call so far has been followed by a start, or a timer is set |
| QueueTrigger.TimerRetries | server/task-manager.js:637-641 | in every run a set timer is due within 15 ms of the last event; a due one starts a pass unless one is running, when it is set again, or the server is stopping |
| CodexConfig.FindTables | server/index.js:357-369 | the only table's line, the first subtable's line, and whether there are two tables |
| CodexConfig.EditLines | server/index.js:371-414 | refuses exactly two tables, does nothing exactly when configured, and otherwise adds a table before the first subtable or at the end, replaces the first url line, or adds one at the table's end |
| CodexConfig.UpdateTable | server/index.js:384-414 | a table's first url line is replaced, or, without one, the url line goes at the table's end; nothing is done exactly when it is current |
| CodexConfig.EditUnique | server/index.js:371-414 | that description leaves one result only |
| CodexConfig.EditConfigures | server/index.js:371-414 | the result has one table whose first url line is the expected one, and every other line survives in order |
| CodexConfig.NewTableSetOff | server/index.js:376-383 | a new table stands before the first subtable or at the end, with a blank line added only where there is none |
| CodexConfig.EnsureConfig | server/index.js:351-419 | the answer and the text left behind, for file texts with either line ending |
| CodexConfig.EnsuredConfigures | server/index.js:416-416 | the text left behind reads back as configured and serializes the old lines with the table's in place |
| CodexConfig.LineEndingKept | server/index.js:355-416 | a file with a CRLF is written with CRLF throughout, any other with bare newlines |
| CodexConfig.ParseMixed | server/index.js:356-359 | a text is read as its lines, whichever of them end in CRLF and with or without a last newline |
| CodexConfig.EnsuredUnique | server/index.js:351-419 | the answer and the text left behind are determined by the text found |
| CodexConfig.EnsureTwice | server/index.js:394-399 | a second run on what the first left behind finds nothing to do and changes nothing |
| CodexConfig.ParseOfSerialize | server/index.js:416-416 | a written file reads back as its lines, except that bare newlines swallow a carriage return before them |
| CodexConfig.TomlIsLawful | server/index.js:333-337 | the repository's line patterns satisfy what the edit relies on |
| CodexConfig.SubtableShape | server/index.js:335-335 | which lines are headers below the server's table |
| CodexConfig.AnyTableShape | server/index.js:336-336 | which lines are table headers |
| CodexConfig.UrlShape | server/index.js:337-337 | which lines set the url |
| LaneLocks.ActKeepsValid | scripts/test-lane.js:212-257 | every step keeps lock files and the holders' own view in agreement |
| LaneLocks.MutualExclusion | scripts/test-lane.js:219-230 | at most one live process holds, creates or releases a lane's lock, in every interleaving |
| LaneLocks.OthersLeaveLock | scripts/test-lane.js:231-253 | no step of another process changes the lock of a live one, written or not |
| LaneLocks.OnlyOwnerOrDead | scripts/test-lane.js:163-168 | a lock file disappears only by its owner's step or after its owner died |
| LaneLocks.ReleaseRemovesOwn | scripts/test-lane.js:163-168 | release removes the caller's own lock and no other file |
| LaneLocks.ReleaseCompletes | scripts/test-lane.js:163-168 | a live holder's release ends with its lock gone and all others as they were |
| LaneLocks.TwoAttempts | scripts/test-lane.js:218-256 | no process tries to create a lock more than twice |
| LaneLocks.VanishedIsRetried | scripts/test-lane.js:241-242 | a lock that vanishes while it is looked at is tried for again |
| LaneLocks.AcquireLane | scripts/test-lane.js:212-257 | undisturbed, the lane is acquired if and only if its lock is missing or its owner dead, and otherwise nothing changes |
| LaneLocks.AcquireSelectedLane | scripts/test-lane.js:259-290 | an automatic request takes the lowest lane whose ports are free and whose lock can be had, a named one only its own lane; no other lock changes, and the steps are those of the interleaved machine |
| LaneLocks.PortsDistinct | scripts/test-lane.js:52-87 | two ports coincide if and only if lane and field do |
| LaneLocks.PortNumbers | scripts/test-lane.js:79-85 | the ports of lane 1, and a hundred more for each further lane |
| Baseline.FingerprintStable | scripts/audit-db-queries.js:522-526 | moving a finding and reordering or repeating its columns keeps its identity |
| Baseline.FingerprintDistinct | scripts/audit-db-queries.js:522-526 | findings that differ in file, table or columns have different identities, if no colon is in files and tables and no comma in column names |
| Baseline.SharedIdentity | scripts/audit-db-queries.js:522-526 | with a separator in a name two different findings share an identity |
| Baseline.SubtractBaseline | scripts/audit-db-queries.js:554-572 | the result is the findings preceded by at least as many of their identity as the baseline has rows for it |
| Baseline.ExcessCount | scripts/audit-db-queries.js:548-553 | each identity is left max(0, current - allowed) times, whatever the allowance per identity |
| Baseline.ExcessPicks | scripts/audit-db-queries.js:561-571 | the result is a subsequence of the findings |
| Baseline.ViolationsToBaselineRows | scripts/audit-db-queries.js:574-589 | one row for each finding, its columns sorted without repetitions, ordered by file, table and columns |
| Baseline.WriteThenAudit | scripts/audit-db-queries.js:574-595 | auditing against a baseline written from earlier findings leaves exactly the excess over them, and nothing if and only if no identity grew |
| AgentCapacity.Agent.Request | agent/index.js:197-207 | the whole new state; a request is refused exactly at the limit |
| AgentCapacity.Agent.Ended | agent/index.js:255-274 | the whole new state after a child's close or error event |
| AgentCapacity.Serve | agent/index.js:197-274 | the methods, called for any interleaving of events, reach the state the lemmas are about |
| AgentCapacity.CounterIsUnfinished | agent/index.js:197-274 | in any interleaving the counter is the number of children started and not ended, and stays within the limit |
| AgentCapacity.RefusedAtLimit | agent/index.js:198-205 | a new child's request is refused if and only if the unfinished children have reached the limit, and otherwise adds it to them |
| AgentCapacity.FirstEndCounts | agent/index.js:255-274 | only the first close or error event of a started child lowers the counter, by one |

## Left out

- Regular expressions of the chunker: each line arrives with what they matched, and file extensions choose a scanner outside the model.
- Chunk descriptions, review tasks and the aggregation task: wording only.
- Text.Tokens: counts Dafny characters where the original counts UTF-16 units.
- FunctionGroups.GroupFunctionsIntoChunks: computes the functions' tokens before the loop rather than inside it.
- Sorting.Before: compares characters, which differs from UTF-16 order for characters outside the basic plane; no result depends on which total order is used.
- The container's `list`, `peek` and `has`, log messages, and the default container's registrations: lookups and plumbing.
- DiContainer.Container.Boot: a factory is a function of its dependencies' instances, so factories that call back into the container or return different results each time are not captured.
- DiContainer.Container.Dispose: is one step; calls made while it awaits a disposer are not modelled.
- RotatingLog.Logger.Write: models one root logger on an empty directory; child loggers, symlink refusals, stream errors, a new process on existing files, and lines logged from inside a rotation (the pending queue) are not part of this model.
- GatePlan.PlanFromFiles: reasons, hashes and summaries are omitted, and the lookups of targeted tests are arbitrary functions of the file.
- ShellWords.Read: knows the escape character and single quotes only and gives up on anything else special to a shell, which the encoder never leaves unquoted.
- QuotaTracker.QuotaHolds: takes limits, tokens and times as whole numbers, and each usage as recorded at the instant it was allowed.
- Provider scoring, `getStatus`, `updateLimits` and daily snapshots of the quota tracker: reporting.
- LatencyRing.Ring.GetAverageLatency: uses exact real arithmetic instead of floating point.
- QueueTrigger.Trigger.TimerFires: a timer never fires early, and time does not go back; the test-only reset of the trigger is omitted.
- The other pending, locking and scheduling code of the task manager, and its distributed lock: a pass is an opaque interval.
- Host and port of the Codex URL: the URL line is any quoted text without line breaks; file permissions and atomic replacement are omitted.
- LaneLocks.ActKeepsValid: treats reading a dead holder's lock and removing it as one step, and process numbers are never reused.
- LaneLocks.AcquireSelectedLane: takes one answer for each port during the whole call, and lane numbers as already parsed; removing a stale file never fails.
- Scanning SQL and reading or writing the baseline file: findings and rows are given.
- AgentCapacity.Agent.Request: starts after validation and assumes spawn returns a new child.
