# Verified model of oh-my-copilot's state machines and rewriters

A Dafny model of the parts of oh-my-copilot whose behaviour is decided by their own code on unbounded
inputs: an instrumented sorting benchmark, a lease shared by many processes, a keep/discard supervisor,
rewriters that merge managed content into user files and take it out again, process cleanup, and a small
parser/printer pair. `dafny verify dfyconfig.toml` checks everything.

## What is modelled

- **Sorting** (`SortSpec`, `SortBenchmark`). Lists, an `Ops` object with its counters, an in-place
  insertion sort, a recursive merge sort with a two-index merge, counting and hybrid sort. Results and
  counters are exact; the closed forms and bounds are lemmas about the cost functions.
- **Tmux lease** (`LeaseEffects`, `LeaseHost`, `LeaseProtocol`). A transition system of any number of
  processes, one step per mkdir, owner write, stale check, lock removal, file read or write and tmux call.
  It refines a ledger without locks, about which the accounting is proved. Processes may crash anywhere
  for mutual exclusion; for the accounts a crash inside a critical section sets `torn` and is excluded.
  Mutual exclusion fails when two processes find the same dead lock stale and the second removal takes the
  lock the first has made since (`ExclusionFails`); that is the only way (`LockHeldExactly`,
  `LateReapNeedsAnother`). The owner file is written before the lock is old enough to be called stale, file
  writes succeed while tmux calls may fail, lease ids are distinct, users set the option only while no
  process is inside a critical section, and there is one socket and one key.
- **Autoresearch** (`AutoresearchTypes`, `AutoresearchTurn`, `AutoresearchSupervisor`, `AutoresearchLaws`,
  `AutoresearchProject`, `AutoresearchOutcomes`). One class with manifest in memory, manifest on disk, ledger, results rows, HEAD
  and lock; git, the evaluator, the candidate file and the mode state are the fields of a `Turn`. Calls of
  git, of the evaluator and of the mode state may throw; file writes succeed. `AutoresearchProject` runs any
  number of runs under one lock. Four promises hold only under a condition, and the condition is proved
  exact: the ledger is a chain iff the supervisor starts from an up-to-date manifest (`ChainKeptExactly`),
  the lock is freed iff the mode state can be written (`LockKeptExactly`), a held lock stays held iff no
  run, the holder or another, ends with its mode state updated (`LockExcludes`), and no turn revives a terminal run iff its supervisor no
  longer holds a running manifest (`RevivedExactly`). Each run has its own worktree, and its results table
  is not in git.
- **Overlays** (`Text`, `AgentsOverlay`, `OverlayBody`, `RuntimeOverlay`). Strings and real substring
  search, malformed markers included. Markers are distinct comment lines; their shape is proved for the
  constants of the source.
- **Process cleanup** (`ProcessGraph`, `CleanupRun`). An arbitrary process table, with the command tests
  as parameters. The walk to the protected root has no visited set, so the theorems about it ask that it
  ends, and `NeverEndsIff` says when it does not; the ancestor search always ends. Clock and liveness answers are
  arbitrary, the clock never runs backwards and a sleep takes at least its time.
- **config.toml** (the `Config` modules). A file is its lines; each line is told apart by the
  regular expressions of the source, written out over characters. `ConfigSections`, `ConfigTui`,
  `ConfigMarkers`, `ConfigRoot` and `ConfigTimeouts` specify one step each, `ConfigEdits`,
  `ConfigTuiEdits` and `ConfigBuild` are the loops and splices over the line array, `ConfigMerge` is the
  whole pipeline. Idempotence is `ConfigSetup.MergeTwice`, preservation `ConfigPreserves.MergeKeepsLines` with
  `ConfigChoices`; both are if-and-only-ifs. What breaks them is a bracket line that is no whole table header,
  as in `[x] # note`: the code does not see that a table begins there. `ConfigExamples` has files on which each
  fails. A file is `Readable` if, managed root keys and blocks aside, `notify-hook.js"` stands in whole notify
  lines only; those lines are taken out as the code does. `MergeKeepsLines` counts every line but comments,
  blank lines, the keys and tables setup owns, notify lines and `startup_timeout_sec = 15` in an MCP table, and
  asks that the text behind each managed block begins with a table (`HeadedBlocks`). The TOML parser's
  decision on a section, the orphaned-notify step on files that are not `Readable`, and the list of legacy
  agents are parameters; `Sensible`, `NotifyOk` and `AgentsOk` say what is asked of them, and `SetupCanBeMet`
  that all demands can be met together, by decisions that go both ways.
- **mcp-config.json** (`McpRegistry`, `McpSync`) and **hooks.json** (`CodexHooks`, `CodexHooksShipped`). JSON objects are maps;
  inside a server entry the key order is kept, because the code compares entries as text. Preservation of
  a user's server holds per sync: the marker takes every desired name, so a skipped entry is managed from
  the next sync on (`FirstSyncAdopts`, `OneSyncSettlesIff`).
- **Mission files** (`Slugs`, `SandboxFile`, `DraftArtifact`, `MissionTexts`). Slugs over ASCII letters, the sandbox.md
  parser and printer, the draft's markdown sections.

What an operation computes is stated twice where that matters: as the function a loop is proved against, and
in laws that do not name that function, with the constants of the source written out (`ConfigRootLines`,
`ConfigWritten`, `AutoresearchOutcomes`, `MissionTexts`, `CodexHooksShipped`, `SortBenchmark.Charges`,
`McpRegistry.EntryIsWritten`, `Slugs.SlugSays`).

Text uses "\n" line ends throughout. Blank lines are where setup is not idempotent: one may collect above
`model` in each run, which is why `MergeTwice` speaks of the visible lines.

Where code and documentation differ, the model follows the code: buildMergedConfig's comment promises that
user settings are preserved, which fails below a header with a trailing comment (`MergeKeepsLines` says
exactly when); the stale check of the lease lock is meant to spare living owners, which it does not when
two processes make it at once; the quoted table
`[mcp_servers."omcp_team_run"]` is looked for by `hasLegacyOmcpTeamRunTable` but not removed by
`stripOrphanedOmcpSections` (the orphan test compares the unquoted prefix).

## Model

| member | source | states |
|---|---|---|
| SortSpec.SortIsUnique | playground/adaptive_sort_demo/sort_benchmark.py:36-125 | two sorted lists with the same elements are equal, so each sort has one right answer |
| SortSpec.SortedOfIsSort | playground/adaptive_sort_demo/sort_benchmark.py:36-48 | successive insertion yields the sorted permutation of every list |
| SortSpec.SortedOfIsTheSort | playground/adaptive_sort_demo/sort_benchmark.py:36-125 | whatever is sorted and a permutation of the input is what the insertion function gives |
| SortSpec.InversionsCountPairs | playground/adaptive_sort_demo/sort_benchmark.py:39-47 | the inversion count used in the cost is the number of index pairs out of order |
| SortSpec.ShiftsCountGreater | playground/adaptive_sort_demo/sort_benchmark.py:41-46 | what placing a value shifts is what lies above it |
| SortSpec.MergeOfHalves | playground/adaptive_sort_demo/sort_benchmark.py:51-74 | merging two sorted halves is sorting the whole |
| SortSpec.MergeMovesClosedForm | playground/adaptive_sort_demo/sort_benchmark.py:51-74 | merge moves: M(n) = n·⌈log2 n⌉ − 2^⌈log2 n⌉ + n in closed form for every n ≥ 1, hence at most n·⌈log2 n⌉ |
| SortSpec.MergeWorstClosedForm | playground/adaptive_sort_demo/sort_benchmark.py:51-74 | the worst-case comparison recurrence equals n·⌈log2 n⌉ − 2^⌈log2 n⌉ + 1 for every n ≥ 1 |
| SortSpec.CeilLog2IsLeast | playground/adaptive_sort_demo/sort_benchmark.py:51-74 | the logarithm used is the least power of two not below n |
| SortSpec.RunBoundsInversions | playground/adaptive_sort_demo/sort_benchmark.py:93-103 | a non-decreasing window of length L leaves at most n(n−1)/2 − L(L−1)/2 inversions |
| SortBenchmark.InsertionCost | playground/adaptive_sort_demo/sort_benchmark.py:36-48 | insertion sort: exactly 2(n−1)+inv moves and inv+(n−1)−m comparisons, m the later positions strictly below everything before them |
| SortBenchmark.InsertKey | playground/adaptive_sort_demo/sort_benchmark.py:39-47 | one round of the in-place loop: the key placed after the last element not above it, with its exact counter increments |
| SortBenchmark.InsertionSort | playground/adaptive_sort_demo/sort_benchmark.py:36-48 | sorted permutation of every list, counters raised by the exact insertion costs |
| SortBenchmark.MergeSort | playground/adaptive_sort_demo/sort_benchmark.py:51-74 | sorted permutation of every list, moves a function of the length alone, comparisons of the list |
| SortBenchmark.Merge | playground/adaptive_sort_demo/sort_benchmark.py:60-74 | the two-index merge: merged list, exact comparisons, one move per element |
| SortBenchmark.MergeSortComparisonsBound | playground/adaptive_sort_demo/sort_benchmark.py:51-74 | merge sort takes at most n·⌈log2 n⌉ − 2^⌈log2 n⌉ + 1 comparisons on every non-empty list |
| SortBenchmark.CountingSort | playground/adaptive_sort_demo/sort_benchmark.py:77-90 | sorted permutation with exactly (max−min+1)+2n moves and no comparison |
| SortBenchmark.LongestNonDecreasingRun | playground/adaptive_sort_demo/sort_benchmark.py:93-103 | the result is the maximum length of a non-decreasing window |
| SortBenchmark.LongestRunIsUnique | playground/adaptive_sort_demo/sort_benchmark.py:93-103 | there is one such length |
| SortBenchmark.HybridSort | playground/adaptive_sort_demo/sort_benchmark.py:106-121 | for every list and every integer thresholds the same list as the baseline; what it charges told from the list: inserted up to 12 values, counted within a span of 128, inserted with a run of 10, else merged, those being the defaults |
| SortBenchmark.SortedCharge | playground/adaptive_sort_demo/sort_benchmark.py:110-119 | a sorted list that is inserted costs one comparison and two moves for each value but the first |
| SortBenchmark.PresortedCharge | playground/adaptive_sort_demo/sort_benchmark.py:110-113 | on the run-detected path at most n(n−1)/2 − L(L−1)/2 + n−1 comparisons |
| SortBenchmark.BaselineSort | playground/adaptive_sort_demo/sort_benchmark.py:124-125 | the baseline is merge sort, cost included |
| LeaseEffects.UnknownReleaseIsHarmless | src/cli/index.ts:1842-1883 | releasing a lease that is not held changes neither the holders nor the mode |
| LeaseEffects.RepeatedReleaseIsHarmless | src/cli/index.ts:1842-1883 | a second release of the same lease changes nothing |
| LeaseEffects.LedgerStepKeepsAccounts | src/cli/index.ts:1803-1883 | acquire, release and a user setting the option keep the file's holders equal to the outstanding leases; the option stays "always" while there are any iff no user sets it |
| LeaseEffects.WithoutConcat | src/cli/index.ts:1864 | a release takes out its own id, wherever it stands, and leaves the others in order |
| LeaseEffects.EpisodeKeepsOriginal | src/cli/index.ts:1815-1836 | while some lease is out the remembered original mode is the mode the first acquire was shown, "off" if that was empty |
| LeaseEffects.LastReleaseRestores | src/cli/index.ts:1858-1879 | the last release removes the file, and the mode is again the one the first acquire was shown, "off" if that was empty |
| LeaseHost.ReleaseUndoesAcquire | src/cli/index.ts:1815-1879 | release after acquire of a new id gives the host back; alone, no file and the mode found; in between the mode is "always" |
| LeaseHost.TmuxHost.AcquireInside | src/cli/index.ts:1815-1836 | the critical section of an acquire, with show-options and set-option each succeeding or failing: the first records the mode found and sets "always", a later one adds its id, and a refusal changes nothing |
| LeaseHost.TmuxHost.ReleaseInside | src/cli/index.ts:1858-1879 | the critical section of a release: the id goes, and with the last one the file, and the recorded mode is set; when set-option fails there, file and mode stay |
| LeaseHost.TmuxHost.WithExtendedKeys | src/cli/index.ts:1906-1920 | a callback run under a lease finds and leaves the host as it was if other leases are out, else without file and in the mode found; exactly what stays behind when tmux refuses |
| LeaseProtocol.GivesUpAfter | src/cli/index.ts:1721-1757 | a waiting process has found the lock taken fewer than 100 times and gives up at the hundredth |
| LeaseProtocol.LockKeptExactly | src/cli/index.ts:1721-1757 | each step keeps the lock with the live process inside iff it is not the removal of a lock whose maker lives |
| LeaseProtocol.LockHeldExactly | src/cli/index.ts:1721-1757 | over every run with crashes anywhere: the lock belongs to the process inside at every point iff no removal of a stale lock came so late that it took a new one |
| LeaseProtocol.MutualExclusion | src/cli/index.ts:1721-1757 | then at most one process is in the critical section |
| LeaseProtocol.EvictionLetsTwoIn | src/cli/index.ts:1734-1750 | after such a late removal its process can enter next to the one inside |
| LeaseProtocol.LateReapNeedsAnother | src/cli/index.ts:1734-1750 | a removal comes too late only if another process removed a stale lock since this one had found the lock stale |
| LeaseProtocol.ExclusionFails | src/cli/index.ts:1721-1757 | a concrete run with two processes inside |
| LeaseProtocol.StaleMeansDead | src/cli/index.ts:1734-1746 | a lock found stale was made by a dead process, and nobody is inside |
| LeaseProtocol.StepRefines | src/cli/index.ts:1710-1883 | every step of the system is a step of the lock-free ledger, or invisible to it |
| LeaseProtocol.RunRefines | src/cli/index.ts:1710-1883 | every run of lock, file and tmux steps refines a run of the ledger |
| LeaseProtocol.RunIsAccounted | src/cli/index.ts:1803-1883 | at every point of every run without a crash inside the ledger's accounts hold |
| LeaseProtocol.QuietStateIsAccounted | src/cli/index.ts:1803-1883 | whenever the lock is free the holders in the file are exactly the outstanding leases, and the option is "always" while there are any unless a user changed it |
| LeaseProtocol.EpisodeRestoresMode | src/cli/index.ts:1803-1883 | over every interleaving, when the last of overlapping leases is given back there is no file and the mode is the one the show-options call of the first acquire saw, whatever users set meanwhile |
| LeaseProtocol.EpisodeExists | src/cli/index.ts:1803-1883 | runs with such an episode exist, from any mode |
| AutoresearchTypes.DecideOutcome | src/autoresearch/runtime.ts:548-632 | a candidate is kept iff it is evaluated, passes, and the policy is pass_only or both scores are known and the new one is greater; ambiguous iff a score is missing |
| AutoresearchTypes.ValidateCandidate | src/autoresearch/runtime.ts:1081-1131 | accepted iff the base resolves to the last kept commit and, for an evaluated candidate, its commit resolves to a readable HEAD |
| AutoresearchSupervisor.Supervisor.constructor | src/autoresearch/runtime.ts:846-898 | a prepared run: running manifest, empty ledger, the worktree's earlier result rows |
| AutoresearchSupervisor.Supervisor.RecordIteration | src/autoresearch/runtime.ts:357-396 | nothing is written when HEAD cannot be read, else one row and one entry; the writes themselves succeed |
| AutoresearchSupervisor.Supervisor.FinalizeRun | src/autoresearch/runtime.ts:1058-1074 | manifest first, then mode state, then the lock; a mode error leaves the lock active |
| AutoresearchSupervisor.Supervisor.FailIteration | src/autoresearch/runtime.ts:1133-1170 | an error row and entry, then a failed run |
| AutoresearchSupervisor.Supervisor.RecordNonEvaluated | src/autoresearch/runtime.ts:1172-1221 | abort, interrupted and noop, with the dirty-worktree branch |
| AutoresearchSupervisor.Supervisor.ResetToLastKept | src/autoresearch/runtime.ts:1076-1079 | HEAD is the last kept commit unless the worktree is dirty or git refuses |
| AutoresearchSupervisor.Supervisor.EvaluateCandidate | src/autoresearch/runtime.ts:1250-1283 | keep or reset, then row, entry and manifest, in that order |
| AutoresearchSupervisor.Supervisor.ProcessCandidate | src/autoresearch/runtime.ts:1223-1284 | a whole turn, with every path on which git, the evaluator or the mode state throws |
| AutoresearchSupervisor.Supervisor.SeedBaseline | src/autoresearch/runtime.ts:784-817 | the baseline row and entry, and the score it leaves |
| AutoresearchSupervisor.Supervisor.CountTrailingNoops | src/autoresearch/runtime.ts:425-434 | the longest tail of noop iterations |
| AutoresearchOutcomes.UnreadableFails | src/autoresearch/runtime.ts:1133-1170 | a turn whose candidate file cannot be read: failed run with the error as stop reason, in memory and on disk, an error entry and row, HEAD left, the lock given up if the mode state can be written |
| AutoresearchOutcomes.RejectedFails | src/autoresearch/runtime.ts:1081-1131 | the same for a candidate whose base is not the last kept commit or that does not name HEAD, with the reason spelled out for each case |
| AutoresearchOutcomes.AbortStops | src/autoresearch/runtime.ts:1186-1195 | an accepted abort: stopped with "candidate abort", an abort entry; nothing written if HEAD cannot be read |
| AutoresearchOutcomes.InterruptedEnds | src/autoresearch/runtime.ts:1197-1212 | an interruption: failed and nothing logged in a dirty worktree, else logged with the status as it was |
| AutoresearchOutcomes.NoopGoesOn | src/autoresearch/runtime.ts:1214-1220 | a noop is logged with the status as it was |
| AutoresearchOutcomes.BetterIsKept | src/autoresearch/runtime.ts:1250-1283 | a passing candidate that beats the known score, or under pass_only any passing one: HEAD becomes the kept commit, its score the one to beat, and a keep is logged |
| AutoresearchOutcomes.WorseIsReset | src/autoresearch/runtime.ts:1253-1283 | any other evaluated candidate: HEAD is the commit kept before, and a discard, or ambiguous for scores that cannot be compared, is logged with its reason |
| AutoresearchOutcomes.DecidesUnevaluated | src/autoresearch/runtime.ts:548-590 | the decision on candidates without an evaluation, to the letter |
| AutoresearchOutcomes.GitRefuses | src/autoresearch/runtime.ts:1250-1275 | when git refuses on the way, neither manifest nor ledger nor results are written |
| AutoresearchOutcomes.SeedLogs | src/autoresearch/runtime.ts:784-817 | the baseline entry and row, and the score it leaves, to the letter |
| AutoresearchLaws.ProcessKeepsFiles | src/autoresearch/runtime.ts:357-396 | whatever candidate, git and evaluator do: the ledger only grows and stays a chain, the results table matches it, manifest agrees with it |
| AutoresearchLaws.SyncLostExactly | src/autoresearch/runtime.ts:1253-1258 | memory and disk disagree on what was kept exactly after a keep whose row could not be written |
| AutoresearchLaws.HeadIsLastKept | src/autoresearch/runtime.ts:1250-1284 | after every evaluated candidate that returns normally HEAD is the last kept commit, in memory and on disk, and it moved only on a keep |
| AutoresearchLaws.KeptIsTheCandidate | src/autoresearch/runtime.ts:1250-1275 | if the evaluator leaves HEAD alone the kept commit is the one the candidate named |
| AutoresearchLaws.ChainKeptExactly | src/autoresearch/runtime.ts:1223-1284 | all turns keep the ledger a chain iff the manifest starts from the ledger's last kept commit and asks for no lower score |
| AutoresearchLaws.LostKeepBreaksChain | src/autoresearch/runtime.ts:1253-1275 | the concrete run that breaks the chain: a keep that throws, then a turn without re-reading the manifest |
| AutoresearchLaws.NeighboursLink | src/autoresearch/runtime.ts:370-396 | each non-error entry starts from what the entry before it kept, and only a keep changes the kept commit |
| AutoresearchLaws.IterationsIncrease | src/autoresearch/runtime.ts:1228 | entry iterations strictly increase |
| AutoresearchLaws.KeptIsStable | src/autoresearch/runtime.ts:1253-1258 | between keeps the kept commit does not move |
| AutoresearchLaws.ScoreNeverDrops | src/autoresearch/runtime.ts:548-632 | under score_improvement the score to beat never drops |
| AutoresearchLaws.KeptScoresIncrease | src/autoresearch/runtime.ts:617-624 | each keep is strictly better than every keep before it |
| AutoresearchLaws.NullBaselineKeepsNothing | src/autoresearch/runtime.ts:609-616 | a baseline without a score means nothing is ever kept |
| AutoresearchLaws.RowsMatchAt | src/autoresearch/runtime.ts:357-380 | results rows and ledger entries match one for one behind the earlier rows |
| AutoresearchLaws.SeedStarts | src/autoresearch/runtime.ts:784-817 | seeding a prepared run starts such a chain |
| AutoresearchOutcomes.PrepareStarts | src/autoresearch/runtime.ts:819-945 | a run is prepared iff no run holds the lock and nothing else blocks it, and then runs and holds the lock |
| AutoresearchOutcomes.ResumeStarts | src/autoresearch/runtime.ts:958-1000 | a run is resumed iff no run holds the lock and its manifest on disk is running, and then goes on from that manifest |
| AutoresearchOutcomes.StopStops | src/autoresearch/runtime.ts:1286-1296 | a stop writes status and reason of a running run and gives up the lock if the mode state can be written |
| AutoresearchProject.HistoryKeepsFiles | src/autoresearch/runtime.ts:819-1314 | over every history of prepare, resume, turn, reload and stop over any number of runs in which each turn's supervisor is in step with its manifest on disk, every ledger is a chain |
| AutoresearchProject.TurnStatus | src/autoresearch/runtime.ts:1133-1284 | which turns end the run and which write the manifest, and what each does to the lock |
| AutoresearchProject.LockKeptExactly | src/autoresearch/runtime.ts:287-320 | the lock is active only while the run it names is running; each action keeps that except exactly when a finalised run's mode state cannot be updated |
| AutoresearchProject.HistoryKeepsLock | src/autoresearch/runtime.ts:287-320 | the same over every history |
| AutoresearchProject.HeldStaysExactly | src/autoresearch/runtime.ts:287-320 | one action on a held lock: it stays as it is iff the action does not end a run with its mode state updated, and preparing or resuming a run changes nothing |
| AutoresearchProject.LockExcludes | src/autoresearch/runtime.ts:287-320 | over histories: a held lock stays held throughout iff no run, the holder or another, ends in it with its mode state updated, and until then all attempts to start or resume runs could be left out |
| AutoresearchProject.ForeignEndDropsLock | src/autoresearch/runtime.ts:307-320 | a run that ends under another run's lock takes it away, the holder still running |
| AutoresearchProject.TerminalIsFinal | src/autoresearch/runtime.ts:958-963 | over histories of all runs: a terminal run stays terminal as long as its own turns, if any, are taken by supervisors that know it is over |
| AutoresearchProject.RevivedBy | src/autoresearch/runtime.ts:1223-1284 | a turn brings a terminal run back iff its supervisor still holds a running manifest and the turn writes it without ending the run |
| AutoresearchProject.RevivedExactly | src/autoresearch/runtime.ts:1223-1284 | no turn at all can bring a terminal run back iff the manifest its supervisor holds in memory is not running |
| AutoresearchProject.StaleSupervisorRevives | src/autoresearch/runtime.ts:1286-1296 | such a run: stopped by the operator, then written back as running |
| AgentsOverlay.StripMarkers | src/hooks/agents-overlay.ts:551-593 | the bounded loop against its specification, on every string |
| AgentsOverlay.StripOnce | src/hooks/agents-overlay.ts:556-588 | one round: which of the three ways it ends, and the text it leaves |
| AgentsOverlay.RoundLowersCount | src/hooks/agents-overlay.ts:551-593 | every round that removes something lowers the number of START markers: joining with a newline creates none |
| AgentsOverlay.RoundsWithinCount | src/hooks/agents-overlay.ts:551-593 | no more rounds are needed than there are START markers |
| AgentsOverlay.StripIsClean | src/hooks/agents-overlay.ts:551-593 | the result holds no START marker iff the rounds allowed suffice |
| AgentsOverlay.FewOverlaysAreStripped | src/hooks/agents-overlay.ts:551-593 | fifty overlays or fewer are always stripped |
| AgentsOverlay.ClosedRound | src/hooks/agents-overlay.ts:562-570 | a closed block is cut out and the texts around it are joined by a newline |
| AgentsOverlay.StripUndoesApply | src/hooks/agents-overlay.ts:505-593 | strip(apply(c,o)) = trimEnd(strip(c)) + newline for marker-free overlay bodies |
| AgentsOverlay.ApplyReplaces | src/hooks/agents-overlay.ts:505-529 | apply(apply(c,o1),o2) = apply(c,o2) |
| AgentsOverlay.UnclosedRound | src/hooks/agents-overlay.ts:571-588 | an unclosed START is cut up to the next known marker, or to the end |
| AgentsOverlay.UnclosedRoundKeepsNext | src/hooks/agents-overlay.ts:571-588 | the text from that marker on survives |
| AgentsOverlay.WorkerOverlaySurvives | src/hooks/agents-overlay.ts:571-588 | a worker overlay behind an unclosed START survives the strip iff it holds no END marker; else exactly the text behind that END is left |
| OverlayBody.CapBodyToMax | src/hooks/agents-overlay.ts:144-169 | never above the limit, section order kept, the fewest optional sections dropped from the end, truncation only when the required ones alone do not fit |
| OverlayBody.CappedHolds | src/hooks/agents-overlay.ts:144-169 | with room for all sections all are there, with room for the required ones each stands in the body whole |
| OverlayBody.KeptDropsLast | src/hooks/agents-overlay.ts:151-163 | what is dropped are the last optional sections and nothing else |
| OverlayBody.JoinConcat | src/hooks/agents-overlay.ts:140-142 | the section texts are joined with one empty line between any two |
| OverlayBody.KeptKeepsRequired | src/hooks/agents-overlay.ts:144-169 | dropping optional sections keeps every required one |
| OverlayBody.FewestDroppedIsUnique | src/hooks/agents-overlay.ts:151-163 | the number of dropped sections is determined |
| RuntimeOverlay.GenerateOverlay | src/hooks/agents-overlay.ts:478-498 | at most 3500 characters, the two delimiters to the letter, and between them the sections capped to 3409: all of them if they fit, the required ones whole if these fit |
| RuntimeOverlay.ApplyWrites | src/hooks/agents-overlay.ts:505-529 | over a file without overlays: the trimmed text, an empty line, the overlay, a newline |
| RuntimeOverlay.StripTakesOverlay | src/hooks/agents-overlay.ts:551-593 | one overlay between texts of the user goes with its delimiters, one newline is left |
| RuntimeOverlay.BrokenKeepsWorker | src/hooks/agents-overlay.ts:563-582 | an overlay without END costs the text up to the worker overlay, which stays to the letter |
| RuntimeOverlay.BrokenAtEnd | src/hooks/agents-overlay.ts:575-578 | with no marker behind it the rest of the text goes |
| RuntimeOverlay.FiftyRounds | src/hooks/agents-overlay.ts:551-593 | a strip leaves no START iff fifty rounds are enough |
| RuntimeOverlay.AgentsMd.ApplyOverlay | src/hooks/agents-overlay.ts:505-529 | AGENTS.md after an apply, from any earlier content or none |
| RuntimeOverlay.AgentsMd.StripOverlay | src/hooks/agents-overlay.ts:531-549 | AGENTS.md after a strip; a missing file stays missing |
| RuntimeOverlay.FiftyOverlays | src/hooks/agents-overlay.ts:505-593 | both laws at the real markers and the limit of fifty rounds |
| ProcessGraph.HasAncestorMatching | src/cli/cleanup.ts:189-206 | found iff some ancestor matches, on every table, cyclic ones included |
| ProcessGraph.AncestorIff | src/cli/cleanup.ts:189-206 | an ancestor is what stands at the end of a path of listed parents |
| ProcessGraph.FirstSessionIsNearest | src/cli/cleanup.ts:208-230 | nothing below the root on the parent chain is a session |
| ProcessGraph.ChainLinks | src/cli/cleanup.ts:220-227 | the chain searched goes from parent to parent over pids above 1, up to where the walk stops |
| ProcessGraph.ResolveProtectedRootPid | src/cli/cleanup.ts:208-230 | when the walk up from the current process ends: the nearest copilot session at or above it, else that process |
| ProcessGraph.NeverEndsIff | src/cli/cleanup.ts:220-227 | the walk never ends iff it is caught in processes that have their parents among them and none of which stops it |
| ProcessGraph.AcyclicEnds | src/cli/cleanup.ts:220-227 | without parent cycles every walk ends |
| ProcessGraph.CollectDescendants | src/cli/cleanup.ts:244-255 | the worklist reaches exactly the pids below the root |
| ProcessGraph.ChainDescends | src/cli/cleanup.ts:208-257 | the current process lies below each pid of its parent chain |
| ProcessGraph.BuildProtectedPidSet | src/cli/cleanup.ts:232-258 | exactly the tree below the protected root, the current pid included |
| ProcessGraph.FindCleanupCandidates | src/cli/cleanup.ts:260-275 | exactly the unprotected MCP servers, in strict pid order for distinct pids, marked orphaned iff ppid is at most 1 |
| ProcessGraph.FindLaunchSafeCleanupCandidates | src/cli/cleanup.ts:277-292 | the candidates that are orphans or have neither a session nor a launcher above them, in order |
| ProcessGraph.KeepLaunchSafeIs | src/cli/cleanup.ts:277-292 | membership in the launch-safe list, both directions |
| CleanupRun.WaitForPidsToExit | src/cli/cleanup.ts:305-330 | the result is the pids last seen alive; every other positive pid was last seen gone; a non-empty result means the time was used up; it throws iff a probe fails other than with ESRCH |
| CleanupRun.SignalAll | src/cli/cleanup.ts:387-396 | a signal to each pid in order; it throws iff the last signal sent was answered with an error other than ESRCH, and no earlier one was |
| CleanupRun.KillStill | src/cli/cleanup.ts:409-447 | SIGKILL to the remaining ones and the final counts |
| CleanupRun.Escalate | src/cli/cleanup.ts:387-447 | terminated plus failed is the number of candidates; SIGKILL goes only to pids already sent SIGTERM, 5 s or more later, on throwing paths too; it throws iff a signal or a probe fails other than with ESRCH |
| CleanupRun.CleanupOmcpMcpProcesses | src/cli/cleanup.ts:336-448 | help, dry run and empty selections signal nobody; otherwise only unprotected MCP servers are signalled, and it throws iff a signal or a probe fails other than with ESRCH |
| ConfigLines.JoinTrimEnd | src/config/generator.ts:186 | trimEnd of the text is the line function used for it |
| ConfigLines.SplitJoin | src/config/generator.ts:181 | splitting what was joined gives the lines back |
| ConfigWritten.FeaturesWritten | src/config/generator.ts:180-251 | [features], to the letter: a new section switches multi_agent, child_agents_md and codex_hooks on, in an existing one the last line of each does and collab is gone |
| ConfigWritten.EnvWritten | src/config/generator.ts:253-293 | [env], to the letter: USE_OMX_EXPLORE_CMD = "1" in a new section or behind one that lacks the key |
| ConfigWritten.AgentsWritten | src/config/generator.ts:295-340 | [agents], to the letter: max_threads = 6 and max_depth = 2 where they are not set |
| ConfigSections.UpsertEstablishes | src/config/generator.ts:180-340 | after setup the [features], [env] or [agents] section is there with its flags set |
| ConfigSections.UpsertTwice | src/config/generator.ts:180-340 | each of the three upserts is idempotent on every file |
| ConfigSections.FixedIff | src/config/generator.ts:208-250 | setup changes a section body iff a flag is missing, off, or deprecated |
| ConfigSections.StripUndoesUpsert | src/config/generator.ts:346-436 | strip after upsert is strip where the section existed, else the file without trailing blanks |
| ConfigEdits.FindSection | src/config/generator.ts:182-206 | the first section with that title and its end, or none |
| ConfigEdits.SpliceOut | src/config/generator.ts:208-214 | the downward loop removes exactly the lines with the deprecated key |
| ConfigEdits.UpsertFeatureFlags | src/config/generator.ts:180-251 | the line-array edit against its specification |
| ConfigEdits.UpsertEnvSettings | src/config/generator.ts:253-293 | the same for [env] |
| ConfigEdits.UpsertAgentsSettings | src/config/generator.ts:295-340 | the same for [agents] |
| ConfigEdits.StripSettings | src/config/generator.ts:346-436 | both uninstall edits: managed keys go, and the header too when only blanks are left |
| ConfigEdits.SetupTwice | src/config/generator.ts:180-340 | idempotence on whole texts |
| ConfigEdits.UninstallUndoesSetup | src/config/generator.ts:180-436 | strip(upsert(text)) on every text, exactly, final newline included |
| ConfigTui.OneTuiSection | src/config/generator.ts:505-574 | any number of [tui] sections become one in the place of the first: first line of each distinct key, one status line, other lines kept |
| ConfigTui.FirstKeysFrom | src/config/generator.ts:532-546 | each kept line is the trimmed first line of its key |
| ConfigTui.FirstKeysHolds | src/config/generator.ts:532-546 | every key but status_line is kept |
| ConfigTui.FirstKeysDistinct | src/config/generator.ts:532-546 | no key is kept twice |
| ConfigTui.FoldTwice | src/config/generator.ts:505-574 | the fold is idempotent up to blank lines |
| ConfigTuiEdits.FindTuiSections | src/config/generator.ts:509-524 | the first pass finds exactly the sections |
| ConfigTuiEdits.CollectKeyLines | src/config/generator.ts:530-547 | the second pass collects the first line of every key |
| ConfigTuiEdits.Rebuild | src/config/generator.ts:549-568 | the third pass puts the merged section in place of the first and drops the others |
| ConfigTuiEdits.UpsertTuiStatusLine | src/config/generator.ts:505-574 | the three passes against the fold |
| ConfigOneTui.MergeHasOneTui | src/config/generator.ts:948-961 | with includeTui the merged config has exactly one [tui] header, for every input |
| ConfigMarkers.RoundLowersLines | src/config/generator.ts:588-620 | each round lowers the number of lines holding the marker |
| ConfigMarkers.StripBlocksIsClean | src/config/generator.ts:580-664 | no line of the result holds the marker, and a file without it is unchanged |
| ConfigMarkers.StripBlocksKeeps | src/config/generator.ts:580-664 | what is left are lines of the file, trimmed at most |
| ConfigMarkers.StripRemovesWritten | src/config/generator.ts:580-664 | stripping removes exactly an appended block |
| ConfigMarkers.StripMarkerBlocks | src/config/generator.ts:580-664 | the loop ends on every file and computes that; it removes nothing iff there is no marker |
| ConfigRoot.DropRootKeysFrees | src/config/generator.ts:124-154 | no managed key is left before the first table, and a file without them is unchanged |
| ConfigRoot.StripRootLevelKeys | src/config/generator.ts:124-154 | filter, boundary and filter up to it, against the specification |
| ConfigRoot.DropNotifyKeeps | src/config/generator.ts:156-161 | no notify line is left and no line is new |
| ConfigRoot.NotifyHoldsText | src/config/generator.ts:156-161 | a notify line holds the text by which files are told apart below |
| ConfigRoot.StripOrphansKeeps | src/config/generator.ts:460-503 | no orphaned table header is left, no new line appears |
| ConfigRoot.StripOrphanedSections | src/config/generator.ts:460-503 | the nested loops against the specification |
| ConfigTimeouts.InsideTwiceIff | src/config/generator.ts:769-783 | a second timeout repair changes nothing iff every section that was given a timeout takes it |
| ConfigTimeouts.SingleTablesIff | src/config/generator.ts:707-783 | for a decision on the first table of a section: they take it iff each of them is one table |
| ConfigTimeouts.OrdinaryTables | src/config/generator.ts:707-783 | which holds if every bracket line is a whole header, or if no MCP table but OMCP's own is there |
| ConfigTimeouts.AddVisible | src/config/generator.ts:707-783 | blank lines do not influence the repair |
| ConfigWritten.TimeoutIs | src/config/generator.ts:760-783 | startup_timeout_sec = 15 stands behind the last visible line of the section, or behind its header |
| ConfigWritten.SectionRepaired | src/config/generator.ts:712-767 | a section with a whole MCP header, anywhere in the file, gets it iff the decision says so |
| ConfigTimeouts.GapAfterInside | src/config/generator.ts:760-766 | then what stands behind the user's lines is repaired alike in a second run |
| ConfigBuild.FindRepairTargets | src/config/generator.ts:707-767 | ascending positions whose splices give the repair |
| ConfigBuild.AddDefaultTimeouts | src/config/generator.ts:769-783 | splicing from the last position up gives the repair |
| ConfigBuild.BuildMergedConfig | src/config/generator.ts:922-976 | the step-by-step rewriting of `existing` against the pipeline function |
| ConfigRootLines.MergeBegins | src/config/generator.ts:84-102 | the result begins with the comment and the three root keys, to the letter |
| ConfigRootLines.OwnRootLines | src/config/generator.ts:84-102 | notify, model_reasoning_effort and developer_instructions are at the root of the result exactly once, with setup's values, whatever the file had |
| ConfigRootLines.ModelIsWritten | src/config/generator.ts:103-116 | with a model option its line is the only root model of the result; without one the file's model lines stay, and the default is written in front of them iff they give no model |
| ConfigRootLines.WindowIsWritten | src/config/generator.ts:103-118 | both window lines are added or none: none where the file gives either value; else iff the model gone by is the default, a model not in double quotes counting as the default |
| ConfigRootLines.RootValueIs | src/config/generator.ts:70-82 | the value read for a root key is that of its last root line |
| ConfigWritten.MergeEnds | src/config/generator.ts:834-905 | the result ends in the managed servers, the [tui] table if the file has none, and the end of the block, to the letter, with the markers in front |
| ConfigWritten.StatusText | src/config/generator.ts:55-56 | the status line to the letter |
| ConfigWritten.RuleText | src/config/generator.ts:853-856 | a rule is a hash, a space and sixty equals signs |
| ConfigWritten.OwnNotifyLine | src/config/generator.ts:156-161 | the notify line setup writes is one that is taken out when it has lost its place |
| ConfigWritten.NotifyTakesOnly | src/config/generator.ts:156-161 | taking out notify lines takes those and blank lines, and not one more, comments included |
| ConfigWritten.OrphansTakeOnly | src/config/generator.ts:460-503 | stripping orphaned tables takes those tables, OMCP's comments and blank lines, and not one more |
| ConfigWritten.OmcpCommentIff | src/config/generator.ts:482-486 | a comment of OMCP's: a hash, spaces, and omcp or oh-my-copilot in any case |
| ConfigWritten.OrphansGo | src/config/generator.ts:460-503 | no table named mcp_servers.omcp_… or after a legacy agent is left of the user's part |
| ConfigWritten.DoubleBrackets | src/config/generator.ts:206 | [[name]] is a table header like [name] |
| ConfigWritten.SharedAreWritten | src/config/generator.ts:785-825 | each line of a shared server whose table the file does not have is in the result |
| ConfigSettled.ExistingSettled | src/config/generator.ts:930-950 | after the steps on the user's part none of them has anything left to do |
| ConfigStable.UpsertKeepsFixed | src/config/generator.ts:945-947 | setting up one section keeps the others set up |
| ConfigStable.FoldKeepsFixed | src/config/generator.ts:948-951 | so does the [tui] fold |
| ConfigRepaired.InsideSettled | src/config/generator.ts:973-976 | so do the startup timeouts |
| ConfigIdempotence.FooterComesOff | src/config/generator.ts:930-937 | both blocks come off the repaired output and leave exactly the lines in front |
| ConfigSecondPass.ClearedAgain | src/config/generator.ts:939-944 | the second run clears the old top lines down to the model and window lines |
| ConfigSetup.TopAgain | src/config/generator.ts:84-122 | the second run writes the top lines of the first, less those still in the file |
| ConfigSetup.FooterAgain | src/config/generator.ts:785-825 | the second run finds the same shared servers missing |
| ConfigSetup.MergeTwice | src/config/generator.ts:922-976 | the non-blank lines of buildMergedConfig(buildMergedConfig(c)) are those of buildMergedConfig(c) iff every section of the user's part that is given a timeout takes it |
| ConfigSetup.MergeTwiceSingle | src/config/generator.ts:922-976 | for a decision on the first table of a section: iff no repaired section that another header closes holds a second bracket line |
| ConfigSetup.MergeTwiceOrdinary | src/config/generator.ts:922-976 | in particular for files in which every bracket line is a whole header, and for all files whose only MCP tables are OMCP's own |
| ConfigExamples.MergeTwiceFails | src/config/generator.ts:707-783 | the file with `[mcp_servers.foo] # note` and `[other] # note` on which the second run adds a second timeout |
| ConfigOutside.StripIsOutside | src/config/generator.ts:580-664 | the stripping loop leaves, blank lines and rules aside, exactly the lines outside the blocks, in order |
| ConfigOutside.UnmarkedIs | src/config/generator.ts:930-937 | so do both loops together, against one pass over the file |
| ConfigOutside.HeadedTables | src/config/generator.ts:588-620 | each line of the user has the same table with the blocks and without them when the text behind each block begins with a bracket line |
| ConfigUpserts.UpsertKeyIff | src/config/generator.ts:180-340 | an upsert leaves a key below a bracket line in its section alone iff nothing has to be removed, switched on or added there |
| ConfigUpserts.UpsertKeeps | src/config/generator.ts:180-340 | an upsert keeps every line it does not manage, under its table, where that holds for all its keys |
| ConfigFolds.FoldKeeps | src/config/generator.ts:505-574 | the [tui] fold keeps every line outside [tui] if no bracket line that is no whole header is in a [tui] section |
| ConfigFolds.FoldLoses | src/config/generator.ts:505-574 | and only then |
| ConfigFolds.AddIff | src/config/generator.ts:769-783 | the timeouts leave all lines below other tables alone iff each lands in an MCP table |
| ConfigPreserves.MergeKeepsLines | src/config/generator.ts:922-976 | every line of the user in the original file is in the result exactly once, in order, under its table, with only what setup adds at the root and the registry servers beside them, iff no step meets a bracket line that is no whole header where it works on one table |
| ConfigChoices.PlainIsUntangled | src/config/generator.ts:922-976 | that condition holds for every file in which each bracket line is a whole header |
| ConfigChoices.MergeKeepsDefaults | src/config/generator.ts:253-340 | what the first [env] or [agents] table sets of the keys with defaults stays as it is, and no second line for it is written |
| ConfigChoices.MergeKeepsModel | src/config/generator.ts:84-122 | a model, context window or compaction limit given at the root stays as it is, without a second line |
| ConfigExamples.FoldTakesTable | src/config/generator.ts:505-574 | the file with `[other] # note` below [tui] whose lines the merge does not keep |
| ConfigExamples.FeatureIsSwitched | src/config/generator.ts:200-251 | the file with a table below [features] whose own key the merge switches on |
| ConfigShipped.ShippedServersOk | src/config/generator.ts:834-905 | the five shipped servers meet what the theorems ask, wherever the package lies |
| ConfigShipped.ShippedServersAre | src/config/generator.ts:834-890 | the five servers in order, each run by node on its script with its timeout, to the letter |
| ConfigShipped.LauncherSensible | src/config/generator.ts:707-758 | a decision on launcher sections that says yes to some of them is as the theorems ask |
| ConfigShipped.LauncherLooks | src/config/generator.ts:733-751 | and decides on the first table of a section |
| ConfigShipped.SetupCanBeMet | src/config/generator.ts:834-976 | all demands of the setup theorems can be met together, with the shipped servers, that decision, and a legacy agent |
| McpRegistry.EntryIsWritten | src/config/mcp-registry.ts:290-309 | what is found of an entry under each key: type, command, args and env of a local server, url and headers of a remote one, tools and timeout, empty lists and records left out |
| McpRegistry.LocalOrRemote | src/config/mcp-registry.ts:290-309 | a local server never carries a url or headers, a remote one never a command line |
| McpRegistry.SameSorted | src/config/mcp-registry.ts:426-428 | the sorted-marker comparison decides equality of the two name collections |
| McpRegistry.SyncServers | src/config/mcp-registry.ts:339-458 | the planner's loops against the plan function, error results included |
| McpRegistry.RemoveServers | src/config/mcp-registry.ts:460-516 | the same for removal |
| McpSync.ProblemsAre | src/config/mcp-registry.ts:339-394 | which files are refused by sync and removal, with which problem, and that they are left alone |
| McpSync.SyncPartitions | src/config/mcp-registry.ts:403-424 | distinct desired names are split into added, updated, unchanged and skipped, each decided by file and marker |
| McpSync.SyncPreserves | src/config/mcp-registry.ts:395-401 | servers neither marked nor desired are untouched; marked ones no longer desired go |
| McpSync.SyncKeepsRest | src/config/mcp-registry.ts:436-446 | other top-level fields are untouched |
| McpSync.FirstSyncAdopts | src/config/mcp-registry.ts:426-446 | after one sync the marker holds every desired name, skipped ones too |
| McpSync.AdoptedSync | src/config/mcp-registry.ts:403-434 | in an adopted file a sync brings every entry up to date and writes iff one was not |
| McpSync.TwoSyncsSettle | src/config/mcp-registry.ts:339-458 | a third sync has nothing to write |
| McpSync.OneSyncSettlesIff | src/config/mcp-registry.ts:403-413 | one sync is enough iff every skipped entry was already as desired |
| McpSync.EmptySyncSettles | src/config/mcp-registry.ts:339-458 | wanting nothing settles after one sync |
| McpSync.RemovalIs | src/config/mcp-registry.ts:460-516 | removal takes out the marked servers and the marker, and nothing else |
| McpSync.RemovalUndoesSync | src/config/mcp-registry.ts:339-516 | without marker and collisions, removal after sync restores the file up to an empty mcpServers |
| CodexHooks.StripAllIs | src/config/codex-hooks.ts:152-185 | stripping leaves no managed hook, keeps the unmanaged ones in order, and is idempotent |
| CodexHooks.MergeHooks | src/config/codex-hooks.ts:191-230 | the loop over the six events against the merge function |
| CodexHooks.MergeIs | src/config/codex-hooks.ts:191-230 | exactly one managed hook in each of the six events, unmanaged hooks in order, other events untouched |
| CodexHooks.MergeTwice | src/config/codex-hooks.ts:191-230 | merging is idempotent |
| CodexHooks.RemoveHooks | src/config/codex-hooks.ts:232-281 | the removal loop: its count and the file it leaves |
| CodexHooks.RemovalUndoesMerge | src/config/codex-hooks.ts:232-281 | removal after a merge reports exactly six and restores the file up to empty arrays and an empty hooks object; a hooks field that is not an object is lost |
| CodexHooks.EventsRestoredIff | src/config/codex-hooks.ts:203-206 | the events come back iff the six hold nothing but arrays |
| CodexHooks.MissingIs | src/config/codex-hooks.ts:138-150 | an event is reported missing iff it has no managed hook |
| CodexHooksShipped.SixEvents | src/config/codex-hooks.ts:3-14 | the six managed events by name |
| CodexHooksShipped.ShippedOk | src/config/codex-hooks.ts:61-103 | the six entries setup writes are recognised as managed, wherever the package lies |
| CodexHooksShipped.ShippedMerge | src/config/codex-hooks.ts:191-230 | after a setup each event ends in its own entry and holds no other managed hook |
| Slugs.SlugSays | src/autoresearch/contracts.ts:67-74 | a slug is the runs of letters and digits of the name in lower case with single dashes between, cut to 48 characters, or "mission" if there are none |
| Slugs.SlugShape | src/autoresearch/contracts.ts:67-74 | slugs use [a-z0-9-], have length 1 to 48, start with a word character and have no double dash |
| Slugs.SlugTwiceIff | src/autoresearch/contracts.ts:67-74 | slugifying is a fixed point iff the cut left no dash at the end |
| Slugs.SlugSettles | src/autoresearch/contracts.ts:67-74 | slugifying twice is always a fixed point |
| Slugs.SlugMayEndInDash | src/autoresearch/contracts.ts:72 | an input whose slug ends in a dash |
| SandboxFile.ParseFrontmatter | src/autoresearch/contracts.ts:93-132 | the line loop against the fold, with its errors |
| SandboxFile.SectionIsThere | src/autoresearch/contracts.ts:117-120 | the invalid-section error cannot happen |
| SandboxFile.ParsesPrinted | src/autoresearch/contracts.ts:93-184 | what the parser makes of any printed command without newlines, the error for a carriage return, U+2028 or U+2029 included |
| SandboxFile.SandboxRoundTripIff | src/cli/autoresearch-intake.ts:122-125 | parse(print) gives command and policy back iff the command has no tab, U+2028 or U+2029 and no outer quote |
| SandboxFile.PrintsOneLine | src/cli/autoresearch-intake.ts:122-125 | a command with line breaks prints as its one-line form |
| MissionTexts.SandboxText | src/cli/autoresearch-intake.ts:122-125 | sandbox.md as printed, line by line |
| MissionTexts.OneLineIs | src/cli/autoresearch-intake.ts:123 | line breaks of the command become spaces one by one |
| MissionTexts.UntabIs | src/autoresearch/contracts.ts:98 | a tab becomes two spaces |
| MissionTexts.EvaluatorAnswers | src/autoresearch/contracts.ts:136-184 | every answer to an evaluator section, errors in their order, with the key and policy names to the letter |
| MissionTexts.FileAnswers | src/autoresearch/contracts.ts:82-91 | without dashes at both ends there is no frontmatter |
| MissionTexts.NoEvaluator | src/autoresearch/contracts.ts:148-156 | an evaluator that is missing or no section is refused |
| DraftArtifact.SectionsReadBack | src/cli/autoresearch-intake.ts:146-186 | all four sections of a printed draft are read back, whatever follows them |
| DraftArtifact.DraftRoundTripIff | src/cli/autoresearch-intake.ts:276-313 | the draft round-trips iff its slug is a fixed point of slugifying |
| MissionTexts.DraftText | src/cli/autoresearch-intake.ts:146-186 | the draft as printed, line by line |
| MissionTexts.JoinBreaksIs | src/cli/autoresearch-intake.ts:278 | a run of line breaks in the evaluator becomes one space |
| MissionTexts.DraftAnswers | src/cli/autoresearch-intake.ts:276-301 | a draft without mission or evaluator is refused; score_improvement and the mission stand in for a missing policy and slug |

## Left out

- Configuration loading, scoring and case building of the sorting benchmark (sort_benchmark.py:32-33, 128-170): floating point and file input.
- sanitizeTmuxLeaseKey, tmuxExtendedKeysLeaseRoot and the retry timing of the lock (src/cli/index.ts:1639-1676): one lock and one lease file are modelled.
- StaleMeansDead: the age of the lock, its pid file and the liveness of that pid are read in one step, and a pid is never used again.
- AcquireInside: a tmux call that succeeds although it reports an error is not modelled; ReleaseInside likewise.
- RunIsAccounted: users set the option only while no process is inside a critical section.
- Crashes between the writes of one critical section, as far as the lease accounts are concerned.
- Notes, timestamps, evaluator output text and the instructions file of the autoresearch runtime; infinite scores, which JSON turns into null.
- The raw evaluator entries that runAutoresearchEvaluator can append to a ledger (runtime.ts:519-536): no turn asks for them.
- RecordIteration: file writes succeed, so a write that fails between the results row and the ledger entry is not modelled.
- ProcessCandidate: the same, for every file a turn writes.
- Supervisor.constructor: starts behind the lock check, the HEAD read and the mode start of preparation, whose results are its parameters; `AutoresearchProject.Step` models the lock check.
- How generateOverlay collects its sections (agents-overlay.ts:363-477), and the file lock around apply and strip.
- GenerateOverlay: section texts are parameters, so that the body is free of markers is a premise of the laws, not a result.
- Parsing of ps and Windows process lists, the output lines of cleanup, and the removal of stale temporary directories.
- ResolveProtectedRootPid: what the code does when the walk never ends; it does not return.
- stripOrphanedManagedNotify (generator.ts:156-167): matches that run across lines are the parameter `dropNotify`; on files whose only such text is in whole notify lines it is `DropNotify`.
- BuildMergedConfig: takes that step as a parameter, and works on lines where the code works on text.
- MergeKeepsLines: comments, blank lines and the lines of [tui] sections are not counted as the user's (for the latter see OneTuiSection), nor is `startup_timeout_sec = 15` in an MCP table.
- TOML.parse of a server section: a parameter. `LauncherNeeds` is one such decision, on the lines of the first table with `command` npx or uvx.
- getRootModelName, hasLegacyOmcpTeamRunTable, repairConfigIfNeeded and mergeConfig (generator.ts:57-68, 978-1033): file input and output around the same functions.
- "\r\n" line ends, a lone "\r", U+2028 and U+2029 as line breaks of the config expressions, multi-line TOML values, and characters outside ASCII whose lower case is ASCII.
- Server names that are properties of every JavaScript object, and keys that repeat inside one JSON object.
- planClaudeCodeMcpSettingsSync and the loading and normalising of the shared registry (mcp-registry.ts:39-268).
- Warning texts of the planners, kept as the list of skipped names and a kind of problem.
- The structured clone and the key order of hooks.json; the visiting order of events is a parameter of RemoveHooks.
- The evaluator result parser, the loading of mission directories and the git calls of contracts.ts.
- DraftRoundTripIff: launch readiness and seed inputs are not read back, and a heading whose hashes stand alone on the line above is not recognised.
