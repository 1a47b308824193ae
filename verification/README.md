# wardby: budgets, deferred reviews, the native engine, and its parsers

This project models the parts of wardby in which many small decisions have to add
up to one promise, and proves the promise for every input, every run and every
interleaving. `dafny verify dfyconfig.toml` checks all of it.

What is modelled, file by file:

- **The budget ledger.** `budget_groups.dfy` says what a group's spend is, from
  the table of runs: recorded cost, holds of live runs, a delegated tree held
  once at its root. `run_trees.dfy`, `group_spend.dfy` and `effective_budget.dfy`
  hold the program's loops and walks, each proved equal to that definition.
  `budget_laws.dfy` says how a group's committed total moves when a run spends or
  a grant is raised, and `deep_trees.dfy` has a tree on which two promises fail.
  `first_come.dfy` is about native runs that ask for their budgets, `sub_agents.dfy`
  about runs inside a tree and the room of a top-up. `ledger.dfy` is
  the state machine of a group's top-level runs and the safety theorem,
  `closed_windows.dfy` what becomes of a day, week or month after its end, and
  `closed_days.dfy` the runs that take a day past its cap. `budget_topup.dfy` is the
  grant of one coding run over its life.
- **Deferred reviews.** `deferred_reviews.dfy` interleaves the push, CI-completed,
  lead-finished and sweep handlers one database or host access at a time;
  `review_starts.dfy` tells from what their looks said which review starts, and
  what becomes of the others.
- **The native engine.** `native_engine.dfy` (one streamed turn),
  `tool_calls.dfy` (the schedule of a turn's tool calls), `engine_run.dfy` (the
  turn loop and the wind-down turn) and `engine_laws.dfy`.
- **Parsers and text.** `json_scanner.dfy`, `json_laws.dfy` and
  `json_soundness.dfy` (the scanner that refuses duplicate keys), `truncate.dfy`
  (truncation to a limit), `inline_code.dfy` (inline code spans) and `glob.dfy`
  (globs compiled to regular expressions).
- **Repository context and threads.** `utf8.dfy` (strict decoding),
  `claude_context.dfy`, `context_search.dfy` and `context_collector.dfy` (which of a
  repository's own instructions are collected, and what they may add up to) and
  `coding_threads.dfy` (continuations of coding runs).
- `sums.dfy` and `texts.dfy` hold what several of these share.

## Conventions and assumptions

Money is an integer number of micro-dollars in the ledger and a real in the
engine. A run's id is its index in the table, which stands for the order of
`(startedAt, id)`. One transaction is one atomic step: the program takes a table
lock and runs serializable (`src/core/dispatch.ts:286-298`).

The ledger's environment, in `Ledger.Next`: a run spends at most its grant and
only while its hold is live; agent budgets and caps stay fixed; rows appear in
start order; the clock does not run backwards; the coding queue's timeout is a
constant. A run may load, or beat again, after its hold has lapsed; the safety
theorems are about runs of the machine in which such a revival fits
(`Ledger.IsFittingRun`), and say exactly when it does. The machine is about
top-level runs; delegated trees are covered by the laws in `budget_laws.dfy`, for
every table.

The deferred-review machine: CI that is final stays final, rows of runs are not
deleted, and who is authorized is fixed. A handler that calls another is modelled
as spawning it, which allows every order the program has. A `Fail` step is a
handler that throws half way. The at-most-once theorem is about all runs; a
failure can lose a wake-up, and `DeferredReviews.SweepRestores` says what the
sweep, or a notification delivered again, brings back.

The engine's host (token counts, prices, streams, tool outcomes, how long a call
takes) is an arbitrary value. A durable step's name is a datatype value; its
printed form is injective.

Where an outside look can change between two looks (the file system in the
context collector), every look has a time.

## What the code does, where that differs from what is written about it

- `src/core/budget-groups.ts:170` says a month contains its weeks. The fetch
  window starts at the month (lines 205-214), so early in a month the week's spend
  misses the days before it: `Ledger.WeekIsExactIff` gives the exact condition,
  and `Ledger.WeekWithinMonthIsHard` what holds all the same.
- A cap is checked against the current period's runs only, so a closed day, week or
  month can end above it: a run that loads (`ClosedDays.LateLoadExceedsCap`) or is
  topped up (`ClosedDays.LateTopUpExceedsCap`) after midnight gets money from the
  new day and spends it on the old one. `ClosedWindows.EveryWindowKeepsCap` says
  when a window keeps its cap for ever, `ClosedWindows.LateMoneySafeIff` exactly
  which late money is harmless.
- `src/core/budget-groups.ts:120-122` counts on a run being reclaimed before its hold
  lapses. Nothing enforces it: a recovered run beats again whenever it is
  (`src/providers/executor/dbos.ts:602-606`), and may spend money that others were
  let in on meanwhile: `ClosedDays.RevivalExceedsCap`. `Ledger.RevivalKeepsIff` says
  exactly when the ledger's invariant survives it.
- `src/core/budget-groups.ts:678-687` says a top-up raises a group's committed
  total by at most the grant. That holds for every grant exactly when the run is not
  held twice, more than 32 edges below a root that holds its tree:
  `BudgetLaws.RaiseCommitsAtMostIff`. `DeepTrees.DeepRaiseExists` is such a tree, with
  its last run dispatched within its effective budget.
- A held root's own spending, within its reservation, may raise the committed
  total: `BudgetLaws.RootSpendRaisesIff` says when, and `DeepTrees.RootSpendMayRaise`
  is a table on which it does.
- `src/coding/protocol.ts:66-70` says truncation keeps to the limit. With no room
  for the marker it answers the trimmed marker, which can be longer:
  `Truncation.FitsIff` and `Truncation.NoRoomIsOver`.
- `src/core/engine-native.ts:109-113` says a run that stops at its turn limit
  answers with its last turn's text. The code answers with none, because only a
  turn without tool calls sets that text, and such a turn ends the run:
  `EngineLaws.TurnLimitLosesText`, with a run in `EngineStories.TextIsLost`. The turns
  it reports are one more than the requests it made exactly when the gate stopped it:
  `EngineLaws.ReportsAllUsage`.
- A failed turn is told by its error message (`src/core/engine-native.ts:156`), so
  a stream that throws with an empty one passes for a turn that cost nothing:
  `EngineLaws.FailsIff`. `EngineStories.EmptyMessagePasses` is a run that succeeds so.
- `src/core/glob.ts:3-8` says `**` matches any characters. The `.` it is
  compiled to matches no line terminator: `GlobCompiler.EveryGlobKeepsMeaningIff`.
- `src/core/dispatch.ts:512-518` says a continuation inherits the newest merge
  order. A dispatch that reads the repository's service declaration resolves its
  branch before its transaction, and can store an older one:
  `ThreadLaws.ReadAheadKeepsOrderIff` says exactly when a thread keeps its order, and
  `ThreadLaws.StaleReadLosesOrder` is a run in which it does not.
- Normalizing a repository's name drops one `.git`, and a stored name is
  normalized again when a run is continued, so a thread can carry two names:
  `ThreadLaws.OneNameIff` and, with such a run, `ThreadLaws.OneThreadTwoNames`.
- `src/coding/claude-context.ts:272-278` reads as if every import were collected. A
  path that was first named by a home-relative import ("~a.md") counts as seen, so
  the repository's own file of that name is left out: `HiddenImports.HomeImportHides`.
  `ContextSearch.FoundIff` says exactly which files are collected, and
  `ContextSearch.FoundIffWithinReach` that they are all within reach where no import
  that leads outside has an allowed name.
- The JSON scanner's whitespace is the regular expression `\s`, wider than JSON's
  own. What it accepts is stated with that whitespace; the program then hands the
  text to `JSON.parse`, which refuses the difference.

## Model

| member | source | states |
|---|---|---|
| RunTrees.RootOfIff | src/core/budget-groups.ts:324-361 | a run resolves to a row exactly when its parent chain reaches that parentless row within 32 edges |
| RunTrees.RootOfIsRoot | src/core/budget-groups.ts:324-361 | what a run resolves to is a root of a tree the run is in |
| RunTrees.TreesDisjoint | src/core/budget-groups.ts:370-399 | a run is in the tree of at most one root |
| RunTrees.FetchAncestors | src/core/budget-groups.ts:333-347 | after the batched fetches every ancestor within 32 edges of an asked run is known, and what is known is the table's |
| RunTrees.WalkUp | src/core/budget-groups.ts:349-359 | walking one run up the fetched rows gives its root, or none |
| RunTrees.ResolveRootRunIds | src/core/budget-groups.ts:329-361 | the map holds exactly the asked runs whose root is in reach, each at its root; cycles and missing rows are left out |
| RunTrees.CollectTreeRunIds | src/core/budget-groups.ts:389-399 | from a parentless run the walk ends and lists every descendant exactly once, whatever cycles the rest of the table has |
| RunTrees.FindRootRun | src/core/budget-groups.ts:371-386 | the root at any depth, or none exactly when a row on the way is missing |
| GroupSpendLoops.HeldRoots | src/core/budget-groups.ts:241-248 | the set is exactly the roots that hold and have a counted sub-run |
| GroupSpendLoops.TreeHolds | src/core/budget-groups.ts:255-279 | every held root is mapped to the tree's hold |
| GroupSpendLoops.Accounts | src/core/budget-groups.ts:281-294 | every row's cost, own hold, and the start of the root it spends inside |
| GroupSpendLoops.PeriodTotals | src/core/budget-groups.ts:296-318 | one period's totals are those of the definition |
| GroupSpendLoops.ComputeGroupSpend | src/core/budget-groups.ts:185-319 | the loops compute the group's spend as defined, for every table, group and option |
| EffectiveBudgets.LeastValueIsMinimum | src/core/budget-groups.ts:650-654 | the effective budget is the minimum of the own limit and all candidates, and one of them |
| EffectiveBudgets.TightenedIsExplained | src/core/budget-groups.ts:650-664 | what limits a budget is the first constraint as small as it, named exactly when it is below the limit; something is exhausted exactly when less than a micro-dollar is left |
| EffectiveBudgets.ReasonsAreBelow | src/core/budget-groups.ts:652-653 | a constraint is listed exactly when it leaves less than the agent's own limit |
| EffectiveBudgets.EffectiveRange | src/core/budget-groups.ts:582-665 | a top-level run's effective budget lies between zero and its agent's own |
| EffectiveBudgets.EffectiveFits | src/core/budget-groups.ts:582-665 | a positive effective budget fits under every cap beside recorded spend and the holds it must respect |
| EffectiveBudgets.LeastCandidateIsMinimum | src/core/budget-groups.ts:728 | the limiting constraint of a top-up is the first one with the least room: every earlier one has more |
| BudgetQueries.SiblingHolds | src/core/budget-groups.ts:457-473 | the sum of the unspent holds of the tree's live runs off the asking run's ancestor chain, earlier ones only when a run asks for itself |
| BudgetQueries.RunTreeSpend | src/core/budget-groups.ts:481-532 | the tree's ceiling, cost and remainder; the ceiling leaves the tree's own runs out of the group |
| BudgetQueries.EffectiveInTree | src/core/budget-groups.ts:582-608 | a sub-agent's budget is tightened by its tree and its group, or by the root's view of a shared group |
| BudgetQueries.EffectiveAlone | src/core/budget-groups.ts:589-591 | a top-level run's budget is the one defined |
| SubAgents.TopIsTightest | src/core/budget-groups.ts:589-591 | a top-level budget is the own one, or exactly what the tightest period leaves, for a load and for a dispatch |
| SubAgents.SubAgentIsTightest | src/core/budget-groups.ts:590-608 | a sub-agent's budget is the own one, or exactly what its tree or the tightest period of its group leaves: in the root's group beside the holds outside the tree before the root, elsewhere beside those of any member |
| SubAgents.FitsElsewhere | src/core/budget-groups.ts:590-597 | in a group that is not the root's, a sub-agent's positive budget fits under every cap beside all cost and the live holds there |
| SubAgents.FitsBesideTree | src/core/budget-groups.ts:590-597 | in the root's group it fits beside all cost and the holds outside the tree ordered before the root |
| SubAgents.OutsideHolds | src/core/budget-groups.ts:590-597 | that view counts everyone's cost, and holds only of live runs outside the tree before the root |
| SubAgents.CeilingIsTightest | src/core/budget-groups.ts:481-532 | a tree's ceiling is its root agent's budget, raised for a top-up, or what the root's group leaves beside the rest |
| SubAgents.ChildrenFitTogether | src/core/budget-groups.ts:457-532 | any number of native children asking in any order are granted together at most what the tree's ceiling leaves |
| BudgetQueries.CodingTopUpRoom | src/core/budget-groups.ts:688-736 | the room is the least of what the run's group, the root's group and the raised tree ceiling have left |
| SubAgents.RoomIsTightest | src/core/budget-groups.ts:688-736 | the room is exactly the least of what the caps of the run's group and its root's and its tree's raised ceiling leave; unlimited only where none is set |
| BudgetLaws.PeriodsBeginAtMidnight | src/core/budget-groups.ts:48-65 | a day begins at the latest UTC midnight, a week at the latest Monday's |
| BudgetLaws.HoldLastsIff | src/core/budget-groups.ts:119-158 | a hold lasts a minute after the last sign of life, a coding run's at least a minute past its queue and working time |
| BudgetLaws.TreeChargedOnce | src/core/budget-groups.ts:173-184 | a held tree's share of a window with its root is its counted cost plus one hold: at least that cost plus all unspent holds below, at most the larger of the root's reservation and the whole cost plus those holds |
| BudgetLaws.NeverUnderHeld | src/core/budget-groups.ts:173-184 | in every window a group holds at least what its live runs there have left, each for itself or inside its root's hold |
| BudgetLaws.NeverOverHeld | src/core/budget-groups.ts:173-184 | and, where no run is held twice, at most what all live runs have left, each counted once |
| BudgetLaws.CommittedMoves | src/core/budget-groups.ts:281-308 | a change to one run moves a group's committed total only through that run and its tree's held root |
| BudgetLaws.ChildSpendNeverRaises | src/core/budget-groups.ts:173-184 | a sub-run that spends within its own hold never raises any group's committed total in any window |
| BudgetLaws.RootSpendRaisesIff | src/core/budget-groups.ts:249-279 | a held root's own spending leaves the total where it was exactly when its reservation still covers the spending and the holds below it |
| BudgetLaws.RaiseCommitsAtMost | src/core/budget-groups.ts:678-687 | raising a grant by g commits at least nothing and at most g more, unless the run is held twice |
| BudgetLaws.RaiseElsewhere | src/core/budget-groups.ts:678-687 | a group that neither counts the run nor holds its tree reports the same spend |
| BudgetLaws.RaiseCommitsAtMostIff | src/core/budget-groups.ts:678-687 | every raise commits at most what it adds exactly when the run is not both holding for itself and, below 32 edges, inside a held root's tree |
| BudgetLaws.TwiceHeldRaise | src/core/budget-groups.ts:321-361 | what a raise of such a run commits: the raise, and once more what the root's hold grows by |
| DeepTrees.DeepRaiseExists | src/core/budget-groups.ts:321-361 | a chain of 34 agents with positive budgets in one capped group, its coding run dispatched within its effective budget, on which a micro-dollar commits two |
| DeepTrees.DispatchGrants | src/core/dispatch.ts:333-361 | dispatch offers that run its agent's whole budget |
| DeepTrees.RootSpendMayRaise | src/core/budget-groups.ts:249-279 | on that chain the root's spending within its reservation raises the group's total |
| TopUpLaws.CapHasRoom | src/core/budget-groups.ts:712-731 | a grant within the room fits under every cap of both groups with all live holds counted |
| TopUpLaws.RaiseKeepsTreeCap | src/core/budget-groups.ts:403-413 | a raise inside a tree does not move the tree's ceiling |
| TopUpLaws.TreeKeepsCeiling | src/core/budget-groups.ts:475-532 | after the grant the tree's cost and sibling holds are within its raised ceiling |
| TopUpLaws.TopUpWithinRoomKeepsCaps | src/core/budget-groups.ts:678-736 | a grant of at most the room leaves the run's group, the root's group and the tree's raised ceiling within their limits, with no assumption about later runs |
| TopUpLaws.TopUpLeavesOtherGroups | src/core/budget-groups.ts:678-736 | every other group's report is unchanged |
| LedgerColumns.RaiseKeeps | src/core/budget-topup.ts:141-180 | the ledger's invariant survives new money that the room counted |
| LedgerColumns.GrowthKeepsIff | src/core/budget-groups.ts:227-232 | a hold and a grant that grow keep the ledger's invariant exactly when the run fits beside the holds before it and whoever may still spend after it fits beside the growth |
| LedgerColumns.LoadKeeps | src/core/budget-groups.ts:582-591 | the ledger's invariant survives a load that asks first come, first served |
| LedgerColumns.AppendKeeps | src/core/dispatch.ts:333-361 | the ledger's invariant survives a new row with its hold |
| Ledger.StepKeeps | src/core/budget-groups.ts:582-665 | every step keeps the invariant: whoever may still spend fits under each cap beside the holds before it |
| Ledger.ReservesAllItCan | src/core/dispatch.ts:333-361 | a coding dispatch reserves what was requested or, when that is more, exactly what the own budget and the tightest period leave; nothing only below a micro-dollar |
| Ledger.EveryStateKeeps | src/core/budget-groups.ts:582-665 | every reachable state satisfies the invariant |
| Ledger.CapsAreHard | src/core/budget-groups.ts:166-319 | in every state of every interleaving, what the current day's, month's, or week's runs have cost is at most the cap (the week while it lies in the month) |
| Ledger.WeekWithinMonthIsHard | src/core/budget-groups.ts:205-214 | the part of a week inside the current month never passes the weekly cap |
| Ledger.WeekIsExactIff | src/core/budget-groups.ts:166-214 | the reported week is the real week on every table exactly when the month began no later than the week |
| Ledger.RevivalKeepsIff | src/providers/executor/dbos.ts:600-607 | when a run with a lapsed hold beats again, a period stays in budget exactly when the run fits beside the holds before it, and whoever may still spend after it fits beside its hold |
| ClosedWindows.EveryWindowKeepsCap | src/core/budget-groups.ts:296-302 | in every run of the machine every day, month and part of a week inside a month keeps its cap for ever, as long as money that reaches its runs after its end fits beside what they may still spend |
| ClosedWindows.EveryDayKeepsCap | src/core/budget-groups.ts:296-302 | a day none of whose runs loads, is topped up or comes back after its end keeps its cap for ever |
| ClosedWindows.SafeIff | src/core/budget-groups.ts:296-302 | no way to go on without new money takes a closed window past its cap exactly when its cost and its live runs' unspent grants are within it |
| ClosedWindows.LateMoneySafeIff | src/core/budget-topup.ts:141-180 | after one late load, top-up or revival the window is safe exactly when the new money fits beside its cost and unspent grants |
| ClosedDays.LateLoadExceedsCap | src/core/budget-groups.ts:582-591 | a run of the machine in which a load after midnight takes the closed day to twice its cap |
| ClosedDays.LateTopUpExceedsCap | src/core/budget-groups.ts:688-736 | one in which a top-up after midnight does, with no late load |
| ClosedDays.RevivalExceedsCap | src/core/reconciler.ts:231-245 | one in which a recovered run does, within the day |
| FirstCome.GrantsFitTogether | src/core/budget-groups.ts:227-232 | any number of native runs asking in any order against the same recorded spend are granted together at most what the period has left |
| FirstCome.GrantIsExact | src/core/budget-groups.ts:582-665 | each gets its own budget, or exactly what the tightest period leaves after recorded spend and the holds before it |
| BudgetTopUp.CodingRunRows.GrantOnce | src/core/budget-topup.ts:141-180 | under the lock: grants one step to reservation and session together, or records one refusal, or does nothing |
| BudgetTopUp.CodingRunRows.TopUp | src/core/budget-topup.ts:189-206 | looks without the lock first, at rows that may have changed when the lock is had; a conflict changes nothing and asks to be asked again soon |
| BudgetTopUp.GrantRaises | src/core/budget-topup.ts:148-179 | a grant is at least a micro-dollar, at most a step, the room and the limit, and goes only to a run close to its grant |
| BudgetTopUp.LeftAloneIff | src/core/budget-topup.ts:122-139 | a run is left alone exactly while it has room for more than two requests like its largest and for a fifth of its base |
| BudgetTopUp.GrantIsWholeStep | src/core/budget-topup.ts:148-175 | a grant covers a request like the largest and a tenth of the base, unless the limit or the room stops it, and then takes all they leave |
| BudgetTopUp.RefusedIff | src/core/budget-topup.ts:148-172 | a close run with a step to take is refused exactly when less than a micro-dollar of room is left |
| BudgetTopUp.AsksSoonIff | src/core/budget-topup.ts:131-180 | an open run is told to ask again soon exactly when it is within twice its headroom and was not refused |
| BudgetTopUp.DispatchedRunIsGranted | src/core/budget-topup.ts:69-180 | a dispatched run that opens its session and comes close to its grant is granted when there is room |
| BudgetTopUp.LifecycleHolds | src/core/budget-topup.ts:69-206 | over any polls: grant between base and limit, session budget equal to it, at most one refusal, a micro-dollar per grant |
| BudgetTopUp.GrantsAreBounded | src/core/budget-topup.ts:141-180 | the number of grants is at most the overrun in micro-dollars |
| BudgetTopUp.GrantsOnlyIncrease | src/core/budget-topup.ts:173-179 | between any two moments the grant does not shrink |
| BudgetTopUp.RefusedForGood | src/core/budget-topup.ts:89-93 | after a refusal the grant never moves and no second refusal is recorded |
| DeferredReviews.HandingOverForgetsNone | src/core/host-events.ts:1028-1137 | a step that hands its due rows to its successors forgets none |
| DeferredReviews.InsertHandsOver | src/core/host-events.ts:971-1009 | every inserted row is covered by the inserter's own re-check |
| DeferredReviews.ClaimOneClaims | src/core/host-events.ts:1081-1091 | claiming by deleting keeps every row with at most one claimant |
| DeferredReviews.LaunchClaims | src/core/host-events.ts:1092-1108 | what is started was claimed once and was never started before |
| DeferredReviews.EveryWorldKeeps | src/core/host-events.ts:929-1484 | every reachable world satisfies the invariant |
| DeferredReviews.StartedAtMostOnce | src/core/host-events.ts:1044-1091 | no row is started twice, a started row is gone, and only authorized reviewers are started, failures included |
| DeferredReviews.OneRowPerReviewer | src/core/host-events.ts:971-982 | a head never has two rows for one reviewer |
| DeferredReviews.NoLostWakeUp | src/core/host-events.ts:996-1018 | once all handlers have ended, none having failed, no authorized row still waits for what has happened |
| DeferredReviews.SweepRestores | src/core/host-events.ts:1139-1256 | whatever failed before, once all handlers have ended after a sweep or a repeated notification without failing, no authorized row still waits for what it looked at |
| DeferredReviews.FailuresLoseWakeUp | src/core/host-events.ts:996-1018 | a run with failures in which a row whose CI is final is left to the sweep |
| ReviewStarts.StartedOnlyWhenDue | src/core/host-events.ts:1044-1113 | a review starts only after looks that found its head unmoved, its draft neither held nor skipped, and its CI not unfinished, or its run finished where CI is not awaited, or by the sweep |
| ReviewStarts.EveryRowIsAccountedFor | src/core/host-events.ts:1044-1113 | an authorized row waits, or is claimed, or was started once, or a look said that its head moved or its draft is skipped, or it expired or was lost in a failure |
| ReviewStarts.StartedExactlyOnce | src/core/host-events.ts:929-1484 | when all handlers have ended and none failed, every other authorized row was started exactly once, unless it waits for what has not happened |
| ReviewStarts.DeferredReviewersHaveRows | src/core/host-events.ts:968-982 | from a deferral on, every reviewer it was for has a row on record |
| ReviewStarts.SweptRowsAreTaken | src/core/host-events.ts:1036-1043 | the sweep is the last attempt: every row it took is gone once all handlers have ended, unless held for a run |
| ReviewStarts.UnauthorizedWaits | src/core/host-events.ts:1078-1091 | until the sweep an unauthorized reviewer's row is only removed for a moved head or its age |
| OneTurn.RunOneTurn | src/core/engine-native.ts:316-452 | a turn is cut at the first text that takes the run to its budget, and otherwise is the whole stream with its own usage |
| OneTurn.TurnIsUnique | src/core/engine-native.ts:316-452 | a stream has one such turn |
| OneTurn.CutStaysClose | src/core/engine-native.ts:341-395 | a turn the gate let through and the stream cut ends below the budget plus what its last text added |
| TurnLaws.SaidInOrder | src/core/engine-native.ts:341-380 | every text and every call of the stream is in the turn, right after what came before it |
| TurnLaws.NothingElseSaid | src/core/engine-native.ts:341-380 | only texts add text and output tokens, only calls add calls, and the last usage counts |
| TurnLaws.TextCounts | src/core/engine-native.ts:345-352 | a text counts for what it takes beyond the frame of every count |
| TurnLaws.CutIff | src/core/engine-native.ts:341-409 | a turn is cut exactly when some text takes the run to its budget, at the first such text, and is charged the price up to it |
| ToolScheduling.RunToolCalls | src/core/engine-native.ts:264-306 | calls start in order; two overlap exactly when they and all between them are accepted; results are in call order; a rejection ends it at its group |
| ToolScheduling.ThrownBy | src/core/engine-native.ts:293-300 | a group throws its first ownership loss, else its first rejection |
| ToolScheduling.RunTogether | src/core/engine-native.ts:283-292 | a batch starts all its calls in one pass before any settles, after everything before it settled |
| ToolScheduling.GroupsDoNotOverlap | src/core/engine-native.ts:249-263 | no call of a later group starts before every call of the earlier groups has settled |
| EngineRun.Run | src/core/engine-native.ts:90-189 | a run's requests, steps and end: each request with exactly its transcript, gate and turn, each end exactly when the code says, all step names distinct |
| EngineRun.WindDown | src/core/engine-native.ts:198-239 | one last turn without tools, or none when its own gate is shut |
| EngineRun.CallTools | src/core/engine-native.ts:174-185 | after the tools came back the transcript has their results in call order |
| EngineRun.PushTurn | src/core/engine-native.ts:170-184 | one assistant message and one result per call are appended |
| EngineLaws.EveryRequestWasGated | src/core/engine-native.ts:124-150 | at every request, the wind-down one included, the cost of all earlier turns plus the padded estimate is below budget |
| EngineLaws.GateIsPadded | src/core/engine-native.ts:120-133 | the gate's estimate takes the share cached before to be cached again, rounded, and a tenth on top |
| EngineLaws.StopsOnlyForMoney | src/core/engine-native.ts:133-150 | a run stopped at its gate could not have paid the padded estimate of its next request |
| EngineLaws.HowItEnded | src/core/engine-native.ts:107-239 | what each status means for the last turns, and which text it comes with |
| EngineLaws.UsageAddsUp | src/core/engine-native.ts:79-87 | every part of the usage adds up over the requests |
| EngineLaws.ReportsAllUsage | src/core/engine-native.ts:79-87 | the returned usage is the sum over all turns; the turn count is the number of requests, and one more exactly when the gate stopped the run |
| EngineLaws.RequestsAreBounded | src/core/engine-native.ts:107-114 | at most maxTurns ordinary requests, and one without tools after them |
| EngineLaws.RefusedCostNothing | src/core/engine-native.ts:133-147 | a refused run cost nothing, and asked nothing where every turn costs something |
| EngineLaws.OnlyLastTurnOverspends | src/core/engine-native.ts:124-150 | all turns but the last are below budget together |
| EngineLaws.CutRunStaysClose | src/core/engine-native.ts:316-395 | a run whose last turn was cut ends below its budget plus the price of the last text |
| EngineLaws.FailsIff | src/core/engine-native.ts:381-419 | a turn that was not cut fails exactly when its stream threw with a message or ended without usage; an empty message passes for a turn that cost nothing |
| EngineLaws.TurnLimitLosesText | src/core/engine-native.ts:109-114 | a run that stopped at its turn limit answers with no text |
| EngineStories.TextIsLost | src/core/engine-native.ts:109-114 | a run whose last turn said something and that answers nothing |
| EngineStories.EmptyMessagePasses | src/core/engine-native.ts:381-389 | a run whose stream throws with an empty message and that succeeds with the text so far |
| EngineLaws.OneMoreExchange | src/core/engine-native.ts:171-184 | a dialogue stays one when an assistant message and its results are appended |
| EngineLaws.EveryRequestIsAConversation | src/core/engine-native.ts:91-94 | at every request: system, user, then assistant messages with calls, each followed by exactly its results in call order |
| EngineLaws.EveryRequestTellsAll | src/core/engine-native.ts:170-189 | every request tells what each earlier turn said and called and exactly what each of its calls came back with |
| JsonScan.ScanValue | src/coding/protocol.ts:996-1045 | one value leaves strictly less text, or the scan stops |
| JsonCursor.FindClose | src/coding/protocol.ts:982-993 | the loop finds where a string closes, past escapes, or that it does not |
| JsonCursor.Scanner.Value | src/coding/protocol.ts:996-1045 | the cursor form refines the functional one, and only moves forward |
| JsonCursor.Scanner.Members | src/coding/protocol.ts:1008-1020 | the member loop refuses a key seen before in this object |
| JsonCursor.ScanAll | src/coding/protocol.ts:972-1053 | the cursor's scan of a text equals the functional one |
| JsonLaws.StringReadBack | src/coding/protocol.ts:979-995 | a written string is read back as what it spells, whichever escapes it uses |
| JsonLaws.NumberReadBack | src/coding/protocol.ts:1040-1043 | every written number is read to its end |
| JsonLaws.ScanFindsFirstFault | src/coding/protocol.ts:972-1053 | on the text of any tree the scan ends with the tree's first fault in reading order |
| JsonLaws.AcceptedIff | src/coding/protocol.ts:972-1053 | a tree's text is accepted, cursor at the end, exactly when it nests at most 64 deep and no object repeats a decoded key |
| JsonLaws.NeverCalledInvalid | src/coding/protocol.ts:972-1053 | a JSON text is refused only for a repeated key or its depth |
| JsonSoundness.ValueRead | src/coding/protocol.ts:996-1045 | every value the scanner steps over is the text of some tree |
| JsonSoundness.AcceptsExactly | src/coding/protocol.ts:972-1053 | the accepted texts are exactly those of the trees that nest at most 64 deep and repeat no decoded key |
| TextMeasures.BytesOfBoth | src/coding/protocol.ts:62-64 | two texts one after the other take their bytes together, less two where a surrogate pair closes up |
| TextMeasures.BytesAreAMeasure | src/coding/protocol.ts:62-64 | UTF-8 length is a measure truncation can search with, for every marker |
| Truncation.TruncateText | src/coding/protocol.ts:71-92 | the binary search finds the longest fitting prefix for every such measure; the answer is that prefix cut back, and the marker |
| Truncation.KeptIsAPrefix | src/coding/protocol.ts:87-91 | the kept part is a prefix that does not end between the halves of a surrogate pair |
| Truncation.WhatIsDropped | src/coding/protocol.ts:66-92 | of the longest fit is lost half a pair, then all from its last line break exactly when that lies in the second half, then all white space at the end |
| Truncation.FitsIff | src/coding/protocol.ts:66-80 | the answer is within the limit exactly when the text was, or the marker left room, or the bare marker fits |
| Truncation.TruncatedIsStable | src/coding/protocol.ts:71-92 | truncating again changes nothing |
| Truncation.OneAnswer | src/coding/protocol.ts:71-92 | a text has one truncation |
| Truncation.LongestWithMarker | src/coding/protocol.ts:66-70 | in bytes the fit is exactly the longest prefix that fits with the marker written after it |
| Truncation.NoRoomIsOver | src/coding/protocol.ts:79-80 | with a limit of zero the answer is over it |
| CodeSpans.SurvivorsWereThere | src/coding/claude-context.ts:80-116 | every run that is left was a run of the text |
| CodeSpans.StripIsIdempotent | src/coding/claude-context.ts:74-79 | stripping twice is stripping once: nothing left opens a span |
| CodeSpanRule.StripLeavesOutside | src/coding/claude-context.ts:74-79 | however a paragraph is read by the rule, what is left is exactly what is outside its spans, literal runs included |
| CodeSpanRule.EveryTextParses | src/coding/claude-context.ts:74-79 | every paragraph can be read by the rule |
| CodeSpanScan.FindRuns | src/coding/claude-context.ts:81-90 | the runs of backticks, in order |
| CodeSpanScan.GroupByLength | src/coding/claude-context.ts:92-100 | the indexes of the runs of each length, in order |
| CodeSpanScan.CloserOf | src/coding/claude-context.ts:104-110 | the forward-only pointer is at the next run of the same length |
| CodeSpanScan.OneMove | src/coding/claude-context.ts:92-106 | each pointer move passes a run that no pointer had passed |
| CodeSpanScan.StripInlineCode | src/coding/claude-context.ts:80-116 | the linear pass equals the simple matcher on every paragraph, with at most one pointer move per run |
| GlobCompiler.GlobRegex | src/core/glob.ts:8-27 | the loop writes exactly the compiled source |
| GlobCompiler.SourceReadsBack | src/core/glob.ts:8-27 | the source, read by the pattern grammar with its escapes undone, is the pattern's terms; it always parses |
| GlobCompiler.CompilationKeepsMeaning | src/core/glob.ts:1-31 | compiled and direct matching agree on all paths without line terminators, and for all patterns without ** on all paths |
| GlobCompiler.AcceptedOnlyIfGlob | src/core/glob.ts:29-31 | on any path, what the compiled pattern accepts the glob matches |
| GlobCompiler.EveryGlobKeepsMeaningIff | src/core/glob.ts:1-31 | a path means the same to every glob and its compiled form exactly when it has no line terminator |
| GlobLaws.StaysInSegments | src/core/glob.ts:3-8 | without ** a path has as many slashes as the glob it matches |
| GlobLaws.MatchesEach | src/core/glob.ts:3-8 | without stars a glob matches character by character, ? any but a slash |
| GlobLaws.StarsCover | src/core/glob.ts:3-8 | a star covers any part of a segment, a double star any part of a path |
| ThreadLaws.CreateKeepsFlat | src/core/dispatch.ts:893-952 | whatever state the branch was read from, the schema accepts the new row and threads stay flat |
| ThreadLaws.ThreadsStayFlat | src/core/dispatch.ts:427-539 | after any steps every root has no root of its own, in the repository its continuations name, on their branch |
| ThreadLaws.OneOwnerPerThread | src/core/dispatch.ts:452-458 | every continuation has an owner, its root's, and its root's base |
| ThreadLaws.OnlyPullRequestsAreContinued | src/core/dispatch.ts:446-451 | no run is continued that never had a result with a pull request |
| ThreadLaws.PullRequestIff | src/core/dispatch.ts:446-451 | that is a result that opened or updated one and names it |
| ThreadLaws.DispatchStoresIff | src/core/dispatch.ts:427-539 | a dispatch stores a row exactly when its order is one of 1 to 99 and it continues nothing or, naming no base, a run that its caller may continue; and what a fresh row holds |
| ThreadLaws.EveryOrderFits | src/core/dispatch.ts:528-539 | every stored merge order is one of 1 to 99 |
| ThreadLaws.SchemaAcceptsEveryRow | src/coding/protocol.ts:606-614 | every stored branch is wardby/run-<root or self> |
| ThreadLaws.OneNameIff | src/core/dispatch.ts:443-445 | a continuation stores its root's repository name exactly when that name is its own normal form |
| ThreadLaws.OneThreadTwoNames | src/coding/protocol.ts:219 | a dispatched run and its continuation that carry two names, because one .git is dropped each time |
| ThreadLaws.NewestIsLastGiven | src/core/dispatch.ts:512-526 | the newest stored order of a thread is the last one asked for in it |
| ThreadLaws.AtomicDispatchesKeepOrder | src/core/dispatch.ts:512-539 | with branches resolved in their transactions, every row stores the last order asked for in its thread |
| ThreadLaws.NewRowKeepsIff | src/core/dispatch.ts:512-539 | a new row stores its thread's last order exactly when it asks for one or none newer came since its branch was read |
| ThreadLaws.ReadAheadKeepsOrderIff | src/core/dispatch.ts:893-897 | after any steps a thread keeps its last order in every row exactly when no read-ahead dispatch into it was overtaken by a newer one |
| ThreadLaws.StaleReadLosesOrder | src/core/dispatch.ts:893-897 | a run in which it is lost |
| ContextPathLaws.OnlySharedInstructions | src/coding/protocol.ts:483-499 | nothing else inside any .claude directory is allowed, and no CLAUDE.local.md anywhere |
| SkillPaths.SkillsAreAllowed | src/coding/protocol.ts:483-499 | the file of every skill with a plain name is allowed |
| ContextWalk.Collector.Add | src/coding/claude-context.ts:298-308 | a file is added exactly when both limits allow it |
| Utf8.DecodingKeepsLength | src/coding/claude-context.ts:270 | strict decoding keeps the length in bytes, less a byte order mark |
| ContextWalk.Collector.Load | src/coding/claude-context.ts:311-336 | one candidate: added with what was read exactly when it is readable and no limit is passed; nothing is loaded once one was |
| ContextWalk.Collector.LoadOpened | src/coding/claude-context.ts:243-336 | what was read is refused when it is over the limit, and as text it is no longer |
| ContextWalk.Collector.PutBridge | src/coding/claude-context.ts:351-354 | the bridge is added without a limit check and stays within the limits |
| ContextWalk.Collector.Walk | src/coding/claude-context.ts:371-375 | the import loop ends, by the files still allowed and then the queue |
| ContextWalk.BuildClaudeContext | src/coding/claude-context.ts:279-391 | on any repository: at most 200 files, 256 KiB, 64 KiB each, distinct allowed paths, instructions breadth-first within five imports of a root, skills last, contents as read; limit is a reason only where one is passed, and otherwise a repository that does not change has all its instructions and skills there |
| ContextWalk.Collect | src/coding/claude-context.ts:279-391 | the same, by any usable rules |
| ContextSearch.FoundIff | src/coding/claude-context.ts:338-375 | a search that passed no limit collected exactly the readable allowed paths that are roots or that the first import naming them leads to |
| ContextSearch.FoundIffWithinReach | src/coding/claude-context.ts:338-375 | where no import that leads outside has an allowed name, exactly those at most five imports away from a root |
| HiddenImports.HomeImportHides | src/coding/claude-context.ts:254-268 | a repository in which a readable file one import away from the root is not collected |

## Left out

- Ledger.CapsAreHard: is about top-level runs; for delegated trees the per-step laws of `budget_laws.dfy` are proved on every table, not a machine over trees.
- DeferredReviews.SweepRestores: is about a sweep that takes all of a head's CI rows; the program takes at most a batch at a time, oldest first.
- GlobCompiler.GlobRegex: the pattern grammar read here is the part the compiler writes in; other sources are read as none.
- ContextWalk.BuildClaudeContext: which candidates are reported as skipped is not stated, only how many are recorded.
- Truncation.TruncateText: the measure is any that measures nothing as 0, a prefix as no more, and a marker's addition as at most its own measure; both measures in use are shown to be such.
- Rounding of floating-point dollars, the proxy's own ledger, the runner, claims by workers and provider streams: assumptions or host values above.
- SQL text, isolation levels, retries and locks: a transaction is one step.
- Warnings at a group's threshold, logging, wording of refusals, task texts, redaction: no state to reason about.
- The per-file rules of the file reader (symlinks, inodes, the loop that reads in chunks): what opening a file gives is an arbitrary number of bytes, or none.
- Markdown fences and paragraphs around inline code, and which tokens are imports: string-level facts.
- Lower-casing of paths beyond ASCII letters: no other letter lower-cases to one in the names compared.
- Services, images, packages, budgets and attribution inside a coding dispatch: the thread model has only what decides branch, root and merge order; who owns an agent is fixed at dispatch.
- Push handling when CI cannot be read, which reviews at once: nothing is deferred.
- The schemas of coding artifacts beyond the rules named above, the MCP transport, the CLI, configuration, the scheduler and plug-ins.
