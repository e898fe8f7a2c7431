# KubeHealth: a verified model of its ranking, trimming and supervising kernels

KubeHealth watches a Kubernetes cluster, ranks what is wrong with it, and prompts a model about the worst of
it. Most of the program is HTTP, Kubernetes client and page code. Between those sit a few dense kernels, and
this project models them and proves what they are for:

- **The home page** (`problems.go`): warnings become one row per workload; rows that started together, or share an
  infrastructure reason, are merged across namespaces by a union-find with path halving; the rows are ranked.
  `Problems`, `Groups`, `NamespaceRows`, `UnionFind`, `Patterns`, `PatternLaws`, `PatternTexts`, `OrderLaws`, `PageLaws`,
  `BlockLaws`, `Overview` and `OverviewLaws` prove that the merged groups are exactly the classes of the equivalence
  closure of the link rules, that no occurrence of a warning and no row is lost or counted twice, exactly when the
  page of the same events depends on the order Go iterates its maps in, and exactly when a merged row's explanation
  of itself is true. `RowLaws`, `WorkloadLaws`, `LinkLaws`, `PatternRows` and `HomeLaws` tell the rows, the links and the page
  once more by the events themselves.
- **The prompt** (`rca.go`, `brief.go`): three nested binary searches trim a rendered prompt to a token budget.
  `Tokens`, `Rows`, `Selecting`, `Trimming`, `TrimLaws`, `Fit` and `FitLaws` prove them equal to trimming one line at a
  time, say when that is the best there is, and which lines, events and warnings a prompt shows.
- **Linked evidence** (`linked.go`): `Linked` (what a budget keeps of a block), `EditDistance` (two rows against the
  recursive definition and against edit scripts) and `Words`.
- **Tunnels** (`tunnels.go`): `Tunnels` has one step for each critical section and proves its theorems over every
  interleaving of starts, stops, exits, readiness checks, time-outs and restart timers; `TunnelLaws` tells from the steps
  of a run when a process is added, a tunnel kept, and a dropped one restarted and how soon; `Output` splits what a
  process prints.
- **Owners** (`owners.go`, `bench_replay.go`): `Names`, `Owners`, `OwnerCache`, `OwnerChains` and `OwnerRuns` model the cache of API
  answers, the lookup queue and the chains they confirm, with time as a number that never goes back; `NameLaws` reads
  generated names back, and `OwnerLaws` tells what is looked up, when and in which order.
- **Events and families** (`warnings.go`, `bench_replay.go`, `main.go`): `Merging` (the overlay of the warning feed),
  `Paging` (the feed's pages), `Sweep` (whose turn it is) and `Forest`, `Families`, `FamilyLaws`, `FamilyTrees` (trees of objects guessed from names).
- **Model slots** (`settings.go`, `brief.go`): `Slots` and `SlotLaws`, every interleaving of user calls and background notes.

`Sequences`, `Tables`, `Strings`, `Clock` and `Events` are shared. `dafny verify dfyconfig.toml` checks everything.

Go map iteration is `Sequences.IterationOrder`: callers learn only that every key is listed once. `sort.Slice` is
`Sequences.Sort`: some sorted permutation. Time is a number of nanoseconds since the zero time; `Clock.Sub` saturates
and `Clock.Negate` overflows as Go's 64-bit durations do. What comes from outside (regular expressions, Unicode
classes, API answers, ports, processes, the clock) is a parameter or the choice of a step.

## What the proofs found

- **The merge can depend on map order.** `groupPatterns` takes the absolute value of a 64-bit difference by negating
  it. A row without any time (zero `FirstSeen`) is more than 292 years before a recent one, the difference saturates at
  the least duration, and negating that gives it back: negative, so within the window. In the other order it is not.
  `OrderLaws.OrderMattersForZeroTimes` has the two rows. Go's maps can only reorder the namespaces and the rows inside
  one: `OverviewLaws.OnePageOfEventsExactly` proves that the same events lead to one page exactly when, in every order of
  the namespaces, every two rows the rule links one way round are together; `BlockLaws.MapOrderMattersExactly` is the
  same of the rows. For arbitrary orders of a list the condition is that they are connected by links that hold both
  ways round (`OrderLaws.OrderMattersExactly`, `PageLaws.OnePageExactly`), which is more
  (`BlockLaws.OrderFreeIsBlockFree`, `BlockLaws.NamespacesHideOrder`).
- **A pattern's explanation can be untrue.** The sentence falls back on "the same reason" (or the same workload
  "failing the same way") without looking at the reasons: two rows that started together and a third that shares the
  second one's workload are one pattern with two reasons (`PatternTexts.ReasonsDiffer`). It is true exactly when the title
  names one reason (`PatternTexts.SameReasonIsTrueExactly`). And a zero start makes the loop forget the starts before it:
  `PatternTexts.StartsForgotten` has three merged rows said to have started in the same second though they did not.
  Exactly when each sentence about the clock is true: `PatternTexts.SameSecondIsTrueExactly`,
  `PatternTexts.EndsAreTrueExactly` and `PatternTexts.WithinIsTrueExactly`.
- **Trimming is not always the best selection.** `fit` does not put log lines back once it has had to drop a member or
  an event. `FitLaws.LogLineNotPutBack` has an object and a budget: one owned warning with a long message and one line of
  logs, which is left out though it would fit. As long as dropping log lines is enough the result is the
  lexicographically largest that fits (`FitLaws.RichestWhileLogsSuffice`); otherwise it is that exactly when nothing fits
  beside what the later searches stop at (`FitLaws.RichestWithMembers`, `FitLaws.RichestWithEvents`). What it always is, is the
  first that fits of the documented trim order.
- **A stopped program may start a tunnel again.** `stopAllTunnels` skips a tunnel without a process, so a tunnel that
  has just dropped keeps its restart timer. `Tunnels.ShutdownLeavesRespawnExactly` says exactly which tunnels, and
  `Tunnels.ShutdownCanBeUndone` has the run.
- **A failed spawn leaves the old command behind.** The generation moves on, so the exit of the earlier process is
  never recorded and a later stop tells a process that is gone (`Tunnels.StopCanTellGoneProcess`; exactly when:
  `Tunnels.StopTellsGoneProcess`). Likewise the late exit
  of an earlier process turns an `external` tunnel into an `exited` one (`Tunnels.ExternalEndsExactly`).
- **A running note cannot always be stopped.** A note gives up its registration after its brief may have started the
  next one, and takes the newer registration with it (`Slots.RunningNoteCannotBeStopped`, `Slots.StoppableEndsExactly`). And as the
  mark of a stop is kept per cluster, a stop that comes late discards the next note instead
  (`Slots.WrittenNoteIsThrownAway`): it marks a note other than the one picked exactly when that one is past its closing
  section and a later one is being written (`Slots.StopMarksAnotherExactly`), and a note is discarded exactly when its
  cluster was stopped between its taking a slot and its closing (`Slots.DiscardedExactly`).
- **A confirmed chain may end in a lookup that found nothing.** `ownerChain` asks only that the top's answer is fresh,
  not that it found the object (`OwnerChains.NotInferredExactly`; `OwnerRuns.MissingTopIsConfirmed` has the run).
- **One failing namespace stops the sweep.** A failed fetch leaves the namespace the stalest, so its turn comes again and
  again and no other's does (`Sweep.SameAgainExactly`, `Sweep.FailureStarves`); while fetching works every namespace has
  exactly one turn in each round (`Sweep.EveryNamespaceOnce`). And "ready" counts the entries of namespaces that are gone:
  it can be up with a namespace that was never loaded (`Sweep.ReadyWithoutLoading`, exactly: `Sweep.ReadyIsUntrueExactly`).

## Model

| member | source | states |
|---|---|---|
| UnionFind.DisjointSets.constructor | problems.go:411-414 | every row starts as its own representative, with nothing linked |
| UnionFind.DisjointSets.Find | problems.go:415-422 | ends, returns the representative of the class, and path halving changes no class and no representative |
| UnionFind.DisjointSets.Union | problems.go:423 | the classes become those of the closure with one link more |
| UnionFind.RepresentsDecides | problems.go:411-423 | two rows have the same representative exactly when a path of links connects them |
| UnionFind.UnionRepresents | problems.go:423 | pointing one root at the other gives the closure with that link, whatever was linked before |
| Patterns.UnitePairs | problems.go:431-445 | exactly the pairs of rows the pair rule links, in list order, are united, and nothing else |
| Patterns.UniteInfra | problems.go:446-466 | whatever order the buckets are visited in, every bucket of an infrastructure reason that spans three namespaces becomes one class, per tier |
| Patterns.UnitedIsClosure | problems.go:431-466 | star-shaped unions of buckets give the same classes as linking every two of their rows |
| Patterns.FindComponents | problems.go:467-470 | the components are exactly the classes of the link rules' equivalence closure, each listed in row order, every row in one |
| Patterns.GroupPatterns | problems.go:404-494 | every class reaching a second namespace becomes one pattern of all its rows, every other row stays as it is, for any iteration order of both maps |
| PatternLaws.ComponentHasOneTier | problems.go:434-436 | rows in one class share their tier, however long the chain of links |
| PatternLaws.MergedExactly | problems.go:471-487 | a row is merged exactly when its class has another row: a class of two or more always spans two namespaces |
| PatternLaws.PatternsAreHomogeneous | problems.go:517-548 | a pattern has its members' tier, re-aging it from its earliest first sight changes nothing, and it names at least two namespaces |
| PatternLaws.GroupsCover | problems.go:471-493 | the merged groups and the rest list every row exactly once |
| PatternLaws.RowsSurvive | problems.go:471-493 | every row is afterwards exactly one row or one item of one pattern |
| PatternLaws.OccurrencesSurvive | problems.go:496-548 | grouping keeps the total number of occurrences |
| LinkLaws.LinkExactly | problems.go:425-466 | which two rows are linked, by their own namespaces, tiers, first sights, titles and first reasons, the window and the eight infrastructure reasons written out |
| LinkLaws.SameWorkloadTogether | problems.go:425-445 | rows of one tier and title in two namespaces whose warnings have the same main reason, the one with the largest total and of equals the least, are one cause wherever they are listed |
| LinkLaws.WorkloadsTogether | problems.go:204-445 | so are the rows of two workloads of one name, told by the events of their namespaces |
| LinkLaws.OutageTogether | problems.go:446-466 | and rows of one tier in three namespaces whose warnings all have the same infrastructure reason as the main one |
| LinkLaws.TwoRowsExactly | problems.go:404-494 | two rows become one exactly when they are in two namespaces and one tier and started within ten seconds (or so far apart that the difference wraps), or have one title and the same main reason |
| PatternRows.PatternTells | problems.go:496-548 | a pattern row by its members' fields: one item for each with its first reason, most occurrences first; each reason with its total; namespaces; the earliest and latest times, the message seen last, cascade, idleness and kind |
| PatternRows.PatternTitled | problems.go:550-563 | the title names the common workload, or the reasons that are the main ones of most occurrences |
| OrderLaws.StartedTogetherExactly | problems.go:437-441 | what the 64-bit comparison of start times decides, saturation and overflow included |
| OrderLaws.StartedTogetherSymmetric | problems.go:437-441 | the comparison is symmetric exactly for times less than 2^63 nanoseconds apart |
| OrderLaws.PairOrderMattersExactly | problems.go:431-445 | the order of two rows matters to the pair rule exactly when only the clock could link them and their times are further apart than that |
| OrderLaws.OrderMattersForZeroTimes | problems.go:437-441 | two such rows: merged in one order, left apart in the other |
| OrderLaws.OrderMattersExactly | problems.go:431-466 | for arbitrary orders of a list with distinct keys: every order puts the same rows together exactly when every pair the rule links one way round is connected by links that hold both ways round |
| OrderLaws.ShortSpanIsOrderFree | problems.go:437-441 | so it does when no two rows that only the clock can link are 2^63 nanoseconds apart |
| OrderLaws.CauseMoves | problems.go:431-466 | then the classes move with the rows |
| OrderLaws.OneHomePage | problems.go:404-606 | and any two orders of rows, buckets and components lead to the same ranked page |
| PageLaws.SamePageExactly | problems.go:404-606 | two orders of the same rows give one page exactly when they put the same rows together: the page tells which rows are together |
| PageLaws.OnePageExactly | problems.go:404-606 | there is one page for all arbitrary orders of a list, of buckets and of components exactly under the condition of `OrderMattersExactly` |
| BlockLaws.BlockedFollows | problems.go:110-165 | rows that come namespace by namespace follow an order of the namespaces |
| BlockLaws.MapOrderMattersExactly | problems.go:110-165 | for the orders Go's maps can give: all put the same rows together exactly when, in every order of the namespaces, every pair the rule links one way round is together |
| BlockLaws.OneBlockedPageExactly | problems.go:106-172 | and that is exactly when they give one page |
| BlockLaws.OrderFreeIsBlockFree | problems.go:431-466 | the condition for arbitrary orders is sufficient |
| BlockLaws.NamespacesHideOrder | problems.go:431-466 | and not necessary: four rows in two namespaces that some order puts together differently, but none that the maps can give |
| OverviewLaws.OnePageOfEvents | problems.go:106-172 | two pages of the same events have the same rows, in whatever order the maps were visited, and are equal exactly when those were put together in the same way |
| OverviewLaws.EveryBlockedOrder | problems.go:106-165 | every order of the rows that keeps each namespace's together is one that the maps can give |
| OverviewLaws.OnePageOfEventsExactly | problems.go:106-172 | end to end: the same events lead to one page for every order of the maps exactly under the condition of `MapOrderMattersExactly` |
| Problems.SortedReasons | problems.go:860-872 | the table of reasons is one list, however the counts are iterated |
| Problems.ReasonTableTotal | problems.go:860-872 | the table's counts add up to the tally |
| Problems.FillFromWarnings | problems.go:355-376 | first and last sight, reasons and occurrences are those of all the warnings |
| Problems.FilledAccounts | problems.go:355-376 | a row's reason counts add up to its occurrences, which are those of its warnings |
| RowLaws.ReasonsAre | problems.go:860-872 | the table holds every reason of the warnings once, with the sum of their counts, the largest first and of equals the least |
| RowLaws.MainOnTop | problems.go:425-430 | so its first entry is the main reason: none has a larger total, and of equals none is less |
| RowLaws.FilledTells | problems.go:355-391 | a filled row by its warnings: reasons with totals, occurrences, the earliest first sight, the first of the latest messages, and tier and idleness by 2 h, 24 h and 15 min |
| RowLaws.StartIs | problems.go:359-366 | with all times known the first sight is the earliest, the last time standing in for a missing first one |
| Problems.MakePattern | problems.go:496-587 | a pattern is made of all its members in member order, its keys, namespaces, reasons, title and explanation independent of map order |
| Problems.PatternBalanced | problems.go:505-548 | a pattern's reason counts add up to its occurrences when its members' do |
| Problems.PatternTier | problems.go:378-391 | re-aging a pattern gives its members' tier again, zero times included |
| PatternTexts.OneReasonExactly | problems.go:550-563 | the title names a single reason exactly when all members share it |
| PatternTexts.TogetherExactly | problems.go:565-580 | with known starts the explanation speaks of the clock exactly when all members were first seen within the window, and of one second exactly when within one |
| PatternTexts.TogetherIsTrueExactly | problems.go:565-580 | all members were first seen within the window exactly when the sentence is about the clock and all starts are known, or none is later than the window |
| PatternTexts.SameSecondIsTrueExactly | problems.go:576-577 | "in the same second" is true exactly when all starts are known, or none is later than a second |
| PatternTexts.EndsAreTrueExactly | problems.go:578-580 | the two times shown are the ends of the range exactly when all starts are known, or the last member's is not |
| PatternTexts.WithinIsTrueExactly | problems.go:578-580 | the rounded number of seconds is not exceeded exactly when the range, the zero start included, is no longer; with known starts, when it is not rounded down |
| PatternTexts.StartsForgotten | problems.go:566-577 | three rows that are merged and said to have started in the same second though they did not |
| PatternTexts.SameReasonIsTrueExactly | problems.go:581-585 | otherwise it speaks of one reason, and that is true exactly when the title names one |
| PatternTexts.ReasonsDiffer | problems.go:581-585 | three rows that are merged and said to have the same reason though they do not |
| Groups.GroupEvents | problems.go:106-150 | each workload's group holds exactly its events' objects and its warnings in order; cluster-scoped warnings are kept apart |
| NamespaceRows.FindCascade | problems.go:290-302 | a row cascades exactly when two levels of its chain warn and every object of the deepest level does |
| NamespaceRows.NewestPodUnique | problems.go:281-289 | the newest failing Pod, ties by name, is one Pod whatever the order of the members |
| NamespaceRows.GroupProblem | problems.go:204-304 | the whole row of a group: key, times, tier, reasons, occurrences, quoted message, focus, newest failing Pod, a CronJob's last success included |
| NamespaceRows.RowUnique | problems.go:204-304 | a workload has one row, whatever order its group's maps are visited in |
| WorkloadLaws.UnderExactly | problems.go:110-150 | a workload's warnings are the Warning events about named objects of the namespace whose chain ends with it, each as often as it occurs |
| WorkloadLaws.WorkloadTells | problems.go:204-262 | a workload's row tells those warnings; it starts with the first of them, or when its CronJob began to fail |
| WorkloadLaws.CascadeExactly | problems.go:290-302 | a row cascades exactly when events warn of objects at two depths and of every object at the greatest depth seen |
| WorkloadLaws.PodExactly | problems.go:281-289 | it points at the Pod of the newest warning, of equals the least name, and at none only when no Pod's warning has a time |
| WorkloadLaws.InferredExactly | problems.go:128-163 | a row is marked inferred exactly when some of its objects have owners and the chain of none that does is confirmed |
| NamespaceRows.NamespaceProblems | problems.go:106-172 | every workload with a warning has exactly one row, no other has one, and the rows count every warning once |
| Overview.ClusterProblems | problems.go:309-352 | exactly one row for each kind and reason, made of all its warnings newest first, with their occurrences |
| Overview.AllRows | problems.go:106-172 | all namespaces together: every warning that names its object is counted in exactly one row |
| Overview.BuildProblems | problems.go:106-172 | end to end: one row for each workload and for each kind and reason with warnings, occurrences over the page equal the events' total, every row survives once, each page row's reasons and tier are right, and the page is ranked: new rows first and chronic ones last, in a tier cascades, then active rows, then the latest, then by key |
| Overview.PrecedesExactly | problems.go:589-606 | the comparator, by the rows' fields: new before ongoing before chronic, then cascades, active rows, the latest, and keys |
| HomeLaws.PageShows | problems.go:106-172 | every row is on the page by itself or as an item of a pattern that tells its namespace, kind, name, first reason, occurrences, idleness and focus, and the page stands for no more rows than there are |
| HomeLaws.ReportedAre | problems.go:113-127 | the total counted is that of the counts of the Warning events that name their object |
| HomeLaws.CauseExactly | problems.go:309-317 | a cluster row's warnings are those of its kind and reason about objects of no namespace |
| HomeLaws.ClusterTells | problems.go:309-352 | and the row tells them, newest first |
| Merging.MergeEvents | warnings.go:192-230 | the overlay in place, with its index, equals merging two maps by name and listing the result by descending time, then namespace, then name; neither cached list is written to |
| Merging.MergeUnique | warnings.go:192-230 | time, namespace and name leave one order: the merge is one list |
| Merging.MergeIgnoresOrder | warnings.go:192-230 | it does not depend on the order of either cached list |
| Merging.MergeIdempotent | warnings.go:192-230 | merging the same feed again changes nothing, even on an unsorted base |
| Merging.MergeKeepsEvery | warnings.go:192-214 | no event of either list is lost, and none is older or rarer than the feed's copy |
| Paging.ListLikeAPIServer | bench_replay.go:193-243 | a page is the stretch of the selected objects, in namespace/name order, that its token asks for |
| Paging.MatchingInOrder | bench_replay.go:210-222 | what a selector matches is listed completely, once each, in namespace/name order |
| Paging.PagingLosesNothing | warnings.go:52-81 | following the tokens reads exactly the first 20 pages' worth in order, and knows whether more remains |
| Paging.WarnFeed.Refresh | warnings.go:47-93 | only a complete fetch replaces what is shown; a refused one records why, a cancelled one leaves no trace |
| Paging.ReplayWarnings | bench_replay.go:308-308 | end to end: the feed shows exactly the first 10,000 warnings in that order, each under its namespace, and all of them exactly when it does not say it was cut |
| Paging.ShownOnce | warnings.go:70-84 | every event read is shown once, under its own namespace, newest first |
| Tokens.EstimateTokens | brief.go:575-590 | the counting loop is the weighted sum over the characters by class, in hundredths, rounded down, and one |
| Tokens.WeightExactly | brief.go:575-590 | a text weighs 23 hundredths of a token for each letter, 136 for a digit, 55 for a space and 52 for anything else |
| Tokens.DecimalExactly | rca.go:475-505 | a number is printed as the digits that spell it, without a leading zero |
| Selecting.PickLogLines | brief.go:476-500 | as many lines as the limit, in their order: exactly those that are among the newest errors, up to two thirds of the limit, or in a run of the most recent lines |
| Selecting.PickSetShape | brief.go:476-500 | exactly min(limit, lines) lines: the newest min(errors, 2/3 limit) errors and, besides those, a run of the most recent lines |
| Selecting.PickSetNested | brief.go:476-500 | what is kept for a limit is kept for the next |
| Selecting.PickSetNext | brief.go:476-500 | the next limit keeps exactly one line more |
| Selecting.NewestEvents | rca.go:400-420 | the n newest events in their own order; of two as new the one listed first is kept |
| Selecting.NewestAreNewest | rca.go:400-420 | nothing dropped is newer than something kept |
| Selecting.NewestSetNext | rca.go:400-420 | one event more keeps all the others |
| Trimming.Most | rca.go:534-537 | the binary search finds the largest number that holds, when what holds at a number holds below it |
| Trimming.Trim | rca.go:538-551 | the three searches give what trying one line less at a time gives |
| TrimLaws.RichestExactly | rca.go:527-552 | a result that fits is the lexicographically largest that does exactly when none of six put-backs fits, and always when only log lines went |
| TrimLaws.RichestUnlessRejected | rca.go:533-545 | it is the largest whenever the search over log lines finds a number with which everything else fits |
| TrimLaws.RichestByMembers | rca.go:546-549 | where the search over members stops at m, it is exactly when neither a log line nor the logs as fetched fit beside those m |
| TrimLaws.RichestByEvents | rca.go:550-551 | where the search over events stops at n, it is exactly when nothing put back beside those n fits |
| Fit.EventsGrow | rca.go:473-482 | below the full number an event more never makes the section cheaper: its line costs more than the shorter note saves |
| Fit.MembersGrow | rca.go:484-490 | the same for member warnings |
| Fit.LogsGrow | rca.go:491-506 | the same for log lines, whichever line the next limit adds |
| Fit.FitsIsMonotone | rca.go:533-551 | so fitting is downward closed along each search, for any classification that is right on ASCII |
| Fit.KeptFits | rca.go:523-552 | the prompt is within budget exactly when some selection of the trim order is; in particular whenever the fully trimmed one is |
| Fit.KeptIsRichestExactly | rca.go:523-552 | when the prompt shows the most there is room for |
| Fit.LargerBudget | rca.go:523-552 | a larger budget, or none, keeps a selection no later in the trim order |
| FitLaws.RichestWhileLogsSuffice | rca.go:533-545 | the same for rendered prompts: the most there is room for as long as trimming log lines is enough |
| FitLaws.RichestWithMembers | rca.go:546-549 | and exactly when, where member warnings had to go |
| FitLaws.RichestWithEvents | rca.go:550-551 | and exactly when, where events had to go |
| FitLaws.LogLineNotPutBack | rca.go:523-552 | an object and a budget whose prompt leaves out a line of logs that would fit |
| Fit.RenderPrompt | rca.go:465-511 | the builder writes exactly the sections, notes and counts of the selection |
| Fit.EventsShown | rca.go:470-482 | the events of a prompt are the newest, in their own order, and a note counts the others |
| Fit.MemberRowsMore | rca.go:484-488 | showing one member warning more appends the next one listed |
| Fit.LogsShown | rca.go:491-506 | the log lines of a prompt are those picked, after the containers' state, and a note says how many of how many |
| Fit.FullShowsAll | rca.go:465-511 | the full prompt leaves out nothing: all events, all member warnings, the logs as they were fetched |
| Fit.StateExactly | rca.go:513-521 | the containers' state is the first line of logs that begin with one, and log lines are looked for in the rest |
| Fit.LinesSay | rca.go:475-479 | what the line of an event and that of a member warning tell |
| Fit.NoteSays | rca.go:466-470 | a note counts what is left out |
| Fit.FitEvidence | rca.go:465-552 | the prompt is the first rendering of the trim order that fits, or the last, and the full one exactly when it is within the budget; the member warnings shown are the first ones listed, so with the newest listed first none left out is newer than one shown |
| Linked.RenderLinked | linked.go:131-159 | the caller's items are not written to; trimmed and kept lines add up to all lines; of all cuts that fit the largest is kept, and no block is written exactly when none fits |
| Linked.KeptExactly | linked.go:131-159 | by the items: the first objects whole, or the first lines of the first one alone, as many as the budget affords: every block with more, with the note it would have, is over it |
| Linked.BlockExactly | linked.go:112-124 | a block is its heading, a line for each object with its own lines under it, and a note that counts the lines left out when there are any |
| Linked.CutUnique | linked.go:147-157 | there is one cut of each size, so that result is determined |
| Linked.DropObjectNext | linked.go:149-151 | dropping the last object skips no cut |
| Linked.AllKeptWhenAllFits | linked.go:141-146 | nothing is trimmed when everything fits |
| Linked.LargerBudget | linked.go:131-159 | a larger budget, or none, never keeps fewer lines |
| Linked.LinkedBudget | linked.go:163-168 | no limit exactly when the context is unknown; otherwise a token at least, and the largest within the share |
| EditDistance.EditDistance | linked.go:1063-1081 | the two rows compute the recursive Levenshtein distance |
| EditDistance.LevIsLeastEdits | linked.go:1062-1081 | it is the least number of single-byte inserts, deletes and substitutions that turn one text into the other |
| EditDistance.LevSymmetric | linked.go:1062-1081 | it is symmetric |
| EditDistance.LevZero | linked.go:1062-1081 | it is zero exactly for equal texts |
| EditDistance.LevTriangle | linked.go:1062-1081 | it satisfies the triangle inequality |
| Words.ContainsWord | linked.go:315-337 | yes exactly when some occurrence, overlapping ones included, is a whole name |
| Words.NameByteExactly | linked.go:321-323 | a name's characters are the ASCII letters and digits, the dash, the dot and the underscore |
| Words.LastOfNames | linked.go:332-333 | a name at the end of a text is found exactly when no name character precedes it |
| Words.NotInLongerBefore | linked.go:331-335 | a name that only occurs at the end of a longer one is not found |
| Words.NotInLongerAfter | linked.go:331-335 | nor one that only begins a longer one |
| Words.MentionedBetween | linked.go:331-335 | one between other characters is found |
| Tunnels.TunnelRun.Start | tunnels.go:295-317 | the state after a start in each state, with the port open or not; no error means it is up or external |
| Tunnels.TunnelRun.SpawnLocked | tunnels.go:319-343 | a new generation whose process is starting, or the failure of the pipe or of the command |
| Tunnels.TunnelRun.MarkReady | tunnels.go:396-406 | only the current generation, while starting, becomes running |
| Tunnels.TunnelRun.GiveUp | tunnels.go:409-418 | a tunnel that never opened fails, and its process is the one told |
| Tunnels.TunnelRun.RecordExit | tunnels.go:424-461 | an exit of the current generation clears the command; a restart is set going exactly when the tunnel is kept, was ready and is not stopped, after 5 s when up for more than two minutes and otherwise after 5, 15 or 60 s by the restarts so far |
| Tunnels.TunnelRun.Fire | tunnels.go:462-471 | a timer starts a process exactly for its own generation, exited, kept, defined and in use, given a pipe |
| Tunnels.TunnelRun.Stop | tunnels.go:507-525 | the tunnel is stopped and not kept; which process is told |
| Tunnels.TunnelRun.StopAll | tunnels.go:538-556 | the same, but only with a process |
| Tunnels.StepKeepsInv | tunnels.go:295-556 | each critical section and each outside event keeps the invariant |
| Tunnels.NoStrayProcess | tunnels.go:295-556 | in every interleaving a live process is the one command of a tunnel that is up, or was told to terminate |
| Tunnels.UpMeansCurrentProcess | tunnels.go:295-472 | starting or running exactly while the newest generation's process is not told and not yet recorded as ended; running means it was ready |
| Tunnels.StopIsFinal | tunnels.go:507-525 | after a stop, until the next start, the tunnel stays stopped, nothing is spawned, and every live process was told |
| Tunnels.OldTimersAreDead | tunnels.go:462-471 | of all pending restart timers only the newest generation's can ever take effect |
| Tunnels.RestartsOnlyWhatWasReady | tunnels.go:424-471 | an automatic restart follows an earlier step that made that very generation ready |
| TunnelLaws.SpawnsExactly | tunnels.go:295-471 | a process is added exactly by a start of a tunnel that is down and whose port is shut, and by the timer of a current, kept tunnel that has dropped, is defined and in use; each given a pipe |
| TunnelLaws.RestartsExactly | tunnels.go:462-471 | in every run, what adds a process without a start is exactly such a timer |
| TunnelLaws.ArmsExactly | tunnels.go:424-461 | in every run, a recorded exit sets a restart going exactly for a current, kept tunnel that is not stopped and whose process was made ready by an earlier step |
| TunnelLaws.DelayExactly | tunnels.go:447-461 | in every run its delay is 5 s after more than two minutes up, and otherwise that of the number of automatic restarts since the last start or the last such drop: 5 s, 15 s, then a minute |
| TunnelLaws.KeptExactly | tunnels.go:295-556 | in every run a tunnel is kept exactly when a start that found its definition asked for it and nothing stopped it since |
| TunnelLaws.BeginsExactly | tunnels.go:295-556 | how each of the six states begins |
| TunnelLaws.ToldExactly | tunnels.go:409-556 | a process is told to terminate exactly when it is the command and its tunnel did not open in time, is stopped, or everything is |
| Tunnels.ShutdownLeavesRespawnExactly | tunnels.go:538-556 | after stopping all, a tunnel can still come back exactly when it has dropped, is kept, and its restart is on its way |
| Tunnels.ShutdownCanBeUndone | tunnels.go:538-556 | a run in which it does |
| Tunnels.ExternalEndsExactly | tunnels.go:424-446 | an external tunnel stops being one only by a stop or by the late exit of an earlier process of its generation |
| Tunnels.StopTellsGoneProcess | tunnels.go:319-343 | a stop tells a process that is gone exactly when the tunnel kept the command of an earlier generation whose process is gone |
| Tunnels.StopCanTellGoneProcess | tunnels.go:507-525 | a run in which it does |
| Output.TunnelOutput.ReadAll | tunnels.go:346-370 | however reads chunk the output, the lines logged are those of the batch split |
| Output.SplitResumes | tunnels.go:347-361 | going on from what is left of one chunk gives what splitting both at once gives |
| Output.PiecesRejoin | tunnels.go:352-361 | the batch split cuts at every CR and LF and loses no character |
| Output.BreaksExactly | tunnels.go:352-361 | what separates pieces is exactly the line feeds and carriage returns |
| Output.LinesExactly | tunnels.go:356-360 | the lines logged are the pieces without the spaces and tabs at their ends, those of nothing else left out, in order |
| Output.LastLinesExactly | tunnels.go:271-276 | the last two hundred lines are kept |
| Output.TunnelOutput.Log | tunnels.go:271-276 | what is kept is always the last 200 lines ever logged |
| Names.StripLast | main.go:178-184 | cuts at the last dash, and only when there is one |
| Names.InferParent | owners.go:92-123 | a guessed parent's name is shorter and not empty |
| Names.DetectParent | main.go:189-230 | a detected parent is at hand, and its name is shorter |
| NameLaws.PodOfReplicaSet | owners.go:97-109 | a Pod named after a Deployment, a template hash that is no run time and a Pod suffix leads to the ReplicaSet |
| NameLaws.PodOfJob | owners.go:102-105 | one named after anything, a run time and a Pod suffix leads to the Job |
| NameLaws.GuessedExactly | owners.go:92-123 | a name is taken as generated exactly when it is put together from a prefix, a dash and a suffix of its kind's shape |
| NameLaws.RolloutChain | owners.go:92-165 | the chain of a rollout's Pod is Pod, ReplicaSet, Deployment |
| NameLaws.CronChain | owners.go:92-165 | that of a scheduled run's Pod is Pod, Job, CronJob |
| NameLaws.OrdinalChain | owners.go:92-165 | that of an ordinal's Pod is Pod, StatefulSet |
| NameLaws.KindlessChain | owners.go:92-165 | and that of any other generated Pod ends with something of the name before the suffix, of unknown kind |
| NameLaws.ChainExactly | owners.go:128-149 | every link of a chain is the owner that a good answer names, or else the one the name suggests, with the kind another answer gave for it; it ends where there is neither, or with the fifth object |
| NameLaws.DetectedExactly | main.go:189-230 | an object is put under an owner exactly when one at hand may have named it so, a StatefulSet before a ReplicaSet before a Job before a DaemonSet |
| Owners.StepKeepsInv | owners.go:188-314 | every critical section keeps the queue's invariant, the upward enqueue and the wholesale drain included |
| Owners.NoWastedLookups | owners.go:188-314 | in every run the queue holds no job twice, `queued` is exactly the jobs waiting or being looked up, none has a good answer, and no object is looked up again before its answer expires |
| OwnerLaws.LookupsApart | owners.go:37-71 | in every run an object that was found is looked up again after half an hour at the earliest, one that was missing after five minutes |
| OwnerLaws.ConfirmExactly | owners.go:188-211 | a chain asks for its first object without a good answer that found it: at the back of the queue, unless queued, being looked up, or two hundred wait |
| OwnerLaws.RootGoesFirst | owners.go:217-228 | a root goes before all others |
| OwnerLaws.OwnerGoesFirst | owners.go:289-314 | so does the owner an answer names, and its kind is remembered |
| OwnerLaws.FirstIsTaken | owners.go:242-248 | the first of the queue is taken next |
| OwnerLaws.CacheExactly | owners.go:293-301 | an answer is kept as it is, and a full cache drops exactly the others that are not good any more |
| OwnerCache.OwnerState.OwnerChain | owners.go:128-165 | the walk of at most four links, and whether it is marked inferred |
| OwnerCache.OwnerState.RequestOwnerConfirmation | owners.go:188-211 | the first link that is not settled is queued, once and within the cap; false exactly when the chain cannot be confirmed through this object |
| OwnerCache.OwnerState.RequestRootLookup | owners.go:216-226 | the root goes first, unless queued or fresh |
| OwnerCache.OwnerState.TakeJob | owners.go:242-248 | the first job leaves the queue and is being looked up |
| OwnerCache.OwnerState.TakeQueue | bench_replay.go:315-328 | the whole queue leaves at once |
| OwnerCache.OwnerState.ForgetJob | owners.go:261-267 | a cancelled lookup can be queued again |
| OwnerCache.OwnerState.Purge | owners.go:293-299 | a full cache loses exactly its stale answers, in any iteration order |
| OwnerCache.OwnerState.RecordAnswer | owners.go:289-313 | the answer is stored and the owner it names is queued first, unless queued or fresh |
| OwnerChains.NotInferredExactly | owners.go:128-165 | a chain is not marked inferred exactly when it is the object alone, or every link is a good API answer and the top's lookup is good |
| OwnerChains.ResolvingLengthens | owners.go:128-211 | while nothing expires, resolving the link queued for a chain strictly lengthens its confirmed part |
| OwnerChains.ConfirmedStays | owners.go:128-165 | a confirmed chain stays as it is |
| OwnerChains.FiveLookupsConfirm | owners.go:128-211 | after one lookup more than the depth limit every chain is confirmed |
| OwnerRuns.StepKeepsGood | owners.go:188-314 | no critical section touches an answer that is good to the end |
| OwnerRuns.FiveRoundsConfirm | owners.go:188-314 | in every run of the queue: after five rounds of asking for a chain, taking its open link's job and finding the object, with anything in between, the chain is not inferred |
| OwnerRuns.MissingTopIsConfirmed | owners.go:128-165 | a run of the queue after which a chain is not inferred although its top was not found |
| OwnerChains.RecordingResolves | owners.go:253-314 | recording a found answer settles its link and forgets nothing good, purge included |
| Sweep.Stalest | main.go:748-766 | the loop finds the first namespace without an entry, or the first of the oldest |
| Sweep.Worker.Tick | main.go:739-776 | one list call: the feed's when due, else the stalest namespace's; a failed one changes no entry; whether "ready" is set |
| Sweep.EveryNamespaceOnce | main.go:691-776 | while fetching works, any as many consecutive turns as there are namespaces are one turn for each, whatever was cached before |
| Sweep.SameAgainExactly | main.go:740-769 | of several namespaces one has two turns in a row exactly when its first fetch failed |
| Sweep.FailureStarves | main.go:740-769 | as long as its fetches fail no other has a turn |
| Sweep.ReadyExactly | main.go:770-775 | "ready" is set exactly when at least as many entries are left over as are missing |
| Sweep.ReadyIsUntrueExactly | main.go:770-775 | it is set though some namespace was never loaded exactly when enough entries are left over, and always when all were |
| Sweep.ReadyWithoutLoading | main.go:770-775 | a tick after which it is |
| Forest.TreeCount | main.go:277-300 | a tree holds every descendant of its root once, and nothing else |
| Forest.EachObjectOnce | main.go:302-402 | the trees of all roots and the unclaimed objects are together every object exactly once |
| Forest.InFamilyExactly | main.go:302-327 | an object is in a family exactly when a name points from it or to it |
| Families.ParentsFormForest | main.go:247-254 | parents' names are shorter, so the wiring recursion ends |
| Families.SortedKids | main.go:285-291 | children come in one order, whatever order the index was filled in |
| Families.Wire | main.go:277-300 | the recursion builds the tree, depths included |
| Families.MakeFamily | main.go:336-379 | totals over the tree; idle and cascading exactly when they should be: the root and every leaf warn |
| FamilyLaws.BuildFamilies | main.go:234-405 | every object ends up exactly once in a whole tree or alone, and alone exactly when no name points from it or to it; families are ranked, cascades first, then warnings, then names |
| FamilyLaws.CountsConserved | main.go:336-402 | warnings and normal events over families and single objects add up to all |
| FamilyTrees.PageTells | main.go:234-379 | a family by its objects: every node's children are the objects whose names point to it, by kind and then name, a level further down; the totals, idleness and cascade are those of the objects in the tree |
| FamilyLaws.SortedInFamilyOrder | main.go:386-394 | cascades first, then families with warnings, then by the root's name |
| Slots.SlotCounter.SetMaxCalls | settings.go:78-88 | the limit is clamped to 1..10 |
| Slots.SlotCounter.TryAcquire | settings.go:91-103 | a slot is taken exactly when fewer are active than the limit read before |
| Slots.StepKeepsInv | settings.go:78-127 | every critical section of user calls and notes keeps the invariant |
| Slots.ActiveIsHeld | settings.go:78-127 | in every interleaving the active count is the number of slots held, and at most ten |
| SlotLaws.TakesExactly | settings.go:91-127 | a slot is taken exactly by a call or a note that tries while fewer are active than the limit it read, and given back exactly by one that holds it |
| SlotLaws.UserAdmittedExactly | settings.go:91-127 | in every interleaving a user's call gets a slot exactly when fewer are active than the limit was when it last read it |
| SlotLaws.BriefBeginsExactly | brief.go:285-383 | how each state of a cluster's note begins |
| SlotLaws.MarksExactly | brief.go:237-383 | a stop marks its cluster's note, closing a marked one asks for another, and getting a slot clears both |
| SlotLaws.RegisteredExactly | brief.go:222-326 | the note that can be stopped in a cluster is the last that registered, until a call picks it or any note of the cluster leaves |
| SlotLaws.SlotHeldExactly | brief.go:285-383 | in every interleaving a note's slot is held from its start until it has left |
| Slots.RunningMeansOneNote | brief.go:285-383 | in every interleaving a brief is running exactly while one note of its cluster is before its closing section, and that note holds a slot |
| Slots.StoppableEndsExactly | brief.go:222-251 | how a running note stops being stoppable |
| Slots.RunningNoteCannotBeStopped | brief.go:323-326 | a run that leaves a running note with no way to stop it |
| Slots.StopMarksAnotherExactly | brief.go:237-251 | in every interleaving a stop marks a note other than the one picked exactly when the picked one is past its closing section and a note of the cluster, then a later one, is being written |
| Slots.DiscardedExactly | brief.go:359-369 | in every interleaving a note closes as preempted exactly when a stop of its cluster came between its taking a slot and its closing |
| Slots.WrittenNoteIsThrownAway | brief.go:237-251 | a run in which a note nobody stopped is written to its end and discarded as preempted |

## Left out

- ClusterProblem: does not model the row's title, its list of objects or its namespaces, which are formatted text.
- GroupProblem: does not model the formatted fields of a row (members, since, links to open) nor the cut of its message to 240 characters.
- MakePattern: keeps the explanation as its case and numbers, without the formatted local times.
- FitEvidence: takes the lines worth reading (`readableLogLines`), the error pattern and the character classes as parameters; the classes are required to be right on ASCII only.
- TokenCount: models the weights in hundredths; the program adds them up in floating point.
- OnePageOfEvents: assumes distinct row keys, as the key omits the kind, and that time, namespace and name tell cluster-scoped warnings apart, as the API guarantees.
- MergeEvents: assumes unique non-empty names on each side, as the API gives; the counts are not limited to 64 bits.
- BuildFamilies: trees are values, not linked members; the sorted list of kinds and the columns of single objects are not built, and distinct kind and name are assumed, as the caller groups by them.
- RecordAnswer: takes the parent that the answer's owner references name as given; which reference is chosen is not modelled.
- RenderLinked: an item's lines are a value; that the slices under them are not shared is not modelled.
- OnePageOfEventsExactly: that Go can visit its maps in every order is taken from the language.
- ListLikeAPIServer: serves the same objects to every page, as the replay does; converting an API event to a summary is the identity.
- ReadAll: logs of other goroutines may come between its lines; `TunnelOutput.Log` covers them.
- NoWastedLookups: keys are triples, so names containing a slash, which Kubernetes forbids, cannot collide.
- A tunnel renamed over HTTP: its run is dropped without being stopped; the theorems are about one run. Messages, exit codes and process ids are not part of the state, and a timer may fire at any time after it was armed: how long it waits is what `RecordExit` returns.
- A bound of 200 on the owner queue: the two front inserts skip it.
- The conditions under which a note is due (debounce, settling, retry times): `Slots.NoteSee` may happen whenever the brief is not running.
- EveryNamespaceOnce: is about a fixed list of distinct, non-empty names and a clock that moves between ticks; the list is read again every five minutes, and entries are never dropped. Whether the feed is due is an input of the tick.
- HTTP handlers, pages, JSON, Kubernetes clients, the model's transport, the replay's clock shifting and the bench scoring: plumbing.
- Which objects the link rules follow, and `describe`: tables of cases over API objects.
