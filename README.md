# plugah in Dafny

A model of the planning-to-execution pipeline of **plugah**, a library that turns a problem
statement and a dollar budget into an organisation of AI agents (a board room of CEO, CTO and
CFO, then VPs, directors, managers and individual contributors), a graph of tasks assigned to
them, and a budget-gated execution of those tasks. Money, ratios and attainments are Dafny
`real`s; the language model, uuids, clocks and environment variables are parameters.

One Dafny module per source file:

| module | file | flavour |
|---|---|---|
| `OagSchema` | `plugah/oag_schema.py` | the organisational agent graph (`Oag` class: node dict in insertion order, edge list) and its records |
| `Budget` | `plugah/budget.py` | the `BudgetManager` ledger (class), alert levels, cost estimation, the CFO's decisions |
| `TaskGraph`, `Execution` | `plugah/executor.py` | the task-only dependency graph, a deterministic topological order, waves; the `Executor` class with its parallel rounds, sequential and wave modes |
| `Metrics` | `plugah/metrics.py` | attainment formulas, health score, critical metrics, rollups; the `MetricsEngine` class |
| `Planning` | `plugah/planner.py` | `Planner.plan`, building the graph node by node through `add_node`/`add_edge` |
| `Selection` | `plugah/selector.py` | staffing tables, role costs, specialization, tool and model selection |
| `Registry` | `plugah/registry.py` | the tool registry tables, `ToolSelector` and domain specializations |
| `Materialize` | `plugah/materialize.py` | description, goal and backstory builders, agent and task resolution, task ordering |
| `Orchestration` | `plugah/orchestrator.py` | the `BoardRoom` facade: four phases, events, saved state |
| `Types` | `plugah/types.py` | the error family, `ExecutionResult`, `PRD`, `Event` |
| `CoreModels`, `CorePlanning`, `CoreRunning`, `CoreDiscovery`, `CorePrdEngine` | `plugah/core/*.py` | the lightweight flows: org plan, local task runner, discovery questions, PRD |
| `Caching` | `plugah/cache.py` | the TTL file cache over an in-memory store |
| `Adapters` | `plugah/adapters/base.py` | the adapter registry and the dry-run switch |
| `OrgCharts` | `web/backend/routes_status.py` | `build_org_chart` |
| `Sessions` | `web/backend/deps.py` | the in-memory session table |
| `Wrappers`, `Json`, `Strs`, `Seqs` | — | `Option`/`Result`, JSON values and dictionaries, ASCII string helpers, sequence helpers |

Where the source updates objects in place (`Oag`, `BudgetManager`, `Executor`,
`MetricsEngine`, `BoardRoom`, `LocalTaskRunner`, `CacheManager`, `ToolRegistry`, the session
store) the model is a class whose methods state their whole new state, usually through a
specification function on the old state; loops become `while`/`for` loops with invariants.
Pure code is functions and lemmas.

## Model

| member | source | states |
|---|---|---|
| Adapters.Lookup | plugah/adapters/base.py:29-30 | the adapter registered under the name, and none exactly when the name is unregistered |
| Adapters.ToolRegistry.Register | plugah/adapters/base.py:26-27 | the name now maps to the adapter, replacing any earlier one; every other name keeps its adapter; the key set gains only the name |
| Adapters.ToolRegistry.Get | plugah/adapters/base.py:29-30 | the lookup on the registry's current table |
| Adapters.ToolRegistry.Default | plugah/adapters/base.py:32-40 | a fresh registry holding exactly the GitHub issues and Google Drive documents adapters |
| Adapters.DryRunIgnoresCase | plugah/adapters/base.py:42-44 | upper- and lower-case spellings of `DRY_RUN` decide dry-run mode alike |
| Adapters.DryRunUnset | plugah/adapters/base.py:42-44 | an unset `DRY_RUN` means dry-run mode is off |
| CoreRunning.LocalTaskRunner.constructor | plugah/core/runner.py:12-15 | the given registry, or a fresh default one with the two adapters; nothing spent, nothing published |
| CoreRunning.LocalTaskRunner.Run | plugah/core/runner.py:24-67 | publishes exactly the run's event sequence; the artifacts are those of the tasklets in order; the running total grows by 0.01 per tasklet routed to a registered adapter and is returned as the cost |
| CoreRunning.LocalTaskRunner.HireAll | plugah/core/runner.py:27-28 | one hire event per C-suite role and IC, in order; nothing spent |
| CoreRunning.LocalTaskRunner.RunTasklets | plugah/core/runner.py:32-64 | a started/done pair per tasklet in list order; artifacts and spend as the specification functions over the tasklets |
| CoreRunning.LocalTaskRunner.RunTasklet | plugah/core/runner.py:33-64 | started then done event; an issue/GitHub title goes to the issues adapter, else a doc/summary title to the documents adapter, else a simulated note under the bare id; a routed tasklet with no registered adapter writes and spends nothing |
| CoreRunning.SpendCount | plugah/core/runner.py:46-56 | at most one spend per tasklet |
| CoreRunning.RunEventsOrder | plugah/core/runner.py:24-66 | the phase change first, one hire per C-suite role and IC (no VP), then each tasklet's started event immediately followed by its done event, the finish last |
| CoreRunning.ArtifactKeys | plugah/core/runner.py:31-60 | a key is in the artifacts exactly when some tasklet that writes (unrouted, or with a registered adapter) has that key |
| CoreRunning.ArtifactValue | plugah/core/runner.py:31-60 | a tasklet's artifact is the stored value unless a later tasklet writes the same key |
| CoreDiscovery.SlackMatchIsPattern | plugah/core/discovery.py:7 | scanning the whole whitespace run after "slack" finds exactly the matches of `slack\s+summarizer` |
| CoreDiscovery.SeededQuestionsFor | plugah/core/discovery.py:14-24 | the six seeded questions when the problem matches the pattern, none otherwise |
| CoreDiscovery.SplitLines | plugah/core/discovery.py:44 | `splitlines`: empty text and only empty text gives no lines |
| CoreDiscovery.SplitLinesJoin | plugah/core/discovery.py:44 | text broken only by "\n" and not ending in one rejoins to itself from its lines |
| CoreDiscovery.StripBullet | plugah/core/discovery.py:44 | the bullet substitution only ever removes a prefix of the line |
| CoreDiscovery.CleanLines | plugah/core/discovery.py:44 | one cleaned line per line, position by position |
| CoreDiscovery.KeepQuestions | plugah/core/discovery.py:45 | only non-empty lines ending in "?" are kept, no more lines than given |
| CoreDiscovery.KeepQuestionsMembers | plugah/core/discovery.py:45 | a line is kept exactly when it is a line of the input and a question |
| CoreDiscovery.KeepQuestionsConcat | plugah/core/discovery.py:45 | the filter keeps text order: it distributes over concatenation |
| CoreDiscovery.GenerateQuestions | plugah/core/discovery.py:26-51 | between one and six questions: the seeded ones on a match; the defaults for an empty reply or one with no question line; otherwise the first six question lines of the reply in order |
| CoreDiscovery.SeededIgnoresReply | plugah/core/discovery.py:27-29 | on a seeded problem the model's reply plays no part |
| CoreDiscovery.ReturnedFromReply | plugah/core/discovery.py:44-46 | every question taken from a reply is a cleaned line of it ending in "?" |
| CorePrdEngine.PrdTitle | plugah/core/prd.py:42 | at most 64 characters, a prefix of the stripped problem (or "Project"), the whole of it when it fits |
| CorePrdEngine.TitleNonEmpty | plugah/core/prd.py:42 | a problem with a non-whitespace character gets a non-empty title |
| CorePrdEngine.CreatePrd | plugah/core/prd.py:18-59 | id and title as given/derived; stripped reply as summary, or "PRD for <title>" without one; first answer (or "General users") as users; the seeded workplan exactly on a pattern match; the fixed lists |
| CorePrdEngine.WorkplansDiffer | plugah/core/prd.py:22-29 | the seeded and the default workplans differ |
| CorePrdEngine.SeededPrdAgreesWithDiscovery | plugah/core/prd.py:22-29 | the PRD takes the seeded workplan exactly when discovery asks the seeded questions |
| CorePrdEngine.ReplyOnlyShapesSummary | plugah/core/prd.py:43 | two replies give PRDs that differ at most in the summary |
| CorePlanning.IcCount | plugah/core/planner.py:19-23 | two ICs when cheap, four when fast, three when balanced |
| CorePlanning.IcCountOrdered | plugah/core/planner.py:18-23 | cheap hires strictly fewer ICs than balanced, balanced fewer than fast |
| CorePlanning.NumberedIcs | plugah/core/planner.py:34-35 | `n` ICs, the i-th named `IC-(i+1)` |
| CorePlanning.NumberedTasklets | plugah/core/planner.py:34-36 | `n` tasklets, the i-th `task-(i+1)` assigned to `IC-(i+1)` |
| CorePlanning.Plan | plugah/core/planner.py:7-38 | three C-suite roles and no VPs; the lean seeded organisation when the problem mentions both words; otherwise `IcCount(policy)` ICs and tasklets, tasklet i assigned to IC i |
| CorePlanning.TaskletRolesNameIcs | plugah/core/planner.py:26-36 | every tasklet is assigned to one of the planned ICs |
| CorePlanning.NumberedNamesDistinct | plugah/core/planner.py:34-36 | outside the seed, IC names and tasklet ids are pairwise distinct |
| Sessions.NewSession | web/backend/deps.py:32-44 | every `SessionData` field, the fresh id, both time stamps `now`, state "initialized" |
| Sessions.ApplyKwargsFields | web/backend/deps.py:63-65 | each field ends with the last keyword value given for it, or keeps its value; no key is added |
| Sessions.UpdatedFields | web/backend/deps.py:59-67 | the refreshed time stamp wins over any `updated_at` keyword; the other fields follow the keywords; the session keeps exactly its fields |
| Sessions.SessionStore.Get | web/backend/deps.py:47-49 | the stored session, none exactly for an unknown id |
| Sessions.SessionStore.Create | web/backend/deps.py:52-56 | the new session is stored under its fresh id; no other session changes |
| Sessions.SessionStore.Update | web/backend/deps.py:59-67 | an unknown id gives none and changes nothing; a stored one becomes the updated session; other sessions never change |
| Sessions.SessionStore.Delete | web/backend/deps.py:70-75 | true exactly when the id was stored; afterwards it is gone; other sessions unchanged |
| Caching.Ttl | plugah/cache.py:21-27 | the configured time-to-live of a known category, 900 seconds for any other; always between 300 and 3600 |
| Caching.FileName | plugah/cache.py:36-38 | the key followed by ".cache" |
| Caching.Fetch | plugah/cache.py:40-64 | a value exactly when the file exists, loads and is not older than the time-to-live; then the stored value |
| Caching.AfterFetch | plugah/cache.py:45-64 | only the looked-up file can disappear, and it does exactly when the lookup yields nothing |
| Caching.AfterStore | plugah/cache.py:66-83 | a written record replaces the file; a failed dump leaves a file that will not load; a failed open changes nothing; other files are untouched |
| Caching.KeptFiles | plugah/cache.py:85-93 | the files left by `clear` are exactly the unselected ones, unchanged |
| Caching.ClearAll | plugah/cache.py:89 | with no category or an empty one, `clear` empties the directory and counts every file |
| Caching.ClearPartition | plugah/cache.py:85-93 | every file is either deleted and counted or kept |
| Caching.GroupCountsAdd | plugah/cache.py:103-112 | one more file adds one to its own group's count and changes no other group |
| Caching.GroupCountsCover | plugah/cache.py:107-111 | every file's group is present with a count of at least one |
| Caching.CountGroups | plugah/cache.py:103-112 | the loop counts every file once in the total and once in its group |
| Caching.CacheManager.CacheKey | plugah/cache.py:29-34 | the category, "_" and at most 16 digest characters |
| Caching.CacheManager.Get | plugah/cache.py:40-64 | returns the fetched value and leaves the directory as the fetch does |
| Caching.CacheManager.Set | plugah/cache.py:66-83 | the directory after storing the record stamped `now`, by write outcome |
| Caching.CacheManager.Clear | plugah/cache.py:85-93 | exactly the selected files are deleted, the others kept unchanged, and the count is the number deleted |
| Caching.CacheManager.GetStats | plugah/cache.py:95-114 | the number of files, and per category the number of files written under it |
| Caching.CacheManager.ClearTakesCategory | plugah/cache.py:85-93 | every entry stored under a category is deleted by `clear` of that category |
| Caching.CacheManager.CategoryOfKey | plugah/cache.py:34 | a file written under a category is grouped under that very category |
| Caching.CacheManager.AsWrittenGroupsByFirstWord | plugah/cache.py:108 | as written, a category with "_" inside is grouped under its first word |
| Caching.CacheManager.AsWrittenMergesToolCategories | plugah/cache.py:108 | as written, "tool_research" and "tool_code" entries both land in the group "tool" |
| Caching.SetThenGet | plugah/cache.py:40-83 | after a successful store, a lookup within the time-to-live returns the value and keeps the file |
| Caching.StaleIsDeleted | plugah/cache.py:54-57 | a stale file yields nothing and is deleted |
| OrgCharts.LevelOf | web/backend/routes_status.py:100 | `by_level[level]` succeeds exactly for the five level names; any other hashable value is a `KeyError`, a list or dictionary a `TypeError` |
| OrgCharts.LevelNameRoundTrip | web/backend/routes_status.py:79-85 | every level's key reads back as that level |
| OrgCharts.Size | web/backend/routes_status.py:96-98 | `len` is defined exactly for strings, lists and dictionaries |
| OrgCharts.FieldSize | web/backend/routes_status.py:96-98 | the length of a list field, an absent field counting as empty; fails exactly when the value has no length |
| OrgCharts.AgentEntry | web/backend/routes_status.py:90-99 | the agent's info copies its id, role, specialization and manager; it succeeds exactly when the three lengths and the level all do; the level defaults to "IC" |
| OrgCharts.MissingLevelIsIC | web/backend/routes_status.py:90 | an agent node without a level is filed as an IC |
| OrgCharts.ByLevel.With | web/backend/routes_status.py:100 | appending to one level's list leaves the other four lists unchanged |
| OrgCharts.AgentCount | web/backend/routes_status.py:191 | the number of agent nodes is at most the number of nodes |
| OrgCharts.GroupedFails | web/backend/routes_status.py:88-100 | grouping fails exactly when some agent node's entry fails |
| OrgCharts.GroupedCountsAgents | web/backend/routes_status.py:88-100 | after grouping, the five lists together hold exactly as many entries as there are agent nodes |
| OrgCharts.GroupedPlacesAgent | web/backend/routes_status.py:88-100 | every agent node's info is in the list of its own level |
| OrgCharts.GroupAgents | web/backend/routes_status.py:88-100 | the grouping loop computes the grouping specification |
| OrgCharts.GroupedStopsAtError | web/backend/routes_status.py:88-100 | once a prefix of the nodes fails, the later nodes make no difference |
| OrgCharts.IcLabel | web/backend/routes_status.py:165 | an IC is labelled with its specialization when that is truthy, else with its role |
| OrgCharts.NodeOf | web/backend/routes_status.py:133-167 | an agent's chart node carries the agent as its data; only an IC node has no children |
| OrgCharts.Under | web/backend/routes_status.py:141-142 | the nodes nested under a parent are no more than the candidates |
| OrgCharts.UnderMembers | web/backend/routes_status.py:141-168 | a node is nested under a parent exactly when it is the node of a candidate whose `manager_id` is the parent's id |
| OrgCharts.UnderIsKeepMap | web/backend/routes_status.py:141-168 | nesting is "keep those reporting to the parent, build each one's node", in list order |
| OrgCharts.KeepMapMembers | web/backend/routes_status.py:141-168 | the members of a filtered-and-mapped list are the images of the kept elements |
| OrgCharts.BoardNodes | web/backend/routes_status.py:113-120 | one board-room leaf per C-suite agent, in order, named by its role |
| OrgCharts.Departments | web/backend/routes_status.py:132-174 | one department per VP, in order, whatever the VP's manager |
| OrgCharts.Tree | web/backend/routes_status.py:103-176 | the root's first child is the board room; there is a second child, the departments, exactly when there is a VP |
| OrgCharts.BoardRoomIsCSuite | web/backend/routes_status.py:110-122 | the board room's children are exactly the C-suite agents, in order |
| OrgCharts.BuildNode | web/backend/routes_status.py:133-167 | building one agent's subtree computes its specified node |
| OrgCharts.BuildUnder | web/backend/routes_status.py:141-168 | the nesting loop computes the specified nested nodes |
| OrgCharts.BuildBoardRoom | web/backend/routes_status.py:113-120 | the board-room comprehension computes the specified leaves |
| OrgCharts.DepartmentsStep | web/backend/routes_status.py:174 | one more VP appends its department after the earlier ones |
| OrgCharts.BuildDepartments | web/backend/routes_status.py:132-174 | the department loop computes the specified departments |
| OrgCharts.BuildTree | web/backend/routes_status.py:103-176 | building the tree computes the specified tree |
| OrgCharts.TaskStatuses | web/backend/routes_status.py:179-186 | there is at most one status per node |
| OrgCharts.Bump | web/backend/routes_status.py:187 | counting one status adds at most one key |
| OrgCharts.BumpSum | web/backend/routes_status.py:187 | counting one status raises the sum of the counts by one |
| OrgCharts.BumpCount | web/backend/routes_status.py:187 | counting one status raises its own count by one and no other |
| OrgCharts.TallySumsToTotal | web/backend/routes_status.py:180-187 | the status counts add up to `total` |
| OrgCharts.TallyCounts | web/backend/routes_status.py:185-187 | each status is counted exactly as often as it occurs among the tasks |
| OrgCharts.TallyFails | web/backend/routes_status.py:185-187 | counting fails exactly when some status is unhashable |
| OrgCharts.TallyStatuses | web/backend/routes_status.py:185-187 | the counting loop computes the tally specification |
| OrgCharts.TallyStopsAtError | web/backend/routes_status.py:185-187 | once a prefix of the statuses fails, the later statuses make no difference |
| OrgCharts.BuildOrgChart | web/backend/routes_status.py:73-193 | succeeds exactly when every agent node groups and every task status is hashable; fails with the first bad agent's error, then with the first unhashable status's error; otherwise returns the tree of the grouped agents, the agent count and the task summary |
| Budget.AlertLevel | plugah/budget.py:79-94 | the five levels, each stated as the exact band of spending it covers: EMERGENCY at 90% of the hard cap is checked first, then the soft cap, 90% and 70% of it |
| Budget.AlertLevelMonotone | plugah/budget.py:79-94 | with non-negative caps, spending more never lowers the alert level |
| Budget.AlertLevelThresholds | plugah/budget.py:85-94 | with soft cap 80 and hard cap 100: 0 is NORMAL, 56 WARNING, 72 CRITICAL, 81 EXCEEDED_SOFT, 90 EMERGENCY |
| Budget.Recommendations | plugah/budget.py:115-149 | no advice exactly at NORMAL; three items at WARNING, four at every worse level |
| Budget.NearHardCapIsEmergency | plugah/budget.py:75-86 | being near the hard cap (default threshold) is exactly the EMERGENCY level |
| Budget.AffordableImpliesProceed | plugah/budget.py:59-69 | a task of positive cost that can be afforded leaves room to proceed, and the remaining budget covers it |
| Budget.ForecastCompletionCost | plugah/budget.py:151-155 | with non-negative remaining tasks and average cost, the forecast is at least what has been spent |
| Budget.SuggestModelTier | plugah/budget.py:162-178 | economy at EMERGENCY or EXCEEDED_SOFT, standard at CRITICAL, otherwise chosen by the policy; always one of the three tiers |
| Budget.OverSoftCapSuggestsEconomy | plugah/budget.py:162-168 | at or over the soft cap the suggestion is economy whatever the policy |
| Budget.LedgerStaysUnderHardCap | plugah/budget.py:36-41 | from a total within the hard cap, any run of non-negative spends keeps the total within the cap and never lowers it |
| Budget.LedgerRefusesOverCap | plugah/budget.py:36-41 | with hard cap 100: 10 then 20 gives 30; 95 then 10 stays at 95 |
| Budget.CheckAlerts | plugah/budget.py:96-113 | one alert, at the new level and the new total, exactly when the level is not NORMAL |
| Budget.Spend | plugah/budget.py:28-53 | a spend past the hard cap changes nothing but one EMERGENCY alert; otherwise the total grows by the amount, is mirrored into `actual_cost_usd`, one history entry with total and remaining is appended, and the new level's alert if any |
| Budget.SpendEachSpent | plugah/budget.py:28-53 | the total after a run of `record_spend` calls is the ledger total, and the caps never change |
| Budget.SpendEachAppend | plugah/budget.py:28-53 | a run of spends followed by one more is that spend applied to the run's result |
| Budget.BudgetManager.constructor | plugah/budget.py:22-26 | a new manager has spent nothing and empty history and alerts |
| Budget.BudgetManager.RecordSpend | plugah/budget.py:28-53 | returns true exactly when the spend fits under the hard cap; the new state is `Spend` of the old one |
| Budget.BudgetManager.Restore | plugah/orchestrator.py:449-451 | sets spent and alerts, nothing else, without any cap check |
| Budget.ModelCost | plugah/budget.py:185-189 | the per-1k price of the three listed models, 0.002 for any other; always positive |
| Budget.TokensByLevel | plugah/budget.py:192-199 | the per-level token table; every entry lies between 500 and 2000 |
| Budget.EstimateTaskCost | plugah/budget.py:201-216 | tokens/1000 x price x interactions is non-negative, and positive for a positive number of interactions |
| Budget.EstimateLinear | plugah/budget.py:214 | the estimate is linear in the number of interactions |
| Budget.CSuiteCostsMoreThanIc | plugah/budget.py:185-199 | a C-suite interaction on the premium model costs more than an IC's on the default model |
| Budget.EvaluateSpendRequest | plugah/budget.py:262-300 | never approves an unaffordable amount; at EMERGENCY only "critical", at EXCEEDED_SOFT only "critical"/"high", at CRITICAL anything but "low", below that everything; recommendations only on refusal; remaining budget is hard cap minus spent |
| Budget.ApprovedIsAffordable | plugah/budget.py:270-290 | an approved amount can be recorded without passing the hard cap |
| Budget.CriticalApprovedIffAffordable | plugah/budget.py:277-290 | a "critical" request is approved exactly when it is affordable |
| Budget.ApprovalNearSoftCap | plugah/budget.py:262-300 | with soft cap 50 and hard cap 100: "medium" approved at 0; at 46 "low" refused and "high" approved |
| Budget.GenerateBudgetPatch | plugah/budget.py:302-322 | no patch exactly at NORMAL; switch to the conservative policy at CRITICAL or worse; a forecast of 1.2 x spent at WARNING |
| TaskGraph.Preds | plugah/executor.py:193 | the predecessors of a node are exactly the sources of its incoming edges |
| TaskGraph.BuildExecutionGraph | plugah/executor.py:116-130 | one node per task, in task order; an edge for exactly the OAG edges whose two ends are both tasks |
| TaskGraph.BuiltGraphWellFormed | plugah/executor.py:116-130 | the built graph has distinct nodes and only edges between them |
| TaskGraph.TopoSortPermutation | plugah/executor.py:137 | the topological order, when there is one, holds each node exactly as often as the graph does |
| TaskGraph.TopoSortOrdered | plugah/executor.py:137 | in the topological order no edge points backwards |
| TaskGraph.TopoSortNoEdges | plugah/executor.py:137 | without edges the order is the nodes' own order |
| TaskGraph.NoFreeNodeNoOrder | plugah/executor.py:137 | when every node waits on another, there is no topological order |
| TaskGraph.OrderOrFallback | plugah/executor.py:136-140 | the topological order when there is one, else the fallback order (the handler's evident intent) |
| TaskGraph.OrderAsWritten | plugah/executor.py:136-140 | as written: fails exactly when the graph has no topological order, otherwise agrees with the intended order |
| TaskGraph.CycleEscapesHandler | plugah/executor.py:136-140 | two nodes depending on each other: as written the sort raises past the handler, while the intended fallback gives the nodes' own order |
| TaskGraph.OrderIsPermutation | plugah/executor.py:136-142 | the visiting order is a permutation of the graph's nodes, and a dependency order whenever one exists |
| TaskGraph.Without | plugah/executor.py:448 | `remaining -= set(wave)`: exactly the remaining nodes outside the wave; strictly shorter when the wave takes one |
| TaskGraph.FreeNodes | plugah/executor.py:437-441 | the wave holds exactly the remaining nodes with no predecessor among the remaining ones |
| TaskGraph.WaveIndex | plugah/executor.py:429-450 | the index of the wave holding a node, -1 when none does |
| TaskGraph.StuckIsCycle | plugah/executor.py:443-445 | when no remaining node is free, every remaining node has a predecessor among them |
| TaskGraph.AddWaveCovers | plugah/executor.py:435-448 | adding a wave keeps every node either remaining or in exactly one wave |
| TaskGraph.AddWaveLayered | plugah/executor.py:435-448 | adding a wave keeps every node's predecessors in earlier waves, except in a final cycle wave |
| TaskGraph.NextWave | plugah/executor.py:435-448 | one round of the loop keeps the wave invariant and shrinks what remains |
| TaskGraph.WavesDone | plugah/executor.py:450 | once nothing remains, the invariant gives the partition and the ordering of the waves |
| TaskGraph.CalculateWaves | plugah/executor.py:429-450 | the waves are non-empty, duplicate-free and partition the nodes; every node's predecessors lie in earlier waves, except that a final wave may be a cycle in which every node waits on another |
| Execution.RunResult | plugah/executor.py:236-301 | DONE at the estimated cost with the mock output exactly when the backend does not raise; otherwise FAILED at cost 0 with the error text |
| Execution.SpecAfterRun | plugah/executor.py:264-287 | the spec becomes DONE with the sample artifacts and its actual cost set to the estimate, or only FAILED when the backend raised |
| Execution.RunCost | plugah/executor.py:253 | one spend, the estimate, exactly when the backend did not raise |
| Execution.DependenciesStaySatisfied | plugah/executor.py:187-199 | adding results never un-satisfies a task's dependencies |
| Execution.Outcome | plugah/executor.py:209-222 | a closed budget gate stores the "Budget exceeded" failure; an open one stores the run's result |
| Execution.NodesAfter | plugah/executor.py:201-301 | a task's turn never adds, removes or changes the kind of a node |
| Execution.LedgerAfter | plugah/executor.py:209-222 | a task turned away by the budget gate records no spend |
| Execution.RoundResults | plugah/executor.py:176-181 | a gathered round adds a result for exactly the ready tasks |
| Execution.RoundNodes | plugah/executor.py:176-181 | a round changes only the ready tasks' specs, and keeps every node's id and kind |
| Execution.CountStatusIsCardinality | plugah/executor.py:369-376 | over results without repeats, the count for a status is the number of results that have that status |
| Execution.ProgressOf | plugah/executor.py:365-386 | completed and failed are the DONE and FAILED counts, in progress is total minus both, the rate is completed over total times 100 (0 without tasks), the total cost is the sum of the result costs and the remaining budget is passed through |
| Execution.CountDisjoint | plugah/executor.py:369-376 | completed and failed results together are at most all results |
| Execution.AllDoneCounted | plugah/executor.py:369-376 | when every result is DONE, all are completed and none failed |
| Execution.AllDoneIsComplete | plugah/executor.py:378-383 | one DONE result per task: nothing in progress and a completion rate of 100 |
| Execution.PredsBefore | plugah/executor.py:137-157 | in a dependency order, every predecessor of a task comes before it |
| Execution.NotSatisfiedStays | plugah/executor.py:146-154 | a task blocked by a predecessor's non-DONE result stays blocked as results are added |
| Execution.WaveMembers | plugah/executor.py:405-420 | the members of a wave are exactly the nodes whose wave index is that wave |
| Execution.SequentialStep | plugah/executor.py:142-157 | one step of the sequential loop keeps its invariant: every task that ran had its dependencies met, and in dependency order every skipped task is still blocked |
| Execution.Executor.constructor | plugah/executor.py:54-68 | no results; the given budget manager, or a new one over the OAG's budget with nothing spent |
| Execution.Executor.RunTask | plugah/executor.py:201-301 | a non-task id changes nothing; otherwise exactly one result is stored, the spec and the ledger change as the gate and the outcome say, and no node changes kind |
| Execution.Executor.Run | plugah/executor.py:236-301 | the run's result, the updated spec, and the budget after the run's spend, mirrored into the OAG's budget |
| Execution.Executor.Store | plugah/executor.py:301 | stores the result under its task id, recording a new key at the end of the insertion order |
| Execution.Executor.ReadyTasks | plugah/executor.py:166-169 | exactly the remaining tasks whose dependencies are met, without repetition |
| Execution.Executor.ExecuteRound | plugah/executor.py:176-181 | every ready task meets the budget gate as it stood at the start of the round; then the outcomes are applied in order: results, specs and the ledger's spends |
| Execution.Executor.GatherOne | plugah/executor.py:176-181 | one more task's turn extends the state the round has reached so far |
| Execution.TurnAfter | plugah/executor.py:142-157 | one task's turn: a non-task id changes nothing; with dependencies unmet the task is SKIPPED with "Dependencies not satisfied" and nothing else changes; otherwise the task runs behind the gate; the state changes only when the dependencies are met and the gate is open, and exactly the task gains a result |
| Execution.VisitAfter | plugah/executor.py:142-157 | visiting an order task by task never adds, removes or changes the kind of a node |
| Execution.VisitAfterKeys | plugah/executor.py:142-157 | after visiting an order, the results hold the earlier keys plus exactly the task ids of the order |
| Execution.ClosedVisitChangesNothing | plugah/executor.py:209-222 | a visit that starts with the budget gate closed changes no spec and records no spend |
| Execution.RoundAfter | plugah/executor.py:175-181 | one gathered round: the results gain exactly the round's tasks, and no other key |
| Execution.ParallelRoundsStep | plugah/executor.py:164-185 | appending a ready round and the state it leads to extends the chain of parallel rounds |
| Execution.RoundsResultsKeys | plugah/executor.py:164-185 | after n rounds, a task has a result exactly when it had one at the start or belongs to one of the first n rounds |
| Execution.RoundsDisjoint | plugah/executor.py:164-185 | no task runs in two rounds |
| Execution.Executor.GatherReady | plugah/executor.py:175-185 | runs one ready round and extends the chain of rounds by it; a task then has a result exactly when it had one or was ready, and every result still has its dependencies met |
| Execution.Executor.ExecuteParallel | plugah/executor.py:159-185 | the rounds it runs are exactly the ready sets in turn: each round is the non-empty set of tasks without a result whose dependencies are met, run from the state the round before it left (`RoundAfter`: results, specs and spends); it stops when no remaining task is ready, and the final results, node map and ledger are those of the last round |
| Execution.Executor.RunIfSatisfied | plugah/executor.py:142-157 | adds exactly one result for the task, leaving other results alone; SKIPPED with "Dependencies not satisfied" exactly when its dependencies are not met; the new results, node map and ledger are `TurnAfter` of the old ones |
| Execution.Executor.ExecuteSequential | plugah/executor.py:132-157 | visits the dependency order, or on a cyclic graph the intended fallback of the graph's own node order (`OrderOrFallback`; as written the error escapes, see Findings), and ends in `VisitAfter` of that order from the old node map and ledger with no results; every task gets exactly one result; a task that ran had its dependencies met; in a dependency order, a task is skipped exactly when they are not met |
| Execution.Executor.VisitInOrder | plugah/executor.py:142-157 | visiting the order gives a result to exactly the tasks of the order and keeps the sequential invariant |
| Execution.Executor.SequentialVisit | plugah/executor.py:142-157 | one visited task gets its result and the sequential invariant is kept |
| Execution.Executor.EachTurn | plugah/executor.py:418-420 | one task of a sequential wave meets the gate as the ledger stands now, gains its result, and the rest of the wave still ends in the same state |
| Execution.Executor.RunEach | plugah/executor.py:417-420 | the tasks of a wave run one by one, each behind the gate as the ledger stands at its turn; exactly they gain results, and the node map and ledger become `EachAfter` of the old ones |
| Execution.Executor.RunWave | plugah/executor.py:408-420 | a wave adds results for exactly its tasks, gathered or one by one, and leaves the node map and ledger `WaveAfter` the old ones |
| Execution.ClosedWaveChangesNothing | plugah/executor.py:408-420 | a wave that starts with the budget gate closed changes no spec and records no spend, gathered or one by one |
| Execution.Executor.RunWaveAt | plugah/executor.py:404-420 | wave k runs from the state the earlier waves left, extends the chain of wave states by one, and adds results for exactly its tasks |
| Execution.Executor.ExecuteInWaves | plugah/executor.py:392-427 | builds the task graph of the OAG (task ids as nodes, the edges between tasks); the waves partition the tasks; exactly the tasks of the waves run so far have results; the state after each wave run is `WaveAfter` of the state the wave before it left, starting from the old node map and ledger, and the final state is the last of them; at least one wave runs when there is one; `can_proceed` held on the state after every wave but the last one run, and execution stops before the end exactly after the first wave that leaves it false |
| Execution.Executor.Execute | plugah/executor.py:82-114 | builds the task graph (the task ids as nodes, an edge exactly for each OAG edge between two tasks); with the budget gate closed nothing changes and the result is empty; in parallel mode the run is `ParallelRun`: the chained ready rounds from the old node map and ledger, ending with no ready task left; in sequential mode it is `SequentialRun`: `VisitAfter` of the dependency order or its fallback; in parallel mode a task has a result exactly when its dependencies are met, in sequential mode every task has one |
| Execution.Executor.GetProgress | plugah/executor.py:365-386 | the total is the number of task nodes; completed and failed are the numbers of stored results with status DONE and FAILED; in progress is total minus both; the completion rate is completed over total times 100, 0 without tasks; the total cost sums the stored results; the remaining budget is the hard cap minus the spend |
| Materialize.IOLineOneBreak | plugah/materialize.py:238-239 | a contract entry without line breaks of its own yields exactly one line |
| Materialize.IOLinesCount | plugah/materialize.py:237-239 | one line per contract entry |
| Materialize.SectionCount | plugah/materialize.py:235-247 | a section is absent for an empty list, else its header line, one line per entry and a blank line |
| Materialize.DescriptionShape | plugah/materialize.py:230-251 | the description starts with the task's description and a blank line, ends with "Definition of Done: " and the definition, and has one line per input and output plus the section lines |
| Materialize.BuildSection | plugah/materialize.py:235-247 | the section loop builds the specified section |
| Materialize.BuildTaskDescription | plugah/materialize.py:230-251 | the string-building code builds the specified description |
| Materialize.FirstGoalLine | plugah/materialize.py:206-208 | the first line that mentions "responsibility" or "must" in any case; none exactly when no line does |
| Materialize.ExtractGoal | plugah/materialize.py:202-210 | the stripped first goal line, or "Achieve project objectives" when no line qualifies |
| Materialize.ExtractedGoalIsGoalLine | plugah/materialize.py:206-208 | when some line qualifies, the goal itself still mentions the keyword |
| Materialize.StripKeepsGoalLine | plugah/materialize.py:208 | stripping a goal line keeps its keyword |
| Materialize.Backstory | plugah/materialize.py:212-228 | starts with the level and role, mentions the specialization, OKR count and KPI count only when present, and always ends with the fixed closing sentence |
| Materialize.LevelTitleCSuite | plugah/materialize.py:215 | the C_SUITE level reads "C Suite" |
| Materialize.LevelTitleTwoLetters | plugah/materialize.py:215 | the two-letter levels read "Ic" and "Vp" |
| Materialize.LoadableTools | plugah/materialize.py:64-69 | exactly the referenced tools the registry knows, never more than the references |
| Materialize.LoadTools | plugah/materialize.py:64-69 | the tool loop computes the loadable tools |
| Materialize.AgentFor | plugah/materialize.py:59-110 | role line, goal, backstory, loadable tools, the agent's own model or the default, at most 5 iterations, delegation exactly for C_SUITE, VP and DIRECTOR, and the agent's own stripped prompt when non-empty |
| Materialize.MaterializeAgent | plugah/materialize.py:59-110 | builds the specified agent |
| Materialize.DefaultAgent | plugah/materialize.py:174-200 | a tool-less "Default Worker" on the default model, at most 3 iterations, not delegating |
| Materialize.TaskFor | plugah/materialize.py:112-130 | the built description, the expected output, the assigned agent and the output file under `.runs/<project>/<task>/` |
| Materialize.MaterializeTask | plugah/materialize.py:112-130 | builds the specified task |
| Materialize.Materialize | plugah/materialize.py:22-57 | one task per task node under its key; one agent per agent node, plus a default agent for every assigned agent id that names no agent |
| Materialize.AssignedAll | plugah/materialize.py:45-51 | over all task keys, "some listed task names the agent" means "some task node names it" |
| Materialize.MaterializeAgents | plugah/materialize.py:39-42 | an agent per agent node, under its key, built from its spec |
| Materialize.MaterializeTasks | plugah/materialize.py:45-55 | a task per task node, under its key; agents are the materialized ones plus a default for every other assigned id |
| Materialize.TasksOfStep | plugah/materialize.py:53-54 | one more task key adds its task |
| Materialize.WorkersOfStep | plugah/materialize.py:47-51 | one more task key gives its agent id the default agent unless it already has an agent |
| Materialize.KnownEdges | plugah/materialize.py:288-290 | exactly the edges between two known tasks |
| Materialize.KnownOnly | plugah/materialize.py:300 | the ordered ids that are known tasks, nothing else |
| Materialize.OrderTasksAsWritten | plugah/materialize.py:292-300 | as written: when the sort succeeds it agrees with the intended order |
| Materialize.OrderTasksPermutation | plugah/materialize.py:276-300 | every task exactly once; topological over the edges between known tasks when that is possible, else the tasks' own order |
| Materialize.MutualDependencyRaises | plugah/materialize.py:292-297 | two tasks depending on each other: as written the ordering raises, while the intended fallback gives the tasks' own order |
| Metrics.Attainment | plugah/metrics.py:76-83 | at most 100; GTE: 0 for a non-positive target, 100 once the target is met, below 100 under it; LTE: 100 for a non-positive current value or one within the target, below 100 above it; EQ: 100 exactly on the target, else 0 |
| Metrics.Cap | plugah/metrics.py:66 | `min(x, 100)`: at most 100 and at most x, and x itself when x is at most 100 |
| Metrics.CurrentValue | plugah/metrics.py:74 | the recorded value when there is one, else the metric's own current value |
| Metrics.KpiAttainment | plugah/metrics.py:71-83 | a KPI's attainment, from its recorded value, is at most 100 |
| Metrics.KrAttainment | plugah/metrics.py:55-66 | a key result's attainment, from its recorded value, is at most 100 |
| Metrics.KrTotalBound | plugah/metrics.py:54-67 | the total over n key results is at most 100 n |
| Metrics.OkrAttainment | plugah/metrics.py:48-69 | 0 without key results; otherwise the mean of the capped attainments, hence at most 100 |
| Metrics.AllKrsMetIsFull | plugah/metrics.py:54-67 | when every key result is fully attained, the total is 100 per key result |
| Metrics.OkrFullyAttained | plugah/metrics.py:48-69 | an OKR whose key results are all fully attained is 100% attained |
| Metrics.SumBounds | plugah/metrics.py:127-128 | a sum of values between lo and hi lies between n lo and n hi |
| Metrics.MeanBounds | plugah/metrics.py:127-128 | the mean of values between lo and hi lies between lo and hi |
| Metrics.OkrAttainments | plugah/metrics.py:96 | one attainment per OKR, in order |
| Metrics.KpiAttainments | plugah/metrics.py:97 | one attainment per KPI, in order |
| Metrics.AgentsOf | plugah/metrics.py:94 | only agents stored in the graph |
| Metrics.WeightedSumBounds | plugah/metrics.py:184-186 | with non-negative weights and scores between lo and hi, the weighted sum lies between lo and hi times the total weight |
| Metrics.WeightedScoreBounds | plugah/metrics.py:178-188 | with non-negative weights and scores between lo and hi (lo at most 0), the weighted score lies between lo and hi |
| Metrics.CalculateWeightedScore | plugah/metrics.py:178-188 | the accumulator loop computes the sum of score times weight over the sum of weights, 0 when the total weight is 0 |
| Metrics.BudgetHealth | plugah/metrics.py:153-163 | 100 with no spend, 0 above the hard cap, 50 above the soft cap, else between 50 and 100 (100 minus spend over soft cap times 50) |
| Metrics.DoneTasks | plugah/metrics.py:150 | exactly the tasks whose status is done |
| Metrics.TaskCompletion | plugah/metrics.py:149-151 | 0 without tasks; between 0 and 100; 100 exactly when every task is done |
| Metrics.HealthOf | plugah/metrics.py:135-176 | the OKR and KPI health are the means of all attainments, task and budget health as above |
| Metrics.OverallIsWeightedSum | plugah/metrics.py:166-171 | the weights add up to 1, so overall is 0.3 okr + 0.3 kpi + 0.2 task + 0.2 budget |
| Metrics.HealthInRange | plugah/metrics.py:135-176 | with attainments between 0 and 100, every health score lies between 0 and 100 |
| Metrics.CriticalKpis | plugah/metrics.py:196-208 | exactly the agent's KPIs whose attainment is below 50, with the agent's role as owner |
| Metrics.CriticalOkrs | plugah/metrics.py:210-220 | exactly the agent's OKRs whose attainment is below 50, with the agent's role as owner |
| Metrics.CriticalExactly | plugah/metrics.py:190-222 | every listed metric is below 50, and every KPI and OKR below 50 of every agent is listed |
| Metrics.AddToBucket | plugah/metrics.py:99-118 | an agent without attainments leaves the buckets alone; otherwise only its own key's lists grow, by its attainments |
| Metrics.Averages | plugah/metrics.py:120-131 | per key, the counts are the list lengths and the averages their means, 0 for an empty list |
| Metrics.Department | plugah/metrics.py:107 | a role without a space is its own department; the first word otherwise, and none when there is no word |
| Metrics.LevelCountsAgents | plugah/metrics.py:99-104 | a level's OKR count is the number of OKRs of the agents at that level |
| Metrics.BucketsCapped | plugah/metrics.py:94-118 | every bucket of every roll-up holds attainments of at most 100 |
| Metrics.RollupCapped | plugah/metrics.py:120-131 | every roll-up average is at most 100 |
| Metrics.MatchingKpis | plugah/metrics.py:37-40 | exactly the ids of the KPIs whose metric contains the name, case-insensitively |
| Metrics.MatchingKrs | plugah/metrics.py:43-46 | exactly the ids of the key results whose metric contains the name, case-insensitively |
| Metrics.Assign | plugah/metrics.py:19-25 | every matched id gets the value; all other entries stay; no other key appears |
| Metrics.ApplyStep | plugah/metrics.py:35-46 | one more reported metric applies its assignment on top of the earlier ones |
| Metrics.NoneStaysNone | plugah/metrics.py:94-118 | once a prefix of the agents fails to roll up, the whole roll-up fails |
| Metrics.MetricsEngine.constructor | plugah/metrics.py:13-17 | no recorded values |
| Metrics.MetricsEngine.UpdateKpi | plugah/metrics.py:19-21 | overwrites only the given KPI's value |
| Metrics.MetricsEngine.UpdateKeyResult | plugah/metrics.py:23-25 | overwrites only the given key result's value |
| Metrics.MetricsEngine.UpdateFromTask | plugah/metrics.py:27-46 | stores the output; without metrics nothing else changes; with metrics every KPI and key result whose metric contains a reported name gets its value, in reporting order |
| Metrics.MetricsEngine.CalculateOkrAttainment | plugah/metrics.py:48-69 | the accumulator loop computes the OKR's attainment |
| Metrics.MetricsEngine.CalculateHealthScore | plugah/metrics.py:135-176 | the health of all OKR and KPI attainments of the graph's agents, its tasks and its budget |
| Metrics.MetricsEngine.GetCriticalMetrics | plugah/metrics.py:190-222 | the per-agent critical lists in agent order; every entry is below 50 |
| Metrics.MetricsEngine.CalculateRollups | plugah/metrics.py:85-133 | fails exactly when some role has a space but no word; otherwise the averages of the level, department and manager buckets |
| OagSchema.ParsePolicy | plugah/oag_schema.py:42-45 | a policy string is accepted exactly when it is one of the three values, and reads back as itself |
| OagSchema.NewAgentSpec | plugah/oag_schema.py:121-133 | an agent built from id, role and level has no manager, specialization or model, an empty prompt, no tools, OKRs or KPIs, and is exclusive |
| OagSchema.NewContract | plugah/oag_schema.py:99-102 | a contract built without inputs and outputs has empty lists |
| OagSchema.NewTaskSpec | plugah/oag_schema.py:136-146 | a task built without a status is PLANNED, with no artifacts, no dependencies and zero costs |
| OagSchema.ValidateNodes | plugah/oag_schema.py:170-176 | succeeds exactly when every key equals its node's id; on failure some key differs from its node's id and the message names the first such pair |
| OagSchema.ValidateIffKeysMatch | plugah/oag_schema.py:170-176 | validation over the dict's keys succeeds exactly when every stored node sits under its own id |
| OagSchema.GetAgents | plugah/oag_schema.py:178-179 | exactly the agent nodes, each under its original key |
| OagSchema.GetTasks | plugah/oag_schema.py:181-182 | exactly the task nodes, each under its original key |
| OagSchema.AgentsTasksPartition | plugah/oag_schema.py:178-182 | agents and tasks are disjoint and together make up the whole node map |
| OagSchema.AgentOrder | plugah/oag_schema.py:178-179 | the agent keys in dict order |
| OagSchema.TaskOrder | plugah/oag_schema.py:181-182 | the task keys in dict order |
| OagSchema.GetNode | plugah/oag_schema.py:184-185 | none exactly when the id is not a key; otherwise the stored node |
| OagSchema.GetDependencies | plugah/oag_schema.py:193-198 | exactly the sources of the edges into the task, never more entries than edges |
| OagSchema.DependenciesAfterAddEdge | plugah/oag_schema.py:190-198 | appending an edge extends only its target's dependency list, at the end |
| OagSchema.DependenciesCountEdges | plugah/oag_schema.py:193-198 | duplicates are kept: the list is as long as the number of edges into the task |
| OagSchema.Oag.constructor | plugah/oag_schema.py:164-176 | a graph is built only from validated nodes, and holds them as given |
| OagSchema.Oag.AddNode | plugah/oag_schema.py:187-188 | stores the node under its id, replacing any node there; all other entries, the edges, meta and budget are unchanged; a new key goes at the end of the dict order |
| OagSchema.Oag.AddEdge | plugah/oag_schema.py:190-191 | appends the edge at the end with no endpoint or cycle check; nothing else changes |
| OagSchema.Oag.SetBudget | plugah/budget.py:41 | replaces the budget model and nothing else |
| Orchestration.StartupCheck | plugah/orchestrator.py:76-90 | startup is accepted exactly for a non-empty problem, a positive budget and a known policy (case-insensitive); otherwise an InvalidInput naming, in that order of precedence, the problem, the budget or the policy field |
| Orchestration.DiscoveryCheck | plugah/orchestrator.py:146-154 | discovery is accepted exactly for a non-empty answer list and a known policy; otherwise an InvalidInput naming the answers field first, then the policy |
| Orchestration.PlanCheck | plugah/orchestrator.py:236-244 | planning is accepted exactly when a PRD is given and the policy is known; otherwise an InvalidInput naming the PRD field first, then the policy |
| Orchestration.MockPrd | plugah/orchestrator.py:158-197 | the mock PRD carries the problem, the budget and the first answer as users ("General users" without answers), plus every fixed mock field |
| Orchestration.MockBudget | plugah/orchestrator.py:266-270 | the mock budget has the budget as hard cap, 80% of it as soft cap, a forecast of half of it and nothing spent, so forecast < soft cap < hard cap for a positive budget |
| Orchestration.MockGraphShape | plugah/orchestrator.py:273-290 | the mock graph is valid and holds exactly one C-suite agent "ceo" and one task "task_1" assigned to it |
| Orchestration.MockPlan | plugah/orchestrator.py:260-290 | the mock plan is a fresh valid graph with the project id, the PRD title, domain "general", the mock budget, the two mock nodes and no edges |
| Orchestration.RealPlan | plugah/orchestrator.py:292-295 | the planned graph is fresh and valid and carries everything the planner promises for the selector it is given: metadata from the PRD, the caps, the forecast and policy, the node dict in creation order and the chain of the six standard tasks |
| Orchestration.MockRun | plugah/orchestrator.py:344-353 | the mock run costs 0.1 and reports the number of tasks completed and the number of agents of the graph |
| Orchestration.MergedArtifactsKeys | plugah/orchestrator.py:369-372 | the collected artifacts hold a key exactly when some result's output artifacts hold it |
| Orchestration.MergedArtifactsLastWins | plugah/orchestrator.py:369-372 | a key held by a result's artifacts and by no later result's is collected with that result's value |
| Orchestration.PlanRequestDomain | plugah/planner.py:47 | the planner's domain is "general" for a missing key, none for a null one (which `OrgMeta.domain` accepts), and the string itself otherwise |
| Orchestration.StartupState | plugah/orchestrator.py:92-113 | startup adds the problem, budget, model hint, lower-cased policy and questions to the saved state and keeps every other entry |
| Orchestration.BoardRoom.constructor | plugah/orchestrator.py:40-55 | a new board room takes the given project id or a fresh one when none or an empty one is given, and starts with no state, events, PRD, graph or budget manager |
| Orchestration.BoardRoom.EmitEvent | plugah/orchestrator.py:508-510 | emitting appends the event and changes nothing else |
| Orchestration.BoardRoom.StartupPhase | plugah/orchestrator.py:57-123 | fails exactly as the startup check says, storing nothing and emitting nothing; otherwise returns the mock or discovered questions, records them in the state and appends one startup event |
| Orchestration.BoardRoom.ProcessDiscovery | plugah/orchestrator.py:125-215 | fails exactly as the discovery check says with no change; otherwise stores the answers and the mock or generated PRD, returns that PRD and appends one discovery event counting its objectives |
| Orchestration.BoardRoom.PlanOrganization | plugah/orchestrator.py:217-318 | fails exactly as the planning check says with no change; otherwise adopts the mock graph, or the graph planned with the default selector under the chosen policy, gives it a fresh budget manager with nothing spent, stores its dump in the state under "oag" and appends one planning event counting agents and tasks |
| Orchestration.BoardRoom.AdoptMockPlan | plugah/orchestrator.py:260-316 | in mock mode the board room adopts the mock graph with a fresh empty budget manager over its budget, its dump under "oag" in the state and one planning event |
| Orchestration.BoardRoom.AdoptRealPlan | plugah/orchestrator.py:292-316 | the board room adopts the graph the planner builds with the selector it is given, with a fresh empty budget manager over its budget, its dump under "oag" in the state and one planning event |
| Orchestration.BoardRoom.Adopt | plugah/orchestrator.py:298-316 | adopting a graph installs it with a fresh budget manager that has spent nothing, sets the state's "oag" entry to the graph's dump, keeps every other state entry and the PRD, and appends one planning event |
| Orchestration.BoardRoom.RunHeld | plugah/orchestrator.py:354-377 | a fresh executor over the held graph and manager runs in parallel as `ParallelRun` from the held nodes and ledger; the result carries the manager's spend, the merged artifacts, the metrics, the result count and the remaining budget |
| Orchestration.MockTitle | plugah/orchestrator.py:260-264 | the PRD's title when it is a string; "Mock Project" when it is absent or not a string |
| Orchestration.BoardRoom.Execute | plugah/orchestrator.py:320-393 | a given graph replaces the current one with a fresh budget manager; with no graph at all it fails with no event; in mock mode it returns the mock run and leaves the graph and manager alone; otherwise a fresh executor runs the held graph in parallel against the held manager as `ParallelRun` from the held graph's nodes and ledger (a given graph starts from a ledger with nothing spent), every task with a result has its dependencies met, and the result carries the manager's spend as total cost, the merged artifacts, the metrics, the result count and the remaining budget; one execution event carries the total cost |
| Orchestration.BoardRoom.EventsStream | plugah/orchestrator.py:495-503 | the stream yields exactly the recorded events, in order |
| Orchestration.BoardRoom.ToDict | plugah/orchestrator.py:395-421 | the saved form has the id, the state, every event in order, and the PRD, graph and budget sections exactly when those are present, the budget section holding spent, remaining and alerts |
| Orchestration.FromDict | plugah/orchestrator.py:423-453 | restoring fails exactly when the saved graph fails validation; otherwise it restores the id (or a fresh one), state and PRD, rebuilds the graph with a fresh budget manager and writes the saved spend and alerts into it unchecked; no events are restored |
| Orchestration.RestoreGraph | plugah/orchestrator.py:440-451 | the rebuilt graph dumps back to the saved form and its budget manager carries the saved spend and alerts, or none without a budget section |
| Orchestration.SaveRestore | plugah/orchestrator.py:395-453 | saving then restoring keeps the id, state, PRD, graph, spend and alerts, while the events and the spend history are lost |
| Types.NewError | plugah/types.py:8-31 | an error keeps its kind and message, takes empty details when none are given, and is caught both by a handler for its own kind and by one for the base class |
| Types.SubclassesDisjoint | plugah/types.py:16-31 | a handler for one of the three subclasses does not catch an error of another kind |
| Types.NewExecutionResult | plugah/types.py:37-47 | a result keeps its total cost, and each missing artifacts, metrics or details map becomes the empty map |
| Types.ExecutionResultToDict | plugah/types.py:49-56 | the dictionary form has exactly the four field names, each holding its field |
| Types.ExecutionResultToDictInjective | plugah/types.py:49-56 | two results with the same dictionary form are the same result |
| Types.PrdToDict | plugah/types.py:65-67 | the dictionary form of a PRD is its wrapped data |
| Types.PrdFromDict | plugah/types.py:69-72 | building a PRD from a dictionary and exporting it gives the dictionary back |
| Types.Objectives | plugah/types.py:74-77 | the objectives are the stored value, or the empty list when the key is absent |
| Types.Requirements | plugah/types.py:79-82 | the requirements are the stored value, or the empty list when the key is absent |
| Types.Milestones | plugah/types.py:84-87 | the milestones are the stored value, or the empty list when the key is absent |
| Types.Risks | plugah/types.py:89-92 | the risks are the stored value, or the empty list when the key is absent |
| Types.NewEvent | plugah/types.py:159-171 | an event keeps its phase, message and both costs, with empty metadata when none is given |
| Types.EventToDict | plugah/types.py:173-181 | the dictionary form has exactly the five field names, each holding its field |
| Types.EventToDictInjective | plugah/types.py:173-181 | two events with the same dictionary form are the same event |
| Planning.DefaultSelector | plugah/planner.py:34-35 | the default selector answers every question (specialization, tools, model, staffing, role cost) exactly as the selector functions under its policy, and every role costs something |
| Planning.DetermineBudgetPolicy | plugah/planner.py:95-103 | conservative exactly for a budget under 20 or more than five objectives, aggressive exactly for a budget over 100 with at most three objectives, balanced exactly in the remaining cases |
| Planning.EstimateScopeSize | plugah/planner.py:105-114 | "small" exactly for at most two objectives, "large" exactly for more than five, otherwise "medium" |
| Planning.PlanCaps | plugah/planner.py:59-63 | the budget is the hard cap and 80% of it the soft cap, so for a non-negative budget the soft cap lies between 0 and the hard cap |
| Planning.CreateOkrsForRole | plugah/planner.py:445-497 | the CEO gets an OKR exactly when there are objectives, the CTO always gets one OKR with one key result owned by agent_cto, and no other role gets any |
| Planning.CfoKpis | plugah/planner.py:174-190 | the CFO has two at-most KPIs owned by agent_cfo: burn rate at a tenth of the soft cap and cost per deliverable at the hard cap over the number of objectives (at least one) |
| Planning.CreateBoardRoom | plugah/planner.py:116-216 | the graph afterwards is the graph before with the CEO, CTO and CFO added in that order; edges, metadata and budget are unchanged |
| Planning.VpSpec | plugah/planner.py:225-248 | a VP gets the id agent_vp_ plus its role in snake case, the VP level and the CEO as manager |
| Planning.VpRolesFor | plugah/planner.py:221 | the VP roles are the first count entries of the fixed three-role list, never more than three |
| Planning.CreateVps | plugah/planner.py:218-252 | adds one VP per hired role in order and returns their ids in that order; nothing else in the graph changes |
| Planning.PerParent | plugah/planner.py:260 | the children per parent are at least one, and the count divided by the number of parents when there are enough to go round |
| Planning.ChildSpec | plugah/planner.py:262-287 | each director, manager or IC reports to its parent, has the level of its tier and the id built from the parent and its index |
| Planning.CreateLevel | plugah/planner.py:254-372 | one level adds, parent by parent, the per-parent number of children, and returns their ids in creation order; nothing else changes |
| Planning.IcIdsShareSegment | plugah/planner.py:343 | an IC's id depends on its manager only through the last underscore segment of the manager id |
| Planning.ManagerIdLastSegment | plugah/planner.py:292-328 | a manager id's last underscore segment is its own index under its director |
| Planning.PlanIcsCollide | plugah/planner.py:340-370 | with two or more directors, two managers share a last id segment, so ICs repeat ids and later ones replace earlier ones: fewer distinct IC ids than ICs created |
| Planning.OutputIOs | plugah/planner.py:405-413 | one required string output per named output, described as the task's output |
| Planning.TaskSpecFor | plugah/planner.py:391-425 | the i-th standard task has the snake-case task_ id, PLANNED status, one required requirements input, a definition of done, the IC picked round robin (a fixed id when there are none) and the IC role cost as estimate |
| Planning.CreateTasks | plugah/planner.py:374-430 | adds the six standard tasks in order and returns their six ids; nothing else changes |
| Planning.StandardTaskIdsDistinct | plugah/planner.py:382-392 | the six standard task ids are pairwise different |
| Planning.ChainEdges | plugah/planner.py:436-443 | one edge per consecutive pair of ids, the i-th joining id i to id i+1 |
| Planning.CreateTaskDependencies | plugah/planner.py:432-443 | appends exactly the chain edges over the task ids; nodes, order, metadata and budget are unchanged |
| Planning.ChainGoesForward | plugah/planner.py:436-443 | the chain has one edge fewer than tasks, each edge leads from a task to the next one, and every edge joins two listed tasks |
| Planning.ForecastBounds | plugah/planner.py:499-514 | the forecast is never negative, and positive once the graph has an agent, when every role costs something and no task estimate is negative |
| Planning.ForecastCost | plugah/planner.py:499-514 | the two accumulation loops compute ten interactions per agent at its role cost plus each task's estimate |
| Planning.Plan | plugah/planner.py:37-93 | a fresh valid graph with the PRD's title and domain, caps from the budget, the computed policy and the forecast of its own nodes, holding the board room, the staff and the six tasks in creation order, chained by the dependency edges |
| Planning.PlanTasks | plugah/planner.py:374-430 | in a plan the task nodes are exactly the six standard tasks, PLANNED and assigned as built |
| Planning.PlanExecutives | plugah/planner.py:116-216 | in a plan agent_ceo, agent_cto and agent_cfo hold the three executives, since no later node takes one of their ids |
| Registry.PrefsKey | plugah/registry.py:188 | the preference key keeps the role's length and contains no space |
| Registry.PolicyPick | plugah/registry.py:198-213 | the picks come from the preferred list: all of it when aggressive, otherwise only registered tools; balanced keeps those affordable for the budget, conservative looks at the first two only and keeps the cheap ones |
| Registry.Keep | plugah/registry.py:216 | the filter keeps exactly the elements satisfying the test, never more than there were |
| Registry.Dedup | plugah/registry.py:218-224 | duplicate removal keeps the same set of elements, with no repeats |
| Registry.DedupKeepsFirstOrder | plugah/registry.py:218-224 | duplicate removal keeps first occurrences in their original order |
| Registry.SelectToolIdsProperties | plugah/registry.py:179-226 | for a known role, every required tool that is not excluded is selected, no excluded tool is, nothing is selected twice, and everything selected is required or preferred |
| Registry.SelectTools | plugah/registry.py:179-226 | the selection returns the default tools for an unknown role, otherwise the required tools and the policy's picks, less the excluded ones, without repeats |
| Registry.PickPreferred | plugah/registry.py:198-213 | the policy branch's loops return exactly the policy's picks |
| Registry.Filter | plugah/registry.py:216 | the comprehension returns exactly the candidates that pass the test, in order |
| Registry.RemoveRepeats | plugah/registry.py:218-226 | the seen-set loop returns the list without repeats, first occurrences in order |
| Registry.ModelName | plugah/registry.py:156-172 | the standard and economy tiers name the same model |
| Registry.ModelTierFor | plugah/registry.py:229-247 | economy when conservative, premium when aggressive; otherwise premium exactly for C_SUITE and VP, standard exactly for DIRECTOR and MANAGER |
| Registry.SelectModel | plugah/registry.py:229-247 | the model chosen is the name of the chosen tier |
| Registry.TierCost | plugah/registry.py:257-259 | one use of a tool costs between 0.01 and 0.10 |
| Registry.RegisteredCost | plugah/registry.py:254-259 | an unregistered id adds nothing and a registered one its tier's cost |
| Registry.ToolCostBounds | plugah/registry.py:250-261 | the estimate is non-negative and at most 0.10 per id |
| Registry.ToolCostIgnoresUnknown | plugah/registry.py:250-261 | unknown ids add nothing: the estimate equals that of the registered ids alone |
| Registry.EstimateToolCost | plugah/registry.py:250-261 | the accumulator loop returns the estimate of the list, never negative |
| Registry.FirstMatch | plugah/registry.py:293-297 | none exactly when no keyword occurs in the role (ignoring case); otherwise the value of the first entry whose keyword occurs |
| Registry.SpecializationForDomain | plugah/registry.py:264-297 | an unknown domain (after lower-casing) has no specialization; a known one gives the first keyword match of its table |
| Selection.DetermineStaffingLevel | plugah/selector.py:98-126 | fixed head counts for the conservative and aggressive policies, three budget bands (below 50, below 200, above) for any other policy, and at least one VP, director and manager and two ICs in every case |
| Selection.BalancedStaffingMonotone | plugah/selector.py:119-126 | under the balanced policy a larger budget never hires fewer people at any level |
| Selection.LevelBaseCost | plugah/selector.py:132-141 | every level's base cost lies between 0.1 and 1.0, and only C_SUITE costs 1.0 |
| Selection.PolicyFactor | plugah/selector.py:143-149 | the policy factor is positive |
| Selection.EstimateRoleCost | plugah/selector.py:128-149 | a role's cost is positive, at most the C_SUITE cost of its policy, and the base cost scaled by 0.7 when conservative, 1.5 when aggressive and 1 otherwise |
| Selection.SelectSpecialization | plugah/selector.py:19-44 | a non-empty domain-table hit for a non-empty domain wins; otherwise the first role keyword found in the role |
| Selection.SpecializationNoneIff | plugah/selector.py:19-44 | no specialization exactly when the domain table gives nothing and no role keyword occurs in the role |
| Selection.ToToolRefs | plugah/selector.py:61-65 | one tool reference without arguments per id, in order |
| Selection.ToolRefsRegistered | plugah/selector.py:46-67 | every tool the selector hands out is registered and carries no arguments |
| Selection.SelectTools | plugah/selector.py:46-67 | the tools are the registry's picks for the specialization (or the role when there is none), keeping the registered ones in order |
| Selection.RefsOf | plugah/selector.py:61-67 | the conversion loop yields a reference for each accepted id, in order |
| Selection.SelectModel | plugah/selector.py:69-76 | the model is the registry's choice for the level's name under the selector's policy |

## Left out

- Language-model calls (`plugah/llm_client.py`, `plugah/llm.py`, the chat calls in discovery and PRD creation, the orchestrator's `Startup` phases): the reply text, the discovered questions and the generated PRD are parameters.
- `uuid`, `datetime.utcnow` and `time.time`: fresh ids and the current time are parameters; `PLUGAH_MODE` and `DRY_RUN` are configuration inputs.
- Concurrency: the `asyncio.gather` rounds of `_execute_parallel` are sequential; every ready task is gated on `can_proceed` against the spend at the start of its round, then the outcomes are applied one by one, in a fixed order in place of Python's set order.
- The backend call of `_execute_task` is an abstract outcome: a set of task ids whose call raises; the others succeed at their estimated cost. The crewai branch (`_execute_with_crew`), executor callbacks and `ExecutionEvent` emission are left out.
- `TaskGraph.CalculateWaves`: `_calculate_waves` builds each wave by iterating over a Python `set` of the remaining nodes, so a wave's task order is the set's order; the model lists a wave's tasks in graph-node order. In the sequential branch of `WaveExecutor.execute` (`Execution.Executor.RunEach`) that order also decides which tasks pass the budget gate before it closes.
- networkx: the topological sort is a deterministic Kahn-style order of the model's own (`TaskGraph.TopoSort`), used by `_execute_sequential` and `_order_tasks`.
- crewai objects: `Agent`, `Task`, `Crew` and `CachedDynamicTool` (`plugah/materialize.py:132-172`) are records of the fields the code sets; a tool loads exactly when its id is in `TOOL_REGISTRY` (`Materialize.LoadableTools`), and the `CachedDynamicTool` wrapper is not modelled.
- `compose_system_prompt` and the Jinja2 templates: a string function parameter (`compose`, and the selector's `prompt`); that parameter also stands for the fixed fallback prompt `_materialize_agent` and `_create_default_agent` build when composing raises (`plugah/materialize.py:82-92`, `179-189`).
- Floating point: amounts are exact reals; IEEE rounding is not modelled.
- String handling is ASCII only: `lower`, `upper`, `strip`, `split` and `isspace` have no Unicode case folding and no whitespace outside ASCII; the ASCII whitespace set (space, \t, \n, \v, \f, \r and \x1c to \x1f) is the one Python uses.
- The SHA-256 digest of the cache key is a constructor argument of `CacheManager`; only "equal data, equal key" and the `category_` prefix are stated.
- Cache storage: pickle files become an in-memory name-to-entry map; a failed write, an unreadable entry and file sizes in `get_stats` are not modelled beyond a write-outcome parameter and the delete-on-failure path; the directory holds only cache entries, so the `*.cache` glob of `clear` and `get_stats` selects every file; `RedisCache` and the `get_cache` singleton are left out.
- `Budget.BudgetManager`: holds its `BudgetModel` by value; the aliasing with `oag.budget` through which `record_spend` updates the graph's `actual_cost_usd` is reproduced by the executor writing the budget back with `Oag.SetBudget`, not shared.
- `CostEstimator.estimate_oag_cost` and `CostEstimator.estimate_tool_cost` (`plugah/budget.py:219-253`) are not modelled; `Registry.EstimateToolCost` models the `ToolSelector` version the planner uses.
- `MetricsEngine.calculate_all` and `get_current_metrics` only assemble dictionaries of the modelled calculations and are not modelled.
- `Execution.Executor.ExecuteInWaves`: requires an executor with no results yet (`results == map[]`); the source's `execute` also runs on an executor that already holds results, overwriting the results of the tasks it runs.
- `Execution.Executor.Execute`: requires an executor with no results yet (`results == map[]`); the source does not forbid re-running an executor, whose earlier results would then satisfy dependencies.
- `Orchestration.BoardRoom`: keeps the graph, the budget manager, the PRD, the state dict (JSON entries, plus the graph dump under "oag" as a typed value) and the events; the CFO, metrics engine, patch manager and audit logger objects it also creates are not modelled (patches and auditing are not part of this model).
- `Orchestration.BoardRoom.Execute`: the final metrics of `MetricsEngine.calculate_all` are the `metrics` parameter, and the `on_event` callback is not modelled. An output whose `artifacts` entry is not a dict contributes nothing, where `dict.update` would raise or read pairs.
- `Sessions.SessionStore.Update`: a keyword naming a method or other non-field attribute of `SessionData` (such as `copy` or `model_dump`) passes `hasattr`, and pydantic then raises on `setattr` after the earlier keywords were applied; the model ignores such a keyword and returns the updated session.
- `save_state`/`load_state` and all file I/O; the saved form is a record with optional sections in place of a JSON dictionary.
- `OrgCharts.TallyCounts`: status values are compared as JSON values, so `True`, `1` and `1.0`, which Python's dict keys merge, are counted apart; node ids are strings. A `level` of any kind is handled: one of the five level names, otherwise a `KeyError`, or a `TypeError` for a list or dict.
- `Orchestration.BoardRoom.PlanOrganization`: in mock mode a PRD title that is not a string (null, a number, a list) becomes "Mock Project" through `MockTitle`, where pydantic's validation of `OrgMeta` raises (`plugah/orchestrator.py:260-264`, `plugah/oag_schema.py:55`).
- `Orchestration.Size`: a value without a length (a number, a boolean, `None`), for which Python's `len` raises `TypeError`, counts 0, so the discovery event reports 0 objectives where Python raises.
- `Orchestration.PlanRequestOf`: a PRD title that is not a string, or a domain that is neither a string nor null, makes pydantic's validation of `OrgMeta` raise; the model reads it as missing and takes the planner's default.
- `Orchestration.PlanRequestOf`: a PRD `objectives` value that is not a list reads as the empty list, where `len(objectives)` raises for null and counts the characters of a string or the keys of a dict.
- `Materialize.Materialize`: returns the agents and tasks only; the `id_map` of CrewAI objects and specs that `materialize` also returns (`plugah/materialize.py:22-57`) is not modelled.
- `Planning.PlanIcsCollide`: proves that IC ids collide; the observation that a larger budget still yields more distinct agents is not stated.
- `plugah/registry.py` uses `Optional` without importing it; this load-time matter is outside the model.
- Network adapters (`github_issues`, `gdrive_docs`): an adapter is only registered or not.
- `plugah/core/events.py`, `plugah/core/boardroom.py`, HTTP layers, tool stubs, the demo CLI and `plugah/patches.py`/`plugah/audit.py` are not part of this model.

## Findings

| source | as written | input that shows it | evidently intended | confidence | as-written member | corrected member |
|---|---|---|---|---|---|---|
| plugah/executor.py:136-140 | the cycle fallback catches `NetworkXError`, but networkx's topological sort raises `NetworkXUnfeasible` on a cycle, so the exception escapes and the fallback never runs | two tasks a and b with edges a→b and b→a | fall back to the tasks in insertion order | not executed | TaskGraph.CycleEscapesHandler | TaskGraph.OrderIsPermutation |
| plugah/materialize.py:292-297 | `_order_tasks` has the same handler, so a dependency cycle between two tasks raises out of `build_crew` | two known tasks with edges in both directions | fall back to the tasks in insertion order | not executed | Materialize.MutualDependencyRaises | Materialize.OrderTasksPermutation |
| plugah/cache.py:108 | `get_stats` groups entries by the file name before the first `_`, so categories that contain `_` are merged | entries of categories `tool_research` and `tool_code` | one count per cache category | not executed | Caching.CacheManager.AsWrittenMergesToolCategories | Caching.CacheManager.CategoryOfKey |
