/**
 * The public facade `BoardRoom`: four phases (startup, discovery, planning, execution), each
 * checking its inputs before it stores anything and appending exactly one event when it
 * succeeds; the saved-state form and its restore.
 *
 * The language model, the selector's system-prompt template, the clock, uuids, the backend
 * outcome of each task and the final metrics are parameters: `discovered`, `generated`, `prompt`,
 * `now`, `freshId`, `failures`, `metrics`.
 */
module Orchestration {
  import opened Wrappers
  import opened Json
  import opened Strs
  import opened OagSchema
  import opened Types
  import Budget
  import Planning
  import Execution

  // ---------------------------------------------------------------------------
  // Input checks

  /** The value of the `field` entry of an error's details (`None` when absent). */
  function Field(e: PlugahError): Json {
    Get(e.details, "field", JNull)
  }

  /** `[p.value for p in BudgetPolicy]` */
  const PolicyValues: seq<Json> := [JStr("conservative"), JStr("balanced"), JStr("aggressive")]

  /** `BudgetPolicy(policy.lower())` succeeds. */
  predicate KnownPolicy(policy: string) {
    ParsePolicy(Lower(policy)).Some?
  }

  /** The `BudgetPolicy` a known policy name reads as once lower-cased. */
  function PolicyOf(policy: string): BudgetPolicy
    requires KnownPolicy(policy)
  {
    ParsePolicy(Lower(policy)).value
  }

  /** `startup_phase`'s checks in their order: an empty problem, then a budget that is not
      positive, then a policy that is not a `BudgetPolicy` value once lower-cased. */
  function StartupCheck(problem: string, budgetUsd: real, policy: string): (r: Option<PlugahError>)
    ensures r.None? <==> problem != "" && budgetUsd > 0.0 && KnownPolicy(policy)
    ensures r.Some? ==> r.value.kind == InvalidInput
    ensures problem == "" ==> r.Some? && Field(r.value) == JStr("problem")
    ensures problem != "" && budgetUsd <= 0.0 ==> r.Some? && Field(r.value) == JStr("budget_usd")
    ensures problem != "" && budgetUsd > 0.0 && r.Some? ==> Field(r.value) == JStr("policy")
  {
    if problem == "" then
      Some(NewError(InvalidInput, "Problem statement is required", Some(map["field" := JStr("problem")])))
    else if budgetUsd <= 0.0 then
      Some(NewError(InvalidInput, "Budget must be positive",
                    Some(map["field" := JStr("budget_usd"), "value" := JNum(budgetUsd)])))
    else if !KnownPolicy(policy) then
      Some(NewError(InvalidInput, "Invalid budget policy: " + policy,
                    Some(map["field" := JStr("policy"), "valid_values" := JArr(PolicyValues)])))
    else None
  }

  /** `process_discovery`'s checks: no answers, then an unknown policy. */
  function DiscoveryCheck(answers: seq<string>, policy: string): (r: Option<PlugahError>)
    ensures r.None? <==> answers != [] && KnownPolicy(policy)
    ensures r.Some? ==> r.value.kind == InvalidInput
    ensures answers == [] ==> r.Some? && Field(r.value) == JStr("answers")
    ensures answers != [] && r.Some? ==> Field(r.value) == JStr("policy")
  {
    if answers == [] then Some(NewError(InvalidInput, "Answers are required", Some(map["field" := JStr("answers")])))
    else if !KnownPolicy(policy) then
      Some(NewError(InvalidInput, "Invalid budget policy: " + policy, Some(map["field" := JStr("policy")])))
    else None
  }

  /** `plan_organization`'s checks: no PRD, then an unknown policy. */
  function PlanCheck(prd: Option<Prd>, policy: string): (r: Option<PlugahError>)
    ensures r.None? <==> prd.Some? && KnownPolicy(policy)
    ensures r.Some? ==> r.value.kind == InvalidInput
    ensures prd.None? ==> r.Some? && Field(r.value) == JStr("prd")
    ensures prd.Some? && r.Some? ==> Field(r.value) == JStr("policy")
  {
    if prd.None? then Some(NewError(InvalidInput, "PRD is required", Some(map["field" := JStr("prd")])))
    else if !KnownPolicy(policy) then
      Some(NewError(InvalidInput, "Invalid budget policy: " + policy, Some(map["field" := JStr("policy")])))
    else None
  }

  /** The error `execute` raises when there is no graph to run. */
  const NoOagError: PlugahError :=
    PlugahError(InvalidInput, "No OAG to execute. Run plan_organization first or provide an OAG", map[])

  // ---------------------------------------------------------------------------
  // Events of the four phases

  function StartupEvent(questions: nat, mock: bool): Event {
    NewEvent("startup", "Generated " + NatToString(questions) + " discovery questions",
             if mock then 0.0 else 0.01, if mock then 0.0 else 0.01, None)
  }

  function DiscoveryEvent(objectives: nat, mock: bool): Event {
    NewEvent("discovery", "PRD generated successfully", if mock then 0.0 else 0.02, if mock then 0.0 else 0.03,
             Some(map["objectives" := JNum(objectives as real)]))
  }

  function PlanningEvent(agents: nat, tasks: nat, mock: bool): Event {
    NewEvent("planning", "Created org with " + NatToString(agents) + " agents and " + NatToString(tasks) + " tasks",
             if mock then 0.0 else 0.05, if mock then 0.0 else 0.08,
             Some(map["agents" := JNum(agents as real), "tasks" := JNum(tasks as real)]))
  }

  /** The planning event for a graph's nodes: its agent and task counts. */
  function PlanningEventOf(nodes: map<string, Node>, mock: bool): Event {
    PlanningEvent(|GetAgents(nodes)|, |GetTasks(nodes)|, mock)
  }

  function ExecutionEvent(totalCost: real): Event {
    NewEvent("execution", "Execution complete", totalCost, totalCost, Some(map["total_cost" := JNum(totalCost)]))
  }

  /** `len(x)` of a list, dict or string; other values, where Python's `len` raises, count 0. */
  function Size(j: Json): nat {
    match j
    case JArr(items) => |items|
    case JObj(fields) => |fields|
    case JStr(s) => |s|
    case _ => 0
  }

  // ---------------------------------------------------------------------------
  // Mock-mode content

  const MockQuestions: seq<string> := [
    "Who are the primary users/customers for this solution?",
    "What are the top 3 success criteria that would define project completion?",
    "What technical constraints or requirements must be met?",
    "What is the expected timeline for delivery?",
    "Are there any existing systems or data sources to integrate with?"
  ]

  /** The mock PRD's entries that do not depend on the request. */
  const MockPrdFixed: Dict := map[
    "title" := JStr("Mock Project"),
    "domain" := JStr("general"),
    "success_criteria" := JArr([JStr("Criterion 1"), JStr("Criterion 2"), JStr("Criterion 3")]),
    "constraints" := JArr([JStr("Constraint 1"), JStr("Constraint 2")]),
    "timeline" := JStr("ASAP"),
    "integrations" := JStr("None"),
    "objectives" := JArr([
      JObj(map["id" := JStr("obj_1"), "title" := JStr("Deliver Core Functionality"),
               "description" := JStr("Implement the core solution")]),
      JObj(map["id" := JStr("obj_2"), "title" := JStr("Ensure Quality"),
               "description" := JStr("Meet quality standards")])]),
    "key_results" := JArr([
      JObj(map["id" := JStr("kr_1"), "objective_id" := JStr("obj_1"), "metric" := JStr("Feature Completion"),
               "target" := JNum(100.0), "current" := JNum(0.0), "unit" := JStr("%")])]),
    "requirements" := JArr([JStr("Requirement 1"), JStr("Requirement 2")]),
    "milestones" := JArr([]),
    "risks" := JArr([JStr("Risk 1")]),
    "non_goals" := JArr([]),
    "created_at" := JStr("2024-01-01T00:00:00Z")
  ]

  /** The mock PRD: the fixed entries plus the problem, the budget and the first answer as
      the users (or "General users" without answers). */
  function MockPrd(problem: string, budgetUsd: real, answers: seq<string>): (d: Dict)
    ensures "problem_statement" in d && "budget" in d && "users" in d
    ensures d["problem_statement"] == JStr(problem) && d["budget"] == JNum(budgetUsd)
    ensures d["users"] == JStr(if answers != [] then answers[0] else "General users")
    ensures forall k :: k in MockPrdFixed ==> k in d
  {
    MockPrdFixed["problem_statement" := JStr(problem)]["budget" := JNum(budgetUsd)]
      ["users" := JStr(if answers != [] then answers[0] else "General users")]
  }

  /** The mock plan's title: the PRD's title, "Mock Project" when absent. A title that is not
      a string (which `OrgMeta` validation would refuse) also reads as "Mock Project". */
  function MockTitle(prd: Prd): (title: string)
    ensures "title" in prd.data && prd.data["title"].JStr? ==> title == prd.data["title"].s
    ensures "title" !in prd.data ==> title == "Mock Project"
    ensures "title" in prd.data && !prd.data["title"].JStr? ==> title == "Mock Project"
  {
    match Get(prd.data, "title", JStr("Mock Project"))
    case JStr(s) => s
    case _ => "Mock Project"
  }

  /** The mock plan's budget: hard cap the budget, soft cap 80% of it, forecast half of it. */
  function MockBudget(budgetUsd: real, policy: BudgetPolicy): (b: BudgetModel)
    ensures b.caps.hardCapUsd == budgetUsd && b.caps.softCapUsd == 0.8 * budgetUsd
    ensures b.forecastCostUsd == 0.5 * budgetUsd && b.actualCostUsd == 0.0 && b.policy == policy
    ensures budgetUsd > 0.0 ==> 0.0 < b.forecastCostUsd < b.caps.softCapUsd < b.caps.hardCapUsd
  {
    BudgetModel(BudgetCaps(budgetUsd, budgetUsd * 0.8), budgetUsd * 0.5, 0.0, policy)
  }

  const MockCeo: AgentSpec := NewAgentSpec("ceo", "CEO", C_SUITE).(llm := Some("gpt-3.5-turbo"))

  const MockTask: TaskSpec :=
    TaskSpec("task_1", "Implement core functionality", "ceo", NewContract("Task completed"),
             "Implementation complete", Planned, map[], CostTrack(10.0, 0.0, 0), [])

  /** The mock plan's node dict: the CEO, then its one task. */
  const MockOrder: seq<string> := ["ceo", "task_1"]
  const MockNodes: map<string, Node> := map["ceo" := Agent(MockCeo), "task_1" := Task(MockTask)]

  /** The mock graph has one agent, one task assigned to it, and passes the validator. */
  lemma MockGraphShape()
    ensures IsDictOrder(MockOrder, MockNodes) && ValidateNodes(MockOrder, MockNodes).Ok?
    ensures GetAgents(MockNodes).Keys == {"ceo"} && GetTasks(MockNodes).Keys == {"task_1"}
    ensures GetTasks(MockNodes)["task_1"].agentId in GetAgents(MockNodes)
    ensures GetAgents(MockNodes)["ceo"].level == C_SUITE
  {
    assert "ceo"[0] != "task_1"[0];
    ValidateIffKeysMatch(MockOrder, MockNodes);
  }

  /** The mock plan: the CEO and its task under the board room's project id. */
  method MockPlan(projectId: string, title: string, budgetUsd: real, policy: BudgetPolicy, now: int) returns (g: Oag)
    ensures fresh(g) && g.Valid()
    ensures g.meta == OrgMeta(projectId, title, Some("general"), now, now, 1)
    ensures g.budget == MockBudget(budgetUsd, policy)
    ensures g.order == MockOrder && g.nodes == MockNodes && g.edges == []
  {
    MockGraphShape();
    g := new Oag(OrgMeta(projectId, title, Some("general"), now, now, 1), MockBudget(budgetUsd, policy),
                 MockOrder, MockNodes, []);
  }

  /** The selector `plan_organization` hands its planner: `Selector(budget_policy=policy.value)`. */
  function PlanSelector(policy: BudgetPolicy, prompt: (string, RoleLevel, Option<string>) -> string)
    : Planning.SelectorFns
  {
    Planning.DefaultSelector(PolicyName(policy), prompt)
  }

  /** The node dict `Planner.plan` builds: its tiers inserted in creation order. */
  ghost function PlanTable(sel: Planning.SelectorFns, req: Planning.PlanRequest, budgetUsd: real): Planning.Table {
    Planning.InsertAll(Planning.Table(map[], []),
                       Planning.PlanNodes(Planning.PlanEnv(sel, Planning.RequestDomain(req), budgetUsd),
                                          Planning.PlanCaps(budgetUsd), req.objectives, sel.staffing(budgetUsd)))
  }

  /** Everything `Planner.plan` promises about the graph it returns for this selector and
      request, stated on the graph's dump. */
  ghost predicate PlannedBy(g: OagDump, sel: Planning.SelectorFns, req: Planning.PlanRequest, budgetUsd: real,
                            plannerId: string, now: int)
  {
    g.meta == OrgMeta(plannerId, Planning.RequestTitle(req), Planning.RequestDomain(req), now, now, 1) &&
    g.budget == BudgetModel(Planning.PlanCaps(budgetUsd), Planning.Forecast(g.order, g.nodes, sel), 0.0,
                            Planning.DetermineBudgetPolicy(budgetUsd, |req.objectives|)) &&
    Planning.Table(g.nodes, g.order) == PlanTable(sel, req, budgetUsd) &&
    g.edges == Planning.ChainEdges(Planning.StandardTaskIds(6))
  }

  /** `Planner(selector).plan(prd, budget)`: everything the planner promises about its graph.
      `plan_organization` hands it `PlanSelector` of the chosen policy. */
  method RealPlan(sel: Planning.SelectorFns, req: Planning.PlanRequest, budgetUsd: real, plannerId: string, now: int)
    returns (g: Oag)
    ensures fresh(g) && g.Valid() && PlannedBy(DumpOf(g), sel, req, budgetUsd, plannerId, now)
  {
    g := Planning.Plan(sel, req, budgetUsd, plannerId, now);
  }

  /** The mock execution result: cost 0.1, a fixed artifact, complete metrics. */
  function MockRun(projectId: string, nodes: map<string, Node>): (r: ExecutionResult)
    ensures r.totalCost == 0.1
    ensures "tasks_completed" in r.metrics && "agents" in r.details
    ensures r.metrics["tasks_completed"] == JNum(|GetTasks(nodes)| as real)
    ensures r.details["agents"] == JNum(|GetAgents(nodes)| as real)
  {
    NewExecutionResult(0.1, Some(map["output" := JStr("Mock execution complete")]),
                       Some(map["completion_rate" := JNum(100.0), "tasks_completed" := JNum(|GetTasks(nodes)| as real)]),
                       Some(map["project_id" := JStr(projectId), "tasks" := JNum(|GetTasks(nodes)| as real),
                                "agents" := JNum(|GetAgents(nodes)| as real)]))
  }

  /** `result.output.get("artifacts", {})` of one task result, when the output is a dict. */
  function OutputArtifacts(r: Execution.ExecResult): Dict {
    match r.output
    case Some(JObj(o)) => (match Get(o, "artifacts", JObj(map[])) case JObj(a) => a case _ => map[])
    case _ => map[]
  }

  /** The artifacts a real run collects: every result's artifacts merged in result order. */
  function MergedArtifacts(order: seq<string>, results: map<string, Execution.ExecResult>): Dict
    requires forall k :: k in order ==> k in results
  {
    if order == [] then map[]
    else MergedArtifacts(order[..|order| - 1], results) + OutputArtifacts(results[order[|order| - 1]])
  }

  /** A key is collected exactly when some result's artifacts hold it. */
  lemma {:induction false} MergedArtifactsKeys(order: seq<string>, results: map<string, Execution.ExecResult>,
                                                key: string)
    requires forall k :: k in order ==> k in results
    ensures key in MergedArtifacts(order, results) <==>
      exists i :: 0 <= i < |order| && key in OutputArtifacts(results[order[i]])
  {
    if order != [] {
      var n := |order| - 1;
      var init := order[..n];
      MergedArtifactsKeys(init, results, key);
      assert forall i :: 0 <= i < n ==> init[i] == order[i];
      if key in MergedArtifacts(init, results) {
        var i :| 0 <= i < n && key in OutputArtifacts(results[init[i]]);
        assert key in OutputArtifacts(results[order[i]]);
      }
    }
  }

  /** A collected key keeps the value of the last result whose artifacts hold it, as
      `dict.update` in a loop does. */
  lemma {:induction false} MergedArtifactsLastWins(order: seq<string>, results: map<string, Execution.ExecResult>,
                                                    key: string, i: nat)
    requires forall k :: k in order ==> k in results
    requires i < |order| && key in OutputArtifacts(results[order[i]])
    requires forall j :: i < j < |order| ==> key !in OutputArtifacts(results[order[j]])
    ensures key in MergedArtifacts(order, results)
    ensures MergedArtifacts(order, results)[key] == OutputArtifacts(results[order[i]])[key]
  {
    var n := |order| - 1;
    if i < n {
      var init := order[..n];
      assert forall j :: 0 <= j < n ==> init[j] == order[j];
      MergedArtifactsLastWins(init, results, key, i);
    }
  }

  /** The PRD fields the planner reads. A null domain is carried as none; a title that is
      not a string and a domain that is neither a string nor null, where pydantic's
      validation of `OrgMeta` raises, read as missing. */
  function PlanRequestOf(d: Dict): Planning.PlanRequest {
    Planning.PlanRequest(
      match Get(d, "title", JNull) case JStr(s) => Some(s) case _ => None,
      if "domain" !in d then None
      else (match d["domain"] case JStr(s) => Some(Some(s)) case JNull => Some(None) case _ => None),
      match Get(d, "objectives", JNull) case JArr(items) => items case _ => [])
  }

  /** `prd.get("domain", "general")` as the planner's `OrgMeta` receives it: the default for a
      missing key, none for null, the string itself otherwise. */
  lemma PlanRequestDomain(d: Dict)
    ensures "domain" !in d ==> Planning.RequestDomain(PlanRequestOf(d)) == Some("general")
    ensures "domain" in d && d["domain"] == JNull ==> Planning.RequestDomain(PlanRequestOf(d)) == None
    ensures "domain" in d && d["domain"].JStr? ==> Planning.RequestDomain(PlanRequestOf(d)) == Some(d["domain"].s)
  {
  }

  function HintValue(modelHint: Option<string>): Json {
    if modelHint.Some? then JStr(modelHint.value) else JNull
  }

  function StringList(xs: seq<string>): (j: Json)
    ensures Size(j) == |xs|
  {
    JArr(seq(|xs|, i requires 0 <= i < |xs| => JStr(xs[i])))
  }

  /** `_state` after a successful startup. */
  function StartupState(s: State, problem: string, budgetUsd: real, modelHint: Option<string>, policy: string,
                        questions: seq<string>): (r: State)
    ensures r.Keys == s.Keys + {"problem", "budget_usd", "model_hint", "policy", "questions"}
    ensures r["problem"] == Value(JStr(problem)) && r["budget_usd"] == Value(JNum(budgetUsd))
    ensures r["policy"] == Value(JStr(Lower(policy))) && r["questions"] == Value(StringList(questions))
    ensures forall k :: k in s && k !in {"problem", "budget_usd", "model_hint", "policy", "questions"} ==> r[k] == s[k]
  {
    s["problem" := Value(JStr(problem))]["budget_usd" := Value(JNum(budgetUsd))]
      ["model_hint" := Value(HintValue(modelHint))]["policy" := Value(JStr(Lower(policy)))]
      ["questions" := Value(StringList(questions))]
  }

  // ---------------------------------------------------------------------------
  // The saved state

  /** `oag.model_dump()`: the graph's fields as values. */
  datatype OagDump = OagDump(meta: OrgMeta, budget: BudgetModel, order: seq<string>, nodes: map<string, Node>,
                             edges: seq<Edge>)

  function DumpOf(g: Oag): (d: OagDump)
    reads g
    ensures d.order == g.order && d.nodes == g.nodes && d.edges == g.edges
    ensures d.meta == g.meta && d.budget == g.budget
  {
    OagDump(g.meta, g.budget, g.order, g.nodes, g.edges)
  }

  /** A value of `_state`: JSON, or the graph dump planning stores under "oag". */
  datatype Entry = Value(json: Json) | GraphDump(dump: OagDump)

  type State = map<string, Entry>

  /** The `budget` section of the saved state; `None` is a missing key. */
  datatype SavedBudget = SavedBudget(spent: Option<real>, remaining: Option<real>,
                                     alerts: Option<seq<Budget.AlertRecord>>)

  /** The dictionary `to_dict` returns and `from_dict` reads; `None` is a missing key. */
  datatype Saved = Saved(projectId: Option<string>, state: Option<State>, events: seq<Dict>, prd: Option<Dict>,
                         oag: Option<OagDump>, budget: Option<SavedBudget>)

  class BoardRoom {
    var projectId: string
    var mockMode: bool
    var state: State
    var events: seq<Event>
    var prd: Option<Prd>
    var oag: Oag?
    var budgetManager: Budget.BudgetManager?
    var executor: Execution.Executor?

    /** A graph and a budget manager are held together, and the graph is a valid one. */
    ghost predicate Valid()
      reads this, oag, budgetManager
    {
      (oag == null <==> budgetManager == null) &&
      (oag != null ==> oag.Valid() && budgetManager.budget == oag.budget)
    }

    /** `BoardRoom(project_id)`: the given id, or a fresh one when it is missing or empty;
        `mockMode` is `PLUGAH_MODE == "mock"`. */
    constructor (projectId: Option<string>, freshId: string, mockMode: bool)
      ensures this.projectId == if projectId.Some? && projectId.value != "" then projectId.value else freshId
      ensures this.mockMode == mockMode
      ensures state == map[] && events == [] && prd == None && oag == null && budgetManager == null
      ensures Valid()
    {
      this.projectId := if projectId.Some? && projectId.value != "" then projectId.value else freshId;
      this.mockMode := mockMode;
      state := map[];
      events := [];
      prd := None;
      oag := null;
      budgetManager := null;
      executor := null;
    }

    /** `_emit_event`: appends the event (the audit log is not modelled). */
    method EmitEvent(e: Event)
      modifies this
      ensures events == old(events) + [e]
      ensures state == old(state) && prd == old(prd) && oag == old(oag) && budgetManager == old(budgetManager)
      ensures projectId == old(projectId) && mockMode == old(mockMode) && executor == old(executor)
    {
      events := events + [e];
    }

    /** `startup_phase`: on a failed check nothing is stored and no event is emitted;
        otherwise the inputs and the questions are stored and one startup event appended. */
    method StartupPhase(problem: string, budgetUsd: real, modelHint: Option<string>, policy: string,
                        discovered: seq<string>)
      returns (r: Result<seq<string>, PlugahError>)
      modifies this
      ensures r.Err? <==> StartupCheck(problem, budgetUsd, policy).Some?
      ensures r.Err? ==> r.error == StartupCheck(problem, budgetUsd, policy).value
      ensures r.Err? ==> state == old(state) && events == old(events)
      ensures r.Ok? ==> r.value == (if mockMode then MockQuestions else discovered)
      ensures r.Ok? ==> state == StartupState(old(state), problem, budgetUsd, modelHint, policy, r.value)
      ensures r.Ok? ==> events == old(events) + [StartupEvent(|r.value|, mockMode)]
      ensures prd == old(prd) && oag == old(oag) && budgetManager == old(budgetManager)
      ensures projectId == old(projectId) && mockMode == old(mockMode)
    {
      var check := StartupCheck(problem, budgetUsd, policy);
      if check.Some? {
        return Err(check.value);
      }
      var questions := if mockMode then MockQuestions else discovered;
      state := StartupState(state, problem, budgetUsd, modelHint, policy, questions);
      EmitEvent(StartupEvent(|questions|, mockMode));
      return Ok(questions);
    }

    /** `process_discovery`: on a failed check nothing is stored; otherwise the answers and
        the PRD (the mock one, or the generated one) are stored and one event appended, whose
        metadata counts the PRD's objectives. */
    method ProcessDiscovery(answers: seq<string>, problem: string, budgetUsd: real, modelHint: Option<string>,
                            policy: string, generated: Dict)
      returns (r: Result<Prd, PlugahError>)
      modifies this
      ensures r.Err? <==> DiscoveryCheck(answers, policy).Some?
      ensures r.Err? ==> r.error == DiscoveryCheck(answers, policy).value
      ensures r.Err? ==> state == old(state) && events == old(events) && prd == old(prd)
      ensures r.Ok? ==> r.value == Prd(if mockMode then MockPrd(problem, budgetUsd, answers) else generated)
      ensures r.Ok? ==> prd == Some(r.value)
      ensures r.Ok? ==> state == old(state)["answers" := Value(StringList(answers))]["prd" := Value(JObj(r.value.data))]
      ensures r.Ok? ==> events == old(events) + [DiscoveryEvent(Size(Objectives(r.value)), mockMode)]
      ensures oag == old(oag) && budgetManager == old(budgetManager)
      ensures projectId == old(projectId) && mockMode == old(mockMode)
    {
      var check := DiscoveryCheck(answers, policy);
      if check.Some? {
        return Err(check.value);
      }
      state := state["answers" := Value(StringList(answers))];
      var data := if mockMode then MockPrd(problem, budgetUsd, answers) else generated;
      prd := Some(Prd(data));
      state := state["prd" := Value(JObj(data))];
      EmitEvent(DiscoveryEvent(Size(Objectives(Prd(data))), mockMode));
      return Ok(Prd(data));
    }

    /** `plan_organization`: on a failed check nothing changes; otherwise a new graph (the
        mock one, or the one the planner builds with the default selector under the policy)
        is held with a fresh budget manager over its budget, its dump is stored in the state
        under "oag", and one event counting its agents and tasks is appended. */
    method PlanOrganization(prdIn: Option<Prd>, budgetUsd: real, modelHint: Option<string>, policy: string,
                            prompt: (string, RoleLevel, Option<string>) -> string, plannerId: string, now: int)
      returns (r: Result<Oag, PlugahError>)
      modifies this
      ensures r.Err? <==> PlanCheck(prdIn, policy).Some?
      ensures r.Err? ==> r.error == PlanCheck(prdIn, policy).value
      ensures r.Err? ==> events == old(events) && oag == old(oag) && budgetManager == old(budgetManager) &&
                         state == old(state)
      ensures r.Ok? ==> fresh(r.value) && oag == r.value && oag.Valid()
      ensures r.Ok? && mockMode ==>
        oag.meta == OrgMeta(projectId, MockTitle(prdIn.value), Some("general"), now, now, 1) &&
        oag.budget == MockBudget(budgetUsd, PolicyOf(policy)) &&
        oag.order == MockOrder && oag.nodes == MockNodes && oag.edges == []
      ensures r.Ok? && !mockMode ==>
        PlannedBy(DumpOf(oag), PlanSelector(PolicyOf(policy), prompt), PlanRequestOf(prdIn.value.data),
                  budgetUsd, plannerId, now)
      ensures r.Ok? ==> (budgetManager != null && fresh(budgetManager) &&
                         budgetManager.State() == Budget.Ledger(oag.budget, 0.0, [], []))
      ensures r.Ok? ==> state == old(state)["oag" := GraphDump(DumpOf(oag))]
      ensures r.Ok? ==> events == old(events) + [PlanningEventOf(oag.nodes, mockMode)]
      ensures prd == old(prd)
      ensures projectId == old(projectId) && mockMode == old(mockMode)
    {
      var check := PlanCheck(prdIn, policy);
      if check.Some? {
        return Err(check.value);
      }
      var g: Oag;
      if mockMode {
        g := AdoptMockPlan(MockTitle(prdIn.value), budgetUsd, PolicyOf(policy), now);
      } else {
        g := AdoptRealPlan(PlanSelector(PolicyOf(policy), prompt), PlanRequestOf(prdIn.value.data),
                           budgetUsd, plannerId, now);
      }
      return Ok(g);
    }

    /** The mock branch of `plan_organization`: builds the mock graph, a budget manager over
        its budget, the state's "oag" entry and the planning event. */
    method AdoptMockPlan(title: string, budgetUsd: real, policy: BudgetPolicy, now: int) returns (g: Oag)
      requires mockMode
      modifies this
      ensures fresh(g) && oag == g && g.Valid()
      ensures g.meta == OrgMeta(projectId, title, Some("general"), now, now, 1)
      ensures g.budget == MockBudget(budgetUsd, policy)
      ensures g.order == MockOrder && g.nodes == MockNodes && g.edges == []
      ensures budgetManager != null && fresh(budgetManager) && budgetManager.State() == Budget.Ledger(g.budget, 0.0, [], [])
      ensures state == old(state)["oag" := GraphDump(DumpOf(g))]
      ensures events == old(events) + [PlanningEventOf(g.nodes, mockMode)]
      ensures prd == old(prd)
      ensures projectId == old(projectId) && mockMode == old(mockMode)
    {
      g := MockPlan(projectId, title, budgetUsd, policy, now);
      Adopt(g);
    }

    /** The planner branch of `plan_organization`, for the selector it hands the planner. */
    method AdoptRealPlan(sel: Planning.SelectorFns, req: Planning.PlanRequest, budgetUsd: real, plannerId: string, now: int)
      returns (g: Oag)
      modifies this
      ensures fresh(g) && oag == g && g.Valid()
      ensures PlannedBy(DumpOf(g), sel, req, budgetUsd, plannerId, now)
      ensures budgetManager != null && fresh(budgetManager) && budgetManager.State() == Budget.Ledger(g.budget, 0.0, [], [])
      ensures state == old(state)["oag" := GraphDump(DumpOf(g))]
      ensures events == old(events) + [PlanningEventOf(g.nodes, mockMode)]
      ensures prd == old(prd)
      ensures projectId == old(projectId) && mockMode == old(mockMode)
    {
      g := RealPlan(sel, req, budgetUsd, plannerId, now);
      Adopt(g);
    }

    /** Holds a planned graph: a budget manager over its budget, the graph's dump in the state
        under "oag", and the planning event. */
    method Adopt(g: Oag)
      requires g.Valid()
      modifies this
      ensures oag == g
      ensures budgetManager != null && fresh(budgetManager) && budgetManager.State() == Budget.Ledger(g.budget, 0.0, [], [])
      ensures state == old(state)["oag" := GraphDump(DumpOf(g))]
      ensures events == old(events) + [PlanningEventOf(g.nodes, mockMode)]
      ensures prd == old(prd)
      ensures projectId == old(projectId) && mockMode == old(mockMode)
    {
      var bm := new Budget.BudgetManager(g.budget);
      oag := g;
      budgetManager := bm;
      state := state["oag" := GraphDump(DumpOf(g))];
      EmitEvent(PlanningEventOf(g.nodes, mockMode));
    }

    /** `execute`: a given graph replaces the held one (with a fresh budget manager); with no
        graph at all it raises before emitting anything. In mock mode it returns the mock run.
        Otherwise an executor runs the held graph in parallel against the held budget manager,
        so its spends and task updates land in them, and the result reports the manager's
        spend as the total cost, the results' merged artifacts, the final metrics and the
        number of results. Either way one execution event with the cost is appended.
        `rounds` and `states` are the executor's gathered rounds and the states they left. */
    method Execute(given: Oag?, failures: Execution.Failures, metrics: Dict)
      returns (r: Result<ExecutionResult, PlugahError>, ghost rounds: seq<seq<string>>,
               ghost states: seq<Execution.DriverState>)
      requires Valid() && (given != null ==> given.Valid())
      modifies this, oag, budgetManager, given
      ensures Valid()
      ensures given != null ==> oag == given && budgetManager != null && fresh(budgetManager)
      ensures given == null ==> oag == old(oag) && budgetManager == old(budgetManager)
      ensures r.Err? <==> given == null && old(oag) == null
      ensures r.Err? ==> r.error == NoOagError && events == old(events)
      ensures r.Ok? && mockMode ==> r.value == MockRun(projectId, oag.nodes)
      ensures r.Ok? && mockMode ==> executor == old(executor)
      ensures r.Ok? && mockMode && given == null ==> unchanged(oag, budgetManager)
      ensures r.Ok? && mockMode && given != null ==> budgetManager.State() == Budget.Ledger(given.budget, 0.0, [], [])
      ensures r.Ok? && !mockMode ==>
        executor != null && fresh(executor) && executor.Valid() &&
        executor.oag == oag && executor.budgetManager == budgetManager &&
        (forall t :: t in executor.results ==>
           t in executor.graph.nodes && Execution.DependenciesSatisfied(executor.graph, executor.results, t)) &&
        r.value == ExecutionResult(budgetManager.spent,
                                   MergedArtifacts(executor.resultOrder, executor.results), metrics,
                                   map["project_id" := JStr(projectId),
                                       "results" := JNum(|executor.results| as real),
                                       "budget_remaining" := JNum(Budget.Remaining(budgetManager.spent,
                                                                                   budgetManager.budget.caps))])
      ensures r.Ok? && !mockMode && given != null ==>
        Execution.IsExecutionGraph(executor.graph, old(TaskOrder(given.order, given.nodes)), old(given.edges)) &&
        Execution.ParallelRun(executor.graph, Execution.RunState(old(given.nodes), Budget.Ledger(old(given.budget), 0.0, [], [])),
                              executor.Now(), rounds, states, failures)
      ensures r.Ok? && !mockMode && given == null ==>
        Execution.IsExecutionGraph(executor.graph, old(TaskOrder(oag.order, oag.nodes)), old(oag.edges)) &&
        Execution.ParallelRun(executor.graph, Execution.RunState(old(oag.nodes), old(budgetManager.State())),
                              executor.Now(), rounds, states, failures)
      ensures r.Ok? ==> events == old(events) + [ExecutionEvent(r.value.totalCost)]
      ensures state == old(state) && prd == old(prd)
      ensures projectId == old(projectId) && mockMode == old(mockMode)
    {
      rounds, states := [], [];
      if given != null {
        oag := given;
        budgetManager := new Budget.BudgetManager(given.budget);
      }
      if oag == null {
        return Err(NoOagError), rounds, states;
      }
      var result: ExecutionResult;
      if mockMode {
        result := MockRun(projectId, oag.nodes);
      } else {
        result, rounds, states := RunHeld(failures, metrics);
      }
      EmitEvent(ExecutionEvent(result.totalCost));
      return Ok(result), rounds, states;
    }

    /** The real branch of `execute`: a fresh executor runs the held graph in parallel against
        the held budget manager, and the result reports the manager's spend, the merged
        artifacts, the metrics and the number of results. */
    method RunHeld(failures: Execution.Failures, metrics: Dict)
      returns (result: ExecutionResult, ghost rounds: seq<seq<string>>, ghost states: seq<Execution.DriverState>)
      requires Valid() && oag != null
      modifies this, oag, budgetManager
      ensures Valid() && oag == old(oag) && budgetManager == old(budgetManager)
      ensures executor != null && fresh(executor) && executor.Valid() &&
        executor.oag == oag && executor.budgetManager == budgetManager
      ensures forall t :: t in executor.results ==>
        t in executor.graph.nodes && Execution.DependenciesSatisfied(executor.graph, executor.results, t)
      ensures result == ExecutionResult(budgetManager.spent,
                                        MergedArtifacts(executor.resultOrder, executor.results), metrics,
                                        map["project_id" := JStr(projectId),
                                            "results" := JNum(|executor.results| as real),
                                            "budget_remaining" := JNum(Budget.Remaining(budgetManager.spent,
                                                                                        budgetManager.budget.caps))])
      ensures Execution.IsExecutionGraph(executor.graph, old(TaskOrder(oag.order, oag.nodes)), old(oag.edges))
      ensures Execution.ParallelRun(executor.graph, Execution.RunState(old(oag.nodes), old(budgetManager.State())),
                                    executor.Now(), rounds, states, failures)
      ensures state == old(state) && prd == old(prd) && events == old(events)
      ensures projectId == old(projectId) && mockMode == old(mockMode)
    {
      var ex := new Execution.Executor(oag, Some(budgetManager));
      executor := ex;
      var results;
      results, rounds, states := ex.Execute(true, failures);
      result := ExecutionResult(budgetManager.spent, MergedArtifacts(ex.resultOrder, ex.results), metrics,
                                map["project_id" := JStr(projectId),
                                    "results" := JNum(|results| as real),
                                    "budget_remaining" := JNum(Budget.Remaining(budgetManager.spent,
                                                                                budgetManager.budget.caps))]);
    }

    /** `events_stream`: yields the stored events in the order they were appended. */
    method EventsStream() returns (yielded: seq<Event>)
      ensures yielded == events
    {
      yielded := [];
      var i := 0;
      while i < |events|
        invariant 0 <= i <= |events|
        invariant yielded == events[..i]
      {
        yielded := yielded + [events[i]];
        i := i + 1;
      }
    }

    /** `to_dict`: the id, the state and the events always; the PRD, the graph and the
        budget section only when held. */
    function ToDict(): (d: Saved)
      reads this, oag, budgetManager
      ensures d.projectId == Some(projectId) && d.state == Some(state)
      ensures |d.events| == |events| && forall i :: 0 <= i < |events| ==> d.events[i] == EventToDict(events[i])
      ensures d.prd.Some? <==> prd.Some?
      ensures prd.Some? ==> d.prd.value == PrdToDict(prd.value)
      ensures d.oag.Some? <==> oag != null
      ensures oag != null ==> d.oag.value == OagDump(oag.meta, oag.budget, oag.order, oag.nodes, oag.edges)
      ensures d.budget.Some? <==> budgetManager != null
      ensures budgetManager != null ==>
        d.budget.value == SavedBudget(Some(budgetManager.spent),
                                      Some(Budget.Remaining(budgetManager.spent, budgetManager.budget.caps)),
                                      Some(budgetManager.alerts))
    {
      var evs := events;
      Saved(Some(projectId), Some(state), seq(|evs|, i requires 0 <= i < |evs| => EventToDict(evs[i])),
            if prd.Some? then Some(PrdToDict(prd.value)) else None,
            if oag != null then Some(OagDump(oag.meta, oag.budget, oag.order, oag.nodes, oag.edges)) else None,
            if budgetManager != null then
              Some(SavedBudget(Some(budgetManager.spent),
                               Some(Budget.Remaining(budgetManager.spent, budgetManager.budget.caps)),
                               Some(budgetManager.alerts)))
            else None)
    }
  }

  /** `BoardRoom.from_dict`: the id (or a fresh one), the state and the PRD are restored, the
      graph is validated again and gets a fresh budget manager, and the saved spend and alerts
      are written into it directly, with no check against the hard cap. The events are not
      restored. A saved graph that fails validation raises. */
  method FromDict(data: Saved, freshId: string, mockMode: bool) returns (r: Result<BoardRoom, string>)
    requires data.oag.Some? ==> IsDictOrder(data.oag.value.order, data.oag.value.nodes)
    ensures r.Err? <==> data.oag.Some? && ValidateNodes(data.oag.value.order, data.oag.value.nodes).Err?
    ensures r.Ok? ==> fresh(r.value) && r.value.Valid()
    ensures r.Ok? ==> var br := r.value;
      br.projectId == (if data.projectId.Some? && data.projectId.value != "" then data.projectId.value else freshId) &&
      br.mockMode == mockMode && br.events == [] &&
      br.state == (if data.state.Some? then data.state.value else map[]) &&
      br.prd == (if data.prd.Some? then Some(PrdFromDict(data.prd.value)) else None)
    ensures r.Ok? ==> var br := r.value;
      (br.oag != null <==> data.oag.Some?) &&
      (br.oag != null ==> (br.budgetManager != null && fresh(br.oag) && fresh(br.budgetManager) &&
                           OagDump(br.oag.meta, br.oag.budget, br.oag.order, br.oag.nodes, br.oag.edges) == data.oag.value &&
                           br.budgetManager.budget == br.oag.budget && br.budgetManager.spendHistory == [] &&
                           br.budgetManager.spent == RestoredSpent(data.budget) &&
                           br.budgetManager.alerts == RestoredAlerts(data.budget)))
  {
    var br := new BoardRoom(data.projectId, freshId, mockMode);
    br.state := if data.state.Some? then data.state.value else map[];
    if data.prd.Some? {
      br.prd := Some(PrdFromDict(data.prd.value));
    }
    if data.oag.Some? {
      var dump := data.oag.value;
      var check := ValidateNodes(dump.order, dump.nodes);
      if check.Err? {
        return Err(check.error);
      }
      var g, bm := RestoreGraph(dump, data.budget);
      br.oag := g;
      br.budgetManager := bm;
    }
    return Ok(br);
  }

  /** The graph rebuilt from its saved form, with a budget manager over its budget that
      carries the saved spend and alerts (none without a budget section). */
  method RestoreGraph(dump: OagDump, budget: Option<SavedBudget>) returns (g: Oag, bm: Budget.BudgetManager)
    requires IsDictOrder(dump.order, dump.nodes) && ValidateNodes(dump.order, dump.nodes).Ok?
    ensures fresh(g) && fresh(bm) && g.Valid()
    ensures OagDump(g.meta, g.budget, g.order, g.nodes, g.edges) == dump
    ensures bm.budget == g.budget && bm.spendHistory == []
    ensures bm.spent == RestoredSpent(budget) && bm.alerts == RestoredAlerts(budget)
  {
    g := new Oag(dump.meta, dump.budget, dump.order, dump.nodes, dump.edges);
    bm := new Budget.BudgetManager(g.budget);
    if budget.Some? {
      bm.Restore(RestoredSpent(budget), RestoredAlerts(budget));
    }
  }

  /** `data["budget"].get("spent", 0)`, and 0 without a budget section. */
  function RestoredSpent(b: Option<SavedBudget>): real {
    if b.Some? && b.value.spent.Some? then b.value.spent.value else 0.0
  }

  /** `data["budget"].get("alerts", [])`, and none without a budget section. */
  function RestoredAlerts(b: Option<SavedBudget>): seq<Budget.AlertRecord> {
    if b.Some? && b.value.alerts.Some? then b.value.alerts.value else []
  }

  /** Saving and restoring keeps the id, the state, the PRD, the graph, the spend and the
      alerts, even a spend above the hard cap; the events and the spend history are lost. */
  method SaveRestore(br: BoardRoom, freshId: string) returns (copy: BoardRoom)
    requires br.Valid() && br.projectId != ""
    ensures fresh(copy)
    ensures copy.projectId == br.projectId && copy.state == br.state && copy.prd == br.prd
    ensures copy.events == []
    ensures (copy.oag != null <==> br.oag != null)
    ensures br.oag != null ==>
      copy.oag != null && copy.budgetManager != null && br.budgetManager != null &&
      copy.oag.meta == br.oag.meta && copy.oag.budget == br.oag.budget && copy.oag.order == br.oag.order &&
      copy.oag.nodes == br.oag.nodes && copy.oag.edges == br.oag.edges &&
      copy.budgetManager.spent == br.budgetManager.spent && copy.budgetManager.alerts == br.budgetManager.alerts &&
      copy.budgetManager.spendHistory == []
  {
    var saved := br.ToDict();
    if br.oag != null {
      ValidateIffKeysMatch(br.oag.order, br.oag.nodes);
    }
    var r := FromDict(saved, freshId, br.mockMode);
    copy := r.value;
  }
}
