/**
 * The Organizational Agent Graph (OAG): the work graph every phase of plugah
 * reads and writes. Nodes are agents or tasks stored under their own ids, in
 * insertion order; edges are an ordered list with no structural checks.
 */
module OagSchema {
  import opened Wrappers
  import opened Json

  datatype RoleLevel = C_SUITE | VP | DIRECTOR | MANAGER | IC | EXTERNAL

  /** The enum's string value. */
  function LevelName(l: RoleLevel): string {
    match l
    case C_SUITE => "C_SUITE"
    case VP => "VP"
    case DIRECTOR => "DIRECTOR"
    case MANAGER => "MANAGER"
    case IC => "IC"
    case EXTERNAL => "EXTERNAL"
  }

  datatype TaskStatus = Planned | Ready | Running | Done | Failed | Skipped

  function StatusName(s: TaskStatus): string {
    match s
    case Planned => "planned"
    case Ready => "ready"
    case Running => "running"
    case Done => "done"
    case Failed => "failed"
    case Skipped => "skipped"
  }

  datatype Direction = GTE | LTE | EQ

  datatype BudgetPolicy = Conservative | Balanced | Aggressive

  function PolicyName(p: BudgetPolicy): string {
    match p
    case Conservative => "conservative"
    case Balanced => "balanced"
    case Aggressive => "aggressive"
  }

  /** `BudgetPolicy(value)`: the member whose value is `s`; `None` where Python raises ValueError. */
  function ParsePolicy(s: string): (r: Option<BudgetPolicy>)
    ensures r.Some? <==> s in {"conservative", "balanced", "aggressive"}
    ensures r.Some? ==> PolicyName(r.value) == s
  {
    if s == "conservative" then Some(Conservative)
    else if s == "balanced" then Some(Balanced)
    else if s == "aggressive" then Some(Aggressive)
    else None
  }

  datatype Reusability = Exclusive | Shared

  /** Timestamps are seconds supplied by the caller (no clock in the model). */
  datatype OrgMeta = OrgMeta(projectId: string, title: string, domain: Option<string>,
                             createdAt: int, updatedAt: int, version: int)

  datatype Objective = Objective(id: string, title: string, description: string, ownerAgentId: string)

  datatype KeyResult = KeyResult(id: string, objectiveId: string, metric: string,
                                 target: real, current: real, direction: Direction)

  datatype Okr = Okr(objective: Objective, keyResults: seq<KeyResult>)

  datatype Kpi = Kpi(id: string, metric: string, target: real, current: real,
                     direction: Direction, ownerAgentId: string)

  datatype ContractIO = ContractIO(name: string, dtype: string, description: string, required: bool)

  datatype Contract = Contract(inputs: seq<ContractIO>, outputs: seq<ContractIO>, definitionOfDone: string)

  datatype ToolRef = ToolRef(id: string, args: Option<Dict>)

  datatype BudgetCaps = BudgetCaps(hardCapUsd: real, softCapUsd: real)

  datatype CostTrack = CostTrack(estCostUsd: real, actualCostUsd: real, tokenEstimate: int)

  datatype AgentSpec = AgentSpec(
    id: string,
    role: string,
    level: RoleLevel,
    managerId: Option<string>,
    specialization: Option<string>,
    systemPrompt: string,
    tools: seq<ToolRef>,
    llm: Option<string>,
    okrs: seq<Okr>,
    kpis: seq<Kpi>,
    reusability: Reusability)

  datatype TaskSpec = TaskSpec(
    id: string,
    description: string,
    agentId: string,
    contract: Contract,
    expectedOutput: string,
    status: TaskStatus,
    artifacts: Dict,
    cost: CostTrack,
    dependencies: seq<string>)

  datatype Edge = Edge(id: string, fromId: string, toId: string, condition: Option<string>,
                       mapping: map<string, string>)

  datatype BudgetModel = BudgetModel(caps: BudgetCaps, forecastCostUsd: real, actualCostUsd: real,
                                     policy: BudgetPolicy)

  /** A node of the graph: `AgentSpec | TaskSpec`, told apart by `isinstance`. */
  datatype Node = Agent(agent: AgentSpec) | Task(task: TaskSpec) {
    function Id(): string {
      match this
      case Agent(a) => a.id
      case Task(t) => t.id
    }
  }

  /** `AgentSpec(id=…, role=…, level=…)` with every other field at its default. */
  function NewAgentSpec(id: string, role: string, level: RoleLevel): (a: AgentSpec)
    ensures a.id == id && a.role == role && a.level == level
    ensures a.managerId == None && a.specialization == None && a.llm == None
    ensures a.systemPrompt == "" && a.tools == [] && a.okrs == [] && a.kpis == []
    ensures a.reusability == Exclusive
  {
    AgentSpec(id, role, level, None, None, "", [], None, [], [], Exclusive)
  }

  /** `Contract(definition_of_done=…)`: inputs and outputs default to empty lists. */
  function NewContract(definitionOfDone: string): (c: Contract)
    ensures c.inputs == [] && c.outputs == [] && c.definitionOfDone == definitionOfDone
  {
    Contract([], [], definitionOfDone)
  }

  /** `TaskSpec(id, description, agent_id, contract, expected_output)`: a new task is PLANNED,
      with no artifacts, zero cost and no dependencies. */
  function NewTaskSpec(id: string, description: string, agentId: string, contract: Contract,
                       expectedOutput: string): (t: TaskSpec)
    ensures t.id == id && t.agentId == agentId && t.contract == contract
    ensures t.status == Planned
    ensures t.artifacts == map[] && t.dependencies == []
    ensures t.cost == CostTrack(0.0, 0.0, 0)
  {
    TaskSpec(id, description, agentId, contract, expectedOutput, Planned, map[], CostTrack(0.0, 0.0, 0), [])
  }

  /** Every key names a node with that id: the invariant the OAG validator enforces. */
  ghost predicate KeysMatchIds(nodes: map<string, Node>) {
    forall k :: k in nodes ==> nodes[k].Id() == k
  }

  /** `order` lists the keys of `nodes` once each: a Python dict's iteration order. */
  ghost predicate IsDictOrder(order: seq<string>, nodes: map<string, Node>) {
    (forall i, j :: 0 <= i < j < |order| ==> order[i] != order[j]) &&
    (forall k :: k in nodes <==> k in order)
  }

  function MismatchMessage(key: string, id: string): string {
    "Node ID mismatch: " + key + " != " + id
  }

  /** The `nodes` validator: walks the dict in order and fails on the first key whose node
      carries a different id. */
  function ValidateNodes(order: seq<string>, nodes: map<string, Node>): (r: Result<(), string>)
    requires forall i :: 0 <= i < |order| ==> order[i] in nodes
    ensures r.Ok? <==> forall i :: 0 <= i < |order| ==> nodes[order[i]].Id() == order[i]
    ensures r.Err? ==> exists i :: 0 <= i < |order| && nodes[order[i]].Id() != order[i] &&
                                   r.error == MismatchMessage(order[i], nodes[order[i]].Id())
  {
    if order == [] then Ok(())
    else if nodes[order[0]].Id() != order[0] then Err(MismatchMessage(order[0], nodes[order[0]].Id()))
    else
      var rest := ValidateNodes(order[1..], nodes);
      assert forall i :: 1 <= i < |order| ==> order[i] == order[1..][i - 1];
      rest
  }

  /** Constructing an OAG succeeds exactly when every key equals its node's id. */
  lemma ValidateIffKeysMatch(order: seq<string>, nodes: map<string, Node>)
    requires IsDictOrder(order, nodes)
    ensures ValidateNodes(order, nodes).Ok? <==> KeysMatchIds(nodes)
  {
    if ValidateNodes(order, nodes).Ok? {
      forall k | k in nodes ensures nodes[k].Id() == k {
        var i :| 0 <= i < |order| && order[i] == k;
      }
    }
  }

  /** `get_agents()`: the agent nodes, under their original keys. */
  function GetAgents(nodes: map<string, Node>): (r: map<string, AgentSpec>)
    ensures forall k :: k in r <==> k in nodes && nodes[k].Agent?
    ensures forall k :: k in r ==> nodes[k] == Agent(r[k])
  {
    map k | k in nodes && nodes[k].Agent? :: nodes[k].agent
  }

  /** `get_tasks()`: the task nodes, under their original keys. */
  function GetTasks(nodes: map<string, Node>): (r: map<string, TaskSpec>)
    ensures forall k :: k in r <==> k in nodes && nodes[k].Task?
    ensures forall k :: k in r ==> nodes[k] == Task(r[k])
  {
    map k | k in nodes && nodes[k].Task? :: nodes[k].task
  }

  /** Agents and tasks partition the node map. */
  lemma AgentsTasksPartition(nodes: map<string, Node>)
    ensures GetAgents(nodes).Keys !! GetTasks(nodes).Keys
    ensures GetAgents(nodes).Keys + GetTasks(nodes).Keys == nodes.Keys
    ensures |GetAgents(nodes)| + |GetTasks(nodes)| == |nodes|
  {
    var a, t := GetAgents(nodes).Keys, GetTasks(nodes).Keys;
    assert a + t == nodes.Keys;
    assert |a + t| == |a| + |t|;
  }

  /** The ids of `order` whose node is an agent, in order. */
  function AgentOrder(order: seq<string>, nodes: map<string, Node>): (r: seq<string>)
    ensures forall k :: k in r <==> k in order && k in nodes && nodes[k].Agent?
    ensures |r| <= |order|
  {
    if order == [] then []
    else
      var rest := AgentOrder(order[1..], nodes);
      if order[0] in nodes && nodes[order[0]].Agent? then [order[0]] + rest else rest
  }

  /** The ids of `order` whose node is a task, in order. */
  function TaskOrder(order: seq<string>, nodes: map<string, Node>): (r: seq<string>)
    ensures forall k :: k in r <==> k in order && k in nodes && nodes[k].Task?
    ensures |r| <= |order|
  {
    if order == [] then []
    else
      var rest := TaskOrder(order[1..], nodes);
      if order[0] in nodes && nodes[order[0]].Task? then [order[0]] + rest else rest
  }

  /** `get_node(id)`: `None` exactly when the id is not a key. */
  function GetNode(nodes: map<string, Node>, id: string): (r: Option<Node>)
    ensures r.None? <==> id !in nodes
    ensures r.Some? ==> r.value == nodes[id]
  {
    if id in nodes then Some(nodes[id]) else None
  }

  /** `get_dependencies(task_id)`: the source of every edge into the task, in edge order,
      duplicates kept. */
  function GetDependencies(edges: seq<Edge>, taskId: string): (r: seq<string>)
    ensures |r| <= |edges|
    ensures forall x :: x in r <==> exists e :: e in edges && e.toId == taskId && e.fromId == x
  {
    if edges == [] then []
    else
      var last := edges[|edges| - 1];
      var front := GetDependencies(edges[..|edges| - 1], taskId);
      assert forall e :: e in edges <==> e in edges[..|edges| - 1] || e == last;
      if last.toId == taskId then front + [last.fromId] else front
  }

  /** Appending an edge extends a task's dependency list at the end, and only the target's. */
  lemma DependenciesAfterAddEdge(edges: seq<Edge>, e: Edge, taskId: string)
    ensures GetDependencies(edges + [e], taskId) ==
            GetDependencies(edges, taskId) + (if e.toId == taskId then [e.fromId] else [])
  {
    assert (edges + [e])[..|edges|] == edges;
  }

  /** Edge count into a task equals the length of its dependency list. */
  function InDegree(edges: seq<Edge>, taskId: string): nat {
    if edges == [] then 0
    else InDegree(edges[..|edges| - 1], taskId) + (if edges[|edges| - 1].toId == taskId then 1 else 0)
  }

  lemma {:induction false} DependenciesCountEdges(edges: seq<Edge>, taskId: string)
    ensures |GetDependencies(edges, taskId)| == InDegree(edges, taskId)
  {
    if edges != [] {
      DependenciesCountEdges(edges[..|edges| - 1], taskId);
    }
  }

  /** The graph. `nodes` and `order` together are the Python dict; the methods that change
      them are the only writers. */
  class Oag {
    var meta: OrgMeta
    var budget: BudgetModel
    var nodes: map<string, Node>
    var order: seq<string>
    var edges: seq<Edge>

    ghost predicate Valid()
      reads this
    {
      KeysMatchIds(nodes) && IsDictOrder(order, nodes)
    }

    /** `OAG(meta=…, budget=…, nodes=…, edges=…)` once the validator has passed. */
    constructor (meta: OrgMeta, budget: BudgetModel, order: seq<string>, nodes: map<string, Node>,
                 edges: seq<Edge>)
      requires IsDictOrder(order, nodes)
      requires ValidateNodes(order, nodes).Ok?
      ensures Valid()
      ensures this.meta == meta && this.budget == budget && this.nodes == nodes
      ensures this.order == order && this.edges == edges
    {
      this.meta := meta;
      this.budget := budget;
      this.nodes := nodes;
      this.order := order;
      this.edges := edges;
      new;
      ValidateIffKeysMatch(order, nodes);
    }

    /** `add_node`: stores the node under its id, replacing any node already there.
        A new id joins the iteration order at the end; a replaced one keeps its place. */
    method AddNode(n: Node)
      requires Valid()
      modifies this
      ensures Valid()
      ensures nodes == old(nodes)[n.Id() := n]
      ensures order == if n.Id() in old(nodes) then old(order) else old(order) + [n.Id()]
      ensures edges == old(edges) && meta == old(meta) && budget == old(budget)
    {
      if n.Id() !in nodes {
        order := order + [n.Id()];
      }
      nodes := nodes[n.Id() := n];
    }

    /** `add_edge`: appends, with no endpoint or cycle check. */
    method AddEdge(e: Edge)
      modifies this
      ensures edges == old(edges) + [e]
      ensures nodes == old(nodes) && order == old(order) && meta == old(meta) && budget == old(budget)
    {
      edges := edges + [e];
    }

    /** Replaces the budget model (the `oag.budget` fields the budget manager writes). */
    method SetBudget(b: BudgetModel)
      modifies this
      ensures budget == b
      ensures nodes == old(nodes) && order == old(order) && edges == old(edges) && meta == old(meta)
    {
      budget := b;
    }
  }
}
