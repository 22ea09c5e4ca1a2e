/**
 * The `Planner`: turns a PRD and a budget into a graph, step by step through `add_node`
 * and `add_edge`: three executives, VPs, directors, managers and ICs fanned out per parent,
 * six standard tasks in a chain, and the cost forecast. Staffing, tools, models and role
 * costs follow the selector's own policy string; the computed policy only goes into the
 * budget model.
 */
module Planning {
  import opened Wrappers
  import opened Json
  import opened Strs
  import opened OagSchema
  import opened Selection
  import opened Seqs

  /** The `Selector` a planner is given, seen through the methods the planner calls. The
      system-prompt template is outside the model: `prompt` receives role, level and
      specialization, with the project title, domain and context of one plan fixed inside it. */
  datatype SelectorFns = SelectorFns(
    specialization: (string, Option<string>) -> Option<string>,
    tools: (string, Option<string>, real) -> seq<ToolRef>,
    model: RoleLevel -> string,
    prompt: (string, RoleLevel, Option<string>) -> string,
    staffing: real -> Staffing,
    roleCost: RoleLevel -> real)

  /** `Selector(budget_policy)`: the Selection module under one policy string. */
  function DefaultSelector(policy: string, prompt: (string, RoleLevel, Option<string>) -> string): (sel: SelectorFns)
    ensures forall role, domain :: sel.specialization(role, domain) == SelectSpecialization(role, domain)
    ensures forall role, spec, budget :: sel.tools(role, spec, budget) == ToolRefsFor(policy, role, spec, budget)
    ensures forall level :: sel.model(level) == SelectModel(policy, level) && sel.roleCost(level) == EstimateRoleCost(policy, level)
    ensures forall budget :: sel.staffing(budget) == DetermineStaffingLevel(policy, budget)
    ensures CostsPositive(sel)
  {
    SelectorFns((role, domain) => SelectSpecialization(role, domain),
                (role, spec, budget) => ToolRefsFor(policy, role, spec, budget),
                level => SelectModel(policy, level),
                prompt,
                budget => DetermineStaffingLevel(policy, budget),
                level => EstimateRoleCost(policy, level))
  }

  /** Every role costs something, as `estimate_role_cost` promises for every policy. */
  ghost predicate CostsPositive(sel: SelectorFns) {
    forall level :: sel.roleCost(level) > 0.0
  }

  /** What one plan fixes for every agent it creates. */
  datatype PlanEnv = PlanEnv(sel: SelectorFns, domain: Option<string>, hardCap: real)

  /** The PRD fields the planner reads; `None` is a missing key. A present domain is either a
      string or null (`Some(None)`), which `OrgMeta.domain: str | None` accepts. */
  datatype PlanRequest = PlanRequest(title: Option<string>, domain: Option<Option<string>>, objectives: seq<Json>)

  function RequestTitle(req: PlanRequest): string {
    if req.title.Some? then req.title.value else "Project"
  }

  /** `prd.get("domain", "general")`: a null domain stays none. */
  function RequestDomain(req: PlanRequest): Option<string> {
    if req.domain.Some? then req.domain.value else Some("general")
  }

  /** `_determine_budget_policy`: conservative for a small budget or many objectives,
      aggressive for a large budget with few objectives, balanced otherwise. */
  function DetermineBudgetPolicy(budget: real, numObjectives: nat): (p: BudgetPolicy)
    ensures p == Conservative <==> budget < 20.0 || numObjectives > 5
    ensures p == Aggressive <==> budget >= 20.0 && budget > 100.0 && 3 >= numObjectives
    ensures p == Balanced <==> 20.0 <= budget && numObjectives <= 5 && (budget <= 100.0 || numObjectives > 3)
  {
    if budget < 20.0 || numObjectives > 5 then Conservative
    else if budget > 100.0 && numObjectives <= 3 then Aggressive
    else Balanced
  }

  /** `_estimate_scope_size`. */
  function EstimateScopeSize(numObjectives: nat): (s: string)
    ensures s == "small" <==> numObjectives <= 2
    ensures s == "large" <==> numObjectives > 5
    ensures s in {"small", "medium", "large"}
  {
    if numObjectives <= 2 then "small" else if numObjectives <= 5 then "medium" else "large"
  }

  /** The plan's caps: the budget is the hard cap and 80% of it the soft cap. */
  function PlanCaps(budget: real): (c: BudgetCaps)
    ensures c.hardCapUsd == budget && c.softCapUsd == budget * 0.8
    ensures budget >= 0.0 ==> 0.0 <= c.softCapUsd <= c.hardCapUsd
  {
    BudgetCaps(budget, budget * 0.8)
  }

  // ---------------------------------------------------------------------------
  // The node dict as `add_node` builds it

  /** The node dict: entries and their insertion order. */
  datatype Table = Table(nodes: map<string, Node>, order: seq<string>)

  /** One `add_node`. */
  function Insert(t: Table, n: Node): Table {
    Table(t.nodes[n.Id() := n], if n.Id() in t.nodes then t.order else t.order + [n.Id()])
  }

  /** `add_node` of each node in turn. */
  function InsertAll(t: Table, ns: seq<Node>): Table {
    if ns == [] then t else Insert(InsertAll(t, ns[..|ns| - 1]), ns[|ns| - 1])
  }

  lemma InsertAllAppend(t: Table, ns: seq<Node>, n: Node)
    ensures InsertAll(t, ns + [n]) == Insert(InsertAll(t, ns), n)
  {
    assert (ns + [n])[..|ns|] == ns;
  }

  lemma {:induction false} InsertAllConcat(t: Table, a: seq<Node>, b: seq<Node>)
    ensures InsertAll(t, a + b) == InsertAll(InsertAll(t, a), b)
    decreases |b|
  {
    if b == [] {
      assert a + b == a;
    } else {
      var front := b[..|b| - 1];
      assert a + b == (a + front) + [b[|b| - 1]];
      InsertAllAppend(t, a + front, b[|b| - 1]);
      InsertAllConcat(t, a, front);
    }
  }

  /** The ids of a list of nodes, in order. */
  function NodeIds(ns: seq<Node>): seq<string> {
    seq(|ns|, i requires 0 <= i < |ns| => ns[i].Id())
  }

  /** A key no inserted node carries keeps its entry. */
  lemma {:induction false} InsertAllUntouched(t: Table, ns: seq<Node>, k: string)
    requires forall i :: 0 <= i < |ns| ==> ns[i].Id() != k
    ensures k in InsertAll(t, ns).nodes <==> k in t.nodes
    ensures k in t.nodes ==> InsertAll(t, ns).nodes[k] == t.nodes[k]
  {
    if ns != [] {
      InsertAllUntouched(t, ns[..|ns| - 1], k);
    }
  }

  /** The last node inserted under an id is the one stored there. */
  lemma {:induction false} InsertAllLastWins(t: Table, ns: seq<Node>, i: nat)
    requires i < |ns|
    requires forall j :: i < j < |ns| ==> ns[j].Id() != ns[i].Id()
    ensures ns[i].Id() in InsertAll(t, ns).nodes && InsertAll(t, ns).nodes[ns[i].Id()] == ns[i]
  {
    if i < |ns| - 1 {
      InsertAllLastWins(t, ns[..|ns| - 1], i);
    }
  }

  /** The keys after the insertions: the old ones and the inserted ids. */
  lemma {:induction false} InsertAllKeys(t: Table, ns: seq<Node>)
    ensures forall k :: k in InsertAll(t, ns).nodes <==> k in t.nodes || k in NodeIds(ns)
  {
    if ns != [] {
      var front := ns[..|ns| - 1];
      InsertAllKeys(t, front);
      assert NodeIds(ns) == NodeIds(front) + [ns[|ns| - 1].Id()];
    }
  }

  /** `Agent(spec)` for each spec, in order. */
  function AgentNodes(specs: seq<AgentSpec>): seq<Node> {
    seq(|specs|, i requires 0 <= i < |specs| => Agent(specs[i]))
  }

  lemma AgentNodesConcat(a: seq<AgentSpec>, b: seq<AgentSpec>)
    ensures AgentNodes(a + b) == AgentNodes(a) + AgentNodes(b)
  {
    assert |AgentNodes(a + b)| == |AgentNodes(a) + AgentNodes(b)|;
  }

  // ---------------------------------------------------------------------------
  // Executives

  /** `_create_okrs_for_role`: the CEO's user-value OKR when there are objectives, the CTO's
      technical-excellence OKR always, nothing for any other role. */
  function CreateOkrsForRole(role: string, objectives: seq<Json>): (okrs: seq<Okr>)
    ensures role == "CEO" ==> (okrs != [] <==> objectives != [])
    ensures role == "CEO" && okrs != [] ==>
      (|okrs| == 1 && |okrs[0].keyResults| == 2 && okrs[0].objective.ownerAgentId == "agent_ceo")
    ensures role == "CTO" ==> |okrs| == 1 && |okrs[0].keyResults| == 1 && okrs[0].objective.ownerAgentId == "agent_cto"
    ensures role != "CEO" && role != "CTO" ==> okrs == []
    ensures forall okr :: okr in okrs ==> forall kr :: kr in okr.keyResults ==>
      kr.objectiveId == okr.objective.id && kr.direction == GTE && kr.current == 0.0 && kr.target > 0.0
  {
    if role == "CEO" && objectives != [] then
      [Okr(Objective("obj_user_value", "Deliver User Value", "Ensure project delivers value to users", "agent_ceo"),
           [KeyResult("kr_completion", "obj_user_value", "Project Completion", 100.0, 0.0, GTE),
            KeyResult("kr_quality", "obj_user_value", "Quality Score", 90.0, 0.0, GTE)])]
    else if role == "CTO" then
      [Okr(Objective("obj_tech_excellence", "Technical Excellence", "Ensure technical quality and architecture", "agent_cto"),
           [KeyResult("kr_architecture", "obj_tech_excellence", "Architecture Score", 95.0, 0.0, GTE)])]
    else []
  }

  /** The CFO's KPIs: burn rate at most a tenth of the soft cap, cost per deliverable at most
      the hard cap spread over the objectives (at least one). */
  function CfoKpis(caps: BudgetCaps, numObjectives: nat): (kpis: seq<Kpi>)
    ensures |kpis| == 2
    ensures forall k :: k in kpis ==> k.direction == LTE && k.ownerAgentId == "agent_cfo" && k.current == 0.0
    ensures kpis[0].target == caps.softCapUsd / 10.0
    ensures numObjectives >= 1 ==> kpis[1].target == caps.hardCapUsd / numObjectives as real
    ensures numObjectives == 0 ==> kpis[1].target == caps.hardCapUsd
  {
    var spread := if numObjectives > 1 then numObjectives else 1;
    [Kpi("kpi_burn_rate", "Burn Rate", caps.softCapUsd / 10.0, 0.0, LTE, "agent_cfo"),
     Kpi("kpi_cost_efficiency", "Cost per Deliverable", caps.hardCapUsd / spread as real, 0.0, LTE, "agent_cfo")]
  }

  /** A C_SUITE agent with the tools and model the selector gives its role. */
  function ExecutiveSpec(id: string, role: string, env: PlanEnv, okrs: seq<Okr>, kpis: seq<Kpi>): AgentSpec {
    AgentSpec(id, role, C_SUITE, None, None, env.sel.prompt(role, C_SUITE, None),
              env.sel.tools(role, None, env.hardCap), Some(env.sel.model(C_SUITE)), okrs, kpis, Exclusive)
  }

  /** The board room, in creation order: CEO, CTO, CFO. */
  function BoardRoom(env: PlanEnv, caps: BudgetCaps, objectives: seq<Json>): seq<AgentSpec> {
    [ExecutiveSpec("agent_ceo", "CEO", env, CreateOkrsForRole("CEO", objectives), []),
     ExecutiveSpec("agent_cto", "CTO", env, CreateOkrsForRole("CTO", objectives), []),
     ExecutiveSpec("agent_cfo", "CFO", env, [], CfoKpis(caps, |objectives|))]
  }

  method BuildExecutive(id: string, role: string, env: PlanEnv, okrs: seq<Okr>, kpis: seq<Kpi>) returns (a: AgentSpec)
    ensures a == ExecutiveSpec(id, role, env, okrs, kpis)
  {
    var tools := env.sel.tools(role, None, env.hardCap);
    a := AgentSpec(id, role, C_SUITE, None, None, env.sel.prompt(role, C_SUITE, None), tools,
                   Some(env.sel.model(C_SUITE)), okrs, kpis, Exclusive);
  }

  /** Adding one more agent: the node list and the id list each grow by that agent. */
  lemma AgentStep(t0: Table, done: seq<AgentSpec>, a: AgentSpec)
    ensures InsertAll(t0, AgentNodes(done + [a])) == Insert(InsertAll(t0, AgentNodes(done)), Agent(a))
    ensures SpecIds(done + [a]) == SpecIds(done) + [a.id]
  {
    AgentNodesConcat(done, [a]);
    InsertAllAppend(t0, AgentNodes(done), Agent(a));
    SpecIdsConcat(done, [a]);
  }

  /** `oag.add_node` of one agent, tracked against the list of agents added so far. */
  method AddAgent(oag: Oag, ghost t0: Table, ghost done: seq<AgentSpec>, a: AgentSpec)
    requires oag.Valid() && Table(oag.nodes, oag.order) == InsertAll(t0, AgentNodes(done))
    modifies oag
    ensures oag.Valid() && Table(oag.nodes, oag.order) == InsertAll(t0, AgentNodes(done + [a]))
    ensures SpecIds(done + [a]) == SpecIds(done) + [a.id]
    ensures oag.edges == old(oag.edges) && oag.meta == old(oag.meta) && oag.budget == old(oag.budget)
  {
    AgentStep(t0, done, a);
    oag.AddNode(Agent(a));
  }

  lemma InsertThree(t0: Table, a: AgentSpec, b: AgentSpec, c: AgentSpec)
    ensures InsertAll(t0, AgentNodes([a, b, c])) == Insert(Insert(Insert(t0, Agent(a)), Agent(b)), Agent(c))
  {
    var x, y, z := Agent(a), Agent(b), Agent(c);
    assert AgentNodes([a, b, c]) == [x, y] + [z];
    assert [x] + [y] == [x, y];
    assert [] + [x] == [x];
    InsertAllAppend(t0, [], x);
    InsertAllAppend(t0, [x], y);
    InsertAllAppend(t0, [x, y], z);
  }

  /** `_create_board_room`. */
  method CreateBoardRoom(oag: Oag, env: PlanEnv, caps: BudgetCaps, objectives: seq<Json>)
    requires oag.Valid()
    modifies oag
    ensures oag.Valid()
    ensures Table(oag.nodes, oag.order) == InsertAll(Table(old(oag.nodes), old(oag.order)), AgentNodes(BoardRoom(env, caps, objectives)))
    ensures oag.edges == old(oag.edges) && oag.meta == old(oag.meta) && oag.budget == old(oag.budget)
  {
    ghost var t0 := Table(oag.nodes, oag.order);
    ghost var board := BoardRoom(env, caps, objectives);
    var ceo := BuildExecutive("agent_ceo", "CEO", env, CreateOkrsForRole("CEO", objectives), []);
    oag.AddNode(Agent(ceo));
    var cto := BuildExecutive("agent_cto", "CTO", env, CreateOkrsForRole("CTO", objectives), []);
    oag.AddNode(Agent(cto));
    var cfo := BuildExecutive("agent_cfo", "CFO", env, [], CfoKpis(caps, |objectives|));
    oag.AddNode(Agent(cfo));
    InsertThree(t0, ceo, cto, cfo);
  }

  // ---------------------------------------------------------------------------
  // VPs

  const VpRoles: seq<string> := ["VP Engineering", "VP Product", "VP Data"]

  /** `agent_vp_` and the role lower-cased with spaces as underscores. */
  function VpId(role: string): string {
    "agent_vp_" + ReplaceChar(Lower(role), ' ', '_')
  }

  /** A VP reports to the CEO and keeps the specialization the selector finds for its role. */
  function VpSpec(role: string, env: PlanEnv): (a: AgentSpec)
    ensures a.id == VpId(role) && a.level == VP && a.managerId == Some("agent_ceo")
  {
    AgentSpec(VpId(role), role, VP, Some("agent_ceo"), env.sel.specialization(role, env.domain),
              env.sel.prompt(role, VP, None), env.sel.tools(role, None, env.hardCap * 0.3),
              Some(env.sel.model(VP)), [], [], Exclusive)
  }

  /** The VP roles hired: the first `count` of the fixed list, at most three. */
  function VpRolesFor(count: nat): (roles: seq<string>)
    ensures |roles| == if count < 3 then count else 3
    ensures roles == VpRoles[..|roles|]
  {
    if count < 3 then VpRoles[..count] else VpRoles
  }

  function VpSpecs(roles: seq<string>, env: PlanEnv): seq<AgentSpec> {
    seq(|roles|, i requires 0 <= i < |roles| => VpSpec(roles[i], env))
  }

  lemma VpSpecsStep(roles: seq<string>, i: nat, env: PlanEnv)
    requires i < |roles|
    ensures VpSpecs(roles[..i + 1], env) == VpSpecs(roles[..i], env) + [VpSpec(roles[i], env)]
  {
    assert roles[..i + 1] == roles[..i] + [roles[i]];
  }

  method BuildVp(role: string, env: PlanEnv) returns (a: AgentSpec)
    ensures a == VpSpec(role, env)
  {
    var specialization := env.sel.specialization(role, env.domain);
    var tools := env.sel.tools(role, None, env.hardCap * 0.3);
    a := AgentSpec(VpId(role), role, VP, Some("agent_ceo"), specialization,
                   env.sel.prompt(role, VP, None), tools, Some(env.sel.model(VP)), [], [], Exclusive);
  }

  /** `_create_vps`. */
  method CreateVps(oag: Oag, env: PlanEnv, count: nat) returns (vpIds: seq<string>)
    requires oag.Valid()
    modifies oag
    ensures oag.Valid()
    ensures vpIds == SpecIds(VpSpecs(VpRolesFor(count), env))
    ensures Table(oag.nodes, oag.order) == InsertAll(Table(old(oag.nodes), old(oag.order)), AgentNodes(VpSpecs(VpRolesFor(count), env)))
    ensures oag.edges == old(oag.edges) && oag.meta == old(oag.meta) && oag.budget == old(oag.budget)
  {
    ghost var t0 := Table(oag.nodes, oag.order);
    var roles := VpRolesFor(count);
    vpIds := [];
    var i := 0;
    while i < |roles|
      invariant 0 <= i <= |roles|
      invariant oag.Valid()
      invariant vpIds == SpecIds(VpSpecs(roles[..i], env))
      invariant Table(oag.nodes, oag.order) == InsertAll(t0, AgentNodes(VpSpecs(roles[..i], env)))
      invariant oag.edges == old(oag.edges) && oag.meta == old(oag.meta) && oag.budget == old(oag.budget)
    {
      var vp := BuildVp(roles[i], env);
      VpSpecsStep(roles, i, env);
      AddAgent(oag, t0, VpSpecs(roles[..i], env), vp);
      vpIds := vpIds + [vp.id];
      i := i + 1;
    }
    assert roles[..i] == roles;
  }

  /** The ids of a list of agent specs, in order. */
  function SpecIds(specs: seq<AgentSpec>): seq<string> {
    seq(|specs|, i requires 0 <= i < |specs| => specs[i].id)
  }

  lemma SpecIdsConcat(a: seq<AgentSpec>, b: seq<AgentSpec>)
    ensures SpecIds(a + b) == SpecIds(a) + SpecIds(b)
  {
    assert |SpecIds(a + b)| == |SpecIds(a) + SpecIds(b)|;
  }

  // ---------------------------------------------------------------------------
  // Directors, managers and ICs

  datatype Tier = Directors | Managers | Ics

  const IcRoles: seq<string> := ["Engineer", "Analyst", "Designer", "QA"]

  /** `max(1, count // max(len(parents), 1))`. */
  function PerParent(count: nat, parents: nat): (n: nat)
    ensures n >= 1
    ensures parents >= 1 && count >= parents ==> n == count / parents
  {
    var q := count / (if parents > 1 then parents else 1);
    if q > 1 then q else 1
  }

  /** `s.split('_')[-2]`; empty for a string without `_`, which no director id is. */
  function SecondLastSegment(s: string): string {
    var parts := Split(s, '_');
    if |parts| >= 2 then parts[|parts| - 2] else ""
  }

  /** The id of the `i`-th child of `parent`. Directors keep the last segment of the VP id,
      managers the last two of the director id; an IC keeps only the last segment of its
      manager's id, its role and its index. */
  function ChildId(tier: Tier, parent: string, i: nat): string {
    match tier
    case Directors => "agent_dir_" + LastSegment(parent, '_') + "_" + NatToString(i)
    case Managers => "agent_mgr_" + SecondLastSegment(parent) + "_" + LastSegment(parent, '_') + "_" + NatToString(i)
    case Ics => "agent_ic_" + LastSegment(parent, '_') + "_" + Lower(IcRoles[i % 4]) + "_" + NatToString(i)
  }

  /** The `i`-th child of `parent`: reports to `parent`, with the role, tools and model of its tier. */
  function ChildSpec(tier: Tier, parent: string, i: nat, env: PlanEnv): (a: AgentSpec)
    ensures a.id == ChildId(tier, parent, i) && a.managerId == Some(parent)
    ensures a.level == match tier case Directors => DIRECTOR case Managers => MANAGER case Ics => IC
  {
    match tier
    case Directors =>
      AgentSpec(ChildId(tier, parent, i), "Director " + NatToString(i + 1), DIRECTOR, Some(parent), None,
                env.sel.prompt("Director", DIRECTOR, None), env.sel.tools("Director", None, env.hardCap * 0.1),
                Some(env.sel.model(DIRECTOR)), [], [], Exclusive)
    case Managers =>
      AgentSpec(ChildId(tier, parent, i), "Manager " + NatToString(i + 1), MANAGER, Some(parent), None,
                env.sel.prompt("Manager", MANAGER, None), env.sel.tools("Manager", None, env.hardCap * 0.05),
                Some(env.sel.model(MANAGER)), [], [], Exclusive)
    case Ics =>
      var role := IcRoles[i % 4];
      var specialization := env.sel.specialization(role, env.domain);
      AgentSpec(ChildId(tier, parent, i), role, IC, Some(parent), specialization,
                env.sel.prompt(role, IC, specialization), env.sel.tools(role, specialization, env.hardCap * 0.02),
                Some(env.sel.model(IC)), [], [], Exclusive)
  }

  /** Children `0..n-1` of one parent. */
  function Row(tier: Tier, parent: string, n: nat, env: PlanEnv): seq<AgentSpec> {
    seq(n, i requires 0 <= i < n => ChildSpec(tier, parent, i, env))
  }

  lemma RowStep(tier: Tier, parent: string, n: nat, env: PlanEnv)
    ensures Row(tier, parent, n + 1, env) == Row(tier, parent, n, env) + [ChildSpec(tier, parent, n, env)]
  {
  }

  lemma RowExtend(before: seq<AgentSpec>, tier: Tier, parent: string, n: nat, env: PlanEnv)
    ensures before + Row(tier, parent, n + 1, env) == (before + Row(tier, parent, n, env)) + [ChildSpec(tier, parent, n, env)]
  {
    RowStep(tier, parent, n, env);
  }

  /** Every parent's row, parent by parent. */
  function Family(tier: Tier, parents: seq<string>, per: nat, env: PlanEnv): seq<AgentSpec> {
    if parents == [] then []
    else Family(tier, parents[..|parents| - 1], per, env) + Row(tier, parents[|parents| - 1], per, env)
  }

  /** `a * b`, by repeated addition, so that offsets stay linear facts for the solver. */
  function Times(a: nat, b: nat): nat {
    if a == 0 then 0 else Times(a - 1, b) + b
  }

  lemma {:induction false} TimesMonotone(a: nat, c: nat, b: nat)
    requires a <= c
    ensures Times(a, b) <= Times(c, b)
    decreases c
  {
    if a < c {
      TimesMonotone(a, c - 1, b);
    }
  }

  /** Offset `j` in block `p` lies before the end of `n > p` blocks. */
  lemma TimesBound(p: nat, n: nat, per: nat, j: nat)
    requires p < n && j < per
    ensures Times(p, per) + j < Times(n, per)
  {
    TimesMonotone(p + 1, n, per);
  }

  lemma {:induction false} FamilyLength(tier: Tier, parents: seq<string>, per: nat, env: PlanEnv)
    ensures |Family(tier, parents, per, env)| == Times(|parents|, per)
    decreases |parents|
  {
    if parents != [] {
      FamilyLength(tier, parents[..|parents| - 1], per, env);
    }
  }

  lemma RowAt(tier: Tier, parent: string, per: nat, env: PlanEnv, j: nat)
    requires j < per
    ensures |Row(tier, parent, per, env)| == per && Row(tier, parent, per, env)[j] == ChildSpec(tier, parent, j, env)
  {
  }

  /** One row per key, laid end to end: the shape of a family, whatever the rows hold. */
  ghost function Blocks<T>(keys: seq<string>, row: string -> seq<T>): seq<T> {
    if keys == [] then [] else Blocks(keys[..|keys| - 1], row) + row(keys[|keys| - 1])
  }

  lemma {:induction false} FamilyBlocks(tier: Tier, parents: seq<string>, per: nat, env: PlanEnv)
    ensures Family(tier, parents, per, env) == Blocks(parents, k => Row(tier, k, per, env))
    decreases |parents|
  {
    if parents != [] {
      FamilyBlocks(tier, parents[..|parents| - 1], per, env);
    }
  }

  /** With rows of `per` elements, element `j` of row `p` sits at offset `p * per + j`. */
  lemma {:induction false} BlocksAt<T>(keys: seq<string>, row: string -> seq<T>, per: nat, p: nat, j: nat)
    requires p < |keys| && j < per
    requires forall i :: 0 <= i < |keys| ==> |row(keys[i])| == per
    ensures |Blocks(keys, row)| == Times(|keys|, per)
    ensures Times(p, per) + j < |Blocks(keys, row)| && Blocks(keys, row)[Times(p, per) + j] == row(keys[p])[j]
    decreases |keys|
  {
    var front := keys[..|keys| - 1];
    var k := Times(p, per) + j;
    TimesBound(p, |keys|, per, j);
    if p < |keys| - 1 {
      BlocksAt(front, row, per, p, j);
      assert front[p] == keys[p];
      ConcatIndex(Blocks(front, row), row(keys[|keys| - 1]), k);
    } else if front == [] {
      assert Blocks(keys, row) == [] + row(keys[0]);
    } else {
      BlocksAt(front, row, per, 0, 0);
      ConcatIndex(Blocks(front, row), row(keys[|keys| - 1]), k);
    }
  }

  /** Child `j` of parent `p` sits at offset `p * per + j`. */
  lemma FamilyAt(tier: Tier, parents: seq<string>, per: nat, env: PlanEnv, p: nat, j: nat)
    requires p < |parents| && j < per
    ensures Times(p, per) + j < |Family(tier, parents, per, env)|
    ensures Family(tier, parents, per, env)[Times(p, per) + j] == ChildSpec(tier, parents[p], j, env)
  {
    var row := k => Row(tier, k, per, env);
    FamilyBlocks(tier, parents, per, env);
    BlocksAt(parents, row, per, p, j);
    RowAt(tier, parents[p], per, env, j);
  }

  /** Every member of a family is some child of some parent. */
  lemma {:induction false} FamilyMember(tier: Tier, parents: seq<string>, per: nat, env: PlanEnv, a: AgentSpec)
    returns (p: nat, j: nat)
    requires a in Family(tier, parents, per, env)
    ensures p < |parents| && j < per && a == ChildSpec(tier, parents[p], j, env)
    decreases |parents|
  {
    var n := |parents|;
    var front := parents[..n - 1];
    if a in Family(tier, front, per, env) {
      p, j := FamilyMember(tier, front, per, env, a);
    } else {
      var row := Row(tier, parents[n - 1], per, env);
      assert a in row;
      j :| 0 <= j < per && row[j] == a;
      p := n - 1;
    }
  }

  /** The inner loop of one level: the `per` children of one parent, each added as it is built. */
  method CreateRow(oag: Oag, tier: Tier, parent: string, per: nat, env: PlanEnv, ghost t0: Table,
                   ghost before: seq<AgentSpec>, ids0: seq<string>)
    returns (ids: seq<string>)
    requires oag.Valid() && Table(oag.nodes, oag.order) == InsertAll(t0, AgentNodes(before))
    requires ids0 == SpecIds(before)
    modifies oag
    ensures oag.Valid() && Table(oag.nodes, oag.order) == InsertAll(t0, AgentNodes(before + Row(tier, parent, per, env)))
    ensures ids == SpecIds(before + Row(tier, parent, per, env))
    ensures oag.edges == old(oag.edges) && oag.meta == old(oag.meta) && oag.budget == old(oag.budget)
  {
    ids := ids0;
    var i := 0;
    assert before + Row(tier, parent, 0, env) == before;
    while i < per
      invariant 0 <= i <= per
      invariant oag.Valid()
      invariant ids == SpecIds(before + Row(tier, parent, i, env))
      invariant Table(oag.nodes, oag.order) == InsertAll(t0, AgentNodes(before + Row(tier, parent, i, env)))
      invariant oag.edges == old(oag.edges) && oag.meta == old(oag.meta) && oag.budget == old(oag.budget)
    {
      var child := ChildSpec(tier, parent, i, env);
      RowExtend(before, tier, parent, i, env);
      AddAgent(oag, t0, before + Row(tier, parent, i, env), child);
      ids := ids + [child.id];
      i := i + 1;
    }
  }

  /** One level's creation loop: for each parent, `per` children. */
  method CreateLevel(oag: Oag, tier: Tier, parents: seq<string>, count: nat, env: PlanEnv) returns (ids: seq<string>)
    requires oag.Valid()
    modifies oag
    ensures oag.Valid()
    ensures ids == SpecIds(Family(tier, parents, PerParent(count, |parents|), env))
    ensures Table(oag.nodes, oag.order) ==
      InsertAll(Table(old(oag.nodes), old(oag.order)), AgentNodes(Family(tier, parents, PerParent(count, |parents|), env)))
    ensures oag.edges == old(oag.edges) && oag.meta == old(oag.meta) && oag.budget == old(oag.budget)
  {
    ghost var t0 := Table(oag.nodes, oag.order);
    var per := PerParent(count, |parents|);
    ids := [];
    var p := 0;
    while p < |parents|
      invariant 0 <= p <= |parents|
      invariant oag.Valid()
      invariant ids == SpecIds(Family(tier, parents[..p], per, env))
      invariant Table(oag.nodes, oag.order) == InsertAll(t0, AgentNodes(Family(tier, parents[..p], per, env)))
      invariant oag.edges == old(oag.edges) && oag.meta == old(oag.meta) && oag.budget == old(oag.budget)
    {
      ids := CreateRow(oag, tier, parents[p], per, env, t0, Family(tier, parents[..p], per, env), ids);
      FamilyStep(tier, parents, p, per, env);
      p := p + 1;
    }
    assert parents[..p] == parents;
  }

  lemma FamilyStep(tier: Tier, parents: seq<string>, p: nat, per: nat, env: PlanEnv)
    requires p < |parents|
    ensures Family(tier, parents[..p + 1], per, env) == Family(tier, parents[..p], per, env) + Row(tier, parents[p], per, env)
  {
    assert parents[..p + 1][..p] == parents[..p];
  }

  // ---------------------------------------------------------------------------
  // Tasks and edges

  /** The six standard tasks: name, description, output names. */
  const StandardTasks: seq<(string, string, seq<string>)> := [
    ("Architecture Design", "Design system architecture", ["architecture_doc"]),
    ("Data Sourcing", "Identify and prepare data sources", ["data_sources"]),
    ("MVP Implementation", "Build minimum viable product", ["mvp_code"]),
    ("Testing", "Test and validate implementation", ["test_results"]),
    ("Documentation", "Create user and technical documentation", ["documentation"]),
    ("Deployment", "Deploy to production", ["deployment_status"])
  ]

  /** `task_` and the name lower-cased with spaces as underscores. */
  function TaskId(name: string): string {
    "task_" + ReplaceChar(Lower(name), ' ', '_')
  }

  function OutputIOs(outputs: seq<string>, taskName: string): (r: seq<ContractIO>)
    ensures |r| == |outputs|
    ensures forall i :: 0 <= i < |r| ==> r[i] == ContractIO(outputs[i], "string", taskName + " output", true)
  {
    if outputs == [] then [] else [ContractIO(outputs[0], "string", taskName + " output", true)] + OutputIOs(outputs[1..], taskName)
  }

  /** The `i`-th standard task: one required "requirements" input, its outputs, a definition
      of done, the IC picked round-robin (a fixed id when there are none), and the IC role cost. */
  function TaskSpecFor(i: nat, icIds: seq<string>, sel: SelectorFns): (t: TaskSpec)
    requires i < 6
    ensures t.id == TaskId(StandardTasks[i].0) && t.status == Planned
    ensures t.contract.inputs == [ContractIO("requirements", "string", "Project requirements", true)]
    ensures t.contract.definitionOfDone != ""
    ensures t.agentId == if icIds != [] then icIds[i % |icIds|] else "agent_ic_0_engineer_0"
    ensures t.cost.estCostUsd == sel.roleCost(IC) && t.cost.actualCostUsd == 0.0
  {
    var (name, description, outputs) := StandardTasks[i];
    var agentId := if icIds != [] then icIds[i % |icIds|] else "agent_ic_0_engineer_0";
    var contract := Contract([ContractIO("requirements", "string", "Project requirements", true)],
                             OutputIOs(outputs, name), name + " completed and validated");
    TaskSpec(TaskId(name), description, agentId, contract, "Completed " + Lower(name), Planned, map[],
             CostTrack(sel.roleCost(IC), 0.0, 0), [])
  }

  /** The standard tasks `0..n-1` as nodes. */
  function TaskNodes(n: nat, icIds: seq<string>, sel: SelectorFns): seq<Node>
    requires n <= 6
  {
    seq(n, i requires 0 <= i < n => Task(TaskSpecFor(i, icIds, sel)))
  }

  /** The ids of the standard tasks `0..n-1`. */
  function StandardTaskIds(n: nat): seq<string>
    requires n <= 6
  {
    seq(n, i requires 0 <= i < n => TaskId(StandardTasks[i].0))
  }

  lemma TasksStep(i: nat, icIds: seq<string>, sel: SelectorFns)
    requires i < 6
    ensures TaskNodes(i + 1, icIds, sel) == TaskNodes(i, icIds, sel) + [Task(TaskSpecFor(i, icIds, sel))]
    ensures StandardTaskIds(i + 1) == StandardTaskIds(i) + [TaskSpecFor(i, icIds, sel).id]
  {
    TaskNodesStep(i, icIds, sel);
    TaskIdsStep(i);
  }

  lemma TaskNodesStep(i: nat, icIds: seq<string>, sel: SelectorFns)
    requires i < 6
    ensures TaskNodes(i + 1, icIds, sel) == TaskNodes(i, icIds, sel) + [Task(TaskSpecFor(i, icIds, sel))]
  {
    var a, b := TaskNodes(i + 1, icIds, sel), TaskNodes(i, icIds, sel);
    forall k | 0 <= k < i ensures a[k] == b[k] {
    }
  }

  lemma TaskIdsStep(i: nat)
    requires i < 6
    ensures StandardTaskIds(i + 1) == StandardTaskIds(i) + [TaskId(StandardTasks[i].0)]
  {
  }

  /** `_create_tasks`. */
  method CreateTasks(oag: Oag, icIds: seq<string>, sel: SelectorFns) returns (taskIds: seq<string>)
    requires oag.Valid()
    modifies oag
    ensures oag.Valid()
    ensures taskIds == StandardTaskIds(6)
    ensures Table(oag.nodes, oag.order) == InsertAll(Table(old(oag.nodes), old(oag.order)), TaskNodes(6, icIds, sel))
    ensures oag.edges == old(oag.edges) && oag.meta == old(oag.meta) && oag.budget == old(oag.budget)
  {
    ghost var t0 := Table(oag.nodes, oag.order);
    taskIds := [];
    var i := 0;
    while i < |StandardTasks|
      invariant 0 <= i <= 6
      invariant oag.Valid()
      invariant taskIds == StandardTaskIds(i)
      invariant Table(oag.nodes, oag.order) == InsertAll(t0, TaskNodes(i, icIds, sel))
      invariant oag.edges == old(oag.edges) && oag.meta == old(oag.meta) && oag.budget == old(oag.budget)
    {
      var task := TaskSpecFor(i, icIds, sel);
      TasksStep(i, icIds, sel);
      InsertAllAppend(t0, TaskNodes(i, icIds, sel), Task(task));
      oag.AddNode(Task(task));
      taskIds := taskIds + [task.id];
      i := i + 1;
    }
  }

  /** The `i`-th dependency edge, from task `i` to task `i + 1`. */
  function ChainEdge(i: nat, from: string, to: string): Edge {
    Edge("edge_" + NatToString(i), from, to, None, map["output" := "input"])
  }

  /** The linear chain over `ids`: one edge per consecutive pair. */
  function ChainEdges(ids: seq<string>): (r: seq<Edge>)
    ensures |r| == if ids == [] then 0 else |ids| - 1
    ensures forall i :: 0 <= i < |r| ==> r[i] == ChainEdge(i, ids[i], ids[i + 1])
  {
    if |ids| <= 1 then [] else ChainEdges(ids[..|ids| - 1]) + [ChainEdge(|ids| - 2, ids[|ids| - 2], ids[|ids| - 1])]
  }

  /** `_create_task_dependencies`. */
  method CreateTaskDependencies(oag: Oag, taskIds: seq<string>)
    modifies oag
    ensures oag.edges == old(oag.edges) + ChainEdges(taskIds)
    ensures oag.nodes == old(oag.nodes) && oag.order == old(oag.order)
    ensures oag.meta == old(oag.meta) && oag.budget == old(oag.budget)
  {
    if taskIds == [] {
      return;
    }
    var i := 0;
    while i < |taskIds| - 1
      invariant 0 <= i <= |taskIds| - 1
      invariant oag.edges == old(oag.edges) + ChainEdges(taskIds[..i + 1])
      invariant oag.nodes == old(oag.nodes) && oag.order == old(oag.order)
      invariant oag.meta == old(oag.meta) && oag.budget == old(oag.budget)
    {
      assert taskIds[..i + 2][..i + 1] == taskIds[..i + 1];
      oag.AddEdge(ChainEdge(i, taskIds[i], taskIds[i + 1]));
      i := i + 1;
    }
    assert taskIds[..i + 1] == taskIds;
  }

  // ---------------------------------------------------------------------------
  // Forecast

  /** Ten interactions at the role cost for each agent among `ids`. */
  function AgentCostSum(ids: seq<string>, nodes: map<string, Node>, sel: SelectorFns): real {
    if ids == [] then 0.0
    else
      var k := ids[|ids| - 1];
      AgentCostSum(ids[..|ids| - 1], nodes, sel) +
        (if k in nodes && nodes[k].Agent? then sel.roleCost(nodes[k].agent.level) * 10.0 else 0.0)
  }

  /** The estimated cost of each task among `ids`. */
  function TaskCostSum(ids: seq<string>, nodes: map<string, Node>): real {
    if ids == [] then 0.0
    else
      var k := ids[|ids| - 1];
      TaskCostSum(ids[..|ids| - 1], nodes) + (if k in nodes && nodes[k].Task? then nodes[k].task.cost.estCostUsd else 0.0)
  }

  /** `_forecast_cost` as a value: agents first, then tasks. */
  function Forecast(order: seq<string>, nodes: map<string, Node>, sel: SelectorFns): real {
    AgentCostSum(AgentOrder(order, nodes), nodes, sel) + TaskCostSum(TaskOrder(order, nodes), nodes)
  }

  /** Each agent adds ten times a positive role cost. */
  lemma {:induction false} AgentCostPositive(ids: seq<string>, nodes: map<string, Node>, sel: SelectorFns)
    requires CostsPositive(sel)
    ensures AgentCostSum(ids, nodes, sel) >= 0.0
    ensures (exists k :: k in ids && k in nodes && nodes[k].Agent?) ==> AgentCostSum(ids, nodes, sel) > 0.0
  {
    if ids != [] {
      var front := ids[..|ids| - 1];
      AgentCostPositive(front, nodes, sel);
      var k := ids[|ids| - 1];
      if k in nodes && nodes[k].Agent? {
        assert sel.roleCost(nodes[k].agent.level) > 0.0;
      } else if exists j :: j in ids && j in nodes && nodes[j].Agent? {
        var j :| j in ids && j in nodes && nodes[j].Agent?;
        assert ids == front + [k];
        assert j in front;
      }
    }
  }

  lemma {:induction false} TaskCostNonNegative(ids: seq<string>, nodes: map<string, Node>)
    requires forall k :: k in nodes && nodes[k].Task? ==> nodes[k].task.cost.estCostUsd >= 0.0
    ensures TaskCostSum(ids, nodes) >= 0.0
  {
    if ids != [] {
      TaskCostNonNegative(ids[..|ids| - 1], nodes);
    }
  }

  /** The forecast is never negative, and positive once there is an agent, as long as every
      role costs something and no task estimate is negative. */
  lemma ForecastBounds(order: seq<string>, nodes: map<string, Node>, sel: SelectorFns)
    requires CostsPositive(sel)
    requires forall k :: k in nodes && nodes[k].Task? ==> nodes[k].task.cost.estCostUsd >= 0.0
    ensures Forecast(order, nodes, sel) >= 0.0
    ensures (exists k :: k in order && k in nodes && nodes[k].Agent?) ==> Forecast(order, nodes, sel) > 0.0
  {
    var agents := AgentOrder(order, nodes);
    AgentCostPositive(agents, nodes, sel);
    TaskCostNonNegative(TaskOrder(order, nodes), nodes);
    if exists k :: k in order && k in nodes && nodes[k].Agent? {
      var k :| k in order && k in nodes && nodes[k].Agent?;
      assert k in agents;
    }
  }

  /** `_forecast_cost`: the two accumulator loops. */
  method ForecastCost(oag: Oag, sel: SelectorFns) returns (total: real)
    ensures total == Forecast(oag.order, oag.nodes, sel)
  {
    total := 0.0;
    var agents := AgentOrder(oag.order, oag.nodes);
    var i := 0;
    while i < |agents|
      invariant 0 <= i <= |agents|
      invariant total == AgentCostSum(agents[..i], oag.nodes, sel)
    {
      assert agents[..i + 1][..i] == agents[..i];
      assert agents[i] in agents;
      total := total + sel.roleCost(oag.nodes[agents[i]].agent.level) * 10.0;
      i := i + 1;
    }
    assert agents[..i] == agents;
    var agentTotal := total;
    var tasks := TaskOrder(oag.order, oag.nodes);
    i := 0;
    while i < |tasks|
      invariant 0 <= i <= |tasks|
      invariant total == agentTotal + TaskCostSum(tasks[..i], oag.nodes)
    {
      assert tasks[..i + 1][..i] == tasks[..i];
      assert tasks[i] in tasks;
      total := total + oag.nodes[tasks[i]].task.cost.estCostUsd;
      i := i + 1;
    }
    assert tasks[..i] == tasks;
  }

  // ---------------------------------------------------------------------------
  // The whole plan

  /** The director ids a plan's VPs get, tier by tier. */
  function PlanVps(env: PlanEnv, staffing: Staffing): seq<AgentSpec> {
    VpSpecs(VpRolesFor(staffing.vps), env)
  }

  function PlanDirectors(env: PlanEnv, staffing: Staffing): seq<AgentSpec> {
    var vps := PlanVps(env, staffing);
    Family(Directors, SpecIds(vps), PerParent(staffing.directors, |vps|), env)
  }

  function PlanManagers(env: PlanEnv, staffing: Staffing): seq<AgentSpec> {
    var vps := PlanVps(env, staffing);
    var dirs := PlanDirectors(env, staffing);
    Family(Managers, SpecIds(dirs), PerParent(staffing.managers, |dirs|), env)
  }

  function PlanIcs(env: PlanEnv, staffing: Staffing): seq<AgentSpec> {
    var mgrs := PlanManagers(env, staffing);
    Family(Ics, SpecIds(mgrs), PerParent(staffing.ics, |mgrs|), env)
  }

  /** The agents below the board room, in creation order (ids may repeat; see `PlanIcsCollide`). */
  function PlanStaff(env: PlanEnv, staffing: Staffing): seq<AgentSpec> {
    PlanVps(env, staffing) + PlanDirectors(env, staffing) + PlanManagers(env, staffing) + PlanIcs(env, staffing)
  }

  /** What the plan adds after the board room: the staff, then the six tasks. */
  function LaterNodes(env: PlanEnv, staffing: Staffing): seq<Node> {
    AgentNodes(PlanStaff(env, staffing)) + TaskNodes(6, SpecIds(PlanIcs(env, staffing)), env.sel)
  }

  /** Every node the plan adds, in order. */
  function PlanNodes(env: PlanEnv, caps: BudgetCaps, objectives: seq<Json>, staffing: Staffing): seq<Node> {
    AgentNodes(BoardRoom(env, caps, objectives)) + LaterNodes(env, staffing)
  }

  /** `Planner.plan`. The selector is the planner's own; the project id and the creation time
      are inputs. */
  method Plan(sel: SelectorFns, req: PlanRequest, budgetUsd: real, projectId: string, now: int)
    returns (oag: Oag)
    ensures fresh(oag) && oag.Valid()
    ensures oag.meta == OrgMeta(projectId, RequestTitle(req), RequestDomain(req), now, now, 1)
    ensures oag.budget == BudgetModel(PlanCaps(budgetUsd), Forecast(oag.order, oag.nodes, sel), 0.0,
                                      DetermineBudgetPolicy(budgetUsd, |req.objectives|))
    ensures Table(oag.nodes, oag.order) ==
      InsertAll(Table(map[], []), PlanNodes(PlanEnv(sel, RequestDomain(req), budgetUsd), PlanCaps(budgetUsd),
                                            req.objectives, sel.staffing(budgetUsd)))
    ensures oag.edges == ChainEdges(StandardTaskIds(6))
  {
    var policy := DetermineBudgetPolicy(budgetUsd, |req.objectives|);
    var meta := OrgMeta(projectId, RequestTitle(req), RequestDomain(req), now, now, 1);
    var caps := PlanCaps(budgetUsd);
    oag := new Oag(meta, BudgetModel(caps, 0.0, 0.0, policy), [], map[], []);
    var env := PlanEnv(sel, RequestDomain(req), budgetUsd);
    ghost var t0 := Table(oag.nodes, oag.order);

    CreateBoardRoom(oag, env, caps, req.objectives);
    var staffing := sel.staffing(budgetUsd);
    var vps := CreateVps(oag, env, staffing.vps);
    var directors := CreateLevel(oag, Directors, vps, staffing.directors, env);
    var managers := CreateLevel(oag, Managers, directors, staffing.managers, env);
    var ics := CreateLevel(oag, Ics, managers, staffing.ics, env);
    var tasks := CreateTasks(oag, ics, sel);
    CreateTaskDependencies(oag, tasks);
    PlanInsertions(t0, env, caps, req.objectives, staffing);

    var forecast := ForecastCost(oag, sel);
    oag.SetBudget(oag.budget.(forecastCostUsd := forecast));
  }

  /** The tier-by-tier insertions of `Plan` add up to the plan's node list. */
  lemma PlanInsertions(t0: Table, env: PlanEnv, caps: BudgetCaps, objectives: seq<Json>, staffing: Staffing)
    ensures InsertAll(InsertAll(InsertAll(InsertAll(InsertAll(InsertAll(t0,
              AgentNodes(BoardRoom(env, caps, objectives))), AgentNodes(PlanVps(env, staffing))),
              AgentNodes(PlanDirectors(env, staffing))), AgentNodes(PlanManagers(env, staffing))),
              AgentNodes(PlanIcs(env, staffing))), TaskNodes(6, SpecIds(PlanIcs(env, staffing)), env.sel))
            == InsertAll(t0, PlanNodes(env, caps, objectives, staffing))
  {
    var vps, dirs, mgrs, ics := AgentNodes(PlanVps(env, staffing)), AgentNodes(PlanDirectors(env, staffing)),
      AgentNodes(PlanManagers(env, staffing)), AgentNodes(PlanIcs(env, staffing));
    var tasks := TaskNodes(6, SpecIds(PlanIcs(env, staffing)), env.sel);
    var x1 := InsertAll(t0, AgentNodes(BoardRoom(env, caps, objectives)));
    StaffNodes(env, staffing);
    InsertAllConcat(x1, vps, dirs);
    InsertAllConcat(x1, vps + dirs, mgrs);
    InsertAllConcat(x1, vps + dirs + mgrs, ics);
    InsertAllConcat(x1, vps + dirs + mgrs + ics, tasks);
    InsertAllConcat(t0, AgentNodes(BoardRoom(env, caps, objectives)), LaterNodes(env, staffing));
  }

  lemma StaffNodes(env: PlanEnv, staffing: Staffing)
    ensures AgentNodes(PlanStaff(env, staffing)) == AgentNodes(PlanVps(env, staffing)) + AgentNodes(PlanDirectors(env, staffing)) +
      AgentNodes(PlanManagers(env, staffing)) + AgentNodes(PlanIcs(env, staffing))
  {
    var vps, dirs, mgrs, ics := PlanVps(env, staffing), PlanDirectors(env, staffing), PlanManagers(env, staffing), PlanIcs(env, staffing);
    AgentNodesConcat(vps, dirs);
    AgentNodesConcat(vps + dirs, mgrs);
    AgentNodesConcat(vps + dirs + mgrs, ics);
  }

  // ---------------------------------------------------------------------------
  // Properties of a plan

  /** An IC's id depends on its manager only through the manager id's last segment. */
  lemma IcIdsShareSegment(m1: string, m2: string, i: nat)
    requires LastSegment(m1, '_') == LastSegment(m2, '_')
    ensures ChildId(Ics, m1, i) == ChildId(Ics, m2, i)
  {
  }

  /** A manager id ends in its own index. */
  lemma ManagerIdLastSegment(dir: string, i: nat)
    ensures LastSegment(ChildId(Managers, dir, i), '_') == NatToString(i)
  {
    var prefix := "agent_mgr_" + SecondLastSegment(dir) + "_" + LastSegment(dir, '_');
    assert ChildId(Managers, dir, i) == prefix + ['_'] + NatToString(i);
    assert '_' !in NatToString(i) by {
      forall j | 0 <= j < |NatToString(i)| ensures NatToString(i)[j] != '_' {
        assert IsDigit(NatToString(i)[j]);
      }
    }
    LastSegmentAfterSep(prefix, '_', NatToString(i));
  }

  /** The first managers under directors 0 and 1 sit at offsets 0 and `per`, and both ids end
      in `_0`. */
  lemma FirstManagersShareSegment(dirIds: seq<string>, per: nat, env: PlanEnv)
    requires |dirIds| >= 2 && per >= 1
    ensures var mgrs := SpecIds(Family(Managers, dirIds, per, env));
      per < |mgrs| && LastSegment(mgrs[0], '_') == LastSegment(mgrs[per], '_')
  {
    FamilyAt(Managers, dirIds, per, env, 0, 0);
    FamilyAt(Managers, dirIds, per, env, 1, 0);
    assert Times(1, per) == per;
    ManagerIdLastSegment(dirIds[0], 0);
    ManagerIdLastSegment(dirIds[1], 0);
  }

  /** Two managers whose ids end alike give their first ICs the same id. */
  lemma IcsRepeat(mgrs: seq<string>, per: nat, env: PlanEnv, a: nat, b: nat)
    requires a < b < |mgrs| && per >= 1
    requires LastSegment(mgrs[a], '_') == LastSegment(mgrs[b], '_')
    ensures var ics := SpecIds(Family(Ics, mgrs, per, env));
      |set k | k in ics| < |ics|
  {
    FirstIcsAlike(mgrs, per, env, a, b);
    IdsRepeat(Family(Ics, mgrs, per, env), Times(a, per), Times(b, per));
  }

  /** The first ICs of two managers whose ids end alike carry the same id. */
  lemma FirstIcsAlike(mgrs: seq<string>, per: nat, env: PlanEnv, a: nat, b: nat)
    requires a < b < |mgrs| && per >= 1
    requires LastSegment(mgrs[a], '_') == LastSegment(mgrs[b], '_')
    ensures Times(a, per) < Times(b, per) < |Family(Ics, mgrs, per, env)|
    ensures Family(Ics, mgrs, per, env)[Times(a, per)].id == Family(Ics, mgrs, per, env)[Times(b, per)].id
  {
    TimesMonotone(a + 1, b, per);
    FirstIcId(mgrs, per, env, a);
    FirstIcId(mgrs, per, env, b);
    IcIdsShareSegment(mgrs[a], mgrs[b], 0);
  }

  /** The first IC of the `p`-th manager sits at the start of that manager's block. */
  lemma FirstIcId(mgrs: seq<string>, per: nat, env: PlanEnv, p: nat)
    requires p < |mgrs| && per >= 1
    ensures Times(p, per) < |Family(Ics, mgrs, per, env)|
    ensures Family(Ics, mgrs, per, env)[Times(p, per)].id == ChildId(Ics, mgrs[p], 0)
  {
    FamilyAt(Ics, mgrs, per, env, p, 0);
  }

  /** Two specs with the same id leave fewer distinct ids than specs. */
  lemma IdsRepeat(specs: seq<AgentSpec>, x: nat, y: nat)
    requires x < y < |specs| && specs[x].id == specs[y].id
    ensures |set k | k in SpecIds(specs)| < |SpecIds(specs)|
  {
    RepeatShrinksSet(SpecIds(specs), x, y);
  }

  /** The IC id collision: with two or more directors, the first manager under each of two
      directors ends in the same index, so their ICs get the same ids and the later ones
      replace the earlier ones; the plan creates more ICs than it keeps. */
  lemma PlanIcsCollide(env: PlanEnv, staffing: Staffing)
    requires |PlanDirectors(env, staffing)| >= 2
    ensures var ics := SpecIds(PlanIcs(env, staffing));
      |set k | k in ics| < |ics|
  {
    var dirs := SpecIds(PlanDirectors(env, staffing));
    var perM := PerParent(staffing.managers, |dirs|);
    FirstManagersShareSegment(dirs, perM, env);
    var mgrs := SpecIds(Family(Managers, dirs, perM, env));
    IcsRepeat(mgrs, PerParent(staffing.ics, |mgrs|), env, 0, perM);
  }

  /** A list with a repeated element has fewer distinct elements than entries. */
  lemma RepeatShrinksSet(s: seq<string>, x: nat, y: nat)
    requires x < y < |s| && s[x] == s[y]
    ensures |set k | k in s| < |s|
  {
    var without := s[..y] + s[y + 1..];
    assert (set k | k in s) == (set k | k in without) by {
      assert s == s[..y] + [s[y]] + s[y + 1..];
      assert s[y] in without by { assert without[x] == s[x]; }
    }
    SetOfSeqSize(without);
  }

  lemma {:induction false} SetOfSeqSize(s: seq<string>)
    ensures |set k | k in s| <= |s|
  {
    if s != [] {
      var front := s[..|s| - 1];
      SetOfSeqSize(front);
      assert (set k | k in s) == (set k | k in front) + {s[|s| - 1]} by {
        assert s == front + [s[|s| - 1]];
      }
    }
  }

  /** The dependency edges form a chain over the tasks in creation order: every edge joins a
      task to the next one, so following edges always moves forward in that order. */
  lemma ChainGoesForward(ids: seq<string>)
    requires |ids| >= 1
    ensures |ChainEdges(ids)| == |ids| - 1
    ensures forall i :: 0 <= i < |ids| - 1 ==> ChainEdges(ids)[i].fromId == ids[i] && ChainEdges(ids)[i].toId == ids[i + 1]
    ensures forall e :: e in ChainEdges(ids) ==> e.fromId in ids && e.toId in ids
  {
    var r := ChainEdges(ids);
    forall i | 0 <= i < |ids| - 1 ensures r[i].fromId == ids[i] && r[i].toId == ids[i + 1] {
      ChainEdgeEnds(i, ids[i], ids[i + 1]);
    }
    forall e | e in r ensures e.fromId in ids && e.toId in ids {
      var i :| 0 <= i < |r| && r[i] == e;
      ChainEdgeEnds(i, ids[i], ids[i + 1]);
    }
  }

  /** A chain edge joins the two tasks it is built from. */
  lemma ChainEdgeEnds(i: nat, from: string, to: string)
    ensures ChainEdge(i, from, to).fromId == from && ChainEdge(i, from, to).toId == to
  {
  }

  /** The six standard task ids are pairwise different. */
  lemma StandardTaskIdsDistinct()
    ensures forall i, j :: 0 <= i < j < 6 ==> StandardTaskIds(6)[i] != StandardTaskIds(6)[j]
  {
    var ids := StandardTaskIds(6);
    var lens := [19, 13, 18, 7, 13, 10];
    forall i | 0 <= i < 6 ensures |ids[i]| == 5 + lens[i] {
      assert |StandardTasks[i].0| == lens[i];
    }
    // the two names of equal length differ at their second character
    assert ids[1][6] == 'a' && ids[4][6] == 'o' by {
      assert StandardTasks[1].0[1] == 'a' && StandardTasks[4].0[1] == 'o';
    }
  }

  /** Nodes inserted after any agents, with distinct ids, are stored as inserted, and when
      they are all tasks they are the only tasks. */
  lemma LastNodesWin(first: seq<AgentSpec>, mid: seq<AgentSpec>, tasks: seq<Node>)
    requires forall i, j :: 0 <= i < j < |tasks| ==> tasks[i].Id() != tasks[j].Id()
    ensures var t := InsertAll(Table(map[], []), AgentNodes(first) + (AgentNodes(mid) + tasks));
      forall i :: 0 <= i < |tasks| ==> tasks[i].Id() in t.nodes && t.nodes[tasks[i].Id()] == tasks[i]
    ensures var t := InsertAll(Table(map[], []), AgentNodes(first) + (AgentNodes(mid) + tasks));
      forall k :: k in t.nodes && t.nodes[k].Task? ==> exists i :: 0 <= i < |tasks| && tasks[i].Id() == k
  {
    var ns := AgentNodes(first + mid);
    AgentNodesConcat(first, mid);
    AppendAssoc(AgentNodes(first), AgentNodes(mid), tasks);
    var t1 := InsertAll(Table(map[], []), ns);
    InsertAllConcat(Table(map[], []), ns, tasks);
    TasksStored(t1, tasks);
    AgentNodesAgents(first + mid);
    AllAgents(ns);
    OnlyTheseTasks(t1, tasks);
  }

  lemma AgentNodesAgents(specs: seq<AgentSpec>)
    ensures forall i :: 0 <= i < |AgentNodes(specs)| ==> AgentNodes(specs)[i].Agent?
  {
  }

  /** Nodes with distinct ids are each stored as inserted. */
  lemma TasksStored(t: Table, tasks: seq<Node>)
    requires forall i, j :: 0 <= i < j < |tasks| ==> tasks[i].Id() != tasks[j].Id()
    ensures forall i :: 0 <= i < |tasks| ==> tasks[i].Id() in InsertAll(t, tasks).nodes && InsertAll(t, tasks).nodes[tasks[i].Id()] == tasks[i]
  {
    forall i | 0 <= i < |tasks|
      ensures tasks[i].Id() in InsertAll(t, tasks).nodes && InsertAll(t, tasks).nodes[tasks[i].Id()] == tasks[i]
    {
      InsertAllLastWins(t, tasks, i);
    }
  }

  /** Over a table of agents only, the task nodes after inserting are among the inserted ones. */
  lemma OnlyTheseTasks(t: Table, tasks: seq<Node>)
    requires forall k :: k in t.nodes ==> t.nodes[k].Agent?
    ensures forall k :: k in InsertAll(t, tasks).nodes && InsertAll(t, tasks).nodes[k].Task? ==>
      exists i :: 0 <= i < |tasks| && tasks[i].Id() == k
  {
    forall k | k in InsertAll(t, tasks).nodes && InsertAll(t, tasks).nodes[k].Task?
      ensures exists i :: 0 <= i < |tasks| && tasks[i].Id() == k
    {
      if forall i :: 0 <= i < |tasks| ==> tasks[i].Id() != k {
        InsertAllUntouched(t, tasks, k);
      }
    }
  }

  /** The six task nodes carry the six standard ids, which are pairwise different. */
  lemma TaskNodeIds(icIds: seq<string>, sel: SelectorFns)
    ensures forall i :: 0 <= i < 6 ==> TaskNodes(6, icIds, sel)[i].Id() == StandardTaskIds(6)[i]
    ensures forall i, j :: 0 <= i < j < 6 ==> TaskNodes(6, icIds, sel)[i].Id() != TaskNodes(6, icIds, sel)[j].Id()
  {
    StandardTaskIdsDistinct();
  }

  /** In a plan, the task nodes are exactly the six standard tasks in their PLANNED state,
      each assigned as built. */
  lemma PlanTasks(env: PlanEnv, caps: BudgetCaps, objectives: seq<Json>, staffing: Staffing)
    ensures var t := InsertAll(Table(map[], []), PlanNodes(env, caps, objectives, staffing));
      var icIds := SpecIds(PlanIcs(env, staffing));
      (forall i :: 0 <= i < 6 ==> StandardTaskIds(6)[i] in t.nodes && t.nodes[StandardTaskIds(6)[i]] == Task(TaskSpecFor(i, icIds, env.sel))) &&
      (forall k :: k in t.nodes && t.nodes[k].Task? ==> k in StandardTaskIds(6) && t.nodes[k].task.status == Planned)
  {
    TasksAfterAgents(BoardRoom(env, caps, objectives), PlanStaff(env, staffing), SpecIds(PlanIcs(env, staffing)), env.sel);
  }

  /** Whatever agents come first, the six standard tasks inserted after them are the table's
      task nodes. */
  lemma TasksAfterAgents(first: seq<AgentSpec>, mid: seq<AgentSpec>, icIds: seq<string>, sel: SelectorFns)
    ensures var t := InsertAll(Table(map[], []), AgentNodes(first) + (AgentNodes(mid) + TaskNodes(6, icIds, sel)));
      (forall i :: 0 <= i < 6 ==> StandardTaskIds(6)[i] in t.nodes && t.nodes[StandardTaskIds(6)[i]] == Task(TaskSpecFor(i, icIds, sel))) &&
      (forall k :: k in t.nodes && t.nodes[k].Task? ==> k in StandardTaskIds(6) && t.nodes[k].task.status == Planned)
  {
    var tasks := TaskNodes(6, icIds, sel);
    TaskNodeIds(icIds, sel);
    LastNodesWin(first, mid, tasks);
    StandardTasksInTable(InsertAll(Table(map[], []), AgentNodes(first) + (AgentNodes(mid) + tasks)), icIds, sel);
  }

  /** A table in which each of the six standard task nodes is stored under its id, and whose
      only task nodes are those, holds exactly the six planned tasks. */
  lemma StandardTasksInTable(t: Table, icIds: seq<string>, sel: SelectorFns)
    requires var tasks := TaskNodes(6, icIds, sel);
      forall i :: 0 <= i < |tasks| ==> tasks[i].Id() in t.nodes && t.nodes[tasks[i].Id()] == tasks[i]
    requires var tasks := TaskNodes(6, icIds, sel);
      forall k :: k in t.nodes && t.nodes[k].Task? ==> exists i :: 0 <= i < |tasks| && tasks[i].Id() == k
    ensures forall i :: 0 <= i < 6 ==>
      StandardTaskIds(6)[i] in t.nodes && t.nodes[StandardTaskIds(6)[i]] == Task(TaskSpecFor(i, icIds, sel))
    ensures forall k :: k in t.nodes && t.nodes[k].Task? ==> k in StandardTaskIds(6) && t.nodes[k].task.status == Planned
  {
    var tasks := TaskNodes(6, icIds, sel);
    TaskNodeIds(icIds, sel);
    forall k | k in t.nodes && t.nodes[k].Task? ensures k in StandardTaskIds(6) && t.nodes[k].task.status == Planned {
      var i :| 0 <= i < 6 && tasks[i].Id() == k;
      assert StandardTaskIds(6)[i] == k;
    }
  }

  /** Inserting only agents into an empty dict leaves only agents. */
  lemma {:induction false} AllAgents(ns: seq<Node>)
    requires forall i :: 0 <= i < |ns| ==> ns[i].Agent?
    ensures forall k :: k in InsertAll(Table(map[], []), ns).nodes ==> InsertAll(Table(map[], []), ns).nodes[k].Agent?
  {
    if ns != [] {
      AllAgents(ns[..|ns| - 1]);
    }
  }

  /** In a plan, `agent_ceo`, `agent_cto` and `agent_cfo` hold the three executives: every
      later agent id starts with `agent_vp_`, `agent_dir_`, `agent_mgr_` or `agent_ic_`. */
  lemma PlanExecutives(env: PlanEnv, caps: BudgetCaps, objectives: seq<Json>, staffing: Staffing)
    ensures var t := InsertAll(Table(map[], []), PlanNodes(env, caps, objectives, staffing));
      var board := BoardRoom(env, caps, objectives);
      "agent_ceo" in t.nodes && t.nodes["agent_ceo"] == Agent(board[0]) &&
      "agent_cto" in t.nodes && t.nodes["agent_cto"] == Agent(board[1]) &&
      "agent_cfo" in t.nodes && t.nodes["agent_cfo"] == Agent(board[2])
  {
    LaterIdsAreNotExecutive(env, staffing);
    BoardRoomIds(env, caps, objectives);
    FirstNodesSurvive(BoardRoom(env, caps, objectives), LaterNodes(env, staffing));
  }

  lemma BoardRoomIds(env: PlanEnv, caps: BudgetCaps, objectives: seq<Json>)
    ensures var board := BoardRoom(env, caps, objectives);
      |board| == 3 && board[0].id == "agent_ceo" && board[1].id == "agent_cto" && board[2].id == "agent_cfo"
  {
  }

  /** The three executives, inserted first, keep their entries when no later node carries an
      executive id. */
  lemma FirstNodesSurvive(board: seq<AgentSpec>, later: seq<Node>)
    requires |board| == 3 && board[0].id == "agent_ceo" && board[1].id == "agent_cto" && board[2].id == "agent_cfo"
    requires forall i :: 0 <= i < |later| ==> !IsExecutiveId(later[i].Id())
    ensures var t := InsertAll(Table(map[], []), AgentNodes(board) + later);
      board[0].id in t.nodes && t.nodes[board[0].id] == Agent(board[0]) &&
      board[1].id in t.nodes && t.nodes[board[1].id] == Agent(board[1]) &&
      board[2].id in t.nodes && t.nodes[board[2].id] == Agent(board[2])
  {
    InsertAllConcat(Table(map[], []), AgentNodes(board), later);
    var t1 := InsertAll(Table(map[], []), AgentNodes(board));
    assert "agent_ceo"[7] != "agent_cto"[7] && "agent_ceo"[7] != "agent_cfo"[7] && "agent_cto"[7] != "agent_cfo"[7];
    ThreeStored(board);
    InsertAllUntouched(t1, later, board[0].id);
    InsertAllUntouched(t1, later, board[1].id);
    InsertAllUntouched(t1, later, board[2].id);
  }

  /** Three agents with distinct ids, inserted into an empty dict, are each stored. */
  lemma ThreeStored(board: seq<AgentSpec>)
    requires |board| == 3
    requires board[0].id != board[1].id && board[0].id != board[2].id && board[1].id != board[2].id
    ensures var t := InsertAll(Table(map[], []), AgentNodes(board));
      board[0].id in t.nodes && t.nodes[board[0].id] == Agent(board[0]) &&
      board[1].id in t.nodes && t.nodes[board[1].id] == Agent(board[1]) &&
      board[2].id in t.nodes && t.nodes[board[2].id] == Agent(board[2])
  {
    var ns := AgentNodes(board);
    InsertAllLastWins(Table(map[], []), ns, 0);
    InsertAllLastWins(Table(map[], []), ns, 1);
    InsertAllLastWins(Table(map[], []), ns, 2);
  }

  /** The three executive ids. */
  predicate IsExecutiveId(s: string) {
    s == "agent_ceo" || s == "agent_cto" || s == "agent_cfo"
  }

  /** Directors, managers and ICs carry `agent_dir_`, `agent_mgr_` or `agent_ic_` ids. */
  lemma FamilyNotExecutive(tier: Tier, parents: seq<string>, per: nat, env: PlanEnv)
    ensures forall a :: a in Family(tier, parents, per, env) ==> !IsExecutiveId(a.id)
  {
    forall a | a in Family(tier, parents, per, env) ensures !IsExecutiveId(a.id) {
      var p, j := FamilyMember(tier, parents, per, env, a);
      ChildIdNotExecutive(tier, parents[p], j);
    }
  }

  lemma ChildIdNotExecutive(tier: Tier, parent: string, i: nat)
    ensures !IsExecutiveId(ChildId(tier, parent, i))
  {
    assert |ChildId(tier, parent, i)| > 9;
  }

  /** VPs carry `agent_vp_` ids. */
  lemma VpsNotExecutive(roles: seq<string>, env: PlanEnv)
    ensures forall a :: a in VpSpecs(roles, env) ==> !IsExecutiveId(a.id)
  {
    forall a | a in VpSpecs(roles, env) ensures !IsExecutiveId(a.id) {
      var k :| 0 <= k < |roles| && VpSpecs(roles, env)[k] == a;
      assert a.id[6] == 'v';
    }
  }

  /** Task ids start with `task_`. */
  lemma TasksNotExecutive(icIds: seq<string>, sel: SelectorFns)
    ensures forall n :: n in TaskNodes(6, icIds, sel) ==> !IsExecutiveId(n.Id())
  {
    forall n | n in TaskNodes(6, icIds, sel) ensures !IsExecutiveId(n.Id()) {
      var k :| 0 <= k < 6 && TaskNodes(6, icIds, sel)[k] == n;
      assert n.Id()[0] == 't';
    }
  }

  /** No VP, director, manager, IC or task id is one of the executive ids. */
  lemma LaterIdsAreNotExecutive(env: PlanEnv, staffing: Staffing)
    ensures forall i :: 0 <= i < |LaterNodes(env, staffing)| ==> !IsExecutiveId(LaterNodes(env, staffing)[i].Id())
  {
    var staff := PlanStaff(env, staffing);
    var vps, dirs, mgrs := PlanVps(env, staffing), PlanDirectors(env, staffing), PlanManagers(env, staffing);
    VpsNotExecutive(VpRolesFor(staffing.vps), env);
    FamilyNotExecutive(Directors, SpecIds(vps), PerParent(staffing.directors, |vps|), env);
    FamilyNotExecutive(Managers, SpecIds(dirs), PerParent(staffing.managers, |dirs|), env);
    FamilyNotExecutive(Ics, SpecIds(mgrs), PerParent(staffing.ics, |mgrs|), env);
    TasksNotExecutive(SpecIds(PlanIcs(env, staffing)), env.sel);
    var later := LaterNodes(env, staffing);
    forall i | 0 <= i < |later| ensures !IsExecutiveId(later[i].Id()) {
      if i < |staff| {
        assert later[i] == Agent(staff[i]);
        assert staff[i] in staff;
      } else {
        assert later[i] in TaskNodes(6, SpecIds(PlanIcs(env, staffing)), env.sel);
      }
    }
  }
}
