/**
 * `build_org_chart` of the web status routes: agents are grouped by level in node order,
 * a board room holds the C-suite, departments nest directors, managers and ICs by their
 * `manager_id`, and the task nodes are counted by status.
 */
module OrgCharts {
  import opened Wrappers
  import opened Json

  /** The five keys of `by_level`. */
  datatype Level = CSuite | VP | Director | Manager | IC

  function LevelName(l: Level): string {
    match l
    case CSuite => "C_SUITE"
    case VP => "VP"
    case Director => "DIRECTOR"
    case Manager => "MANAGER"
    case IC => "IC"
  }

  /** Why the builder raises: a `KeyError` for a level outside the five keys, a `TypeError`
      for an unhashable level or status or a value without a length. */
  datatype ChartError =
    | LevelKeyError(nodeId: string)
    | LevelUnhashable(nodeId: string)
    | NoLength(nodeId: string, field: string)
    | StatusUnhashable(status: Json)

  /** A list or a dictionary cannot be a dictionary key. */
  predicate Hashable(j: Json) {
    !j.JArr? && !j.JObj?
  }

  /** `by_level[level]` */
  function LevelOf(nodeId: string, j: Json): (r: Result<Level, ChartError>)
    ensures r.Ok? ==> j == JStr(LevelName(r.value))
    ensures r.Err? ==> forall l :: j != JStr(LevelName(l))
    ensures r.Err? ==> r.error == (if Hashable(j) then LevelKeyError(nodeId) else LevelUnhashable(nodeId))
  {
    match j
    case JStr(s) =>
      if s == "C_SUITE" then Ok(CSuite)
      else if s == "VP" then Ok(VP)
      else if s == "DIRECTOR" then Ok(Director)
      else if s == "MANAGER" then Ok(Manager)
      else if s == "IC" then Ok(IC)
      else Err(LevelKeyError(nodeId))
    case JArr(_) => Err(LevelUnhashable(nodeId))
    case JObj(_) => Err(LevelUnhashable(nodeId))
    case _ => Err(LevelKeyError(nodeId))
  }

  /** Every level name is read back as its level. */
  lemma LevelNameRoundTrip(nodeId: string, l: Level)
    ensures LevelOf(nodeId, JStr(LevelName(l))) == Ok(l)
  {
  }

  /** `len(value)`: strings, lists and dictionaries have a length, nothing else does. */
  function Size(j: Json): (r: Option<nat>)
    ensures r.Some? <==> j.JStr? || j.JArr? || j.JObj?
  {
    match j
    case JStr(s) => Some(|s|)
    case JArr(items) => Some(|items|)
    case JObj(fields) => Some(|fields|)
    case _ => None
  }

  /** `agent_info` */
  datatype AgentInfo = AgentInfo(id: string, role: Json, specialization: Json, managerId: Json,
                                 tools: nat, okrs: nat, kpis: nat)

  predicate IsAgent(node: Dict) {
    Get(node, "node_type", JNull) == JStr("agent")
  }

  predicate IsTask(node: Dict) {
    Get(node, "node_type", JNull) == JStr("task")
  }

  /** The length of a list field, absent meaning empty. */
  function FieldSize(nodeId: string, node: Dict, field: string): (r: Result<nat, ChartError>)
    ensures r.Err? <==> Size(Get(node, field, JArr([]))).None?
    ensures r.Ok? ==> r.value == Size(Get(node, field, JArr([]))).value
    ensures field !in node ==> r == Ok(0)
  {
    match Size(Get(node, field, JArr([])))
    case Some(n) => Ok(n)
    case None => Err(NoLength(nodeId, field))
  }

  /** One agent node: its info is built (the three lengths, in order) before its level is looked
      up; a missing level is "IC". */
  function AgentEntry(nodeId: string, node: Dict): (r: Result<(Level, AgentInfo), ChartError>)
    ensures r.Ok? ==> var info := r.value.1;
      info.id == nodeId && info.role == Get(node, "role", JNull) &&
      info.specialization == Get(node, "specialization", JNull) && info.managerId == Get(node, "manager_id", JNull) &&
      Get(node, "level", JStr("IC")) == JStr(LevelName(r.value.0))
    ensures r.Ok? <==>
      FieldSize(nodeId, node, "tools").Ok? && FieldSize(nodeId, node, "okrs").Ok? &&
      FieldSize(nodeId, node, "kpis").Ok? && LevelOf(nodeId, Get(node, "level", JStr("IC"))).Ok?
  {
    var tools := FieldSize(nodeId, node, "tools");
    var okrs := FieldSize(nodeId, node, "okrs");
    var kpis := FieldSize(nodeId, node, "kpis");
    if tools.Err? then Err(tools.error)
    else if okrs.Err? then Err(okrs.error)
    else if kpis.Err? then Err(kpis.error)
    else
      var info := AgentInfo(nodeId, Get(node, "role", JNull), Get(node, "specialization", JNull),
                            Get(node, "manager_id", JNull), tools.value, okrs.value, kpis.value);
      match LevelOf(nodeId, Get(node, "level", JStr("IC")))
      case Ok(l) => Ok((l, info))
      case Err(e) => Err(e)
  }

  /** An agent node without a level is an IC. */
  lemma MissingLevelIsIC(nodeId: string, node: Dict)
    requires "level" !in node && AgentEntry(nodeId, node).Ok?
    ensures AgentEntry(nodeId, node).value.0 == IC
  {
  }

  /** `by_level`: one list per level. */
  datatype ByLevel = ByLevel(cSuite: seq<AgentInfo>, vps: seq<AgentInfo>, directors: seq<AgentInfo>,
                             managers: seq<AgentInfo>, ics: seq<AgentInfo>)
  {
    function At(l: Level): seq<AgentInfo> {
      match l
      case CSuite => cSuite
      case VP => vps
      case Director => directors
      case Manager => managers
      case IC => ics
    }

    /** `by_level[l].append(info)` */
    function With(l: Level, info: AgentInfo): (b: ByLevel)
      ensures b.At(l) == At(l) + [info]
      ensures forall k :: k != l ==> b.At(k) == At(k)
    {
      match l
      case CSuite => this.(cSuite := cSuite + [info])
      case VP => this.(vps := vps + [info])
      case Director => this.(directors := directors + [info])
      case Manager => this.(managers := managers + [info])
      case IC => this.(ics := ics + [info])
    }

    function Total(): nat {
      |cSuite| + |vps| + |directors| + |managers| + |ics|
    }
  }

  const NoAgents: ByLevel := ByLevel([], [], [], [], [])

  /** The grouping loop over `nodes.items()`, stopping at the first failing agent. */
  function Grouped(nodes: seq<(string, Dict)>): (r: Result<ByLevel, ChartError>)
  {
    if nodes == [] then Ok(NoAgents)
    else
      match Grouped(nodes[..|nodes| - 1])
      case Err(e) => Err(e)
      case Ok(b) =>
        var (id, node) := nodes[|nodes| - 1];
        if !IsAgent(node) then Ok(b)
        else
          match AgentEntry(id, node)
          case Err(e) => Err(e)
          case Ok((l, info)) => Ok(b.With(l, info))
  }

  /** `len([n for n in nodes.values() if n.get("node_type") == "agent"])` */
  function AgentCount(nodes: seq<(string, Dict)>): (n: nat)
    ensures n <= |nodes|
  {
    if nodes == [] then 0 else AgentCount(nodes[..|nodes| - 1]) + (if IsAgent(nodes[|nodes| - 1].1) then 1 else 0)
  }

  /** Grouping fails exactly when some agent node fails. */
  lemma {:induction false} GroupedFails(nodes: seq<(string, Dict)>)
    ensures Grouped(nodes).Err? <==>
      exists i :: 0 <= i < |nodes| && IsAgent(nodes[i].1) && AgentEntry(nodes[i].0, nodes[i].1).Err?
  {
    if nodes != [] {
      var front := nodes[..|nodes| - 1];
      GroupedFails(front);
      if Grouped(front).Err? {
        var i :| 0 <= i < |front| && IsAgent(front[i].1) && AgentEntry(front[i].0, front[i].1).Err?;
        assert nodes[i] == front[i];
      } else {
        forall i | 0 <= i < |front|
          ensures !(IsAgent(nodes[i].1) && AgentEntry(nodes[i].0, nodes[i].1).Err?)
        {
          assert nodes[i] == front[i];
        }
      }
    }
  }

  /** When grouping succeeds, every agent node is in exactly one level list, so the lists
      together hold `agents_count` entries. */
  lemma {:induction false} GroupedCountsAgents(nodes: seq<(string, Dict)>)
    requires Grouped(nodes).Ok?
    ensures Grouped(nodes).value.Total() == AgentCount(nodes)
  {
    if nodes != [] {
      GroupedCountsAgents(nodes[..|nodes| - 1]);
    }
  }

  /** Each agent node lands, with its info, at the end of its level's list so far: the lists
      keep node order. */
  lemma {:induction false} GroupedPlacesAgent(nodes: seq<(string, Dict)>, i: nat)
    requires i < |nodes| && IsAgent(nodes[i].1) && Grouped(nodes).Ok?
    ensures AgentEntry(nodes[i].0, nodes[i].1).Ok?
    ensures var e := AgentEntry(nodes[i].0, nodes[i].1).value;
      e.1 in Grouped(nodes).value.At(e.0)
  {
    var front := nodes[..|nodes| - 1];
    if i < |nodes| - 1 {
      assert front[i] == nodes[i];
      GroupedPlacesAgent(front, i);
    }
  }

  method GroupAgents(nodes: seq<(string, Dict)>) returns (r: Result<ByLevel, ChartError>)
    ensures r == Grouped(nodes)
  {
    var byLevel := NoAgents;
    for i := 0 to |nodes|
      invariant Grouped(nodes[..i]) == Ok(byLevel)
    {
      assert nodes[..i + 1][..i] == nodes[..i];
      var (id, node) := nodes[i];
      if IsAgent(node) {
        var entry := AgentEntry(id, node);
        if entry.Err? {
          GroupedStopsAtError(nodes, i + 1);
          return Err(entry.error);
        }
        byLevel := byLevel.With(entry.value.0, entry.value.1);
      }
    }
    assert nodes[..|nodes|] == nodes;
    return Ok(byLevel);
  }

  /** Once a prefix fails, the whole list fails with the same error. */
  lemma {:induction false} GroupedStopsAtError(nodes: seq<(string, Dict)>, k: nat)
    requires k <= |nodes| && Grouped(nodes[..k]).Err?
    ensures Grouped(nodes) == Grouped(nodes[..k])
    decreases |nodes| - k
  {
    if k < |nodes| {
      assert nodes[..k + 1][..k] == nodes[..k];
      GroupedStopsAtError(nodes, k + 1);
    } else {
      assert nodes[..k] == nodes;
    }
  }

  // ---------------------------------------------------------------------------
  // The tree

  /** A chart node; `data` and `children` are absent where the builder writes no such key. */
  datatype ChartNode = ChartNode(id: string, name: Json, data: Option<AgentInfo>, children: Option<seq<ChartNode>>)

  /** `x["manager_id"] == parent["id"]` */
  predicate ReportsTo(a: AgentInfo, parentId: string) {
    a.managerId == JStr(parentId)
  }

  /** `ic["specialization"] or ic["role"]` */
  function IcLabel(a: AgentInfo): (j: Json)
    ensures Truthy(a.specialization) ==> j == a.specialization
    ensures !Truthy(a.specialization) ==> j == a.role
  {
    if Truthy(a.specialization) then a.specialization else a.role
  }

  /** The level nested under a department, director or manager. */
  function Below(l: Level): Level
    requires l == VP || l == Director || l == Manager
  {
    match l
    case VP => Director
    case Director => Manager
    case Manager => IC
  }

  function Depth(l: Level): nat {
    match l
    case IC => 0
    case Manager => 1
    case Director => 2
    case VP => 3
    case CSuite => 4
  }

  /** The node of one agent of level `l` below the board room: an IC is a leaf named by
      `IcLabel`; a VP opens department `dept_<id>`; the others are named by their role and hold
      the agents of the next level that report to them. */
  function NodeOf(a: AgentInfo, l: Level, b: ByLevel): (n: ChartNode)
    requires l != CSuite
    ensures n.data == Some(a)
    ensures l == IC <==> n.children.None?
    decreases Depth(l), 0
  {
    if l == IC then ChartNode(a.id, IcLabel(a), Some(a), None)
    else
      var kids := Under(b.At(Below(l)), a.id, Below(l), b);
      ChartNode(if l == VP then "dept_" + a.id else a.id, a.role, Some(a), Some(kids))
  }

  /** The nodes of the agents of `xs` that report to `parentId`, in list order. */
  function Under(xs: seq<AgentInfo>, parentId: string, l: Level, b: ByLevel): (r: seq<ChartNode>)
    requires l != CSuite
    ensures |r| <= |xs|
    decreases Depth(l), |xs|
  {
    if xs == [] then []
    else
      var last := xs[|xs| - 1];
      Under(xs[..|xs| - 1], parentId, l, b) + (if ReportsTo(last, parentId) then [NodeOf(last, l, b)] else [])
  }

  /** A node is nested under a parent exactly when it is the node of an agent whose
      `manager_id` is the parent's id. */
  lemma {:induction false} UnderMembers(xs: seq<AgentInfo>, parentId: string, l: Level, b: ByLevel, n: ChartNode)
    requires l != CSuite
    ensures n in Under(xs, parentId, l, b) <==>
      exists k :: 0 <= k < |xs| && ReportsTo(xs[k], parentId) && n == NodeOf(xs[k], l, b)
  {
    UnderIsKeepMap(xs, parentId, l, b);
    KeepMapMembers(xs, a => ReportsTo(a, parentId), a => NodeOf(a, l, b), n);
  }

  /** The images under `f` of the elements of `xs` that `keep` accepts, in order. */
  ghost function KeepMap<A, B>(xs: seq<A>, keep: A -> bool, f: A -> B): seq<B> {
    if xs == [] then []
    else KeepMap(xs[..|xs| - 1], keep, f) + (if keep(xs[|xs| - 1]) then [f(xs[|xs| - 1])] else [])
  }

  /** `Under` keeps the agents that report to the parent and builds a node for each. */
  lemma {:induction false} UnderIsKeepMap(xs: seq<AgentInfo>, parentId: string, l: Level, b: ByLevel)
    requires l != CSuite
    ensures Under(xs, parentId, l, b) == KeepMap(xs, a => ReportsTo(a, parentId), a => NodeOf(a, l, b))
  {
    if xs != [] {
      UnderIsKeepMap(xs[..|xs| - 1], parentId, l, b);
    }
  }

  /** What a kept-and-mapped sequence holds. */
  lemma {:induction false} KeepMapMembers<A, B>(xs: seq<A>, keep: A -> bool, f: A -> B, y: B)
    ensures y in KeepMap(xs, keep, f) <==> exists k :: 0 <= k < |xs| && keep(xs[k]) && y == f(xs[k])
  {
    if xs != [] {
      var front := xs[..|xs| - 1];
      KeepMapMembers(front, keep, f, y);
      if y in KeepMap(front, keep, f) {
        var k :| 0 <= k < |front| && keep(front[k]) && y == f(front[k]);
        assert xs[k] == front[k];
      }
      if exists k :: 0 <= k < |xs| && keep(xs[k]) && y == f(xs[k]) {
        var k :| 0 <= k < |xs| && keep(xs[k]) && y == f(xs[k]);
        if k < |front| {
          assert front[k] == xs[k];
        }
      }
    }
  }

  /** The board room's children: one leaf per C-suite agent, named by its role. */
  function BoardNodes(cs: seq<AgentInfo>): (r: seq<ChartNode>)
    ensures |r| == |cs|
    ensures forall i :: 0 <= i < |cs| ==> r[i] == ChartNode(cs[i].id, cs[i].role, Some(cs[i]), None)
  {
    if cs == [] then [] else BoardNodes(cs[..|cs| - 1]) + [ChartNode(cs[|cs| - 1].id, cs[|cs| - 1].role, Some(cs[|cs| - 1]), None)]
  }

  /** One department per VP, whatever its `manager_id`. */
  function Departments(vps: seq<AgentInfo>, b: ByLevel): (r: seq<ChartNode>)
    ensures |r| == |vps|
    ensures forall i :: 0 <= i < |vps| ==> r[i] == NodeOf(vps[i], VP, b)
  {
    if vps == [] then [] else Departments(vps[..|vps| - 1], b) + [NodeOf(vps[|vps| - 1], VP, b)]
  }

  function BoardRoom(b: ByLevel): ChartNode {
    ChartNode("board_room", JStr("Board Room"), None, Some(BoardNodes(b.cSuite)))
  }

  function DepartmentsNode(b: ByLevel): ChartNode {
    ChartNode("departments", JStr("Departments"), None, Some(Departments(b.vps, b)))
  }

  /** The root: the board room, then the departments when there is a VP. */
  function Tree(b: ByLevel): (t: ChartNode)
    ensures t.id == "root" && t.children.Some? && |t.children.value| >= 1
    ensures t.children.value[0] == BoardRoom(b)
    ensures |t.children.value| == 2 <==> b.vps != []
    ensures b.vps != [] ==> t.children.value[1] == DepartmentsNode(b)
  {
    ChartNode("root", JStr("Organization"), None,
              Some([BoardRoom(b)] + (if b.vps != [] then [DepartmentsNode(b)] else [])))
  }

  /** The board-room children are exactly the C-suite agents, in order. */
  lemma BoardRoomIsCSuite(b: ByLevel)
    ensures var kids := Tree(b).children.value[0].children.value;
      |kids| == |b.cSuite| && forall i :: 0 <= i < |kids| ==> kids[i].id == b.cSuite[i].id && kids[i].data == Some(b.cSuite[i])
  {
  }

  /** Building the nodes of one agent: its own loop over the next level, if any. */
  method BuildNode(a: AgentInfo, l: Level, b: ByLevel) returns (n: ChartNode)
    requires l != CSuite
    ensures n == NodeOf(a, l, b)
    decreases Depth(l), 0
  {
    if l == IC {
      n := ChartNode(a.id, IcLabel(a), Some(a), None);
    } else {
      var kids := BuildUnder(b.At(Below(l)), a.id, Below(l), b);
      n := ChartNode(if l == VP then "dept_" + a.id else a.id, a.role, Some(a), Some(kids));
    }
  }

  /** The loop `for x in by_level[...]: if x["manager_id"] == parent["id"]: ...append(...)`. */
  method BuildUnder(xs: seq<AgentInfo>, parentId: string, l: Level, b: ByLevel) returns (nodes: seq<ChartNode>)
    requires l != CSuite
    ensures nodes == Under(xs, parentId, l, b)
    decreases Depth(l), |xs| + 1
  {
    nodes := [];
    for i := 0 to |xs|
      invariant nodes == Under(xs[..i], parentId, l, b)
    {
      assert xs[..i + 1][..i] == xs[..i];
      if ReportsTo(xs[i], parentId) {
        var node := BuildNode(xs[i], l, b);
        nodes := nodes + [node];
      }
    }
    assert xs[..|xs|] == xs;
  }

  /** The board-room comprehension. */
  method BuildBoardRoom(cs: seq<AgentInfo>) returns (board: seq<ChartNode>)
    ensures board == BoardNodes(cs)
  {
    board := [];
    for i := 0 to |cs|
      invariant board == BoardNodes(cs[..i])
    {
      assert cs[..i + 1][..i] == cs[..i];
      board := board + [ChartNode(cs[i].id, cs[i].role, Some(cs[i]), None)];
    }
    assert cs[..|cs|] == cs;
  }

  /** One more VP: its department after the earlier ones. */
  lemma DepartmentsStep(vps: seq<AgentInfo>, b: ByLevel, i: nat)
    requires i < |vps|
    ensures Departments(vps[..i + 1], b) == Departments(vps[..i], b) + [NodeOf(vps[i], VP, b)]
  {
    assert vps[..i + 1][..i] == vps[..i];
  }

  /** The department loop over the VPs. */
  method BuildDepartments(vps: seq<AgentInfo>, b: ByLevel) returns (depts: seq<ChartNode>)
    ensures depts == Departments(vps, b)
  {
    depts := [];
    for i := 0 to |vps|
      invariant depts == Departments(vps[..i], b)
    {
      DepartmentsStep(vps, b, i);
      var dept := BuildNode(vps[i], VP, b);
      depts := depts + [dept];
    }
    assert vps[..|vps|] == vps;
  }

  /** The root: the board room, then the departments when there is a VP. */
  method BuildTree(b: ByLevel) returns (t: ChartNode)
    ensures t == Tree(b)
  {
    var board := BuildBoardRoom(b.cSuite);
    var room := ChartNode("board_room", JStr("Board Room"), None, Some(board));
    assert room == BoardRoom(b);
    var children := [room];
    if b.vps != [] {
      var depts := BuildDepartments(b.vps, b);
      var departments := ChartNode("departments", JStr("Departments"), None, Some(depts));
      assert departments == DepartmentsNode(b);
      children := children + [departments];
    } else {
      assert children == [BoardRoom(b)] + [];
    }
    t := ChartNode("root", JStr("Organization"), None, Some(children));
  }

  // ---------------------------------------------------------------------------
  // The task summary

  /** `task.get("status", "planned")` for every task node, in node order. */
  function TaskStatuses(nodes: seq<(string, Dict)>): (r: seq<Json>)
    ensures |r| <= |nodes|
  {
    if nodes == [] then []
    else
      var node := nodes[|nodes| - 1].1;
      TaskStatuses(nodes[..|nodes| - 1]) + (if IsTask(node) then [Get(node, "status", JStr("planned"))] else [])
  }

  /** `by_status`, as its (status, count) items in insertion order. */
  type StatusCounts = seq<(Json, nat)>

  /** `by_status[s] = by_status.get(s, 0) + 1` */
  function Bump(c: StatusCounts, s: Json): (r: StatusCounts)
    ensures |r| == |c| || |r| == |c| + 1
  {
    if c == [] then [(s, 1)]
    else if c[0].0 == s then [(s, c[0].1 + 1)] + c[1..]
    else [c[0]] + Bump(c[1..], s)
  }

  /** `by_status.get(s, 0)` */
  function CountFor(c: StatusCounts, s: Json): nat {
    if c == [] then 0 else if c[0].0 == s then c[0].1 else CountFor(c[1..], s)
  }

  /** The sum of the counts. */
  function SumCounts(c: StatusCounts): nat {
    if c == [] then 0 else c[0].1 + SumCounts(c[1..])
  }

  /** How often `s` occurs in `xs`. */
  function Occurrences(xs: seq<Json>, s: Json): nat {
    if xs == [] then 0 else Occurrences(xs[..|xs| - 1], s) + (if xs[|xs| - 1] == s then 1 else 0)
  }

  /** The counting loop, failing at the first unhashable status. */
  function Tally(xs: seq<Json>): (r: Result<StatusCounts, ChartError>)
  {
    if xs == [] then Ok([])
    else
      match Tally(xs[..|xs| - 1])
      case Err(e) => Err(e)
      case Ok(c) => if Hashable(xs[|xs| - 1]) then Ok(Bump(c, xs[|xs| - 1])) else Err(StatusUnhashable(xs[|xs| - 1]))
  }

  lemma {:induction false} BumpSum(c: StatusCounts, s: Json)
    ensures SumCounts(Bump(c, s)) == SumCounts(c) + 1
  {
    if c != [] && c[0].0 != s {
      BumpSum(c[1..], s);
      assert Bump(c, s)[1..] == Bump(c[1..], s);
    }
  }

  lemma {:induction false} BumpCount(c: StatusCounts, s: Json, t: Json)
    ensures CountFor(Bump(c, s), t) == CountFor(c, t) + (if s == t then 1 else 0)
  {
    if c != [] && c[0].0 != s {
      BumpCount(c[1..], s, t);
      assert Bump(c, s)[1..] == Bump(c[1..], s);
    }
  }

  /** The status counts add up to the number of tasks. */
  lemma {:induction false} TallySumsToTotal(xs: seq<Json>)
    requires Tally(xs).Ok?
    ensures SumCounts(Tally(xs).value) == |xs|
  {
    if xs != [] {
      TallySumsToTotal(xs[..|xs| - 1]);
      BumpSum(Tally(xs[..|xs| - 1]).value, xs[|xs| - 1]);
    }
  }

  /** Each status is counted as often as it occurs. */
  lemma {:induction false} TallyCounts(xs: seq<Json>, s: Json)
    requires Tally(xs).Ok?
    ensures CountFor(Tally(xs).value, s) == Occurrences(xs, s)
  {
    if xs != [] {
      TallyCounts(xs[..|xs| - 1], s);
      BumpCount(Tally(xs[..|xs| - 1]).value, xs[|xs| - 1], s);
    }
  }

  /** Counting fails exactly when some status is unhashable. */
  lemma {:induction false} TallyFails(xs: seq<Json>)
    ensures Tally(xs).Err? <==> exists i :: 0 <= i < |xs| && !Hashable(xs[i])
  {
    if xs != [] {
      var front := xs[..|xs| - 1];
      TallyFails(front);
      if exists i :: 0 <= i < |front| && !Hashable(front[i]) {
        var i :| 0 <= i < |front| && !Hashable(front[i]);
        assert xs[i] == front[i];
      }
      if exists i :: 0 <= i < |xs| && !Hashable(xs[i]) {
        var i :| 0 <= i < |xs| && !Hashable(xs[i]);
        if i < |front| {
          assert front[i] == xs[i];
        }
      }
    }
  }

  method TallyStatuses(xs: seq<Json>) returns (r: Result<StatusCounts, ChartError>)
    ensures r == Tally(xs)
  {
    var byStatus: StatusCounts := [];
    for i := 0 to |xs|
      invariant Tally(xs[..i]) == Ok(byStatus)
    {
      assert xs[..i + 1][..i] == xs[..i];
      if !Hashable(xs[i]) {
        TallyStopsAtError(xs, i + 1);
        return Err(StatusUnhashable(xs[i]));
      }
      byStatus := Bump(byStatus, xs[i]);
    }
    assert xs[..|xs|] == xs;
    return Ok(byStatus);
  }

  lemma {:induction false} TallyStopsAtError(xs: seq<Json>, k: nat)
    requires k <= |xs| && Tally(xs[..k]).Err?
    ensures Tally(xs) == Tally(xs[..k])
    decreases |xs| - k
  {
    if k < |xs| {
      assert xs[..k + 1][..k] == xs[..k];
      TallyStopsAtError(xs, k + 1);
    } else {
      assert xs[..k] == xs;
    }
  }

  datatype TaskSummary = TaskSummary(total: nat, byStatus: StatusCounts)

  datatype Chart = Chart(tree: ChartNode, agentsCount: nat, tasks: TaskSummary)

  /** `build_org_chart` over the items of the graph's `nodes`: fails on the first bad agent
      node, then on the first unhashable task status; otherwise the tree of the grouped
      agents, the number of agent nodes, and the task total with its status counts. */
  method BuildOrgChart(nodes: seq<(string, Dict)>) returns (r: Result<Chart, ChartError>)
    ensures r.Ok? <==> Grouped(nodes).Ok? && Tally(TaskStatuses(nodes)).Ok?
    ensures Grouped(nodes).Err? ==> r == Err(Grouped(nodes).error)
    ensures Grouped(nodes).Ok? && Tally(TaskStatuses(nodes)).Err? ==> r == Err(Tally(TaskStatuses(nodes)).error)
    ensures r.Ok? ==>
      Grouped(nodes).Ok? && Tally(TaskStatuses(nodes)).Ok? &&
      r.value.tree == Tree(Grouped(nodes).value) && r.value.agentsCount == AgentCount(nodes) &&
      r.value.tasks == TaskSummary(|TaskStatuses(nodes)|, Tally(TaskStatuses(nodes)).value)
  {
    var grouped := GroupAgents(nodes);
    if grouped.Err? {
      return Err(grouped.error);
    }
    var tree := BuildTree(grouped.value);
    var statuses := TaskStatuses(nodes);
    var byStatus := TallyStatuses(statuses);
    if byStatus.Err? {
      return Err(byStatus.error);
    }
    return Ok(Chart(tree, AgentCount(nodes), TaskSummary(|statuses|, byStatus.value)));
  }
}
