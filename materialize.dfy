/**
 * The materializer: what it turns each agent and task of an OAG into (role line, goal,
 * backstory, tools, delegation, task description with its contract), the default worker
 * it adds for a task whose agent is missing, and the crew builder's task order.
 * The crew library's objects become the records `CrewAgent` and `CrewTask`.
 */
module Materialize {
  import opened Wrappers
  import opened Strs
  import opened OagSchema
  import Registry
  import TaskGraph
  import Selection
  import opened Seqs

  /** What the materializer hands to the crew library for one agent. */
  datatype CrewAgent = CrewAgent(role: string, goal: string, backstory: string, tools: seq<string>,
                                 llm: string, maxIter: nat, allowDelegation: bool, systemTemplate: string)

  /** What the materializer hands to the crew library for one task; the agent is named by
      its key in the agent dict. */
  datatype CrewTask = CrewTask(description: string, expectedOutput: string, agentId: string, outputFile: string)

  /** The inputs from outside the graph: the `DEFAULT_LLM_MODEL` setting and the selector's
      `compose_system_prompt`, taking role, level, project title, domain and specialization. */
  datatype MaterializeEnv = MaterializeEnv(
    defaultModel: string,
    compose: (string, RoleLevel, string, Option<string>, Option<string>) -> string)

  // ---------------------------------------------------------------------------
  // Task description

  function RequiredWord(required: bool): string {
    if required then "required" else "optional"
  }

  /** One contract line: `- name (dtype, required|optional): description` and a newline. */
  function IOLine(io: ContractIO): string {
    "- " + io.name + " (" + io.dtype + ", " + RequiredWord(io.required) + "): " + io.description + "\n"
  }

  /** The lines of a list of inputs or outputs, in order. */
  function IOLines(ios: seq<ContractIO>): string {
    if ios == [] then "" else IOLines(ios[..|ios| - 1]) + IOLine(ios[|ios| - 1])
  }

  /** A contract section: its header line, one line per entry and a blank line; nothing
      when empty. */
  function Section(header: string, ios: seq<ContractIO>): string {
    if ios == [] then "" else header + "\n" + IOLines(ios) + "\n"
  }

  /** The description `_build_task_description` builds. */
  function TaskDescription(spec: TaskSpec): string {
    spec.description + "\n\n" + Section("Required Inputs:", spec.contract.inputs)
      + Section("Expected Outputs:", spec.contract.outputs)
      + "Definition of Done: " + spec.contract.definitionOfDone
  }

  /** A contract field that fits on one line. */
  predicate OneLine(io: ContractIO) {
    '\n' !in io.name && '\n' !in io.dtype && '\n' !in io.description
  }

  lemma IOLineOneBreak(io: ContractIO)
    requires OneLine(io)
    ensures Count(IOLine(io), '\n') == 1
  {
    var pre := "- " + io.name + " (" + io.dtype + ", " + RequiredWord(io.required) + "): " + io.description;
    assert IOLine(io) == pre + "\n";
    CountConcat(pre, "\n", '\n');
    CountAbsent(pre, '\n');
  }

  /** One line per entry. */
  lemma {:induction false} IOLinesCount(ios: seq<ContractIO>)
    requires forall i :: 0 <= i < |ios| ==> OneLine(ios[i])
    ensures Count(IOLines(ios), '\n') == |ios|
  {
    if ios != [] {
      IOLinesCount(ios[..|ios| - 1]);
      IOLineOneBreak(ios[|ios| - 1]);
      CountConcat(IOLines(ios[..|ios| - 1]), IOLine(ios[|ios| - 1]), '\n');
    }
  }

  /** A non-empty section holds its header's line, one line per entry and a blank line. */
  lemma SectionCount(header: string, ios: seq<ContractIO>)
    requires '\n' !in header
    requires forall i :: 0 <= i < |ios| ==> OneLine(ios[i])
    ensures Count(Section(header, ios), '\n') == if ios == [] then 0 else |ios| + 2
  {
    if ios != [] {
      IOLinesCount(ios);
      CountAbsent(header, '\n');
      CountConcat(header, "\n", '\n');
      CountConcat(header + "\n", IOLines(ios), '\n');
      CountConcat(header + "\n" + IOLines(ios), "\n", '\n');
    }
  }

  /** The description starts with the task's description and a blank line and ends with the
      definition of done; with one-line contract fields, each non-empty section adds a header,
      one line per entry and a blank line, and an empty section adds nothing. */
  lemma DescriptionShape(spec: TaskSpec)
    requires forall i :: 0 <= i < |spec.contract.inputs| ==> OneLine(spec.contract.inputs[i])
    requires forall i :: 0 <= i < |spec.contract.outputs| ==> OneLine(spec.contract.outputs[i])
    ensures StartsWith(TaskDescription(spec), spec.description + "\n\n")
    ensures EndsWith(TaskDescription(spec), "Definition of Done: " + spec.contract.definitionOfDone)
    ensures Count(TaskDescription(spec), '\n') ==
      Count(spec.description, '\n') + 2
      + (if spec.contract.inputs == [] then 0 else |spec.contract.inputs| + 2)
      + (if spec.contract.outputs == [] then 0 else |spec.contract.outputs| + 2)
      + Count(spec.contract.definitionOfDone, '\n')
  {
    var c := spec.contract;
    var head := spec.description + "\n\n";
    var ins := Section("Required Inputs:", c.inputs);
    var outs := Section("Expected Outputs:", c.outputs);
    var dod := "Definition of Done: ";
    var t3 := head + ins + outs;
    StartsWithAppend(head, ins);
    StartsWithAppend(head + ins, outs);
    StartsWithTrans(t3, head + ins, head);
    StartsWithAppend(t3 + dod, c.definitionOfDone);
    StartsWithAppend(t3, dod);
    StartsWithTrans(t3 + dod, t3, head);
    StartsWithTrans(t3 + dod + c.definitionOfDone, t3 + dod, head);
    AppendAssoc(t3, dod, c.definitionOfDone);
    EndsWithAppend(t3, dod + c.definitionOfDone);
    DescriptionLiterals();
    CountConcat(spec.description, "\n\n", '\n');
    SectionCount("Required Inputs:", c.inputs);
    SectionCount("Expected Outputs:", c.outputs);
    CountAbsent(dod, '\n');
    CountConcat(head, ins, '\n');
    CountConcat(head + ins, outs, '\n');
    CountConcat(t3, dod, '\n');
    CountConcat(t3 + dod, c.definitionOfDone, '\n');
  }

  lemma DescriptionLiterals()
    ensures '\n' !in "Required Inputs:" && '\n' !in "Expected Outputs:" && '\n' !in "Definition of Done: "
    ensures Count("\n\n", '\n') == 2
  {
    assert "\n\n" == "\n" + "\n";
    CountConcat("\n", "\n", '\n');
  }

  lemma AppendAssoc(a: string, b: string, c: string)
    ensures (a + b) + c == a + (b + c)
  {
  }

  /** One section of `_build_task_description`: the header, then a line per entry, then a
      blank line. */
  method BuildSection(header: string, ios: seq<ContractIO>) returns (section: string)
    ensures section == Section(header, ios)
  {
    if ios == [] {
      return "";
    }
    section := header + "\n";
    var i := 0;
    while i < |ios|
      invariant 0 <= i <= |ios|
      invariant section == header + "\n" + IOLines(ios[..i])
    {
      assert ios[..i + 1][..i] == ios[..i];
      AppendAssoc(header + "\n", IOLines(ios[..i]), IOLine(ios[i]));
      section := section + IOLine(ios[i]);
      i := i + 1;
    }
    assert ios[..i] == ios;
    section := section + "\n";
  }

  /** `_build_task_description`: the description, the input and output sections, and the
      definition of done, appended in that order. */
  method BuildTaskDescription(spec: TaskSpec) returns (desc: string)
    ensures desc == TaskDescription(spec)
  {
    desc := spec.description + "\n\n";
    var inputs := BuildSection("Required Inputs:", spec.contract.inputs);
    desc := desc + inputs;
    var outputs := BuildSection("Expected Outputs:", spec.contract.outputs);
    desc := desc + outputs;
    desc := desc + "Definition of Done: " + spec.contract.definitionOfDone;
  }

  // ---------------------------------------------------------------------------
  // Goal

  const DefaultGoal: string := "Achieve project objectives"

  /** A line that names a responsibility or an obligation, in any case. */
  predicate GoalLine(line: string) {
    Contains(Lower(line), "responsibility") || Contains(Lower(line), "must")
  }

  /** The index of the first goal line, from `from` on. */
  function FirstGoalLine(lines: seq<string>, from: nat): (r: Option<nat>)
    requires from <= |lines|
    ensures r.Some? ==> from <= r.value < |lines| && GoalLine(lines[r.value])
    ensures r.Some? ==> forall j :: from <= j < r.value ==> !GoalLine(lines[j])
    ensures r.None? ==> forall j :: from <= j < |lines| ==> !GoalLine(lines[j])
    decreases |lines| - from
  {
    if from == |lines| then None
    else if GoalLine(lines[from]) then Some(from)
    else FirstGoalLine(lines, from + 1)
  }

  /** `_extract_goal_from_prompt`: the first line that mentions a responsibility or says
      "must", stripped; otherwise the default goal. */
  function ExtractGoal(systemPrompt: string): (goal: string)
    ensures var lines := Split(systemPrompt, '\n');
      match FirstGoalLine(lines, 0)
      case Some(i) => goal == Strip(lines[i]) && forall j :: 0 <= j < i ==> !GoalLine(lines[j])
      case None => goal == DefaultGoal && forall j :: 0 <= j < |lines| ==> !GoalLine(lines[j])
  {
    var lines := Split(systemPrompt, '\n');
    match FirstGoalLine(lines, 0)
    case Some(i) => Strip(lines[i])
    case None => DefaultGoal
  }

  /** Stripping a line keeps the keyword it was picked for: whenever some line qualifies,
      the goal is itself a goal line (and so it is the default only when no line does). */
  lemma ExtractedGoalIsGoalLine(systemPrompt: string)
    ensures var lines := Split(systemPrompt, '\n');
      (exists j :: 0 <= j < |lines| && GoalLine(lines[j])) ==> GoalLine(ExtractGoal(systemPrompt))
  {
    var lines := Split(systemPrompt, '\n');
    match FirstGoalLine(lines, 0)
    case Some(i) =>
      StripKeepsGoalLine(lines[i]);
    case None =>
  }

  /** A keyword has no white space, so it survives `strip()`. */
  lemma StripKeepsGoalLine(line: string)
    requires GoalLine(line)
    ensures GoalLine(Strip(line))
  {
    if Contains(Lower(line), "responsibility") {
      StripKeepsWord(line, "responsibility");
    } else {
      StripKeepsWord(line, "must");
    }
  }

  lemma StripKeepsWord(line: string, word: string)
    requires word != [] && forall k :: 0 <= k < |word| ==> IsLowerCase(word[k])
    requires Contains(Lower(line), word)
    ensures Contains(Lower(Strip(line)), word)
  {
    LStripKeepsWord(line, word);
    RStripKeepsWord(LStrip(line), word);
  }

  lemma {:induction false} LStripKeepsWord(s: string, word: string)
    requires word != [] && forall k :: 0 <= k < |word| ==> IsLowerCase(word[k])
    requires Contains(Lower(s), word)
    ensures Contains(Lower(LStrip(s)), word)
    decreases |s|
  {
    if s != [] && IsSpace(s[0]) {
      var p :| 0 <= p <= |s| - |word| && OccursAt(Lower(s), word, p);
      assert Lower(s)[p..p + |word|][0] == word[0];
      assert p != 0;
      WordInSlice(s, s[1..], 1, p, word);
      LStripKeepsWord(s[1..], word);
    }
  }

  lemma {:induction false} RStripKeepsWord(s: string, word: string)
    requires word != [] && forall k :: 0 <= k < |word| ==> IsLowerCase(word[k])
    requires Contains(Lower(s), word)
    ensures Contains(Lower(RStrip(s)), word)
    decreases |s|
  {
    if s != [] && IsSpace(s[|s| - 1]) {
      var p :| 0 <= p <= |s| - |word| && OccursAt(Lower(s), word, p);
      assert Lower(s)[p..p + |word|][|word| - 1] == word[|word| - 1];
      assert p + |word| != |s|;
      WordInSlice(s, s[..|s| - 1], 0, p, word);
      RStripKeepsWord(s[..|s| - 1], word);
    }
  }

  lemma WordInSlice(line: string, t: string, a: nat, p: nat, word: string)
    requires a + |t| <= |line| && t == line[a..a + |t|]
    requires a <= p && p + |word| <= a + |t|
    requires OccursAt(Lower(line), word, p)
    ensures Contains(Lower(t), word)
  {
    var q := p - a;
    forall k | 0 <= k < |word| ensures Lower(t)[q + k] == word[k] {
      assert t[q + k] == line[p + k];
      assert Lower(line)[p..p + |word|][k] == word[k];
    }
    assert Lower(t)[q..q + |word|] == word;
    assert OccursAt(Lower(t), word, q);
  }

  // ---------------------------------------------------------------------------
  // Backstory

  /** The level's value with `_` as space, in title case: `C_SUITE` reads `C Suite`. */
  function LevelTitle(level: RoleLevel): string {
    Title(ReplaceChar(LevelName(level), '_', ' '))
  }

  const BackstoryClosing: string := ". You bring expertise and leadership to ensure success."

  function BackstoryHead(spec: AgentSpec): string {
    "As a " + LevelTitle(spec.level) + "-level " + spec.role
  }

  function SpecializationPart(spec: AgentSpec): string {
    if Selection.Truthy(spec.specialization) then " specializing in " + spec.specialization.value else ""
  }

  function OkrPart(spec: AgentSpec): string {
    if spec.okrs != [] then ", you own " + NatToString(|spec.okrs|) + " key objectives" else ""
  }

  function KpiPart(spec: AgentSpec): string {
    if spec.kpis != [] then " and track " + NatToString(|spec.kpis|) + " KPIs" else ""
  }

  /** `_create_backstory`: the level and role, then the specialization, the OKR count and
      the KPI count each only when present, then the fixed closing sentence. */
  function Backstory(spec: AgentSpec): (b: string)
    ensures StartsWith(b, BackstoryHead(spec))
    ensures EndsWith(b, BackstoryClosing)
    ensures Selection.Truthy(spec.specialization) ==>
      Contains(b, " specializing in " + spec.specialization.value)
    ensures spec.okrs != [] ==> Contains(b, ", you own " + NatToString(|spec.okrs|) + " key objectives")
    ensures spec.kpis != [] ==> Contains(b, " and track " + NatToString(|spec.kpis|) + " KPIs")
    ensures !Selection.Truthy(spec.specialization) && spec.okrs == [] && spec.kpis == [] ==>
      b == BackstoryHead(spec) + BackstoryClosing
  {
    var head, s, o, k := BackstoryHead(spec), SpecializationPart(spec), OkrPart(spec), KpiPart(spec);
    var b := head + s + o + k + BackstoryClosing;
    FiveParts(head, s, o, k, BackstoryClosing);
    b
  }

  /** Each of five parts joined in order can be found in the result, the first at its
      start and the last at its end. */
  lemma FiveParts(h: string, s: string, o: string, k: string, c: string)
    ensures var b := h + s + o + k + c;
      StartsWith(b, h) && EndsWith(b, c) && Contains(b, s) && Contains(b, o) && Contains(b, k)
  {
    var b := h + s + o + k + c;
    assert b[..|h|] == h;
    assert b[|b| - |c|..] == c;
    assert b[|h|..|h| + |s|] == s;
    assert b[|h| + |s|..|h| + |s| + |o|] == o;
    assert b[|h| + |s| + |o|..|h| + |s| + |o| + |k|] == k;
    ContainsAt(b, s, |h|);
    ContainsAt(b, o, |h| + |s|);
    ContainsAt(b, k, |h| + |s| + |o|);
  }

  /** The level words as they appear: only the first letter of each word stays capital, so
      the C-suite reads `C Suite`. */
  lemma LevelTitleCSuite()
    ensures LevelTitle(C_SUITE) == "C Suite"
  {
    assert ReplaceChar("C_SUITE", '_', ' ') == "C SUITE";
    TitleSuite();
    assert TitleAfter(" SUITE", true) == " Suite";
  }

  /** After its first letter, a word's capitals are lowered. */
  lemma TitleSuite()
    ensures TitleAfter("SUITE", false) == "Suite"
  {
    assert TitleAfter("E", true) == "e";
    assert TitleAfter("TE", true) == "te";
    assert TitleAfter("ITE", true) == "ite";
    assert TitleAfter("UITE", true) == "uite";
  }

  /** Two-letter levels keep only their first capital: `IC` reads `Ic`, `VP` reads `Vp`. */
  lemma LevelTitleTwoLetters()
    ensures LevelTitle(IC) == "Ic"
    ensures LevelTitle(VP) == "Vp"
  {
    assert ReplaceChar("IC", '_', ' ') == "IC";
    assert TitleAfter("C", true) == "c";
    assert ReplaceChar("VP", '_', ' ') == "VP";
    assert TitleAfter("P", true) == "p";
  }

  // ---------------------------------------------------------------------------
  // Agents

  /** The role line: `specialization (role)` when there is a specialization. */
  function RoleLine(spec: AgentSpec): string {
    if Selection.Truthy(spec.specialization) then spec.specialization.value + " (" + spec.role + ")" else spec.role
  }

  /** The ids of the tool references the registry knows, in order (`_load_tool` returns
      `None` for the others). */
  function LoadableTools(refs: seq<ToolRef>): (ids: seq<string>)
    ensures forall t :: t in ids <==> t in Registry.ToolRegistry && exists r :: r in refs && r.id == t
    ensures |ids| <= |refs|
  {
    if refs == [] then []
    else
      var front := LoadableTools(refs[..|refs| - 1]);
      var last := refs[|refs| - 1];
      assert forall r :: r in refs <==> r in refs[..|refs| - 1] || r == last;
      if last.id in Registry.ToolRegistry then front + [last.id] else front
  }

  /** The loop over `spec.tools` in `_materialize_agent`. */
  method LoadTools(refs: seq<ToolRef>) returns (tools: seq<string>)
    ensures tools == LoadableTools(refs)
  {
    tools := [];
    var i := 0;
    while i < |refs|
      invariant 0 <= i <= |refs|
      invariant tools == LoadableTools(refs[..i])
    {
      assert refs[..i + 1][..i] == refs[..i];
      if refs[i].id in Registry.ToolRegistry {
        tools := tools + [refs[i].id];
      }
      i := i + 1;
    }
    assert refs[..i] == refs;
  }

  /** The system template: the agent's own prompt, stripped, or the composed one when that
      is blank. */
  function SystemTemplate(spec: AgentSpec, meta: OrgMeta, env: MaterializeEnv): string {
    var own := Strip(spec.systemPrompt);
    if own != "" then own else env.compose(spec.role, spec.level, meta.title, meta.domain, spec.specialization)
  }

  /** `_materialize_agent`. */
  function AgentFor(spec: AgentSpec, meta: OrgMeta, env: MaterializeEnv): (a: CrewAgent)
    ensures a.role == RoleLine(spec)
    ensures a.goal == ExtractGoal(spec.systemPrompt) && a.backstory == Backstory(spec)
    ensures a.tools == LoadableTools(spec.tools)
    ensures a.llm == if Selection.Truthy(spec.llm) then spec.llm.value else env.defaultModel
    ensures a.maxIter == 5
    ensures a.allowDelegation <==> spec.level == C_SUITE || spec.level == VP || spec.level == DIRECTOR
    ensures Strip(spec.systemPrompt) != "" ==> a.systemTemplate == Strip(spec.systemPrompt)
  {
    CrewAgent(RoleLine(spec), ExtractGoal(spec.systemPrompt), Backstory(spec), LoadableTools(spec.tools),
              if Selection.Truthy(spec.llm) then spec.llm.value else env.defaultModel, 5,
              spec.level in {C_SUITE, VP, DIRECTOR}, SystemTemplate(spec, meta, env))
  }

  method MaterializeAgent(spec: AgentSpec, meta: OrgMeta, env: MaterializeEnv) returns (a: CrewAgent)
    ensures a == AgentFor(spec, meta, env)
  {
    var tools := LoadTools(spec.tools);
    var llm := if Selection.Truthy(spec.llm) then spec.llm.value else env.defaultModel;
    a := CrewAgent(RoleLine(spec), ExtractGoal(spec.systemPrompt), Backstory(spec), tools, llm, 5,
                   spec.level in {C_SUITE, VP, DIRECTOR}, SystemTemplate(spec, meta, env));
  }

  /** `_create_default_agent`: a tool-less IC "Default Worker" that does not delegate
      (the crew library's default). */
  function DefaultAgent(meta: OrgMeta, env: MaterializeEnv): (a: CrewAgent)
    ensures a.role == "Default Worker" && a.tools == [] && a.maxIter == 3 && !a.allowDelegation
    ensures a.llm == env.defaultModel
  {
    CrewAgent("Default Worker", "Complete assigned tasks", "A diligent worker ready to tackle any task", [],
              env.defaultModel, 3, false,
              env.compose("Default Worker", IC, meta.title, meta.domain, Some("Software Engineer")))
  }

  /** `_materialize_task`. */
  function TaskFor(spec: TaskSpec, meta: OrgMeta): (t: CrewTask)
    ensures t.description == TaskDescription(spec) && t.expectedOutput == spec.expectedOutput
    ensures t.agentId == spec.agentId
    ensures t.outputFile == ".runs/" + meta.projectId + "/" + spec.id + "/output.json"
  {
    CrewTask(TaskDescription(spec), spec.expectedOutput, spec.agentId,
             ".runs/" + meta.projectId + "/" + spec.id + "/output.json")
  }

  method MaterializeTask(spec: TaskSpec, meta: OrgMeta) returns (t: CrewTask)
    ensures t == TaskFor(spec, meta)
  {
    var description := BuildTaskDescription(spec);
    t := CrewTask(description, spec.expectedOutput, spec.agentId,
                  ".runs/" + meta.projectId + "/" + spec.id + "/output.json");
  }

  /** Some task of `ids` (all task keys) is assigned to `agentId`. */
  ghost predicate Assigned(nodes: map<string, Node>, ids: seq<string>, agentId: string)
    requires forall k :: k in ids ==> k in nodes && nodes[k].Task?
  {
    exists j :: 0 <= j < |ids| && nodes[ids[j]].task.agentId == agentId
  }

  /** `materialize`: every agent node becomes an agent under its key, every task node a task
      under its key, and an agent id a task names but no agent node holds gets the default
      worker under that id. */
  method Materialize(oag: Oag, env: MaterializeEnv) returns (agents: map<string, CrewAgent>, tasks: map<string, CrewTask>)
    requires oag.Valid()
    ensures forall k :: k in tasks <==> k in oag.nodes && oag.nodes[k].Task?
    ensures forall k :: k in tasks ==> tasks[k] == TaskFor(oag.nodes[k].task, oag.meta)
    ensures forall k :: k in agents <==>
      (k in oag.nodes && oag.nodes[k].Agent?) ||
      (exists t :: t in oag.nodes && oag.nodes[t].Task? && oag.nodes[t].task.agentId == k)
    ensures forall k :: k in agents ==>
      agents[k] == if k in oag.nodes && oag.nodes[k].Agent? then AgentFor(oag.nodes[k].agent, oag.meta, env)
                   else DefaultAgent(oag.meta, env)
  {
    var nodes, meta := oag.nodes, oag.meta;
    var agentIds := AgentOrder(oag.order, nodes);
    var own := MaterializeAgents(agentIds, nodes, meta, env);
    var taskIds := TaskOrder(oag.order, nodes);
    agents, tasks := MaterializeTasks(taskIds, nodes, meta, env, own);
    AssignedAll(nodes, taskIds);
  }

  /** Over all task keys, "some listed task names the agent" is "some task node names it". */
  lemma AssignedAll(nodes: map<string, Node>, ids: seq<string>)
    requires forall k :: k in ids <==> k in nodes && nodes[k].Task?
    ensures forall a :: Assigned(nodes, ids, a) <==> exists t :: t in nodes && nodes[t].Task? && nodes[t].task.agentId == a
  {
    forall a ensures Assigned(nodes, ids, a) <==> exists t :: t in nodes && nodes[t].Task? && nodes[t].task.agentId == a {
      if exists t :: t in nodes && nodes[t].Task? && nodes[t].task.agentId == a {
        var t :| t in nodes && nodes[t].Task? && nodes[t].task.agentId == a;
        var m :| 0 <= m < |ids| && ids[m] == t;
      }
    }
  }

  /** `agents` holds exactly an agent per id of `ids`, built from its node by `build`. */
  ghost predicate AgentsFrom(agents: map<string, CrewAgent>, ids: seq<string>, nodes: map<string, Node>,
                             build: AgentSpec -> CrewAgent) {
    (forall k :: k in agents <==> k in ids) &&
    forall k :: k in agents ==> k in nodes && nodes[k].Agent? && agents[k] == build(nodes[k].agent)
  }

  lemma AgentsFromStep(agents: map<string, CrewAgent>, ids: seq<string>, x: string, a: CrewAgent,
                       nodes: map<string, Node>, build: AgentSpec -> CrewAgent)
    requires AgentsFrom(agents, ids, nodes, build)
    requires x in nodes && nodes[x].Agent? && a == build(nodes[x].agent)
    ensures AgentsFrom(agents[x := a], ids + [x], nodes, build)
  {
  }

  /** The first loop of `materialize`: an agent per agent node, under its key. */
  method MaterializeAgents(ids: seq<string>, nodes: map<string, Node>, meta: OrgMeta, env: MaterializeEnv)
    returns (agents: map<string, CrewAgent>)
    requires forall k :: k in ids ==> k in nodes && nodes[k].Agent?
    ensures forall k :: k in agents <==> k in ids
    ensures forall k :: k in agents ==> agents[k] == AgentFor(nodes[k].agent, meta, env)
  {
    ghost var build := (spec: AgentSpec) => AgentFor(spec, meta, env);
    agents := map[];
    var i := 0;
    while i < |ids|
      invariant 0 <= i <= |ids|
      invariant AgentsFrom(agents, ids[..i], nodes, build)
    {
      PrefixStep(ids, i);
      var a := MaterializeAgent(nodes[ids[i]].agent, meta, env);
      AgentsFromStep(agents, ids[..i], ids[i], a, nodes, build);
      agents := agents[ids[i] := a];
      i := i + 1;
    }
    assert ids[..i] == ids;
  }

  /** The second loop of `materialize`: a task per task node, under its key, and the default
      worker for each agent id a task names that has no agent yet. */
  method MaterializeTasks(ids: seq<string>, nodes: map<string, Node>, meta: OrgMeta, env: MaterializeEnv,
                          own: map<string, CrewAgent>)
    returns (agents: map<string, CrewAgent>, tasks: map<string, CrewTask>)
    requires forall k :: k in ids ==> k in nodes && nodes[k].Task?
    ensures forall k :: k in tasks <==> k in ids
    ensures forall k :: k in tasks ==> tasks[k] == TaskFor(nodes[k].task, meta)
    ensures forall k :: k in agents <==> k in own || Assigned(nodes, ids, k)
    ensures forall k :: k in agents ==> agents[k] == if k in own then own[k] else DefaultAgent(meta, env)
  {
    agents, tasks := own, map[];
    var worker := DefaultAgent(meta, env);
    var j := 0;
    while j < |ids|
      invariant 0 <= j <= |ids|
      invariant TasksOf(tasks, ids[..j], nodes, meta)
      invariant WorkersOf(agents, own, nodes, ids[..j], worker)
    {
      var spec := nodes[ids[j]].task;
      TasksOfStep(tasks, ids, j, nodes, meta);
      WorkersOfStep(agents, own, nodes, ids, j, worker);
      if spec.agentId !in agents {
        agents := agents[spec.agentId := worker];
      }
      var t := MaterializeTask(spec, meta);
      tasks := tasks[ids[j] := t];
      j := j + 1;
    }
    assert ids[..j] == ids;
  }

  /** The tasks built so far: one per key of `ids`, each from its task node. */
  ghost predicate TasksOf(tasks: map<string, CrewTask>, ids: seq<string>, nodes: map<string, Node>, meta: OrgMeta)
    requires forall k :: k in ids ==> k in nodes && nodes[k].Task?
  {
    (forall k :: k in tasks <==> k in ids) && forall k :: k in tasks ==> tasks[k] == TaskFor(nodes[k].task, meta)
  }

  /** The agents so far: the materialized ones, plus `worker` for every other agent id that a
      task of `ids` names. */
  ghost predicate WorkersOf(agents: map<string, CrewAgent>, own: map<string, CrewAgent>, nodes: map<string, Node>,
                            ids: seq<string>, worker: CrewAgent)
    requires forall k :: k in ids ==> k in nodes && nodes[k].Task?
  {
    (forall k :: k in agents <==> k in own || Assigned(nodes, ids, k)) &&
    forall k :: k in agents ==> agents[k] == if k in own then own[k] else worker
  }

  /** One more task key: its task is added. */
  lemma TasksOfStep(tasks: map<string, CrewTask>, ids: seq<string>, j: nat, nodes: map<string, Node>, meta: OrgMeta)
    requires j < |ids| && forall k :: k in ids ==> k in nodes && nodes[k].Task?
    requires TasksOf(tasks, ids[..j], nodes, meta)
    ensures TasksOf(tasks[ids[j] := TaskFor(nodes[ids[j]].task, meta)], ids[..j + 1], nodes, meta)
  {
    PrefixStep(ids, j);
  }

  /** One more task key: its agent id gets the worker unless it already has an agent. */
  lemma WorkersOfStep(agents: map<string, CrewAgent>, own: map<string, CrewAgent>, nodes: map<string, Node>,
                      ids: seq<string>, j: nat, worker: CrewAgent)
    requires j < |ids| && forall k :: k in ids ==> k in nodes && nodes[k].Task?
    requires WorkersOf(agents, own, nodes, ids[..j], worker)
    ensures var a := nodes[ids[j]].task.agentId;
      WorkersOf(if a in agents then agents else agents[a := worker], own, nodes, ids[..j + 1], worker)
  {
    PrefixStep(ids, j);
    AssignedStep(nodes, ids[..j], ids[j]);
  }

  lemma AssignedStep(nodes: map<string, Node>, ids: seq<string>, id: string)
    requires forall k :: k in ids + [id] ==> k in nodes && nodes[k].Task?
    ensures forall k :: Assigned(nodes, ids + [id], k) <==> Assigned(nodes, ids, k) || nodes[id].task.agentId == k
  {
    var s := ids + [id];
    forall k ensures Assigned(nodes, s, k) <==> Assigned(nodes, ids, k) || nodes[id].task.agentId == k {
      if Assigned(nodes, s, k) {
        var j :| 0 <= j < |s| && nodes[s[j]].task.agentId == k;
        if j < |ids| { assert s[j] == ids[j]; }
      }
      if Assigned(nodes, ids, k) {
        var j :| 0 <= j < |ids| && nodes[ids[j]].task.agentId == k;
        assert s[j] == ids[j];
      }
      if nodes[id].task.agentId == k {
        assert s[|ids|] == id;
      }
    }
  }

  // ---------------------------------------------------------------------------
  // Task order

  /** The edges `_order_tasks` adds: those between two known tasks. */
  function KnownEdges(taskIds: seq<string>, edges: seq<Edge>): (r: set<(string, string)>)
    ensures forall p, q :: (p, q) in r <==>
      p in taskIds && q in taskIds && exists e :: e in edges && e.fromId == p && e.toId == q
  {
    set e | e in edges && e.fromId in taskIds && e.toId in taskIds :: (e.fromId, e.toId)
  }

  /** The ids of `ordered` that are task keys, in order (the comprehension's filter). */
  function KnownOnly(ordered: seq<string>, taskIds: seq<string>): (r: seq<string>)
    ensures forall x :: x in r <==> x in ordered && x in taskIds
  {
    if ordered == [] then []
    else
      var rest := KnownOnly(ordered[1..], taskIds);
      assert forall x :: x in ordered <==> x == ordered[0] || x in ordered[1..];
      if ordered[0] in taskIds then [ordered[0]] + rest else rest
  }

  lemma {:induction false} KnownOnlyAll(ordered: seq<string>, taskIds: seq<string>)
    requires forall x :: x in ordered ==> x in taskIds
    ensures KnownOnly(ordered, taskIds) == ordered
  {
    if ordered != [] {
      KnownOnlyAll(ordered[1..], taskIds);
      assert [ordered[0]] + ordered[1..] == ordered;
    }
  }

  /** `_order_tasks` with the cycle fallback it intends: a topological order of the task
      graph, or the tasks' own order when the graph has a cycle. */
  function OrderTasks(taskIds: seq<string>, edges: seq<Edge>): seq<string> {
    KnownOnly(TaskGraph.OrderOrFallback(TaskGraph.DiGraph(taskIds, KnownEdges(taskIds, edges)), taskIds), taskIds)
  }

  /** `_order_tasks` as written: a cycle raises from the sort, past the handler. */
  function OrderTasksAsWritten(taskIds: seq<string>, edges: seq<Edge>): (r: Result<seq<string>, string>)
    ensures r.Ok? ==> r.value == OrderTasks(taskIds, edges)
  {
    match TaskGraph.OrderAsWritten(TaskGraph.DiGraph(taskIds, KnownEdges(taskIds, edges)), taskIds)
    case Ok(o) => Ok(KnownOnly(o, taskIds))
    case Err(e) => Err(e)
  }

  /** Every task comes out exactly once; when the edges allow it, each edge between two known
      tasks has its source first; otherwise the tasks keep their own order. */
  lemma OrderTasksPermutation(taskIds: seq<string>, edges: seq<Edge>)
    ensures multiset(OrderTasks(taskIds, edges)) == multiset(taskIds)
    ensures var g := TaskGraph.DiGraph(taskIds, KnownEdges(taskIds, edges));
      TaskGraph.TopoSort(g.nodes, g.edges).Some? ==>
        forall i, j :: 0 <= i <= j < |OrderTasks(taskIds, edges)| ==>
          (OrderTasks(taskIds, edges)[j], OrderTasks(taskIds, edges)[i]) !in KnownEdges(taskIds, edges)
    ensures var g := TaskGraph.DiGraph(taskIds, KnownEdges(taskIds, edges));
      TaskGraph.TopoSort(g.nodes, g.edges).None? ==> OrderTasks(taskIds, edges) == taskIds
  {
    var g := TaskGraph.DiGraph(taskIds, KnownEdges(taskIds, edges));
    var o := TaskGraph.OrderOrFallback(g, taskIds);
    TaskGraph.OrderIsPermutation(g, taskIds);
    forall x | x in o ensures x in taskIds {
      assert x in multiset(o);
    }
    KnownOnlyAll(o, taskIds);
  }

  /** Two tasks that each depend on the other: as written the order raises, while the
      intended fallback gives the tasks in their own order. */
  lemma MutualDependencyRaises(a: TaskSpec, b: TaskSpec)
    requires a.id != b.id
    ensures var edges := [Edge("e1", a.id, b.id, None, map[]), Edge("e2", b.id, a.id, None, map[])];
      OrderTasksAsWritten([a.id, b.id], edges).Err? && OrderTasks([a.id, b.id], edges) == [a.id, b.id]
  {
    var ids := [a.id, b.id];
    var edges := [Edge("e1", a.id, b.id, None, map[]), Edge("e2", b.id, a.id, None, map[])];
    assert edges[0] in edges && edges[1] in edges;
    assert KnownEdges(ids, edges) == {(a.id, b.id), (b.id, a.id)};
    TaskGraph.CycleEscapesHandler(a.id, b.id);
    KnownOnlyAll(ids, ids);
  }
}
