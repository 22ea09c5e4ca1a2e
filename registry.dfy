/**
 * The tool registry, the per-role tool preferences and the `ToolSelector` rules:
 * which tool ids a role gets under a budget policy, which model tier it gets, what a
 * set of tools costs, and which specialization a domain suggests for a role.
 */
module Registry {
  import opened Wrappers
  import opened Strs
  import opened Seqs

  datatype ToolCategory = Research | Code | Data | Writing | Testing | Monitoring | Communication

  /** A registered tool; `costTier` is 1 (cheap), 2 (moderate) or 3 (expensive). */
  datatype Tool = Tool(id: string, category: ToolCategory, costTier: nat)

  const ToolRegistry: map<string, Tool> := map[
    "web_search" := Tool("web_search", Research, 2),
    "code_reader" := Tool("code_reader", Code, 1),
    "code_chunker" := Tool("code_chunker", Code, 1),
    "data_tool" := Tool("data_tool", Data, 2),
    "writer" := Tool("writer", Writing, 1),
    "qa_tool" := Tool("qa_tool", Testing, 2)
  ]

  datatype RolePreferences = RolePreferences(role: string, preferred: seq<string>, required: seq<string>,
                                             excluded: seq<string>)

  const RolePrefs: map<string, RolePreferences> := map[
    "CEO" := RolePreferences("CEO", ["web_search", "writer"], [], ["code_chunker"]),
    "CTO" := RolePreferences("CTO", ["code_reader", "qa_tool"], [], []),
    "CFO" := RolePreferences("CFO", ["data_tool"], [], ["code_reader", "code_chunker"]),
    "VP_ENG" := RolePreferences("VP Engineering", ["code_reader", "code_chunker", "qa_tool"], ["code_reader"], []),
    "VP_PRODUCT" := RolePreferences("VP Product", ["web_search", "writer", "data_tool"], ["writer"], ["code_chunker"]),
    "VP_DATA" := RolePreferences("VP Data", ["data_tool", "code_reader"], ["data_tool"], []),
    "DIRECTOR_PM" := RolePreferences("Director PM", ["writer", "web_search"], [], ["code_chunker"]),
    "SWE" := RolePreferences("Software Engineer", ["code_reader", "code_chunker", "qa_tool"], ["code_reader"], []),
    "DATA_SCIENTIST" := RolePreferences("Data Scientist", ["data_tool", "code_reader"], ["data_tool"], []),
    "QA_ENGINEER" := RolePreferences("QA Engineer", ["qa_tool", "code_reader"], ["qa_tool"], [])
  ]

  /** The tools an unknown role gets. */
  const DefaultTools: seq<string> := ["web_search", "writer"]

  /** The preference key of a role: upper-cased, spaces turned into underscores. */
  function PrefsKey(role: string): (k: string)
    ensures |k| == |role| && ' ' !in k
  {
    ReplaceChar(Upper(role), ' ', '_')
  }

  /** What the budget policy adds from the preferred list: all of it when aggressive; the
      registered ones when balanced, if the budget is above 10 or the tier at most 2; only
      the registered tier-1 tools among the first two when conservative. */
  function PolicyPick(preferred: seq<string>, policy: string, availableBudget: real): (r: seq<string>)
    ensures forall t :: t in r ==> t in preferred
    ensures policy == "aggressive" ==> r == preferred
    ensures policy != "aggressive" ==> forall t :: t in r ==> t in ToolRegistry
    ensures policy != "aggressive" && policy != "balanced" ==>
      forall t :: t in r ==> t in preferred[..Min(2, |preferred|)] && ToolRegistry[t].costTier == 1
  {
    if policy == "aggressive" then preferred
    else if policy == "balanced" then Keep(preferred, t => t in ToolRegistry && (availableBudget > 10.0 || ToolRegistry[t].costTier <= 2))
    else Keep(preferred[..Min(2, |preferred|)], t => t in ToolRegistry && ToolRegistry[t].costTier == 1)
  }

  function Min(a: nat, b: nat): nat { if a < b then a else b }

  /** The elements of `s` that satisfy `p`, in order. */
  function Keep(s: seq<string>, p: string -> bool): (r: seq<string>)
    ensures forall t :: t in r <==> t in s && p(t)
    ensures |r| <= |s|
  {
    if s == [] then []
    else
      var front := Keep(s[..|s| - 1], p);
      assert forall t :: t in s <==> t in s[..|s| - 1] || t == s[|s| - 1];
      if p(s[|s| - 1]) then front + [s[|s| - 1]] else front
  }

  lemma KeepAppend(s: seq<string>, x: string, p: string -> bool)
    ensures Keep(s + [x], p) == Keep(s, p) + (if p(x) then [x] else [])
  {
    assert (s + [x])[..|s + [x]| - 1] == s;
  }

  /** `s` with repeats dropped, keeping first occurrences in order. */
  function Dedup(s: seq<string>): (r: seq<string>)
    ensures forall t :: t in r <==> t in s
    ensures Distinct(r)
  {
    if s == [] then []
    else
      var front := Dedup(s[..|s| - 1]);
      var last := s[|s| - 1];
      assert forall t :: t in s <==> t in s[..|s| - 1] || t == last;
      if last in front then front else front + [last]
  }

  predicate Distinct(s: seq<string>) {
    forall i, j :: 0 <= i < j < |s| ==> s[i] != s[j]
  }

  /** The position of the first occurrence of `t` in `s`. */
  function FirstIndex(s: seq<string>, t: string): (i: nat)
    requires t in s
    ensures i < |s| && s[i] == t && t !in s[..i]
  {
    if s[0] == t then 0 else 1 + FirstIndex(s[1..], t)
  }

  /** `Dedup` keeps the first occurrences in their original order. */
  lemma {:induction false} DedupKeepsFirstOrder(s: seq<string>)
    ensures forall i, j :: 0 <= i < j < |Dedup(s)| ==> FirstIndex(s, Dedup(s)[i]) < FirstIndex(s, Dedup(s)[j])
  {
    if s != [] {
      var front := s[..|s| - 1];
      var last := s[|s| - 1];
      DedupKeepsFirstOrder(front);
      var d := Dedup(s);
      forall t | t in front
        ensures FirstIndex(s, t) == FirstIndex(front, t)
      {
        FirstIndexPrefix(front, [last], t);
        assert front + [last] == s;
      }
      if last !in front {
        assert FirstIndex(s, last) == |s| - 1;
      }
    }
  }

  lemma {:induction false} FirstIndexPrefix(a: seq<string>, b: seq<string>, t: string)
    requires t in a
    ensures FirstIndex(a + b, t) == FirstIndex(a, t)
  {
    if a[0] != t {
      assert (a + b)[1..] == a[1..] + b;
      FirstIndexPrefix(a[1..], b, t);
    }
  }

  /** The tool ids `ToolSelector.select_tools` returns: the defaults for an unknown role;
      otherwise required then policy-picked tools, less the excluded ones, without repeats. */
  function SelectToolIds(role: string, policy: string, availableBudget: real): seq<string> {
    var key := PrefsKey(role);
    if key !in RolePrefs then DefaultTools
    else
      var prefs := RolePrefs[key];
      Dedup(Keep(prefs.required + PolicyPick(prefs.preferred, policy, availableBudget), t => t !in prefs.excluded))
  }

  /** For a known role: every required tool that is not excluded is selected, no excluded
      tool is, nothing is selected twice, and everything selected is required or preferred. */
  lemma SelectToolIdsProperties(role: string, policy: string, availableBudget: real)
    requires PrefsKey(role) in RolePrefs
    ensures var prefs := RolePrefs[PrefsKey(role)]; var r := SelectToolIds(role, policy, availableBudget);
      Distinct(r) &&
      (forall t :: t in prefs.required && t !in prefs.excluded ==> t in r) &&
      (forall t :: t in r ==> t !in prefs.excluded && (t in prefs.required || t in prefs.preferred))
  {
  }

  /** `ToolSelector.select_tools`: required tools, the policy's picks, the exclusion filter
      and the `seen`-set loop. */
  method SelectTools(role: string, policy: string, availableBudget: real) returns (unique: seq<string>)
    ensures unique == SelectToolIds(role, policy, availableBudget)
  {
    var key := PrefsKey(role);
    if key !in RolePrefs {
      return DefaultTools;
    }
    var prefs := RolePrefs[key];
    var picked := PickPreferred(prefs.preferred, policy, availableBudget);
    var selected := Keep(prefs.required + picked, t => t !in prefs.excluded);
    unique := RemoveRepeats(selected);
  }

  /** The policy branch of `select_tools`: the loops over the preferred tools. */
  method PickPreferred(preferred: seq<string>, policy: string, availableBudget: real) returns (picked: seq<string>)
    ensures picked == PolicyPick(preferred, policy, availableBudget)
  {
    if policy == "aggressive" {
      return preferred;
    }
    var candidates := if policy == "balanced" then preferred else preferred[..Min(2, |preferred|)];
    var p := if policy == "balanced" then (t: string) => t in ToolRegistry && (availableBudget > 10.0 || ToolRegistry[t].costTier <= 2)
             else (t: string) => t in ToolRegistry && ToolRegistry[t].costTier == 1;
    picked := Filter(candidates, p);
  }

  /** The loop over candidates that appends each accepted one. */
  method Filter(candidates: seq<string>, keep: string -> bool) returns (picked: seq<string>)
    ensures picked == Keep(candidates, keep)
  {
    picked := [];
    var i := 0;
    while i < |candidates|
      invariant 0 <= i <= |candidates|
      invariant picked == Keep(candidates[..i], keep)
    {
      var toolId := candidates[i];
      KeepAppend(candidates[..i], toolId, keep);
      PrefixStep(candidates, i);
      if keep(toolId) {
        picked := picked + [toolId];
      }
      i := i + 1;
    }
    assert candidates[..i] == candidates;
  }

  /** The order-preserving duplicate removal with a `seen` set. */
  method RemoveRepeats(selected: seq<string>) returns (unique: seq<string>)
    ensures unique == Dedup(selected)
  {
    var seen: set<string> := {};
    unique := [];
    var i := 0;
    while i < |selected|
      invariant 0 <= i <= |selected|
      invariant unique == Dedup(selected[..i])
      invariant forall t :: t in seen <==> t in unique
    {
      assert selected[..i + 1][..i] == selected[..i];
      if selected[i] !in seen {
        seen := seen + {selected[i]};
        unique := unique + [selected[i]];
      }
      i := i + 1;
    }
    assert selected[..i] == selected;
  }

  datatype ModelTier = Premium | Standard | Economy

  /** The `MODEL_TIERS` names; standard and economy name the same model. */
  function ModelName(tier: ModelTier): (name: string)
    ensures tier != Premium ==> name == "gpt-3.5-turbo"
  {
    match tier
    case Premium => "gpt-4-turbo"
    case Standard => "gpt-3.5-turbo"
    case Economy => "gpt-3.5-turbo"
  }

  /** The tier `select_model` picks: economy when conservative, premium when aggressive;
      otherwise premium for C_SUITE and VP, standard for DIRECTOR and MANAGER, else economy. */
  function ModelTierFor(roleLevel: string, policy: string): (t: ModelTier)
    ensures policy == "conservative" ==> t == Economy
    ensures policy == "aggressive" ==> t == Premium
    ensures policy != "conservative" && policy != "aggressive" ==>
      (t == Premium <==> roleLevel in {"C_SUITE", "VP"}) &&
      (t == Standard <==> roleLevel in {"DIRECTOR", "MANAGER"})
  {
    if policy == "conservative" then Economy
    else if policy == "aggressive" then Premium
    else if roleLevel == "C_SUITE" || roleLevel == "VP" then Premium
    else if roleLevel == "DIRECTOR" || roleLevel == "MANAGER" then Standard
    else Economy
  }

  /** `ToolSelector.select_model`. */
  function SelectModel(roleLevel: string, policy: string): (name: string)
    ensures name == ModelName(ModelTierFor(roleLevel, policy))
  {
    ModelName(ModelTierFor(roleLevel, policy))
  }

  /** The dollar cost of one use of a tool of the given tier; 0.01 for unknown tiers. */
  function TierCost(tier: nat): (c: real)
    ensures 0.01 <= c <= 0.10
  {
    if tier == 1 then 0.01 else if tier == 2 then 0.05 else if tier == 3 then 0.10 else 0.01
  }

  /** What one id adds to the estimate: its tier cost when registered, nothing otherwise. */
  function RegisteredCost(t: string): (c: real)
    ensures 0.0 <= c <= 0.10
    ensures t !in ToolRegistry ==> c == 0.0
    ensures t in ToolRegistry ==> c == TierCost(ToolRegistry[t].costTier)
  {
    if t in ToolRegistry then TierCost(ToolRegistry[t].costTier) else 0.0
  }

  /** The cost of a list of tool ids: the tier cost of each registered one. */
  function ToolCost(ids: seq<string>): real {
    if ids == [] then 0.0 else ToolCost(ids[..|ids| - 1]) + RegisteredCost(ids[|ids| - 1])
  }

  /** The cost is non-negative and at most 0.10 per id. */
  lemma {:induction false} ToolCostBounds(ids: seq<string>)
    ensures 0.0 <= ToolCost(ids) <= 0.10 * |ids| as real
  {
    if ids != [] {
      ToolCostBounds(ids[..|ids| - 1]);
    }
  }

  /** Unknown ids add nothing: the cost is that of the registered ids alone. */
  lemma {:induction false} ToolCostIgnoresUnknown(ids: seq<string>)
    ensures ToolCost(ids) == ToolCost(Keep(ids, t => t in ToolRegistry))
  {
    if ids != [] {
      var front := ids[..|ids| - 1];
      var last := ids[|ids| - 1];
      ToolCostIgnoresUnknown(front);
      assert ids == front + [last];
      KeepAppend(front, last, t => t in ToolRegistry);
      var kept := Keep(front, t => t in ToolRegistry);
      assert (kept + [last])[..|kept|] == kept;
    }
  }

  /** `ToolSelector.estimate_tool_cost`, the accumulator loop. */
  method EstimateToolCost(toolIds: seq<string>) returns (total: real)
    ensures total == ToolCost(toolIds)
    ensures total >= 0.0
  {
    total := 0.0;
    var i := 0;
    while i < |toolIds|
      invariant 0 <= i <= |toolIds|
      invariant total == ToolCost(toolIds[..i])
    {
      assert toolIds[..i + 1][..i] == toolIds[..i];
      var toolId := toolIds[i];
      if toolId in ToolRegistry {
        total := total + TierCost(ToolRegistry[toolId].costTier);
      }
      assert total == ToolCost(toolIds[..i]) + RegisteredCost(toolId);
      i := i + 1;
    }
    assert toolIds[..i] == toolIds;
    ToolCostBounds(toolIds);
  }

  /** The first `(keyword, value)` pair, in table order, whose keyword occurs in `role`
      case-insensitively. */
  function FirstMatch(table: seq<(string, string)>, role: string): (r: Option<string>)
    ensures r.None? <==> forall i :: 0 <= i < |table| ==> !ContainsIgnoreCase(role, table[i].0)
    ensures r.Some? ==>
      exists i :: 0 <= i < |table| && table[i].1 == r.value && ContainsIgnoreCase(role, table[i].0) &&
        forall j :: 0 <= j < i ==> !ContainsIgnoreCase(role, table[j].0)
  {
    if table == [] then None
    else if ContainsIgnoreCase(role, table[0].0) then Some(table[0].1)
    else
      var r := FirstMatch(table[1..], role);
      assert forall i :: 1 <= i < |table| ==> table[i] == table[1..][i - 1];
      if r.Some? then
        var i :| 0 <= i < |table[1..]| && table[1..][i].1 == r.value && ContainsIgnoreCase(role, table[1..][i].0) &&
          forall j :: 0 <= j < i ==> !ContainsIgnoreCase(role, table[1..][j].0);
        assert table[i + 1].1 == r.value;
        r
      else r
  }

  /** The per-domain tables, each in insertion order. */
  function DomainTable(domain: string): seq<(string, string)> {
    if domain == "web" then [("Engineer", "Frontend Engineer"), ("Manager", "Product Manager"), ("Director", "Director of Engineering")]
    else if domain == "data" then [("Engineer", "Data Engineer"), ("Scientist", "Data Scientist"), ("Manager", "Data Manager")]
    else if domain == "api" then [("Engineer", "Backend Engineer"), ("Architect", "Tech Architect"), ("Manager", "Engineering Manager")]
    else if domain == "mobile" then [("Engineer", "Mobile Engineer"), ("Designer", "UX Designer"), ("Manager", "Product Manager")]
    else []
  }

  /** `get_specialization_for_domain`: the domain is matched lower-cased; an unknown domain
      has no specializations. */
  function SpecializationForDomain(domain: string, role: string): (r: Option<string>)
    ensures Lower(domain) !in {"web", "data", "api", "mobile"} ==> r == None
  {
    FirstMatch(DomainTable(Lower(domain)), role)
  }
}
