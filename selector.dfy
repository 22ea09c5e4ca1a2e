/**
 * The `Selector`: staffing sizes, per-role cost, specialization, tools and model for an
 * agent, all decided by the selector's own budget-policy string.
 */
module Selection {
  import opened Wrappers
  import opened Strs
  import opened OagSchema
  import Registry
  import opened Seqs

  /** How many of each role type to hire. */
  datatype Staffing = Staffing(vps: nat, directors: nat, managers: nat, ics: nat)

  /** `determine_staffing_level`: fixed sizes for the conservative and aggressive policies;
      any other policy string is balanced and sized by the budget (below 50, below 200, else). */
  function DetermineStaffingLevel(policy: string, budget: real): (s: Staffing)
    ensures policy == "conservative" ==> s == Staffing(1, 1, 1, 2)
    ensures policy == "aggressive" ==> s == Staffing(3, 4, 6, 12)
    ensures policy != "conservative" && policy != "aggressive" ==>
      s == if budget < 50.0 then Staffing(1, 2, 2, 4)
           else if budget < 200.0 then Staffing(2, 3, 4, 8)
           else Staffing(3, 4, 5, 10)
    ensures s.vps >= 1 && s.directors >= 1 && s.managers >= 1 && s.ics >= 2
  {
    if policy == "conservative" then Staffing(1, 1, 1, 2)
    else if policy == "aggressive" then Staffing(3, 4, 6, 12)
    else if budget < 50.0 then Staffing(1, 2, 2, 4)
    else if budget < 200.0 then Staffing(2, 3, 4, 8)
    else Staffing(3, 4, 5, 10)
  }

  /** Under the balanced policy, more budget never means fewer people at any level. */
  lemma BalancedStaffingMonotone(policy: string, b1: real, b2: real)
    requires policy != "conservative" && policy != "aggressive"
    requires b1 <= b2
    ensures var s1, s2 := DetermineStaffingLevel(policy, b1), DetermineStaffingLevel(policy, b2);
      s1.vps <= s2.vps && s1.directors <= s2.directors && s1.managers <= s2.managers && s1.ics <= s2.ics
  {
  }

  /** The base cost per task of each level. */
  function LevelBaseCost(level: RoleLevel): (c: real)
    ensures 0.1 <= c <= 1.0
    ensures c == 1.0 <==> level == C_SUITE
  {
    match level
    case C_SUITE => 1.0
    case VP => 0.5
    case DIRECTOR => 0.3
    case MANAGER => 0.2
    case IC => 0.1
    case EXTERNAL => 0.15
  }

  /** The policy factor: 0.7 conservative, 1.5 aggressive, 1 otherwise. */
  function PolicyFactor(policy: string): (f: real)
    ensures f > 0.0
  {
    if policy == "conservative" then 0.7 else if policy == "aggressive" then 1.5 else 1.0
  }

  /** `estimate_role_cost`: the level's base cost scaled by the policy; always positive and
      highest at C_SUITE. */
  function EstimateRoleCost(policy: string, level: RoleLevel): (c: real)
    ensures c > 0.0
    ensures c <= EstimateRoleCostMax(policy)
    ensures level == C_SUITE ==> c == EstimateRoleCostMax(policy)
    ensures policy == "conservative" ==> c == LevelBaseCost(level) * 0.7
    ensures policy == "aggressive" ==> c == LevelBaseCost(level) * 1.5
    ensures policy != "conservative" && policy != "aggressive" ==> c == LevelBaseCost(level)
  {
    LevelBaseCost(level) * PolicyFactor(policy)
  }

  /** The C_SUITE cost under a policy. */
  function EstimateRoleCostMax(policy: string): real {
    PolicyFactor(policy)
  }

  /** The role keywords tried when the domain gives nothing, in table order. */
  const RoleSpecializations: seq<(string, string)> := [
    ("Engineer", "Software Engineer"), ("Manager", "Engineering Manager"), ("Analyst", "Product Analyst"),
    ("Designer", "UX Designer"), ("Architect", "Tech Architect"), ("Lead", "Tech Lead")
  ]

  /** Python truthiness of an optional string. */
  predicate Truthy(s: Option<string>) {
    s.Some? && s.value != ""
  }

  /** `select_specialization`: a non-empty domain-table hit wins; otherwise the first role
      keyword contained in the role, case-insensitively; otherwise none. */
  function SelectSpecialization(role: string, domain: Option<string>): (r: Option<string>)
    ensures Truthy(domain) && Truthy(Registry.SpecializationForDomain(domain.value, role)) ==>
      r == Registry.SpecializationForDomain(domain.value, role)
    ensures !(Truthy(domain) && Truthy(Registry.SpecializationForDomain(domain.value, role))) ==>
      r == Registry.FirstMatch(RoleSpecializations, role)
  {
    if Truthy(domain) && Truthy(Registry.SpecializationForDomain(domain.value, role)) then
      Registry.SpecializationForDomain(domain.value, role)
    else Registry.FirstMatch(RoleSpecializations, role)
  }

  /** `select_specialization` returns none exactly when neither the domain table nor the
      role keywords match. */
  lemma SpecializationNoneIff(role: string, domain: Option<string>)
    ensures SelectSpecialization(role, domain).None? <==>
      !(Truthy(domain) && Truthy(Registry.SpecializationForDomain(domain.value, role))) &&
      forall i :: 0 <= i < |RoleSpecializations| ==> !ContainsIgnoreCase(role, RoleSpecializations[i].0)
  {
  }

  /** The role the tools are looked up by: the specialization when it is non-empty. */
  function LookupRole(role: string, specialization: Option<string>): string {
    if Truthy(specialization) then specialization.value else role
  }

  /** The tools `Selector.select_tools` returns: the registry's picks that are registered. */
  function ToolRefsFor(policy: string, role: string, specialization: Option<string>, availableBudget: real): seq<ToolRef> {
    ToToolRefs(Registry.Keep(Registry.SelectToolIds(LookupRole(role, specialization), policy, availableBudget), Registered))
  }

  /** `tool_id in TOOL_REGISTRY` */
  predicate Registered(t: string) {
    t in Registry.ToolRegistry
  }

  /** `ToolRef(id=…)` for each id, in order. */
  function ToToolRefs(ids: seq<string>): (r: seq<ToolRef>)
    ensures |r| == |ids|
    ensures forall i :: 0 <= i < |ids| ==> r[i] == ToolRef(ids[i], None)
  {
    if ids == [] then [] else [ToolRef(ids[0], None)] + ToToolRefs(ids[1..])
  }

  /** Every tool the selector hands out is a registered tool. */
  lemma ToolRefsRegistered(policy: string, role: string, specialization: Option<string>, availableBudget: real)
    ensures forall r :: r in ToolRefsFor(policy, role, specialization, availableBudget) ==>
      r.id in Registry.ToolRegistry && r.args == None
  {
    var ids := Registry.Keep(Registry.SelectToolIds(LookupRole(role, specialization), policy, availableBudget), Registered);
    forall r | r in ToToolRefs(ids)
      ensures r.id in Registry.ToolRegistry && r.args == None
    {
      var i :| 0 <= i < |ids| && ToToolRefs(ids)[i] == r;
      assert ids[i] in ids;
    }
  }

  /** `Selector.select_tools`: the registry's ids, converted to references while dropping
      any id the registry does not hold. */
  method SelectTools(policy: string, role: string, specialization: Option<string>, availableBudget: real)
    returns (tools: seq<ToolRef>)
    ensures tools == ToolRefsFor(policy, role, specialization, availableBudget)
  {
    var lookupRole := LookupRole(role, specialization);
    var toolIds := Registry.SelectTools(lookupRole, policy, availableBudget);
    tools := RefsOf(toolIds, Registered);
  }

  /** The conversion loop of `select_tools`: a reference for each id `keep` accepts, in order. */
  method RefsOf(toolIds: seq<string>, keep: string -> bool) returns (tools: seq<ToolRef>)
    ensures tools == ToToolRefs(Registry.Keep(toolIds, keep))
  {
    tools := [];
    var i := 0;
    while i < |toolIds|
      invariant 0 <= i <= |toolIds|
      invariant tools == ToToolRefs(Registry.Keep(toolIds[..i], keep))
    {
      Registry.KeepAppend(toolIds[..i], toolIds[i], keep);
      PrefixStep(toolIds, i);
      if keep(toolIds[i]) {
        ToToolRefsAppend(Registry.Keep(toolIds[..i], keep), toolIds[i]);
        tools := tools + [ToolRef(toolIds[i], None)];
      }
      i := i + 1;
    }
    assert toolIds[..i] == toolIds;
  }

  lemma ToToolRefsAppend(ids: seq<string>, x: string)
    ensures ToToolRefs(ids + [x]) == ToToolRefs(ids) + [ToolRef(x, None)]
  {
    var a, b := ToToolRefs(ids + [x]), ToToolRefs(ids) + [ToolRef(x, None)];
    assert |a| == |b|;
    forall i | 0 <= i < |a| ensures a[i] == b[i] {
      assert (ids + [x])[i] == if i < |ids| then ids[i] else x;
    }
  }

  /** `Selector.select_model`: the level's name and the selector's policy, passed through. */
  function SelectModel(policy: string, level: RoleLevel): (name: string)
    ensures name == Registry.ModelName(Registry.ModelTierFor(LevelName(level), policy))
  {
    Registry.SelectModel(LevelName(level), policy)
  }
}
