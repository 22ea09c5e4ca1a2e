/**
 * `OrgPlanner.plan` of the minimal flows: a fixed three-role C-suite, a policy-sized row of
 * ICs with one tasklet each, and a fixed lean organisation for the Slack summarizer seed.
 */
module CorePlanning {
  import opened Wrappers
  import opened Strs
  import opened CoreModels

  /** The policy hint: fewer ICs when cheap, more when fast. */
  function IcCount(policy: CorePolicy): (n: nat)
    ensures policy == Cheap ==> n == 2
    ensures policy == Fast ==> n == 4
    ensures policy == Balanced ==> n == 3
  {
    match policy
    case Cheap => 2
    case Fast => 4
    case Balanced => 3
  }

  /** Cheap hires strictly fewer ICs than balanced, and balanced strictly fewer than fast. */
  lemma IcCountOrdered()
    ensures IcCount(Cheap) < IcCount(Balanced) < IcCount(Fast)
  {
  }

  /** The seed test: the lower-cased problem mentions both "slack" and "summarizer". */
  predicate IsSlackSeed(problem: string) {
    Contains(Lower(problem), "slack") && Contains(Lower(problem), "summarizer")
  }

  const DefaultCSuite: seq<Role> := [
    Role("CEO", ["Deliver MVP"], ["PRD"], ["Direction"]),
    Role("CTO", ["Technical plan"], ["PRD"], ["Spec"]),
    Role("CFO", ["Track cost"], ["Plan"], ["Budget report"])
  ]

  const SlackCSuite: seq<Role> := [NamedRole("CEO"), NamedRole("VP Eng"), NamedRole("CFO")]

  const SlackIcs: seq<Role> := [NamedRole("IC Summarizer"), NamedRole("IC Integrations")]

  const SlackTasklets: seq<Tasklet> := [
    Tasklet("task-1", "Summarize channels", "IC Summarizer", None),
    Tasklet("task-2", "Ship delivery hook", "IC Integrations", None)
  ]

  /** `f"IC-{k}"` */
  function IcName(k: nat): string {
    "IC-" + NatToString(k)
  }

  /** `f"task-{k}"` */
  function TaskletId(k: nat): string {
    "task-" + NatToString(k)
  }

  /** The k-th IC (counting from 1). */
  function NumberedIc(k: nat): Role {
    Role(IcName(k), ["Ship task"], [], ["Artifact"])
  }

  /** The k-th tasklet, assigned to the k-th IC. */
  function NumberedTasklet(k: nat): Tasklet {
    Tasklet(TaskletId(k), "Task " + NatToString(k), IcName(k), None)
  }

  /** The ICs the loop appends for `range(n)`. */
  function NumberedIcs(n: nat): (r: seq<Role>)
    ensures |r| == n
    ensures forall i :: 0 <= i < n ==> r[i] == NumberedIc(i + 1)
  {
    if n == 0 then [] else NumberedIcs(n - 1) + [NumberedIc(n)]
  }

  /** The tasklets the loop appends for `range(n)`. */
  function NumberedTasklets(n: nat): (r: seq<Tasklet>)
    ensures |r| == n
    ensures forall i :: 0 <= i < n ==> r[i] == NumberedTasklet(i + 1)
  {
    if n == 0 then [] else NumberedTasklets(n - 1) + [NumberedTasklet(n)]
  }

  /** `OrgPlanner.plan`: three C-suite roles and no VPs whatever the input; the seed gives the
      fixed lean organisation, any other problem `IcCount(policy)` numbered ICs with tasklet i
      (id `task-i`) assigned to `IC-i`. */
  function Plan(prdId: string, policy: CorePolicy, problem: string): (g: OrganizationGraph)
    ensures g.prdId == prdId && g.vps == [] && |g.cSuite| == 3
    ensures IsSlackSeed(problem) ==>
      g.cSuite == SlackCSuite && g.ics == SlackIcs && g.tasklets == SlackTasklets
    ensures !IsSlackSeed(problem) ==>
      g.cSuite == DefaultCSuite && |g.ics| == IcCount(policy) && |g.tasklets| == IcCount(policy)
    ensures !IsSlackSeed(problem) ==> forall i :: 0 <= i < |g.tasklets| ==>
      g.ics[i].name == IcName(i + 1) && g.tasklets[i].id == TaskletId(i + 1) && g.tasklets[i].role == g.ics[i].name
  {
    if IsSlackSeed(problem) then OrganizationGraph(prdId, SlackCSuite, [], SlackIcs, SlackTasklets)
    else
      var n := IcCount(policy);
      OrganizationGraph(prdId, DefaultCSuite, [], NumberedIcs(n), NumberedTasklets(n))
  }

  /** The names of a list of roles. */
  function RoleNames(roles: seq<Role>): set<string> {
    set r | r in roles :: r.name
  }

  /** Every tasklet of a planned organisation is assigned to one of its ICs. */
  lemma TaskletRolesNameIcs(prdId: string, policy: CorePolicy, problem: string)
    ensures var g := Plan(prdId, policy, problem);
      forall i :: 0 <= i < |g.tasklets| ==> g.tasklets[i].role in RoleNames(g.ics)
  {
    var g := Plan(prdId, policy, problem);
    if IsSlackSeed(problem) {
      assert |g.tasklets| == |g.ics| == 2;
      assert g.ics[0].name == g.tasklets[0].role && g.ics[1].name == g.tasklets[1].role;
    }
    forall i | 0 <= i < |g.tasklets|
      ensures g.tasklets[i].role in RoleNames(g.ics)
    {
      assert g.ics[i] in g.ics && g.ics[i].name == g.tasklets[i].role;
    }
  }

  /** Outside the seed, IC names and tasklet ids are pairwise distinct. */
  lemma NumberedNamesDistinct(prdId: string, policy: CorePolicy, problem: string)
    requires !IsSlackSeed(problem)
    ensures var g := Plan(prdId, policy, problem);
      forall i, j :: 0 <= i < j < |g.tasklets| ==>
        g.ics[i].name != g.ics[j].name && g.tasklets[i].id != g.tasklets[j].id
  {
    var g := Plan(prdId, policy, problem);
    forall i, j | 0 <= i < j < |g.tasklets|
      ensures g.ics[i].name != g.ics[j].name && g.tasklets[i].id != g.tasklets[j].id
    {
      PrefixedNumbersDistinct("IC-", i + 1, j + 1);
      PrefixedNumbersDistinct("task-", i + 1, j + 1);
    }
  }
}
