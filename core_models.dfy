/**
 * The lightweight records of the minimal flows: the PRD, the three-layer organisation graph
 * with its tasklets, and the events the runner publishes.
 */
module CoreModels {
  import opened Wrappers

  /** The three staffing policies of the minimal flows. */
  datatype CorePolicy = Balanced | Cheap | Fast

  /** A role in the minimal organisation. */
  datatype Role = Role(name: string, goals: seq<string>, inputs: seq<string>, outputs: seq<string>)

  /** `Role(name=…)` with every list defaulting to empty. */
  function NamedRole(name: string): (r: Role)
    ensures r.name == name && r.goals == [] && r.inputs == [] && r.outputs == []
  {
    Role(name, [], [], [])
  }

  /** A unit of work, assigned to a role by name. */
  datatype Tasklet = Tasklet(id: string, title: string, role: string, description: Option<string>)

  /** The organisation: C-suite, VPs (never filled by the planner), ICs and the tasklets. */
  datatype OrganizationGraph = OrganizationGraph(prdId: string, cSuite: seq<Role>, vps: seq<Role>,
                                                 ics: seq<Role>, tasklets: seq<Tasklet>)

  /** The minimal PRD: every list defaults to empty, the optional texts to none. */
  datatype CorePrd = CorePrd(id: string, title: string, summary: string, acceptanceCriteria: seq<string>,
                             risks: seq<string>, objective: Option<string>, users: Option<string>,
                             scope: seq<string>, successMetrics: seq<string>, constraints: seq<string>,
                             initialWorkplan: seq<string>)

  /** The event kinds the minimal flows publish. */
  datatype EventType =
    | PHASE_CHANGE | QUESTION | ANSWER | PLAN_CREATED | HIRE | TASK_STARTED | TASK_DONE
    | BUDGET_UPDATE | OKR_UPDATE | REORG | ERROR | FINISHED

  /** A published event; the timestamp is left out and `cost_delta`, `team` and `okr` keep their
      defaults in every event the runner emits. */
  datatype CoreEvent = CoreEvent(kind: EventType, text: string, role: Option<string>, taskId: Option<string>,
                                 prdId: Option<string>)
}
