/**
 * The public types of the facade: the error family, the execution result, the PRD wrapper
 * around its dictionary, and the event record with its dictionary form.
 */
module Types {
  import opened Wrappers
  import opened Json

  /** The exception classes: `PlugahError` and its three subclasses. */
  datatype ErrorKind = PlugahBase | InvalidInput | BudgetExceeded | ProviderError

  /** A raised `PlugahError` (or subclass): every member of the family carries a message
      and a details dictionary. */
  datatype PlugahError = PlugahError(kind: ErrorKind, message: string, details: Dict)

  /** `except PlugahError` catches every kind; `except K` catches exactly `K`. */
  predicate Catches(handler: ErrorKind, e: PlugahError) {
    handler == PlugahBase || handler == e.kind
  }

  /** `K(message, details)`: details default to the empty dictionary. */
  function NewError(kind: ErrorKind, message: string, details: Option<Dict>): (e: PlugahError)
    ensures e.kind == kind && e.message == message
    ensures details.None? ==> e.details == map[]
    ensures details.Some? ==> e.details == details.value
    ensures Catches(PlugahBase, e) && Catches(kind, e)
  {
    PlugahError(kind, message, if details.Some? then details.value else map[])
  }

  /** A handler for one subclass does not catch another. */
  lemma SubclassesDisjoint(e: PlugahError, handler: ErrorKind)
    requires handler != PlugahBase && handler != e.kind
    ensures !Catches(handler, e)
  {
  }

  // ---------------------------------------------------------------------------
  // ExecutionResult

  datatype ExecutionResult = ExecutionResult(totalCost: real, artifacts: Dict, metrics: Dict, details: Dict)

  /** `ExecutionResult(total_cost, artifacts, metrics, details)`: a missing map becomes `{}`. */
  function NewExecutionResult(totalCost: real, artifacts: Option<Dict>, metrics: Option<Dict>,
                              details: Option<Dict>): (r: ExecutionResult)
    ensures r.totalCost == totalCost
    ensures r.artifacts == (if artifacts.Some? then artifacts.value else map[])
    ensures r.metrics == (if metrics.Some? then metrics.value else map[])
    ensures r.details == (if details.Some? then details.value else map[])
  {
    ExecutionResult(totalCost, artifacts.GetOr(map[]), metrics.GetOr(map[]), details.GetOr(map[]))
  }

  /** `ExecutionResult.to_dict`: the four fields under their names, nothing else. */
  function ExecutionResultToDict(r: ExecutionResult): (d: Dict)
    ensures d.Keys == {"total_cost", "artifacts", "metrics", "details"}
    ensures d["total_cost"] == JNum(r.totalCost) && d["artifacts"] == JObj(r.artifacts)
    ensures d["metrics"] == JObj(r.metrics) && d["details"] == JObj(r.details)
  {
    map["total_cost" := JNum(r.totalCost), "artifacts" := JObj(r.artifacts),
        "metrics" := JObj(r.metrics), "details" := JObj(r.details)]
  }

  /** The dictionary form loses nothing: two results with the same dictionary are equal. */
  lemma ExecutionResultToDictInjective(a: ExecutionResult, b: ExecutionResult)
    requires ExecutionResultToDict(a) == ExecutionResultToDict(b)
    ensures a == b
  {
    assert ExecutionResultToDict(a)["total_cost"] == ExecutionResultToDict(b)["total_cost"];
    assert ExecutionResultToDict(a)["artifacts"] == ExecutionResultToDict(b)["artifacts"];
    assert ExecutionResultToDict(a)["metrics"] == ExecutionResultToDict(b)["metrics"];
    assert ExecutionResultToDict(a)["details"] == ExecutionResultToDict(b)["details"];
  }

  // ---------------------------------------------------------------------------
  // PRD

  /** The product requirements document: a wrapper around its dictionary. */
  datatype Prd = Prd(data: Dict)

  /** `PRD.to_dict`: a copy of the wrapped dictionary. */
  function PrdToDict(p: Prd): (d: Dict)
    ensures d == p.data
  {
    p.data
  }

  /** `PRD.from_dict`: wraps the dictionary, so `from_dict(d).to_dict() == d`. */
  function PrdFromDict(d: Dict): (p: Prd)
    ensures PrdToDict(p) == d
  {
    Prd(d)
  }

  /** `PRD.objectives`: the stored value, or `[]` when the key is absent. */
  function Objectives(p: Prd): (r: Json)
    ensures "objectives" in p.data ==> r == p.data["objectives"]
    ensures "objectives" !in p.data ==> r == JArr([])
  {
    Get(p.data, "objectives", JArr([]))
  }

  /** `PRD.requirements`: the stored value, or `[]` when the key is absent. */
  function Requirements(p: Prd): (r: Json)
    ensures "requirements" in p.data ==> r == p.data["requirements"]
    ensures "requirements" !in p.data ==> r == JArr([])
  {
    Get(p.data, "requirements", JArr([]))
  }

  /** `PRD.milestones`: the stored value, or `[]` when the key is absent. */
  function Milestones(p: Prd): (r: Json)
    ensures "milestones" in p.data ==> r == p.data["milestones"]
    ensures "milestones" !in p.data ==> r == JArr([])
  {
    Get(p.data, "milestones", JArr([]))
  }

  /** `PRD.risks`: the stored value, or `[]` when the key is absent. */
  function Risks(p: Prd): (r: Json)
    ensures "risks" in p.data ==> r == p.data["risks"]
    ensures "risks" !in p.data ==> r == JArr([])
  {
    Get(p.data, "risks", JArr([]))
  }

  // ---------------------------------------------------------------------------
  // Event

  datatype Event = Event(phase: string, message: string, costDelta: real, accCost: real, metadata: Dict)

  /** `Event(phase, message, cost_delta, acc_cost, metadata)`: metadata defaults to `{}`. */
  function NewEvent(phase: string, message: string, costDelta: real, accCost: real, metadata: Option<Dict>): (e: Event)
    ensures e.phase == phase && e.message == message && e.costDelta == costDelta && e.accCost == accCost
    ensures e.metadata == (if metadata.Some? then metadata.value else map[])
  {
    Event(phase, message, costDelta, accCost, metadata.GetOr(map[]))
  }

  /** `Event.to_dict`: exactly the five fields under their names. */
  function EventToDict(e: Event): (d: Dict)
    ensures d.Keys == {"phase", "message", "cost_delta", "acc_cost", "metadata"}
    ensures d["phase"] == JStr(e.phase) && d["message"] == JStr(e.message)
    ensures d["cost_delta"] == JNum(e.costDelta) && d["acc_cost"] == JNum(e.accCost)
    ensures d["metadata"] == JObj(e.metadata)
  {
    map["phase" := JStr(e.phase), "message" := JStr(e.message), "cost_delta" := JNum(e.costDelta),
        "acc_cost" := JNum(e.accCost), "metadata" := JObj(e.metadata)]
  }

  /** Two events with the same dictionary are the same event. */
  lemma EventToDictInjective(a: Event, b: Event)
    requires EventToDict(a) == EventToDict(b)
    ensures a == b
  {
    assert EventToDict(a)["phase"] == EventToDict(b)["phase"];
    assert EventToDict(a)["message"] == EventToDict(b)["message"];
    assert EventToDict(a)["cost_delta"] == EventToDict(b)["cost_delta"];
    assert EventToDict(a)["acc_cost"] == EventToDict(b)["acc_cost"];
    assert EventToDict(a)["metadata"] == EventToDict(b)["metadata"];
  }
}
