/**
 * The CFO's budget controller: a spend ledger that refuses any spend that would
 * pass the hard cap, a five-level alert classifier, cost estimation and the
 * CFO's approval and patch rules. Money is `real`.
 */
module Budget {
  import opened Wrappers
  import opened Json
  import opened OagSchema

  datatype BudgetAlert = Normal | Warning | Critical | ExceededSoft | Emergency

  function AlertName(a: BudgetAlert): string {
    match a
    case Normal => "normal"
    case Warning => "warning"
    case Critical => "critical"
    case ExceededSoft => "exceeded_soft"
    case Emergency => "emergency"
  }

  /** Position of a level in the escalation order NORMAL < WARNING < … < EMERGENCY. */
  function Severity(a: BudgetAlert): nat {
    match a
    case Normal => 0
    case Warning => 1
    case Critical => 2
    case ExceededSoft => 3
    case Emergency => 4
  }

  /** `get_alert_level`: the first threshold reached, tested from the most severe down. */
  function AlertLevel(spent: real, caps: BudgetCaps): (r: BudgetAlert)
    ensures r == Emergency <==> spent >= caps.hardCapUsd * 0.9
    ensures r == ExceededSoft <==> spent < caps.hardCapUsd * 0.9 && spent >= caps.softCapUsd
    ensures r == Critical <==>
      spent < caps.hardCapUsd * 0.9 && spent < caps.softCapUsd && spent >= caps.softCapUsd * 0.9
    ensures r == Warning <==>
      spent < caps.hardCapUsd * 0.9 && spent < caps.softCapUsd && spent < caps.softCapUsd * 0.9 &&
      spent >= caps.softCapUsd * 0.7
    ensures r == Normal <==>
      spent < caps.hardCapUsd * 0.9 && spent < caps.softCapUsd && spent < caps.softCapUsd * 0.9 &&
      spent < caps.softCapUsd * 0.7
  {
    if spent >= caps.hardCapUsd * 0.9 then Emergency
    else if spent >= caps.softCapUsd then ExceededSoft
    else if spent >= caps.softCapUsd * 0.9 then Critical
    else if spent >= caps.softCapUsd * 0.7 then Warning
    else Normal
  }

  /** With non-negative caps, spending more never lowers the alert level. */
  lemma AlertLevelMonotone(s1: real, s2: real, caps: BudgetCaps)
    requires caps.softCapUsd >= 0.0 && caps.hardCapUsd >= 0.0
    requires s1 <= s2
    ensures Severity(AlertLevel(s1, caps)) <= Severity(AlertLevel(s2, caps))
  {
  }

  /** The thresholds pinned for soft cap 80 and hard cap 100. */
  lemma AlertLevelThresholds()
    ensures AlertLevel(0.0, BudgetCaps(100.0, 80.0)) == Normal
    ensures AlertLevel(56.0, BudgetCaps(100.0, 80.0)) == Warning
    ensures AlertLevel(72.0, BudgetCaps(100.0, 80.0)) == Critical
    ensures AlertLevel(81.0, BudgetCaps(100.0, 80.0)) == ExceededSoft
    ensures AlertLevel(90.0, BudgetCaps(100.0, 80.0)) == Emergency
  {
  }

  /** The advice lists of `get_recommendations`, most severe level first. */
  const EmergencyAdvice: seq<string> := [
    "URGENT: Halt all non-critical operations", "Downgrade all models to economy tier",
    "Disable expensive tools", "Consider reducing scope immediately"]
  const ExceededSoftAdvice: seq<string> := [
    "Soft cap exceeded - implement cost controls", "Switch to conservative budget policy",
    "Reduce team size for remaining tasks", "Use economy models for all ICs"]
  const CriticalAdvice: seq<string> := [
    "Approaching soft cap - prepare contingencies", "Consider deferring non-essential tasks",
    "Downgrade models for non-critical roles", "Limit tool usage to essentials"]
  const WarningAdvice: seq<string> := [
    "Monitor spending closely", "Review task priorities", "Consider model optimization"]

  /** `get_recommendations`: the fixed advice for the current level. */
  function Recommendations(level: BudgetAlert): (r: seq<string>)
    ensures |r| == 0 <==> level == Normal
    ensures level != Normal ==> |r| == if level == Warning then 3 else 4
  {
    match level
    case Emergency => EmergencyAdvice
    case ExceededSoft => ExceededSoftAdvice
    case Critical => CriticalAdvice
    case Warning => WarningAdvice
    case Normal => []
  }

  /** `can_proceed`: execution may continue while spent is strictly below the hard cap. */
  predicate CanProceedAt(spent: real, caps: BudgetCaps) {
    spent < caps.hardCapUsd
  }

  /** `can_afford_task`: the estimate fits under the hard cap. */
  predicate CanAffordAt(spent: real, caps: BudgetCaps, estimatedCost: real) {
    spent + estimatedCost <= caps.hardCapUsd
  }

  /** `get_remaining`, `get_soft_cap_remaining`. */
  function Remaining(spent: real, caps: BudgetCaps): real { caps.hardCapUsd - spent }
  function SoftRemaining(spent: real, caps: BudgetCaps): real { caps.softCapUsd - spent }

  /** `is_near_soft_cap` / `is_near_hard_cap` with their default threshold 0.9. */
  predicate NearSoftCap(spent: real, caps: BudgetCaps) { spent >= caps.softCapUsd * 0.9 }
  predicate NearHardCap(spent: real, caps: BudgetCaps) { spent >= caps.hardCapUsd * 0.9 }

  /** Nearness to the hard cap is exactly the EMERGENCY level. */
  lemma NearHardCapIsEmergency(spent: real, caps: BudgetCaps)
    ensures NearHardCap(spent, caps) <==> AlertLevel(spent, caps) == Emergency
  {
  }

  /** Anything affordable at a positive price leaves room to proceed. */
  lemma AffordableImpliesProceed(spent: real, caps: BudgetCaps, cost: real)
    requires cost > 0.0 && CanAffordAt(spent, caps, cost)
    ensures CanProceedAt(spent, caps)
    ensures Remaining(spent, caps) >= cost
  {
  }

  /** `forecast_completion_cost` */
  function ForecastCompletionCost(spent: real, tasksRemaining: int, avgCostPerTask: real): (r: real)
    ensures tasksRemaining >= 0 && avgCostPerTask >= 0.0 ==> r >= spent
  {
    spent + tasksRemaining as real * avgCostPerTask
  }

  /** `suggest_model_tier`: budget pressure overrides the policy. */
  function SuggestModelTier(spent: real, budget: BudgetModel): (r: string)
    ensures AlertLevel(spent, budget.caps) in {Emergency, ExceededSoft} ==> r == "economy"
    ensures AlertLevel(spent, budget.caps) == Critical ==> r == "standard"
    ensures Severity(AlertLevel(spent, budget.caps)) <= 1 ==>
      r == (match budget.policy
            case Conservative => "economy"
            case Aggressive => "premium"
            case Balanced => "standard")
    ensures r in {"economy", "standard", "premium"}
  {
    var level := AlertLevel(spent, budget.caps);
    if level == Emergency || level == ExceededSoft then "economy"
    else if level == Critical then "standard"
    else if budget.policy == Conservative then "economy"
    else if budget.policy == Aggressive then "premium"
    else "standard"
  }

  /** At or beyond the soft cap the suggestion is the cheapest tier, whatever the policy. */
  lemma OverSoftCapSuggestsEconomy(spent: real, budget: BudgetModel)
    requires spent >= budget.caps.softCapUsd
    ensures SuggestModelTier(spent, budget) == "economy"
  {
  }

  /** One ledger step: the spend is applied unless it would pass the hard cap. */
  function SpendStep(spent: real, hardCap: real, amount: real): real {
    if spent + amount > hardCap then spent else spent + amount
  }

  /** The spent total after a sequence of `record_spend` calls. */
  function SpendAll(spent: real, hardCap: real, amounts: seq<real>): real
    decreases |amounts|
  {
    if amounts == [] then spent else SpendAll(SpendStep(spent, hardCap, amounts[0]), hardCap, amounts[1..])
  }

  /** From a spent total within the hard cap, non-negative spends never pass the cap and
      never lower the total. */
  lemma {:induction false} LedgerStaysUnderHardCap(spent: real, hardCap: real, amounts: seq<real>)
    requires 0.0 <= spent <= hardCap
    requires forall i :: 0 <= i < |amounts| ==> amounts[i] >= 0.0
    ensures spent <= SpendAll(spent, hardCap, amounts) <= hardCap
    decreases |amounts|
  {
    if amounts != [] {
      var next := SpendStep(spent, hardCap, amounts[0]);
      assert spent <= next <= hardCap;
      LedgerStaysUnderHardCap(next, hardCap, amounts[1..]);
    }
  }

  /** The spends pinned for soft cap 80 and hard cap 100: 95 is accepted, then 10 is refused. */
  lemma LedgerRefusesOverCap()
    ensures SpendAll(0.0, 100.0, [10.0, 20.0]) == 30.0
    ensures SpendAll(0.0, 100.0, [95.0, 10.0]) == 95.0
  {
  }

  /** What an alert records; the message text is kept as its parameters. */
  datatype AlertMessage = WouldExceedHardCap(amount: real) | LevelReached(level: BudgetAlert)

  datatype AlertRecord = AlertRecord(level: BudgetAlert, message: AlertMessage, spent: real,
                                     softCap: real, hardCap: real)

  datatype SpendRecord = SpendRecord(amount: real, description: string, totalSpent: real, remaining: real)

  /** `_check_alerts` after a spend: one alert unless the new level is NORMAL. */
  function CheckAlerts(spent: real, caps: BudgetCaps): (r: seq<AlertRecord>)
    ensures r == [] <==> AlertLevel(spent, caps) == Normal
    ensures r != [] ==> |r| == 1 && r[0].level == AlertLevel(spent, caps) && r[0].spent == spent
  {
    var level := AlertLevel(spent, caps);
    if level == Normal then []
    else [AlertRecord(level, LevelReached(level), spent, caps.softCapUsd, caps.hardCapUsd)]
  }

  /** The state `BudgetManager` keeps: the budget model it writes `actual_cost_usd` into,
      the spent total, the spend history and the alert log. */
  datatype Ledger = Ledger(budget: BudgetModel, spent: real, history: seq<SpendRecord>,
                           alerts: seq<AlertRecord>)

  /** `record_spend` on a ledger value: refuses (and logs an EMERGENCY alert) when the spend
      would pass the hard cap; otherwise adds it, mirrors the total into `actual_cost_usd`,
      logs it and logs the alert of the new level, if any. */
  function Spend(l: Ledger, amount: real, description: string): (r: Ledger)
    ensures r.spent == SpendStep(l.spent, l.budget.caps.hardCapUsd, amount)
    ensures r.budget.caps == l.budget.caps && r.budget.policy == l.budget.policy
    ensures l.spent + amount > l.budget.caps.hardCapUsd ==>
      r.budget == l.budget && r.history == l.history &&
      r.alerts == l.alerts + [AlertRecord(Emergency, WouldExceedHardCap(amount), l.spent,
                                          l.budget.caps.softCapUsd, l.budget.caps.hardCapUsd)]
    ensures l.spent + amount <= l.budget.caps.hardCapUsd ==>
      r.budget == l.budget.(actualCostUsd := r.spent) &&
      r.history == l.history + [SpendRecord(amount, description, r.spent, Remaining(r.spent, r.budget.caps))] &&
      r.alerts == l.alerts + CheckAlerts(r.spent, l.budget.caps)
  {
    var caps := l.budget.caps;
    if l.spent + amount > caps.hardCapUsd then
      l.(alerts := l.alerts + [AlertRecord(Emergency, WouldExceedHardCap(amount), l.spent,
                                           caps.softCapUsd, caps.hardCapUsd)])
    else
      var spent := l.spent + amount;
      Ledger(l.budget.(actualCostUsd := spent), spent,
             l.history + [SpendRecord(amount, description, spent, Remaining(spent, caps))],
             l.alerts + CheckAlerts(spent, caps))
  }

  /** Several `record_spend` calls in a row. */
  function SpendEach(l: Ledger, amounts: seq<real>, description: string): Ledger
    decreases |amounts|
  {
    if amounts == [] then l else SpendEach(Spend(l, amounts[0], description), amounts[1..], description)
  }

  /** The spent total of a run of spends is the one `SpendAll` computes, and the caps stay. */
  lemma {:induction false} SpendEachSpent(l: Ledger, amounts: seq<real>, description: string)
    ensures SpendEach(l, amounts, description).spent == SpendAll(l.spent, l.budget.caps.hardCapUsd, amounts)
    ensures SpendEach(l, amounts, description).budget.caps == l.budget.caps
    decreases |amounts|
  {
    if amounts != [] {
      SpendEachSpent(Spend(l, amounts[0], description), amounts[1..], description);
    }
  }

  /** One more spend after a run of spends. */
  lemma {:induction false} SpendEachAppend(l: Ledger, amounts: seq<real>, x: real, description: string)
    ensures SpendEach(l, amounts + [x], description) == Spend(SpendEach(l, amounts, description), x, description)
    decreases |amounts|
  {
    if amounts == [] {
      assert [] + [x] == [x];
    } else {
      assert (amounts + [x])[1..] == amounts[1..] + [x];
      SpendEachAppend(Spend(l, amounts[0], description), amounts[1..], x, description);
    }
  }

  class BudgetManager {
    var budget: BudgetModel
    var spent: real
    var spendHistory: seq<SpendRecord>
    var alerts: seq<AlertRecord>

    constructor (budget: BudgetModel)
      ensures State() == Ledger(budget, 0.0, [], [])
    {
      this.budget := budget;
      spent := 0.0;
      spendHistory := [];
      alerts := [];
    }

    /** The manager's fields as a ledger value. */
    function State(): Ledger
      reads this
    {
      Ledger(budget, spent, spendHistory, alerts)
    }

    function AlertLevelNow(): BudgetAlert
      reads this
    {
      AlertLevel(spent, budget.caps)
    }

    predicate CanProceed()
      reads this
    {
      CanProceedAt(spent, budget.caps)
    }

    /** `record_spend`: true exactly when the spend was applied; the new state is `Spend`'s. */
    method RecordSpend(amount: real, description: string) returns (ok: bool)
      modifies this
      ensures ok <==> old(spent) + amount <= old(budget.caps.hardCapUsd)
      ensures State() == Spend(old(State()), amount, description)
    {
      if spent + amount > budget.caps.hardCapUsd {
        alerts := alerts + [AlertRecord(Emergency, WouldExceedHardCap(amount), spent,
                                        budget.caps.softCapUsd, budget.caps.hardCapUsd)];
        return false;
      }
      spent := spent + amount;
      budget := budget.(actualCostUsd := spent);
      spendHistory := spendHistory + [SpendRecord(amount, description, spent, Remaining(spent, budget.caps))];
      alerts := alerts + CheckAlerts(spent, budget.caps);
      return true;
    }

    /** Sets `spent` and `alerts` directly, as restoring a saved session does; no cap check. */
    method Restore(savedSpent: real, savedAlerts: seq<AlertRecord>)
      modifies this
      ensures State() == old(State()).(spent := savedSpent, alerts := savedAlerts)
    {
      spent := savedSpent;
      alerts := savedAlerts;
    }
  }

  /** `CostEstimator.MODEL_COSTS.get(model, 0.002)`: price per 1k tokens. */
  function ModelCost(model: string): (r: real)
    ensures r > 0.0
  {
    if model == "gpt-4-turbo" then 0.01
    else if model == "gpt-3.5-turbo" then 0.002
    else if model == "gpt-3.5-turbo-instruct" then 0.0015
    else 0.002
  }

  /** `CostEstimator.TOKENS_BY_LEVEL`: average tokens per interaction. */
  function TokensByLevel(level: RoleLevel): (r: nat)
    ensures 500 <= r <= 2000
  {
    match level
    case C_SUITE => 2000
    case VP => 1500
    case DIRECTOR => 1000
    case MANAGER => 800
    case IC => 500
    case EXTERNAL => 600
  }

  /** `estimate_task_cost`: tokens/1000 × price per 1k × interactions. */
  function EstimateTaskCost(level: RoleLevel, model: string, interactions: int): (r: real)
    ensures interactions >= 0 ==> r >= 0.0
    ensures interactions > 0 ==> r > 0.0
  {
    (TokensByLevel(level) as real / 1000.0) * ModelCost(model) * interactions as real
  }

  /** The estimate is linear in the number of interactions. */
  lemma EstimateLinear(level: RoleLevel, model: string, n: int)
    ensures EstimateTaskCost(level, model, n) == EstimateTaskCost(level, model, 1) * n as real
  {
  }

  /** A C-suite interaction on the premium model costs more than an IC's on the default one. */
  lemma CSuiteCostsMoreThanIc()
    ensures EstimateTaskCost(C_SUITE, "gpt-4-turbo", 1) > EstimateTaskCost(IC, "gpt-3.5-turbo", 1)
  {
  }

  /** The CFO's answer to a spending request. */
  datatype SpendDecision = SpendDecision(approved: bool, reason: string, amount: real, purpose: string,
                                         priority: string, remainingBudget: real,
                                         recommendations: seq<string>)

  /** `CFO.evaluate_spend_request`: the approval matrix by affordability, then alert level. */
  function EvaluateSpendRequest(spent: real, caps: BudgetCaps, amount: real, purpose: string,
                                priority: string): (r: SpendDecision)
    ensures !CanAffordAt(spent, caps, amount) ==> !r.approved && r.reason == "Would exceed hard budget cap"
    ensures CanAffordAt(spent, caps, amount) && AlertLevel(spent, caps) == Emergency ==>
      (r.approved <==> priority == "critical")
    ensures CanAffordAt(spent, caps, amount) && AlertLevel(spent, caps) == ExceededSoft ==>
      (r.approved <==> priority in {"critical", "high"})
    ensures CanAffordAt(spent, caps, amount) && AlertLevel(spent, caps) == Critical ==>
      (r.approved <==> priority != "low")
    ensures CanAffordAt(spent, caps, amount) && Severity(AlertLevel(spent, caps)) <= 1 ==> r.approved
    ensures r.approved ==> r.recommendations == []
    ensures !r.approved ==> r.recommendations == Recommendations(AlertLevel(spent, caps))
    ensures r.remainingBudget == Remaining(spent, caps) && r.amount == amount
  {
    var level := AlertLevel(spent, caps);
    var (approved, reason) :=
      if !CanAffordAt(spent, caps, amount) then (false, "Would exceed hard budget cap")
      else if level == Emergency then (priority == "critical", "Emergency budget state - only critical spending allowed")
      else if level == ExceededSoft then (priority in ["critical", "high"], "Soft cap exceeded - high priority only")
      else if level == Critical then (priority != "low", "Near soft cap - reviewing carefully")
      else (true, "Within budget parameters");
    SpendDecision(approved, reason, amount, purpose, priority, Remaining(spent, caps),
                  if !approved then Recommendations(level) else [])
  }

  /** No approved request can take spending past the hard cap. */
  lemma ApprovedIsAffordable(spent: real, caps: BudgetCaps, amount: real, purpose: string, priority: string)
    requires EvaluateSpendRequest(spent, caps, amount, purpose, priority).approved
    ensures spent + amount <= caps.hardCapUsd
    ensures SpendStep(spent, caps.hardCapUsd, amount) == spent + amount
  {
  }

  /** A "critical" request is approved exactly when it is affordable. */
  lemma CriticalApprovedIffAffordable(spent: real, caps: BudgetCaps, amount: real, purpose: string)
    ensures EvaluateSpendRequest(spent, caps, amount, purpose, "critical").approved <==>
            CanAffordAt(spent, caps, amount)
  {
  }

  /** The approval pinned for soft cap 50, hard cap 100 at spent 46: "low" is refused and
      "high" approved; at spent 0 "medium" is approved. */
  lemma ApprovalNearSoftCap()
    ensures EvaluateSpendRequest(0.0, BudgetCaps(100.0, 50.0), 5.0, "New feature", "medium").approved
    ensures !EvaluateSpendRequest(46.0, BudgetCaps(100.0, 50.0), 5.0, "Nice to have", "low").approved
    ensures EvaluateSpendRequest(46.0, BudgetCaps(100.0, 50.0), 5.0, "Critical fix", "high").approved
  {
  }

  /** A JSON-Patch style operation. */
  datatype Patch = Patch(op: string, path: string, value: Json)

  /** `CFO.generate_budget_patch`: switch to the conservative policy at CRITICAL or worse,
      pad the forecast by 20% at WARNING, nothing at NORMAL. */
  function GenerateBudgetPatch(spent: real, caps: BudgetCaps): (r: Option<Patch>)
    ensures r.None? <==> AlertLevel(spent, caps) == Normal
    ensures Severity(AlertLevel(spent, caps)) >= 2 ==>
      r == Some(Patch("replace", "/budget/policy", JStr("conservative")))
    ensures AlertLevel(spent, caps) == Warning ==>
      r == Some(Patch("replace", "/budget/forecast_cost_usd", JNum(spent * 1.2)))
  {
    var level := AlertLevel(spent, caps);
    if level in {Emergency, ExceededSoft, Critical} then Some(Patch("replace", "/budget/policy", JStr("conservative")))
    else if level == Warning then Some(Patch("replace", "/budget/forecast_cost_usd", JNum(spent * 1.2)))
    else None
  }
}
