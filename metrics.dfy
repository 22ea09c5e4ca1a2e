/**
 * The metrics engine: attainment of KPIs and OKRs against the values recorded so far,
 * roll-ups by level, department and manager, health scores and the list of metrics
 * that need attention. Percentages are reals; the cap at 100 is the source's `min`.
 */
module Metrics {
  import opened Wrappers
  import opened Json
  import opened Strs
  import opened OagSchema

  /** The attainment formula shared by KPIs and key results, capped at 100:
      GTE is current over target, LTE target over current, EQ all or nothing. */
  function Attainment(direction: Direction, target: real, current: real): (r: real)
    ensures r <= 100.0
    ensures direction == EQ ==> (r == 100.0 <==> current == target) && (r != 100.0 ==> r == 0.0)
    ensures direction == GTE && target <= 0.0 ==> r == 0.0
    ensures direction == GTE && target > 0.0 && current >= target ==> r == 100.0
    ensures direction == GTE && target > 0.0 && 0.0 <= current < target ==> 0.0 <= r < 100.0
    ensures direction == LTE && current <= 0.0 ==> r == 100.0
    ensures direction == LTE && 0.0 < current <= target ==> r == 100.0
    ensures direction == LTE && 0.0 <= target < current ==> 0.0 <= r < 100.0
  {
    match direction
    case GTE =>
      if target > 0.0 then DivFacts(current, target); Cap(current / target * 100.0) else 0.0
    case LTE =>
      if current > 0.0 then DivFacts(target, current); Cap(target / current * 100.0) else 100.0
    case EQ => if current == target then 100.0 else 0.0
  }

  /** `min(x, 100)`. */
  function Cap(x: real): (r: real)
    ensures r <= 100.0 && r <= x
    ensures x <= 100.0 ==> r == x
  {
    if x < 100.0 then x else 100.0
  }

  lemma DivFacts(a: real, b: real)
    requires b > 0.0
    ensures a >= b ==> a / b * 100.0 >= 100.0
    ensures 0.0 <= a < b ==> 0.0 <= a / b * 100.0 < 100.0
  {
    if a >= b {
      assert a / b >= 1.0;
    } else if 0.0 <= a {
      var q := a / b;
      assert q * b == a;
      if q >= 1.0 {
        assert false;
      }
    }
  }

  /** `values.get(id, default)`: the recorded value wins over the declared `current`. */
  function CurrentValue(values: map<string, real>, id: string, default: real): (r: real)
    ensures id in values ==> r == values[id]
    ensures id !in values ==> r == default
  {
    if id in values then values[id] else default
  }

  /** `calculate_kpi_attainment`. */
  function KpiAttainment(kpiValues: map<string, real>, kpi: Kpi): (r: real)
    ensures r <= 100.0
  {
    Attainment(kpi.direction, kpi.target, CurrentValue(kpiValues, kpi.id, kpi.current))
  }

  /** The attainment of one key result. */
  function KrAttainment(krValues: map<string, real>, kr: KeyResult): (r: real)
    ensures r <= 100.0
  {
    Attainment(kr.direction, kr.target, CurrentValue(krValues, kr.id, kr.current))
  }

  /** The sum of the attainments of `krs`. */
  function KrTotal(krValues: map<string, real>, krs: seq<KeyResult>): real {
    if krs == [] then 0.0 else KrTotal(krValues, krs[..|krs| - 1]) + KrAttainment(krValues, krs[|krs| - 1])
  }

  lemma {:induction false} KrTotalBound(krValues: map<string, real>, krs: seq<KeyResult>)
    ensures KrTotal(krValues, krs) <= 100.0 * |krs| as real
  {
    if krs != [] {
      KrTotalBound(krValues, krs[..|krs| - 1]);
    }
  }

  /** `calculate_okr_attainment`: 0 without key results, otherwise the mean of the capped
      per-key-result attainments, hence at most 100. */
  function OkrAttainment(krValues: map<string, real>, okr: Okr): (r: real)
    ensures okr.keyResults == [] ==> r == 0.0
    ensures r <= 100.0
  {
    if okr.keyResults == [] then 0.0
    else
      KrTotalBound(krValues, okr.keyResults);
      KrTotal(krValues, okr.keyResults) / |okr.keyResults| as real
  }

  /** When every key result is fully attained, so is the OKR. */
  lemma {:induction false} AllKrsMetIsFull(krValues: map<string, real>, krs: seq<KeyResult>)
    requires forall kr :: kr in krs ==> KrAttainment(krValues, kr) == 100.0
    ensures KrTotal(krValues, krs) == 100.0 * |krs| as real
  {
    if krs != [] {
      AllKrsMetIsFull(krValues, krs[..|krs| - 1]);
    }
  }

  lemma OkrFullyAttained(krValues: map<string, real>, okr: Okr)
    requires okr.keyResults != []
    requires forall kr :: kr in okr.keyResults ==> KrAttainment(krValues, kr) == 100.0
    ensures OkrAttainment(krValues, okr) == 100.0
  {
    AllKrsMetIsFull(krValues, okr.keyResults);
  }

  /** The sum of a list of reals. */
  function Sum(xs: seq<real>): real {
    if xs == [] then 0.0 else Sum(xs[..|xs| - 1]) + xs[|xs| - 1]
  }

  /** `sum(xs) / len(xs) if xs else 0`. */
  function Mean(xs: seq<real>): real {
    if xs == [] then 0.0 else Sum(xs) / |xs| as real
  }

  lemma {:induction false} SumBounds(xs: seq<real>, lo: real, hi: real)
    requires forall i :: 0 <= i < |xs| ==> lo <= xs[i] <= hi
    ensures lo * |xs| as real <= Sum(xs) <= hi * |xs| as real
  {
    if xs != [] {
      SumBounds(xs[..|xs| - 1], lo, hi);
    }
  }

  /** A mean lies between any bounds of its elements (0 for the empty list). */
  lemma MeanBounds(xs: seq<real>, lo: real, hi: real)
    requires xs != []
    requires forall i :: 0 <= i < |xs| ==> lo <= xs[i] <= hi
    ensures lo <= Mean(xs) <= hi
  {
    SumBounds(xs, lo, hi);
    var n := |xs| as real;
    assert Sum(xs) / n <= hi by {
      assert Sum(xs) <= hi * n;
    }
    assert lo <= Sum(xs) / n by {
      assert lo * n <= Sum(xs);
    }
  }

  lemma {:induction false} SumAppend(xs: seq<real>, ys: seq<real>)
    ensures Sum(xs + ys) == Sum(xs) + Sum(ys)
    decreases |ys|
  {
    if ys == [] {
      assert xs + ys == xs;
    } else {
      assert (xs + ys)[..|xs + ys| - 1] == xs + ys[..|ys| - 1];
      SumAppend(xs, ys[..|ys| - 1]);
    }
  }

  /** The attainments of a list of OKRs, in order. */
  function OkrAttainments(krValues: map<string, real>, okrs: seq<Okr>): (r: seq<real>)
    ensures |r| == |okrs|
    ensures forall i :: 0 <= i < |okrs| ==> r[i] == OkrAttainment(krValues, okrs[i])
  {
    if okrs == [] then [] else [OkrAttainment(krValues, okrs[0])] + OkrAttainments(krValues, okrs[1..])
  }

  /** The attainments of a list of KPIs, in order. */
  function KpiAttainments(kpiValues: map<string, real>, kpis: seq<Kpi>): (r: seq<real>)
    ensures |r| == |kpis|
    ensures forall i :: 0 <= i < |kpis| ==> r[i] == KpiAttainment(kpiValues, kpis[i])
  {
    if kpis == [] then [] else [KpiAttainment(kpiValues, kpis[0])] + KpiAttainments(kpiValues, kpis[1..])
  }

  /** The agents of the graph in the node map's order (`get_agents().values()`). */
  function AgentsOf(order: seq<string>, nodes: map<string, Node>): (r: seq<AgentSpec>)
    ensures forall a :: a in r ==> exists k :: k in order && k in nodes && nodes[k] == Agent(a)
  {
    if order == [] then []
    else
      var rest := AgentsOf(order[1..], nodes);
      if order[0] in nodes && nodes[order[0]].Agent? then [nodes[order[0]].agent] + rest else rest
  }

  // ---------------------------------------------------------------------------
  // Weighted score and health

  /** Σ score·weight. */
  function WeightedSum(sw: seq<(real, real)>): real {
    if sw == [] then 0.0 else WeightedSum(sw[..|sw| - 1]) + sw[|sw| - 1].0 * sw[|sw| - 1].1
  }

  /** Σ weight. */
  function TotalWeight(sw: seq<(real, real)>): real {
    if sw == [] then 0.0 else TotalWeight(sw[..|sw| - 1]) + sw[|sw| - 1].1
  }

  /** `_calculate_weighted_score`: the weighted mean, 0 when the weights add up to 0 or less. */
  function WeightedScore(sw: seq<(real, real)>): real {
    if TotalWeight(sw) > 0.0 then WeightedSum(sw) / TotalWeight(sw) else 0.0
  }

  /** Scaling by a non-negative factor keeps an order. */
  lemma ScaleMono(a: real, b: real, c: real)
    requires a <= b && c >= 0.0
    ensures a * c <= b * c
  {
    assert b * c - a * c == (b - a) * c;
  }

  /** Scaling by a positive factor keeps a strict order. */
  lemma ScaleStrict(a: real, b: real, c: real)
    requires a < b && c > 0.0
    ensures a * c < b * c
  {
    assert b * c - a * c == (b - a) * c;
  }

  /** A quotient by a positive total lies between the bounds the total scales. */
  lemma QuotientBounds(s: real, w: real, lo: real, hi: real)
    requires w > 0.0 && lo * w <= s <= hi * w
    ensures lo <= s / w <= hi
  {
    var q := s / w;
    assert q * w == s;
    if q > hi {
      ScaleStrict(hi, q, w);
    }
    if q < lo {
      ScaleStrict(q, lo, w);
    }
  }

  /** One more weighted score within the bounds keeps the sum within the scaled bounds. */
  lemma StepBounds(lo: real, hi: real, t: real, sum: real, x: real, w: real)
    requires lo * t <= sum <= hi * t && lo <= x <= hi && w >= 0.0
    ensures lo * (t + w) <= sum + x * w <= hi * (t + w)
  {
    ScaleMono(lo, x, w);
    ScaleMono(x, hi, w);
    assert lo * (t + w) == lo * t + lo * w;
    assert hi * (t + w) == hi * t + hi * w;
  }

  lemma {:induction false} WeightedSumBounds(sw: seq<(real, real)>, lo: real, hi: real)
    requires forall i :: 0 <= i < |sw| ==> lo <= sw[i].0 <= hi && sw[i].1 >= 0.0
    ensures lo * TotalWeight(sw) <= WeightedSum(sw) <= hi * TotalWeight(sw)
  {
    if sw != [] {
      var front, last := sw[..|sw| - 1], sw[|sw| - 1];
      assert forall i :: 0 <= i < |front| ==> front[i] == sw[i];
      WeightedSumBounds(front, lo, hi);
      StepBounds(lo, hi, TotalWeight(front), WeightedSum(front), last.0, last.1);
    }
  }

  /** With non-negative weights, the weighted score lies between any bounds of the scores. */
  lemma WeightedScoreBounds(sw: seq<(real, real)>, lo: real, hi: real)
    requires lo <= 0.0 <= hi
    requires forall i :: 0 <= i < |sw| ==> lo <= sw[i].0 <= hi && sw[i].1 >= 0.0
    ensures lo <= WeightedScore(sw) <= hi
  {
    WeightedSumBounds(sw, lo, hi);
    if TotalWeight(sw) > 0.0 {
      QuotientBounds(WeightedSum(sw), TotalWeight(sw), lo, hi);
    }
  }

  /** `_calculate_weighted_score`, the loop. */
  method CalculateWeightedScore(sw: seq<(real, real)>) returns (r: real)
    ensures r == WeightedScore(sw)
  {
    var totalScore := 0.0;
    var totalWeight := 0.0;
    var i := 0;
    while i < |sw|
      invariant 0 <= i <= |sw|
      invariant totalScore == WeightedSum(sw[..i]) && totalWeight == TotalWeight(sw[..i])
    {
      assert sw[..i + 1][..i] == sw[..i];
      totalScore := totalScore + sw[i].0 * sw[i].1;
      totalWeight := totalWeight + sw[i].1;
      i := i + 1;
    }
    assert sw[..i] == sw;
    r := if totalWeight > 0.0 then totalScore / totalWeight else 0.0;
  }

  /** The budget health: 100 with nothing spent, 0 past the hard cap, 50 past the soft cap,
      and otherwise falling linearly from 100 to 50 as the spend reaches the soft cap. */
  function BudgetHealth(b: BudgetModel): (r: real)
    ensures b.actualCostUsd <= 0.0 ==> r == 100.0
    ensures b.actualCostUsd > 0.0 && b.actualCostUsd > b.caps.hardCapUsd ==> r == 0.0
    ensures 0.0 < b.actualCostUsd <= b.caps.hardCapUsd && b.actualCostUsd > b.caps.softCapUsd ==> r == 50.0
    ensures 0.0 < b.actualCostUsd <= b.caps.softCapUsd && b.actualCostUsd <= b.caps.hardCapUsd ==> 50.0 <= r < 100.0
  {
    var actual := b.actualCostUsd;
    if actual <= 0.0 then 100.0
    else if actual > b.caps.hardCapUsd then 0.0
    else if actual > b.caps.softCapUsd then 50.0
    else
      assert actual / b.caps.softCapUsd <= 1.0;
      100.0 - actual / b.caps.softCapUsd * 50.0
  }

  /** The ids of the tasks with status DONE. */
  function DoneTasks(tasks: map<string, TaskSpec>): (r: set<string>)
    ensures r <= tasks.Keys
    ensures forall k :: k in r <==> k in tasks && tasks[k].status == Done
  {
    set k | k in tasks && tasks[k].status == Done
  }

  /** The task health: the percentage of tasks that are DONE, 0 without tasks. */
  function TaskCompletion(tasks: map<string, TaskSpec>): (r: real)
    ensures tasks == map[] ==> r == 0.0
    ensures 0.0 <= r <= 100.0
    ensures tasks != map[] ==> (r == 100.0 <==> forall k :: k in tasks ==> tasks[k].status == Done)
  {
    if tasks == map[] then 0.0
    else
      var done := DoneTasks(tasks);
      SubsetCard(done, tasks.Keys);
      assert |tasks.Keys| > 0 by { var k :| k in tasks; }
      (|done| as real) / (|tasks| as real) * 100.0
  }

  /** A subset is no larger, and equal in size only when equal. */
  lemma SubsetCard(a: set<string>, b: set<string>)
    requires a <= b
    ensures |a| <= |b|
    ensures |a| == |b| <==> a == b
  {
    SubsetCardLe(a, b);
    if a != b {
      var x :| x in b && x !in a;
      SubsetCardLe(a, b - {x});
    }
  }

  lemma {:induction false} SubsetCardLe(a: set<string>, b: set<string>)
    requires a <= b
    ensures |a| <= |b|
    decreases a
  {
    if a != {} {
      var x :| x in a;
      SubsetCardLe(a - {x}, b - {x});
    }
  }

  datatype Health = Health(overall: real, okrHealth: real, kpiHealth: real, taskHealth: real, budgetHealth: real)

  /** The scores and weights of the overall health. */
  function HealthWeights(okr: real, kpi: real, task: real, budget: real): seq<(real, real)> {
    [(okr, 0.3), (kpi, 0.3), (task, 0.2), (budget, 0.2)]
  }

  /** `calculate_health_score` over the collected attainments. */
  function HealthOf(okrs: seq<real>, kpis: seq<real>, tasks: map<string, TaskSpec>, budget: BudgetModel): (h: Health)
    ensures h.taskHealth == TaskCompletion(tasks) && h.budgetHealth == BudgetHealth(budget)
    ensures h.okrHealth == Mean(okrs) && h.kpiHealth == Mean(kpis)
  {
    var o, k := Mean(okrs), Mean(kpis);
    Health(WeightedScore(HealthWeights(o, k, TaskCompletion(tasks), BudgetHealth(budget))),
           o, k, TaskCompletion(tasks), BudgetHealth(budget))
  }

  /** The weights add up to 1, so the overall score is the plain weighted sum. */
  lemma OverallIsWeightedSum(okrs: seq<real>, kpis: seq<real>, tasks: map<string, TaskSpec>, budget: BudgetModel)
    ensures var h := HealthOf(okrs, kpis, tasks, budget);
      h.overall == 0.3 * h.okrHealth + 0.3 * h.kpiHealth + 0.2 * h.taskHealth + 0.2 * h.budgetHealth
  {
    var h := HealthOf(okrs, kpis, tasks, budget);
    FourWeights((h.okrHealth, 0.3), (h.kpiHealth, 0.3), (h.taskHealth, 0.2), (h.budgetHealth, 0.2));
  }

  lemma FourWeights(a: (real, real), b: (real, real), c: (real, real), d: (real, real))
    ensures TotalWeight([a, b, c, d]) == a.1 + b.1 + c.1 + d.1
    ensures WeightedSum([a, b, c, d]) == a.0 * a.1 + b.0 * b.1 + c.0 * c.1 + d.0 * d.1
  {
    assert [a][..0] == [];
    assert TotalWeight([a]) == a.1 && WeightedSum([a]) == a.0 * a.1;
    assert [a, b][..1] == [a];
    assert TotalWeight([a, b]) == a.1 + b.1 && WeightedSum([a, b]) == a.0 * a.1 + b.0 * b.1;
    assert [a, b, c][..2] == [a, b];
    assert TotalWeight([a, b, c]) == a.1 + b.1 + c.1;
    assert WeightedSum([a, b, c]) == a.0 * a.1 + b.0 * b.1 + c.0 * c.1;
    assert [a, b, c, d][..3] == [a, b, c];
  }

  /** With attainments in [0, 100] and a spend within the caps, every health score is in [0, 100]. */
  lemma HealthInRange(okrs: seq<real>, kpis: seq<real>, tasks: map<string, TaskSpec>, budget: BudgetModel)
    requires forall i :: 0 <= i < |okrs| ==> 0.0 <= okrs[i] <= 100.0
    requires forall i :: 0 <= i < |kpis| ==> 0.0 <= kpis[i] <= 100.0
    ensures var h := HealthOf(okrs, kpis, tasks, budget);
      0.0 <= h.okrHealth <= 100.0 && 0.0 <= h.kpiHealth <= 100.0 && 0.0 <= h.budgetHealth <= 100.0 &&
      0.0 <= h.overall <= 100.0
  {
    if okrs != [] { MeanBounds(okrs, 0.0, 100.0); }
    if kpis != [] { MeanBounds(kpis, 0.0, 100.0); }
    var h := HealthOf(okrs, kpis, tasks, budget);
    var sw := HealthWeights(h.okrHealth, h.kpiHealth, h.taskHealth, h.budgetHealth);
    assert 0.0 <= h.budgetHealth <= 100.0 by {
      var a := budget.actualCostUsd;
      if 0.0 < a <= budget.caps.softCapUsd && a <= budget.caps.hardCapUsd {
        assert a / budget.caps.softCapUsd >= 0.0;
      }
    }
    WeightedScoreBounds(sw, 0.0, 100.0);
  }

  // ---------------------------------------------------------------------------
  // Critical metrics

  datatype Critical =
    | CriticalKpi(id: string, metric: string, current: real, target: real, attainment: real, owner: string)
    | CriticalOkr(id: string, objective: string, attainment: real, owner: string)

  /** The entries one agent contributes: its KPIs under 50, then its OKRs under 50. */
  function AgentCritical(kpiValues: map<string, real>, krValues: map<string, real>, agent: AgentSpec): seq<Critical> {
    CriticalKpis(kpiValues, agent.kpis, agent.role) + CriticalOkrs(krValues, agent.okrs, agent.role)
  }

  function CriticalKpis(kpiValues: map<string, real>, kpis: seq<Kpi>, owner: string): (r: seq<Critical>)
    ensures forall c :: c in r ==> c.CriticalKpi? && c.attainment < 50.0 && c.owner == owner
    ensures forall kpi :: kpi in kpis && KpiAttainment(kpiValues, kpi) < 50.0 ==>
      CriticalKpi(kpi.id, kpi.metric, CurrentValue(kpiValues, kpi.id, kpi.current), kpi.target,
                  KpiAttainment(kpiValues, kpi), owner) in r
  {
    if kpis == [] then []
    else
      var kpi := kpis[0];
      var a := KpiAttainment(kpiValues, kpi);
      var rest := CriticalKpis(kpiValues, kpis[1..], owner);
      if a < 50.0 then [CriticalKpi(kpi.id, kpi.metric, CurrentValue(kpiValues, kpi.id, kpi.current), kpi.target, a, owner)] + rest
      else rest
  }

  function CriticalOkrs(krValues: map<string, real>, okrs: seq<Okr>, owner: string): (r: seq<Critical>)
    ensures forall c :: c in r ==> c.CriticalOkr? && c.attainment < 50.0 && c.owner == owner
    ensures forall okr :: okr in okrs && OkrAttainment(krValues, okr) < 50.0 ==>
      CriticalOkr(okr.objective.id, okr.objective.title, OkrAttainment(krValues, okr), owner) in r
  {
    if okrs == [] then []
    else
      var okr := okrs[0];
      var a := OkrAttainment(krValues, okr);
      var rest := CriticalOkrs(krValues, okrs[1..], owner);
      if a < 50.0 then [CriticalOkr(okr.objective.id, okr.objective.title, a, owner)] + rest else rest
  }

  /** Every entry `get_critical_metrics` lists is under 50, and every KPI and OKR under 50 of
      every agent is listed. */
  lemma {:induction false} CriticalExactly(kpiValues: map<string, real>, krValues: map<string, real>,
                                           agents: seq<AgentSpec>, out: seq<Critical>)
    requires out == Flatten(kpiValues, krValues, agents)
    ensures forall c :: c in out ==> c.attainment < 50.0
    ensures forall agent, kpi :: agent in agents && kpi in agent.kpis && KpiAttainment(kpiValues, kpi) < 50.0 ==>
      CriticalKpi(kpi.id, kpi.metric, CurrentValue(kpiValues, kpi.id, kpi.current), kpi.target,
                  KpiAttainment(kpiValues, kpi), agent.role) in out
    ensures forall agent, okr :: agent in agents && okr in agent.okrs && OkrAttainment(krValues, okr) < 50.0 ==>
      CriticalOkr(okr.objective.id, okr.objective.title, OkrAttainment(krValues, okr), agent.role) in out
    decreases |agents|
  {
    if agents != [] {
      var front := agents[..|agents| - 1];
      var last := agents[|agents| - 1];
      CriticalExactly(kpiValues, krValues, front, Flatten(kpiValues, krValues, front));
      assert forall a :: a in agents ==> a in front || a == last;
    }
  }

  /** The entries of all agents, in agent order. */
  function Flatten(kpiValues: map<string, real>, krValues: map<string, real>, agents: seq<AgentSpec>): seq<Critical> {
    if agents == [] then []
    else Flatten(kpiValues, krValues, agents[..|agents| - 1]) + AgentCritical(kpiValues, krValues, agents[|agents| - 1])
  }

  // ---------------------------------------------------------------------------
  // Roll-ups

  /** The attainments collected under one roll-up key. */
  datatype Bucket = Bucket(okrs: seq<real>, kpis: seq<real>)

  /** One roll-up entry: the two means and the number of attainments behind each. */
  datatype Rollup = Rollup(okrAttainment: real, kpiAttainment: real, okrCount: nat, kpiCount: nat)

  datatype Rollups = Rollups(byLevel: map<string, Rollup>, byDepartment: map<string, Rollup>,
                             byManager: map<string, Rollup>)

  /** Extends the bucket under `key` (a `defaultdict`): the key appears only when something
      is added to it. */
  function AddToBucket(m: map<string, Bucket>, key: string, okrs: seq<real>, kpis: seq<real>): (r: map<string, Bucket>)
    ensures okrs == [] && kpis == [] ==> r == m
    ensures forall k :: k != key ==> (k in r <==> k in m) && (k in m ==> r[k] == m[k])
    ensures okrs != [] || kpis != [] ==>
      var old_ := if key in m then m[key] else Bucket([], []);
      key in r && r[key] == Bucket(old_.okrs + okrs, old_.kpis + kpis)
  {
    if okrs == [] && kpis == [] then m
    else
      var b := if key in m then m[key] else Bucket([], []);
      m[key := Bucket(b.okrs + okrs, b.kpis + kpis)]
  }

  /** The averaging pass of `calculate_rollups`. */
  function Averages(m: map<string, Bucket>): (r: map<string, Rollup>)
    ensures r.Keys == m.Keys
    ensures forall k :: k in r ==> r[k].okrCount == |m[k].okrs| && r[k].kpiCount == |m[k].kpis|
    ensures forall k :: k in r ==> r[k].okrAttainment == Mean(m[k].okrs) && r[k].kpiAttainment == Mean(m[k].kpis)
  {
    map k | k in m :: Rollup(Mean(m[k].okrs), Mean(m[k].kpis), |m[k].okrs|, |m[k].kpis|)
  }

  /** The department key: the first word of a role holding a space, the role otherwise.
      `None` when the role holds a space but no word (`split()[0]` raises IndexError). */
  function Department(role: string): (r: Option<string>)
    ensures ' ' !in role ==> r == Some(role)
  {
    if ' ' in role then FirstWord(role) else Some(role)
  }

  /** Python truthiness of `agent.manager_id`. */
  predicate HasManager(agent: AgentSpec) {
    agent.managerId.Some? && agent.managerId.value != ""
  }

  /** The buckets after a list of agents, by level, department and manager. */
  datatype Buckets = Buckets(byLevel: map<string, Bucket>, byDepartment: map<string, Bucket>,
                             byManager: map<string, Bucket>)

  function AddAgent(b: Buckets, dept: string, okrs: seq<real>, kpis: seq<real>, agent: AgentSpec): Buckets {
    Buckets(AddToBucket(b.byLevel, LevelName(agent.level), okrs, kpis),
            AddToBucket(b.byDepartment, dept, okrs, kpis),
            if HasManager(agent) then AddToBucket(b.byManager, agent.managerId.value, okrs, kpis) else b.byManager)
  }

  /** The number of OKR attainments the agents of `agents` put under level `key`. */
  function LevelOkrCount(agents: seq<AgentSpec>, key: string): nat {
    if agents == [] then 0
    else
      var last := agents[|agents| - 1];
      LevelOkrCount(agents[..|agents| - 1], key) + (if LevelName(last.level) == key then |last.okrs| else 0)
  }

  /** The buckets of `calculate_rollups` as a fold over the agents; `None` when some
      department key cannot be computed. */
  function BucketsOf(kpiValues: map<string, real>, krValues: map<string, real>, agents: seq<AgentSpec>): Option<Buckets> {
    if agents == [] then Some(Buckets(map[], map[], map[]))
    else
      var front := BucketsOf(kpiValues, krValues, agents[..|agents| - 1]);
      var agent := agents[|agents| - 1];
      var dept := Department(agent.role);
      if front.None? || dept.None? then None
      else Some(AddAgent(front.value, dept.value, OkrAttainments(krValues, agent.okrs), KpiAttainments(kpiValues, agent.kpis), agent))
  }

  /** The level buckets count exactly the OKRs of the agents at that level. */
  lemma {:induction false} LevelCountsAgents(kpiValues: map<string, real>, krValues: map<string, real>,
                                             agents: seq<AgentSpec>, key: string)
    requires BucketsOf(kpiValues, krValues, agents).Some?
    ensures var m := BucketsOf(kpiValues, krValues, agents).value.byLevel;
      (if key in m then |m[key].okrs| else 0) == LevelOkrCount(agents, key)
  {
    if agents != [] {
      LevelCountsAgents(kpiValues, krValues, agents[..|agents| - 1], key);
    }
  }

  /** Every bucket of every roll-up holds attainments of at most 100, so its means are too. */
  lemma {:induction false} BucketsCapped(kpiValues: map<string, real>, krValues: map<string, real>, agents: seq<AgentSpec>)
    requires BucketsOf(kpiValues, krValues, agents).Some?
    ensures var b := BucketsOf(kpiValues, krValues, agents).value;
      Capped(b.byLevel) && Capped(b.byDepartment) && Capped(b.byManager)
  {
    if agents != [] {
      BucketsCapped(kpiValues, krValues, agents[..|agents| - 1]);
      var agent := agents[|agents| - 1];
      var front := BucketsOf(kpiValues, krValues, agents[..|agents| - 1]).value;
      var o, k := OkrAttainments(krValues, agent.okrs), KpiAttainments(kpiValues, agent.kpis);
      CappedAdd(front.byLevel, LevelName(agent.level), o, k);
      CappedAdd(front.byDepartment, Department(agent.role).value, o, k);
      if HasManager(agent) {
        CappedAdd(front.byManager, agent.managerId.value, o, k);
      }
    }
  }

  ghost predicate Capped(m: map<string, Bucket>) {
    forall k :: k in m ==> (forall x :: x in m[k].okrs ==> x <= 100.0) && (forall x :: x in m[k].kpis ==> x <= 100.0)
  }

  lemma CappedAdd(m: map<string, Bucket>, key: string, okrs: seq<real>, kpis: seq<real>)
    requires Capped(m)
    requires forall x :: x in okrs ==> x <= 100.0
    requires forall x :: x in kpis ==> x <= 100.0
    ensures Capped(AddToBucket(m, key, okrs, kpis))
  {
  }

  lemma {:induction false} SumAtMost(xs: seq<real>, hi: real)
    requires forall x :: x in xs ==> x <= hi
    ensures Sum(xs) <= hi * |xs| as real
  {
    if xs != [] {
      var front := xs[..|xs| - 1];
      assert forall x :: x in front ==> x in xs;
      SumAtMost(front, hi);
      assert xs[|xs| - 1] in xs;
      assert hi * |front| as real + hi == hi * |xs| as real;
    }
  }

  /** A capped bucket has capped means. */
  lemma RollupCapped(m: map<string, Bucket>, k: string)
    requires Capped(m) && k in m
    ensures Averages(m)[k].okrAttainment <= 100.0 && Averages(m)[k].kpiAttainment <= 100.0
  {
    SumAtMost(m[k].okrs, 100.0);
    SumAtMost(m[k].kpis, 100.0);
  }

  // ---------------------------------------------------------------------------
  // The engine

  /** What a task produced: its output dictionary and, when it has a "metrics" entry,
      that entry's (name, value) pairs in order. */
  datatype TaskOutput = TaskOutput(fields: Dict, metrics: Option<seq<(string, real)>>)

  /** The ids of the KPIs of `agents` whose metric contains `name`, case-insensitively. */
  function MatchingKpis(agents: seq<AgentSpec>, name: string): (r: set<string>)
    ensures forall id :: id in r <==>
      (exists a, kpi :: a in agents && kpi in a.kpis && kpi.id == id && ContainsIgnoreCase(kpi.metric, name))
  {
    set a, kpi | a in agents && kpi in a.kpis && ContainsIgnoreCase(kpi.metric, name) :: kpi.id
  }

  /** The ids of the key results of `agents` whose metric contains `name`, case-insensitively. */
  function MatchingKrs(agents: seq<AgentSpec>, name: string): (r: set<string>)
    ensures forall id :: id in r <==>
      (exists a, okr, kr :: a in agents && okr in a.okrs && kr in okr.keyResults &&
         kr.id == id && ContainsIgnoreCase(kr.metric, name))
  {
    set a, okr, kr | a in agents && okr in a.okrs && kr in okr.keyResults && ContainsIgnoreCase(kr.metric, name) :: kr.id
  }

  /** `values` with every id of `ids` set to `v`. */
  function Assign(values: map<string, real>, ids: set<string>, v: real): (r: map<string, real>)
    ensures forall k :: k in r <==> k in values || k in ids
    ensures forall k :: k in ids ==> r[k] == v
    ensures forall k :: k in values && k !in ids ==> r[k] == values[k]
  {
    values + map k | k in ids :: v
  }

  class MetricsEngine {
    const oag: Oag
    var kpiValues: map<string, real>
    var krValues: map<string, real>
    var taskMetrics: map<string, TaskOutput>

    constructor (oag: Oag)
      ensures this.oag == oag && kpiValues == map[] && krValues == map[] && taskMetrics == map[]
    {
      this.oag := oag;
      kpiValues := map[];
      krValues := map[];
      taskMetrics := map[];
    }

    /** The agents of the graph, in the node map's order. */
    function Agents(): seq<AgentSpec>
      reads oag
    {
      AgentsOf(oag.order, oag.nodes)
    }

    /** `update_kpi`: records a value for that KPI only. */
    method UpdateKpi(kpiId: string, value: real)
      modifies this
      ensures kpiValues == old(kpiValues)[kpiId := value]
      ensures krValues == old(krValues) && taskMetrics == old(taskMetrics)
    {
      kpiValues := kpiValues[kpiId := value];
    }

    /** `update_key_result`: records a value for that key result only. */
    method UpdateKeyResult(krId: string, value: real)
      modifies this
      ensures krValues == old(krValues)[krId := value]
      ensures kpiValues == old(kpiValues) && taskMetrics == old(taskMetrics)
    {
      krValues := krValues[krId := value];
    }

    /** `update_from_task`: stores the output; each metric it reports, in order, overwrites
        every KPI and key result whose metric name contains it, case-insensitively. */
    method UpdateFromTask(taskId: string, output: TaskOutput)
      modifies this
      ensures taskMetrics == old(taskMetrics)[taskId := output]
      ensures output.metrics.None? ==> kpiValues == old(kpiValues) && krValues == old(krValues)
      ensures output.metrics.Some? ==>
        kpiValues == ApplyAll(old(kpiValues), Agents(), output.metrics.value, true) &&
        krValues == ApplyAll(old(krValues), Agents(), output.metrics.value, false)
    {
      taskMetrics := taskMetrics[taskId := output];
      if output.metrics.Some? {
        var items := output.metrics.value;
        var agents := Agents();
        var i := 0;
        while i < |items|
          invariant 0 <= i <= |items|
          invariant taskMetrics == old(taskMetrics)[taskId := output]
          invariant kpiValues == ApplyAll(old(kpiValues), agents, items[..i], true)
          invariant krValues == ApplyAll(old(krValues), agents, items[..i], false)
        {
          var (name, value) := items[i];
          ApplyStep(old(kpiValues), agents, items, i, true);
          ApplyStep(old(krValues), agents, items, i, false);
          kpiValues := Assign(kpiValues, MatchingKpis(agents, name), value);
          krValues := Assign(krValues, MatchingKrs(agents, name), value);
          i := i + 1;
        }
        assert items[..i] == items;
      }
    }

    /** `calculate_okr_attainment`, the loop. */
    method CalculateOkrAttainment(okr: Okr) returns (r: real)
      ensures r == OkrAttainment(krValues, okr)
    {
      if okr.keyResults == [] {
        return 0.0;
      }
      var krs := okr.keyResults;
      var total := 0.0;
      var i := 0;
      while i < |krs|
        invariant 0 <= i <= |krs|
        invariant total == KrTotal(krValues, krs[..i])
      {
        assert krs[..i + 1][..i] == krs[..i];
        total := total + KrAttainment(krValues, krs[i]);
        i := i + 1;
      }
      assert krs[..i] == krs;
      r := total / |krs| as real;
    }

    /** `calculate_health_score`: the attainments of every OKR and KPI of every agent, the
        task completion and the budget health, weighted 0.3/0.3/0.2/0.2. */
    method CalculateHealthScore() returns (h: Health)
      ensures h == HealthOf(AllOkrAttainments(krValues, Agents()), AllKpiAttainments(kpiValues, Agents()),
                            GetTasks(oag.nodes), oag.budget)
    {
      var agents := Agents();
      var okrs: seq<real> := [];
      var kpis: seq<real> := [];
      var i := 0;
      while i < |agents|
        invariant 0 <= i <= |agents|
        invariant okrs == AllOkrAttainments(krValues, agents[..i])
        invariant kpis == AllKpiAttainments(kpiValues, agents[..i])
      {
        assert agents[..i + 1][..i] == agents[..i];
        okrs := okrs + OkrAttainments(krValues, agents[i].okrs);
        kpis := kpis + KpiAttainments(kpiValues, agents[i].kpis);
        i := i + 1;
      }
      assert agents[..i] == agents;
      var task := TaskCompletion(GetTasks(oag.nodes));
      var budget := BudgetHealth(oag.budget);
      var okrHealth := Mean(okrs);
      var kpiHealth := Mean(kpis);
      var overall := CalculateWeightedScore(HealthWeights(okrHealth, kpiHealth, task, budget));
      h := Health(overall, okrHealth, kpiHealth, task, budget);
    }

    /** `get_critical_metrics`. */
    method GetCriticalMetrics() returns (critical: seq<Critical>)
      ensures critical == Flatten(kpiValues, krValues, Agents())
      ensures forall c :: c in critical ==> c.attainment < 50.0
    {
      var agents := Agents();
      critical := [];
      var i := 0;
      while i < |agents|
        invariant 0 <= i <= |agents|
        invariant critical == Flatten(kpiValues, krValues, agents[..i])
      {
        assert agents[..i + 1][..i] == agents[..i];
        critical := critical + AgentCritical(kpiValues, krValues, agents[i]);
        i := i + 1;
      }
      assert agents[..i] == agents;
      CriticalExactly(kpiValues, krValues, agents, critical);
    }

    /** `calculate_rollups`: an error when some agent's department key cannot be computed. */
    method CalculateRollups() returns (r: Result<Rollups, string>)
      ensures BucketsOf(kpiValues, krValues, Agents()).None? <==> r.Err?
      ensures r.Ok? ==>
        var b := BucketsOf(kpiValues, krValues, Agents()).value;
        r.value == Rollups(Averages(b.byLevel), Averages(b.byDepartment), Averages(b.byManager))
    {
      var agents := Agents();
      var b := Buckets(map[], map[], map[]);
      var i := 0;
      while i < |agents|
        invariant 0 <= i <= |agents|
        invariant BucketsOf(kpiValues, krValues, agents[..i]) == Some(b)
      {
        var agent := agents[i];
        var okrs := OkrAttainments(krValues, agent.okrs);
        var kpis := KpiAttainments(kpiValues, agent.kpis);
        var dept := Department(agent.role);
        BucketsStep(kpiValues, krValues, agents, i);
        if dept.None? {
          NoneStaysNone(kpiValues, krValues, agents, i + 1);
          return Err("IndexError: list index out of range");
        }
        b := AddAgent(b, dept.value, okrs, kpis, agent);
        i := i + 1;
      }
      assert agents[..i] == agents;
      r := Ok(Rollups(Averages(b.byLevel), Averages(b.byDepartment), Averages(b.byManager)));
    }
  }

  /** The OKR attainments of all agents, agent by agent. */
  function AllOkrAttainments(krValues: map<string, real>, agents: seq<AgentSpec>): seq<real> {
    if agents == [] then []
    else AllOkrAttainments(krValues, agents[..|agents| - 1]) + OkrAttainments(krValues, agents[|agents| - 1].okrs)
  }

  /** The KPI attainments of all agents, agent by agent. */
  function AllKpiAttainments(kpiValues: map<string, real>, agents: seq<AgentSpec>): seq<real> {
    if agents == [] then []
    else AllKpiAttainments(kpiValues, agents[..|agents| - 1]) + KpiAttainments(kpiValues, agents[|agents| - 1].kpis)
  }

  /** The value maps after the metrics `items`, in order; `kpis` chooses KPIs or key results. */
  function ApplyAll(values: map<string, real>, agents: seq<AgentSpec>, items: seq<(string, real)>, kpis: bool): map<string, real> {
    if items == [] then values
    else
      var (name, v) := items[|items| - 1];
      var front := ApplyAll(values, agents, items[..|items| - 1], kpis);
      Assign(front, if kpis then MatchingKpis(agents, name) else MatchingKrs(agents, name), v)
  }

  /** One more reported metric: its assignment on top of the earlier ones. */
  lemma ApplyStep(values: map<string, real>, agents: seq<AgentSpec>, items: seq<(string, real)>, i: nat, kpis: bool)
    requires i < |items|
    ensures ApplyAll(values, agents, items[..i + 1], kpis) ==
      Assign(ApplyAll(values, agents, items[..i], kpis),
             if kpis then MatchingKpis(agents, items[i].0) else MatchingKrs(agents, items[i].0), items[i].1)
  {
    assert items[..i + 1][..i] == items[..i];
  }

  /** One more agent: the buckets of the longer prefix. */
  lemma BucketsStep(kpiValues: map<string, real>, krValues: map<string, real>, agents: seq<AgentSpec>, i: nat)
    requires i < |agents|
    ensures var front := BucketsOf(kpiValues, krValues, agents[..i]);
      var dept := Department(agents[i].role);
      BucketsOf(kpiValues, krValues, agents[..i + 1]) ==
        if front.None? || dept.None? then None
        else Some(AddAgent(front.value, dept.value, OkrAttainments(krValues, agents[i].okrs),
                           KpiAttainments(kpiValues, agents[i].kpis), agents[i]))
  {
    assert agents[..i + 1][..i] == agents[..i];
  }

  /** Once the buckets fail on a prefix, they fail on the whole list. */
  lemma {:induction false} NoneStaysNone(kpiValues: map<string, real>, krValues: map<string, real>,
                                         agents: seq<AgentSpec>, n: nat)
    requires n <= |agents| && BucketsOf(kpiValues, krValues, agents[..n]).None?
    ensures BucketsOf(kpiValues, krValues, agents).None?
    decreases |agents| - n
  {
    if n < |agents| {
      assert agents[..n + 1][..n] == agents[..n];
      NoneStaysNone(kpiValues, krValues, agents, n + 1);
    } else {
      assert agents[..n] == agents;
    }
  }
}
