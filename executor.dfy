/**
 * The executor: runs the tasks of an OAG in dependency order behind a budget gate
 * and records one result per task. The backend call is abstract: a task either
 * succeeds at its estimated cost or raises an error, as `failures` says. An
 * `asyncio.gather` round is modelled sequentially: every task of the round meets the
 * budget gate before any of them records a spend, so the gate value is the one read
 * at the start of the round.
 */
module Execution {
  import opened Wrappers
  import opened Json
  import opened OagSchema
  import opened Budget
  import opened TaskGraph
  import opened Seqs

  /** `ExecutionResult`; its duration, a clock reading, is left out. */
  datatype ExecResult = ExecResult(taskId: string, status: TaskStatus, output: Option<Json>,
                                   error: Option<string>, cost: real)

  /** What the backend does with each task: the ids whose call raises, with the error text. */
  type Failures = map<string, string>

  const SampleArtifacts: Dict := map["data" := JStr("sample")]

  /** The output of the mock backend for a task. */
  function MockOutput(spec: TaskSpec): Json {
    JObj(map["result" := JStr("Completed " + spec.description), "artifacts" := JObj(SampleArtifacts)])
  }

  /** The result of a task turned away by the budget gate. */
  function BudgetExceeded(taskId: string): ExecResult {
    ExecResult(taskId, Failed, None, Some("Budget exceeded"), 0.0)
  }

  /** The result of a task skipped in sequential mode. */
  function NotSatisfied(taskId: string): ExecResult {
    ExecResult(taskId, Skipped, None, Some("Dependencies not satisfied"), 0.0)
  }

  /** The result of a task that passed the budget gate: DONE at its estimated cost unless
      the backend raised, FAILED at no cost otherwise. */
  function RunResult(spec: TaskSpec, failures: Failures): (r: ExecResult)
    ensures r.taskId == spec.id
    ensures r.status == Done <==> spec.id !in failures
    ensures r.status != Done ==> r.status == Failed && r.cost == 0.0 && r.error == Some(failures[spec.id])
    ensures r.status == Done ==> r.cost == spec.cost.estCostUsd && r.output == Some(MockOutput(spec))
  {
    if spec.id in failures then ExecResult(spec.id, Failed, None, Some(failures[spec.id]), 0.0)
    else ExecResult(spec.id, Done, Some(MockOutput(spec)), None, spec.cost.estCostUsd)
  }

  /** The task spec once the run is over: DONE with the sample artifacts and its actual cost
      set to the estimate, or FAILED with nothing else touched. */
  function SpecAfterRun(spec: TaskSpec, failures: Failures): (r: TaskSpec)
    ensures r.id == spec.id && r.agentId == spec.agentId && r.dependencies == spec.dependencies
    ensures r.status == if spec.id in failures then Failed else Done
    ensures spec.id in failures ==> r == spec.(status := Failed)
    ensures spec.id !in failures ==> r.cost.actualCostUsd == spec.cost.estCostUsd && r.artifacts == SampleArtifacts
  {
    if spec.id in failures then spec.(status := Failed)
    else spec.(status := Done, artifacts := SampleArtifacts,
               cost := spec.cost.(actualCostUsd := spec.cost.estCostUsd))
  }

  /** The spends a run records: the estimate on success, none when the backend raised. */
  function RunCost(spec: TaskSpec, failures: Failures): (r: seq<real>)
    ensures |r| <= 1
    ensures r == [] <==> spec.id in failures
  {
    if spec.id in failures then [] else [spec.cost.estCostUsd]
  }

  /** `_dependencies_satisfied`: a task outside the graph is always ready; a task in it is
      ready when every predecessor has a DONE result. */
  predicate DependenciesSatisfied(g: DiGraph<string>, results: map<string, ExecResult>, t: string) {
    t !in g.nodes || forall p :: p in Preds(g, t) ==> p in results && results[p].status == Done
  }

  /** Results only ever added keep a satisfied task satisfied. */
  lemma DependenciesStaySatisfied(g: DiGraph<string>, r1: map<string, ExecResult>,
                                  r2: map<string, ExecResult>, t: string)
    requires forall k :: k in r1 ==> k in r2 && r2[k] == r1[k]
    requires DependenciesSatisfied(g, r1, t)
    ensures DependenciesSatisfied(g, r2, t)
  {
  }

  /** What `_execute_task` stores for a task whose budget gate answered `proceed`. */
  function Outcome(taskId: string, spec: TaskSpec, proceed: bool, failures: Failures): (r: ExecResult)
    ensures !proceed ==> r == BudgetExceeded(taskId)
    ensures proceed ==> r == RunResult(spec, failures)
  {
    if proceed then RunResult(spec, failures) else BudgetExceeded(taskId)
  }

  /** The node map after the turn of task `taskId`: its spec is updated only when it ran. */
  function NodesAfter(nodes: map<string, Node>, taskId: string, proceed: bool, failures: Failures): (r: map<string, Node>)
    requires taskId in nodes && nodes[taskId].Task?
    ensures SameKinds(nodes, r)
  {
    if proceed then nodes[taskId := Task(SpecAfterRun(nodes[taskId].task, failures))] else nodes
  }

  /** The ledger after the turn of a task: its run's spend, if it ran. */
  function LedgerAfter(l: Ledger, spec: TaskSpec, proceed: bool, failures: Failures): (r: Ledger)
    ensures !proceed ==> r == l
  {
    if proceed then SpendEach(l, RunCost(spec, failures), "") else l
  }

  /** The results a gathered round adds. */
  function RoundResults(ready: seq<string>, nodes: map<string, Node>, proceed: bool,
                        failures: Failures): (r: map<string, ExecResult>)
    requires forall t :: t in ready ==> t in nodes && nodes[t].Task?
    ensures forall t :: t in r <==> t in ready
  {
    map t | t in ready :: Outcome(t, nodes[t].task, proceed, failures)
  }

  /** The node map after a gathered round: untouched when the gate was closed. */
  function RoundNodes(ready: seq<string>, nodes: map<string, Node>, proceed: bool,
                      failures: Failures): (r: map<string, Node>)
    requires forall t :: t in ready ==> t in nodes && nodes[t].Task?
    ensures r.Keys == nodes.Keys
    ensures forall t :: t in nodes && t !in ready ==> r[t] == nodes[t]
    ensures forall t :: t in ready ==> r[t].Task? && r[t].task.id == nodes[t].task.id
  {
    if proceed then nodes + map t | t in ready :: Task(SpecAfterRun(nodes[t].task, failures))
    else nodes
  }

  /** The spends a round records, in round order. */
  function RoundCosts(ready: seq<string>, nodes: map<string, Node>, failures: Failures): seq<real>
    requires forall t :: t in ready ==> t in nodes && nodes[t].Task?
  {
    if ready == [] then []
    else RoundCosts(ready[..|ready| - 1], nodes, failures) + RunCost(nodes[ready[|ready| - 1]].task, failures)
  }

  /** `get_progress`. */
  datatype Progress = Progress(total: nat, completed: nat, failed: nat, inProgress: int,
                               completionRate: real, totalCost: real, budgetRemaining: real)

  /** The number of results, in `order`, with the given status. */
  function CountStatus(order: seq<string>, results: map<string, ExecResult>, s: TaskStatus): (r: nat)
    requires forall k :: k in order ==> k in results
    ensures r <= |order|
  {
    if order == [] then 0
    else (if results[order[0]].status == s then 1 else 0) + CountStatus(order[1..], results, s)
  }

  /** The cost of all results, in `order`. */
  function CostSum(order: seq<string>, results: map<string, ExecResult>): real
    requires forall k :: k in order ==> k in results
  {
    if order == [] then 0.0 else results[order[0]].cost + CostSum(order[1..], results)
  }

  function ProgressOf(total: nat, order: seq<string>, results: map<string, ExecResult>,
                      remaining: real): (p: Progress)
    requires forall k :: k in order ==> k in results
    ensures p.total == total && p.inProgress == total - p.completed - p.failed
    ensures p.completed + p.failed <= |order|
    ensures p.completed == CountStatus(order, results, Done)
    ensures p.failed == CountStatus(order, results, Failed)
    ensures total > 0 ==> p.completionRate == p.completed as real / total as real * 100.0
    ensures total == 0 ==> p.completionRate == 0.0
    ensures p.totalCost == CostSum(order, results)
    ensures p.budgetRemaining == remaining
  {
    var completed := CountStatus(order, results, Done);
    var failed := CountStatus(order, results, Failed);
    CountDisjoint(order, results);
    Progress(total, completed, failed, total - completed - failed,
             if total > 0 then completed as real / total as real * 100.0 else 0.0,
             CostSum(order, results), remaining)
  }

  /** The listed results with status `s`. */
  ghost function WithStatus(order: seq<string>, results: map<string, ExecResult>, s: TaskStatus): set<string>
    requires forall k :: k in order ==> k in results
  {
    set k | k in order && results[k].status == s
  }

  /** Removing the head of the order removes at most the head from `WithStatus`. */
  lemma WithStatusTail(order: seq<string>, results: map<string, ExecResult>, s: TaskStatus)
    requires order != [] && forall k :: k in order ==> k in results
    ensures WithStatus(order, results, s) ==
      WithStatus(order[1..], results, s) + (if results[order[0]].status == s then {order[0]} else {})
  {
    assert forall k :: k in order <==> k == order[0] || k in order[1..] by {
      assert order == [order[0]] + order[1..];
    }
  }

  /**
   * Over an order without repeats, `CountStatus` is the number of listed results with
   * status `s`: the `sum(1 for r in results.values() if r.status == s)` of `get_progress`.
   */
  lemma {:induction false} CountStatusIsCardinality(order: seq<string>, results: map<string, ExecResult>,
                                                     s: TaskStatus)
    requires forall k :: k in order ==> k in results
    requires Distinct(order)
    ensures CountStatus(order, results, s) == |WithStatus(order, results, s)|
  {
    if order != [] {
      assert Distinct(order[1..]) by {
        forall i, j | 0 <= i < j < |order[1..]|
          ensures order[1..][i] != order[1..][j]
        {
          assert order[1..][i] == order[i + 1] && order[1..][j] == order[j + 1];
        }
      }
      CountStatusIsCardinality(order[1..], results, s);
      WithStatusTail(order, results, s);
      assert order[0] !in order[1..] by {
        assert forall j :: 0 <= j < |order[1..]| ==> order[1..][j] == order[j + 1];
      }
    }
  }

  lemma {:induction false} CountDisjoint(order: seq<string>, results: map<string, ExecResult>)
    requires forall k :: k in order ==> k in results
    ensures CountStatus(order, results, Done) + CountStatus(order, results, Failed) <= |order|
  {
    if order != [] {
      CountDisjoint(order[1..], results);
    }
  }

  /** When every listed result is DONE, all of them are counted as completed. */
  lemma {:induction false} AllDoneCounted(order: seq<string>, results: map<string, ExecResult>)
    requires forall k :: k in order ==> k in results && results[k].status == Done
    ensures CountStatus(order, results, Done) == |order|
    ensures CountStatus(order, results, Failed) == 0
  {
    if order != [] {
      AllDoneCounted(order[1..], results);
    }
  }

  /** One DONE result per task: nothing is in progress and the completion rate is 100. */
  lemma AllDoneIsComplete(order: seq<string>, results: map<string, ExecResult>, remaining: real)
    requires order != []
    requires forall k :: k in order ==> k in results && results[k].status == Done
    ensures ProgressOf(|order|, order, results, remaining).inProgress == 0
    ensures ProgressOf(|order|, order, results, remaining).completionRate == 100.0
  {
    AllDoneCounted(order, results);
    var n := |order| as real;
    assert n / n == 1.0;
    assert ProgressOf(|order|, order, results, remaining).completionRate == n / n * 100.0;
  }

  /** The ids of `order` whose node is a task are distinct when `order` is. */
  lemma {:induction false} TaskOrderDistinct(order: seq<string>, nodes: map<string, Node>)
    requires Distinct(order)
    ensures Distinct(TaskOrder(order, nodes))
  {
    if order != [] {
      TaskOrderDistinct(order[1..], nodes);
    }
  }

  lemma RoundResultsStep(done: seq<string>, t: string, nodes: map<string, Node>, proceed: bool,
                         failures: Failures, base: map<string, ExecResult>)
    requires forall u :: u in done + [t] ==> u in nodes && nodes[u].Task?
    ensures base + RoundResults(done + [t], nodes, proceed, failures) ==
      (base + RoundResults(done, nodes, proceed, failures))[t := Outcome(t, nodes[t].task, proceed, failures)]
  {
  }

  lemma RoundNodesStep(done: seq<string>, t: string, nodes: map<string, Node>, proceed: bool, failures: Failures)
    requires forall u :: u in done + [t] ==> u in nodes && nodes[u].Task?
    requires t !in done
    ensures RoundNodes(done, nodes, proceed, failures)[t] == nodes[t]
    ensures RoundNodes(done + [t], nodes, proceed, failures) ==
      NodesAfter(RoundNodes(done, nodes, proceed, failures), t, proceed, failures)
  {
  }

  lemma RoundNodesKinds(ready: seq<string>, nodes: map<string, Node>, proceed: bool, failures: Failures)
    requires forall t :: t in ready ==> t in nodes && nodes[t].Task?
    ensures SameKinds(nodes, RoundNodes(ready, nodes, proceed, failures))
  {
  }

  lemma RoundCostsStep(l: Ledger, done: seq<string>, t: string, nodes: map<string, Node>, failures: Failures)
    requires forall u :: u in done + [t] ==> u in nodes && nodes[u].Task?
    ensures SpendEach(l, RoundCosts(done + [t], nodes, failures), "") ==
      SpendEach(SpendEach(l, RoundCosts(done, nodes, failures), ""), RunCost(nodes[t].task, failures), "")
  {
    assert (done + [t])[..|done|] == done;
    var a := RoundCosts(done, nodes, failures);
    assert RoundCosts(done + [t], nodes, failures) == a + RunCost(nodes[t].task, failures);
    if nodes[t].task.id in failures {
      assert a + [] == a;
      assert SpendEach(SpendEach(l, a, ""), [], "") == SpendEach(l, a, "");
    } else {
      SpendEachAppend(l, a, nodes[t].task.cost.estCostUsd, "");
    }
  }

  /** In a dependency order, the predecessors of a task come before it. */
  lemma PredsBefore(g: DiGraph<string>, order: seq<string>, i: nat)
    requires WellFormed(g) && multiset(order) == multiset(g.nodes) && i < |order|
    requires forall a, b :: 0 <= a <= b < |order| ==> (order[b], order[a]) !in g.edges
    ensures forall p :: p in Preds(g, order[i]) ==> p in order[..i]
  {
    forall p | p in Preds(g, order[i])
      ensures p in order[..i]
    {
      assert p in multiset(order);
      var k :| 0 <= k < |order| && order[k] == p;
      assert (order[k], order[i]) in g.edges;
      assert k < i;
    }
  }

  /** A task whose predecessors all have results and one of them is not DONE stays blocked
      while results are only added. */
  lemma NotSatisfiedStays(g: DiGraph<string>, r1: map<string, ExecResult>, r2: map<string, ExecResult>, t: string)
    requires forall k :: k in r1 ==> k in r2 && r2[k] == r1[k]
    requires Preds(g, t) <= r1.Keys
    requires !DependenciesSatisfied(g, r1, t)
    ensures !DependenciesSatisfied(g, r2, t)
  {
  }

  /** The members of wave `k` are the nodes whose wave index is `k`. */
  lemma WaveMembers(waves: seq<seq<string>>, k: nat)
    requires Placed(waves) && k < |waves|
    ensures forall t :: t in waves[k] <==> WaveIndex(waves, t) == k
  {
  }

  /** `can_proceed` on a ledger value. */
  predicate GateOpen(l: Ledger) {
    CanProceedAt(l.spent, l.budget.caps)
  }

  /** The part of the state a wave changes: the OAG's node map and the budget ledger. */
  datatype RunState = RunState(nodes: map<string, Node>, ledger: Ledger)

  /** The sequential branch of a wave from state `s`: each task meets the budget gate as the
      ledger stands at its own turn. */
  function EachAfter(tasks: seq<string>, s: RunState, failures: Failures): (r: RunState)
    requires AreTasks(tasks, s.nodes)
    ensures SameKinds(s.nodes, r.nodes)
    decreases |tasks|
  {
    if tasks == [] then s
    else
      var p := GateOpen(s.ledger);
      var next := RunState(NodesAfter(s.nodes, tasks[0], p, failures),
                           LedgerAfter(s.ledger, s.nodes[tasks[0]].task, p, failures));
      KindsKeepTasks(tasks[1..], s.nodes, next.nodes);
      var r := EachAfter(tasks[1..], next, failures);
      KindsCompose(s.nodes, next.nodes, r.nodes);
      r
  }

  /** The first turn of the sequential branch, peeled off. */
  lemma EachAfterStep(tasks: seq<string>, j: nat, s: RunState, failures: Failures)
    requires j < |tasks| && AreTasks(tasks[j..], s.nodes)
    ensures AreTasks(tasks[j + 1..], NodesAfter(s.nodes, tasks[j], GateOpen(s.ledger), failures))
    ensures EachAfter(tasks[j..], s, failures) ==
      EachAfter(tasks[j + 1..], RunState(NodesAfter(s.nodes, tasks[j], GateOpen(s.ledger), failures),
                                         LedgerAfter(s.ledger, s.nodes[tasks[j]].task, GateOpen(s.ledger), failures)), failures)
  {
    assert tasks[j..][0] == tasks[j];
    assert tasks[j..][1..] == tasks[j + 1..];
    KindsKeepTasks(tasks[j + 1..], s.nodes, NodesAfter(s.nodes, tasks[j], GateOpen(s.ledger), failures));
  }

  /** One wave from state `s`: a gathered round, where every task meets the gate as it stands
      at the start of the wave, or the tasks one by one. */
  function WaveAfter(wave: seq<string>, parallel: bool, s: RunState, failures: Failures): (r: RunState)
    requires AreTasks(wave, s.nodes)
    ensures SameKinds(s.nodes, r.nodes)
  {
    if parallel then
      var p := GateOpen(s.ledger);
      RoundNodesKinds(wave, s.nodes, p, failures);
      RunState(RoundNodes(wave, s.nodes, p, failures),
               if p then SpendEach(s.ledger, RoundCosts(wave, s.nodes, failures), "") else s.ledger)
    else EachAfter(wave, s, failures)
  }

  /** A wave that starts with the budget gate closed runs nothing: no spec changes and no
      spend is recorded, in either branch. */
  lemma {:induction false} ClosedWaveChangesNothing(wave: seq<string>, parallel: bool, s: RunState, failures: Failures)
    requires AreTasks(wave, s.nodes) && !GateOpen(s.ledger)
    ensures WaveAfter(wave, parallel, s, failures) == s
  {
    if !parallel {
      ClosedEachChangesNothing(wave, s, failures);
    }
  }

  lemma {:induction false} ClosedEachChangesNothing(tasks: seq<string>, s: RunState, failures: Failures)
    requires AreTasks(tasks, s.nodes) && !GateOpen(s.ledger)
    ensures EachAfter(tasks, s, failures) == s
    decreases |tasks|
  {
    if tasks != [] {
      ClosedEachChangesNothing(tasks[1..], s, failures);
    }
  }

  /** The state before wave `k`, given the states after the waves before it. */
  function Before<S>(states: seq<S>, s0: S, k: nat): S
    requires k <= |states|
  {
    if k == 0 then s0 else states[k - 1]
  }

  /** `states[k]` is the state wave `k` leaves when run from the state the wave before it
      left, the first one from `s0`. */
  ghost predicate WavesChained(waves: seq<seq<string>>, parallel: bool, s0: RunState, states: seq<RunState>,
                               failures: Failures)
  {
    |states| <= |waves| &&
    forall k :: 0 <= k < |states| ==>
      AreTasks(waves[k], Before(states, s0, k).nodes) && states[k] == WaveAfter(waves[k], parallel, Before(states, s0, k), failures)
  }

  lemma WavesChainedStep(waves: seq<seq<string>>, parallel: bool, s0: RunState, states: seq<RunState>,
                         failures: Failures, next: RunState)
    requires WavesChained(waves, parallel, s0, states, failures) && |states| < |waves|
    requires AreTasks(waves[|states|], Before(states, s0, |states|).nodes)
    requires next == WaveAfter(waves[|states|], parallel, Before(states, s0, |states|), failures)
    ensures WavesChained(waves, parallel, s0, states + [next], failures)
    ensures Before(states + [next], s0, |states| + 1) == next
  {
    var ext := states + [next];
    forall k | 0 <= k < |ext|
      ensures AreTasks(waves[k], Before(ext, s0, k).nodes) && ext[k] == WaveAfter(waves[k], parallel, Before(ext, s0, k), failures)
    {
      assert Before(ext, s0, k) == Before(states, s0, k);
    }
  }

  /** The budget gate was open after each of the first `n` waves. */
  ghost predicate GatesOpen(states: seq<RunState>, n: nat)
    requires n <= |states|
  {
    forall k :: 0 <= k < n ==> GateOpen(states[k].ledger)
  }

  lemma GatesOpenStep(states: seq<RunState>, next: RunState)
    requires GatesOpen(states, |states|)
    ensures GatesOpen(states + [next], |states|)
    ensures GateOpen(next.ledger) ==> GatesOpen(states + [next], |states| + 1)
  {
  }

  /** Every id in `ids` names a task node. */
  ghost predicate AreTasks(ids: seq<string>, nodes: map<string, Node>) {
    forall t :: t in ids ==> t in nodes && nodes[t].Task?
  }

  /** `b` has the keys of `a`, each holding the same kind of node. */
  ghost predicate SameKinds(a: map<string, Node>, b: map<string, Node>) {
    a.Keys == b.Keys && forall t :: t in a ==> (a[t].Task? <==> b[t].Task?)
  }

  lemma ReplaceKeepsKinds(a: map<string, Node>, k: string, n: Node)
    requires k in a && (a[k].Task? <==> n.Task?)
    ensures SameKinds(a, a[k := n])
  {
  }

  lemma KindsKeepTasks(ids: seq<string>, a: map<string, Node>, b: map<string, Node>)
    requires AreTasks(ids, a) && SameKinds(a, b)
    ensures AreTasks(ids, b)
  {
  }

  lemma KindsCompose(a: map<string, Node>, b: map<string, Node>, c: map<string, Node>)
    requires SameKinds(a, b) && SameKinds(b, c)
    ensures SameKinds(a, c)
  {
  }

  /** What the sequential driver keeps of its results: every task that ran had its
      dependencies met, every skipped one carries the skip result, and, in a dependency
      order, every task's predecessors came first and a skipped task is still blocked. */
  ghost predicate SequentialInv(g: DiGraph<string>, results: map<string, ExecResult>, topo: bool) {
    (forall u :: u in results && results[u].status != Skipped ==> DependenciesSatisfied(g, results, u)) &&
    (forall u :: u in results && results[u].status == Skipped ==> results[u] == NotSatisfied(u)) &&
    (topo ==> forall u :: u in results ==> Preds(g, u) <= results.Keys) &&
    (topo ==> forall u :: u in results && results[u].status == Skipped ==> !DependenciesSatisfied(g, results, u))
  }

  /** One step of the sequential driver keeps its invariants. */
  lemma SequentialStep(g: DiGraph<string>, before: map<string, ExecResult>, after: map<string, ExecResult>,
                       t: string, topo: bool)
    requires t !in before && forall k :: k in after <==> k in before || k == t
    requires forall k :: k in before ==> after[k] == before[k]
    requires after[t].status != Skipped ==> DependenciesSatisfied(g, before, t)
    requires after[t].status == Skipped ==> after[t] == NotSatisfied(t) && !DependenciesSatisfied(g, before, t)
    requires SequentialInv(g, before, topo)
    requires topo ==> Preds(g, t) <= before.Keys
    ensures SequentialInv(g, after, topo)
  {
    forall u | u in after && after[u].status != Skipped
      ensures DependenciesSatisfied(g, after, u)
    {
      DependenciesStaySatisfied(g, before, after, u);
    }
    if topo {
      forall u | u in after && after[u].status == Skipped
        ensures !DependenciesSatisfied(g, after, u)
      {
        NotSatisfiedStays(g, before, after, u);
      }
    }
  }

  /** `g` is the graph `_build_execution_graph` builds over the task ids `taskIds` and the
      OAG's `edges`. */
  ghost predicate IsExecutionGraph(g: DiGraph<string>, taskIds: seq<string>, edges: seq<Edge>) {
    g.nodes == taskIds &&
    forall p, q :: (p, q) in g.edges <==>
      p in taskIds && q in taskIds && exists e :: e in edges && e.fromId == p && e.toId == q
  }

  /** `round` is a ready set of `_execute_parallel` once the results `done` are stored: the
      graph's tasks without a result whose dependencies are met, each listed once. */
  ghost predicate IsReadyRound(g: DiGraph<string>, done: map<string, ExecResult>, round: seq<string>) {
    round != [] && Distinct(round) &&
    forall t {:trigger t in round} :: t in round <==> t in g.nodes && t !in done && DependenciesSatisfied(g, done, t)
  }

  /** What a driver of the executor changes: the node map, the ledger and the results. */
  datatype DriverState = DriverState(run: RunState, results: map<string, ExecResult>)

  /** One turn of `_execute_sequential`'s loop: an id that names no task is passed over, a
      task whose dependencies are not met gets the skip result, and any other meets the
      budget gate as the ledger stands and stores its outcome. */
  function TurnAfter(g: DiGraph<string>, t: string, d: DriverState, failures: Failures): (r: DriverState)
    ensures SameKinds(d.run.nodes, r.run.nodes)
    ensures r.run != d.run ==> DependenciesSatisfied(g, d.results, t) && GateOpen(d.run.ledger)
    ensures forall k :: k in r.results <==> k in d.results || (k == t && t in d.run.nodes && d.run.nodes[t].Task?)
    ensures t in d.run.nodes && d.run.nodes[t].Task? && !DependenciesSatisfied(g, d.results, t) ==>
      r.results[t] == NotSatisfied(t)
  {
    if !(t in d.run.nodes && d.run.nodes[t].Task?) then d
    else if !DependenciesSatisfied(g, d.results, t) then DriverState(d.run, d.results[t := NotSatisfied(t)])
    else
      var p := GateOpen(d.run.ledger);
      DriverState(RunState(NodesAfter(d.run.nodes, t, p, failures), LedgerAfter(d.run.ledger, d.run.nodes[t].task, p, failures)),
                  d.results[t := Outcome(t, d.run.nodes[t].task, p, failures)])
  }

  /** `_execute_sequential`'s loop over `order` from `d`: the turns of its ids in order. */
  function VisitAfter(g: DiGraph<string>, order: seq<string>, d: DriverState, failures: Failures): (r: DriverState)
    ensures SameKinds(d.run.nodes, r.run.nodes)
    decreases |order|
  {
    if order == [] then d
    else
      var next := TurnAfter(g, order[0], d, failures);
      var r := VisitAfter(g, order[1..], next, failures);
      KindsCompose(d.run.nodes, next.run.nodes, r.run.nodes);
      r
  }

  /** The turn of `order[i]`, peeled off. */
  lemma VisitAfterStep(g: DiGraph<string>, order: seq<string>, i: nat, d: DriverState, failures: Failures)
    requires i < |order|
    ensures VisitAfter(g, order[i..], d, failures) == VisitAfter(g, order[i + 1..], TurnAfter(g, order[i], d, failures), failures)
  {
    assert order[i..][0] == order[i];
    assert order[i..][1..] == order[i + 1..];
  }

  /** The sequential loop gives a result to exactly the ids of `order` that name tasks, on
      top of the results it started with. */
  lemma {:induction false} VisitAfterKeys(g: DiGraph<string>, order: seq<string>, d: DriverState, failures: Failures)
    ensures forall k :: k in VisitAfter(g, order, d, failures).results <==>
      k in d.results || (k in order && k in d.run.nodes && d.run.nodes[k].Task?)
    decreases |order|
  {
    if order != [] {
      var next := TurnAfter(g, order[0], d, failures);
      VisitAfterKeys(g, order[1..], next, failures);
      assert forall k :: k in order <==> k == order[0] || k in order[1..];
    }
  }

  /** Once the budget gate is closed the sequential loop runs nothing: no spec changes and no
      spend is recorded for the rest of the order. */
  lemma {:induction false} ClosedVisitChangesNothing(g: DiGraph<string>, order: seq<string>, d: DriverState,
                                                     failures: Failures)
    requires !GateOpen(d.run.ledger)
    ensures VisitAfter(g, order, d, failures).run == d.run
    decreases |order|
  {
    if order != [] {
      ClosedVisitChangesNothing(g, order[1..], TurnAfter(g, order[0], d, failures), failures);
    }
  }

  /** One `asyncio.gather` of `_execute_parallel` over `ready` from `d`: every task meets the
      budget gate as it stands at the start of the round, then the outcomes are stored. */
  function RoundAfter(ready: seq<string>, d: DriverState, failures: Failures): (r: DriverState)
    requires AreTasks(ready, d.run.nodes)
    ensures forall k :: k in r.results <==> k in d.results || k in ready
  {
    DriverState(WaveAfter(ready, true, d.run, failures), d.results + RoundResults(ready, d.run.nodes, GateOpen(d.run.ledger), failures))
  }

  /** `states[k]` is the state round `k` leaves when run from the state the round before it
      left, the first one from `d0`. */
  ghost predicate RoundsChained(rounds: seq<seq<string>>, d0: DriverState, states: seq<DriverState>, failures: Failures) {
    |states| <= |rounds| &&
    forall k {:trigger rounds[k]} :: 0 <= k < |states| ==>
      AreTasks(rounds[k], Before(states, d0, k).run.nodes) && states[k] == RoundAfter(rounds[k], Before(states, d0, k), failures)
  }

  /** `rounds` are the rounds of `_execute_parallel` over `g` from `d0`, each the ready set of
      the state the rounds before it left, and `states[k]` is the state round `k` leaves. */
  ghost predicate ParallelRounds(g: DiGraph<string>, rounds: seq<seq<string>>, d0: DriverState,
                                 states: seq<DriverState>, failures: Failures) {
    |states| == |rounds| && RoundsChained(rounds, d0, states, failures) &&
    forall k {:trigger rounds[k]} :: 0 <= k < |rounds| ==> IsReadyRound(g, Before(states, d0, k).results, rounds[k])
  }

  /** One more gathered round, run over the ready set of the state the last one left. */
  lemma ParallelRoundsStep(g: DiGraph<string>, rounds: seq<seq<string>>, d0: DriverState, states: seq<DriverState>,
                           failures: Failures, ready: seq<string>, next: DriverState)
    requires ParallelRounds(g, rounds, d0, states, failures)
    requires AreTasks(ready, Before(states, d0, |states|).run.nodes)
    requires next == RoundAfter(ready, Before(states, d0, |states|), failures)
    requires IsReadyRound(g, Before(states, d0, |states|).results, ready)
    ensures ParallelRounds(g, rounds + [ready], d0, states + [next], failures)
    ensures Before(states + [next], d0, |states| + 1) == next
  {
    var ext, extStates := rounds + [ready], states + [next];
    forall k | 0 <= k < |extStates|
      ensures Before(extStates, d0, k) == Before(states, d0, k)
      ensures AreTasks(ext[k], Before(extStates, d0, k).run.nodes) &&
              extStates[k] == RoundAfter(ext[k], Before(extStates, d0, k), failures)
      ensures IsReadyRound(g, Before(extStates, d0, k).results, ext[k])
    {
    }
  }

  /** A task has a result after `n` rounds exactly when it had one at the start or one of
      those rounds held it. */
  lemma {:induction false} RoundsResultsKeys(rounds: seq<seq<string>>, d0: DriverState, states: seq<DriverState>,
                                             failures: Failures, n: nat)
    requires n <= |states| && RoundsChained(rounds, d0, states, failures)
    ensures forall t :: t in Before(states, d0, n).results <==> t in d0.results || exists k :: 0 <= k < n && t in rounds[k]
  {
    if n > 0 {
      RoundsResultsKeys(rounds, d0, states, failures, n - 1);
      var prev := Before(states, d0, n - 1);
      assert AreTasks(rounds[n - 1], prev.run.nodes) && states[n - 1] == RoundAfter(rounds[n - 1], prev, failures);
      forall t | t in states[n - 1].results && t !in d0.results
        ensures exists k :: 0 <= k < n && t in rounds[k]
      {
        if t !in rounds[n - 1] {
          assert t in prev.results;
        }
      }
      forall t, k | 0 <= k < n && t in rounds[k]
        ensures t in states[n - 1].results
      {
        if k < n - 1 {
          assert t in prev.results;
        }
      }
    }
  }

  /** No task is in two rounds: `_execute_parallel` runs each task at most once. */
  lemma RoundsDisjoint(g: DiGraph<string>, rounds: seq<seq<string>>, d0: DriverState, states: seq<DriverState>,
                       failures: Failures, i: nat, j: nat, t: string)
    requires ParallelRounds(g, rounds, d0, states, failures)
    requires i < j < |rounds| && t in rounds[i]
    ensures t !in rounds[j]
  {
    RoundsResultsKeys(rounds, d0, states, failures, j);
    assert IsReadyRound(g, Before(states, d0, j).results, rounds[j]);
  }

  /** `execute(parallel=True)` over graph `g` from `s0` ends in `final`: nothing when the gate
      is closed at the start, otherwise the gathered rounds `rounds` with states `states`,
      until no task without a result has its dependencies met. */
  ghost predicate ParallelRun(g: DiGraph<string>, s0: RunState, final: DriverState, rounds: seq<seq<string>>,
                              states: seq<DriverState>, failures: Failures) {
    if GateOpen(s0.ledger) then
      ParallelRounds(g, rounds, DriverState(s0, map[]), states, failures) &&
      final == Before(states, DriverState(s0, map[]), |rounds|) &&
      forall t :: t in g.nodes && t !in final.results ==> !DependenciesSatisfied(g, final.results, t)
    else final == DriverState(s0, map[])
  }

  /** `execute(parallel=False)` over graph `g` from `s0` ends in `final`: nothing when the gate
      is closed at the start, otherwise the sequential loop over a dependency order of `g`
      (over the graph's node order when there is none). */
  ghost predicate SequentialRun(g: DiGraph<string>, s0: RunState, final: DriverState, failures: Failures) {
    if GateOpen(s0.ledger) then final == VisitAfter(g, OrderOrFallback(g, g.nodes), DriverState(s0, map[]), failures)
    else final == DriverState(s0, map[])
  }

  class Executor {
    const oag: Oag
    const budgetManager: BudgetManager
    var graph: DiGraph<string>
    var results: map<string, ExecResult>
    /** The insertion order of `results`. */
    var resultOrder: seq<string>

    /** The manager's budget model is the OAG's own (one shared object in the source), each
        result is stored under its task's id, and `resultOrder` lists the keys once each. */
    ghost predicate Valid()
      reads this, oag, budgetManager
    {
      oag.Valid() && budgetManager.budget == oag.budget &&
      Distinct(resultOrder) && (forall k :: k in results <==> k in resultOrder) &&
      (forall k :: k in results ==> results[k].taskId == k)
    }

    /** The node map, the ledger and the results as they stand. */
    ghost function Now(): DriverState
      reads this, oag, budgetManager
    {
      DriverState(RunState(oag.nodes, budgetManager.State()), results)
    }

    /** The task ids of the OAG, in insertion order: the keys of the materialized tasks. */
    function TaskIds(): seq<string>
      reads oag
    {
      TaskOrder(oag.order, oag.nodes)
    }

    /** `Executor(oag, budget_manager)`: without a manager one is built over the OAG's budget. */
    constructor (oag: Oag, manager: Option<BudgetManager>)
      requires oag.Valid()
      requires manager.Some? ==> manager.value.budget == oag.budget
      ensures Valid()
      ensures this.oag == oag && results == map[] && resultOrder == []
      ensures manager.Some? ==> budgetManager == manager.value
      ensures manager.None? ==> fresh(budgetManager) && budgetManager.State() == Ledger(oag.budget, 0.0, [], [])
    {
      this.oag := oag;
      if manager.Some? {
        budgetManager := manager.value;
      } else {
        budgetManager := new BudgetManager(oag.budget);
      }
      graph := DiGraph([], {});
      results := map[];
      resultOrder := [];
    }

    /** `_execute_task` on the mock path, with the budget gate's answer passed in. */
    method RunTask(taskId: string, proceed: bool, failures: Failures)
      requires Valid()
      modifies this, oag, budgetManager
      ensures Valid()
      ensures graph == old(graph) && oag.order == old(oag.order) && oag.edges == old(oag.edges)
      ensures oag.meta == old(oag.meta) && SameKinds(old(oag.nodes), oag.nodes)
      ensures !(taskId in old(oag.nodes) && old(oag.nodes)[taskId].Task?) ==>
        results == old(results) && resultOrder == old(resultOrder) && oag.nodes == old(oag.nodes) &&
        budgetManager.State() == old(budgetManager.State())
      ensures taskId in old(oag.nodes) && old(oag.nodes)[taskId].Task? ==>
        var spec := old(oag.nodes)[taskId].task;
        results == old(results)[taskId := Outcome(taskId, spec, proceed, failures)] &&
        resultOrder == (if taskId in old(results) then old(resultOrder) else old(resultOrder) + [taskId]) &&
        oag.nodes == NodesAfter(old(oag.nodes), taskId, proceed, failures) &&
        budgetManager.State() == LedgerAfter(old(budgetManager.State()), spec, proceed, failures)
    {
      var node := GetNode(oag.nodes, taskId);
      if !(node.Some? && node.value.Task?) {
        return;
      }
      var spec := node.value.task;
      var result := BudgetExceeded(taskId);
      if proceed {
        result := Run(spec, failures);
      }
      Store(result);
    }

    /** The mock backend call of `_execute_task` once the budget gate has let the task
        through: the spend is recorded (and mirrored into the OAG's budget) and the spec
        updated, unless the call raised. */
    method Run(spec: TaskSpec, failures: Failures) returns (result: ExecResult)
      requires Valid() && spec.id in oag.nodes && oag.nodes[spec.id] == Task(spec)
      modifies oag, budgetManager
      ensures Valid()
      ensures result == RunResult(spec, failures)
      ensures oag.nodes == old(oag.nodes)[spec.id := Task(SpecAfterRun(spec, failures))]
      ensures oag.order == old(oag.order) && oag.edges == old(oag.edges) && oag.meta == old(oag.meta)
      ensures SameKinds(old(oag.nodes), oag.nodes)
      ensures budgetManager.State() == SpendEach(old(budgetManager.State()), RunCost(spec, failures), "")
    {
      if spec.id !in failures {
        var _ := budgetManager.RecordSpend(spec.cost.estCostUsd, "");
        oag.SetBudget(budgetManager.budget);
      }
      ghost var nodes := oag.nodes;
      oag.AddNode(Task(SpecAfterRun(spec, failures)));
      ReplaceKeepsKinds(nodes, spec.id, Task(SpecAfterRun(spec, failures)));
      result := RunResult(spec, failures);
    }

    /** `self.results[task_id] = result`. */
    method Store(result: ExecResult)
      requires Valid()
      modifies this
      ensures Valid() && graph == old(graph)
      ensures results == old(results)[result.taskId := result]
      ensures resultOrder == if result.taskId in old(results) then old(resultOrder) else old(resultOrder) + [result.taskId]
    {
      if result.taskId !in results {
        resultOrder := resultOrder + [result.taskId];
      }
      results := results[result.taskId := result];
    }

    /** The loop of `_execute_parallel` that collects the tasks whose dependencies are met. */
    method ReadyTasks(remaining: seq<string>) returns (ready: seq<string>)
      requires Distinct(remaining)
      ensures Distinct(ready)
      ensures forall t {:trigger t in ready} :: t in ready <==> t in remaining && DependenciesSatisfied(graph, results, t)
    {
      ready := [];
      var i := 0;
      while i < |remaining|
        invariant 0 <= i <= |remaining|
        invariant Distinct(ready)
        invariant forall t :: t in ready <==> t in remaining[..i] && DependenciesSatisfied(graph, results, t)
      {
        var t := remaining[i];
        assert t !in remaining[..i];
        if DependenciesSatisfied(graph, results, t) {
          ready := ready + [t];
        }
        PrefixStep(remaining, i);
        i := i + 1;
      }
      assert remaining[..i] == remaining;
    }

    /** One `asyncio.gather` over `ready`: every task meets the budget gate as it stands at
        the start of the round, then the outcomes land in order. */
    method ExecuteRound(ready: seq<string>, failures: Failures)
      requires Valid() && Distinct(ready)
      requires forall t :: t in ready ==> t in oag.nodes && oag.nodes[t].Task? && t !in results
      modifies this, oag, budgetManager
      ensures Valid()
      ensures graph == old(graph) && oag.order == old(oag.order) && oag.edges == old(oag.edges)
      ensures oag.meta == old(oag.meta) && SameKinds(old(oag.nodes), oag.nodes)
      ensures results == old(results) + RoundResults(ready, old(oag.nodes), old(budgetManager.CanProceed()), failures)
      ensures resultOrder == old(resultOrder) + ready
      ensures oag.nodes == RoundNodes(ready, old(oag.nodes), old(budgetManager.CanProceed()), failures)
      ensures budgetManager.State() ==
        if old(budgetManager.CanProceed()) then SpendEach(old(budgetManager.State()), RoundCosts(ready, old(oag.nodes), failures), "")
        else old(budgetManager.State())
    {
      var proceed := budgetManager.CanProceed();
      ghost var nodes0, results0, order0, ledger0 := oag.nodes, results, resultOrder, budgetManager.State();
      var i := 0;
      while i < |ready|
        invariant 0 <= i <= |ready|
        invariant Valid()
        invariant graph == old(graph) && oag.order == old(oag.order) && oag.edges == old(oag.edges)
        invariant oag.meta == old(oag.meta)
        invariant RoundSoFar(ready[..i], proceed, failures, nodes0, results0, order0, ledger0)
      {
        PrefixStep(ready, i);
        assert ready[i] !in ready[..i];
        GatherOne(ready[..i], ready[i], proceed, failures, nodes0, results0, order0, ledger0);
        i := i + 1;
      }
      assert ready[..i] == ready;
      RoundNodesKinds(ready, nodes0, proceed, failures);
    }

    /** The state once the tasks of `done` have had their turn in a round that started from
        `nodes0`, `results0`, `order0` and `ledger0`. */
    ghost predicate RoundSoFar(done: seq<string>, proceed: bool, failures: Failures, nodes0: map<string, Node>,
                               results0: map<string, ExecResult>, order0: seq<string>, ledger0: Ledger)
      reads this, oag, budgetManager
      requires forall t :: t in done ==> t in nodes0 && nodes0[t].Task?
    {
      results == results0 + RoundResults(done, nodes0, proceed, failures) &&
      resultOrder == order0 + done &&
      oag.nodes == RoundNodes(done, nodes0, proceed, failures) &&
      budgetManager.State() == if proceed then SpendEach(ledger0, RoundCosts(done, nodes0, failures), "") else ledger0
    }

    /** One coroutine of the gathered round: task `t` takes its turn after those of `done`. */
    method GatherOne(done: seq<string>, t: string, proceed: bool, failures: Failures, ghost nodes0: map<string, Node>,
                     ghost results0: map<string, ExecResult>, ghost order0: seq<string>, ghost ledger0: Ledger)
      requires Valid() && t !in done
      requires forall u :: u in done + [t] ==> u in nodes0 && nodes0[u].Task? && u !in results0
      requires RoundSoFar(done, proceed, failures, nodes0, results0, order0, ledger0)
      modifies this, oag, budgetManager
      ensures Valid()
      ensures graph == old(graph) && oag.order == old(oag.order) && oag.edges == old(oag.edges)
      ensures oag.meta == old(oag.meta)
      ensures RoundSoFar(done + [t], proceed, failures, nodes0, results0, order0, ledger0)
    {
      RoundNodesStep(done, t, nodes0, proceed, failures);
      assert t !in results;
      assert order0 + (done + [t]) == resultOrder + [t];
      RunTask(t, proceed, failures);
      RoundResultsStep(done, t, nodes0, proceed, failures, results0);
      if proceed {
        RoundCostsStep(ledger0, done, t, nodes0, failures);
      }
    }

    /** `_execute_parallel`: gathered rounds of the tasks whose dependencies are met, until
        every task has run or none is ready (a cycle, or a predecessor that did not finish).
        `rounds` are the ready sets in the order they ran and `states[k]` is the node map,
        ledger and results round `k` left. */
    method ExecuteParallel(failures: Failures) returns (ghost rounds: seq<seq<string>>, ghost states: seq<DriverState>)
      requires Valid() && Distinct(graph.nodes) && results == map[]
      requires AreTasks(graph.nodes, oag.nodes)
      modifies this, oag, budgetManager
      ensures Valid() && graph == old(graph)
      ensures forall t :: t in results ==> t in graph.nodes && DependenciesSatisfied(graph, results, t)
      ensures forall t :: t in graph.nodes && t !in results ==> !DependenciesSatisfied(graph, results, t)
      ensures ParallelRounds(graph, rounds, DriverState(RunState(old(oag.nodes), old(budgetManager.State())), map[]), states, failures)
      ensures Now() == Before(states, DriverState(RunState(old(oag.nodes), old(budgetManager.State())), map[]), |rounds|)
    {
      ghost var d0 := Now();
      rounds, states := [], [];
      var remaining := graph.nodes;
      while remaining != []
        invariant Valid() && graph == old(graph)
        invariant Distinct(remaining)
        invariant forall t :: t in remaining <==> t in graph.nodes && t !in results
        invariant forall t :: t in results ==> t in graph.nodes && DependenciesSatisfied(graph, results, t)
        invariant AreTasks(graph.nodes, oag.nodes)
        invariant ParallelRounds(graph, rounds, d0, states, failures)
        invariant Now() == Before(states, d0, |rounds|)
        decreases |remaining|
      {
        var ready := ReadyTasks(remaining);
        if ready == [] {
          forall t | t in remaining
            ensures !DependenciesSatisfied(graph, results, t)
          {
            assert t !in ready;
          }
          break;
        }
        ghost var next := GatherReady(ready, failures, d0, rounds, states);
        rounds, states := rounds + [ready], states + [next];
        assert ready[0] in ready;
        WithoutDistinct(remaining, ready);
        remaining := Without(remaining, ready);
      }
    }

    /** One round of `_execute_parallel`: the ready set is gathered, and the round extends
        the chain of rounds that started from `d0`. */
    method GatherReady(ready: seq<string>, failures: Failures, ghost d0: DriverState,
                       ghost rounds: seq<seq<string>>, ghost states: seq<DriverState>) returns (ghost next: DriverState)
      requires Valid() && Distinct(ready) && AreTasks(graph.nodes, oag.nodes)
      requires forall t :: t in results ==> t in graph.nodes && DependenciesSatisfied(graph, results, t)
      requires IsReadyRound(graph, results, ready)
      requires ParallelRounds(graph, rounds, d0, states, failures) && Now() == Before(states, d0, |rounds|)
      modifies this, oag, budgetManager
      ensures Valid() && graph == old(graph) && AreTasks(graph.nodes, oag.nodes)
      ensures forall t :: t in results <==> t in old(results) || t in ready
      ensures forall t :: t in results ==> t in graph.nodes && DependenciesSatisfied(graph, results, t)
      ensures next == Now() && ParallelRounds(graph, rounds + [ready], d0, states + [next], failures)
      ensures Before(states + [next], d0, |rounds| + 1) == next
    {
      ghost var before, nodes := results, oag.nodes;
      assert AreTasks(ready, oag.nodes);
      RunWave(ready, true, failures);
      KindsKeepTasks(graph.nodes, nodes, oag.nodes);
      next := Now();
      ParallelRoundsStep(graph, rounds, d0, states, failures, ready, next);
      forall t | t in results
        ensures DependenciesSatisfied(graph, results, t)
      {
        DependenciesStaySatisfied(graph, before, results, t);
      }
    }

    /** The body of the loop of `_execute_sequential`: a task whose dependencies are not met
        gets a SKIPPED result, any other runs behind the budget gate as it stands. */
    method RunIfSatisfied(t: string, failures: Failures)
      requires Valid() && t in oag.nodes && oag.nodes[t].Task? && t !in results
      modifies this, oag, budgetManager
      ensures Valid() && graph == old(graph) && SameKinds(old(oag.nodes), oag.nodes)
      ensures forall k :: k in results <==> k in old(results) || k == t
      ensures forall k :: k in old(results) ==> results[k] == old(results)[k]
      ensures results[t].status == Skipped <==> !DependenciesSatisfied(graph, old(results), t)
      ensures results[t].status == Skipped ==> results[t] == NotSatisfied(t)
      ensures Now() ==
        TurnAfter(graph, t, DriverState(RunState(old(oag.nodes), old(budgetManager.State())), old(results)), failures)
    {
      if !DependenciesSatisfied(graph, results, t) {
        Store(NotSatisfied(t));
      } else {
        var proceed := budgetManager.CanProceed();
        RunTask(t, proceed, failures);
      }
    }

    /** `_execute_sequential`: the tasks in dependency order, each skipped when a predecessor
        has not finished DONE, otherwise run behind the budget gate as it stands then. On a
        cyclic graph the tasks go in the graph's node order: this is the handler's evident
        intent (`OrderOrFallback`); as written the sort's error escapes before any task runs
        (`CycleEscapesHandler`). */
    method ExecuteSequential(failures: Failures)
      requires Valid() && WellFormed(graph) && results == map[]
      requires AreTasks(graph.nodes, oag.nodes)
      modifies this, oag, budgetManager
      ensures Valid() && graph == old(graph)
      ensures forall t :: t in results <==> t in graph.nodes
      ensures forall t :: t in results && results[t].status != Skipped ==> DependenciesSatisfied(graph, results, t)
      ensures forall t :: t in results && results[t].status == Skipped ==> results[t] == NotSatisfied(t)
      ensures TopoSort(graph.nodes, graph.edges).Some? ==>
        forall t :: t in results ==> (results[t].status == Skipped <==> !DependenciesSatisfied(graph, results, t))
      ensures Now() ==
        VisitAfter(graph, OrderOrFallback(graph, graph.nodes), DriverState(RunState(old(oag.nodes), old(budgetManager.State())), map[]), failures)
    {
      var order := OrderOrFallback(graph, graph.nodes);
      OrderIsPermutation(graph, graph.nodes);
      PermutationDistinct(order, graph.nodes);
      ghost var topo := TopoSort(graph.nodes, graph.edges).Some?;
      VisitInOrder(order, failures, topo);
      forall t ensures t in results <==> t in graph.nodes {
        assert t in graph.nodes <==> t in multiset(order);
      }
    }

    /** The loop of `_execute_sequential` over an order of the graph's nodes; with `topo`, an
        order in which no edge points backwards. */
    method VisitInOrder(order: seq<string>, failures: Failures, ghost topo: bool)
      requires Valid() && WellFormed(graph) && results == map[] && AreTasks(graph.nodes, oag.nodes)
      requires multiset(order) == multiset(graph.nodes) && Distinct(order)
      requires topo ==> forall a, b :: 0 <= a <= b < |order| ==> (order[b], order[a]) !in graph.edges
      modifies this, oag, budgetManager
      ensures Valid() && graph == old(graph)
      ensures forall t :: t in results <==> t in order
      ensures SequentialInv(graph, results, topo)
      ensures Now() ==
        VisitAfter(graph, order, DriverState(RunState(old(oag.nodes), old(budgetManager.State())), old(results)), failures)
    {
      ghost var target := VisitAfter(graph, order, Now(), failures);
      var i := 0;
      while i < |order|
        invariant 0 <= i <= |order|
        invariant Valid() && graph == old(graph)
        invariant forall t :: t in results <==> t in order[..i]
        invariant AreTasks(graph.nodes, oag.nodes)
        invariant SequentialInv(graph, results, topo)
        invariant VisitAfter(graph, order[i..], Now(), failures) == target
      {
        VisitStep(order, i, failures, topo, target);
        i := i + 1;
      }
      assert order[..i] == order;
      assert order[i..] == [];
    }

    /** The turn of `order[i]` in `VisitInOrder`: the loop's invariant moves from `i` to `i + 1`. */
    method VisitStep(order: seq<string>, i: nat, failures: Failures, ghost topo: bool, ghost target: DriverState)
      requires Valid() && WellFormed(graph) && AreTasks(graph.nodes, oag.nodes)
      requires multiset(order) == multiset(graph.nodes) && Distinct(order) && i < |order|
      requires topo ==> forall a, b :: 0 <= a <= b < |order| ==> (order[b], order[a]) !in graph.edges
      requires forall t :: t in results <==> t in order[..i]
      requires SequentialInv(graph, results, topo)
      requires VisitAfter(graph, order[i..], Now(), failures) == target
      modifies this, oag, budgetManager
      ensures Valid() && graph == old(graph) && AreTasks(graph.nodes, oag.nodes)
      ensures forall t :: t in results <==> t in order[..i + 1]
      ensures SequentialInv(graph, results, topo)
      ensures VisitAfter(graph, order[i + 1..], Now(), failures) == target
    {
      var t := order[i];
      VisitAfterStep(graph, order, i, Now(), failures);
      PrefixStep(order, i);
      assert t !in order[..i];
      assert t in graph.nodes by { assert t in multiset(order); }
      if topo {
        PredsBefore(graph, order, i);
      }
      SequentialVisit(t, failures, topo);
    }

    /** One task of the sequential driver: run or skipped, and the driver's invariant kept. */
    method SequentialVisit(t: string, failures: Failures, ghost topo: bool)
      requires Valid() && t in graph.nodes && t !in results && AreTasks(graph.nodes, oag.nodes)
      requires SequentialInv(graph, results, topo) && (topo ==> Preds(graph, t) <= results.Keys)
      modifies this, oag, budgetManager
      ensures Valid() && graph == old(graph) && AreTasks(graph.nodes, oag.nodes)
      ensures SequentialInv(graph, results, topo)
      ensures forall k :: k in results <==> k in old(results) || k == t
      ensures Now() ==
        TurnAfter(graph, t, DriverState(RunState(old(oag.nodes), old(budgetManager.State())), old(results)), failures)
    {
      ghost var before, nodes := results, oag.nodes;
      RunIfSatisfied(t, failures);
      KindsKeepTasks(graph.nodes, nodes, oag.nodes);
      SequentialStep(graph, before, results, t, topo);
    }

    /** The turn of `tasks[j]` in the sequential branch: it meets the budget gate as the
        ledger stands now, and what is left of the wave still ends in `target`. */
    method EachTurn(tasks: seq<string>, j: nat, failures: Failures, ghost target: RunState,
                    ghost nodes0: map<string, Node>, ghost keys0: set<string>)
      requires Valid() && j < |tasks| && AreTasks(tasks[j..], oag.nodes) && SameKinds(nodes0, oag.nodes)
      requires EachAfter(tasks[j..], RunState(oag.nodes, budgetManager.State()), failures) == target
      requires forall t :: t in results <==> t in keys0 || t in tasks[..j]
      modifies this, oag, budgetManager
      ensures Valid() && graph == old(graph) && SameKinds(old(oag.nodes), oag.nodes)
      ensures AreTasks(tasks[j + 1..], oag.nodes) && SameKinds(nodes0, oag.nodes)
      ensures EachAfter(tasks[j + 1..], RunState(oag.nodes, budgetManager.State()), failures) == target
      ensures forall t :: t in results <==> t in old(results) || t == tasks[j]
      ensures forall t :: t in results <==> t in keys0 || t in tasks[..j + 1]
    {
      EachAfterStep(tasks, j, RunState(oag.nodes, budgetManager.State()), failures);
      ghost var nodes := oag.nodes;
      var proceed := budgetManager.CanProceed();
      RunTask(tasks[j], proceed, failures);
      KindsCompose(nodes0, nodes, oag.nodes);
      PrefixStep(tasks, j);
    }

    /** The sequential branch of `WaveExecutor.execute`: the tasks one by one, each behind the
        budget gate as it stands then. */
    method RunEach(tasks: seq<string>, failures: Failures)
      requires Valid() && AreTasks(tasks, oag.nodes)
      modifies this, oag, budgetManager
      ensures Valid() && graph == old(graph) && SameKinds(old(oag.nodes), oag.nodes)
      ensures forall t :: t in results <==> t in old(results) || t in tasks
      ensures RunState(oag.nodes, budgetManager.State()) ==
        EachAfter(tasks, RunState(old(oag.nodes), old(budgetManager.State())), failures)
    {
      ghost var s0 := RunState(oag.nodes, budgetManager.State());
      ghost var target := EachAfter(tasks, s0, failures);
      ghost var nodes0, keys0 := oag.nodes, results.Keys;
      var j := 0;
      while j < |tasks|
        invariant 0 <= j <= |tasks|
        invariant Valid() && graph == old(graph) && SameKinds(nodes0, oag.nodes)
        invariant AreTasks(tasks[j..], oag.nodes)
        invariant forall t :: t in results <==> t in keys0 || t in tasks[..j]
        invariant EachAfter(tasks[j..], RunState(oag.nodes, budgetManager.State()), failures) == target
      {
        EachTurn(tasks, j, failures, target, nodes0, keys0);
        j := j + 1;
      }
      assert tasks[..j] == tasks;
    }

    /** One wave of `WaveExecutor.execute`: a gathered round, or the tasks one by one. */
    method RunWave(wave: seq<string>, parallel: bool, failures: Failures)
      requires Valid() && Distinct(wave) && AreTasks(wave, oag.nodes)
      requires forall t :: t in wave ==> t !in results
      modifies this, oag, budgetManager
      ensures Valid() && graph == old(graph) && SameKinds(old(oag.nodes), oag.nodes)
      ensures forall t :: t in results <==> t in old(results) || t in wave
      ensures RunState(oag.nodes, budgetManager.State()) ==
        WaveAfter(wave, parallel, RunState(old(oag.nodes), old(budgetManager.State())), failures)
      ensures parallel ==>
        results == old(results) + RoundResults(wave, old(oag.nodes), GateOpen(old(budgetManager.State())), failures)
    {
      if parallel {
        ExecuteRound(wave, failures);
      } else {
        RunEach(wave, failures);
      }
    }

    /** Wave `k` of `WaveExecutor.execute`, run from the state the waves before it left. */
    method RunWaveAt(waves: seq<seq<string>>, k: nat, parallel: bool, failures: Failures,
                     ghost s0: RunState, ghost states: seq<RunState>) returns (ghost next: RunState)
      requires Valid() && Placed(waves) && k < |waves| && Distinct(waves[k])
      requires forall t :: t in graph.nodes <==> WaveIndex(waves, t) >= 0
      requires AreTasks(graph.nodes, oag.nodes)
      requires forall t :: t in results <==> 0 <= WaveIndex(waves, t) < k
      requires |states| == k && WavesChained(waves, parallel, s0, states, failures)
      requires RunState(oag.nodes, budgetManager.State()) == Before(states, s0, k)
      modifies this, oag, budgetManager
      ensures Valid() && graph == old(graph) && AreTasks(graph.nodes, oag.nodes)
      ensures forall t :: t in results <==> 0 <= WaveIndex(waves, t) <= k
      ensures next == RunState(oag.nodes, budgetManager.State())
      ensures WavesChained(waves, parallel, s0, states + [next], failures)
      ensures Before(states + [next], s0, k + 1) == next
    {
      WaveMembers(waves, k);
      ghost var nodes := oag.nodes;
      RunWave(waves[k], parallel, failures);
      KindsKeepTasks(graph.nodes, nodes, oag.nodes);
      next := RunState(oag.nodes, budgetManager.State());
      WavesChainedStep(waves, parallel, s0, states, failures, next);
    }

    /** `WaveExecutor.execute`: builds the task graph of the OAG, then runs the waves of
        `_calculate_waves` one after another, each as a gathered round or task by task,
        stopping after the first wave that leaves the budget gate closed. `ran` is the number of waves executed; `states[k]` is the node map and
        ledger after wave `k`, each wave run from the state the one before it left. */
    method ExecuteInWaves(parallel: bool, failures: Failures)
      returns (waves: seq<seq<string>>, ran: nat, ghost states: seq<RunState>)
      requires Valid() && results == map[]
      modifies this, oag, budgetManager
      ensures Valid() && IsExecutionGraph(graph, old(TaskIds()), old(oag.edges))
      ensures forall k :: 0 <= k < |waves| ==> waves[k] != []
      ensures forall t :: t in graph.nodes <==> WaveIndex(waves, t) >= 0
      ensures ran <= |waves| && |states| == ran
      ensures forall t :: t in results <==> 0 <= WaveIndex(waves, t) < ran
      ensures WavesChained(waves, parallel, RunState(old(oag.nodes), old(budgetManager.State())), states, failures)
      ensures ran > 0 ==> GatesOpen(states, ran - 1)
      ensures ran < |waves| ==> ran > 0 && !GateOpen(states[ran - 1].ledger)
      ensures RunState(oag.nodes, budgetManager.State()) ==
        Before(states, RunState(old(oag.nodes), old(budgetManager.State())), ran)
    {
      ghost var s0 := RunState(oag.nodes, budgetManager.State());
      var taskIds := TaskIds();
      TaskOrderDistinct(oag.order, oag.nodes);
      graph := BuildExecutionGraph(taskIds, oag.edges);
      BuiltGraphWellFormed(taskIds, oag.edges, graph);
      ghost var g := graph;
      waves := CalculateWaves(graph);
      ran := 0;
      states := [];
      while ran < |waves|
        invariant ran <= |waves| && |states| == ran
        invariant Valid() && graph == g
        invariant AreTasks(graph.nodes, oag.nodes)
        invariant forall t :: t in results <==> 0 <= WaveIndex(waves, t) < ran
        invariant WavesChained(waves, parallel, s0, states, failures)
        invariant GatesOpen(states, ran)
        invariant RunState(oag.nodes, budgetManager.State()) == Before(states, s0, ran)
      {
        ghost var next := RunWaveAt(waves, ran, parallel, failures, s0, states);
        GatesOpenStep(states, next);
        states := states + [next];
        ran := ran + 1;
        if !budgetManager.CanProceed() {
          break;
        }
      }
    }

    /** `execute`: builds the task graph, stops with no result when the budget gate is already
        closed, and otherwise runs the parallel or the sequential driver. In parallel mode
        `rounds` and `states` are the driver's rounds and the states they left. */
    method Execute(parallel: bool, failures: Failures)
      returns (r: map<string, ExecResult>, ghost rounds: seq<seq<string>>, ghost states: seq<DriverState>)
      requires Valid() && results == map[]
      modifies this, oag, budgetManager
      ensures Valid()
      ensures IsExecutionGraph(graph, old(TaskIds()), old(oag.edges))
      ensures !old(budgetManager.CanProceed()) ==>
        r == map[] && results == map[] && oag.nodes == old(oag.nodes) && budgetManager.State() == old(budgetManager.State())
      ensures old(budgetManager.CanProceed()) ==> r == results
      ensures forall t :: t in results ==> t in graph.nodes
      ensures parallel ==>
        ParallelRun(graph, RunState(old(oag.nodes), old(budgetManager.State())), Now(), rounds, states, failures)
      ensures parallel && old(budgetManager.CanProceed()) ==>
        forall t :: t in graph.nodes ==> (t in results <==> DependenciesSatisfied(graph, results, t))
      ensures !parallel ==> SequentialRun(graph, RunState(old(oag.nodes), old(budgetManager.State())), Now(), failures)
      ensures !parallel && old(budgetManager.CanProceed()) ==> forall t :: t in results <==> t in graph.nodes
      ensures !parallel ==>
        forall t :: t in results && results[t].status != Skipped ==> DependenciesSatisfied(graph, results, t)
    {
      rounds, states := [], [];
      var taskIds := TaskIds();
      TaskOrderDistinct(oag.order, oag.nodes);
      graph := BuildExecutionGraph(taskIds, oag.edges);
      BuiltGraphWellFormed(taskIds, oag.edges, graph);
      if !budgetManager.CanProceed() {
        return map[], rounds, states;
      }
      if parallel {
        rounds, states := ExecuteParallel(failures);
      } else {
        ExecuteSequential(failures);
      }
      r := results;
    }

    /** `get_progress`. */
    function GetProgress(): (p: Progress)
      reads this, oag, budgetManager
      requires Valid()
      ensures p.total == |GetTasks(oag.nodes)|
      ensures p.completed + p.failed <= |resultOrder|
      ensures p.inProgress == p.total - p.completed - p.failed
      ensures p.completed == |set k | k in results && results[k].status == Done|
      ensures p.failed == |set k | k in results && results[k].status == Failed|
      ensures p.total > 0 ==> p.completionRate == p.completed as real / p.total as real * 100.0
      ensures p.total == 0 ==> p.completionRate == 0.0
      ensures p.totalCost == CostSum(resultOrder, results)
      ensures p.budgetRemaining == Remaining(budgetManager.spent, budgetManager.budget.caps)
    {
      CountStatusIsCardinality(resultOrder, results, Done);
      CountStatusIsCardinality(resultOrder, results, Failed);
      assert WithStatus(resultOrder, results, Done) == set k | k in results && results[k].status == Done;
      assert WithStatus(resultOrder, results, Failed) == set k | k in results && results[k].status == Failed;
      ProgressOf(|GetTasks(oag.nodes)|, resultOrder, results, Remaining(budgetManager.spent, budgetManager.budget.caps))
    }
  }
}
