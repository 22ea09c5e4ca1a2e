/**
 * `LocalTaskRunner.run`: hires the C-suite and the ICs, then works through the tasklets in
 * order, routing the obvious ones to a tool adapter, and publishes one event per step.
 */
module CoreRunning {
  import opened Wrappers
  import opened Strs
  import opened CoreModels
  import opened Adapters

  /** Where a tasklet is sent, decided by its title. */
  datatype Route = GitHubRoute | GDriveRoute | Unrouted

  /** An issue or GitHub title goes to the issues adapter; failing that, a doc or summary title
      goes to the documents adapter; every other tasklet is simulated. */
  function RouteOf(title: string): Route {
    var l := Lower(title);
    if Contains(l, "issue") || Contains(l, "github") then GitHubRoute
    else if Contains(l, "doc") || Contains(l, "summary") then GDriveRoute
    else Unrouted
  }

  /** The registry name of a route's adapter. */
  function AdapterFor(route: Route): string
    requires route != Unrouted
  {
    if route == GitHubRoute then "github_issues" else "gdrive_docs"
  }

  /** The request the runner hands an adapter. */
  datatype ToolRequest = CreateIssue(title: string, body: string) | CreateDoc(title: string, markdownBody: string)

  /** What lands in the artifacts dictionary: the adapter's reply to a request (the reply
      itself comes from the network and is represented by the request), or the simulated note. */
  datatype Artifact = AdapterReply(adapter: string, request: ToolRequest) | SimulatedNote

  function RequestFor(route: Route, t: Tasklet): ToolRequest
    requires route != Unrouted
  {
    if route == GitHubRoute then CreateIssue(t.title, "Auto-created for " + t.role)
    else CreateDoc(t.title, "# " + t.title + "\nSeed document")
  }

  /** The artifact key: `github:<id>`, `gdrive:<id>` or the bare id. */
  function KeyOf(t: Tasklet): string {
    match RouteOf(t.title)
    case GitHubRoute => "github:" + t.id
    case GDriveRoute => "gdrive:" + t.id
    case Unrouted => t.id
  }

  function ArtifactOf(t: Tasklet): Artifact {
    var route := RouteOf(t.title);
    if route == Unrouted then SimulatedNote else AdapterReply(AdapterFor(route), RequestFor(route, t))
  }

  /** A routed tasklet whose adapter is registered: it adds an artifact and a spend. */
  predicate Spends(t: Tasklet, registered: set<string>) {
    RouteOf(t.title) != Unrouted && AdapterFor(RouteOf(t.title)) in registered
  }

  /** A tasklet that adds an artifact: an unrouted one, or one that spends. */
  predicate Writes(t: Tasklet, registered: set<string>) {
    RouteOf(t.title) == Unrouted || Spends(t, registered)
  }

  /** The artifacts dictionary after the given tasklets, later writes overwriting earlier ones. */
  function Artifacts(ts: seq<Tasklet>, registered: set<string>): map<string, Artifact>
    decreases |ts|
  {
    if ts == [] then map[]
    else
      var prev := Artifacts(ts[..|ts| - 1], registered);
      var t := ts[|ts| - 1];
      if Writes(t, registered) then prev[KeyOf(t) := ArtifactOf(t)] else prev
  }

  /** How many of the tasklets spend. */
  function SpendCount(ts: seq<Tasklet>, registered: set<string>): (n: nat)
    ensures n <= |ts|
    decreases |ts|
  {
    if ts == [] then 0
    else SpendCount(ts[..|ts| - 1], registered) + (if Spends(ts[|ts| - 1], registered) then 1 else 0)
  }

  function PhaseEvent(prdId: string): CoreEvent {
    CoreEvent(PHASE_CHANGE, "Execution started", None, None, Some(prdId))
  }

  function HireEvent(r: Role, prdId: string): CoreEvent {
    CoreEvent(HIRE, "Hired " + r.name, Some(r.name), None, Some(prdId))
  }

  function StartedEvent(t: Tasklet, prdId: string): CoreEvent {
    CoreEvent(TASK_STARTED, "Task " + t.title + " started", Some(t.role), Some(t.id), Some(prdId))
  }

  function DoneEvent(t: Tasklet, prdId: string): CoreEvent {
    CoreEvent(TASK_DONE, "Task " + t.title + " done", Some(t.role), Some(t.id), Some(prdId))
  }

  function FinishedEvent(prdId: string): CoreEvent {
    CoreEvent(FINISHED, "Execution finished", None, None, Some(prdId))
  }

  /** One hire event per role, in order. */
  function HireEvents(roles: seq<Role>, prdId: string): seq<CoreEvent>
    decreases |roles|
  {
    if roles == [] then [] else HireEvents(roles[..|roles| - 1], prdId) + [HireEvent(roles[|roles| - 1], prdId)]
  }

  /** A started and a done event per tasklet, in order. */
  function TaskEvents(ts: seq<Tasklet>, prdId: string): seq<CoreEvent>
    decreases |ts|
  {
    if ts == [] then []
    else TaskEvents(ts[..|ts| - 1], prdId) + [StartedEvent(ts[|ts| - 1], prdId), DoneEvent(ts[|ts| - 1], prdId)]
  }

  /** Everything one run publishes. */
  function RunEvents(org: OrganizationGraph): seq<CoreEvent> {
    [PhaseEvent(org.prdId)] + HireEvents(org.cSuite + org.ics, org.prdId) + TaskEvents(org.tasklets, org.prdId)
      + [FinishedEvent(org.prdId)]
  }

  class LocalTaskRunner {
    var registry: ToolRegistry
    var spent: real
    /** The events handed to the bus, in publication order. */
    var published: seq<CoreEvent>

    /** `LocalTaskRunner(bus, registry)`: the given registry, or the default one; nothing spent. */
    constructor (registry: ToolRegistry?)
      ensures registry != null ==> this.registry == registry
      ensures registry == null ==> (fresh(this.registry) &&
        this.registry.adapters == map["github_issues" := GitHubIssuesAdapter, "gdrive_docs" := GDriveDocsAdapter])
      ensures spent == 0.0 && published == []
    {
      if registry != null {
        this.registry := registry;
      } else {
        var d := ToolRegistry.Default();
        this.registry := d;
      }
      spent := 0.0;
      published := [];
    }

    method Emit(e: CoreEvent)
      modifies this
      ensures published == old(published) + [e]
      ensures spent == old(spent) && registry == old(registry)
    {
      published := published + [e];
    }

    /** `run`: publishes the phase change, the hires, a started/done pair per tasklet and the
        finish; fills the artifacts by route; adds 0.01 per tasklet handled by a registered
        adapter to the runner's running total, which it returns. */
    method Run(org: OrganizationGraph) returns (artifacts: map<string, Artifact>, cost: real)
      modifies this
      ensures registry == old(registry)
      ensures published == old(published) + RunEvents(org)
      ensures artifacts == Artifacts(org.tasklets, registry.adapters.Keys)
      ensures spent == old(spent) + 0.01 * SpendCount(org.tasklets, registry.adapters.Keys) as real
      ensures cost == spent
    {
      Emit(PhaseEvent(org.prdId));
      HireAll(org.cSuite + org.ics, org.prdId);
      artifacts := RunTasklets(org.tasklets, org.prdId);
      Emit(FinishedEvent(org.prdId));
      cost := spent;
    }

    /** The tasklet loop, in list order. */
    method RunTasklets(ts: seq<Tasklet>, prdId: string) returns (artifacts: map<string, Artifact>)
      modifies this
      ensures registry == old(registry)
      ensures published == old(published) + TaskEvents(ts, prdId)
      ensures artifacts == Artifacts(ts, registry.adapters.Keys)
      ensures spent == old(spent) + 0.01 * SpendCount(ts, registry.adapters.Keys) as real
    {
      ghost var registered := registry.adapters.Keys;
      artifacts := map[];
      var k := 0;
      while k < |ts|
        invariant 0 <= k <= |ts|
        invariant registry == old(registry) && registry.adapters.Keys == registered
        invariant published == old(published) + TaskEvents(ts[..k], prdId)
        invariant artifacts == Artifacts(ts[..k], registered)
        invariant spent == old(spent) + 0.01 * SpendCount(ts[..k], registered) as real
      {
        assert ts[..k + 1][..k] == ts[..k];
        artifacts := RunTasklet(ts[k], prdId, artifacts);
        k := k + 1;
      }
      assert ts[..k] == ts;
    }

    /** The hire loop: one hire event per role, in order. */
    method HireAll(roles: seq<Role>, prdId: string)
      modifies this
      ensures published == old(published) + HireEvents(roles, prdId)
      ensures spent == old(spent) && registry == old(registry)
    {
      var i := 0;
      while i < |roles|
        invariant 0 <= i <= |roles|
        invariant registry == old(registry) && spent == old(spent)
        invariant published == old(published) + HireEvents(roles[..i], prdId)
      {
        assert roles[..i + 1][..i] == roles[..i];
        Emit(HireEvent(roles[i], prdId));
        i := i + 1;
      }
      assert roles[..i] == roles;
    }

    /** One tasklet: its started event, the routed or simulated work, its done event. */
    method RunTasklet(t: Tasklet, prdId: string, artifacts: map<string, Artifact>) returns (after: map<string, Artifact>)
      modifies this
      ensures published == old(published) + [StartedEvent(t, prdId), DoneEvent(t, prdId)]
      ensures after == if Writes(t, registry.adapters.Keys) then artifacts[KeyOf(t) := ArtifactOf(t)] else artifacts
      ensures spent == old(spent) + if Spends(t, registry.adapters.Keys) then 0.01 else 0.0
      ensures registry == old(registry)
    {
      Emit(StartedEvent(t, prdId));
      after := artifacts;
      var route := RouteOf(t.title);
      if route != Unrouted {
        var adapter := registry.Get(AdapterFor(route));
        if adapter.Some? {
          after := after[KeyOf(t) := AdapterReply(AdapterFor(route), RequestFor(route, t))];
          spent := spent + 0.01;
        }
      } else {
        after := after[t.id := SimulatedNote];
      }
      Emit(DoneEvent(t, prdId));
    }
  }

  // ---------------------------------------------------------------------------
  // Properties of a run

  lemma {:induction false} HireEventsAt(roles: seq<Role>, prdId: string)
    ensures |HireEvents(roles, prdId)| == |roles|
    ensures forall i :: 0 <= i < |roles| ==> HireEvents(roles, prdId)[i] == HireEvent(roles[i], prdId)
    decreases |roles|
  {
    if roles != [] {
      HireEventsAt(roles[..|roles| - 1], prdId);
    }
  }

  lemma {:induction false} TaskEventsAt(ts: seq<Tasklet>, prdId: string)
    ensures |TaskEvents(ts, prdId)| == 2 * |ts|
    ensures forall i :: 0 <= i < |ts| ==>
      TaskEvents(ts, prdId)[2 * i] == StartedEvent(ts[i], prdId) &&
      TaskEvents(ts, prdId)[2 * i + 1] == DoneEvent(ts[i], prdId)
    decreases |ts|
  {
    if ts != [] {
      TaskEventsAt(ts[..|ts| - 1], prdId);
    }
  }

  /** The published order: the phase change first; then one hire per C-suite role and per IC
      (never a VP); then, per tasklet in list order, its started event immediately followed by
      its done event; the finish last. */
  lemma RunEventsOrder(org: OrganizationGraph)
    ensures |RunEvents(org)| == 2 + |org.cSuite| + |org.ics| + 2 * |org.tasklets|
    ensures RunEvents(org)[0] == PhaseEvent(org.prdId)
    ensures RunEvents(org)[|RunEvents(org)| - 1] == FinishedEvent(org.prdId)
    ensures forall i :: 0 <= i < |org.cSuite| + |org.ics| ==>
      RunEvents(org)[1 + i] == HireEvent((org.cSuite + org.ics)[i], org.prdId)
    ensures forall i :: 0 <= i < |org.tasklets| ==>
      RunEvents(org)[1 + |org.cSuite| + |org.ics| + 2 * i] == StartedEvent(org.tasklets[i], org.prdId) &&
      RunEvents(org)[2 + |org.cSuite| + |org.ics| + 2 * i] == DoneEvent(org.tasklets[i], org.prdId)
  {
    var roles := org.cSuite + org.ics;
    RunEventsEnds(org);
    forall i | 0 <= i < |roles| ensures RunEvents(org)[1 + i] == HireEvent(roles[i], org.prdId) {
      HireAt(org, i);
    }
    forall i | 0 <= i < |org.tasklets|
      ensures RunEvents(org)[1 + |roles| + 2 * i] == StartedEvent(org.tasklets[i], org.prdId)
      ensures RunEvents(org)[2 + |roles| + 2 * i] == DoneEvent(org.tasklets[i], org.prdId)
    {
      TaskPairAt(org, i);
    }
  }

  /** The length of a run's events, its first event and its last. */
  lemma RunEventsEnds(org: OrganizationGraph)
    ensures |RunEvents(org)| == 2 + |org.cSuite + org.ics| + 2 * |org.tasklets|
    ensures RunEvents(org)[0] == PhaseEvent(org.prdId)
    ensures RunEvents(org)[|RunEvents(org)| - 1] == FinishedEvent(org.prdId)
  {
    var roles := org.cSuite + org.ics;
    HireEventsAt(roles, org.prdId);
    TaskEventsAt(org.tasklets, org.prdId);
    BracketedEnds(PhaseEvent(org.prdId), HireEvents(roles, org.prdId), TaskEvents(org.tasklets, org.prdId),
      FinishedEvent(org.prdId));
  }

  /** The `i`-th hire of a run. */
  lemma HireAt(org: OrganizationGraph, i: nat)
    requires i < |org.cSuite + org.ics|
    ensures |RunEvents(org)| == 2 + |org.cSuite + org.ics| + 2 * |org.tasklets|
    ensures RunEvents(org)[1 + i] == HireEvent((org.cSuite + org.ics)[i], org.prdId)
  {
    var roles := org.cSuite + org.ics;
    HireEventsAt(roles, org.prdId);
    TaskEventsAt(org.tasklets, org.prdId);
    MiddleAt(PhaseEvent(org.prdId), HireEvents(roles, org.prdId), TaskEvents(org.tasklets, org.prdId),
      FinishedEvent(org.prdId), i);
  }

  /** The two events of the `i`-th tasklet of a run. */
  lemma TaskPairAt(org: OrganizationGraph, i: nat)
    requires i < |org.tasklets|
    ensures |RunEvents(org)| == 2 + |org.cSuite + org.ics| + 2 * |org.tasklets|
    ensures RunEvents(org)[1 + |org.cSuite + org.ics| + 2 * i] == StartedEvent(org.tasklets[i], org.prdId)
    ensures RunEvents(org)[2 + |org.cSuite + org.ics| + 2 * i] == DoneEvent(org.tasklets[i], org.prdId)
  {
    var roles := org.cSuite + org.ics;
    var hires := HireEvents(roles, org.prdId);
    var tasks := TaskEvents(org.tasklets, org.prdId);
    HireEventsAt(roles, org.prdId);
    TaskEventsAt(org.tasklets, org.prdId);
    RestAt(PhaseEvent(org.prdId), hires, tasks, FinishedEvent(org.prdId), 2 * i);
    RestAt(PhaseEvent(org.prdId), hires, tasks, FinishedEvent(org.prdId), 2 * i + 1);
  }

  /** The length and the two ends of `[first] + middle + rest + [last]`. */
  lemma BracketedEnds<E>(first: E, middle: seq<E>, rest: seq<E>, last: E)
    ensures |[first] + middle + rest + [last]| == 2 + |middle| + |rest|
    ensures ([first] + middle + rest + [last])[0] == first
    ensures ([first] + middle + rest + [last])[1 + |middle| + |rest|] == last
  {
  }

  /** The `i`-th element of the middle part of `[first] + middle + rest + [last]`. */
  lemma MiddleAt<E>(first: E, middle: seq<E>, rest: seq<E>, last: E, i: nat)
    requires i < |middle|
    ensures ([first] + middle + rest + [last])[1 + i] == middle[i]
  {
  }

  /** The `j`-th element of the rest part of `[first] + middle + rest + [last]`. */
  lemma RestAt<E>(first: E, middle: seq<E>, rest: seq<E>, last: E, j: nat)
    requires j < |rest|
    ensures ([first] + middle + rest + [last])[1 + |middle| + j] == rest[j]
  {
  }

  /** The artifact keys are exactly the keys of the tasklets that write one: unrouted tasklets
      and those whose adapter is registered. */
  lemma {:induction false} ArtifactKeys(ts: seq<Tasklet>, registered: set<string>, key: string)
    ensures key in Artifacts(ts, registered) <==>
      exists i :: 0 <= i < |ts| && Writes(ts[i], registered) && KeyOf(ts[i]) == key
    decreases |ts|
  {
    if ts != [] {
      var init := ts[..|ts| - 1];
      ArtifactKeys(init, registered, key);
      if key in Artifacts(ts, registered) && key !in Artifacts(init, registered) {
        assert KeyOf(ts[|ts| - 1]) == key;
      }
      if key in Artifacts(init, registered) {
        var i :| 0 <= i < |init| && Writes(init[i], registered) && KeyOf(init[i]) == key;
        assert ts[i] == init[i];
      }
      if exists i :: 0 <= i < |ts| && Writes(ts[i], registered) && KeyOf(ts[i]) == key {
        var i :| 0 <= i < |ts| && Writes(ts[i], registered) && KeyOf(ts[i]) == key;
        if i < |init| {
          assert init[i] == ts[i];
        }
      }
    }
  }

  /** A tasklet's artifact survives unless a later tasklet writes the same key. */
  lemma {:induction false} ArtifactValue(ts: seq<Tasklet>, registered: set<string>, i: nat)
    requires i < |ts| && Writes(ts[i], registered)
    requires forall j :: i < j < |ts| && Writes(ts[j], registered) ==> KeyOf(ts[j]) != KeyOf(ts[i])
    ensures KeyOf(ts[i]) in Artifacts(ts, registered)
    ensures Artifacts(ts, registered)[KeyOf(ts[i])] == ArtifactOf(ts[i])
    decreases |ts|
  {
    if i < |ts| - 1 {
      var init := ts[..|ts| - 1];
      assert init[i] == ts[i];
      forall j | i < j < |init| && Writes(init[j], registered)
        ensures KeyOf(init[j]) != KeyOf(init[i])
      {
        assert init[j] == ts[j];
      }
      ArtifactValue(init, registered, i);
    }
  }
}
