/** Cyclic workflows: the plan made at each completion and why no loop runs forever. */
module Cyclic {
  import opened Common

  datatype OutEdge = OutEdge(port: string, dst: nat)

  /** `out[n]` are node `n`'s out-edges in order. */
  datatype Graph = Graph(out: seq<seq<OutEdge>>, maxAutoDepth: nat)

  datatype Task = Task(node: nat, activation: nat, depth: nat)

  datatype Plan = Continue(tasks: seq<Task>) | Complete(success: bool)

  predicate GraphOk(g: Graph) {
    forall n | 0 <= n < |g.out| :: forall k | 0 <= k < |g.out[n]| :: g.out[n][k].dst < |g.out|
  }

  /** The destinations the active port leads to. */
  function Targets(g: Graph, n: nat, port: string): set<nat>
    requires n < |g.out|
  {
    set k | 0 <= k < |g.out[n]| && g.out[n][k].port == port :: g.out[n][k].dst
  }

  /** What a completion schedules: nothing on the active port ends the run in success,
      going past the depth limit ends it in failure, and otherwise every destination
      gets exactly one task of the next activation and depth. */
  predicate PlanOk(g: Graph, t: Task, port: string, plan: Plan)
    requires t.node < |g.out|
  {
    var targets := Targets(g, t.node, port);
    if targets == {} then plan == Complete(true)
    else if t.depth + 1 > g.maxAutoDepth then plan == Complete(false)
    else
      && plan.Continue?
      && (forall k | 0 <= k < |plan.tasks| ::
           plan.tasks[k].node in targets && plan.tasks[k] == Task(plan.tasks[k].node, t.activation + 1, t.depth + 1))
      && (forall j, k | 0 <= j < k < |plan.tasks| :: plan.tasks[j].node != plan.tasks[k].node)
      && (forall n :: n in targets ==> Task(n, t.activation + 1, t.depth + 1) in plan.tasks)
  }

  method PlanCyclicDownstream(g: Graph, t: Task, port: string) returns (plan: Plan)
    requires t.node < |g.out|
    ensures PlanOk(g, t, port, plan)
  {
    var edges := g.out[t.node];
    if |edges| == 0 { return Complete(true); }
    var tasks: seq<Task>, seen: set<nat> := [], {};
    for i := 0 to |edges|
      invariant seen == set k | 0 <= k < i && edges[k].port == port :: edges[k].dst
      invariant seen != {} ==> t.depth + 1 <= g.maxAutoDepth
      invariant forall k | 0 <= k < |tasks| ::
        tasks[k].node in seen && tasks[k] == Task(tasks[k].node, t.activation + 1, t.depth + 1)
      invariant forall j, k | 0 <= j < k < |tasks| :: tasks[j].node != tasks[k].node
      invariant forall n :: n in seen ==> Task(n, t.activation + 1, t.depth + 1) in tasks
      invariant tasks == [] ==> seen == {}
    {
      var e := edges[i];
      if e.port != port { continue; }
      assert e.dst in Targets(g, t.node, port);
      if t.depth + 1 > g.maxAutoDepth { return Complete(false); }
      if e.dst in seen { continue; }
      seen := seen + {e.dst};
      tasks := tasks + [Task(e.dst, t.activation + 1, t.depth + 1)];
    }
    assert seen == Targets(g, t.node, port);
    if |tasks| == 0 { return Complete(true); }
    assert tasks[0].node in seen;
    return Continue(tasks);
  }

  // ---- Runs ----

  /** `written` are all tasks ever written; a step completes one of them, in any order
      and any number of times, or writes one again as a retry or a reclaim does. */
  datatype Step = Completes(task: Task, plan: Plan) | Rewrites(task: Task)

  ghost predicate StepOk(g: Graph, written: set<Task>, step: Step) {
    && step.task in written && step.task.node < |g.out|
    && (step.Completes? ==> exists port :: PlanOk(g, step.task, port, step.plan))
  }

  function Apply(written: set<Task>, step: Step): set<Task> {
    match step
    case Completes(_, Continue(tasks)) => written + set t | t in tasks
    case Completes(_, Complete(_)) => written
    case Rewrites(t) => written + {t}
  }

  ghost predicate RunOk(g: Graph, written: set<Task>, steps: seq<Step>)
    decreases |steps|
  {
    steps == [] || (StepOk(g, written, steps[0]) && RunOk(g, Apply(written, steps[0]), steps[1..]))
  }

  function Written(written: set<Task>, steps: seq<Step>): set<Task>
    decreases |steps|
  {
    if steps == [] then written else Written(Apply(written, steps[0]), steps[1..])
  }

  /** Entry tasks carry activation one and depth zero. */
  predicate Initial(g: Graph, written: set<Task>) {
    forall t :: t in written ==> t.node < |g.out| && t.activation == 1 && t.depth == 0
  }

  predicate Bounded(g: Graph, written: set<Task>) {
    forall t :: t in written ==> t.node < |g.out| && t.activation == t.depth + 1 && t.depth <= g.maxAutoDepth
  }

  lemma {:induction false} RunBounded(g: Graph, written: set<Task>, steps: seq<Step>)
    requires GraphOk(g) && Bounded(g, written) && RunOk(g, written, steps)
    ensures Bounded(g, Written(written, steps))
    decreases |steps|
  {
    if steps != [] {
      var next := Apply(written, steps[0]);
      forall t | t in next ensures t.node < |g.out| && t.activation == t.depth + 1 && t.depth <= g.maxAutoDepth {
        if t !in written { NewTask(g, written, steps[0], t); }
      }
      RunBounded(g, next, steps[1..]);
    }
  }

  lemma NewTask(g: Graph, written: set<Task>, step: Step, t: Task)
    requires GraphOk(g) && Bounded(g, written) && StepOk(g, written, step) && t in Apply(written, step) && t !in written
    ensures t.node < |g.out| && t.activation == t.depth + 1 && t.depth <= g.maxAutoDepth
  {
    var port :| PlanOk(g, step.task, port, step.plan);
    var k :| 0 <= k < |step.plan.tasks| && step.plan.tasks[k] == t;
    var e :| 0 <= e < |g.out[step.task.node]| && g.out[step.task.node][e].port == port
      && g.out[step.task.node][e].dst == t.node;
  }

  lemma {:induction false} WrittenStays(written: set<Task>, steps: seq<Step>)
    ensures written <= Written(written, steps)
    decreases |steps|
  {
    if steps != [] { WrittenStays(Apply(written, steps[0]), steps[1..]); }
  }

  /** What a completion of the run plans is written, and so is what is written again; and
      nothing written is ever unwritten. */
  lemma {:induction false} PlannedIsWritten(written: set<Task>, steps: seq<Step>, k: nat)
    requires k < |steps|
    ensures steps[k].Rewrites? ==> steps[k].task in Written(written, steps)
    ensures steps[k].Completes? && steps[k].plan.Continue? ==>
      forall t :: t in steps[k].plan.tasks ==> t in Written(written, steps)
    ensures written <= Written(written, steps)
    decreases |steps|
  {
    WrittenStays(Apply(written, steps[0]), steps[1..]);
    if k > 0 { PlannedIsWritten(Apply(written, steps[0]), steps[1..], k - 1); }
  }

  function Grid(nodes: nat, depths: nat): (grid: set<Task>)
    ensures |grid| == nodes * depths
    ensures forall t :: t in grid <==> t.node < nodes && t.depth < depths && t.activation == t.depth + 1
  {
    if depths == 0 then {}
    else
      var row := Row(nodes, depths - 1);
      assert Grid(nodes, depths - 1) !! row;
      Grid(nodes, depths - 1) + row
  }

  function Row(nodes: nat, depth: nat): (row: set<Task>)
    ensures |row| == nodes
    ensures forall t :: t in row <==> t.node < nodes && t.depth == depth && t.activation == depth + 1
  {
    if nodes == 0 then {} else Row(nodes - 1, depth) + {Task(nodes - 1, depth + 1, depth)}
  }

  /** In a cyclic run every task, redeliveries, retries and reclaims included, has an
      activation one above its depth and a depth within the limit, so at most nodes
      times (limit + 1) different activations are ever written. */
  lemma CyclicRunsEnd(g: Graph, start: set<Task>, steps: seq<Step>)
    requires GraphOk(g) && Initial(g, start) && RunOk(g, start, steps)
    ensures Bounded(g, Written(start, steps))
    ensures |Written(start, steps)| <= |g.out| * (g.maxAutoDepth + 1)
  {
    RunBounded(g, start, steps);
    var grid := Grid(|g.out|, g.maxAutoDepth + 1);
    assert Written(start, steps) <= grid;
    Subset(Written(start, steps), grid);
  }
}
