/** The durable store's scheduling state and the transitions the engine drives
    over it. A run is any sequence of actions: deliveries repeat, overtake each
    other and arrive after the execution has ended, because an action only needs
    its task to have been written at some earlier point (`log` never shrinks). */
module Store {
  import opened Units

  datatype Backend = Memory | Redis

  /** `fold` says the store applies a commit's arrivals inside the commit;
      otherwise the commit leaves an advance task behind that applies them. */
  datatype Config = Config(g: Graph, fold: bool, backend: Backend, disabled: set<nat>, pinned: set<nat>)

  /** `Seeded` marks a unit a rerun copied: its decision is made and nothing may
      make it again. */
  datatype Marker = Unset | Execute | Skip | Seeded

  datatype Cell = Cell(inDegree: int, active: int, marker: Marker)

  datatype How = Success | Failed | Continued | Skipped | Disabled | Pinned | Canceled

  /** `Idle` is an absent or pending row, `Parked` a suspended one. A lease that
      waits on child executions has `waiting` set. */
  datatype Row = Idle | Leased(token: nat, waiting: bool) | Parked | Done(how: How, fired: set<Port>)

  datatype Exec = Running | Canceling | Succeeded | Broken | Cancelled | TimedOut

  datatype Task = ExecTask(unit: nat) | SkipTask(unit: nat) | AdvanceTask(unit: nat) | MergeCancelTask(unit: nat)

  /** `settled` holds the units whose arrivals have been applied and `order` the order
      they were applied in, `log` every task ever written, `pending` the tasks the
      outbox or the queue still holds. */
  datatype State = State(
    cells: seq<Cell>,
    rows: seq<Row>,
    settled: set<nat>,
    order: seq<nat>,
    remaining: int,
    failed: int,
    exec: Exec,
    log: set<Task>,
    pending: set<Task>)

  datatype Arrival = Arrival(count: nat, active: nat, mode: Mode)

  datatype Action =
    | Lease(unit: nat, token: nat)
    | Wait(unit: nat, token: nat)
    | Suspend(unit: nat, token: nat)
    | Requeue(unit: nat, token: nat)
    | Commit(unit: nat, token: nat, how: How, fired: set<Port>, fatal: bool, cancels: bool)
    | ServeDisabled(unit: nat)
    | ServePinned(unit: nat)
    | HandleSkip(unit: nat)
    | HandleAdvance(unit: nat)
    | HandleMergeCancel(merge: nat, unit: nat)
    | BeginCancel
    | CancelParked(unit: nat)
    | FinishCancel
    | Expire
    | Drop(task: Task)

  predicate Active(e: Exec) { e.Running? || e.Canceling? }

  function MainPort(g: Graph, u: nat): set<Port>
    requires u < |g.nodes|
  {
    {Exit(g.nodes[u], "main")}
  }

  // ---- Initial states ----

  function Init(cfg: Config, entries: set<nat>): (s: State)
    ensures |cfg.g.nodes| == |cfg.g.modes| == |cfg.g.unitModes| == |cfg.g.skips| == Size(cfg.g) ==> Fits(cfg, s)
  {
    var g := cfg.g;
    var skipped := set u | 0 <= u < Size(g) && Root(g, u) && u !in entries && g.kinds[u].NodeUnit?;
    var tasks := (set u | u in entries :: ExecTask(u)) + (set u | u in skipped :: SkipTask(u));
    State(seq(Size(g), v requires 0 <= v => Cell(|Into(g, v)|, 0, if v in skipped then Skip else Unset)),
          seq(Size(g), v => Idle), {}, [], Size(g), 0, Running, tasks, tasks)
  }

  // ---- Arrivals ----

  function SettleCell(c: Cell, a: Arrival): Cell {
    if a.count == 0 then c else
    var degree, active := c.inDegree - a.count, c.active + a.active;
    Cell(degree, active,
         if !c.marker.Unset? then c.marker
         else if a.mode.WaitAny? && a.active > 0 && c.active == 0 then Execute
         else if degree > 0 then Unset
         else if active > 0 then Execute
         else Skip)
  }

  /** What a terminal unit pushes to each unit. A skip or cancel is routed by the
      node it names and fires nothing. */
  function Arrivals(g: Graph, u: nat, how: How, fired: set<Port>): (arr: seq<Arrival>)
    requires |g.modes| == |g.unitModes| == |g.skips| == Size(g) && u < Size(g)
    ensures |arr| == Size(g)
  {
    seq(Size(g), v requires 0 <= v < Size(g) =>
      if how.Skipped? || how.Canceled? then Arrival(SkipCount(g, u, v), 0, g.modes[v])
      else Arrival(|Between(g, u, v)|, |BetweenOn(g, u, v, fired)|,
                   if g.kinds[u].NodeUnit? then g.modes[v] else g.unitModes[v]))
  }

  function TaskFor(v: nat, m: Marker): Task {
    if m.Skip? then SkipTask(v) else ExecTask(v)
  }

  function Settle(s: State, u: nat, arr: seq<Arrival>): State
    requires |arr| == |s.cells|
  {
    var cells := seq(|s.cells|, v requires 0 <= v < |s.cells| => SettleCell(s.cells[v], arr[v]));
    var tasks := set v | 0 <= v < |cells| && s.cells[v].marker.Unset? && !cells[v].marker.Unset? ::
      TaskFor(v, cells[v].marker);
    s.(cells := cells, settled := s.settled + {u}, order := s.order + [u],
       log := s.log + tasks, pending := s.pending + tasks)
  }

  // ---- Terminal transitions ----

  predicate Fits(cfg: Config, s: State) {
    var g := cfg.g;
    |g.nodes| == |g.modes| == |g.unitModes| == |g.skips| == |s.cells| == |s.rows| == Size(g)
  }

  /** Whether a commit ends the execution. Only the Redis store withholds the
      final status while a cancel is in flight. */
  predicate Ends(cfg: Config, s: State, fatal: bool) {
    && (fatal || s.remaining - 1 == 0)
    && !(cfg.backend.Redis? && s.exec.Canceling?)
  }

  function Land(cfg: Config, s: State, u: nat, how: How, fired: set<Port>, fatal: bool): State
    requires u < |s.rows|
  {
    var failed := s.failed + if how.Failed? then 1 else 0;
    s.(rows := s.rows[u := Done(how, fired)],
       remaining := s.remaining - 1,
       failed := failed,
       exec := if !Ends(cfg, s, fatal) then s.exec else if fatal || failed > 0 then Broken else Succeeded)
  }

  function Write(s: State, t: Task): State {
    s.(log := s.log + {t}, pending := s.pending + {t})
  }

  /** One fenced terminal write together with its scheduling half: a group
      commit always carries its arrivals, any other commit carries them when the
      store folds and leaves an advance task otherwise. */
  function Terminalize(cfg: Config, s: State, u: nat, how: How, fired: set<Port>, fatal: bool): State
    requires Fits(cfg, s) && u < Size(cfg.g)
  {
    var landed := Land(cfg, s, u, how, fired, fatal);
    var quiet := Ends(cfg, s, fatal) || s.exec.Canceling?;
    if fatal then landed
    else if cfg.g.kinds[u].GroupUnit? && !how.Skipped? then
      if cfg.backend.Redis? && quiet then landed
      else Settle(landed, u, Arrivals(cfg.g, u, how, fired))
    else if cfg.fold then
      if quiet then landed else Settle(landed, u, Arrivals(cfg.g, u, how, fired))
    else if how.Canceled? || Ends(cfg, s, fatal) || (cfg.backend.Redis? && quiet) then landed
    else Write(landed, AdvanceTask(u))
  }

  function FinishCommit(cfg: Config, s: State, u: nat, how: How, fired: set<Port>, fatal: bool, cancels: bool): State
    requires Fits(cfg, s) && u < Size(cfg.g)
  {
    var s' := Terminalize(cfg, s, u, how, fired, fatal);
    if cancels && cfg.fold && cfg.g.kinds[u].NodeUnit? && how.Success? && !fatal
       && !Ends(cfg, s, fatal) && !s.exec.Canceling?
    then Write(s', MergeCancelTask(u)) else s'
  }

  // ---- Guards ----

  predicate Leasable(cfg: Config, s: State, u: nat)
    requires Fits(cfg, s)
  {
    && ExecTask(u) in s.log && u < Size(cfg.g) && Active(s.exec)
    && match s.rows[u]
       case Idle => true
       case Parked => true
       case Leased(_, waiting) => !waiting && cfg.g.kinds[u].NodeUnit?   // the earlier lease has expired
       case Done(_, _) => false
  }

  /** A commit or reset is applied only under the row's current token. */
  predicate Holds(s: State, u: nat, token: nat) {
    u < |s.rows| && s.rows[u].Leased? && s.rows[u].token == token
  }

  predicate Servable(s: State, u: nat) {
    ExecTask(u) in s.log && u < |s.rows| == |s.cells| && Active(s.exec) && s.rows[u].Idle?
  }

  predicate CancelFence(s: State, u: nat)
    requires u < |s.rows| == |s.cells|
  {
    match s.rows[u]
    case Idle => s.cells[u].marker.Execute?
    case Parked => !s.cells[u].marker.Skip?
    case Leased(_, waiting) => !waiting && !s.cells[u].marker.Skip?
    case Done(_, _) => false
  }

  /** A delivery is acknowledged once the state shows it was handled. */
  predicate Handled(s: State, t: Task) {
    !s.exec.Running? ||
    match t
    case ExecTask(u) => u < |s.rows| && !s.rows[u].Idle?
    case SkipTask(u) => u < |s.rows| && s.rows[u].Done?
    case AdvanceTask(u) => u in s.settled
    case MergeCancelTask(_) => true
  }

  // ---- The transition function ----

  function Step(cfg: Config, s: State, a: Action): (s': State)
    requires Fits(cfg, s)
    ensures Fits(cfg, s')
  {
    match a
    case Lease(u, token) =>
      if Leasable(cfg, s, u) then s.(rows := s.rows[u := Leased(token, false)]) else s
    case Wait(u, token) =>
      if Holds(s, u, token) then s.(rows := s.rows[u := Leased(token, true)]) else s
    case Suspend(u, token) =>
      if Holds(s, u, token) then s.(rows := s.rows[u := Parked]) else s
    case Requeue(u, token) =>
      if Holds(s, u, token) then Write(s.(rows := s.rows[u := Idle]), ExecTask(u)) else s
    case Commit(u, token, how, fired, fatal, cancels) =>
      if Holds(s, u, token) && Active(s.exec) && how in {Success, Failed, Continued}
      then FinishCommit(cfg, s, u, how, fired, fatal, cancels) else s
    case ServeDisabled(u) =>
      if Servable(s, u) && u in cfg.disabled && cfg.g.kinds[u].NodeUnit?
      then Terminalize(cfg, s, u, Disabled, MainPort(cfg.g, u), false) else s
    case ServePinned(u) =>
      if Servable(s, u) && u in cfg.pinned && cfg.g.kinds[u].NodeUnit? && !s.cells[u].marker.Skip?
      then Terminalize(cfg, s, u, Pinned, MainPort(cfg.g, u), false) else s
    case HandleSkip(u) =>
      if SkipTask(u) in s.log && u < Size(cfg.g) && Active(s.exec) && s.rows[u].Idle?
      then Terminalize(cfg, s, u, Skipped, {}, false) else s
    case HandleAdvance(u) =>
      if AdvanceTask(u) in s.log && u < Size(cfg.g) && s.rows[u].Done? && u !in s.settled
         && (s.exec.Running? || (cfg.backend.Memory? && s.exec.Canceling?))
      then Settle(s, u, Arrivals(cfg.g, u, s.rows[u].how, s.rows[u].fired)) else s
    case HandleMergeCancel(m, u) =>
      if MergeCancelTask(m) in s.log && u < Size(cfg.g) && cfg.g.kinds[u].NodeUnit? && Active(s.exec)
        && CancelFence(s, u)
      then Terminalize(cfg, s, u, Canceled, {}, false) else s
    case BeginCancel =>
      if s.exec.Running? then s.(exec := Canceling) else s
    case CancelParked(u) =>
      if (s.exec.Canceling? || s.exec.TimedOut?) && u < Size(cfg.g)
         && (s.rows[u].Parked? || (s.rows[u].Leased? && s.rows[u].waiting))
      then s.(rows := s.rows[u := Done(Canceled, {})]) else s
    case FinishCancel =>
      if s.exec.Canceling? then s.(exec := Cancelled) else s
    case Expire =>
      if s.exec.Running? then s.(exec := TimedOut) else s
    case Drop(t) =>
      if Handled(s, t) then s.(pending := s.pending - {t}) else s
  }

  /** The state after a sequence of actions. */
  function Run(cfg: Config, s: State, actions: seq<Action>): (s': State)
    requires Fits(cfg, s)
    ensures Fits(cfg, s')
    decreases |actions|
  {
    if actions == [] then s else Run(cfg, Step(cfg, s, actions[0]), actions[1..])
  }
}
