/** From a runner's report to the commit request the store validates and applies. */
module Requests {
  import opened Units
  import opened Store

  datatype Strategy = Stop | ErrorOutput | MainOutput | Continue

  /** `arrivals` is empty where the request carries none, and otherwise holds one entry per
      unit, with count zero for the units the source's list does not name. `advance` and
      `mergeCancel` say whether those tasks are set; `reclaims` and `cyclicOutbox` are the
      lengths of those lists. */
  datatype Request = Request(
    unit: nat, how: How, fired: set<Port>, cyclic: bool, fatal: bool, system: bool,
    advance: bool, arrivals: seq<Arrival>, mergeCancel: bool, reclaims: nat,
    cyclicOutbox: nat, cyclicComplete: bool)

  datatype Rejection =
    | ArrivalsOnCyclic | ArrivalsOnFatal | TwoCarriers | TwoIntents | BadMergeCancel | BadReclaim
    | FatalOnCyclic | AdvanceOnCyclic | OutboxOnAcyclic | CompleteOnAcyclic

  datatype Check = Accepted | Rejected(reason: Rejection)

  /** The list names some unit. */
  predicate Names(arr: seq<Arrival>) { exists v | 0 <= v < |arr| :: arr[v].count > 0 }

  /** The checks in the order the source makes them. */
  function Validate(r: Request): Check {
    var plain := !r.cyclic && !r.fatal && !r.system && r.how.Success?;
    if Names(r.arrivals) && r.cyclic then Rejected(ArrivalsOnCyclic)
    else if Names(r.arrivals) && r.fatal then Rejected(ArrivalsOnFatal)
    else if Names(r.arrivals) && r.advance then Rejected(TwoCarriers)
    else if r.mergeCancel && r.advance then Rejected(TwoIntents)
    else if r.mergeCancel && !plain then Rejected(BadMergeCancel)
    else if r.reclaims > 0 && !plain then Rejected(BadReclaim)
    else if r.cyclic then
      if r.fatal then Rejected(FatalOnCyclic)
      else if r.advance then Rejected(AdvanceOnCyclic)
      else Accepted
    else if r.cyclicOutbox > 0 then Rejected(OutboxOnAcyclic)
    else if r.cyclicComplete then Rejected(CompleteOnAcyclic)
    else Accepted
  }

  /** A cyclic request carries its own outbox and nothing of the acyclic machinery. */
  predicate PlainCyclic(r: Request) {
    r.cyclic && !r.fatal && !r.advance && !Names(r.arrivals) && !r.mergeCancel && r.reclaims == 0
  }

  /** An acyclic one has at most one carrier for its arrivals, none of them folded into a
      fatal end, and intents and reclaims only with an ordinary success. */
  predicate PlainAcyclic(r: Request) {
    && !r.cyclic && r.cyclicOutbox == 0 && !r.cyclicComplete
    && (Names(r.arrivals) ==> !r.advance && !r.fatal)
    && (r.mergeCancel ==> !r.advance)
    && (r.mergeCancel || r.reclaims > 0 ==> r.how.Success? && !r.fatal && !r.system)
  }

  /** Exactly those two kinds of request are accepted. */
  lemma AcceptedIff(r: Request)
    ensures Validate(r).Accepted? <==> PlainCyclic(r) || PlainAcyclic(r)
  {
  }

  // ---- What the store does with an acyclic request ----

  /** The terminal write, the advance intent, the merge-cancel intent and the folded
      arrivals, each behind its own gate. The store looks at the request alone: it does not
      know which carrier the engine meant. */
  function Apply(cfg: Config, s: State, r: Request): (s': State)
    requires Fits(cfg, s) && r.unit < Size(cfg.g) && (r.arrivals == [] || |r.arrivals| == Size(cfg.g))
    ensures Fits(cfg, s')
  {
    var landed := Land(cfg, s, r.unit, r.how, r.fired, r.fatal);
    if r.fatal || Ends(cfg, s, r.fatal) then landed else
    var advanced := if r.advance && !(cfg.backend.Redis? && s.exec.Canceling?)
      then Write(landed, AdvanceTask(r.unit)) else landed;
    if s.exec.Canceling? then advanced else
    var folded := if r.arrivals != [] then Settle(advanced, r.unit, r.arrivals) else advanced;
    if r.mergeCancel then Write(folded, MergeCancelTask(r.unit)) else folded
  }

  /** A delivery of the advance task. It is fenced by a marker of its own, `advanced`, which
      the folding half of a commit does not set. */
  function AdvanceNode(cfg: Config, s: State, advanced: set<nat>, u: nat): (State, set<nat>)
    requires Fits(cfg, s)
  {
    if AdvanceTask(u) in s.log && u < Size(cfg.g) && s.rows[u].Done? && u !in advanced && s.exec.Running?
    then (Settle(s, u, Arrivals(cfg.g, u, s.rows[u].how, s.rows[u].fired)), advanced + {u})
    else (s, advanced)
  }

  /** The task is delivered `n` times. */
  function Deliver(cfg: Config, s: State, advanced: set<nat>, u: nat, n: nat): (s': State)
    requires Fits(cfg, s)
    ensures Fits(cfg, s')
    decreases n
  {
    if n == 0 then s else
    var next := AdvanceNode(cfg, s, advanced, u);
    Deliver(cfg, next.0, next.1, u, n - 1)
  }

  /** Once the marker is set further deliveries change nothing. */
  lemma {:induction false} DeliveredOnce(cfg: Config, s: State, advanced: set<nat>, u: nat, n: nat)
    requires Fits(cfg, s) && (u in advanced || AdvanceTask(u) !in s.log)
    ensures Deliver(cfg, s, advanced, u, n) == s
  {
    if n > 0 { DeliveredOnce(cfg, s, advanced, u, n - 1); }
  }

  function Carriers(r: Request): nat {
    (if r.arrivals != [] then 1 else 0) + if r.advance then 1 else 0
  }

  /** A live store, a request for a unit at work that will not end the execution, and, if
      it carries arrivals, the right ones. */
  predicate Committable(cfg: Config, s: State, r: Request) {
    && Fits(cfg, s) && s.exec.Running? && s.remaining > 1 && !r.fatal && r.unit < Size(cfg.g)
    && AdvanceTask(r.unit) !in s.log
    && (r.arrivals == [] || r.arrivals == Arrivals(cfg.g, r.unit, r.how, r.fired))
  }

  /** The commit itself applies the arrivals it carries, and leaves an advance task exactly
      if it was given one. */
  lemma CommitApplies(cfg: Config, s: State, r: Request, v: nat)
    requires Committable(cfg, s, r) && v < Size(cfg.g)
    ensures var s' := Apply(cfg, s, r);
      && s'.rows[r.unit] == Done(r.how, r.fired) && s'.exec.Running? && (AdvanceTask(r.unit) in s'.log <==> r.advance)
      && s'.cells[v].inDegree == s.cells[v].inDegree - if r.arrivals == [] then 0 else r.arrivals[v].count
  {
  }

  /** What the deliveries add to what the commit did. */
  lemma DeliveriesAdd(cfg: Config, s: State, r: Request, s': State, n: nat, v: nat)
    requires Committable(cfg, s, r) && n > 0 && v < Size(cfg.g) && Fits(cfg, s')
    requires s'.rows[r.unit] == Done(r.how, r.fired) && s'.exec.Running?
    requires (AdvanceTask(r.unit) in s'.log <==> r.advance)
    requires s'.cells[v].inDegree == s.cells[v].inDegree - if r.arrivals == [] then 0 else r.arrivals[v].count
    ensures Deliver(cfg, s', {}, r.unit, n).cells[v].inDegree
         == s.cells[v].inDegree - Carriers(r) * Arrivals(cfg.g, r.unit, r.how, r.fired)[v].count
  {
    if r.advance { DeliverApplies(cfg, s', r.unit, n, v); } else { DeliveredOnce(cfg, s', {}, r.unit, n); }
  }

  /** However often the advance task is then delivered, every counter moves by its arrival
      once per carrier. */
  lemma OncePerCarrier(cfg: Config, s: State, r: Request, n: nat, v: nat)
    requires Committable(cfg, s, r) && n > 0 && v < Size(cfg.g)
    ensures Deliver(cfg, Apply(cfg, s, r), {}, r.unit, n).cells[v].inDegree
         == s.cells[v].inDegree - Carriers(r) * Arrivals(cfg.g, r.unit, r.how, r.fired)[v].count
  {
    CommitApplies(cfg, s, r, v);
    DeliveriesAdd(cfg, s, r, Apply(cfg, s, r), n, v);
  }

  lemma DeliverApplies(cfg: Config, s: State, u: nat, n: nat, v: nat)
    requires Fits(cfg, s) && u < Size(cfg.g) && v < Size(cfg.g) && n > 0
    requires s.rows[u].Done? && s.exec.Running? && AdvanceTask(u) in s.log
    ensures Deliver(cfg, s, {}, u, n).cells[v].inDegree
         == s.cells[v].inDegree - Arrivals(cfg.g, u, s.rows[u].how, s.rows[u].fired)[v].count
  {
    var once := Settle(s, u, Arrivals(cfg.g, u, s.rows[u].how, s.rows[u].fired));
    assert AdvanceNode(cfg, s, {}, u) == (once, {} + {u});
    DeliveredOnce(cfg, once, {} + {u}, u, n - 1);
  }

  /** For a unit that has arrivals to send, a commit and its advance deliveries move every
      counter by exactly what it sends if and only if the request has exactly one carrier,
      and a validated request never has two. */
  lemma CountedOnceIffOneCarrier(cfg: Config, s: State, r: Request, n: nat)
    requires Committable(cfg, s, r) && n > 0 && Names(Arrivals(cfg.g, r.unit, r.how, r.fired))
    ensures (forall v: nat | v < Size(cfg.g) :: CountedOnce(cfg, s, r, n, v)) <==> Carriers(r) == 1
    ensures Validate(r).Accepted? ==> Carriers(r) <= 1
  {
    var arr := Arrivals(cfg.g, r.unit, r.how, r.fired);
    forall v: nat | v < Size(cfg.g) ensures CountedOnce(cfg, s, r, n, v) <==> Carriers(r) == 1 || arr[v].count == 0 {
      CountedIff(cfg, s, r, n, v);
    }
    var w: nat :| w < |arr| && arr[w].count > 0;
    assert CountedOnce(cfg, s, r, n, w) <==> Carriers(r) == 1;
  }

  /** The counter of `v` has moved by exactly the arrival of the request's unit. */
  predicate CountedOnce(cfg: Config, s: State, r: Request, n: nat, v: nat)
    requires Committable(cfg, s, r) && v < Size(cfg.g)
  {
    Deliver(cfg, Apply(cfg, s, r), {}, r.unit, n).cells[v].inDegree
    == s.cells[v].inDegree - Arrivals(cfg.g, r.unit, r.how, r.fired)[v].count
  }

  lemma CountedIff(cfg: Config, s: State, r: Request, n: nat, v: nat)
    requires Committable(cfg, s, r) && n > 0 && v < Size(cfg.g)
    ensures CountedOnce(cfg, s, r, n, v) <==> Carriers(r) == 1 || Arrivals(cfg.g, r.unit, r.how, r.fired)[v].count == 0
  {
    OncePerCarrier(cfg, s, r, n, v);
    var count := Arrivals(cfg.g, r.unit, r.how, r.fired)[v].count;
    assert Carriers(r) == 2 ==> Carriers(r) * count == count + count;
  }

  // ---- The verdict on a report ----

  datatype Failure = NoFailure | Failure(timeout: bool, permanent: bool)

  /** A runner's report: a system error, a business error carried by the output,
      and the output's port, empty when there is no output or no port. */
  datatype Report = Report(failure: Failure, business: bool, port: string)

  datatype Settings = NoRetry | Retrying(maxAttempts: int)

  datatype Verdict = Inactive | Retry | Expand | Terminal(how: How, port: string, fatal: bool, normal: bool)

  function TryRetry(failure: Failure, settings: Settings, attempt: int): bool {
    failure.Failure? && settings.Retrying? && !failure.permanent && attempt < settings.maxAttempts
  }

  function ApplyOnError(strategy: Strategy): Verdict {
    match strategy
    case ErrorOutput => Terminal(Success, "error", false, false)
    case MainOutput => Terminal(Success, "main", false, false)
    case Continue => Terminal(Continued, "main", false, false)
    case Stop => Terminal(Failed, "", true, false)
  }

  function ErrorOutcome(failure: Failure, settings: Settings, attempt: int, strategy: Strategy): Verdict {
    if TryRetry(failure, settings, attempt) then Retry else ApplyOnError(strategy)
  }

  /** Error branch, error-port branch, expansion, success, in that order. `expired`
      says the timeout guard found the execution's own deadline reached. */
  function Judge(report: Report, expired: bool, settings: Settings, attempt: int, strategy: Strategy,
                 expands: bool): Verdict {
    if report.failure.Failure? || report.business then
      if report.failure.Failure? && report.failure.timeout && expired then Inactive
      else ErrorOutcome(report.failure, settings, attempt, strategy)
    else if report.port == "error" then
      if TryRetry(Failure(false, false), settings, attempt) then Retry
      else ErrorOutcome(Failure(false, false), settings, attempt, strategy)
    else if expands then Expand
    else Terminal(Success, if report.port == "" then "main" else report.port, false, true)
  }

  predicate Faulty(report: Report) { report.failure.Failure? || report.business || report.port == "error" }

  /** Where and how a failure that is not retried ends under each strategy. */
  function FailurePort(strategy: Strategy): string {
    match strategy
    case Stop => ""
    case ErrorOutput => "error"
    case MainOutput => "main"
    case Continue => "main"
  }

  function FailureHow(strategy: Strategy): How {
    if strategy.Stop? then Failed else if strategy.Continue? then Continued else Success
  }

  /** A failure that another attempt may cure: a system failure that is neither permanent
      nor the execution's own deadline, or an output on the error port without an error. */
  predicate Curable(report: Report, expired: bool) {
    if report.failure.Failure? then !report.failure.permanent && !(report.failure.timeout && expired)
    else !report.business && report.port == "error"
  }

  /** A report is retried if and only if its failure is curable and attempts are left, is
      inactive exactly for a timeout at the execution's deadline, expands or ends normally
      exactly without a failure, and otherwise ends as its strategy says: fatally under
      "stop", on the error port or on the main port. */
  lemma JudgeFacts(report: Report, expired: bool, settings: Settings, attempt: int, strategy: Strategy, expands: bool)
    ensures var v := Judge(report, expired, settings, attempt, strategy, expands);
      && (v.Retry? <==> settings.Retrying? && attempt < settings.maxAttempts && Curable(report, expired))
      && (v.Inactive? <==> expired && report.failure.Failure? && report.failure.timeout)
      && (v.Expand? <==> !Faulty(report) && expands)
      && (v.Terminal? && v.normal <==> !Faulty(report) && !expands)
      && (v.Terminal? ==> (v.fatal <==> Faulty(report) && strategy.Stop?))
      && (v.Terminal? && Faulty(report) ==> v.how == FailureHow(strategy) && v.port == FailurePort(strategy))
      && (v.Terminal? && !Faulty(report) ==>
           v.how.Success? && v.port == if report.port == "" then "main" else report.port)
  {
  }

  // ---- The requests the engine builds ----

  /** Whether the node is a merge that cancels its other branches on a store that keeps such
      an intent, and how many outputs its commit may reclaim. */
  datatype Site = Site(cancelsOthers: bool, reclaimable: nat)

  function FiredOn(g: Graph, u: nat, port: string): set<Port>
    requires u < |g.nodes|
  {
    if port == "" then {} else {Exit(g.nodes[u], port)}
  }

  /** An acyclic commit of a verdict. */
  function NodeRequest(cfg: Config, site: Site, u: nat, v: Verdict): Request
    requires v.Terminal? && |cfg.g.nodes| == |cfg.g.modes| == |cfg.g.unitModes| == |cfg.g.skips| == Size(cfg.g)
    requires u < Size(cfg.g)
  {
    var folded := !v.fatal && cfg.fold;
    var fired := FiredOn(cfg.g, u, v.port);
    Request(u, v.how, fired, false, v.fatal, false,
            !v.fatal && !folded, if folded then Arrivals(cfg.g, u, v.how, fired) else [],
            v.how.Success? && !v.fatal && site.cancelsOthers && folded,
            if v.normal && v.how.Success? then site.reclaimable else 0, 0, false)
  }

  /** A skip cascade, a disabled node or a pinned node. */
  function SystemRequest(cfg: Config, u: nat, how: How, fired: set<Port>): Request
    requires |cfg.g.modes| == |cfg.g.unitModes| == |cfg.g.skips| == Size(cfg.g) && u < Size(cfg.g)
  {
    Request(u, how, fired, false, false, true, !cfg.fold, if cfg.fold then Arrivals(cfg.g, u, how, fired) else [],
            false, 0, 0, false)
  }

  /** A branch retired by a merge: arrivals only where the store folds. */
  function CancelRequest(cfg: Config, u: nat): Request
    requires |cfg.g.modes| == |cfg.g.unitModes| == |cfg.g.skips| == Size(cfg.g) && u < Size(cfg.g)
  {
    Request(u, Canceled, {}, false, false, true, false, if cfg.fold then Arrivals(cfg.g, u, Canceled, {}) else [],
            false, 0, 0, false)
  }

  /** A cyclic commit: a fatal verdict completes the execution instead. */
  function CyclicRequest(u: nat, v: Verdict, planned: nat, completes: bool): Request
    requires v.Terminal?
  {
    Request(u, v.how, {}, true, false, false, false, [], false, 0, if v.fatal then 0 else planned, v.fatal || completes)
  }

  /** The request built from a judged report is accepted, reclaims only after a report
      without failure, and does to the store exactly what the state machine's commit does. */
  lemma BuiltCommit(cfg: Config, s: State, site: Site, u: nat, report: Report, expired: bool, settings: Settings,
                    attempt: int, strategy: Strategy, expands: bool)
    requires Fits(cfg, s) && u < Size(cfg.g) && cfg.g.kinds[u].NodeUnit?
    ensures var v := Judge(report, expired, settings, attempt, strategy, expands);
      v.Terminal? ==>
        var r := NodeRequest(cfg, site, u, v);
        && Validate(r).Accepted? && r.reclaims == (if Faulty(report) then 0 else site.reclaimable)
        && v.how in {Success, Failed, Continued}
        && (forall node, port :: Exit(node, port) in r.fired <==> node == cfg.g.nodes[u] && port == v.port != "")
        && ErrorExit !in r.fired
        && Apply(cfg, s, r) == FinishCommit(cfg, s, u, v.how, r.fired, v.fatal, site.cancelsOthers)
  {
    JudgeFacts(report, expired, settings, attempt, strategy, expands);
    var v := Judge(report, expired, settings, attempt, strategy, expands);
    if v.Terminal? { AcceptedIff(NodeRequest(cfg, site, u, v)); }
  }

  /** Every skip, disable, pin and cancel request is accepted and does to the store exactly
      what the state machine's terminal transition does; every cyclic request is accepted,
      completes the execution if the verdict is fatal, and otherwise carries what was planned. */
  lemma BuiltSystem(cfg: Config, s: State, u: nat, how: How, fired: set<Port>, v: Verdict, planned: nat,
                    completes: bool)
    requires Fits(cfg, s) && u < Size(cfg.g) && v.Terminal?
    requires if how.Skipped? then true else how in {Disabled, Pinned} && cfg.g.kinds[u].NodeUnit?
    ensures Validate(SystemRequest(cfg, u, how, fired)).Accepted? && SystemRequest(cfg, u, how, fired).system
    ensures Apply(cfg, s, SystemRequest(cfg, u, how, fired)) == Terminalize(cfg, s, u, how, fired, false)
    ensures Validate(CancelRequest(cfg, u)).Accepted? && CancelRequest(cfg, u).system
    ensures cfg.g.kinds[u].NodeUnit? ==>
      Apply(cfg, s, CancelRequest(cfg, u)) == Terminalize(cfg, s, u, Canceled, {}, false)
    ensures var r := CyclicRequest(u, v, planned, completes);
      && Validate(r).Accepted? && r.unit == u && r.how == v.how && !r.system
      && (r.cyclicComplete <==> v.fatal || completes) && r.cyclicOutbox == if v.fatal then 0 else planned
  {
  }
}
