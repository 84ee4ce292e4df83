/** One node's leases: issue, claim, commit, retry, release, reclaim and the two cancels
    that present no lease, in any order, from any number of runners, with stale tokens and
    stale reads replayed at will. */
module Leases {

  datatype Status = Pending | Running | Committing | Waiting | Suspended | Terminal

  /** A node row; `token` is zero when no lease is on record. */
  datatype Row = Absent | Row(status: Status, activation: nat, attempt: nat, token: nat, issued: nat, ttl: nat)

  datatype Issue = Issue(activation: nat, attempt: nat, token: nat)

  /** The unit's scheduling marker, which a merge cancel is fenced by. */
  datatype Marker = Unset | Execute | Skip | Seeded

  /** `issues`, `retries` and `endings` are what has been issued, scheduled as a retry, and
      terminalized so far, in order. `parked` holds the waiting rows that a cancel cascade
      has read, `scanned` the activations a merge cancel has read. */
  datatype State = State(
    row: Row, now: nat, nextToken: nat, issues: seq<Issue>, retries: seq<Issue>, endings: seq<nat>,
    parked: set<Row>, scanned: set<nat>)

  /** A call that presents a lease carries its token, attempt and activation. The cancel of
      a parked sub-workflow node and the merge cancel are each a read and a later write. */
  datatype Action =
    | Acquire(activation: nat, ttl: nat)
    | Claim(lease: Issue)
    | Park(lease: Issue)
    | Suspend(lease: Issue)
    | Commit(lease: Issue)
    | SystemCommit(activation: nat)
    | Retry(lease: Issue)
    | Revoke(token: nat)
    | Renew(token: nat, deadline: nat)
    | CancelSuspended
    | ReadParked
    | FinalizeParked(read: Row)
    | ScanBranch(merge: nat)
    | MergeCancel(activation: nat, marker: Marker)
    | Tick

  predicate Expired(r: Row, now: nat)
    requires r.Row?
  {
    r.ttl > 0 && now >= r.issued + r.ttl
  }

  /** The store's admission of a new lease. */
  predicate Acquirable(s: State, activation: nat) {
    s.row.Absent? ||
    (&& !(activation > 0 && s.row.activation > activation)
     && !(s.row.status.Terminal? && (activation == 0 || s.row.activation >= activation))
     && !s.row.status.Committing? && !s.row.status.Waiting?
     && !(s.row.status.Running? && s.row.token != 0 && !Expired(s.row, s.now)))
  }

  /** The attempt counts leases within one activation and restarts on a new one. */
  function NextAttempt(r: Row, activation: nat): nat {
    if r.Row? && r.activation == activation then r.attempt + 1 else 1
  }

  predicate Live(st: Status) { st.Running? || st.Committing? || st.Waiting? }

  predicate Current(r: Row, lease: Issue) {
    && r.Row? && lease.token != 0 && r.token == lease.token
    && r.attempt == lease.attempt && r.activation == lease.activation
  }

  predicate Resettable(r: Row, token: nat) { r.Row? && Live(r.status) && token != 0 && r.token == token }

  function Reset(r: Row): Row
    requires r.Row?
  {
    r.(status := Pending, token := 0, issued := 0, ttl := 0)
  }

  predicate CancelFence(r: Row, marker: Marker) {
    if r.Absent? || r.status.Pending? then marker.Execute?
    else !marker.Skip? && (r.status.Suspended? || r.status.Running? || r.status.Committing?)
  }

  /** A write that ends the row under the activation it carries, which is the reader's. */
  function Ended(s: State, activation: nat): State {
    s.(row := Row(Terminal, activation, if s.row.Row? then s.row.attempt else 0, 0, 0, 0),
       endings := s.endings + [activation])
  }

  function Step(maxAttempts: nat, s: State, a: Action): State {
    match a
    case Acquire(activation, ttl) =>
      if !Acquirable(s, activation) then s
      else
        var attempt := NextAttempt(s.row, activation);
        s.(row := Row(Running, activation, attempt, s.nextToken, s.now, ttl), nextToken := s.nextToken + 1,
           issues := s.issues + [Issue(activation, attempt, s.nextToken)])
    case Claim(lease) =>
      if Current(s.row, lease) && s.row.status.Running? then s.(row := s.row.(status := Committing)) else s
    case Park(lease) =>
      if Current(s.row, lease) && s.row.status.Committing? then s.(row := s.row.(status := Waiting)) else s
    case Suspend(lease) =>
      if Current(s.row, lease) && s.row.status.Committing?
      then s.(row := s.row.(status := Suspended, token := 0)) else s
    case Commit(lease) =>
      if Current(s.row, lease) && Live(s.row.status)
      then s.(row := s.row.(status := Terminal, token := 0), endings := s.endings + [s.row.activation]) else s
    case SystemCommit(activation) =>
      if s.row.Absent? || s.row.status.Pending? then Ended(s, activation) else s
    case Retry(lease) =>
      // the engine's own test comes first, the store's fence second
      if lease.attempt < maxAttempts && Resettable(s.row, lease.token) && Current(s.row, lease)
      then s.(row := Reset(s.row), retries := s.retries + [lease]) else s
    case Revoke(token) => if Resettable(s.row, token) then s.(row := Reset(s.row)) else s
    case Renew(token, deadline) =>
      // the term is measured from the issue, so it is cut off at zero
      if s.row.Row? && (s.row.status.Running? || s.row.status.Waiting?) && token != 0 && s.row.token == token
      then s.(row := s.row.(ttl := if deadline > s.row.issued then deadline - s.row.issued else 0)) else s
    case CancelSuspended =>
      if s.row.Row? && s.row.status.Suspended?
      then s.(row := s.row.(status := Terminal), endings := s.endings + [s.row.activation]) else s
    case ReadParked =>
      if s.row.Row? && s.row.status.Waiting? then s.(parked := s.parked + {s.row}) else s
    case FinalizeParked(read) =>
      // the write keeps the lease that was read and is refused only by a terminal row
      if read in s.parked && read.Row? && !(s.row.Row? && s.row.status.Terminal? && read.activation <= s.row.activation)
      then s.(row := read.(status := Terminal), endings := s.endings + [read.activation]) else s
    case ScanBranch(merge) =>
      if s.row.Row? && (s.row.status.Terminal? || s.row.status.Waiting?) then s
      else s.(scanned := s.scanned + {if s.row.Row? && s.row.activation > 0 then s.row.activation else merge})
    case MergeCancel(activation, marker) =>
      if activation in s.scanned && CancelFence(s.row, marker) then Ended(s, activation) else s
    case Tick => s.(now := s.now + 1)
  }

  function Run(maxAttempts: nat, s: State, actions: seq<Action>): State
    decreases |actions|
  {
    if actions == [] then s else Run(maxAttempts, Step(maxAttempts, s, actions[0]), actions[1..])
  }

  const INITIAL := State(Absent, 0, 1, [], [], [], {}, {})

  /** The action's own activation, for those that start or end a row under it. */
  predicate Carries(a: Action, activation: nat) {
    match a
    case Acquire(x, _) => x == activation
    case SystemCommit(x) => x == activation
    case ScanBranch(x) => x == activation
    case _ => true
  }

  /** A node's tasks either all carry activation zero or all a positive one. */
  predicate Uniform(positive: bool, a: Action) {
    match a
    case Acquire(x, _) => positive <==> x > 0
    case SystemCommit(x) => positive <==> x > 0
    case ScanBranch(x) => positive <==> x > 0
    case _ => true
  }

  /** A write that carries an activation of its own does not find the row in a later one. */
  predicate Fresh(s: State, a: Action) {
    s.row.Row? && !s.row.status.Terminal? ==>
      match a
      case SystemCommit(x) => s.row.status.Pending? ==> x >= s.row.activation
      case MergeCancel(x, marker) => x in s.scanned && CancelFence(s.row, marker) ==> x >= s.row.activation
      case FinalizeParked(read) => read in s.parked && read.Row? ==> read.activation >= s.row.activation
      case _ => true
  }

  /** Every step of the run is uniform and fresh. */
  predicate Orderly(positive: bool, maxAttempts: nat, s: State, actions: seq<Action>)
    decreases |actions|
  {
    actions == [] ||
    (&& Uniform(positive, actions[0]) && Fresh(s, actions[0])
     && Orderly(positive, maxAttempts, Step(maxAttempts, s, actions[0]), actions[1..]))
  }

  // ---- What every run keeps ----

  function Count(issues: seq<Issue>, activation: nat): nat {
    if issues == [] then 0
    else Count(issues[..|issues| - 1], activation) + (if issues[|issues| - 1].activation == activation then 1 else 0)
  }

  lemma CountAppend(issues: seq<Issue>, i: Issue, activation: nat)
    ensures Count(issues + [i], activation) == Count(issues, activation) + (if i.activation == activation then 1 else 0)
  {
    assert (issues + [i])[..|issues|] == issues;
  }

  predicate NumberedAt(issues: seq<Issue>, k: nat)
    requires k < |issues|
  {
    issues[k].attempt == Count(issues[..k], issues[k].activation) + 1
  }

  /** Within every activation the leases are attempts 1, 2, 3 and so on. */
  predicate Numbered(issues: seq<Issue>) { forall k: nat | k < |issues| :: NumberedAt(issues, k) }

  lemma AppendNumbered(issues: seq<Issue>, i: Issue)
    requires Numbered(issues) && i.attempt == Count(issues, i.activation) + 1
    ensures Numbered(issues + [i])
  {
    var after := issues + [i];
    forall k: nat | k < |after| ensures NumberedAt(after, k) {
      if k == |issues| {
        assert after[..k] == issues;
      } else {
        assert after[..k] == issues[..k] && NumberedAt(issues, k);
      }
    }
  }

  /** The row is in that activation or a later one. */
  predicate Reached(r: Row, activation: nat) { r.Row? && activation <= r.activation }

  predicate Attempts(s: State) {
    && Numbered(s.issues)
    && (forall k | 0 <= k < |s.issues| :: Reached(s.row, s.issues[k].activation))
    && (s.row.Row? && !s.row.status.Terminal? ==> s.row.attempt == Count(s.issues, s.row.activation) > 0)
  }

  predicate Tokens(s: State) {
    && s.nextToken > 0
    && (forall k | 0 <= k < |s.issues| :: 0 < s.issues[k].token < s.nextToken)
    && (forall j, k | 0 <= j < k < |s.issues| :: s.issues[j].token < s.issues[k].token)
    && (s.row.Row? && Live(s.row.status) ==>
          s.issues != [] && s.issues[|s.issues| - 1] == Issue(s.row.activation, s.row.attempt, s.row.token))
    && (s.row.Row? && !Live(s.row.status) && !s.row.status.Terminal? ==> s.row.token == 0)
    && (forall r :: r in s.parked ==> r.Row? && r.status.Waiting? && s.row.Row?)
  }

  predicate Endings(positive: bool, s: State) {
    && (s.row.Row? ==> (positive <==> s.row.activation > 0))
    && (forall x :: x in s.scanned ==> (positive <==> x > 0))
    && (forall r :: r in s.parked ==> r.Row? && Reached(s.row, r.activation))
    && (forall k | 0 <= k < |s.endings| :: Reached(s.row, s.endings[k]))
    && (forall j, k | 0 <= j < k < |s.endings| :: s.endings[j] < s.endings[k])
    && (s.row.Row? ==> (s.row.status.Terminal? <==> s.row.activation in s.endings))
  }

  /** Retries are of issued leases, below the limit, and no lease is retried twice. */
  predicate Retries(maxAttempts: nat, s: State) {
    && (forall k | 0 <= k < |s.retries| :: s.retries[k] in s.issues && s.retries[k].attempt < maxAttempts)
    && (forall j, k | 0 <= j < k < |s.retries| :: s.retries[j].token < s.retries[k].token)
    && (s.row.Row? && Live(s.row.status) ==> forall k | 0 <= k < |s.retries| :: s.retries[k].token < s.row.token)
  }

  predicate Inv(positive: bool, maxAttempts: nat, s: State) {
    Attempts(s) && Tokens(s) && Endings(positive, s) && Retries(maxAttempts, s)
  }

  lemma {:induction false} NoneYet(issues: seq<Issue>, activation: nat)
    requires forall k | 0 <= k < |issues| :: issues[k].activation < activation
    ensures Count(issues, activation) == 0
    decreases |issues|
  {
    if issues != [] { NoneYet(issues[..|issues| - 1], activation); }
  }

  /** The next attempt is the number of leases of the activation so far, plus one. */
  lemma NextIsCount(positive: bool, s: State, activation: nat)
    requires Attempts(s) && Endings(positive, s) && Acquirable(s, activation) && (positive <==> activation > 0)
    ensures NextAttempt(s.row, activation) == Count(s.issues, activation) + 1
    ensures s.row.Row? ==> s.row.activation <= activation
  {
    if !(s.row.Row? && s.row.activation == activation) { NoneYet(s.issues, activation); }
  }

  lemma IssueAttempts(s: State, s': State, issue: Issue)
    requires Attempts(s) && (s.row.Row? ==> s.row.activation <= issue.activation)
    requires issue.attempt == Count(s.issues, issue.activation) + 1 && s'.issues == s.issues + [issue]
    requires s'.row.Row? && s'.row.activation == issue.activation && s'.row.attempt == issue.attempt
    ensures Attempts(s')
  {
    CountAppend(s.issues, issue, issue.activation);
    AppendNumbered(s.issues, issue);
  }

  lemma AcquireAttempts(positive: bool, s: State, activation: nat, ttl: nat)
    requires Attempts(s) && Endings(positive, s) && Acquirable(s, activation) && (positive <==> activation > 0)
    ensures Attempts(Step(0, s, Acquire(activation, ttl)))
  {
    NextIsCount(positive, s, activation);
    var issue := Issue(activation, NextAttempt(s.row, activation), s.nextToken);
    IssueAttempts(s, Step(0, s, Acquire(activation, ttl)), issue);
  }

  /** What a step other than an issue may do to the row: it keeps its activation and its
      end, or it ends, and not in an activation that has ended. */
  predicate Moves(s: State, s': State) {
    && s'.issues == s.issues && (s.row.Row? ==> s'.row.Row?)
    && (s'.row.Row? && s'.endings == s.endings ==>
          && s.row.Row? && s'.row.activation == s.row.activation && s'.row.attempt == s.row.attempt
          && (s'.row.status.Terminal? <==> s.row.status.Terminal?))
    && (s'.endings != s.endings ==>
          && s'.row.Row? && s'.row.status.Terminal? && s'.endings == s.endings + [s'.row.activation]
          && (s.row.Row? ==> s.row.activation <= s'.row.activation)
          && (s.row.Row? && s.row.status.Terminal? ==> s.row.activation < s'.row.activation))
  }

  lemma StepMoves(maxAttempts: nat, s: State, a: Action)
    requires !a.Acquire? && Fresh(s, a)
    ensures Moves(s, Step(maxAttempts, s, a))
  {
  }

  lemma SameAttempts(s: State, s': State)
    requires Attempts(s) && Moves(s, s')
    ensures Attempts(s')
  {
  }

  lemma StepAttempts(positive: bool, maxAttempts: nat, s: State, a: Action)
    requires Attempts(s) && Tokens(s) && Endings(positive, s) && Uniform(positive, a) && Fresh(s, a)
    ensures Attempts(Step(maxAttempts, s, a))
  {
    if a.Acquire? {
      if Acquirable(s, a.activation) { AcquireAttempts(positive, s, a.activation, a.ttl); }
    } else {
      StepMoves(maxAttempts, s, a);
      SameAttempts(s, Step(maxAttempts, s, a));
    }
  }

  lemma AcquireTokens(maxAttempts: nat, s: State, activation: nat, ttl: nat)
    requires Tokens(s)
    ensures Tokens(Step(maxAttempts, s, Acquire(activation, ttl)))
  {
  }

  /** A step that issues nothing. */
  lemma SameTokens(s: State, s': State)
    requires Tokens(s) && s'.nextToken == s.nextToken && s'.issues == s.issues
    requires forall r :: r in s'.parked ==> r.Row? && r.status.Waiting? && s'.row.Row?
    requires s'.row.Row? && Live(s'.row.status) ==>
      && s.row.Row? && Live(s.row.status)
      && s'.row == s.row.(status := s'.row.status, issued := s'.row.issued, ttl := s'.row.ttl)
    requires s'.row.Row? && !Live(s'.row.status) && !s'.row.status.Terminal? ==> s'.row.token == 0
    ensures Tokens(s')
  {
  }

  lemma StepTokens(maxAttempts: nat, s: State, a: Action)
    requires Tokens(s)
    ensures Tokens(Step(maxAttempts, s, a))
  {
    if a.Acquire? {
      AcquireTokens(maxAttempts, s, a.activation, a.ttl);
    } else {
      SameTokens(s, Step(maxAttempts, s, a));
    }
  }

  lemma EndingAppended(s: State, s': State)
    requires s'.row.Row? && s'.endings == s.endings + [s'.row.activation] && s'.row.status.Terminal?
    requires forall k | 0 <= k < |s.endings| :: s.endings[k] < s'.row.activation
    requires forall j, k | 0 <= j < k < |s.endings| :: s.endings[j] < s.endings[k]
    ensures forall j, k | 0 <= j < k < |s'.endings| :: s'.endings[j] < s'.endings[k]
    ensures s'.row.activation in s'.endings && forall k | 0 <= k < |s'.endings| :: s'.endings[k] <= s'.row.activation
  {
    assert s'.endings[|s.endings|] == s'.row.activation;
  }

  /** What a step other than an issue records of its reads. */
  predicate Reads(positive: bool, s: State, s': State) {
    && (forall x :: x in s'.scanned ==> x in s.scanned || (positive <==> x > 0))
    && (forall r :: r in s'.parked ==> r in s.parked || (r.Row? && r == s.row))
  }

  lemma StepReads(positive: bool, maxAttempts: nat, s: State, a: Action)
    requires !a.Acquire? && Uniform(positive, a) && (s.row.Row? ==> (positive <==> s.row.activation > 0))
    ensures Reads(positive, s, Step(maxAttempts, s, a))
  {
  }

  /** The activation a step ends the row in is of the node's kind. */
  lemma EndsInKind(positive: bool, maxAttempts: nat, s: State, a: Action)
    requires !a.Acquire? && Uniform(positive, a) && Fresh(s, a) && Endings(positive, s)
    ensures var s' := Step(maxAttempts, s, a); s'.row.Row? ==> (positive <==> s'.row.activation > 0)
  {
    if a.FinalizeParked? && a.read in s.parked { assert a.read.Row? && a.read.activation <= s.row.activation; }
  }

  lemma MovesEndings(positive: bool, s: State, s': State)
    requires Endings(positive, s) && Moves(s, s') && Reads(positive, s, s')
    requires s'.row.Row? ==> (positive <==> s'.row.activation > 0)
    ensures Endings(positive, s')
  {
    if s'.endings != s.endings {
      forall k | 0 <= k < |s.endings| ensures s.endings[k] < s'.row.activation {
        assert s.endings[k] in s.endings && Reached(s.row, s.endings[k]);
      }
      EndingAppended(s, s');
    }
  }

  lemma AcquireEndings(positive: bool, maxAttempts: nat, s: State, activation: nat, ttl: nat)
    requires Endings(positive, s) && (positive <==> activation > 0)
    ensures Endings(positive, Step(maxAttempts, s, Acquire(activation, ttl)))
  {
  }

  lemma StepEndings(positive: bool, maxAttempts: nat, s: State, a: Action)
    requires Endings(positive, s) && Uniform(positive, a) && Fresh(s, a)
    ensures Endings(positive, Step(maxAttempts, s, a))
  {
    if a.Acquire? {
      AcquireEndings(positive, maxAttempts, s, a.activation, a.ttl);
    } else {
      StepMoves(maxAttempts, s, a);
      StepReads(positive, maxAttempts, s, a);
      EndsInKind(positive, maxAttempts, s, a);
      MovesEndings(positive, s, Step(maxAttempts, s, a));
    }
  }

  lemma RetryRetries(maxAttempts: nat, s: State, lease: Issue)
    requires Tokens(s) && Retries(maxAttempts, s)
    ensures Retries(maxAttempts, Step(maxAttempts, s, Retry(lease)))
  {
    if Step(maxAttempts, s, Retry(lease)) != s { assert s.issues[|s.issues| - 1] == lease; }
  }

  lemma AcquireRetries(maxAttempts: nat, s: State, activation: nat, ttl: nat)
    requires Tokens(s) && Retries(maxAttempts, s) && Acquirable(s, activation)
    ensures Retries(maxAttempts, Step(maxAttempts, s, Acquire(activation, ttl)))
  {
    var s' := Step(maxAttempts, s, Acquire(activation, ttl));
    forall k | 0 <= k < |s.retries| ensures s.retries[k] in s'.issues && s.retries[k].token < s.nextToken {
      assert s.retries[k] in s.issues;
      var i :| 0 <= i < |s.issues| && s.issues[i] == s.retries[k];
      assert s'.issues[i] == s.retries[k];
    }
  }

  /** A step that neither issues nor retries. */
  lemma SameRetries(maxAttempts: nat, s: State, s': State)
    requires Retries(maxAttempts, s) && s'.retries == s.retries && s'.issues == s.issues
    requires s'.row.Row? && Live(s'.row.status) ==> s.row.Row? && Live(s.row.status) && s'.row.token == s.row.token
    ensures Retries(maxAttempts, s')
  {
  }

  lemma StepRetries(maxAttempts: nat, s: State, a: Action)
    requires Tokens(s) && Retries(maxAttempts, s)
    ensures Retries(maxAttempts, Step(maxAttempts, s, a))
  {
    if a.Retry? {
      RetryRetries(maxAttempts, s, a.lease);
    } else if a.Acquire? {
      if Acquirable(s, a.activation) { AcquireRetries(maxAttempts, s, a.activation, a.ttl); }
    } else {
      SameRetries(maxAttempts, s, Step(maxAttempts, s, a));
    }
  }

  lemma StepKeeps(positive: bool, maxAttempts: nat, s: State, a: Action)
    requires Inv(positive, maxAttempts, s) && Uniform(positive, a) && Fresh(s, a)
    ensures Inv(positive, maxAttempts, Step(maxAttempts, s, a))
  {
    StepAttempts(positive, maxAttempts, s, a);
    StepTokens(maxAttempts, s, a);
    StepEndings(positive, maxAttempts, s, a);
    StepRetries(maxAttempts, s, a);
  }

  lemma {:induction false} RunKeeps(positive: bool, maxAttempts: nat, s: State, actions: seq<Action>)
    requires Inv(positive, maxAttempts, s) && Orderly(positive, maxAttempts, s, actions)
    ensures Inv(positive, maxAttempts, Run(maxAttempts, s, actions))
    decreases |actions|
  {
    if actions != [] {
      StepKeeps(positive, maxAttempts, s, actions[0]);
      RunKeeps(positive, maxAttempts, Step(maxAttempts, s, actions[0]), actions[1..]);
    }
  }

  /** A node terminalizes at most once per activation; within an activation the leases
      issued are attempts 1, 2, 3 and so on; and a retry is scheduled only below the limit
      and at most once per lease. */
  predicate GoodHistory(maxAttempts: nat, s: State) {
    && (forall j, k | 0 <= j < k < |s.endings| :: s.endings[j] < s.endings[k])
    && Numbered(s.issues)
    && (forall k | 0 <= k < |s.retries| :: s.retries[k] in s.issues && s.retries[k].attempt < maxAttempts)
    && (forall j, k | 0 <= j < k < |s.retries| :: s.retries[j].token != s.retries[k].token)
  }

  /** Every run whose writes never find the row in a later activation than they carry has a
      good history. */
  lemma LeaseHistory(positive: bool, maxAttempts: nat, actions: seq<Action>)
    requires Orderly(positive, maxAttempts, INITIAL, actions)
    ensures GoodHistory(maxAttempts, Run(maxAttempts, INITIAL, actions))
  {
    RunKeeps(positive, maxAttempts, INITIAL, actions);
  }

  /** Every activation on record is the given one. */
  predicate Single(activation: nat, s: State) {
    && (s.row.Row? ==> s.row.activation == activation)
    && (forall r :: r in s.parked && r.Row? ==> r.activation == activation)
    && (forall x :: x in s.scanned ==> x == activation)
  }

  lemma {:induction false} SingleIsOrderly(activation: nat, maxAttempts: nat, s: State, actions: seq<Action>)
    requires Single(activation, s) && forall a :: a in actions ==> Carries(a, activation)
    ensures Orderly(activation > 0, maxAttempts, s, actions)
    decreases |actions|
  {
    if actions != [] {
      assert actions[0] in actions;
      assert Single(activation, Step(maxAttempts, s, actions[0]));
      SingleIsOrderly(activation, maxAttempts, Step(maxAttempts, s, actions[0]), actions[1..]);
    }
  }

  /** In an acyclic execution every task of a node carries one activation, and then every
      run whatever, cancels and stale reads included, has a good history. */
  lemma AcyclicHistory(activation: nat, maxAttempts: nat, actions: seq<Action>)
    requires forall a :: a in actions ==> Carries(a, activation)
    ensures GoodHistory(maxAttempts, Run(maxAttempts, INITIAL, actions))
  {
    SingleIsOrderly(activation, maxAttempts, INITIAL, actions);
    LeaseHistory(activation > 0, maxAttempts, actions);
  }

  /** A row set back to an earlier activation: the next lease of the one it was in counts
      its attempts from one again. */
  lemma SetBackRepeatsAttempt(maxAttempts: nat, s: State, activation: nat)
    requires s.row.Row? && s.row.status.Terminal? && s.row.activation < activation && Count(s.issues, activation) > 0
    ensures !GoodHistory(maxAttempts, Run(maxAttempts, s, [Acquire(activation, 1)]))
  {
    var a := Acquire(activation, 1);
    var s' := Step(maxAttempts, s, a);
    assert Run(maxAttempts, s, [a]) == s' by {
      assert [a][1..] == [] && [a][0] == a;
      assert Run(maxAttempts, s, [a]) == Run(maxAttempts, Step(maxAttempts, s, [a][0]), [a][1..]);
    }
    var k := |s.issues|;
    assert s'.issues[..k] == s.issues && s'.issues[k] == Issue(activation, 1, s.nextToken);
    assert !NumberedAt(s'.issues, k);
  }

  /** A system commit, a merge cancel or the write of a parked row that ends a row at work
      leaves every orderly continuation with a good history if and only if it does not carry
      an earlier activation than the row's. */
  lemma KeepsHistoryIffFresh(positive: bool, maxAttempts: nat, s: State, a: Action)
    requires Inv(positive, maxAttempts, s) && s.row.Row? && !s.row.status.Terminal? && Uniform(positive, a)
    requires (a.SystemCommit? || a.MergeCancel? || a.FinalizeParked?) && Step(maxAttempts, s, a) != s
    ensures var s' := Step(maxAttempts, s, a);
      (forall more :: Orderly(positive, maxAttempts, s', more) ==> GoodHistory(maxAttempts, Run(maxAttempts, s', more)))
      <==> Fresh(s, a)
  {
    var s' := Step(maxAttempts, s, a);
    if Fresh(s, a) {
      StepKeeps(positive, maxAttempts, s, a);
      forall more | Orderly(positive, maxAttempts, s', more)
        ensures GoodHistory(maxAttempts, Run(maxAttempts, s', more))
      {
        RunKeeps(positive, maxAttempts, s', more);
      }
    } else {
      var again := [Acquire(s.row.activation, 1)];
      SetBackRepeatsAttempt(maxAttempts, s', s.row.activation);
      assert Orderly(positive, maxAttempts, s', again) by { assert again[1..] == []; }
    }
  }

  /** A lease that is no longer the row's, or whose row has ended. */
  predicate Superseded(s: State, lease: Issue) {
    s.row.Row? && (s.row.token != lease.token || s.row.status.Terminal?)
  }

  /** Such a lease never acts again: nothing it presents afterwards, in whatever order,
      changes the row. */
  lemma {:induction false} SupersededForever(maxAttempts: nat, s: State, actions: seq<Action>, lease: Issue)
    requires Tokens(s) && 0 < lease.token < s.nextToken && Superseded(s, lease)
    ensures var s' := Run(maxAttempts, s, actions);
      Superseded(s', lease) && forall a :: Presents(a, lease) ==> Step(maxAttempts, s', a) == s'
    decreases |actions|
  {
    if actions != [] {
      StepTokens(maxAttempts, s, actions[0]);
      SupersededForever(maxAttempts, Step(maxAttempts, s, actions[0]), actions[1..], lease);
    }
  }

  /** The two cancels that end a lease without presenting it: a merge cancel of a unit that
      does not wait and was not skipped, and the write of a row read while it waited. */
  predicate CutsOff(s: State, a: Action)
    requires s.row.Row?
  {
    || (a.MergeCancel? && a.activation in s.scanned && !a.marker.Skip? && !s.row.status.Waiting?)
    || (a.FinalizeParked? && a.read in s.parked && a.read.Row?)
  }

  /** While a lease is current and has not run out, a call that does not present it changes
      the row if and only if it is one of those two cancels. */
  lemma LiveLeaseKept(maxAttempts: nat, s: State, a: Action)
    requires s.row.Row? && Live(s.row.status) && s.row.token != 0 && (s.row.status.Running? ==> !Expired(s.row, s.now))
    requires !Presents(a, Issue(s.row.activation, s.row.attempt, s.row.token))
    ensures Step(maxAttempts, s, a).row != s.row <==> CutsOff(s, a)
    ensures CutsOff(s, a) ==> Step(maxAttempts, s, a).row.status.Terminal?
  {
  }

  predicate Presents(a: Action, lease: Issue) {
    match a
    case Claim(l) => l == lease
    case Park(l) => l == lease
    case Suspend(l) => l == lease
    case Commit(l) => l == lease
    case Retry(l) => l == lease
    case Renew(token, _) => token == lease.token && token != 0
    case Revoke(token) => token == lease.token && token != 0
    case _ => false
  }

  // ---- What a call under the current lease does ----

  /** The statuses in which a call under its lease takes effect, and the status it leads to. */
  function Leads(a: Action): Status
    requires a.Claim? || a.Park? || a.Suspend? || a.Commit? || a.Retry?
  {
    match a
    case Claim(_) => Committing
    case Park(_) => Waiting
    case Suspend(_) => Suspended
    case Commit(_) => Terminal
    case Retry(_) => Pending
  }

  predicate Admits(maxAttempts: nat, a: Action, status: Status)
    requires a.Claim? || a.Park? || a.Suspend? || a.Commit? || a.Retry?
  {
    match a
    case Claim(_) => status.Running?
    case Park(_) => status.Committing?
    case Suspend(_) => status.Committing?
    case Commit(_) => Live(status)
    case Retry(lease) => Live(status) && lease.attempt < maxAttempts
  }

  /** A call under a lease takes the row to its next status if and only if the lease is the
      row's and the row is where the call expects it; otherwise nothing changes. The lease
      stays on record exactly while the row is at work. */
  lemma ActsIffCurrent(maxAttempts: nat, s: State, a: Action)
    requires a.Claim? || a.Park? || a.Suspend? || a.Commit? || a.Retry?
    ensures var s' := Step(maxAttempts, s, a);
      if Current(s.row, a.lease) && Admits(maxAttempts, a, s.row.status) then
        && s'.row.Row? && s'.row.status == Leads(a)
        && s'.row.activation == s.row.activation && s'.row.attempt == s.row.attempt
        && s'.row.token == (if Live(Leads(a)) then s.row.token else 0)
        && s'.endings == (if a.Commit? then s.endings + [s.row.activation] else s.endings)
        && s'.retries == if a.Retry? then s.retries + [a.lease] else s.retries
      else s' == s
  {
  }

  /** A renewal moves when the lease runs out and nothing else, under its token, while the
      row runs or waits. */
  lemma RenewsIffHeld(maxAttempts: nat, s: State, token: nat, deadline: nat)
    ensures var s' := Step(maxAttempts, s, Renew(token, deadline));
      if s.row.Row? && (s.row.status.Running? || s.row.status.Waiting?) && token != 0 && s.row.token == token
      then s' == s.(row := s'.row) && s'.row.Row? && s'.row == s.row.(ttl := s'.row.ttl)
      else s' == s
  {
  }

  /** The lease runs out exactly at its new deadline if and only if that is after its issue;
      renewed to an earlier instant, as the deadline of an execution that ended before the
      lease was issued, it never runs out, although the renewal is meant to make it
      reclaimable at once. */
  lemma RunsOutAtDeadlineIff(maxAttempts: nat, s: State, token: nat, deadline: nat)
    requires s.row.Row? && (s.row.status.Running? || s.row.status.Waiting?) && token != 0 && s.row.token == token
    ensures var row := Step(maxAttempts, s, Renew(token, deadline)).row;
      && row.Row?
      && ((forall now: nat :: Expired(row, now) <==> now >= deadline) <==> deadline > s.row.issued)
      && (deadline <= s.row.issued ==> forall now: nat :: !Expired(row, now))
  {
    var row := Step(maxAttempts, s, Renew(token, deadline)).row;
    assert Expired(row, deadline) <==> deadline > s.row.issued;
  }

  /** A revoked row is pending again without a lease; the token alone is compared. */
  lemma RevokeResets(maxAttempts: nat, s: State, token: nat)
    ensures var s' := Step(maxAttempts, s, Revoke(token));
      if s.row.Row? && Live(s.row.status) && token != 0 && s.row.token == token then
        s'.row == Row(Pending, s.row.activation, s.row.attempt, 0, 0, 0) && s' == s.(row := s'.row)
      else s' == s
  {
  }

  /** The calls that end a row without a lease, and the activation they end. */
  predicate EndsUnleased(s: State, a: Action, activation: nat) {
    match a
    case SystemCommit(x) => x == activation && (s.row.Absent? || s.row.status.Pending?)
    case CancelSuspended => s.row.Row? && s.row.status.Suspended? && s.row.activation == activation
    case FinalizeParked(read) =>
      && read in s.parked && read.Row? && read.activation == activation
      && (s.row.Row? && s.row.status.Terminal? ==> s.row.activation < activation)
    case MergeCancel(x, marker) =>
      && x in s.scanned && x == activation && !marker.Skip?
      && (if s.row.Absent? || s.row.status.Pending? then marker.Execute?
          else !s.row.status.Terminal? && !s.row.status.Waiting?)
    case _ => false
  }

  /** A call without a lease ends the row if and only if it finds it where it may: a system
      commit before any lease, a cancel of a suspended row, the write of a row read while it
      waited unless it has ended since, a merge cancel of what is started and not waiting. */
  lemma EndsUnleasedIff(maxAttempts: nat, s: State, a: Action, activation: nat)
    requires a.SystemCommit? || a.CancelSuspended? || a.FinalizeParked? || a.MergeCancel?
    ensures Step(maxAttempts, s, a).endings == s.endings + [activation] <==> EndsUnleased(s, a, activation)
    ensures EndsUnleased(s, a, activation) ==>
      var row := Step(maxAttempts, s, a).row;
      && row.Row? && row.status.Terminal? && row.activation == activation
      && row.attempt == if a.FinalizeParked? then a.read.attempt else if s.row.Row? then s.row.attempt else 0
    ensures (forall x :: !EndsUnleased(s, a, x)) ==> Step(maxAttempts, s, a) == s
  {
    var s' := Step(maxAttempts, s, a);
    if s' == s {
      assert |s'.endings| == |s.endings|;
    } else {
      assert s'.endings[|s.endings|] == s'.row.activation;
      assert EndsUnleased(s, a, s'.row.activation);
    }
  }

  function Ticks(n: nat): seq<Action> { if n == 0 then [] else [Tick] + Ticks(n - 1) }

  lemma {:induction false} TicksPass(maxAttempts: nat, s: State, n: nat)
    ensures Run(maxAttempts, s, Ticks(n)) == s.(now := s.now + n)
    decreases n
  {
    if n > 0 {
      assert Ticks(n)[1..] == Ticks(n - 1);
      TicksPass(maxAttempts, Step(maxAttempts, s, Tick), n - 1);
    }
  }

  /** A running row's lease is replaced by the next attempt after `n` instants if and only
      if it has run out by then. */
  lemma ReplacedIffExpired(maxAttempts: nat, s: State, ttl: nat, n: nat)
    requires s.row.Row? && s.row.status.Running? && s.row.token != 0
    ensures var s' := Step(maxAttempts, Run(maxAttempts, s, Ticks(n)), Acquire(s.row.activation, ttl));
      if s.row.ttl > 0 && s.now + n >= s.row.issued + s.row.ttl then
        && s'.row == Row(Running, s.row.activation, s.row.attempt + 1, s.nextToken, s.now + n, ttl)
        && s'.issues == s.issues + [Issue(s.row.activation, s.row.attempt + 1, s.nextToken)]
      else s'.row == s.row && s'.issues == s.issues
  {
    TicksPass(maxAttempts, s, n);
  }

  /** An ended row is leased again if and only if the activation is a later one, and counts
      its attempts from one. */
  lemma ReopenedIffLater(maxAttempts: nat, s: State, activation: nat, ttl: nat)
    requires s.row.Row? && s.row.status.Terminal?
    ensures var s' := Step(maxAttempts, s, Acquire(activation, ttl));
      if activation > s.row.activation then s'.row == Row(Running, activation, 1, s.nextToken, s.now, ttl)
      else s' == s
  {
  }

  /** The two reads record what they saw: a waiting row, and the activation of a branch that
      has neither ended nor parked, its own if it has one. */
  lemma ReadsRecord(maxAttempts: nat, s: State, merge: nat)
    ensures Step(maxAttempts, s, ReadParked).parked
         == s.parked + if s.row.Row? && s.row.status.Waiting? then {s.row} else {}
    ensures s.row.Row? && (s.row.status.Terminal? || s.row.status.Waiting?) ==>
      Step(maxAttempts, s, ScanBranch(merge)) == s
    ensures !(s.row.Row? && (s.row.status.Terminal? || s.row.status.Waiting?)) ==>
      Step(maxAttempts, s, ScanBranch(merge)).scanned
        == s.scanned + {if s.row.Row? && s.row.activation > 0 then s.row.activation else merge}
  {
  }

  /** Each attempt is leased and then retried. */
  function Rounds(activation: nat, n: nat): seq<Action> {
    if n == 0 then [] else Rounds(activation, n - 1) + [Acquire(activation, 0), Retry(Issue(activation, n, n))]
  }

  function FirstIssues(activation: nat, n: nat): (issues: seq<Issue>)
    ensures |issues| == n && forall k | 0 <= k < n :: issues[k] == Issue(activation, k + 1, k + 1)
  {
    if n == 0 then [] else FirstIssues(activation, n - 1) + [Issue(activation, n, n)]
  }

  /** The state after `n` rounds below the limit. */
  function Retried(activation: nat, n: nat): State {
    var issues := FirstIssues(activation, n);
    State(if n == 0 then Absent else Row(Pending, activation, n, 0, 0, 0), 0, n + 1, issues, issues, [], {}, {})
  }

  lemma RoundSteps(maxAttempts: nat, activation: nat, n: nat)
    requires n > 0
    ensures var s' := Step(maxAttempts, Retried(activation, n - 1), Acquire(activation, 0));
      && s'.row == Row(Running, activation, n, n, 0, 0) && s'.issues == FirstIssues(activation, n)
      && Step(maxAttempts, s', Retry(Issue(activation, n, n))) == if n < maxAttempts then Retried(activation, n) else s'
  {
    var s := Retried(activation, n - 1);
    assert NextAttempt(s.row, activation) == n;
  }

  lemma {:induction false} RoundsRetry(maxAttempts: nat, activation: nat, n: nat)
    requires n < maxAttempts
    ensures Run(maxAttempts, INITIAL, Rounds(activation, n)) == Retried(activation, n)
  {
    if n > 0 {
      RoundsRetry(maxAttempts, activation, n - 1);
      RoundSteps(maxAttempts, activation, n);
      LastRound(maxAttempts, activation, n);
    }
  }

  lemma LastRound(maxAttempts: nat, activation: nat, n: nat)
    requires n > 0
    ensures Run(maxAttempts, INITIAL, Rounds(activation, n))
         == Step(maxAttempts, Step(maxAttempts, Run(maxAttempts, INITIAL, Rounds(activation, n - 1)),
                                   Acquire(activation, 0)), Retry(Issue(activation, n, n)))
  {
    var acquire, retry := Acquire(activation, 0), Retry(Issue(activation, n, n));
    var s := Run(maxAttempts, INITIAL, Rounds(activation, n - 1));
    RunJoins(maxAttempts, INITIAL, Rounds(activation, n - 1), [acquire, retry]);
    assert [acquire, retry][1..] == [retry] && [retry][1..] == [];
    assert Run(maxAttempts, s, [acquire, retry]) == Run(maxAttempts, Step(maxAttempts, s, acquire), [retry]);
  }

  /** A node that fails every time gets exactly as many attempts as the limit, numbered from
      one: each is retried except the last, whose lease stays for its verdict. */
  lemma RetriesRunOut(maxAttempts: nat, activation: nat)
    requires maxAttempts > 0
    ensures var s := Run(maxAttempts, INITIAL, Rounds(activation, maxAttempts));
      && s.issues == FirstIssues(activation, maxAttempts) && s.retries == FirstIssues(activation, maxAttempts - 1)
      && s.row == Row(Running, activation, maxAttempts, maxAttempts, 0, 0)
  {
    RoundsRetry(maxAttempts, activation, maxAttempts - 1);
    RoundSteps(maxAttempts, activation, maxAttempts);
    LastRound(maxAttempts, activation, maxAttempts);
  }

  // ---- Runs that break the history ----

  lemma RunFour(maxAttempts: nat, s: State, a: Action, b: Action, c: Action, d: Action)
    ensures Run(maxAttempts, s, [a, b, c, d])
         == Step(maxAttempts, Step(maxAttempts, Step(maxAttempts, Step(maxAttempts, s, a), b), c), d)
  {
    assert [a, b, c, d][1..] == [b, c, d] && [b, c, d][1..] == [c, d] && [c, d][1..] == [d] && [d][1..] == [];
    var s1 := Step(maxAttempts, s, a);
    var s2 := Step(maxAttempts, s1, b);
    assert Run(maxAttempts, s, [a, b, c, d]) == Run(maxAttempts, s1, [b, c, d]) == Run(maxAttempts, s2, [c, d]);
    assert Run(maxAttempts, s2, [c, d]) == Run(maxAttempts, Step(maxAttempts, s2, c), [d]);
  }

  lemma {:induction false} RunJoins(maxAttempts: nat, s: State, actions: seq<Action>, more: seq<Action>)
    ensures Run(maxAttempts, s, actions + more) == Run(maxAttempts, Run(maxAttempts, s, actions), more)
    decreases |actions|
  {
    if actions == [] {
      assert actions + more == more;
    } else {
      assert (actions + more)[0] == actions[0] && (actions + more)[1..] == actions[1..] + more;
      RunJoins(maxAttempts, Step(maxAttempts, s, actions[0]), actions[1..], more);
    }
  }

  /** Mixing activation zero with positive ones: the run ends the same activation twice. */
  lemma MixedActivationsEndTwice() returns (actions: seq<Action>)
    ensures Run(1, INITIAL, actions).endings == [1, 0, 1]
  {
    var first := [SystemCommit(1), Acquire(2, 1), Revoke(1), Acquire(0, 1)];
    var rest := [Commit(Issue(0, 1, 2)), Acquire(1, 1), Commit(Issue(1, 1, 3)), Tick];
    RunFour(1, INITIAL, first[0], first[1], first[2], first[3]);
    var middle := Run(1, INITIAL, first);
    assert middle == State(Row(Running, 0, 1, 2, 0, 1), 0, 3, [Issue(2, 1, 1), Issue(0, 1, 2)], [], [1], {}, {});
    RunFour(1, middle, rest[0], rest[1], rest[2], rest[3]);
    RunJoins(1, INITIAL, first, rest);
    actions := first + rest;
  }

  /** A cascade reads a row parked in activation one. */
  function ReadInOne(): State {
    var row := Row(Waiting, 1, 1, 1, 0, 1);
    State(row, 0, 2, [Issue(1, 1, 1)], [], [], {row}, {})
  }

  lemma ReadsInOne()
    ensures Run(1, INITIAL, [Acquire(1, 1), Claim(Issue(1, 1, 1)), Park(Issue(1, 1, 1)), ReadParked]) == ReadInOne()
  {
    RunFour(1, INITIAL, Acquire(1, 1), Claim(Issue(1, 1, 1)), Park(Issue(1, 1, 1)), ReadParked);
  }

  /** The row is then reclaimed and leased in activation two, the cascade's write ends
      activation one, and activation two gets a second first attempt. */
  lemma StaleFinalizeRepeatsAttempt() returns (actions: seq<Action>)
    ensures var s := Run(1, INITIAL, actions);
      s.issues == [Issue(1, 1, 1), Issue(2, 1, 2), Issue(2, 1, 3)] && s.endings == [1]
  {
    var first := [Acquire(1, 1), Claim(Issue(1, 1, 1)), Park(Issue(1, 1, 1)), ReadParked];
    var rest := [Revoke(1), Acquire(2, 1), FinalizeParked(ReadInOne().row), Acquire(2, 1)];
    ReadsInOne();
    RunFour(1, ReadInOne(), rest[0], rest[1], rest[2], rest[3]);
    RunJoins(1, INITIAL, first, rest);
    actions := first + rest;
  }
}
