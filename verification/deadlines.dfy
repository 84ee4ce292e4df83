/** Deadlines as data: every lease ends with its execution, a rebuild grants no fresh
    budget, and the timeout guard agrees with the expiry it triggers. Instants are
    milliseconds; zero means unbounded. */
module Deadlines {
  import Lifecycle

  function Clamp(exec: nat, d: nat): nat {
    if exec == 0 then d else if d == 0 || exec < d then exec else d
  }

  /** A node lease: the node's timeout from the issue time, the enclosing group's
      deadline and the execution's. Building and recovering share it. */
  function LeaseDeadline(issued: nat, timeout: nat, outer: nat, exec: nat): nat {
    var own := if timeout > 0 then issued + timeout else 0;
    var bounded := if outer != 0 && (own == 0 || outer < own) then outer else own;
    Clamp(exec, bounded)
  }

  function GroupDeadline(timeout: nat, issued: nat, exec: nat): nat {
    Clamp(exec, if timeout > 0 then issued + timeout else 0)
  }

  /** A batch, anchored at the parent lease's issue time when the task carries it. */
  function BatchDeadline(parentIssued: nat, timeout: nat, outer: nat, exec: nat): nat {
    var own := if parentIssued != 0 && timeout > 0 then parentIssued + timeout else 0;
    var bounded := if outer != 0 && (own == 0 || outer < own) then outer else own;
    Clamp(exec, bounded)
  }

  function RenewDeadline(now: nat, extend: nat, exec: nat): nat {
    var d := now + extend;
    if exec != 0 && exec < d then exec else d
  }

  /** The budgets that are set. */
  function Budgets(issued: nat, timeout: nat, outer: nat, exec: nat): set<nat> {
    (if timeout > 0 then {issued + timeout} else {}) + (if outer != 0 then {outer} else {})
    + (if exec != 0 then {exec} else {})
  }

  /** The earliest of the budgets, or unbounded when none is set. */
  predicate Earliest(budgets: set<nat>, d: nat) {
    if budgets == {} then d == 0 else d in budgets && forall b :: b in budgets ==> d <= b
  }

  /** Every built, recovered, group or batch deadline is the earliest of the budgets
      that apply, and a renewal never passes the execution's: so each is at most the
      execution deadline. A batch has exactly its parent lease's budget; one that does not
      know when that lease was issued has no timeout of its own. */
  lemma DeadlinesAreEarliest(issued: nat, timeout: nat, outer: nat, exec: nat, now: nat, extend: nat)
    requires issued > 0
    ensures Earliest(Budgets(issued, timeout, outer, exec), LeaseDeadline(issued, timeout, outer, exec))
    ensures Earliest(Budgets(issued, timeout, 0, exec), GroupDeadline(timeout, issued, exec))
    ensures BatchDeadline(issued, timeout, outer, exec) == LeaseDeadline(issued, timeout, outer, exec)
    ensures Earliest(Budgets(issued, 0, outer, exec), BatchDeadline(0, timeout, outer, exec))
    ensures Earliest(Budgets(now, extend, 0, exec), RenewDeadline(now, extend, exec)) || extend == 0
    ensures exec != 0 ==>
      && 0 < LeaseDeadline(issued, timeout, outer, exec) <= exec && 0 < GroupDeadline(timeout, issued, exec) <= exec
      && 0 < BatchDeadline(issued, timeout, outer, exec) <= exec && RenewDeadline(now, extend, exec) <= exec
  {
    var budgets := Budgets(issued, timeout, outer, exec);
    if timeout > 0 { assert issued + timeout in budgets && issued + timeout in Budgets(issued, timeout, 0, exec); }
    if outer != 0 { assert outer in budgets && outer in Budgets(issued, 0, outer, exec); }
    if exec != 0 {
      assert exec in budgets && exec in Budgets(issued, timeout, 0, exec) && exec in Budgets(now, extend, 0, exec);
      assert exec in Budgets(issued, 0, outer, exec);
    }
    if extend > 0 { assert now + extend in Budgets(now, extend, 0, exec); }
  }

  /** However often a lease is renewed, its deadline stays within the execution's. */
  lemma {:induction false} RenewalsStayWithin(first: nat, renewals: seq<(nat, nat)>, exec: nat)
    requires exec != 0 && first <= exec
    ensures Renewed(first, renewals, exec) <= exec
    decreases |renewals|
  {
    if renewals != [] { RenewalsStayWithin(RenewDeadline(renewals[0].0, renewals[0].1, exec), renewals[1..], exec); }
  }

  /** Only the last renewal counts. */
  lemma {:induction false} LastRenewalDecides(first: nat, renewals: seq<(nat, nat)>, now: nat, extend: nat, exec: nat)
    ensures Renewed(first, renewals + [(now, extend)], exec)
         == if exec != 0 && exec < now + extend then exec else now + extend
    decreases |renewals|
  {
    var all := renewals + [(now, extend)];
    if renewals == [] {
      assert all[1..] == [];
    } else {
      assert all[0] == renewals[0] && all[1..] == renewals[1..] + [(now, extend)];
      LastRenewalDecides(RenewDeadline(renewals[0].0, renewals[0].1, exec), renewals[1..], now, extend, exec);
    }
  }

  function Renewed(d: nat, renewals: seq<(nat, nat)>, exec: nat): nat
    decreases |renewals|
  {
    if renewals == [] then d else Renewed(RenewDeadline(renewals[0].0, renewals[0].1, exec), renewals[1..], exec)
  }

  // ---- The timeout guard ----

  predicate ClampedToExecution(lease: nat, exec: nat) { lease != 0 && exec != 0 && lease >= exec }

  function Slack(lease: nat, exec: nat): nat { if ClampedToExecution(lease, exec) then Lifecycle.CLOCK_SLACK else 0 }

  predicate GuardReached(now: nat, lease: nat, exec: nat) {
    Lifecycle.DeadlineReached(now + Slack(lease, exec), exec)
  }

  /** A lease built from its budgets gets the slack if and only if it was cut off by the
      execution's own deadline, that is, no shorter budget was set: a node that ran out
      of its own time never does. */
  lemma SlackIffCutByExecution(issued: nat, timeout: nat, outer: nat, exec: nat)
    requires issued > 0
    ensures Slack(LeaseDeadline(issued, timeout, outer, exec), exec) > 0
       <==> exec != 0 && forall b :: b in Budgets(issued, timeout, outer, 0) ==> b >= exec
  {
    if timeout > 0 { assert issued + timeout in Budgets(issued, timeout, outer, 0); }
    if outer != 0 { assert outer in Budgets(issued, timeout, outer, 0); }
  }

  /** When the guard says the deadline is reached, the expiry it calls at that or a later
      instant, with the same slack, is never answered "not due" by the stored deadline;
      and with no slack a reached guard means the deadline itself has passed. */
  lemma GuardAgreesWithExpiry(s: Lifecycle.State, now: nat, lease: nat, ended: bool)
    requires GuardReached(now, lease, s.deadline) && s.now >= now
    ensures Lifecycle.Call(s, Lifecycle.ReadSnapshot(Slack(lease, s.deadline), ended)).1
         != Lifecycle.Finished(Lifecycle.NotDue)
    ensures Lifecycle.Call(s, Lifecycle.ReadStatus(Slack(lease, s.deadline))).1 != Lifecycle.Finished(Lifecycle.NotDue)
    ensures lease < s.deadline ==> now >= s.deadline
  {
  }

  /** Had the expiry used no slack while the guard did, it would have contradicted the
      guard exactly in the last milliseconds before the deadline. */
  lemma ExactExpiryWouldContradict(s: Lifecycle.State, lease: nat)
    requires s.status.Running? && s.deadline != 0 && lease != 0 && lease <= s.deadline
    ensures (GuardReached(s.now, lease, s.deadline)
      && Lifecycle.Call(s, Lifecycle.ReadSnapshot(0, false)).1 == Lifecycle.Finished(Lifecycle.NotDue))
       <==> lease == s.deadline && s.deadline - Lifecycle.CLOCK_SLACK <= s.now < s.deadline
  {
  }
}
