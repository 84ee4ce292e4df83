/** Composing runs of the store. */
module Runs {
  import opened Units
  import opened Store

  /** A run is the run of its parts. */
  lemma {:induction false} RunExtends(cfg: Config, s: State, actions: seq<Action>, more: seq<Action>)
    requires Fits(cfg, s)
    ensures Run(cfg, s, actions + more) == Run(cfg, Run(cfg, s, actions), more)
    decreases |actions|
  {
    if actions == [] {
      assert actions + more == more;
    } else {
      assert (actions + more)[0] == actions[0] && (actions + more)[1..] == actions[1..] + more;
      RunExtends(cfg, Step(cfg, s, actions[0]), actions[1..], more);
    }
  }

  lemma RunOne(cfg: Config, s: State, actions: seq<Action>, a: Action)
    requires Fits(cfg, s)
    ensures Run(cfg, s, actions + [a]) == Step(cfg, Run(cfg, s, actions), a)
  {
    RunExtends(cfg, s, actions, [a]);
    assert Run(cfg, Step(cfg, Run(cfg, s, actions), a), []) == Step(cfg, Run(cfg, s, actions), a);
  }

  lemma RunSteps(cfg: Config, s: State, a: Action, b: Action)
    requires Fits(cfg, s)
    ensures Run(cfg, s, []) == s && Run(cfg, s, [a]) == Step(cfg, s, a)
    ensures Run(cfg, s, [a, b]) == Step(cfg, Step(cfg, s, a), b)
  {
    RunOne(cfg, s, [], a);
    RunOne(cfg, s, [a], b);
    assert [] + [a] == [a] && [a] + [b] == [a, b];
  }

  /** A successful commit that does not end the execution, on a folding store. */
  lemma CommitSettles(cfg: Config, s: State, u: nat, token: nat, fired: set<Port>)
    requires Fits(cfg, s) && cfg.fold && s.exec.Running? && s.remaining > 1 && Holds(s, u, token)
    ensures Step(cfg, s, Commit(u, token, Success, fired, false, false))
         == Settle(Land(cfg, s, u, Success, fired, false), u, Arrivals(cfg.g, u, Success, fired))
  {
  }

  lemma CommitTerminalizes(cfg: Config, s: State, u: nat, token: nat, fired: set<Port>)
    requires Fits(cfg, s) && Active(s.exec) && Holds(s, u, token)
    ensures Step(cfg, s, Commit(u, token, Success, fired, false, false))
         == Terminalize(cfg, s, u, Success, fired, false)
  {
  }

  lemma SkipTerminalizes(cfg: Config, s: State, u: nat)
    requires Fits(cfg, s) && Active(s.exec) && SkipTask(u) in s.log && u < Size(cfg.g) && s.rows[u].Idle?
    ensures Step(cfg, s, HandleSkip(u)) == Terminalize(cfg, s, u, Skipped, {}, false)
  {
  }

  lemma AdvanceSettles(cfg: Config, s: State, u: nat)
    requires Fits(cfg, s) && u < Size(cfg.g) && s.rows[u].Done? && u !in s.settled && s.exec.Running?
    requires AdvanceTask(u) in s.log
    ensures Step(cfg, s, HandleAdvance(u)) == Settle(s, u, Arrivals(cfg.g, u, s.rows[u].how, s.rows[u].fired))
  {
  }
}
