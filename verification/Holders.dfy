/** Who may hold share tokens, over every run of the system. */
module Holders {
  import opened Prelude
  import opened IdentityVerifier
  import opened Factory
  import opened System
  import opened Effects
  import opened Invariants
  import Sep57Runs

  /** In `w`, the call brings share tokens to `user`. */
  predicate Brings(cfg: Config, w: World, c: Call, token: Address, user: Address) {
    if c.Create? then cfg.deploy(c.salt) == token && user == cfg.factory
    else
      match ShareCallOf(cfg, w, c)
      case None => false
      case Some((a, call)) => a == token && Sep57Runs.Receives(call, user)
  }

  /** `user` received the token by the k-th call of the run, and was verified when it did. */
  ghost predicate Admitted(cfg: Config, w: World, steps: seq<Step>, token: Address, user: Address, k: nat)
    requires k < |steps|
  {
    var v := Run(cfg, w, steps[..k]);
    Apply(cfg, v, steps[k]).Ok? && Brings(cfg, v, steps[k].call, token, user) && Verified(v.users, user)
  }

  ghost predicate HoldersAdmitted(cfg: Config, w: World, steps: seq<Step>) {
    forall token, user | token in Run(cfg, w, steps).tokens
        && 0 < Get(Run(cfg, w, steps).tokens[token].balances, user) ::
      exists k: nat :: k < |steps| && Admitted(cfg, w, steps, token, user, k)
  }

  /** Whoever holds more after a call than before received it by that call, and was verified. */
  lemma {:induction false} GainedByCall(cfg: Config, w: World, s: Step, w': World, token: Address, user: Address)
    requires TokenEffect(cfg, w, s, w') && token in w'.tokens && 0 < Get(w'.tokens[token].balances, user)
    ensures (token in w.tokens && 0 < Get(w.tokens[token].balances, user))
         || (Brings(cfg, w, s.call, token, user) && Verified(w.users, user))
  {
    if !s.call.Create? && ShareCallOf(cfg, w, s.call).Some? {
      var (a, c) := ShareCallOf(cfg, w, s.call).value;
      if a == token {
        assert Get(w'.tokens[a].balances, user) == Get(Sep57Runs.Moved(w.tokens[a].balances, c), user);
      }
    }
  }

  lemma {:induction false} AdmittedBefore(cfg: Config, w: World, steps: seq<Step>, token: Address, user: Address,
      k: nat)
    requires steps != [] && k < |steps| - 1 && Admitted(cfg, w, steps[..|steps| - 1], token, user, k)
    ensures Admitted(cfg, w, steps, token, user, k)
  {
    assert steps[..|steps| - 1][..k] == steps[..k];
  }

  /**
   * Identity over whole system runs: every holder of every share token received
   * some of it by an accepted call, and the registry had it verified at that moment.
   */
  lemma {:induction false} HoldersWereVerified(cfg: Config, w: World, steps: seq<Step>)
    requires Genesis(cfg, w)
    ensures HoldersAdmitted(cfg, w, steps)
  {
    if steps != [] {
      var n := |steps| - 1;
      var front, last := steps[..n], steps[n];
      var v, v' := Run(cfg, w, front), Run(cfg, w, steps);
      HoldersWereVerified(cfg, w, front);
      UsdcConservation(cfg, w, steps);
      forall token, user | token in v'.tokens && 0 < Get(v'.tokens[token].balances, user)
        ensures exists k: nat :: k < |steps| && Admitted(cfg, w, steps, token, user, k)
      {
        if token in v.tokens && 0 < Get(v.tokens[token].balances, user) {
          var k: nat :| k < n && Admitted(cfg, w, front, token, user, k);
          AdmittedBefore(cfg, w, steps, token, user, k);
        } else {
          GainedByCall(cfg, v, last, v', token, user);
          assert Admitted(cfg, w, steps, token, user, n);
        }
      }
    }
  }
}
