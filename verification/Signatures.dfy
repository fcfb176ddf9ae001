/** One signature, one effect, across all share tokens of the system at once. */
module Signatures {
  import opened Prelude
  import opened MapSums
  import opened Factory
  import opened System
  import opened ShareBooks
  import Permit
  import Sep57
  import Sep57Runs

  /** Signed messages, one for each supply change, all addressed to one of these tokens. */
  ghost predicate Covers(ms: set<Bytes>, tokens: set<Address>, signed: set<Bytes>, changes: int) {
    && ms <= signed && |ms| == changes
    && forall m | m in ms :: Permit.Decode(m).Some? && Permit.Decode(m).value.contract in tokens
  }

  lemma {:induction false} TokenCovered(cfg: Sep57.Config, t: Sep57.State, signed: set<Bytes>) returns (ms: set<Bytes>)
    requires Sep57Runs.Reachable(cfg, t)
    requires forall m, s :: cfg.verify(cfg.adminSigner, m, s) ==> m in signed
    ensures Covers(ms, {cfg.self}, signed, Sep57Runs.SupplyChanges(t.events))
  {
    var steps :| Sep57Runs.Run(cfg, steps) == t;
    var a := Sep57Runs.Accepted(cfg, steps);
    ms := Sep57Runs.Messages(cfg, a);
    Sep57Runs.MessagesCounted(cfg, steps);
    Sep57Runs.RunPermits(cfg, steps);
    forall m | m in ms ensures m in signed && Permit.Decode(m).Some? && Permit.Decode(m).value.contract == cfg.self {
      var i :| 0 <= i < |a| && Sep57Runs.Permitted(a[i].call) && m == Permit.Encode(Sep57Runs.PermitOf(cfg, a[i].call));
      Permit.RoundTrip(Sep57Runs.PermitOf(cfg, a[i].call));
    }
  }

  ghost function ChangesOf(tokens: map<Address, Sep57.State>): map<Address, int> {
    map a | a in tokens :: Sep57Runs.SupplyChanges(tokens[a].events)
  }

  /** Messages to different tokens are different messages. */
  lemma {:induction false} CoversBoth(ms: set<Bytes>, ms': set<Bytes>, tokens: set<Address>, tokens': set<Address>,
      signed: set<Bytes>, n: int, n': int)
    requires Covers(ms, tokens, signed, n) && Covers(ms', tokens', signed, n') && tokens !! tokens'
    ensures Covers(ms + ms', tokens + tokens', signed, n + n')
  {
    assert ms !! ms';
  }

  lemma {:induction false} ChangesSplit(tokens: map<Address, Sep57.State>, a: Address)
    requires a in tokens
    ensures Sum(ChangesOf(tokens)) == Sep57Runs.SupplyChanges(tokens[a].events) + Sum(ChangesOf(tokens - {a}))
  {
    SumRemove(ChangesOf(tokens), a);
    assert ChangesOf(tokens) - {a} == ChangesOf(tokens - {a});
  }

  lemma {:induction false} AllCovered(cfg: Config, tokens: map<Address, Sep57.State>,
      signed: set<Bytes>)
    returns (ms: set<Bytes>)
    requires forall a | a in tokens :: Sep57Runs.Reachable(TokenConfig(cfg, a), tokens[a])
    requires forall m, s :: cfg.verify(cfg.adminSigner, m, s) ==> m in signed
    ensures Covers(ms, tokens.Keys, signed, Sum(ChangesOf(tokens)))
    decreases |tokens|
  {
    if tokens == map[] {
      ms := {};
      assert ChangesOf(tokens) == map[];
    } else {
      var a :| a in tokens;
      var rest := tokens - {a};
      var others := AllCovered(cfg, rest, signed);
      var own := TokenCovered(TokenConfig(cfg, a), tokens[a], signed);
      ChangesSplit(tokens, a);
      CoversBoth(own, others, {a}, rest.Keys, signed, Sep57Runs.SupplyChanges(tokens[a].events), Sum(ChangesOf(rest)));
      assert {a} + rest.Keys == tokens.Keys;
      ms := own + others;
    }
  }

  /**
   * If only signed messages verify, then in any run of the whole system the
   * supply changes of all share tokens together number at most the signed messages.
   */
  lemma {:induction false} SupplyChangesBoundedBySignatures(cfg: Config, w: World, steps: seq<Step>, signed: set<Bytes>)
    requires Genesis(cfg, w)
    requires forall m, s :: cfg.verify(cfg.adminSigner, m, s) ==> m in signed
    ensures Sum(ChangesOf(Run(cfg, w, steps).tokens)) <= |signed|
  {
    RunLinked(cfg, w, steps);
    var ms := AllCovered(cfg, Run(cfg, w, steps).tokens, signed);
    Sep57Runs.SubsetSize(ms, signed);
  }
}
