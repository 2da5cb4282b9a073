/** Applied revisions of a symbol only advance, and every stop binding belongs to one of them. */
module ConfigChain {
  import opened Basics
  import opened Ownership
  import opened Models
  import opened Settings
  import opened Projection
  import opened Validation
  import opened Steps
  import opened StopEvaluation
  import opened LedgerSpec

  ghost predicate Advancing(configs: seq<AppliedConfig>) {
    forall i, k :: 0 <= i < k < |configs| && configs[i].symbol == configs[k].symbol ==>
      configs[i].version < configs[k].version
  }

  ghost predicate CommandsApplyOnce(configs: seq<AppliedConfig>) {
    forall i, k :: 0 <= i < k < |configs| && configs[i].proof.Some? && configs[k].proof.Some? ==>
      configs[i].proof.value.0 != configs[k].proof.value.0
  }

  ghost predicate Bound(j: Journal, b: StopBinding) {
    exists c :: c in j.configs && c.symbol == b.symbol && c.version == b.version
  }

  ghost predicate AllBound(j: Journal) { forall b :: b in j.bindings ==> Bound(j, b) }

  ghost predicate DistinctBindings(bindings: seq<StopBinding>) {
    forall i, k :: 0 <= i < k < |bindings| ==>
      bindings[i].symbol != bindings[k].symbol || bindings[i].version != bindings[k].version
  }

  /** A revision applied from the inbox is that of the very command its digest commits to, and the
      rule of that command is bound. */
  ghost predicate Evidenced(j: Journal) {
    forall c :: c in j.configs && c.proof.Some? ==>
      c.Proves(c.proof.value.1.of) && BindingFor(c.proof.value.1.of) in j.bindings
  }

  /** Versions advance, commands are applied once, each binding has its revision, no two bindings
      share one, and a revision applied from the inbox is backed by its command. */
  ghost predicate Chained(j: Journal) {
    && Advancing(j.configs) && CommandsApplyOnce(j.configs)
    && AllBound(j) && DistinctBindings(j.bindings) && Evidenced(j)
  }

  lemma AppliedAppend(configs: seq<AppliedConfig>, c: AppliedConfig, symbol: string)
    ensures AppliedVersion(configs + [c], symbol) == if c.symbol == symbol then c.version else AppliedVersion(configs, symbol)
  {
    hide Select;
    SelectAppend(ConfigOf(symbol), configs, c);
  }

  /** With advancing revisions the applied one is the highest. */
  lemma {:induction false} AppliedIsHighest(configs: seq<AppliedConfig>, symbol: string)
    requires Advancing(configs)
    ensures forall c :: c in configs && c.symbol == symbol ==> c.version <= AppliedVersion(configs, symbol)
    ensures (exists c :: c in configs && c.symbol == symbol) ==>
              exists c :: c in configs && c.symbol == symbol && c.version == AppliedVersion(configs, symbol)
    ensures (forall c :: c in configs ==> c.symbol != symbol) ==> AppliedVersion(configs, symbol) == 1
  {
    hide AppliedVersion;
    if |configs| > 0 {
      var n := |configs| - 1;
      var front, last := configs[..n], configs[n];
      AppliedIsHighest(front, symbol);
      AppliedAppend(front, last, symbol);
      assert configs == front + [last];
      assert last in configs;
      forall c | c in configs && c.symbol == symbol ensures c.version <= AppliedVersion(configs, symbol) {
        if c !in front {
          assert c == last;
        } else if last.symbol == symbol {
          var i :| 0 <= i < n && configs[i] == c;
        }
      }
    } else {
      UnconfiguredIsFirst(configs, symbol);
    }
  }

  lemma UnconfiguredIsFirst(configs: seq<AppliedConfig>, symbol: string)
    requires |configs| == 0
    ensures AppliedVersion(configs, symbol) == 1
  {
  }

  lemma NextIsHigher(j: Journal, c: AppliedConfig)
    requires Advancing(j.configs)
    requires AppliedVersion(j.configs, c.symbol) < c.version || forall x :: x in j.configs ==> x.symbol != c.symbol
    ensures forall x :: x in j.configs && x.symbol == c.symbol ==> x.version < c.version
  {
    hide AppliedVersion;
    AppliedIsHighest(j.configs, c.symbol);
  }

  lemma RevisionsKept(j: Journal, s: Step)
    requires Advancing(j.configs) && CommandsApplyOnce(j.configs) && Allowed(j, s)
    ensures Advancing(Commit(j, s).configs) && CommandsApplyOnce(Commit(j, s).configs)
  {
    hide CheckFact, Admissible, AppliedVersion;
    if s.AddConfig? { NextIsHigher(j, s.config); }
  }

  lemma AllBoundKept(j: Journal, s: Step)
    requires AllBound(j) && Allowed(j, s)
    ensures AllBound(Commit(j, s))
  {
    hide CheckFact, Admissible, AppliedVersion;
    var k := Commit(j, s);
    assert forall c :: c in j.configs ==> c in k.configs;
    if s.AddConfig? { assert s.config in k.configs; }
    forall b | b in k.bindings ensures Bound(k, b) { if b in j.bindings { assert Bound(j, b); } }
  }

  lemma DistinctBindingsKept(j: Journal, s: Step)
    requires Advancing(j.configs) && AllBound(j) && DistinctBindings(j.bindings) && Allowed(j, s)
    ensures DistinctBindings(Commit(j, s).bindings)
  {
    hide CheckFact, Admissible, AppliedVersion;
    if s.AddConfig? {
      NextIsHigher(j, s.config);
      forall b | b in j.bindings ensures b.symbol == s.config.symbol ==> b.version < s.config.version {
        assert Bound(j, b);
      }
    }
  }

  lemma EvidencedKept(j: Journal, s: Step)
    requires Evidenced(j) && Allowed(j, s)
    ensures Evidenced(Commit(j, s))
  {
    hide CheckFact, Admissible, AppliedVersion;
    var k := Commit(j, s);
    assert forall b :: b in j.bindings ==> b in k.bindings;
    if s.AddConfig? && s.config.proof.Some? { assert s.bound[0] in k.bindings; }
  }

  lemma ChainedKept(j: Journal, s: Step)
    requires Chained(j) && Allowed(j, s)
    ensures Chained(Commit(j, s))
  {
    hide Commit, Allowed, Advancing, CommandsApplyOnce, AllBound, DistinctBindings, Evidenced;
    EvidencedKept(j, s);
    RevisionsKept(j, s);
    AllBoundKept(j, s);
    DistinctBindingsKept(j, s);
  }

  ghost predicate IsRevisionOf(c: AppliedConfig, b: StopBinding) { c.symbol == b.symbol && c.version == b.version }

  /** The i-th configuration is the revision of this binding, and no other is. */
  ghost predicate OnlyRevision(j: Journal, b: StopBinding, i: int) {
    && 0 <= i < |j.configs| && IsRevisionOf(j.configs[i], b)
    && forall k :: 0 <= k < |j.configs| && IsRevisionOf(j.configs[k], b) ==> k == i
  }

  /** A binding belongs to exactly one applied revision. */
  lemma BindingHasOneRevision(j: Journal, b: StopBinding)
    requires Chained(j) && b in j.bindings
    ensures exists i :: OnlyRevision(j, b, i)
  {
    hide DistinctBindings, Evidenced, CommandsApplyOnce;
    assert Bound(j, b);
    var c :| c in j.configs && c.symbol == b.symbol && c.version == b.version;
    var i :| 0 <= i < |j.configs| && j.configs[i] == c;
    assert OnlyRevision(j, b, i);
  }

  /** A version that the guards let through is not bound yet: the branch of apply_inbox_config
      that reports an already bound version cannot be taken. */
  lemma VersionConflictUnreachable(s: Session, scope: Scope, c: ConfigCommand, digest: Digest)
    requires Chained(s.journal)
    ensures ApplyInboxConfig(s, scope, c, digest).result != Err("CONFLICT_CONFIG_APPLY_VERSION")
  {
    hide AppliedVersion, ExistingApplication;
    var j, b := s.journal, BindingFor(c);
    AppliedIsHighest(j.configs, b.symbol);
    var found := First(BindingOf(b.symbol, b.version), j.bindings);
    if found.Some? { assert Bound(j, found.value); }
    ExistingErrors(j, c, digest);
  }

  lemma ExistingErrors(j: Journal, c: ConfigCommand, digest: Digest)
    ensures ExistingApplication(j, c, digest).Err? ==>
              ExistingApplication(j, c, digest) == Err("CONFLICT_CONFIG_APPLY_IDENTITY")
  {
  }
}
