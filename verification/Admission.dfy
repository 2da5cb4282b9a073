/** Exactly which commands are taken, claimed and applied, told in positions, controls, latches,
    revisions and deadlines. */
module Admission {
  import opened Basics
  import opened Models
  import opened Ownership
  import opened Settings
  import opened Outcomes
  import opened Projection
  import opened Validation
  import opened Steps
  import opened StopEvaluation
  import opened LedgerSpec
  import opened DispatchSpec
  import opened StopObligations
  import opened Oversell
  import opened ConfigChain
  import opened Runs
  import opened Meaning
  import opened StopFires
  import Dispatch

  /** The deadline has not come. */
  ghost predicate InTime(c: Command, now: int) { c.expiresAt.None? || now < c.expiresAt.value }

  ghost predicate Stopped(j: Journal, symbol: string) {
    exists i :: Standing(j.controls, symbol, i) && j.controls[i].entryStopped
  }

  ghost predicate Liquidating(j: Journal, symbol: string) {
    exists i :: Standing(j.controls, symbol, i) && j.controls[i].liquidating
  }

  lemma {:induction false} ControlStands(controls: seq<Control>, symbol: string)
    ensures (exists c :: c in controls && c.symbol == symbol) ==> exists i :: Standing(controls, symbol, i)
  {
    if |controls| > 0 {
      var n := |controls| - 1;
      ControlStands(controls[..n], symbol);
      assert controls == controls[..n] + [controls[n]];
      if controls[n].symbol == symbol {
        assert Standing(controls, symbol, n);
      } else if exists i :: Standing(controls[..n], symbol, i) {
        var i :| Standing(controls[..n], symbol, i);
        assert Standing(controls, symbol, i);
      }
    }
  }

  lemma ControlMeans(j: Journal, symbol: string)
    ensures PortfolioOf(j, symbol).entryStopped <==> Stopped(j, symbol)
    ensures PortfolioOf(j, symbol).liquidating == LastControl(j.controls, symbol).liquidating
    ensures PortfolioOf(j, symbol).liquidating <==> Liquidating(j, symbol)
  {
    hide LastControl, Standing, Managed, Reserved, Discrepant, AnySellUnclear;
    LatestControlDecides(j.controls, symbol);
    ControlStands(j.controls, symbol);
    forall i | Standing(j.controls, symbol, i) ensures 0 <= i < |j.controls| { StandsWithin(j.controls, symbol, i); }
  }

  lemma StandsWithin(controls: seq<Control>, symbol: string, i: int)
    requires Standing(controls, symbol, i)
    ensures 0 <= i < |controls|
  {
  }

  /* ----- submissions ----- */

  /** Stop sells, and only they, bear the tag and name a latch of their symbol. */
  ghost predicate LinkStands(j: Journal, c: Command) {
    c.New? ==>
      && ("virtual-stop:" <= c.key <==> c.stopLatchVersion.Some?)
      && (c.stopLatchVersion.Some? ==>
            exists l :: l in j.latches && l.symbol == c.symbol && l.ruleVersion == c.stopLatchVersion.value)
  }

  /** A buy of a calm symbol that is neither stopped nor latched, or a sell that fits what is unreserved. */
  ghost predicate MayPlace(j: Journal, c: Command)
    requires c.New?
  {
    && Calm(j, c.symbol)
    && if c.side.Buy? then !Stopped(j, c.symbol) && Unlatched(j, c.symbol)
       else c.qty <= Managed(j, c.symbol) - Reserved(j, c.symbol)
  }

  ghost predicate Settled(j: Journal, oid: Id) {
    forall x :: x in j.requests && x.command.IsChange() && x.orderId == oid && x.decision.Accepted? ==>
      Decided(j.facts, x) && !Clashing(j.facts, x)
  }

  /** The order is the command's own, stands where the command believes it stands, has no other change under
      way, and has the quantity that is to be taken off it. */
  ghost predicate MayChange(j: Journal, c: Command, o: Request) {
    && c.IsChange() && o in j.requests && o.command.New? && o.orderId == c.target
    && o.command.symbol == c.symbol && o.command.side == c.side
    && var v := View(j.facts, o);
       && !v.reconciliationRequired && c.linkVersion == v.linkVersion && v.active.Some? && v.active.value > 0
       && Settled(j, c.target)
       && (if c.Amend? then 0 <= v.active.value + c.qtyDelta else c.cancelQty <= v.active.value)
  }

  lemma NewIsTaken(j: Journal, c: Command)
    requires Invariant(j) && c.New?
    ensures CheckNew(j, c).Ok? && !(c.side.Buy? && Latched(j, c.symbol)) <==> MayPlace(j, c)
  {
    hide Invariant, PortfolioOf, Calm, Managed, Reserved, Stopped;
    Parts(j);
    PositionMeans(j, c.symbol);
    ControlMeans(j, c.symbol);
  }

  lemma LinkIsTaken(j: Journal, c: Command)
    ensures CheckStopLink(j, c).Ok? <==> LinkStands(j, c)
  {
  }

  /** Of the requests that touch an order one opened it, and all share its symbol and side. */
  lemma OpenerOf(j: Journal, t: Request) returns (o: Request)
    requires WellFormed(j) && t in j.requests
    ensures o in j.requests && OpensFor(o, t) && Initial(j.requests, t.orderId) == Some(o)
  {
    assert Placed(j, t);
    if t.command.New? { o := t; } else { o :| o in j.requests && OpensFor(o, t); }
    Lookup(j, o);
  }

  lemma PendingMeans(j: Journal, oid: Id)
    ensures ChangePending(j, oid) <==> !Settled(j, oid)
  {
    hide Status, Decided, Clashing;
    forall x ensures Status(j.facts, x).EffectSettled() <==> x.command.IsChange() && Decided(j.facts, x) && !Clashing(j.facts, x) {
      SettledIsDecided(j.facts, x);
    }
    if !Settled(j, oid) {
      var x :| x in j.requests && x.command.IsChange() && x.orderId == oid && x.decision.Accepted?
               && !(Decided(j.facts, x) && !Clashing(j.facts, x));
      assert IsOpenChange(j.facts, x, oid);
    }
  }

  lemma ChangeIsTaken(j: Journal, c: Command)
    requires WellFormed(j) && c.IsChange()
    ensures CheckChange(j, c).Ok? <==> exists o :: MayChange(j, c, o)
  {
    hide WellFormed, View, Settled, ChangePending;
    PendingMeans(j, c.target);
    var found := First(Touches(c.target), j.requests);
    if found.Some? {
      var o := OpenerOf(j, found.value);
      forall x | MayChange(j, c, x) ensures x == o { Lookup(j, x); }
      if CheckChange(j, c).Ok? { assert MayChange(j, c, o); }
    }
  }

  /** A command under a new key is taken if and only if the session is reviewed, its deadline has not come, it
      names the symbol's current revision, its stop link stands, and its order may be placed or changed.  Then
      exactly one request is journalled, accepted unless it would raise a quantity. */
  lemma SubmitTakenIff(s: Session, c: Command, now: int, rid: Id, oid: Id)
    requires Invariant(s.journal) && forall r :: r in s.journal.requests ==> r.command.key != c.key
    ensures var j, o := s.journal, Submit(s, c, now, rid, oid);
            && (o.result.Ok?
                <==> s.ready && InTime(c, now) && Current(j, c.symbol, c.configVersion) && LinkStands(j, c)
                     && if c.New? then MayPlace(j, c) else exists x :: MayChange(j, c, x))
            && (o.result.Err? ==> o.session == s)
            && (o.result.Ok? ==>
                  var r := o.result.value.request;
                  && o.result.value.created && o.session.journal.requests == j.requests + [r]
                  && o.session.journal == j.(requests := j.requests + [r], obligations := o.session.journal.obligations)
                  && r.requestId == rid && r.command == c && r.orderId == (if c.New? then oid else c.target)
                  && (r.decision.RejectedUnsupported? <==> c.Amend? && c.qtyDelta > 0))
  {
    hide Invariant, CheckNew, CheckChange, CheckStopLink, LinkStands, MayPlace, MayChange, Current, AppliedVersion, Latched;
    var j := s.journal;
    Parts(j);
    AppliedIsCurrent(j, c.symbol, c.configVersion);
    LinkIsTaken(j, c);
    if c.New? { NewIsTaken(j, c); } else { ChangeIsTaken(j, c); }
    assert First(KeyIs(c.key), j.requests).None?;
  }

  /* ----- controls, holdings to begin with, and revisions ----- */

  /** A control is taken in a reviewed session, and is from then on the one that counts for its symbol. */
  lemma ControlTakenIff(s: Session, c: Control, symbol: string)
    ensures var j, o := s.journal, SetControl(s, c);
            && (o.result.Ok? <==> s.ready) && (o.result.Err? ==> o.session == s)
            && (o.result.Ok? ==>
                  var k := o.session.journal;
                  && k == j.(controls := k.controls)
                  && (Stopped(k, symbol) <==> if c.symbol == symbol then c.entryStopped else Stopped(j, symbol))
                  && (Liquidating(k, symbol) <==> if c.symbol == symbol then c.liquidating else Liquidating(j, symbol)))
  {
    if s.ready {
      var j, k := s.journal, SetControl(s, c).session.journal;
      assert k.controls == j.controls + [c];
      if c.symbol == symbol {
        assert Standing(k.controls, symbol, |j.controls|);
        assert forall i :: Standing(k.controls, symbol, i) ==> i == |j.controls|;
      } else {
        assert forall i :: Standing(k.controls, symbol, i) ==> i < |j.controls| && k.controls[i] == j.controls[i];
        assert forall i :: Standing(j.controls, symbol, i) ==> Standing(k.controls, symbol, i);
        assert forall i :: Standing(k.controls, symbol, i) ==> Standing(j.controls, symbol, i);
      }
    }
  }

  /** Shares that nobody recorded yet are taken in a reviewed session before the symbol's first order. */
  lemma AllocationTakenIff(s: Session, a: Allocation)
    requires forall x :: x in s.journal.allocations ==> x.symbol != a.symbol
    ensures var j, o := s.journal, Allocate(s, a);
            && (o.result.Ok? <==> s.ready && forall r :: r in j.requests ==> r.command.symbol != a.symbol)
            && o.session == s.(journal := j.(allocations := j.allocations + if o.result.Ok? then [a] else []))
  {
    assert s.journal.allocations + [] == s.journal.allocations;
  }

  /** A revision is taken if and only if it is expected to follow the current one and goes beyond it; it is the
      current one then, with the rule it brings. */
  lemma RevisionTakenIff(s: Session, symbol: string, expected: int, version: Positive, kind: RuleKind, threshold: real)
    requires Chained(s.journal)
    ensures var j, plain, bound := s.journal, ApplyConfig(s, symbol, expected, version),
                                   ApplyStopConfig(s, StopBinding(symbol, version, kind, threshold), expected);
            && (plain.result.Ok? <==> s.ready && Current(j, symbol, expected) && expected < version)
            && (bound.result.Ok? <==> plain.result.Ok?)
            && (plain.result.Err? ==> plain.session == s && bound.session == s)
            && (plain.result.Ok? ==>
                  && Current(plain.session.journal, symbol, version)
                  && plain.session.journal == j.(configs := j.configs + [AppliedConfig(symbol, version, None)])
                  && bound.session.journal == plain.session.journal.(bindings := j.bindings + [StopBinding(symbol, version, kind, threshold)]))
  {
    hide AppliedVersion, Current;
    var j := s.journal;
    AppliedIsCurrent(j, symbol, expected);
    assert j.bindings + [] == j.bindings;
    if s.ready && Current(j, symbol, expected) && expected < version {
      FollowsCurrent(j, symbol, expected, version, ApplyConfig(s, symbol, expected, version).session.journal);
    }
  }

  lemma FollowsCurrent(j: Journal, symbol: string, expected: int, version: Positive, k: Journal)
    requires Current(j, symbol, expected) && expected < version
    requires k.configs == j.configs + [AppliedConfig(symbol, version, None)]
    ensures Current(k, symbol, version)
  {
    assert AppliedConfig(symbol, version, None) in k.configs;
  }

  /** What a first application from the inbox expects: the current version, or 0 before any. */
  ghost predicate Expected(j: Journal, symbol: string, version: int) {
    if exists x :: x in j.configs && x.symbol == symbol then Current(j, symbol, version) else version == 0
  }

  /** A desired setting new to the ledger is taken if and only if the session is reviewed, the setting is of the
      lease's account and environment, its digest is its own, and it follows the version it expects.  Then its
      revision and its rule are committed together.  One the ledger holds is recognised and changes nothing. */
  lemma SettingTakenIff(s: Session, scope: Scope, c: ConfigCommand, digest: Digest)
    requires Chained(s.journal)
    ensures var j, o := s.journal, ApplyInboxConfig(s, scope, c, digest);
            var known := exists e :: e in j.configs && e.proof.Some? && e.proof.value.0 == c.commandId;
            && (o.result.Ok?
                <==> s.ready && c.settings.accountId == scope.accountId && c.settings.environment == scope.environment
                     && digest == Sha256(c)
                     && if known then exists e :: e in j.configs && e.Proves(c)
                        else Expected(j, c.settings.symbol, c.expectedVersion) && c.expectedVersion < c.settings.version)
            && (o.result.Err? || known ==> o.session == s)
            && (o.result.Ok? && !known ==>
                  && o.result.value.Proves(c)
                  && o.session.journal == j.(configs := j.configs + [o.result.value],
                       bindings := j.bindings + [StopBinding(c.settings.symbol, c.settings.version, c.settings.kind, c.settings.threshold)]))
  {
    hide AppliedVersion, ExistingApplication, Chained, First, Current;
    var j, b := s.journal, BindingFor(c);
    ChainParts(j);
    VersionConflictUnreachable(s, scope, c, Sha256(c));
    ExistingMeans(j, c);
    AppliedIsCurrent(j, c.settings.symbol, c.expectedVersion);
    AppliedIsCurrent(j, c.settings.symbol, AppliedVersion(j.configs, c.settings.symbol));
    ExpectedMeans(j, c);
  }

  lemma ExpectedMeans(j: Journal, c: ConfigCommand)
    requires Chained(j)
    ensures CheckApplyVersion(j, c).Ok?
       <==> Expected(j, c.settings.symbol, c.expectedVersion) && c.expectedVersion < c.settings.version
  {
    hide AppliedVersion, Chained, Current;
    ChainParts(j);
    AppliedIsCurrent(j, c.settings.symbol, c.expectedVersion);
    AppliedIsHighest(j.configs, c.settings.symbol);
  }

  lemma ChainParts(j: Journal)
    requires Chained(j)
    ensures Advancing(j.configs) && CommandsApplyOnce(j.configs) && DistinctBindings(j.bindings) && Evidenced(j)
  {
  }

  lemma ExistingMeans(j: Journal, c: ConfigCommand)
    requires Chained(j)
    ensures var known := exists e :: e in j.configs && e.proof.Some? && e.proof.value.0 == c.commandId;
            var found := ExistingApplication(j, c, Sha256(c));
            && (found == Ok(None) <==> !known)
            && (found.Ok? && found.value.Some? <==> exists e :: e in j.configs && e.Proves(c))
  {
    hide First;
    var first := First(CommandIs(c.commandId), j.configs);
    forall e | e in j.configs && e.Proves(c) ensures first == Some(e) && First(BindingOf(e.symbol, e.version), j.bindings) == Some(BindingFor(c)) {
      forall x | x in j.configs && CommandIs(c.commandId)(x) ensures x == e {}
      FirstOnly(CommandIs(c.commandId), j.configs, e);
      FirstOnly(BindingOf(c.settings.symbol, c.settings.version), j.bindings, BindingFor(c));
    }
  }

  /* ----- answers ----- */

  /** A key that is known is answered with its request, and with a refusal when the command is another. */
  lemma KnownKeyAnswers(s: Session, c: Command, now: int, rid: Id, oid: Id, known: Request)
    requires WellFormed(s.journal) && known in s.journal.requests && known.command.key == c.key
    ensures Submit(s, c, now, rid, oid)
         == Outcome(if known.command == c then Ok(Submission(known, false)) else Err("CONFLICT_IDEMPOTENCY_MISMATCH"), s)
  {
    hide WellFormed, CheckSubmission;
    Dispatch.WellFormedDistinct(s.journal);
    forall x | x in s.journal.requests && KeyIs(c.key)(x) ensures x == known { SameRequest(s.journal, x, known); }
    FirstOnly(KeyIs(c.key), s.journal.requests, known);
  }

  /** Why a new order is refused: the first of these that holds, in this order. */
  ghost function Refusal(s: Session, c: Command, now: int): Option<string>
    requires c.New?
  {
    var j := s.journal;
    if !s.ready then Some("SESSION_RECONCILIATION_REQUIRED")
    else if !InTime(c, now) then Some("COMMAND_EXPIRED")
    else if !Current(j, c.symbol, c.configVersion) then Some("STALE_CONFIG_VERSION")
    else if c.side.Buy? && !Unlatched(j, c.symbol) then Some("ENTRY_STOP_LATCHED")
    else if "virtual-stop:" <= c.key && c.stopLatchVersion.None? then Some("STOP_LATCH_LINK_REQUIRED")
    else if c.stopLatchVersion.Some? && !("virtual-stop:" <= c.key) then Some("STOP_LATCH_KEY_REQUIRED")
    else if !LinkStands(j, c) then Some("STOP_LATCH_LINK_NOT_FOUND")
    else if MayPlace(j, c) then None
    else Some(if c.side.Buy? then "ENTRY_BLOCKED" else "SELL_QUANTITY_UNAVAILABLE")
  }

  lemma RefusedAs(s: Session, c: Command, now: int, rid: Id, oid: Id)
    requires Invariant(s.journal) && c.New? && forall r :: r in s.journal.requests ==> r.command.key != c.key
    ensures var o := Submit(s, c, now, rid, oid).result;
            match Refusal(s, c, now) case None => o.Ok? case Some(code) => o == Err(code)
  {
    hide Invariant, Current, AppliedVersion, Calm, Stopped, PortfolioOf, Managed, Reserved;
    var j := s.journal;
    Parts(j);
    AppliedIsCurrent(j, c.symbol, c.configVersion);
    PositionMeans(j, c.symbol);
    ControlMeans(j, c.symbol);
    assert First(KeyIs(c.key), j.requests).None?;
  }
}
