/** No request is made, and none is called, after its deadline or under another revision than the
    symbol's own. */
module Deadlines {
  import opened Basics
  import opened Models
  import opened Ownership
  import opened Outcomes
  import opened Projection
  import opened Validation
  import opened Steps
  import opened StopEvaluation
  import opened LedgerSpec
  import opened DispatchSpec
  import opened Runs
  import opened Worlds
  import opened Theorems
  import opened Meaning
  import opened StopFires
  import opened Admission
  import opened Claims
  import opened Origins

  /** In every run each request was made in a reviewed session, before its deadline, under the revision that
      was then current, and with its link, its position or its order as the guards want them. */
  lemma MadeInTime(ops: seq<Op>, r: Request) returns (k: nat)
    requires Legal(START, ops) && r in RunAll(START, ops).Journal().requests
    ensures k < |ops| && ops[k].DoSubmit? && ops[k].order == r.command && Before(ops, k).session.ready
    ensures var j := Before(ops, k).Journal();
            && InTime(r.command, ops[k].now) && Current(j, r.command.symbol, r.command.configVersion)
            && LinkStands(j, r.command) && (if r.command.New? then MayPlace(j, r.command) else exists x :: MayChange(j, r.command, x))
  {
    hide Invariant, RunAll, Legal, Submit, Current, LinkStands, MayPlace, MayChange;
    k := RequestOrigin(ops, r);
    LaterThan(ops, k);
    SubmitTakenIff(Before(ops, k).session, r.command, ops[k].now, ops[k].rid, ops[k].oid);
  }

  /** The claim of a request that may be claimed. */
  ghost predicate ClaimsInTime(w: World, op: Op, rid: Id) {
    && op.DoClaim? && op.rid == rid
    && exists r :: r in w.Journal().requests && r.requestId == rid && MayClaim(w.session, r, op.now) && StopGoes(w.Journal(), r, op.market)
  }

  lemma SuccessfulClaim(w: World, rid: Id, market: Option<MarketSession>, now: int, eid: Id)
    requires Invariant(w.Journal()) && Claim(w.session, rid, market, now, eid).result == Ok(true)
    ensures ClaimsInTime(w, DoClaim(rid, market, now, eid), rid)
  {
    hide Invariant, MayClaim, StopGoes, Claimable, StopMayGo, CheckFreshness, BuyMayGo;
    var r := First(Names(rid), w.Journal().requests).value;
    ClaimedIff(w.session, r, market, now, eid);
  }

  lemma OnlyClaimsArm(w: World, op: Op, rid: Id)
    requires rid !in w.armed && rid !in w.calls && (rid in Perform(w, op).armed || rid in Perform(w, op).calls)
    ensures op.DoClaim? && op.rid == rid && Claim(w.session, rid, op.market, op.now, op.eid).result == Ok(true)
  {
    hide Submit, Claim, Ingest, Discard, Reprocess, ProcessQuote, LatchStop, ApplyInboxConfig, Allocate, SetControl, ApplyConfig,
         ApplyStopConfig, Approve, RecoveryFacts;
  }

  /** In every run with crashes anywhere, each call was claimed before its deadline, in a reviewed session,
      under the current revision, and while its buy or stop sell was free to go. */
  lemma CalledInTime(ops: seq<Op>, rid: Id) returns (k: nat)
    requires Legal(START, ops) && rid in RunAll(START, ops).calls
    ensures k < |ops| && ClaimsInTime(Before(ops, k), ops[k], rid)
  {
    hide Invariant, RunAll, Legal, Perform, ClaimsInTime, Claim;
    k := TurningPoint(START, ops, (w: World) => rid in w.armed || rid in w.calls);
    LaterThan(ops, k);
    OnlyClaimsArm(Before(ops, k), ops[k], rid);
    SuccessfulClaim(Before(ops, k), rid, ops[k].market, ops[k].now, ops[k].eid);
  }

  /** A SENDING fact that was not brought in from outside is the claim of a request in time. */
  lemma SendingInTime(ops: seq<Op>, f: Fact) returns (k: nat)
    requires Legal(START, ops) && f in RunAll(START, ops).Journal().facts && f.Transport? && f.state.SENDING?
    ensures k < |ops| && (ops[k] == DoIngest(f) || ClaimsInTime(Before(ops, k), ops[k], f.requestId))
  {
    hide Invariant, RunAll, Legal, Perform, ClaimsInTime, Claim, LinkedFill, Ingest;
    k := FactOrigin(ops, f);
    LaterThan(ops, k);
    LinkedIsFill(Before(ops, k).Journal(), ops[k], f);
    if ops[k].DoClaim? { SuccessfulClaim(Before(ops, k), f.requestId, ops[k].market, ops[k].now, ops[k].eid); }
  }

  lemma LinkedIsFill(j: Journal, op: Op, f: Fact)
    ensures op.DoReprocess? && LinkedFill(j, op.qid) == Ok(f) ==> f.Fill?
  {
  }
}
