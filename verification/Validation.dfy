/** The guards every append must pass (execution/validation.py, linkage.py, freshness.py). */
module Validation {
  import opened Basics
  import opened Models
  import opened Outcomes
  import opened Projection

  function Names(rid: Id): Request -> bool { (r: Request) => r.requestId == rid }
  function Touches(oid: Id): Request -> bool { (r: Request) => r.orderId == oid }

  function ConfigOf(symbol: string): AppliedConfig -> bool { (c: AppliedConfig) => c.symbol == symbol }

  /** The last applied revision; a symbol never configured is at the baseline revision 1. */
  function AppliedVersion(configs: seq<AppliedConfig>, symbol: string): Positive {
    var mine := Select(ConfigOf(symbol), configs);
    if |mine| == 0 then 1 else mine[|mine| - 1].version
  }

  function CheckFreshness(j: Journal, c: Command, now: int): Result<()> {
    if c.expiresAt.Some? && now >= c.expiresAt.value then Err("COMMAND_EXPIRED")
    else if c.configVersion != AppliedVersion(j.configs, c.symbol) then Err("STALE_CONFIG_VERSION")
    else Ok(())
  }

  /* ----- commands ----- */

  function CheckNew(j: Journal, c: Command): Result<()>
    requires c.New?
  {
    var position := PortfolioOf(j, c.symbol);
    if c.side.Buy? then
      if position.entryStopped || position.reconciliationRequired then Err("ENTRY_BLOCKED") else Ok(())
    else
      if c.qty > position.Available() then Err("SELL_QUANTITY_UNAVAILABLE") else Ok(())
  }

  /** An accepted change of the order whose effect is not settled yet. */
  predicate IsOpenChange(facts: seq<Fact>, r: Request, oid: Id) {
    r.command.IsChange() && r.orderId == oid && r.decision.Accepted? && !Status(facts, r).EffectSettled()
  }

  predicate ChangePending(j: Journal, oid: Id) {
    exists r :: r in j.requests && IsOpenChange(j.facts, r, oid)
  }

  function CheckChange(j: Journal, c: Command): Result<()>
    requires c.IsChange()
  {
    var target := First(Touches(c.target), j.requests);
    if target.None? then Err("ORDER_NOT_FOUND")
    else if target.value.command.symbol != c.symbol || target.value.command.side != c.side then
      Err("TARGET_OWNERSHIP_MISMATCH")
    else
      var snapshot :- OrderOf(j, c.target);
      if c.linkVersion != snapshot.linkVersion then Err("STALE_LINK_VERSION")
      else if snapshot.active.None? || snapshot.active.value <= 0 || snapshot.reconciliationRequired then
        Err("TARGET_QUANTITY_UNCONFIRMED")
      else if ChangePending(j, c.target) then Err("CHANGE_ALREADY_PENDING")
      else if c.Amend? && c.qtyDelta < -snapshot.active.value then Err("AMEND_QUANTITY_EXCEEDS_ACTIVE")
      else if c.Cancel? && c.cancelQty > snapshot.active.value then Err("CANCEL_QUANTITY_EXCEEDS_ACTIVE")
      else Ok(())
  }

  function CheckCommand(j: Journal, c: Command): Result<()> {
    if c.New? then CheckNew(j, c) else CheckChange(j, c)
  }

  /* ----- evidence ----- */

  function AcceptedRequest(j: Journal, rid: Id): (r: Result<Request>)
    ensures r.Ok? ==> r.value in j.requests && r.value.requestId == rid && r.value.decision.Accepted?
  {
    match First(Names(rid), j.requests)
    case Some(r) => if r.decision.Accepted? then Ok(r) else Err("REQUEST_NOT_FOUND_OR_UNSUPPORTED")
    case None => Err("REQUEST_NOT_FOUND_OR_UNSUPPORTED")
  }

  /** An effect must repeat the change it confirms, and be the first to confirm it. */
  function CheckEffect(j: Journal, f: Fact): Result<()>
    requires f.Amended? || f.Cancelled?
  {
    var r :- AcceptedRequest(j, f.requestId);
    if f.Amended? && !(r.command.Amend? && r.orderId == f.orderId && r.command.qtyDelta == f.qtyDelta) then
      Err("AMEND_CORRELATION_MISMATCH")
    else if f.Cancelled? && !(r.command.Cancel? && r.orderId == f.orderId && f.qty <= r.command.cancelQty) then
      Err("CANCEL_CORRELATION_MISMATCH")
    else if Status(j.facts, r).effect == Some(CONFIRMED) then Err("EFFECT_ALREADY_CONFIRMED")
    else Ok(())
  }

  function CheckUnsent(j: Journal, f: Fact): Result<()>
    requires f.SendFailed?
  {
    var r :- AcceptedRequest(j, f.requestId);
    var current := Status(j.facts, r);
    var valid := match f.proof
      case NotInvoked => current.transport.IntentPersisted?
      case VerifiedUnsent => current.transport.Observed? && !current.transport.state.SENT?;
    if current.positiveEvidence || !valid then Err("UNSENT_PROOF_INVALID") else Ok(())
  }

  function CheckRejection(j: Journal, f: Fact): Result<()>
    requires f.Rejected? || f.EffectRejected?
  {
    var r :- AcceptedRequest(j, f.requestId);
    if Status(j.facts, r).transport.IntentPersisted? then Err("REJECTION_BEFORE_INVOCATION")
    else if f.EffectRejected? && !r.command.IsChange() then Err("EFFECT_REJECTION_REQUIRES_CHANGE")
    else Ok(())
  }

  /** A request that keeps a discrepancy of its symbol from being reconciled. */
  predicate KeepsOpen(j: Journal, r: Request) {
    Status(j.facts, r).Unresolved() || (OrderOf(j, r.orderId).Ok? && OrderOf(j, r.orderId).value.reconciliationRequired)
  }

  function CheckReconciliation(j: Journal, f: Fact): Result<()>
    requires f.Reconciled?
  {
    if !exists d :: d in j.facts && d.Discrepancy? && d.eventId == f.discrepancyId && d.symbol == f.symbol then
      Err("DISCREPANCY_NOT_FOUND")
    else if exists g :: g in j.facts && g.Reconciled? && g.discrepancyId == f.discrepancyId then
      Err("DISCREPANCY_ALREADY_RESOLVED")
    else if j.Revision() != f.reviewedRevision then Err("STALE_RECONCILIATION_REVIEW")
    else if !f.query.Complete() || f.query.revisionAtFinish != f.reviewedRevision then
      Err("QUERY_EVIDENCE_INCOMPLETE")
    else if f.query.observedManaged != f.observedManaged then Err("QUERY_QUANTITY_MISMATCH")
    else if exists r :: r in j.requests && r.command.symbol == f.symbol && KeepsOpen(j, r) then
      Err("RECONCILIATION_ORDER_UNRESOLVED")
    else if PortfolioOf(j, f.symbol).managed != f.observedManaged then Err("RECONCILIATION_QUANTITY_MISMATCH")
    else Ok(())
  }

  /* ----- quarantine linkage ----- */

  function QuarantineWith(qid: Id): Fact -> bool { (f: Fact) => f.QuarantinedFill? && f.eventId == qid }

  /** Accepted requests acknowledged under a broker order number. */
  function AcknowledgedAs(facts: seq<Fact>, brokerOrderNo: string): Request -> bool {
    (r: Request) =>
      r.decision.Accepted?
      && exists f :: f in facts && f.Ack? && f.brokerOrderNo == brokerOrderNo && f.requestId == r.requestId
  }

  /** The fill a quarantined execution stands for: its broker number must lead to one order. */
  function LinkedFill(j: Journal, qid: Id): (r: Result<Fact>)
    ensures r.Ok? ==> r.value.Fill? && r.value.eventId == Uuid5(qid, "linked-fill")
  {
    var source := First(QuarantineWith(qid), j.facts);
    if source.None? then Err("QUARANTINE_NOT_FOUND")
    else
      var q := source.value;
      var targets := Select(AcknowledgedAs(j.facts, q.brokerOrderNo), j.requests);
      if |targets| == 0 || exists t :: t in targets && t.orderId != targets[0].orderId then
        Err("QUARANTINE_LINK_NOT_UNIQUE")
      else
        match Initial(j.requests, targets[0].orderId)
        case None => Err("ORDER_NOT_FOUND")
        case Some(original) =>
          if original.command.symbol != q.symbol then Err("QUARANTINE_SYMBOL_MISMATCH")
          else Ok(Fill(Uuid5(qid, "linked-fill"), original.orderId, q.version, q.remaining, q.qty, None, None))
  }

  function CheckRelease(j: Journal, f: Fact): Result<()>
    requires f.QuarantineReleased?
  {
    var fill :- LinkedFill(j, f.quarantineId);
    if f.fillId != fill.eventId || fill !in j.facts then Err("QUARANTINE_FILL_NOT_COMMITTED")
    else if exists g :: g in j.facts && g.QuarantineReleased? && g.quarantineId == f.quarantineId then
      Err("QUARANTINE_ALREADY_RELEASED")
    else Ok(())
  }

  function CheckFact(j: Journal, f: Fact): Result<()> {
    match f
    case Fill(_, oid, _, _, _, _, _) => if OrderOf(j, oid).Ok? then Ok(()) else Err("ORDER_NOT_FOUND")
    case Ack(_, rid, _) => if AcceptedRequest(j, rid).Ok? then Ok(()) else Err("REQUEST_NOT_FOUND_OR_UNSUPPORTED")
    case Transport(_, rid, _) => if AcceptedRequest(j, rid).Ok? then Ok(()) else Err("REQUEST_NOT_FOUND_OR_UNSUPPORTED")
    case Amended(_, _, _, _, _, _) => CheckEffect(j, f)
    case Cancelled(_, _, _, _, _, _) => CheckEffect(j, f)
    case SendFailed(_, _, _, _) => CheckUnsent(j, f)
    case Rejected(_, _, _) => CheckRejection(j, f)
    case EffectRejected(_, _, _) => CheckRejection(j, f)
    case Discrepancy(_, _, _) => Ok(())
    case QuarantinedFill(_, _, _, _, _, _) => Ok(())
    case QuarantineReleased(_, _, _, _) => CheckRelease(j, f)
    case Reconciled(_, _, _, _, _, _, _) => CheckReconciliation(j, f)
  }
}
