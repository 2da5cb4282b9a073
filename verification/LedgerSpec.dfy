/** What each ledger transaction does to a session: the committed journal and the readiness of
    the lease.  A refused transaction leaves both as they were (execution/ledger.py,
    execution/quarantine.py). */
module LedgerSpec {
  import opened Basics
  import opened Models
  import opened Outcomes
  import opened Settings
  import opened Ownership
  import opened Projection
  import opened Validation
  import opened Steps
  import opened StopEvaluation

  datatype Session = Session(journal: Journal, ready: bool)

  datatype Outcome<+T> = Outcome(result: Result<T>, session: Session)

  datatype Submission = Submission(request: Request, created: bool)

  function Refuse<T>(s: Session, code: string): Outcome<T> { Outcome(Err(code), s) }

  function After(s: Session, step: Step): Session { s.(journal := Commit(s.journal, step)) }

  function AllocationOf(symbol: string): Allocation -> bool { (a: Allocation) => a.symbol == symbol }
  function KeyIs(key: string): Request -> bool { (r: Request) => r.command.key == key }
  function EventIs(eid: Id): Fact -> bool { (f: Fact) => f.eventId == eid }
  function LatchOf(symbol: string): StopLatch -> bool { (l: StopLatch) => l.symbol == symbol }
  function CommandIs(cid: Id): AppliedConfig -> bool { (c: AppliedConfig) => c.proof.Some? && c.proof.value.0 == cid }

  function Allocate(s: Session, a: Allocation): Outcome<()> {
    var existing := First(AllocationOf(a.symbol), s.journal.allocations);
    if existing == Some(a) then Outcome(Ok(()), s)
    else if !s.ready then Refuse(s, NOT_READY)
    else if existing.Some? || exists r :: r in s.journal.requests && r.command.symbol == a.symbol then
      Refuse(s, "ALLOCATION_ALREADY_STARTED")
    else Outcome(Ok(()), After(s, AddAllocation(a)))
  }

  function SetControl(s: Session, c: Control): Outcome<()> {
    if !s.ready then Refuse(s, NOT_READY) else Outcome(Ok(()), After(s, AddControl(c)))
  }

  function ApplyConfig(s: Session, symbol: string, expected: int, version: Positive): Outcome<()> {
    if !s.ready then Refuse(s, NOT_READY)
    else if AppliedVersion(s.journal.configs, symbol) != expected then Refuse(s, "STALE_CONFIG_VERSION")
    else if version <= expected then Refuse(s, "CONFIG_VERSION_MUST_ADVANCE")
    else Outcome(Ok(()), After(s, AddConfig(AppliedConfig(symbol, version, None), [])))
  }

  function ApplyStopConfig(s: Session, b: StopBinding, expected: int): Outcome<()> {
    if !s.ready then Refuse(s, NOT_READY)
    else if AppliedVersion(s.journal.configs, b.symbol) != expected then Refuse(s, "STALE_CONFIG_VERSION")
    else if b.version <= expected then Refuse(s, "CONFIG_VERSION_MUST_ADVANCE")
    else Outcome(Ok(()), After(s, AddConfig(AppliedConfig(b.symbol, b.version, None), [b])))
  }

  /** An exact earlier application of the command, none, or a reused identity. */
  function ExistingApplication(j: Journal, c: ConfigCommand, digest: Digest): Result<Option<AppliedConfig>> {
    var b := BindingFor(c);
    match First(CommandIs(c.commandId), j.configs)
    case None => Ok(None)
    case Some(e) =>
      if e.symbol != b.symbol || e.version != b.version || e.proof != Some((c.commandId, digest))
         || First(BindingOf(b.symbol, b.version), j.bindings) != Some(b)
      then Err("CONFLICT_CONFIG_APPLY_IDENTITY")
      else Ok(Some(e))
  }

  /** The baseline revision 1 counts as expected version 0 until a first application. */
  function CheckApplyVersion(j: Journal, c: ConfigCommand): Result<()> {
    var symbol := c.settings.symbol;
    var current := AppliedVersion(j.configs, symbol);
    if (if exists x :: x in j.configs && x.symbol == symbol then current != c.expectedVersion
        else c.expectedVersion != 0 || current != 1)
    then Err("STALE_CONFIG_VERSION")
    else if c.settings.version <= c.expectedVersion then Err("CONFIG_VERSION_MUST_ADVANCE")
    else Ok(())
  }

  function ApplyInboxConfig(s: Session, scope: Scope, c: ConfigCommand, digest: Digest): Outcome<AppliedConfig> {
    var b := BindingFor(c);
    if c.settings.accountId != scope.accountId || c.settings.environment != scope.environment then
      Refuse(s, "CONFIG_EXECUTION_SCOPE_MISMATCH")
    else if Sha256(c) != digest then Refuse(s, "CONFIG_COMMAND_DIGEST_MISMATCH")
    else if !s.ready then Refuse(s, NOT_READY)
    else
      match ExistingApplication(s.journal, c, digest)
      case Err(code) => Refuse(s, code)
      case Ok(Some(e)) => Outcome(Ok(e), s)
      case Ok(None) =>
        match CheckApplyVersion(s.journal, c)
        case Err(code) => Refuse(s, code)
        case Ok(_) =>
          if First(BindingOf(b.symbol, b.version), s.journal.bindings).Some? then
            Refuse(s, "CONFLICT_CONFIG_APPLY_VERSION")
          else
            var applied := AppliedConfig(b.symbol, b.version, Some((c.commandId, digest)));
            Outcome(Ok(applied), After(s, AddConfig(applied, [b])))
  }

  /** The request a fresh submission journals. */
  function RequestFor(c: Command, rid: Id, oid: Id): Request {
    Request(rid, if c.New? then oid else c.target, c, DecisionFor(c))
  }

  function CheckSubmission(s: Session, c: Command, now: int): Result<()> {
    if !s.ready then Err(NOT_READY)
    else
      var _ :- CheckFreshness(s.journal, c, now);
      if c.New? && c.side.Buy? && Latched(s.journal, c.symbol) then Err("ENTRY_STOP_LATCHED")
      else
        var _ :- CheckStopLink(s.journal, c);
        CheckCommand(s.journal, c)
  }

  function Submit(s: Session, c: Command, now: int, rid: Id, oid: Id): Outcome<Submission> {
    match First(KeyIs(c.key), s.journal.requests)
    case Some(e) =>
      if e.command != c then Refuse(s, "CONFLICT_IDEMPOTENCY_MISMATCH")
      else Outcome(Ok(Submission(e, false)), s)
    case None =>
      match CheckSubmission(s, c, now)
      case Err(code) => Refuse(s, code)
      case Ok(_) =>
        var r := RequestFor(c, rid, oid);
        Outcome(Ok(Submission(r, true)), After(s, AddRequest(r)))
  }

  /** The rule bound to the revision under which a buy order was placed, if the fill is one of it. */
  function AssignmentsFor(j: Journal, f: Fact): seq<StopAssignment> {
    if !f.Fill? then []
    else
      match First(OpensBuy(f.orderId), j.requests)
      case None => []
      case Some(r) =>
        match First(BindingOf(r.command.symbol, r.command.configVersion), j.bindings)
        case None => []
        case Some(b) => [StopAssignment(f.eventId, r.command.symbol, f.qty, b.version)]
  }

  function OpensBuy(oid: Id): Request -> bool {
    (r: Request) => r.command.New? && r.orderId == oid && r.command.side.Buy?
  }

  /** Was this evidence journalled before?  The same identifier with other content is an error. */
  function Replayed(j: Journal, f: Fact): Result<bool> {
    match First(EventIs(f.eventId), j.facts)
    case None => Ok(false)
    case Some(e) => if e != f then Err("CONFLICT_EVENT_ID_MISMATCH") else Ok(true)
  }

  function Ingest(s: Session, f: Fact): Outcome<bool> {
    match Replayed(s.journal, f)
    case Err(code) => Refuse(s, code)
    case Ok(true) => Outcome(Ok(false), s)
    case Ok(false) =>
      match CheckFact(s.journal, f)
      case Err(code) => Refuse(s, code)
      case Ok(_) => Outcome(Ok(true), After(s, AddFact(f, AssignmentsFor(s.journal, f))))
  }

  function DiscardFact(rid: Id, reason: string): Fact {
    SendFailed(Uuid5(rid, "local-discard"), rid, NotInvoked, reason)
  }

  function Discard(s: Session, rid: Id, reason: string, expectedRevision: int): Outcome<bool> {
    var f := DiscardFact(rid, reason);
    match Replayed(s.journal, f)
    case Err(code) => Refuse(s, code)
    case Ok(true) => Outcome(Ok(false), s)
    case Ok(false) =>
      if !s.ready then Refuse(s, NOT_READY)
      else if s.journal.Revision() != expectedRevision then Refuse(s, "STALE_DISCARD_REVIEW")
      else
        match CheckFact(s.journal, f)
        case Err(code) => Refuse(s, code)
        case Ok(_) => Outcome(Ok(true), After(s, AddFact(f, [])))
  }

  function ReleaseFact(qid: Id, proof: string): Fact {
    QuarantineReleased(Uuid5(qid, "release"), qid, Uuid5(qid, "linked-fill"), proof)
  }

  /** The first half of a reprocessing: the derived fill is committed unless it already is. */
  function WithLinkedFill(s: Session, qid: Id): Outcome<()> {
    match LinkedFill(s.journal, qid)
    case Err(code) => Refuse(s, code)
    case Ok(fill) =>
      match Replayed(s.journal, fill)
      case Err(code) => Refuse(s, code)
      case Ok(true) => Outcome(Ok(()), s)
      case Ok(false) =>
        match CheckFact(s.journal, fill)
        case Err(code) => Refuse(s, code)
        case Ok(_) => Outcome(Ok(()), After(s, AddFact(fill, [])))
  }

  function Reprocess(s: Session, qid: Id, proof: string, expectedRevision: int): Outcome<bool> {
    var release := ReleaseFact(qid, proof);
    match Replayed(s.journal, release)
    case Err(code) => Refuse(s, code)
    case Ok(true) => Outcome(Ok(false), s)
    case Ok(false) =>
      if s.journal.Revision() != expectedRevision then Refuse(s, "STALE_QUARANTINE_REVIEW")
      else
        var mid := WithLinkedFill(s, qid);
        if mid.result.Err? then Refuse(s, mid.result.code)
        else
          match CheckFact(mid.session.journal, release)
          case Err(code) => Refuse(s, code)
          case Ok(_) => Outcome(Ok(true), After(mid.session, AddFact(release, [])))
  }

  /* ----- stop signals ----- */

  function QuoteRejection(j: Journal, symbol: string, q: Quote, t: ObserveAt): Option<string> {
    if q.symbol != symbol then Some("QUOTE_MISSING_OR_WRONG_SYMBOL")
    else if !IsFresh(q, t) then Some("QUOTE_NOT_FRESH")
    else if symbol in j.quotes && t.now < j.quotes[symbol].evaluatedAt then Some("EVALUATION_TIME_REVERSED")
    else if symbol in j.quotes && q.receivedAt == j.quotes[symbol].receivedAt then Some("QUOTE_DUPLICATE")
    else if symbol in j.quotes && q.receivedAt < j.quotes[symbol].receivedAt then Some("QUOTE_OUT_OF_ORDER")
    else if Latched(j, symbol) then Some("STOP_ALREADY_LATCHED")
    else None
  }

  datatype StopInput = StopInput(accepted: bool, verdict: Verdict, latch: Option<StopLatch>)

  function LatchFrom(symbol: string, b: StopBinding, q: Quote): StopLatch {
    StopLatch(symbol, b.version, b.kind, q.price, q.receivedAt)
  }

  function ProcessQuote(s: Session, symbol: string, q: Quote, t: ObserveAt): Outcome<StopInput> {
    if !s.ready then Refuse(s, NOT_READY)
    else
      match QuoteRejection(s.journal, symbol, q, t)
      case Some(reason) =>
        Outcome(Ok(StopInput(false, Unavailable(reason),
                             if reason == "STOP_ALREADY_LATCHED" then First(LatchOf(symbol), s.journal.latches) else None)), s)
      case None =>
        var (verdict, binding) := EvaluateQuote(s.journal, symbol, q, t);
        var moved := After(s, MoveCursor(symbol, QuoteCheckpoint(q.price, q.receivedAt, t.now)));
        if verdict.Triggered? && binding.Some? then
          var l := LatchFrom(symbol, binding.value, q);
          Outcome(Ok(StopInput(true, verdict, Some(l))), After(moved, AddLatch(l)))
        else Outcome(Ok(StopInput(true, verdict, None)), moved)
  }

  /** Both direct latching paths: a price stop reads holdings, a cost stop reads the cost basis. */
  function LatchStop(s: Session, kind: RuleKind, symbol: string, quote: Option<Quote>, t: ObserveAt)
    : Outcome<Option<StopLatch>>
  {
    if !s.ready then Refuse(s, NOT_READY)
    else
      match First(LatchOf(symbol), s.journal.latches)
      case Some(l) => Outcome(Ok(if l.kind == kind then Some(l) else None), s)
      case None =>
        var position := PortfolioOf(s.journal, symbol);
        var held := if kind.PriceAtOrBelow? then ConfirmedHoldings(s.journal, symbol)
                    else ConfirmedCostBasis(s.journal, symbol);
        if quote.None? || held.None? || position.reconciliationRequired || position.sellUncertain
           || position.Available() == 0
        then Outcome(Ok(None), s)
        else
          match First(BindingOf(symbol, held.value.ruleVersion), s.journal.bindings)
          case None => Outcome(Ok(None), s)
          case Some(b) =>
            if b.kind != kind || !EvaluateStop(symbol, held.value, quote.value, b, t).Triggered? then Outcome(Ok(None), s)
            else
              var l := LatchFrom(symbol, b, quote.value);
              Outcome(Ok(Some(l)), After(s, AddLatch(l)))
  }

  /** What a retained stop asks to sell now. */
  function LatchedCandidate(s: Session, symbol: string): Candidate {
    match First(LatchOf(symbol), s.journal.latches)
    case None => NoCandidate("STOP_NOT_LATCHED")
    case Some(l) =>
      if !s.ready then Blocked(NOT_READY)
      else
        var position := PortfolioOf(s.journal, symbol);
        if position.reconciliationRequired || position.sellUncertain then Blocked("SELL_EVIDENCE_UNRESOLVED")
        else if position.Available() == 0 then
          NoCandidate(if position.managed == 0 then "NO_MANAGED_POSITION" else "SHARES_ALREADY_RESERVED_OR_SOLD")
        else
          var held := ConfirmedHoldings(s.journal, symbol);
          if held.None? || held.value.ruleVersion != l.ruleVersion then Blocked("RULE_EVIDENCE_INCOMPLETE")
          else Candidate(position.Available())
  }

  /* ----- opening the session ----- */

  /** Symbols that a session review has to look at. */
  function ReviewedSymbols(j: Journal): set<string> {
    (set r | r in j.requests :: r.command.symbol)
    + (set a | a in j.allocations :: a.symbol)
    + (set f | f in j.facts && (f.Discrepancy? || f.QuarantinedFill?) :: f.symbol)
  }

  function Approve(s: Session, expectedRevision: int): Outcome<()> {
    if s.journal.Revision() != expectedRevision then Refuse(s, "STALE_RECONCILIATION_REVIEW")
    else if (exists r :: r in s.journal.requests && Status(s.journal.facts, r).Unresolved())
         || (exists symbol :: symbol in ReviewedSymbols(s.journal) && PortfolioOf(s.journal, symbol).reconciliationRequired)
    then Refuse(s, NOT_READY)
    else Outcome(Ok(()), s.(ready := true))
  }
}
