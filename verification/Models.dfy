/** Values of the execution ledger: commands, durable requests, the twelve kinds of
    evidence and the append-only journal (execution/models.py, facts.py, storage.py).

    Identifiers made by uuid5 are injective in their two arguments; every other identifier
    is a plain number.  Instants are whole microseconds, prices are exact reals. */
module Models {
  import opened Basics
  import opened QueryEvidence
  import opened Settings

  datatype Side = Buy | Sell
  datatype OrderType = Limit | Market

  /** The three trading intentions, with the validators their constructors run. */
  datatype RawCommand =
    | New(key: string, symbol: string, side: Side, configVersion: Positive, expiresAt: Option<int>,
          qty: Positive, orderType: OrderType, price: Option<real>, stopLatchVersion: Option<Positive>)
    | Amend(key: string, symbol: string, side: Side, configVersion: Positive, expiresAt: Option<int>,
            target: Id, linkVersion: Positive, qtyDelta: int, price: Option<real>)
    | Cancel(key: string, symbol: string, side: Side, configVersion: Positive, expiresAt: Option<int>,
             target: Id, linkVersion: Positive, cancelQty: Positive)
  {
    predicate Valid() {
      match this
      case New(_, _, _, _, _, _, _, _, _) =>
        && (stopLatchVersion.Some? ==> side.Sell? && orderType.Market?)
        && (if orderType.Limit? then price.Some? && price.value > 0.0 else price.None?)
      case Amend(_, _, _, _, _, _, _, _, _) =>
        && (price.Some? ==> price.value > 0.0)
        && (qtyDelta == 0 ==> price.Some?)
      case Cancel(_, _, _, _, _, _, _, _) => true
    }

    predicate IsChange() { Amend? || Cancel? }
  }

  type Command = c: RawCommand | c.Valid()
    witness New("k", "s", Buy, 1, None, 1, Market, None, None)

  datatype Decision = Accepted | RejectedUnsupported

  datatype Request = Request(requestId: Id, orderId: Id, command: Command, decision: Decision)

  datatype Boundary = SENDING | SENT | UNKNOWN | RECONCILING
  datatype UnsentProof = NotInvoked | VerifiedUnsent

  datatype Fact =
    | Ack(eventId: Id, requestId: Id, brokerOrderNo: string)
    | Fill(eventId: Id, orderId: Id, version: Positive, remaining: nat,
           qty: Positive, price: Option<real>, tradingDate: Option<int>)
    | Amended(eventId: Id, orderId: Id, version: Positive, remaining: nat, requestId: Id, qtyDelta: int)
    | Cancelled(eventId: Id, orderId: Id, version: Positive, remaining: nat, requestId: Id, qty: Positive)
    | Transport(eventId: Id, requestId: Id, state: Boundary)
    | Discrepancy(eventId: Id, symbol: string, reason: string)
    | Reconciled(eventId: Id, discrepancyId: Id, symbol: string, observedManaged: nat,
                 reviewedRevision: nat, proofReference: string, query: QueryEvidence)
    | QuarantinedFill(eventId: Id, brokerOrderNo: string, symbol: string, qty: Positive,
                      remaining: nat, version: Positive)
    | QuarantineReleased(eventId: Id, quarantineId: Id, fillId: Id, proofReference: string)
    | SendFailed(eventId: Id, requestId: Id, proof: UnsentProof, reason: string)
    | Rejected(eventId: Id, requestId: Id, reason: string)
    | EffectRejected(eventId: Id, requestId: Id, reason: string)
  {
    /** Quantity evidence about one order: the source's Observation subclasses. */
    predicate IsObservation() { Fill? || Amended? || Cancelled? }

    /** Evidence correlated with one request. */
    predicate NamesRequest() {
      Ack? || Amended? || Cancelled? || Transport? || SendFailed? || Rejected? || EffectRejected?
    }
  }

  type Observation = f: Fact | f.IsObservation()
    witness Fill(Uuid(0), Uuid(0), 1, 0, 1, None, None)

  datatype Allocation = Allocation(symbol: string, qty: nat)
  datatype Control = Control(symbol: string, entryStopped: bool, liquidating: bool)
  datatype AppliedConfig = AppliedConfig(symbol: string, version: Positive, proof: Option<(Id, Digest)>) {
    /** The record of having applied exactly this command. */
    predicate Proves(c: ConfigCommand) {
      symbol == c.settings.symbol && version == c.settings.version && proof == Some((c.commandId, Sha256(c)))
    }
  }

  datatype StopBinding = StopBinding(symbol: string, version: Positive, kind: RuleKind, threshold: real)
  datatype StopAssignment = StopAssignment(fillEventId: Id, symbol: string, qty: Positive, ruleVersion: Positive)
  datatype StopLatch = StopLatch(symbol: string, ruleVersion: Positive, kind: RuleKind,
                                 quotePrice: real, quoteReceivedAt: int)
  datatype QuoteCheckpoint = QuoteCheckpoint(price: real, receivedAt: int, evaluatedAt: int)
  datatype StopObligation = StopObligation(requestId: Id, orderId: Id, symbol: string,
                                           qty: Positive, ruleVersion: Positive)

  /** Everything committed in one scope.  Quote cursors are upserted and are the only part
      that is not append-only. */
  datatype Journal = Journal(
    requests: seq<Request>, facts: seq<Fact>, allocations: seq<Allocation>, controls: seq<Control>,
    configs: seq<AppliedConfig>, bindings: seq<StopBinding>, assignments: seq<StopAssignment>,
    latches: seq<StopLatch>, quotes: map<string, QuoteCheckpoint>, obligations: seq<StopObligation>)
  {
    /** The number of committed entries; cursors are not entries. */
    function Revision(): nat {
      |requests| + |facts| + |allocations| + |controls| + |configs| + |bindings|
      + |assignments| + |latches| + |obligations|
    }
  }

  const EMPTY: Journal := Journal([], [], [], [], [], [], [], [], map[], [])

  /** Committing only adds: every entry list of j is a prefix of that list of k. */
  ghost predicate Grows(j: Journal, k: Journal) {
    && j.requests <= k.requests && j.facts <= k.facts && j.allocations <= k.allocations
    && j.controls <= k.controls && j.configs <= k.configs && j.bindings <= k.bindings
    && j.assignments <= k.assignments && j.latches <= k.latches && j.obligations <= k.obligations
  }
}
