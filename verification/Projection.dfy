/** Quantities of orders and symbols, derived from the journal and nothing else
    (execution/projection.py). */
module Projection {
  import opened Basics
  import opened Models
  import opened Outcomes

  datatype Order = Order(
    orderId: Id, original: int, delta: int, filled: int, cancelled: int, active: Option<int>,
    reserved: nat, gap: Option<int>, acknowledged: bool, terminalCancel: bool,
    reconciliationRequired: bool, linkVersion: int, rejected: bool, submissionFailed: bool)
  {
    function Lifecycle(): string {
      if rejected then "REJECTED"
      else if terminalCancel then "CANCELLED"
      else if active == Some(0) && filled == original + delta && cancelled == 0 then "FILLED"
      else if filled > 0 then "PARTIALLY_FILLED"
      else if acknowledged then "OPEN" else "PENDING"
    }
  }

  datatype Portfolio = Portfolio(
    managed: int, reserved: int, protected: int, liquidation: int, entryStopped: bool,
    liquidating: bool, reconciliationRequired: bool, sellUncertain: bool)
  {
    function Available(): nat {
      if reconciliationRequired || sellUncertain then 0
      else if managed - reserved < 0 then 0 else managed - reserved
    }
  }

  function NonNegative(x: int): nat { if x < 0 then 0 else x }

  /* ----- one order ----- */

  function FillOf(oid: Id): Fact -> bool { (f: Fact) => f.Fill? && f.orderId == oid }
  function CancelOf(oid: Id): Fact -> bool { (f: Fact) => f.Cancelled? && f.orderId == oid }
  function AmendOf(oid: Id): Fact -> bool { (f: Fact) => f.Amended? && f.orderId == oid }

  function FilledBy(oid: Id): Fact -> int { (f: Fact) => if f.Fill? && f.orderId == oid then f.qty else 0 }
  function CancelledBy(oid: Id): Fact -> int { (f: Fact) => if f.Cancelled? && f.orderId == oid then f.qty else 0 }
  function AmendedBy(oid: Id): Fact -> int { (f: Fact) => if f.Amended? && f.orderId == oid then f.qtyDelta else 0 }

  predicate Observes(f: Fact, oid: Id) { f.IsObservation() && f.orderId == oid }

  /** Fills, then cancellations, then amendments, each in journal order. */
  function Observations(facts: seq<Fact>, oid: Id): (obs: seq<Fact>)
    ensures forall f :: f in obs <==> f in facts && Observes(f, oid)
  {
    SelectMember(FillOf(oid), facts);
    SelectMember(CancelOf(oid), facts);
    SelectMember(AmendOf(oid), facts);
    Select(FillOf(oid), facts) + Select(CancelOf(oid), facts) + Select(AmendOf(oid), facts)
  }

  /** The first observation of highest version, as max picks it. */
  function Latest(obs: seq<Fact>): (f: Fact)
    requires |obs| > 0 && forall g :: g in obs ==> g.IsObservation()
    ensures f in obs && f.IsObservation()
    ensures forall g :: g in obs ==> g.IsObservation() && g.version <= f.version
  {
    var n := |obs| - 1;
    assert obs == obs[..n] + [obs[n]];
    if n == 0 then obs[0]
    else
      var m := Latest(obs[..n]);
      assert obs[n] in obs && obs[n].IsObservation();
      if obs[n].version > m.version then obs[n] else m
  }

  /** Of the observations of highest version it is the first. */
  lemma {:induction false} LatestIsFirst(obs: seq<Fact>) returns (i: nat)
    requires |obs| > 0 && forall g :: g in obs ==> g.IsObservation()
    ensures i < |obs| && obs[i] == Latest(obs)
    ensures forall k :: 0 <= k < i ==> obs[k] in obs && obs[k].version < obs[i].version
  {
    var n := |obs| - 1;
    i := 0;
    if n > 0 {
      assert obs == obs[..n] + [obs[n]];
      i := LatestIsFirst(obs[..n]);
      if Latest(obs) == obs[n] && obs[n] != obs[i] { i := n; }
    }
  }

  /** Two observations tie on their version but not on the quantity left. */
  predicate Tied(facts: seq<Fact>, oid: Id) {
    exists a, b :: a in facts && b in facts && Observes(a, oid) && Observes(b, oid)
                   && a.version == b.version && a.remaining != b.remaining
  }

  /** Quantity is observed after a cancellation that left none. */
  predicate Revived(facts: seq<Fact>, oid: Id) {
    exists c, o :: c in facts && o in facts && CancelOf(oid)(c) && Observes(o, oid)
                   && c.remaining == 0 && o.version > c.version && o.remaining > 0
  }

  predicate CancelledToZero(facts: seq<Fact>, oid: Id) {
    exists c :: c in facts && CancelOf(oid)(c) && c.remaining == 0
  }

  /** What is left of an order by the quantities alone; negative is contradictory evidence. */
  function Exposure(facts: seq<Fact>, r: Request): int
    requires r.command.New?
  {
    r.command.qty + Total(AmendedBy(r.orderId), facts)
    - Total(FilledBy(r.orderId), facts) - Total(CancelledBy(r.orderId), facts)
  }

  /** A request proven unsent or rejected, with nothing to the contrary. */
  predicate Void(s: RequestStatus) { (s.failed || s.rejected) && !s.positiveEvidence }

  /** The projection of the order opened by request r. */
  function View(facts: seq<Fact>, r: Request): Order
    requires r.command.New?
  {
    var oid := r.orderId;
    var obs := Observations(facts, oid);
    var outcome := Status(facts, r);
    var void := Void(outcome);
    var acknowledged := outcome.transport.Acked?;
    var observed: Option<int> :=
      if |obs| > 0 then Some(Latest(obs).remaining)
      else if acknowledged then Some(r.command.qty) else None;
    var terminal := CancelledToZero(facts, oid);
    var active := if void || terminal then Some(0) else observed;
    var exposure := Exposure(facts, r);
    var gap := if active.None? || void then None else Some(exposure - active.value);
    var conflict := Tied(facts, oid) || Revived(facts, oid);
    Order(
      oid, r.command.qty, Total(AmendedBy(oid), facts), Total(FilledBy(oid), facts),
      Total(CancelledBy(oid), facts), active,
      if r.command.side.Sell? && !void then NonNegative(exposure) else 0,
      gap, acknowledged, terminal,
      gap !in {None, Some(0)} || conflict || outcome.conflict || exposure < 0,
      1 + |Select(AmendOf(oid), facts)|, outcome.rejected, outcome.failed)
  }

  function Opens(oid: Id): Request -> bool { (r: Request) => r.command.New? && r.orderId == oid }

  /** The request that opened an order. */
  function Initial(requests: seq<Request>, oid: Id): (r: Option<Request>)
    ensures r.Some? ==> r.value in requests && r.value.command.New? && r.value.orderId == oid
    ensures r.None? ==> forall x :: x in requests ==> !(x.command.New? && x.orderId == oid)
  {
    First(Opens(oid), requests)
  }

  function OrderOf(j: Journal, oid: Id): Result<Order> {
    match Initial(j.requests, oid)
    case Some(r) => Ok(View(j.facts, r))
    case None => Err("ORDER_NOT_FOUND")
  }

  /** The projection that the portfolio reads for a journalled new order. */
  function Snapshot(j: Journal, r: Request): Order
    requires r.command.New?
  {
    match Initial(j.requests, r.orderId)
    case Some(i) => View(j.facts, i)
    case None => View(j.facts, r)
  }

  /* ----- one symbol ----- */

  predicate OpenDiscrepancy(facts: seq<Fact>, symbol: string) {
    exists f :: f in facts && f.Discrepancy? && f.symbol == symbol
                && !exists g :: g in facts && g.Reconciled? && g.symbol == symbol && g.discrepancyId == f.eventId
  }

  predicate OpenQuarantine(facts: seq<Fact>, symbol: string) {
    exists f :: f in facts && f.QuarantinedFill? && f.symbol == symbol
                && !exists g :: g in facts && g.QuarantineReleased? && g.quarantineId == f.eventId
  }

  predicate Alarms(j: Journal, r: Request) {
    Status(j.facts, r).conflict || (r.command.New? && Snapshot(j, r).reconciliationRequired)
  }

  predicate SellUnclear(facts: seq<Fact>, r: Request) {
    && r.decision.Accepted? && r.command.side.Sell?
    && (Status(facts, r).transport.Observed? || (r.command.IsChange() && !Status(facts, r).EffectSettled()))
  }

  predicate AlarmAmong(j: Journal, symbol: string, requests: seq<Request>) {
    exists r :: r in requests && r.command.symbol == symbol && Alarms(j, r)
  }

  predicate UnclearAmong(j: Journal, symbol: string, requests: seq<Request>) {
    exists r :: r in requests && r.command.symbol == symbol && SellUnclear(j.facts, r)
  }

  predicate AnyAlarm(j: Journal, symbol: string) { AlarmAmong(j, symbol, j.requests) }

  predicate AnySellUnclear(j: Journal, symbol: string) { UnclearAmong(j, symbol, j.requests) }

  predicate Unexplained(facts: seq<Fact>, symbol: string) {
    OpenDiscrepancy(facts, symbol) || OpenQuarantine(facts, symbol)
  }

  predicate Discrepant(j: Journal, symbol: string) { Unexplained(j.facts, symbol) || AnyAlarm(j, symbol) }

  function AllocatedTo(symbol: string): Allocation -> int {
    (a: Allocation) => if a.symbol == symbol then a.qty else 0
  }

  /** What one request adds to the managed shares: bought fills, minus sold fills. */
  function ManagedBy(j: Journal, symbol: string): Request -> int {
    (r: Request) =>
      if r.command.New? && r.command.symbol == symbol
      then (if r.command.side.Buy? then Snapshot(j, r).filled else -Snapshot(j, r).filled)
      else 0
  }

  function ReservedBy(j: Journal, symbol: string): Request -> int {
    (r: Request) => if r.command.New? && r.command.symbol == symbol then Snapshot(j, r).reserved else 0
  }

  function Managed(j: Journal, symbol: string): int {
    Total(AllocatedTo(symbol), j.allocations) + Total(ManagedBy(j, symbol), j.requests)
  }

  function Reserved(j: Journal, symbol: string): int { Total(ReservedBy(j, symbol), j.requests) }

  function ControlOf(symbol: string): Control -> bool { (c: Control) => c.symbol == symbol }

  function LastControl(controls: seq<Control>, symbol: string): Control {
    var mine := Select(ControlOf(symbol), controls);
    if |mine| == 0 then Control(symbol, false, false) else mine[|mine| - 1]
  }

  function Assemble(managed: int, reserved: int, discrepancy: bool, uncertain: bool, c: Control): Portfolio {
    Portfolio(
      managed, reserved, NonNegative(managed), if c.liquidating then NonNegative(managed) else 0,
      c.entryStopped, c.liquidating,
      discrepancy || uncertain || managed < 0 || reserved > managed, uncertain)
  }

  function PortfolioOf(j: Journal, symbol: string): Portfolio {
    Assemble(Managed(j, symbol), Reserved(j, symbol), Discrepant(j, symbol), AnySellUnclear(j, symbol),
             LastControl(j.controls, symbol))
  }

  lemma NothingAmong(j: Journal, symbol: string, none: seq<Request>)
    requires |none| == 0
    ensures !AlarmAmong(j, symbol, none) && !UnclearAmong(j, symbol, none)
    ensures Total(ManagedBy(j, symbol), none) == Total(ReservedBy(j, symbol), none) == 0
  {
    hide Alarms, SellUnclear, ManagedBy, ReservedBy;
  }

  lemma AmongAppend(j: Journal, symbol: string, requests: seq<Request>, r: Request)
    ensures AlarmAmong(j, symbol, requests + [r])
       <==> AlarmAmong(j, symbol, requests) || (r.command.symbol == symbol && Alarms(j, r))
    ensures UnclearAmong(j, symbol, requests + [r])
       <==> UnclearAmong(j, symbol, requests) || (r.command.symbol == symbol && SellUnclear(j.facts, r))
  {
    hide Alarms, SellUnclear;
    assert forall x :: x in requests + [r] <==> x in requests || x == r;
    assert r in requests + [r];
    assert forall x :: x in requests ==> x in requests + [r];
  }

  /** What one turn of the loop over the requests does to the four running values. */
  method CountRequest(j: Journal, symbol: string, r: Request, managed: int, reserved: int,
                      discrepancy: bool, uncertain: bool)
    returns (managed': int, reserved': int, discrepancy': bool, uncertain': bool)
    ensures managed' == managed + ManagedBy(j, symbol)(r)
    ensures reserved' == reserved + ReservedBy(j, symbol)(r)
    ensures discrepancy' <==> discrepancy || (r.command.symbol == symbol && Alarms(j, r))
    ensures uncertain' <==> uncertain || (r.command.symbol == symbol && SellUnclear(j.facts, r))
  {
    managed', reserved', discrepancy', uncertain' := managed, reserved, discrepancy, uncertain;
    if r.command.symbol != symbol { return; }
    discrepancy' := discrepancy' || Status(j.facts, r).conflict;
    if r.command.New? {
      var snapshot := Snapshot(j, r);
      reserved' := reserved' + snapshot.reserved;
      discrepancy' := discrepancy' || snapshot.reconciliationRequired;
      managed' := if r.command.side.Buy? then managed' + snapshot.filled else managed' - snapshot.filled;
    }
    if r.decision.Accepted? && r.command.side.Sell? {
      uncertain' := uncertain' || Status(j.facts, r).transport.Observed?;
      if r.command.IsChange() {
        uncertain' := uncertain' || !Status(j.facts, r).EffectSettled();
      }
    }
  }

  /** The single pass over the requests that computes a portfolio. */
  method ComputePortfolio(j: Journal, symbol: string) returns (p: Portfolio)
    ensures p == PortfolioOf(j, symbol)
  {
    hide Unexplained, AlarmAmong, UnclearAmong, LastControl, Total, Assemble, ManagedBy, ReservedBy;
    NothingAmong(j, symbol, j.requests[..0]);
    var own := Total(AllocatedTo(symbol), j.allocations);
    var unexplained := Unexplained(j.facts, symbol);
    var managed, reserved, discrepancy, uncertain := own, 0, unexplained, false;
    var i := 0;
    while i < |j.requests|
      invariant 0 <= i <= |j.requests|
      invariant managed == own + Total(ManagedBy(j, symbol), j.requests[..i])
      invariant reserved == Total(ReservedBy(j, symbol), j.requests[..i])
      invariant discrepancy <==> unexplained || AlarmAmong(j, symbol, j.requests[..i])
      invariant uncertain <==> UnclearAmong(j, symbol, j.requests[..i])
    {
      var r := j.requests[i];
      assert j.requests[..i + 1] == j.requests[..i] + [r];
      TotalAppend(ManagedBy(j, symbol), j.requests[..i], r);
      TotalAppend(ReservedBy(j, symbol), j.requests[..i], r);
      AmongAppend(j, symbol, j.requests[..i], r);
      managed, reserved, discrepancy, uncertain :=
        CountRequest(j, symbol, r, managed, reserved, discrepancy, uncertain);
      i := i + 1;
    }
    assert j.requests[..i] == j.requests;
    p := Assemble(managed, reserved, discrepancy, uncertain, LastControl(j.controls, symbol));
  }
}
