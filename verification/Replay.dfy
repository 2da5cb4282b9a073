/** Repeating a demand that already succeeded changes nothing, however late it is repeated. */
module Replay {
  import opened Basics
  import opened Ownership
  import opened Models
  import opened Settings
  import opened Projection
  import opened Validation
  import opened Steps
  import opened StopEvaluation
  import opened LedgerSpec
  import opened DispatchSpec
  import opened StopSignals
  import opened Runs
  import opened Worlds

  /** The same demand made again: at another time, at another revision, with other fresh identifiers. */
  ghost predicate Repeats(op: Op, again: Op) {
    match op
    case DoAllocate(a) => again == op
    case DoSubmit(c, _, _, _) => again.DoSubmit? && again.order == c
    case DoIngest(f) => again == op
    case DoDiscard(rid, reason, _) => again.DoDiscard? && again.rid == rid && again.reason == reason
    case DoReprocess(qid, proof, _) => again.DoReprocess? && again.qid == qid && again.proof == proof
    case DoApplyInbox(_, _, _) => again == op
    case _ => false
  }

  /** The demand was granted in this world. */
  ghost predicate Succeeds(w: World, op: Op) {
    var s := w.session;
    match op
    case DoAllocate(a) => Allocate(s, a).result.Ok?
    case DoSubmit(c, now, rid, oid) => Submit(s, c, now, rid, oid).result.Ok?
    case DoIngest(f) => Ingest(s, f).result.Ok?
    case DoDiscard(rid, reason, revision) => Discard(s, rid, reason, revision).result.Ok?
    case DoReprocess(qid, proof, revision) => Reprocess(s, qid, proof, revision).result.Ok?
    case DoApplyInbox(scope, c, digest) => ApplyInboxConfig(s, scope, c, digest).result.Ok?
    case _ => false
  }

  /** The journal remembers having granted the demand. */
  ghost predicate Remembers(j: Journal, op: Op) {
    match op
    case DoAllocate(a) => First(AllocationOf(a.symbol), j.allocations) == Some(a)
    case DoSubmit(c, _, _, _) => First(KeyIs(c.key), j.requests).Some? && First(KeyIs(c.key), j.requests).value.command == c
    case DoIngest(f) => First(EventIs(f.eventId), j.facts) == Some(f)
    case DoDiscard(rid, reason, _) =>
      First(EventIs(DiscardFact(rid, reason).eventId), j.facts) == Some(DiscardFact(rid, reason))
    case DoReprocess(qid, proof, _) =>
      First(EventIs(ReleaseFact(qid, proof).eventId), j.facts) == Some(ReleaseFact(qid, proof))
    case DoApplyInbox(_, c, digest) => ExistingApplication(j, c, digest).Ok? && ExistingApplication(j, c, digest).value.Some?
    case _ => false
  }

  /** What is found first stays first while a sequence grows. */
  lemma {:induction false} FirstStable<T>(p: T -> bool, s: seq<T>, t: seq<T>)
    requires s <= t && First(p, s).Some?
    ensures First(p, t) == First(p, s)
  {
    if |s| == |t| {
      assert s == t;
    } else {
      FirstStable(p, s, t[..|t| - 1]);
    }
  }

  lemma MemoryLasts(j: Journal, k: Journal, op: Op)
    requires Grows(j, k) && Remembers(j, op)
    ensures Remembers(k, op)
  {
    hide First;
    match op
    case DoAllocate(a) => FirstStable(AllocationOf(a.symbol), j.allocations, k.allocations);
    case DoSubmit(c, _, _, _) => FirstStable(KeyIs(c.key), j.requests, k.requests);
    case DoIngest(f) => FirstStable(EventIs(f.eventId), j.facts, k.facts);
    case DoDiscard(rid, reason, _) => FirstStable(EventIs(DiscardFact(rid, reason).eventId), j.facts, k.facts);
    case DoReprocess(qid, proof, _) => FirstStable(EventIs(ReleaseFact(qid, proof).eventId), j.facts, k.facts);
    case DoApplyInbox(_, c, _) =>
      var b := BindingFor(c);
      FirstStable(CommandIs(c.commandId), j.configs, k.configs);
      FirstStable(BindingOf(b.symbol, b.version), j.bindings, k.bindings);
  }

  lemma SubmitIsRemembered(s: Session, c: Command, now: int, rid: Id, oid: Id)
    requires Submit(s, c, now, rid, oid).result.Ok?
    ensures Remembers(Submit(s, c, now, rid, oid).session.journal, DoSubmit(c, now, rid, oid))
  {
    hide CheckSubmission, First;
    if First(KeyIs(c.key), s.journal.requests).None? {
      FirstAppend(KeyIs(c.key), s.journal.requests, RequestFor(c, rid, oid));
    }
  }

  lemma FactIsRemembered(j: Journal, f: Fact, given: seq<StopAssignment>)
    ensures Replayed(j, f) == Ok(true) ==> First(EventIs(f.eventId), j.facts) == Some(f)
    ensures Replayed(j, f) == Ok(false) ==> First(EventIs(f.eventId), Commit(j, AddFact(f, given)).facts) == Some(f)
  {
    hide First;
    FirstAppend(EventIs(f.eventId), j.facts, f);
  }

  lemma ReprocessIsRemembered(s: Session, qid: Id, proof: string, revision: int)
    requires Reprocess(s, qid, proof, revision).result.Ok?
    ensures Remembers(Reprocess(s, qid, proof, revision).session.journal, DoReprocess(qid, proof, revision))
  {
    hide CheckFact, First, WithLinkedFill;
    var mid := WithLinkedFill(s, qid).session;
    LinkedFillReaches(s, qid);
    FactIsRemembered(s.journal, ReleaseFact(qid, proof), []);
    FactIsRemembered(mid.journal, ReleaseFact(qid, proof), []);
    assert Replayed(s.journal, ReleaseFact(qid, proof)) == Ok(false) ==>
             forall f :: f in mid.journal.facts ==> f.eventId != Uuid5(qid, "release");
    assert First(EventIs(Uuid5(qid, "release")), mid.journal.facts).None? ==>
             Replayed(mid.journal, ReleaseFact(qid, proof)) == Ok(false);
  }

  lemma InboxIsRemembered(s: Session, scope: Scope, c: ConfigCommand, digest: Digest)
    requires ApplyInboxConfig(s, scope, c, digest).result.Ok?
    ensures Remembers(ApplyInboxConfig(s, scope, c, digest).session.journal, DoApplyInbox(scope, c, digest))
  {
    hide First, CheckApplyVersion;
    var b := BindingFor(c);
    if ExistingApplication(s.journal, c, digest) == Ok(None) {
      FirstAppend(CommandIs(c.commandId), s.journal.configs, AppliedConfig(b.symbol, b.version, Some((c.commandId, digest))));
      FirstAppend(BindingOf(b.symbol, b.version), s.journal.bindings, b);
    }
  }

  lemma SuccessIsRemembered(w: World, op: Op)
    requires Succeeds(w, op)
    ensures Remembers(Perform(w, op).Journal(), op)
  {
    hide First, Submit, Reprocess, ApplyInboxConfig, CheckFact, AssignmentsFor, Remembers;
    var s := w.session;
    match op
    case DoSubmit(c, now, rid, oid) => SubmitIsRemembered(s, c, now, rid, oid);
    case DoReprocess(qid, proof, revision) => ReprocessIsRemembered(s, qid, proof, revision);
    case DoApplyInbox(scope, c, digest) => InboxIsRemembered(s, scope, c, digest);
    case _ => PlainSuccessIsRemembered(w, op);
  }

  lemma PlainSuccessIsRemembered(w: World, op: Op)
    requires Succeeds(w, op) && (op.DoAllocate? || op.DoIngest? || op.DoDiscard?)
    ensures Remembers(Perform(w, op).Journal(), op)
  {
    hide First, CheckFact, AssignmentsFor;
    var j := w.Journal();
    match op
    case DoAllocate(a) => FirstAppend(AllocationOf(a.symbol), j.allocations, a);
    case DoIngest(f) => FactIsRemembered(j, f, AssignmentsFor(j, f));
    case DoDiscard(rid, reason, _) => FactIsRemembered(j, DiscardFact(rid, reason), []);
  }

  /** A remembered demand made again changes nothing at all. */
  lemma RepeatIsIdle(w: World, op: Op, again: Op)
    requires Remembers(w.Journal(), op) && Repeats(op, again)
    ensures Perform(w, again) == w
  {
    hide First, CheckFact, CheckSubmission, CheckApplyVersion, LinkedFill, WithLinkedFill;
  }

  /** One operation of a padded run; a copy repeats an operation performed earlier in it. */
  datatype Entry = Entry(op: Op, copy: bool)

  function Ops(run: seq<Entry>): seq<Op> {
    if |run| == 0 then [] else Ops(run[..|run| - 1]) + [run[|run| - 1].op]
  }

  /** The run with its copies left out. */
  function Originals(run: seq<Entry>): seq<Op> {
    if |run| == 0 then []
    else Originals(run[..|run| - 1]) + if run[|run| - 1].copy then [] else [run[|run| - 1].op]
  }

  /** Every copy repeats some earlier operation that had succeeded when it was performed. */
  ghost predicate Padded(w: World, run: seq<Entry>) {
    forall k :: 0 <= k < |run| && run[k].copy ==>
      exists i :: 0 <= i < k && RepeatsEarlier(w, run, i, k)
  }

  ghost predicate RepeatsEarlier(w: World, run: seq<Entry>, i: nat, k: nat)
    requires i < k < |run|
  {
    Succeeds(RunAll(w, Ops(run[..i])), run[i].op) && Repeats(run[i].op, run[k].op)
  }

  lemma {:induction false} OpsLength(run: seq<Entry>)
    ensures |Ops(run)| == |run| && forall i :: 0 <= i < |run| ==> Ops(run)[i] == run[i].op
  {
    if |run| > 0 { OpsLength(run[..|run| - 1]); }
  }

  lemma {:induction false} OpsFront(run: seq<Entry>, i: nat)
    requires i <= |run|
    ensures |Ops(run)| == |run| && Ops(run[..i]) == Ops(run)[..i]
    decreases |run|
  {
    OpsLength(run);
    if i == |run| {
      assert run[..i] == run && Ops(run)[..i] == Ops(run);
    } else {
      var front := run[..|run| - 1];
      OpsFront(front, i);
      OpsLength(front);
      assert front[..i] == run[..i];
      assert Ops(run)[..i] == Ops(front)[..i];
    }
  }

  lemma OpsSplit(run: seq<Entry>)
    requires |run| > 0
    ensures Ops(run) == Ops(run[..|run| - 1]) + [run[|run| - 1].op]
  {
  }

  /** Successes are remembered for the rest of the run. */
  lemma {:induction false} RememberedLater(w: World, ops: seq<Op>, i: nat)
    requires Invariant(w.Journal()) && Legal(w, ops) && i < |ops|
    requires Succeeds(RunAll(w, ops[..i]), ops[i])
    ensures Remembers(RunAll(w, ops).Journal(), ops[i])
  {
    hide Invariant, Remembers, Succeeds, Perform, Fresh, Follows;
    var n := |ops| - 1;
    if i == n {
      SuccessIsRemembered(RunAll(w, ops[..n]), ops[n]);
    } else {
      assert ops[..n][..i] == ops[..i];
      RememberedLater(w, ops[..n], i);
      RunIsGood(w, ops[..n]);
      StepGrows(RunAll(w, ops[..n]), ops[n]);
      MemoryLasts(RunAll(w, ops[..n]).Journal(), RunAll(w, ops).Journal(), ops[i]);
    }
  }

  lemma StepGrows(w: World, op: Op)
    requires Invariant(w.Journal()) && Fresh(w, op)
    ensures Grows(w.Journal(), Perform(w, op).Journal())
  {
    hide Invariant, Perform, Fresh, Reaches, Grows;
    GoodIsWellFormed(w.Journal());
    PerformReaches(w, op);
    ReachedIsGood(w.Journal(), Perform(w, op).Journal());
  }

  lemma PaddedFront(w: World, run: seq<Entry>)
    requires Padded(w, run) && |run| > 0
    ensures Padded(w, run[..|run| - 1])
  {
    hide Succeeds, Repeats, RunAll, Ops;
    var front := run[..|run| - 1];
    forall k | 0 <= k < |front| && front[k].copy ensures exists i :: 0 <= i < k && RepeatsEarlier(w, front, i, k) {
      assert run[k].copy;
      var i :| 0 <= i < k && RepeatsEarlier(w, run, i, k);
      assert front[..i] == run[..i];
      assert RepeatsEarlier(w, front, i, k);
    }
  }

  /** A successful demand repeated at the end of any run leaves the world of that run. */
  lemma RepeatLater(w: World, ops: seq<Op>, i: nat, again: Op)
    requires Invariant(w.Journal()) && Legal(w, ops) && i < |ops|
    requires Succeeds(RunAll(w, ops[..i]), ops[i]) && Repeats(ops[i], again)
    ensures RunAll(w, ops + [again]) == RunAll(w, ops)
  {
    hide Invariant, Remembers, Succeeds, Repeats, Perform, Worlds.Fresh, RunAll;
    RememberedLater(w, ops, i);
    RepeatIsIdle(RunAll(w, ops), ops[i], again);
    OneMore(w, ops, again);
  }

  lemma CopyIsIdle(w: World, run: seq<Entry>)
    requires Invariant(w.Journal()) && |run| > 0 && run[|run| - 1].copy && Padded(w, run)
    requires Legal(w, Ops(run[..|run| - 1]))
    ensures RunAll(w, Ops(run)) == RunAll(w, Ops(run[..|run| - 1]))
  {
    hide Invariant, Succeeds, Repeats, Perform, RunAll, Legal, Ops;
    var n := |run| - 1;
    var front := run[..n];
    OpsLength(front);
    OpsSplit(run);
    var i :| 0 <= i < n && RepeatsEarlier(w, run, i, n);
    assert front[..i] == run[..i];
    OpsFront(front, i);
    RepeatLater(w, Ops(front), i, run[n].op);
  }

  /** A run with arbitrary duplicates of earlier successful demands, interleaved with anything and
      across restarts, ends in the very world of the run without them. */
  lemma {:induction false} DuplicatesAreIdle(w: World, run: seq<Entry>)
    requires Invariant(w.Journal()) && Legal(w, Ops(run)) && Padded(w, run)
    ensures RunAll(w, Ops(run)) == RunAll(w, Originals(run))
  {
    hide Invariant, Perform, Padded, Worlds.Fresh;
    if |run| > 0 {
      var front, last := run[..|run| - 1], run[|run| - 1];
      OpsLength(front);
      assert Ops(run)[..|front|] == Ops(front);
      PaddedFront(w, run);
      DuplicatesAreIdle(w, front);
      if last.copy {
        CopyIsIdle(w, run);
        assert Originals(run) == Originals(front);
      } else {
        assert Originals(run)[..|Originals(front)|] == Originals(front);
      }
    }
  }
}
