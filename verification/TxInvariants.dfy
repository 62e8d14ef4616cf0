/** What every reachable state of the transaction tracker satisfies, over all its writers. */
module TxInvariants {
  import opened Common
  import opened TxTracking

  /** The status of a row is determined by the rest of it; `retry_scheduled` never survives
      a step, and an unvalidated failure is exactly a policy probe that gave up. */
  ghost predicate RowOk(t: Tx) {
    && (t.tracking == ValidatedSuccess <==> t.validated && t.outcome == Some(Success))
    && (t.validated ==> t.outcome.Some? && t.tracking in {ValidatedSuccess, ValidatedFail})
    && (!t.validated ==> t.tracking in {PendingValidation, ValidatedFail})
    && (!t.validated && t.tracking == ValidatedFail ==> t.outcome == Some(ManualReview))
    && (t.validated ==> (t.outcome == Some(Success) <==> Begins(t.resultCode, "tes")))
  }

  /** The result code is there and begins so. */
  predicate Begins(code: Option<string>, prefix: string) { code.Some? && prefix <= code.value }

  ghost predicate RowsOk(s: State) { forall h :: h in s.txs ==> RowOk(s.txs[h]) }

  function Stage(d: DisputeStatus): nat {
    match d
    case Filed => 0
    case UnderReview => 0
    case Decided => 1
    case ExecutionPending => 2
    case Executed => 3
    case Rejected => 3
  }

  ghost function StageIn(s: State, id: DisputeId): nat {
    if id in s.disputes then Stage(s.disputes[id]) else 0
  }

  ghost predicate Linked(s: State, h: Hash, id: DisputeId) {
    h in s.txs && s.txs[h].disputeId == Some(id)
  }

  /** At most one tracked hash carries a given dispute, and only once it is being executed. */
  ghost predicate LinksOk(s: State) {
    && (forall h, id :: Linked(s, h, id) ==> StageIn(s, id) >= 2)
    && (forall h, g, id :: Linked(s, h, id) && Linked(s, g, id) ==> h == g)
  }

  ghost function DecisionCount(ds: seq<DisputeId>, id: DisputeId): nat {
    if ds == [] then 0 else DecisionCount(ds[..|ds| - 1], id) + if ds[|ds| - 1] == id then 1 else 0
  }

  ghost predicate DecisionsOk(s: State) {
    forall id :: DecisionCount(s.decisions, id) == if StageIn(s, id) >= 1 then 1 else 0
  }

  ghost predicate Inv(s: State) { RowsOk(s) && LinksOk(s) && DecisionsOk(s) }

  // ---- one step ----

  /** How a step may move a dispute: between filed and under_review, or up. */
  ghost predicate Moves(a: DisputeStatus, b: DisputeStatus) {
    || a == b
    || (Stage(a) == 0 && (Stage(b) == 0 || b == Decided))
    || (a == Decided && b == ExecutionPending)
    || (a == ExecutionPending && (b == Executed || b == Rejected))
  }

  lemma ResolveMoves(disputes: map<DisputeId, DisputeStatus>, t: Tx, id: DisputeId)
    requires id in disputes
    ensures Resolve(disputes, t).Keys == disputes.Keys
    ensures Moves(disputes[id], Resolve(disputes, t)[id])
    ensures Resolve(disputes, t)[id] != disputes[id] ==>
              && disputes[id] == ExecutionPending
              && t.disputeId == Some(id) && t.validated
              && Resolve(disputes, t)[id] == (if t.outcome == Some(Success) then Executed else Rejected)
  {
  }

  /** A dispute is never lost and moves only forward. */
  lemma StepMoves(s: State, e: Event, id: DisputeId)
    requires id in s.disputes
    ensures id in Step(s, e).disputes && Moves(s.disputes[id], Step(s, e).disputes[id])
  {
    hide Merge, Simulated, Classify;
    match e {
      case Report(h, live, now) =>
        if h in s.txs { ResolveMoves(s.disputes, Merge(s.txs[h], live, now), id); }
      case _ =>
    }
  }

  ghost predicate ResolvedBy(s: State, h: Hash, id: DisputeId) {
    && Linked(s, h, id) && s.txs[h].validated && id in s.disputes
    && s.disputes[id] == if s.txs[h].outcome == Some(Success) then Executed else Rejected
  }

  /** A dispute leaves execution_pending only through the validated transaction linked to
      it, to executed exactly when that transaction's class is success. */
  lemma LeavesPendingByLink(s: State, e: Event, id: DisputeId)
    requires id in s.disputes && s.disputes[id] == ExecutionPending
    requires Step(s, e).disputes[id] != ExecutionPending
    ensures exists h :: ResolvedBy(Step(s, e), h, id)
  {
    hide Merge, Simulated, Classify;
    var h := match e
      case Report(h, _, _) => h
      case Track(h, _, _, _, _, _) => h
      case Execute(_, h, _, _, _, _, _, _) => h
      case Simulate(h, _, _, _) => h
      case _ => "";
    assert ResolvedBy(Step(s, e), h, id);
  }

  lemma StepRows(s: State, e: Event)
    requires RowsOk(s)
    ensures RowsOk(Step(s, e))
  {
    forall h | h in Step(s, e).txs ensures RowOk(Step(s, e).txs[h]) {
      StepRow(s, e, h);
    }
  }

  lemma MergeRowOk(t: Tx, l: Live, now: int)
    ensures RowOk(Merge(t, l, now)) && Merge(t, l, now).disputeId == t.disputeId
  {
  }

  lemma StepRow(s: State, e: Event, h: Hash)
    requires RowsOk(s) && h in Step(s, e).txs
    ensures RowOk(Step(s, e).txs[h])
  {
    hide Merge, Simulated, Classify, Resolve;
    assert h in s.txs ==> RowOk(s.txs[h]);
    match e {
      case Execute(_, g, txType, owner, network, _, reply, now) =>
        if reply.Some? {
          MergeRowOk(UpsertTracked(s, g, Params(txType, Some(owner), Some(e.id), network), now).txs[g], reply.value, now);
        }
      case Track(g, txType, account, network, reply, now) =>
        if reply.Some? {
          MergeRowOk(UpsertTracked(s, g, Params(txType, account, None, network), now).txs[g], reply.value, now);
        }
      case Report(g, live, now) => if g in s.txs { MergeRowOk(s.txs[g], live, now); }
      case Simulate(g, code, fromLedger, now) =>
        if g in s.txs {
          var u := Simulated(s.txs[g], code, fromLedger, now);
          MergeRowOk(u, Live(u.validated, u.ledgerIndex, u.resultCode, None, None, NoEscrow), now);
        }
      case _ =>
    }
  }

  /** Only an execution request links a dispute, and it takes the link of its hash. */
  lemma StepLink(s: State, e: Event, h: Hash, id: DisputeId)
    requires Linked(Step(s, e), h, id)
    ensures Linked(s, h, id) || (e.Execute? && e.id == id && e.h == h && StageIn(s, id) == 1 && StageIn(Step(s, e), id) == 2)
    ensures e.Execute? && e.id == id && Step(s, e) != s ==> StageIn(s, id) == 1
  {
    hide Classify, Resolve, TrackingOf, MergeEscrow, Prefer;
  }

  lemma StageRises(s: State, e: Event, id: DisputeId)
    ensures StageIn(Step(s, e), id) >= StageIn(s, id)
  {
    if id in s.disputes { StepMoves(s, e, id); }
  }

  lemma StepLinks(s: State, e: Event)
    requires LinksOk(s)
    ensures LinksOk(Step(s, e))
  {
    var s' := Step(s, e);
    hide Step;
    forall h, id | Linked(s', h, id) ensures StageIn(s', id) >= 2 {
      StepLink(s, e, h, id);
      StageRises(s, e, id);
    }
    forall h, g, id | Linked(s', h, id) && Linked(s', g, id) ensures h == g {
      StepLink(s, e, h, id);
      StepLink(s, e, g, id);
    }
  }

  lemma CountAppend(ds: seq<DisputeId>, d: DisputeId, id: DisputeId)
    ensures DecisionCount(ds + [d], id) == DecisionCount(ds, id) + if d == id then 1 else 0
  {
    assert (ds + [d])[..|ds|] == ds;
  }

  lemma StepDecision(s: State, e: Event, id: DisputeId)
    ensures var s' := Step(s, e);
            if e.Decide? && e.id == id && s' != s
            then s'.decisions == s.decisions + [id] && StageIn(s, id) == 0 && StageIn(s', id) == 1
            else (StageIn(s', id) >= 1 <==> StageIn(s, id) >= 1)
                 && (s'.decisions == s.decisions || (e.Decide? && s'.decisions == s.decisions + [e.id] && e.id != id))
  {
    hide Merge, Simulated, Classify;
    if id in s.disputes { StepMoves(s, e, id); }
  }

  lemma StepDecisions(s: State, e: Event)
    requires DecisionsOk(s)
    ensures DecisionsOk(Step(s, e))
  {
    var s' := Step(s, e);
    hide Step;
    forall id ensures DecisionCount(s'.decisions, id) == if StageIn(s', id) >= 1 then 1 else 0 {
      StepDecision(s, e, id);
      if e.Decide? { CountAppend(s.decisions, e.id, id); }
    }
  }

  // ---- runs ----

  lemma {:induction false} RunKeeps(s: State, es: seq<Event>)
    requires Inv(s)
    ensures Inv(Run(s, es))
    decreases |es|
  {
    if es != [] {
      hide Step;
      StepRows(s, es[0]);
      StepLinks(s, es[0]);
      StepDecisions(s, es[0]);
      RunKeeps(Step(s, es[0]), es[1..]);
    }
  }

  /** In every reachable state: `validated_success` exactly for validated successes, at most
      one hash per dispute, one decision per decided dispute. */
  lemma ReachableOk(es: seq<Event>)
    ensures Inv(Run(Empty, es))
  {
    assert Inv(Empty);
    RunKeeps(Empty, es);
  }

  /** The stage of a dispute never falls, and executed or rejected is final. */
  lemma {:induction false} StageNeverFalls(s: State, es: seq<Event>, id: DisputeId)
    requires id in s.disputes
    ensures id in Run(s, es).disputes
    ensures StageIn(Run(s, es), id) >= StageIn(s, id)
    ensures StageIn(s, id) == 3 ==> Run(s, es).disputes[id] == s.disputes[id]
    decreases |es|
  {
    if es != [] {
      hide Step;
      StepMoves(s, es[0], id);
      StageNeverFalls(Step(s, es[0]), es[1..], id);
    }
  }

  /** How often a run takes the dispute into a status. */
  ghost function Entries(s: State, es: seq<Event>, id: DisputeId, d: DisputeStatus): nat
    decreases |es|
  {
    if es == [] then 0
    else
      var s' := Step(s, es[0]);
      var enters := id in s'.disputes && s'.disputes[id] == d && !(id in s.disputes && s.disputes[id] == d);
      (if enters then 1 else 0) + Entries(s', es[1..], id, d)
  }

  lemma NewDisputeIsFiled(s: State, e: Event, id: DisputeId)
    requires id !in s.disputes && id in Step(s, e).disputes
    ensures Step(s, e).disputes[id] == Filed
  {
    hide Merge, Simulated, Classify;
  }

  /** Every status past review is entered at most once in a run. */
  lemma {:induction false} EntersOnce(s: State, es: seq<Event>, id: DisputeId, d: DisputeStatus)
    requires Stage(d) >= 1
    ensures Entries(s, es, id, d) <= if StageIn(s, id) >= Stage(d) then 0 else 1
    decreases |es|
  {
    if es != [] {
      hide Step;
      if id in s.disputes {
        StepMoves(s, es[0], id);
      } else if id in Step(s, es[0]).disputes {
        NewDisputeIsFiled(s, es[0], id);
      }
      EntersOnce(Step(s, es[0]), es[1..], id, d);
    }
  }

  /** Over every run, a dispute is decided, becomes pending, is executed and is rejected at
      most once each, and is never both executed and rejected. */
  lemma OneExecution(es: seq<Event>, id: DisputeId)
    ensures Entries(Empty, es, id, Decided) <= 1 && DecisionCount(Run(Empty, es).decisions, id) <= 1
    ensures Entries(Empty, es, id, ExecutionPending) <= 1
    ensures Entries(Empty, es, id, Executed) + Entries(Empty, es, id, Rejected) <= 1
  {
    EntersOnce(Empty, es, id, Decided);
    EntersOnce(Empty, es, id, ExecutionPending);
    EndsOnce(Empty, es, id);
    ReachableOk(es);
    assert DecisionsOk(Run(Empty, es));
  }

  lemma {:induction false} EndsOnce(s: State, es: seq<Event>, id: DisputeId)
    ensures Entries(s, es, id, Executed) + Entries(s, es, id, Rejected) <= if StageIn(s, id) == 3 then 0 else 1
    decreases |es|
  {
    if es != [] {
      hide Step;
      if id in s.disputes {
        StepMoves(s, es[0], id);
      } else if id in Step(s, es[0]).disputes {
        NewDisputeIsFiled(s, es[0], id);
      }
      EndsOnce(Step(s, es[0]), es[1..], id);
    }
  }
}
