/** The tracker as the handlers run it: records fetched, changed field by field and saved
    back. Each method is proved against the step it performs. */
module TxStore {
  import opened Common
  import opened TxTracking

  class Tracker {
    var txs: map<Hash, Tx>
    var disputes: map<DisputeId, DisputeStatus>
    var decisions: seq<DisputeId>

    ghost function View(): State
      reads this
    {
      State(txs, disputes, decisions)
    }

    constructor ()
      ensures View() == Empty
    {
      txs, disputes, decisions := map[], map[], [];
    }

    /** The field assignments of applyLiveTxStatus, in their order. */
    static method UpdateEscrow(was: EscrowFields, l: EscrowFields) returns (e: EscrowFields)
      ensures e == MergeEscrow(was, l)
    {
      e := was;
      if Truthy(l.owner) { e := e.(owner := l.owner); }
      if Truthy(l.destination) { e := e.(destination := l.destination); }
      if l.offerSequence.Some? { e := e.(offerSequence := l.offerSequence); }
      if Truthy(l.submitter) { e := e.(submitter := l.submitter); }
    }

    static method UpdateTracked(was: Tx, l: Live, now: int) returns (t: Tx)
      ensures t == Merge(was, l, now)
    {
      t := was;
      var acct := Trimmed(l.account);
      if Truthy(acct) && !Truthy(t.account) { t := t.(account := acct); }
      if Truthy(l.txType) { t := t.(txType := l.txType.value); }
      var e := UpdateEscrow(t.escrow, l.escrow);
      t := t.(escrow := e, lastChecked := now, validated := l.validated, ledgerIndex := l.ledgerIndex);
      t := t.(resultCode := l.resultCode, outcome := Some(Classify(l.resultCode)));
      if t.validated && t.outcome == Some(Success) {
        t := t.(tracking := ValidatedSuccess);
      } else if t.validated {
        t := t.(tracking := ValidatedFail);
      } else {
        t := t.(tracking := PendingValidation);
      }
    }

    method ApplyLiveTxStatus(h: Hash, l: Live, now: int) returns (applied: bool)
      modifies this
      ensures applied == (h in old(txs))
      ensures View() == ApplyLive(old(View()), h, l, now)
    {
      if h !in txs { return false; }
      var t := UpdateTracked(txs[h], l, now);
      txs := txs[h := t];
      if t.disputeId.Some? && t.validated {
        var id := t.disputeId.value;
        if id in disputes && disputes[id] == ExecutionPending {
          disputes := disputes[id := if t.outcome == Some(Success) then Executed else Rejected];
        }
      }
      return true;
    }

    method UpsertTrackedTx(h: Hash, p: Params, now: int)
      modifies this`txs
      ensures View() == UpsertTracked(old(View()), h, p, now)
    {
      var t := Tx(p.txType, p.account, p.disputeId, p.network, PendingValidation, false, None, None, None, 0, now, NoEscrow);
      if h in txs {
        t := txs[h].(txType := p.txType, network := p.network, lastChecked := now);
        if p.account.Some? { t := t.(account := p.account); }
        if p.disputeId.Some? { t := t.(disputeId := p.disputeId); }
      }
      txs := txs[h := t];
    }

    method PatchDisputeStatus(id: DisputeId, next: DisputeStatus) returns (r: Result<()>)
      modifies this
      ensures Performs(r, PatchStatus(old(View()), id, next), old(View()), View())
    {
      if id !in disputes { return Err("Dispute not found"); }
      var from := disputes[id];
      var allowed := false;
      if from == Filed && next == UnderReview { allowed := true; }
      if from == UnderReview && next == Filed { allowed := true; }
      if !allowed { return Err("Cannot transition dispute status"); }
      disputes := disputes[id := next];
      return Ok(());
    }

    method PostDecision(id: DisputeId) returns (r: Result<()>)
      modifies this
      ensures Performs(r, RecordDecision(old(View()), id), old(View()), View())
    {
      if id !in disputes { return Err("Dispute not found"); }
      if disputes[id] != Filed && disputes[id] != UnderReview { return Err("Invalid status for decision"); }
      decisions := decisions + [id];
      disputes := disputes[id := Decided];
      return Ok(());
    }

    method PostExecution(id: DisputeId, h: Hash, txType: string, owner: string, network: string,
                         ledgerBacked: bool, live: Option<Live>, now: int) returns (r: Result<()>)
      modifies this
      ensures Performs(r, RequestExecution(old(View()), id, h, txType, owner, network, ledgerBacked, live, now),
                       old(View()), View())
    {
      if id !in disputes { return Err("Dispute not found"); }
      if disputes[id] != Decided { return Err("Dispute must be decided first"); }
      if ledgerBacked && live.Some? && Truthy(live.value.txType) && live.value.txType.value != txType {
        return Err("Transaction type mismatch");
      }
      UpsertTrackedTx(h, Params(txType, Some(owner), Some(id), network), now);
      if live.Some? {
        var _ := ApplyLiveTxStatus(h, live.value, now);
      }
      disputes := disputes[id := ExecutionPending];
      return Ok(());
    }

    /** One iteration of the simulated backfill. */
    method SimulateOne(h: Hash, code: string, fromLedger: int, now: int)
      modifies this
      ensures View() == SimulateRow(old(View()), h, code, fromLedger, now)
    {
      if h !in txs || txs[h].validated { return; }
      var t := txs[h].(retries := txs[h].retries + 1, lastChecked := now);
      t := t.(resultCode := Some(if t.retries >= 2 then code else "terQUEUED"));
      var outcome := Classify(t.resultCode);
      t := t.(outcome := Some(outcome));
      if outcome == Success {
        t := t.(validated := true, tracking := ValidatedSuccess, ledgerIndex := Some(fromLedger + t.retries));
      } else if outcome == Retryable && t.retries < 3 {
        t := t.(tracking := RetryScheduled);
      } else if outcome == Retryable {
        t := t.(tracking := ValidatedFail, validated := false);
      } else {
        t := t.(tracking := ValidatedFail, validated := true);
      }
      txs := txs[h := t];
      var _ := ApplyLiveTxStatus(h, Live(t.validated, t.ledgerIndex, t.resultCode, None, None, NoEscrow), now);
    }

    /** The whole backfill over the listed rows is a run of such steps. */
    method SimulateBackfill(hs: seq<Hash>, code: string, fromLedger: int, now: int)
      modifies this
      ensures View() == Run(old(View()), SimulateEvents(hs, code, fromLedger, now))
    {
      hide Step;
      ghost var es := SimulateEvents(hs, code, fromLedger, now);
      assert es[0..] == es;
      for i := 0 to |hs|
        invariant Run(View(), es[i..]) == Run(old(View()), es)
      {
        assert es[i..][1..] == es[i + 1..] && es[i..][0] == Simulate(hs[i], code, fromLedger, now);
        SimulateStep(View(), hs[i], code, fromLedger, now);
        SimulateOne(hs[i], code, fromLedger, now);
      }
      assert es[|hs|..] == [];
    }
  }

  function SimulateEvents(hs: seq<Hash>, code: string, fromLedger: int, now: int): seq<Event> {
    seq(|hs|, i requires 0 <= i < |hs| => Simulate(hs[i], code, fromLedger, now))
  }

  lemma SimulateStep(s: State, h: Hash, code: string, fromLedger: int, now: int)
    ensures Step(s, Simulate(h, code, fromLedger, now)) == SimulateRow(s, h, code, fromLedger, now)
  {
  }
}
