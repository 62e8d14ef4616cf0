/** What the tracker does, said over result codes, statuses and fields themselves. */
module TxLaws {
  import opened Common
  import opened TxTracking
  import opened TxInvariants
  import opened TxPending

  // ---- result codes ----

  /** A row by its last report: its class by the first three letters of the code, its status
      by class and validation; result, ledger and flag as reported. */
  ghost predicate Reflects(t: Tx, l: Live) {
    && (t.outcome == Some(Success) <==> Begins(l.resultCode, "tes"))
    && (t.outcome == Some(Retryable) <==> Begins(l.resultCode, "ter"))
    && (t.outcome == Some(FinalFail) <==> Begins(l.resultCode, "tem"))
    && (t.outcome == Some(ManualReview) <==>
          !Begins(l.resultCode, "tes") && !Begins(l.resultCode, "ter") && !Begins(l.resultCode, "tem"))
    && t.validated == l.validated && t.resultCode == l.resultCode && t.ledgerIndex == l.ledgerIndex
    && (t.tracking == ValidatedSuccess <==> l.validated && Begins(l.resultCode, "tes"))
    && (t.tracking == ValidatedFail <==> l.validated && !Begins(l.resultCode, "tes"))
    && (t.tracking == PendingValidation <==> !l.validated)
  }

  /** What is reported, if anything is; else what is known. */
  ghost function Newer(reported: Option<string>, known: Option<string>): Option<string> {
    if reported.Some? && reported.value != "" then reported else known
  }

  lemma DistinctPrefixes(code: string)
    ensures !("tes" <= code && "ter" <= code) && !("tes" <= code && "tem" <= code) && !("ter" <= code && "tem" <= code)
  {
    if 3 <= |code| { assert "tes"[2] != "ter"[2] && "tes"[2] != "tem"[2] && "ter"[2] != "tem"[2]; }
  }

  /** A row after a report: it reflects the report, keeps its retries, network and dispute,
      takes the reported type and escrow fields, and an account only if it had none. */
  lemma MergeReflects(t: Tx, l: Live, now: int)
    ensures var m := Merge(t, l, now);
            && Reflects(m, l) && m.lastChecked == now
            && m.retries == t.retries && m.network == t.network && m.disputeId == t.disputeId
            && m.txType == (if l.txType.Some? && l.txType.value != "" then l.txType.value else t.txType)
            && m.account == (if t.account.Some? && t.account.value != "" then t.account
                             else if l.account.Some? && Trim(l.account.value) != "" then Some(Trim(l.account.value)) else t.account)
            && m.escrow.owner == Newer(l.escrow.owner, t.escrow.owner)
            && m.escrow.destination == Newer(l.escrow.destination, t.escrow.destination)
            && m.escrow.submitter == Newer(l.escrow.submitter, t.escrow.submitter)
            && m.escrow.offerSequence == (if l.escrow.offerSequence.Some? then l.escrow.offerSequence else t.escrow.offerSequence)
  {
    hide Trim;
    if l.resultCode.Some? { DistinctPrefixes(l.resultCode.value); }
  }

  /** applyLiveTxStatus on a tracked hash: that row reflects the report, no other changes. */
  lemma ReportMeaning(s: State, h: Hash, l: Live, now: int)
    ensures var s' := Step(s, Report(h, l, now));
            && s'.txs.Keys == s.txs.Keys && s'.decisions == s.decisions
            && (h in s.txs ==> Reflects(s'.txs[h], l))
            && (forall g :: g in s.txs && g != h ==> s'.txs[g] == s.txs[g])
  {
    if h in s.txs { MergeReflects(s.txs[h], l, now); }
    hide Merge, Resolve, Reflects;
  }

  /** A pending dispute is settled by the first validated report of its hash: executed exactly
      when the code begins with "tes", rejected for any other code or none, and so it stays. */
  lemma SettledByCode(s: State, h: Hash, l: Live, now: int, id: DisputeId, more: seq<Event>)
    requires Linked(s, h, id) && id in s.disputes && s.disputes[id] == ExecutionPending && l.validated
    ensures var s' := Run(Step(s, Report(h, l, now)), more);
            id in s'.disputes && s'.disputes[id] == if Begins(l.resultCode, "tes") then Executed else Rejected
  {
    var s1 := Step(s, Report(h, l, now));
    MergeReflects(s.txs[h], l, now);
    assert s1.disputes[id] == if Begins(l.resultCode, "tes") then Executed else Rejected by { hide Merge; }
    hide Step, Run;
    StageNeverFalls(s1, more, id);
  }

  /** A report leaves every other dispute alone, and an unvalidated one all of them. */
  lemma ReportSparesOthers(s: State, h: Hash, l: Live, now: int, id: DisputeId)
    requires id in s.disputes && (!Linked(s, h, id) || !l.validated || s.disputes[id] != ExecutionPending)
    ensures var s' := Step(s, Report(h, l, now)); id in s'.disputes && s'.disputes[id] == s.disputes[id]
  {
    if h in s.txs { MergeReflects(s.txs[h], l, now); }
    hide Merge;
  }

  /** In every reachable state `validated_success` holds exactly for validated rows whose code
      begins with "tes". */
  lemma SuccessIsTes(es: seq<Event>, h: Hash)
    requires h in Run(Empty, es).txs
    ensures var t := Run(Empty, es).txs[h]; t.tracking == ValidatedSuccess <==> t.validated && Begins(t.resultCode, "tes")
  {
    ReachableOk(es);
    assert RowOk(Run(Empty, es).txs[h]);
  }

  /** Which rows the policy worker deals with. */
  ghost predicate Watched(t: Tx) {
    && t.validated == false
    && (t.tracking == PendingValidation || t.tracking == RetryScheduled)
    && (t.outcome == None || t.outcome == Some(Success) || t.outcome == Some(Retryable) || t.outcome == Some(FinalFail))
  }

  lemma CandidateIsWatched(t: Tx)
    ensures IsPolicyCandidate(t) <==> Watched(t)
  {
    if t.outcome.Some? {
      match t.outcome.value {
        case Success =>
        case Retryable =>
        case FinalFail =>
        case ManualReview =>
      }
    }
  }

  /** After a report a row is watched exactly if it is not validated and has a known code: an
      unvalidated report without one takes it out of the policy set. */
  lemma WatchedAfterReport(s: State, h: Hash, l: Live, now: int)
    requires h in s.txs
    ensures Watched(Step(s, Report(h, l, now)).txs[h]) <==>
            !l.validated && (Begins(l.resultCode, "tes") || Begins(l.resultCode, "ter") || Begins(l.resultCode, "tem"))
  {
    MergeReflects(s.txs[h], l, now);
    hide Merge;
  }

  // ---- tracking and dispute requests ----

  /** Tracking a hash: a new row is pending with nothing known; an old one keeps what the
      ledger has said of it. */
  lemma TrackMeaning(s: State, h: Hash, p: Params, now: int)
    ensures var s' := UpsertTracked(s, h, p, now);
            && s'.txs.Keys == s.txs.Keys + {h} && s'.disputes == s.disputes && s'.decisions == s.decisions
            && (forall g :: g in s.txs && g != h ==> s'.txs[g] == s.txs[g])
            && var t := s'.txs[h];
               && t.txType == p.txType && t.network == p.network && t.lastChecked == now
               && t.account == (if p.account.Some? || h !in s.txs then p.account else s.txs[h].account)
               && t.disputeId == (if p.disputeId.Some? || h !in s.txs then p.disputeId else s.txs[h].disputeId)
               && (h in s.txs ==> && t.validated == s.txs[h].validated && t.tracking == s.txs[h].tracking && t.outcome == s.txs[h].outcome
                                  && t.retries == s.txs[h].retries && t.resultCode == s.txs[h].resultCode
                                  && t.ledgerIndex == s.txs[h].ledgerIndex && t.escrow == s.txs[h].escrow)
               && (h !in s.txs ==> && !t.validated && t.tracking == PendingValidation && t.outcome == None && t.retries == 0
                                   && t.resultCode == None && t.ledgerIndex == None && t.escrow == NoEscrow)
  {
  }

  /** Filed and under_review exchange, and nothing else is patched. */
  lemma PatchMeaning(s: State, id: DisputeId, next: DisputeStatus)
    ensures var r := PatchStatus(s, id, next);
            && (r.Ok? <==> id in s.disputes && ((s.disputes[id] == Filed && next == UnderReview)
                                                || (s.disputes[id] == UnderReview && next == Filed)))
            && (r.Ok? ==> r.value == s.(disputes := s.disputes[id := next]))
  {
  }

  /** A decision is taken exactly on a filed or reviewed dispute. */
  lemma DecisionMeaning(s: State, id: DisputeId)
    ensures var r := RecordDecision(s, id);
            && (r.Ok? <==> id in s.disputes && (s.disputes[id] == Filed || s.disputes[id] == UnderReview))
            && (r.Ok? ==> r.value == s.(disputes := s.disputes[id := Decided], decisions := s.decisions + [id]))
  {
  }

  /** An execution is accepted exactly for a decided dispute whose hash is not known to be of
      another type; it tracks the hash for the dispute's owner. */
  lemma ExecutionMeaning(s: State, e: Event)
    requires e.Execute?
    ensures Accepts(s, e) <==>
              && e.id in s.disputes && s.disputes[e.id] == Decided
              && !(e.ledgerBacked && e.reply.Some? && e.reply.value.txType.Some? && e.reply.value.txType.value != ""
                   && e.reply.value.txType.value != e.txType)
    ensures !Accepts(s, e) ==> Step(s, e) == s
    ensures Accepts(s, e) ==>
              var s' := Step(s, e);
              && e.h in s'.txs && s'.txs[e.h].disputeId == Some(e.id) && s'.txs[e.h].network == e.network
              && (e.reply.Some? ==> Reflects(s'.txs[e.h], e.reply.value))
              && (e.reply.None? ==> s'.txs[e.h].txType == e.txType && s'.txs[e.h].account == Some(e.owner))
              && (forall g :: g in s.txs && g != e.h ==> g in s'.txs && s'.txs[g] == s.txs[g])
              && (forall q :: q in s.disputes && q != e.id ==> q in s'.disputes && s'.disputes[q] == s.disputes[q])
  {
    var s1 := UpsertTracked(s, e.h, Params(e.txType, Some(e.owner), Some(e.id), e.network), e.now);
    if e.reply.Some? { MergeReflects(s1.txs[e.h], e.reply.value, e.now); }
    hide Merge, Reflects, Resolve;
    if e.reply.Some? && Accepts(s, e) { OwnDisputeOnly(s1, e.h, e.reply.value, e.now, e.id); }
  }

  lemma OwnDisputeOnly(s: State, h: Hash, l: Live, now: int, id: DisputeId)
    requires h in s.txs && s.txs[h].disputeId == Some(id)
    ensures var s' := ApplyLive(s, h, l, now);
            forall q :: q in s.disputes && q != id ==> q in s'.disputes && s'.disputes[q] == s.disputes[q]
  {
    MergeReflects(s.txs[h], l, now);
    hide Merge;
  }

  // ---- probes and backfills ----

  /** A probe that finds nothing counts; the one that exhausts the budget hands the row over,
      with a code of its own only if it had none. */
  lemma MissMeaning(t: Tx, budget: int, now: int)
    ensures var u := ProbeMissed(t, budget, now);
            && u.retries == t.retries + 1 && u.lastChecked == now
            && (t.retries + 1 < budget ==> u == t.(retries := t.retries + 1, lastChecked := now))
            && (t.retries + 1 >= budget ==>
                  u == t.(retries := t.retries + 1, lastChecked := now, validated := false, tracking := ValidatedFail,
                          outcome := Some(ManualReview),
                          resultCode := if t.resultCode.None? then Some("not_found_after_policy") else t.resultCode))
  {
  }

  /** The simulated backfill of an unvalidated row: it reflects "terQUEUED" the first time, the
      given code after that, validated unless that is a retryable one. */
  lemma BackfillMeaning(s: State, h: Hash, code: string, fromLedger: int, now: int)
    ensures var s' := Step(s, Simulate(h, code, fromLedger, now));
            && s'.txs.Keys == s.txs.Keys && (forall g :: g in s.txs && g != h ==> s'.txs[g] == s.txs[g])
            && (h !in s.txs || s.txs[h].validated ==> s' == s)
            && (h in s.txs && !s.txs[h].validated ==>
                  var n := s.txs[h].retries + 1; var rc := Some(if n >= 2 then code else "terQUEUED");
                  && s'.txs[h].retries == n
                  && Reflects(s'.txs[h], Live(!Begins(rc, "ter"), if Begins(rc, "tes") then Some(fromLedger + n) else s.txs[h].ledgerIndex,
                                              rc, None, None, NoEscrow)))
  {
    if h in s.txs && !s.txs[h].validated {
      var u := Simulated(s.txs[h], code, fromLedger, now);
      MergeReflects(u, Live(u.validated, u.ledgerIndex, u.resultCode, None, None, NoEscrow), now);
      SimulatedMeaning(s.txs[h], code, fromLedger, now);
    }
    hide Merge, Simulated, Reflects, Resolve;
  }

  lemma SimulatedMeaning(t: Tx, code: string, fromLedger: int, now: int)
    requires !t.validated
    ensures var u := Simulated(t, code, fromLedger, now); var n := t.retries + 1;
            var rc := Some(if n >= 2 then code else "terQUEUED");
            && u.retries == n && u.resultCode == rc && u.validated == !Begins(rc, "ter")
            && u.ledgerIndex == (if Begins(rc, "tes") then Some(fromLedger + n) else t.ledgerIndex)
  {
    var rc := if t.retries + 1 >= 2 then code else "terQUEUED";
    DistinctPrefixes(rc);
  }

  /** A row without an account takes the reported one, trimmed; nothing else changes. */
  lemma AccountMeaning(s: State, h: Hash, account: string, now: int)
    ensures var s' := Step(s, FoundAccount(h, account, now));
            && s'.txs.Keys == s.txs.Keys && s'.disputes == s.disputes
            && (forall g :: g in s.txs && g != h ==> s'.txs[g] == s.txs[g])
            && (h in s.txs ==>
                  s'.txs[h] == if (s.txs[h].account.Some? && s.txs[h].account.value != "") || Trim(account) == "" then s.txs[h]
                               else s.txs[h].(account := Some(Trim(account)), lastChecked := now))
  {
    hide Trim;
  }
}
