/** Tracked XRPL transactions and the disputes they execute (be2): every writer of a tracked
    row or of a dispute status, each request or worker step on one row taken as atomic. */
module TxTracking {
  import opened Common

  type Hash = string
  type DisputeId = string

  datatype Outcome = Success | Retryable | FinalFail | ManualReview

  datatype Tracking = Created | Submitted | PendingValidation | ValidatedSuccess | ValidatedFail | RetryScheduled

  datatype DisputeStatus = Filed | UnderReview | Decided | ExecutionPending | Executed | Rejected

  datatype EscrowFields = EscrowFields(
    owner: Option<string>, destination: Option<string>, offerSequence: Option<int>, submitter: Option<string>)

  const NoEscrow := EscrowFields(None, None, None, None)

  datatype Tx = Tx(
    txType: string, account: Option<string>, disputeId: Option<DisputeId>, network: string,
    tracking: Tracking, validated: bool, ledgerIndex: Option<int>, resultCode: Option<string>,
    outcome: Option<Outcome>, retries: nat, lastChecked: int, escrow: EscrowFields)

  /** What the ledger, the stream or account_tx reports about a hash. */
  datatype Live = Live(
    validated: bool, ledgerIndex: Option<int>, resultCode: Option<string>,
    account: Option<string>, txType: Option<string>, escrow: EscrowFields)

  datatype State = State(txs: map<Hash, Tx>, disputes: map<DisputeId, DisputeStatus>, decisions: seq<DisputeId>)

  const Empty := State(map[], map[], [])

  function Classify(code: Option<string>): Outcome {
    if !Truthy(code) then ManualReview
    else if "tes" <= code.value then Success
    else if "ter" <= code.value then Retryable
    else if "tem" <= code.value then FinalFail
    else ManualReview
  }

  // ---- applyLiveTxStatus ----

  /** White space and line ends, as String.prototype.trim sees them. */
  predicate IsSpace(c: char) {
    || c in "\t\n\U{000B}\U{000C}\r \U{00A0}\U{1680}\U{2028}\U{2029}\U{202F}\U{205F}\U{3000}\U{FEFF}"
    || '\U{2000}' <= c <= '\U{200A}'
  }

  /** The part between the first and the last character that is no white space. */
  function Trim(s: string): string {
    if s == "" then ""
    else if IsSpace(s[0]) then Trim(s[1..])
    else if IsSpace(s[|s| - 1]) then Trim(s[..|s| - 1])
    else s
  }

  /** What is cut off is white space, what is left neither begins nor ends with it. */
  lemma {:induction false} TrimMeaning(s: string) returns (i: nat, j: nat)
    ensures i <= j <= |s| && Trim(s) == s[i..j]
    ensures forall k :: 0 <= k < i || j <= k < |s| ==> IsSpace(s[k])
    ensures i < j ==> !IsSpace(s[i]) && !IsSpace(s[j - 1])
  {
    hide IsSpace;
    i, j := 0, |s|;
    if s != "" && IsSpace(s[0]) {
      i, j := TrimMeaning(s[1..]);
      i, j := i + 1, j + 1;
    } else if s != "" && IsSpace(s[|s| - 1]) {
      i, j := TrimMeaning(s[..|s| - 1]);
    }
  }

  function Trimmed(s: Option<string>): Option<string> { if s.Some? then Some(Trim(s.value)) else None }

  function Prefer(a: Option<string>, b: Option<string>): Option<string> { if Truthy(a) then a else b }

  function MergeEscrow(t: EscrowFields, l: EscrowFields): EscrowFields {
    EscrowFields(Prefer(l.owner, t.owner), Prefer(l.destination, t.destination),
                 if l.offerSequence.Some? then l.offerSequence else t.offerSequence,
                 Prefer(l.submitter, t.submitter))
  }

  function TrackingOf(validated: bool, outcome: Outcome): Tracking {
    if validated && outcome == Success then ValidatedSuccess
    else if validated then ValidatedFail
    else PendingValidation
  }

  function Merge(t: Tx, l: Live, now: int): Tx {
    var outcome := Classify(l.resultCode);
    t.(account := Prefer(t.account, Prefer(Trimmed(l.account), t.account)),
       txType := if Truthy(l.txType) then l.txType.value else t.txType,
       escrow := MergeEscrow(t.escrow, l.escrow),
       lastChecked := now,
       validated := l.validated,
       ledgerIndex := l.ledgerIndex,
       resultCode := l.resultCode,
       outcome := Some(outcome),
       tracking := TrackingOf(l.validated, outcome))
  }

  /** The dispute a validated row resolves, if it is waiting for it. */
  function Resolve(disputes: map<DisputeId, DisputeStatus>, t: Tx): map<DisputeId, DisputeStatus> {
    if t.disputeId.Some? && t.validated && t.disputeId.value in disputes
       && disputes[t.disputeId.value] == ExecutionPending
    then disputes[t.disputeId.value := if t.outcome == Some(Success) then Executed else Rejected]
    else disputes
  }

  function ApplyLive(s: State, h: Hash, l: Live, now: int): State {
    if h !in s.txs then s
    else
      var t := Merge(s.txs[h], l, now);
      s.(txs := s.txs[h := t], disputes := Resolve(s.disputes, t))
  }

  function ApplyIfAny(s: State, h: Hash, live: Option<Live>, now: int): State {
    if live.Some? then ApplyLive(s, h, live.value, now) else s
  }

  // ---- tracking requests ----

  datatype Params = Params(txType: string, account: Option<string>, disputeId: Option<DisputeId>, network: string)

  function UpsertTracked(s: State, h: Hash, p: Params, now: int): State {
    var t := if h in s.txs then
        var e := s.txs[h];
        e.(txType := p.txType, network := p.network, lastChecked := now,
           account := if p.account.Some? then p.account else e.account,
           disputeId := if p.disputeId.Some? then p.disputeId else e.disputeId)
      else
        Tx(p.txType, p.account, p.disputeId, p.network, PendingValidation, false, None, None, None, 0, now, NoEscrow);
    s.(txs := s.txs[h := t])
  }

  function TrackTx(s: State, h: Hash, txType: string, account: Option<string>, network: string,
                   live: Option<Live>, now: int): State {
    ApplyIfAny(UpsertTracked(s, h, Params(txType, account, None, network), now), h, live, now)
  }

  // ---- dispute requests ----

  function PatchStatus(s: State, id: DisputeId, next: DisputeStatus): Result<State> {
    if id !in s.disputes then Err("Dispute not found")
    else if (s.disputes[id] == Filed && next == UnderReview) || (s.disputes[id] == UnderReview && next == Filed)
    then Ok(s.(disputes := s.disputes[id := next]))
    else Err("Cannot transition dispute status")
  }

  function RecordDecision(s: State, id: DisputeId): Result<State> {
    if id !in s.disputes then Err("Dispute not found")
    else if s.disputes[id] != Filed && s.disputes[id] != UnderReview then Err("Invalid status for decision")
    else Ok(s.(disputes := s.disputes[id := Decided], decisions := s.decisions + [id]))
  }

  /** The execution request: the live status is applied before the dispute becomes pending. */
  function RequestExecution(s: State, id: DisputeId, h: Hash, txType: string, owner: string, network: string,
                            ledgerBacked: bool, live: Option<Live>, now: int): Result<State> {
    if id !in s.disputes then Err("Dispute not found")
    else if s.disputes[id] != Decided then Err("Dispute must be decided first")
    else if ledgerBacked && live.Some? && Truthy(live.value.txType) && live.value.txType.value != txType
    then Err("Transaction type mismatch")
    else
      var s1 := UpsertTracked(s, h, Params(txType, Some(owner), Some(id), network), now);
      var s2 := ApplyIfAny(s1, h, live, now);
      Ok(s2.(disputes := s2.disputes[id := ExecutionPending]))
  }

  // ---- the policy worker and the backfills ----

  predicate IsPolicyCandidate(t: Tx) {
    && !t.validated
    && (t.tracking == PendingValidation || t.tracking == RetryScheduled)
    && t.outcome != Some(ManualReview)
  }

  /** One probe that found nothing. */
  function ProbeMissed(t: Tx, maxProbes: int, now: int): Tx {
    var u := t.(retries := t.retries + 1, lastChecked := now);
    if u.retries < maxProbes then u
    else u.(outcome := Some(ManualReview),
            resultCode := if t.resultCode.Some? then t.resultCode else Some("not_found_after_policy"),
            tracking := ValidatedFail,
            validated := false)
  }

  function PolicyMiss(s: State, h: Hash, maxProbes: int, now: int): State {
    if h !in s.txs || !IsPolicyCandidate(s.txs[h]) then s
    else s.(txs := s.txs[h := ProbeMissed(s.txs[h], maxProbes, now)])
  }

  /** The account of a row that lacks one, as the ledger reports it. */
  function AccountBackfill(s: State, h: Hash, account: string, now: int): State {
    if h !in s.txs || Truthy(s.txs[h].account) || Trim(account) == "" then s
    else s.(txs := s.txs[h := s.txs[h].(account := Some(Trim(account)), lastChecked := now)])
  }

  /** The first half of the simulated backfill of one row. */
  function Simulated(t: Tx, code: string, fromLedger: int, now: int): Tx {
    var retries := t.retries + 1;
    var rc := if retries >= 2 then code else "terQUEUED";
    var outcome := Classify(Some(rc));
    var u := t.(retries := retries, lastChecked := now, resultCode := Some(rc), outcome := Some(outcome));
    if outcome == Success then
      u.(validated := true, tracking := ValidatedSuccess, ledgerIndex := Some(fromLedger + retries))
    else if outcome == Retryable && retries < 3 then u.(tracking := RetryScheduled)
    else if outcome == Retryable then u.(tracking := ValidatedFail, validated := false)
    else u.(tracking := ValidatedFail, validated := true)
  }

  function SimulateRow(s: State, h: Hash, code: string, fromLedger: int, now: int): State {
    if h !in s.txs || s.txs[h].validated then s
    else
      var u := Simulated(s.txs[h], code, fromLedger, now);
      ApplyLive(s.(txs := s.txs[h := u]), h,
                Live(u.validated, u.ledgerIndex, u.resultCode, None, None, NoEscrow), now)
  }

  // ---- runs ----

  datatype Event =
    | FileDispute(id: DisputeId)
    | Patch(id: DisputeId, next: DisputeStatus)
    | Decide(id: DisputeId)
    | Execute(id: DisputeId, h: Hash, txType: string, owner: string, network: string,
              ledgerBacked: bool, reply: Option<Live>, now: int)
    | Track(h: Hash, txType: string, account: Option<string>, network: string, reply: Option<Live>, now: int)
    | Report(h: Hash, live: Live, now: int)          // stream, refresh, policy worker, live backfill
    | Missed(h: Hash, maxProbes: int, now: int)
    | FoundAccount(h: Hash, acct: string, now: int)
    | Simulate(h: Hash, code: string, fromLedger: int, now: int)

  function Step(s: State, e: Event): State {
    match e
    case FileDispute(id) => if id in s.disputes then s else s.(disputes := s.disputes[id := Filed])
    case Patch(id, next) => OrElse(PatchStatus(s, id, next), s)
    case Decide(id) => OrElse(RecordDecision(s, id), s)
    case Execute(id, h, txType, owner, network, backed, reply, now) =>
      OrElse(RequestExecution(s, id, h, txType, owner, network, backed, reply, now), s)
    case Track(h, txType, account, network, reply, now) => TrackTx(s, h, txType, account, network, reply, now)
    case Report(h, live, now) => ApplyLive(s, h, live, now)
    case Missed(h, maxProbes, now) => PolicyMiss(s, h, maxProbes, now)
    case FoundAccount(h, acct, now) => AccountBackfill(s, h, acct, now)
    case Simulate(h, code, fromLedger, now) => SimulateRow(s, h, code, fromLedger, now)
  }

  function Run(s: State, es: seq<Event>): State
    decreases |es|
  {
    if es == [] then s else Run(Step(s, es[0]), es[1..])
  }
}
