/** The notification outbox, its fan-out worker and the delivery worker behind it. One step
    is one repository call or one row worked through; claims in flight are explicit. */
module Outbox {
  import opened Common

  type OutboxId = string
  type NotificationId = string

  /** What a notification says and to whom. */
  datatype Item = Item(eventType: string, recipientId: string, channel: string, payload: string)

  datatype RowStatus = Pending | Processing | Dispatched | Dead

  datatype Row = Row(key: string, item: Item, status: RowStatus, attempts: nat, createdAt: int,
                     startedAt: Option<int>, notification: Option<NotificationId>)

  datatype DeliveryStatus = Queued | Sent | Failed | RetryScheduled

  datatype Notification = Notification(item: Item, status: DeliveryStatus, attemptCount: nat, deadLetter: bool,
                                       nextAttemptAt: Option<int>, createdAt: int)

  /** A worker's own copy of a row it has claimed. */
  datatype Claim = Claim(id: OutboxId, row: Row)

  datatype State = State(
    rows: map<OutboxId, Row>,
    order: seq<OutboxId>,                          // insertion order of `rows`
    keys: map<string, OutboxId>,                   // the idempotency index
    notifications: map<NotificationId, Notification>,
    noteOrder: seq<NotificationId>,                // insertion order of `notifications`
    inflight: seq<Claim>,
    // history, for counting:
    calls: map<NotificationId, nat>,               // provider calls per notification
    made: map<OutboxId, set<NotificationId>>)      // created since the row's last reset

  const Empty := State(map[], [], map[], map[], [], [], map[], map[])

  datatype Config = Config(maxDispatchAttempts: nat, maxAttempts: nat, initialBackoff: nat, maxBackoff: nat)

  function MadeFor(s: State, id: OutboxId): set<NotificationId> { if id in s.made then s.made[id] else {} }

  // ---- enqueue ----

  function Append(s: State, id: OutboxId, row: Row): State {
    if row.key in s.keys then s
    else s.(rows := s.rows[id := row], order := s.order + [id], keys := s.keys[row.key := id], made := s.made[id := {}])
  }

  /** keyOf is the digest of event type, recipient, channel and payload. */
  function Enqueue(s: State, keyOf: Item -> string, item: Item, id: OutboxId, now: int): State {
    Append(s, id, Row(keyOf(item), item, Pending, 0, now, None, None))
  }

  // ---- the fan-out worker ----

  function IsPending(rows: map<OutboxId, Row>): OutboxId -> bool {
    (id: OutboxId) => id in rows && rows[id].status == Pending
  }

  function CreatedOf(rows: map<OutboxId, Row>, id: OutboxId): int { if id in rows then rows[id].createdAt else 0 }

  function Older(rows: map<OutboxId, Row>): (OutboxId, OutboxId) -> bool {
    (a: OutboxId, b: OutboxId) => CreatedOf(rows, a) <= CreatedOf(rows, b)
  }

  function Claimable(s: State, limit: nat): seq<OutboxId> {
    FirstSorted(s.order, IsPending(s.rows), Older(s.rows), limit)
  }

  function Started(r: Row, now: int): Row { r.(status := Processing, startedAt := Some(now)) }

  /** Claiming one row; the claim loop does this for each claimable id. */
  function ClaimOne(s: State, id: OutboxId, now: int): State {
    if id !in s.rows || s.rows[id].status != Pending then s
    else
      var u := Started(s.rows[id], now);
      s.(rows := s.rows[id := u], inflight := s.inflight + [Claim(id, u)])
  }

  function ClaimAll(s: State, ids: seq<OutboxId>, now: int): State {
    if ids == [] then s else ClaimOne(ClaimAll(s, ids[..|ids| - 1], now), ids[|ids| - 1], now)
  }

  function ClaimPending(s: State, limit: nat, now: int): State { ClaimAll(s, Claimable(s, limit), now) }

  /** updateNotificationOutbox. */
  function UpdateRow(s: State, id: OutboxId, row: Row): State {
    var keys := if id in s.rows && s.rows[id].key != row.key then (s.keys - {s.rows[id].key})[row.key := id] else s.keys;
    s.(rows := s.rows[id := row], keys := keys)
  }

  function AddNotification(s: State, nid: NotificationId, item: Item, now: int): State {
    s.(notifications := s.notifications[nid := Notification(item, Queued, 0, false, None, now)],
       noteOrder := s.noteOrder + [nid],
       calls := s.calls[nid := 0])
  }

  /** Where a dispatch ends: everything saved, the notification not saved, or saved but a
      later call threw. */
  datatype DispatchOutcome = AllSaved | SaveThrew | LaterThrew

  function AfterFailure(r: Row, max: nat): Row {
    r.(status := if r.attempts + 1 >= max then Dead else Pending, attempts := r.attempts + 1, startedAt := None)
  }

  function NoteMade(s: State, id: OutboxId, nid: NotificationId): State {
    s.(made := s.made[id := MadeFor(s, id) + {nid}])
  }

  /** The notification a dispatch saves; its creation time is the tick's, as the claim's is. */
  function SaveFor(s: State, c: Claim, nid: NotificationId): State {
    NoteMade(AddNotification(s, nid, c.row.item, c.row.startedAt.GetOr(0)), c.id, nid)
  }

  /** dispatchOneOutboxRow on a claim in flight, writing back from the worker's copy. */
  function DispatchOne(s: State, cfg: Config, i: nat, nid: NotificationId, outcome: DispatchOutcome): State
    requires i < |s.inflight|
  {
    var c := s.inflight[i];
    var s1 := s.(inflight := DropAt(s.inflight, i));
    var s2 := if outcome == SaveThrew then s1 else SaveFor(s1, c, nid);
    if outcome == AllSaved
    then UpdateRow(s2, c.id, c.row.(status := Dispatched, startedAt := None, notification := Some(nid)))
    else UpdateRow(s2, c.id, AfterFailure(c.row, cfg.maxDispatchAttempts))
  }

  /** The worker dies or its tick aborts with the claim still open, before or after the
      notification was saved. */
  function Abandon(s: State, i: nat, nid: NotificationId, saved: bool): State
    requires i < |s.inflight|
  {
    var c := s.inflight[i];
    var s1 := s.(inflight := DropAt(s.inflight, i));
    if saved then SaveFor(s1, c, nid) else s1
  }

  predicate IsStale(r: Row, staleBefore: int) {
    r.status == Processing && r.startedAt.Some? && r.startedAt.value < staleBefore
  }

  function RecoverOne(s: State, id: OutboxId, staleBefore: int): State {
    if id in s.rows && IsStale(s.rows[id], staleBefore)
    then s.(rows := s.rows[id := s.rows[id].(status := Pending, startedAt := None)], made := s.made[id := {}])
    else s
  }

  function RecoverAll(s: State, ids: seq<OutboxId>, staleBefore: int): State {
    if ids == [] then s else RecoverOne(RecoverAll(s, ids[..|ids| - 1], staleBefore), ids[|ids| - 1], staleBefore)
  }

  function RecoverStale(s: State, staleBefore: int): State { RecoverAll(s, s.order, staleBefore) }

  /** The operator's retry of a dead row. */
  function RetryDead(s: State, id: OutboxId): Result<State> {
    if id !in s.rows then Err("Outbox row not found")
    else if s.rows[id].status != Dead then Err("Only dead outbox rows can be retried")
    else
      var s1 := UpdateRow(s, id, s.rows[id].(status := Pending, attempts := 0, startedAt := None, notification := None));
      Ok(s1.(made := s1.made[id := {}]))
  }

  // ---- the delivery worker ----

  predicate IsDue(n: Notification, now: int) {
    && !n.deadLetter
    && (n.status == Queued || (n.status == RetryScheduled && (n.nextAttemptAt.None? || n.nextAttemptAt.value <= now)))
  }

  function DueNow(notifications: map<NotificationId, Notification>, now: int): NotificationId -> bool {
    (nid: NotificationId) => nid in notifications && IsDue(notifications[nid], now)
  }

  function NoteCreatedOf(notifications: map<NotificationId, Notification>, nid: NotificationId): int {
    if nid in notifications then notifications[nid].createdAt else 0
  }

  function OlderNote(notifications: map<NotificationId, Notification>): (NotificationId, NotificationId) -> bool {
    (a: NotificationId, b: NotificationId) => NoteCreatedOf(notifications, a) <= NoteCreatedOf(notifications, b)
  }

  /** listDueNotifications. */
  function Due(s: State, now: int, limit: nat): seq<NotificationId> {
    FirstSorted(s.noteOrder, DueNow(s.notifications, now), OlderNote(s.notifications), limit)
  }

  function BackoffMs(failures: nat, cfg: Config): int { Min(cfg.maxBackoff, cfg.initialBackoff * Pow2(failures)) }

  function AfterDelivery(n: Notification, cfg: Config, ok: bool, now: int): Notification {
    if ok then n.(status := Sent, nextAttemptAt := None)
    else
      var failed := n.attemptCount + 1;
      if failed >= cfg.maxAttempts
      then n.(status := Failed, deadLetter := true, attemptCount := failed, nextAttemptAt := None)
      else n.(status := RetryScheduled, attemptCount := failed, nextAttemptAt := Some(now + BackoffMs(failed, cfg)))
  }

  /** processOne on a notification that was listed as due: one provider call, one save. */
  function ProcessOne(s: State, cfg: Config, nid: NotificationId, ok: bool, now: int): State {
    if nid !in s.notifications || !IsDue(s.notifications[nid], now) then s
    else s.(notifications := s.notifications[nid := AfterDelivery(s.notifications[nid], cfg, ok, now)],
            calls := s.calls[nid := (if nid in s.calls then s.calls[nid] else 0) + 1])
  }

  // ---- runs ----

  datatype Event =
    | Enqueued(item: Item, id: OutboxId, now: int)
    | Claimed(limit: nat, now: int)
    | Dispatching(i: nat, nid: NotificationId, outcome: DispatchOutcome)
    | Abandoned(i: nat, nid: NotificationId, saved: bool)
    | Recovered(staleBefore: int)
    | Retried(id: OutboxId)
    | Requested(item: Item, nid: NotificationId, now: int)       // a notification created outside the outbox
    | Processed(nid: NotificationId, ok: bool, now: int)

  /** New ids are fresh; any event that does not apply leaves the state alone. */
  function Step(s: State, keyOf: Item -> string, cfg: Config, e: Event): State {
    match e
    case Enqueued(item, id, now) => if id in s.rows then s else Enqueue(s, keyOf, item, id, now)
    case Claimed(limit, now) => ClaimPending(s, limit, now)
    case Dispatching(i, nid, outcome) =>
      if i < |s.inflight| && nid !in s.notifications then DispatchOne(s, cfg, i, nid, outcome) else s
    case Abandoned(i, nid, saved) =>
      if i < |s.inflight| && nid !in s.notifications then Abandon(s, i, nid, saved) else s
    case Recovered(staleBefore) => RecoverStale(s, staleBefore)
    case Retried(id) => OrElse(RetryDead(s, id), s)
    case Requested(item, nid, now) => if nid in s.notifications then s else AddNotification(s, nid, item, now)
    case Processed(nid, ok, now) => ProcessOne(s, cfg, nid, ok, now)
  }

  function Run(s: State, keyOf: Item -> string, cfg: Config, es: seq<Event>): State
    decreases |es|
  {
    if es == [] then s else Run(Step(s, keyOf, cfg, es[0]), keyOf, cfg, es[1..])
  }

  lemma UpdateFrame(s: State, id: OutboxId, row: Row)
    ensures var s' := UpdateRow(s, id, row); s'.notifications == s.notifications && s'.calls == s.calls
  {
  }

  lemma {:induction false} RunConcat(s: State, keyOf: Item -> string, cfg: Config, es: seq<Event>, more: seq<Event>)
    ensures Run(s, keyOf, cfg, es + more) == Run(Run(s, keyOf, cfg, es), keyOf, cfg, more)
    decreases |es|
  {
    hide Step;
    if es == [] {
      assert es + more == more;
    } else {
      assert (es + more)[1..] == es[1..] + more;
      RunConcat(Step(s, keyOf, cfg, es[0]), keyOf, cfg, es[1..], more);
    }
  }

  lemma RunSnoc(s: State, keyOf: Item -> string, cfg: Config, es: seq<Event>, e: Event)
    ensures Run(s, keyOf, cfg, es + [e]) == Step(Run(s, keyOf, cfg, es), keyOf, cfg, e)
  {
    hide Step;
    RunConcat(s, keyOf, cfg, es, [e]);
    var s1 := Run(s, keyOf, cfg, es);
    assert [e][1..] == [];
    assert Run(s1, keyOf, cfg, [e]) == Run(Step(s1, keyOf, cfg, e), keyOf, cfg, []);
  }

  lemma NoSteps(s: State, keyOf: Item -> string, cfg: Config)
    ensures Run(s, keyOf, cfg, []) == s
  {
  }

  lemma TwoSteps(s: State, keyOf: Item -> string, cfg: Config, a: Event, b: Event)
    ensures Run(s, keyOf, cfg, [a, b]) == Step(Step(s, keyOf, cfg, a), keyOf, cfg, b)
  {
    hide Step;
    assert [a, b][1..] == [b] && [b][1..] == [];
    var s1 := Step(s, keyOf, cfg, a);
    assert Run(s1, keyOf, cfg, [b]) == Run(Step(s1, keyOf, cfg, b), keyOf, cfg, []);
  }

  lemma OneStep(s: State, keyOf: Item -> string, cfg: Config, e: Event)
    ensures Run(s, keyOf, cfg, [e]) == Step(s, keyOf, cfg, e)
  {
    hide Step;
    assert [e][1..] == [];
    assert Run(Step(s, keyOf, cfg, e), keyOf, cfg, []) == Step(s, keyOf, cfg, e);
  }
}
