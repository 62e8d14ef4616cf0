/** What callers of the outbox and of the delivery worker can rely on in every run. */
module OutboxRuns {
  import opened Common
  import opened Outbox
  import opened OutboxInvariants

  // ---- batches ----

  /** At most `limit` pending rows, oldest first; a pending row waits only behind older ones. */
  lemma ClaimMeaning(s: State, cfg: Config, limit: nat, left: OutboxId)
    requires Inv(s, cfg)
    ensures var out := Claimable(s, limit);
            && |out| <= limit && Distinct(out)
            && (forall id :: id in out ==> id in s.rows && s.rows[id].status == Pending)
            && (left in s.rows && s.rows[left].status == Pending && left !in out ==>
                  |out| == limit && forall id :: id in out ==> s.rows[id].createdAt <= s.rows[left].createdAt)
  {
    hide RowOk, NoteOk, ClaimOk, FirstSorted;
    FirstSortedMeaning(s.order, IsPending(s.rows), Older(s.rows), limit);
  }

  /** A batch holds only notifications that are neither sent nor dead-lettered; a due one
      waits only behind older ones. */
  lemma DueMeaning(s: State, cfg: Config, now: int, limit: nat, left: NotificationId)
    requires Inv(s, cfg)
    ensures var out := Due(s, now, limit);
            && |out| <= limit && Distinct(out)
            && (forall nid :: nid in out ==> nid in s.notifications && IsDue(s.notifications[nid], now)
                                             && s.notifications[nid].status != Sent && s.notifications[nid].status != Failed)
            && (left in s.notifications && IsDue(s.notifications[left], now) && left !in out ==>
                  |out| == limit
                  && forall nid :: nid in out ==> s.notifications[nid].createdAt <= s.notifications[left].createdAt)
  {
    hide RowOk, NoteOk, ClaimOk, FirstSorted;
    FirstSortedMeaning(s.noteOrder, DueNow(s.notifications, now), OlderNote(s.notifications), limit);
  }

  // ---- delivery is final ----

  predicate Closed(n: Notification) { n.status == Sent || n.deadLetter }

  lemma SaveFrame(s: State, c: Claim, row: NotificationId, nid: NotificationId)
    requires nid in s.notifications && nid in s.calls && row != nid
    ensures var s' := SaveFor(s, c, row);
            nid in s'.notifications && nid in s'.calls
            && s'.notifications[nid] == s.notifications[nid] && s'.calls[nid] == s.calls[nid]
  {
  }

  lemma RetryFrame(s: State, id: OutboxId)
    ensures RetryDead(s, id).Ok? ==>
      var s' := RetryDead(s, id).value; s'.notifications == s.notifications && s'.calls == s.calls
  {
  }

  lemma DispatchFrame(s: State, cfg: Config, i: nat, row: NotificationId, outcome: DispatchOutcome, nid: NotificationId)
    requires nid in s.notifications && nid in s.calls && row != nid && i < |s.inflight|
    ensures var s' := DispatchOne(s, cfg, i, row, outcome);
            nid in s'.notifications && nid in s'.calls
            && s'.notifications[nid] == s.notifications[nid] && s'.calls[nid] == s.calls[nid]
  {
    hide UpdateRow, SaveFor, AfterFailure;
    var c := s.inflight[i];
    var s1 := s.(inflight := DropAt(s.inflight, i));
    SaveFrame(s1, c, row, nid);
    var s2 := if outcome == SaveThrew then s1 else SaveFor(s1, c, row);
    UpdateFrame(s2, c.id, c.row.(status := Dispatched, startedAt := None, notification := Some(row)));
    UpdateFrame(s2, c.id, AfterFailure(c.row, cfg.maxDispatchAttempts));
  }

  lemma ClosedStep(s: State, keyOf: Item -> string, cfg: Config, e: Event, nid: NotificationId)
    requires nid in s.notifications && nid in s.calls && Closed(s.notifications[nid])
    ensures var s' := Step(s, keyOf, cfg, e);
            nid in s'.notifications && nid in s'.calls
            && s'.notifications[nid] == s.notifications[nid] && s'.calls[nid] == s.calls[nid]
  {
    hide AfterDelivery, AfterFailure, UpdateRow, SaveFor, Claimable, RetryDead;
    match e {
      case Enqueued(item, id, now) =>
      case Dispatching(i, row, outcome) =>
        if i < |s.inflight| && row !in s.notifications { DispatchFrame(s, cfg, i, row, outcome, nid); }
      case Abandoned(i, row, saved) =>
        if i < |s.inflight| && row !in s.notifications {
          SaveFrame(s.(inflight := DropAt(s.inflight, i)), s.inflight[i], row, nid);
        }
      case Retried(id) => RetryFrame(s, id);
      case Claimed(limit, now) => ClaimAllFrame(s, Claimable(s, limit), now);
      case Recovered(staleBefore) => RecoverAllFrame(s, s.order, staleBefore);
      case _ =>
    }
  }

  /** A sent or dead-lettered notification never changes, never reaches the provider again
      and never appears in a batch, whatever happens after. */
  lemma {:induction false} ClosedForGood(s: State, keyOf: Item -> string, cfg: Config, es: seq<Event>,
                                         nid: NotificationId, now: int, limit: nat)
    requires Inv(s, cfg) && ConfigOk(cfg) && nid in s.notifications && Closed(s.notifications[nid])
    ensures var s' := Run(s, keyOf, cfg, es);
            && nid in s'.notifications && s'.notifications[nid] == s.notifications[nid]
            && nid in s'.calls && nid in s.calls && s'.calls[nid] == s.calls[nid]
            && nid !in Due(s', now, limit)
    decreases |es|
  {
    if es == [] {
      DueMeaning(s, cfg, now, limit, nid);
    } else {
      hide Step, Due;
      StepKeeps(s, keyOf, cfg, es[0]);
      ClosedStep(s, keyOf, cfg, es[0], nid);
      ClosedForGood(Step(s, keyOf, cfg, es[0]), keyOf, cfg, es[1..], nid, now, limit);
    }
  }

  /** In every reachable state a notification has reached the provider at most maxAttempts
      times: once per recorded failure, plus the success if it was sent. */
  lemma CallsAreBounded(keyOf: Item -> string, cfg: Config, es: seq<Event>, nid: NotificationId)
    requires ConfigOk(cfg) && nid in Run(Empty, keyOf, cfg, es).notifications
    ensures var s := Run(Empty, keyOf, cfg, es);
            && nid in s.calls && s.calls[nid] <= cfg.maxAttempts
            && s.calls[nid] == s.notifications[nid].attemptCount + (if s.notifications[nid].status == Sent then 1 else 0)
            && (s.notifications[nid].deadLetter <==> s.notifications[nid].attemptCount == cfg.maxAttempts)
  {
    ReachableOk(keyOf, cfg, es);
    var s := Run(Empty, keyOf, cfg, es);
    hide Run;
    assert NoteOk(s.notifications[nid], s.calls[nid], cfg);
  }

  /** Retry delays double with each failure up to the cap and never shrink. */
  lemma {:induction false} DelaysGrow(failures: nat, later: nat, cfg: Config)
    requires failures <= later
    ensures BackoffMs(failures, cfg) <= BackoffMs(later, cfg) <= cfg.maxBackoff
    decreases later - failures
  {
    if failures < later {
      DelaysGrow(failures, later - 1, cfg);
      assert Pow2(later) == 2 * Pow2(later - 1);
      Doubled(cfg.initialBackoff, Pow2(later - 1));
    }
  }

  lemma Doubled(a: nat, b: nat)
    ensures a * b <= a * (2 * b)
  {
    assert a * (2 * b) == a * b + a * b;
  }

  // ---- one row per item ----

  ghost predicate Keyed(s: State, keyOf: Item -> string) {
    forall id :: id in s.rows ==> s.rows[id].key == keyOf(s.rows[id].item)
  }

  lemma {:induction false} ClaimAllKeyed(s: State, keyOf: Item -> string, ids: seq<OutboxId>, now: int)
    requires Keyed(s, keyOf)
    ensures Keyed(ClaimAll(s, ids, now), keyOf)
  {
    if ids != [] { ClaimAllKeyed(s, keyOf, ids[..|ids| - 1], now); }
  }

  lemma {:induction false} RecoverAllKeyed(s: State, keyOf: Item -> string, ids: seq<OutboxId>, staleBefore: int)
    requires Keyed(s, keyOf)
    ensures Keyed(RecoverAll(s, ids, staleBefore), keyOf)
  {
    if ids != [] { RecoverAllKeyed(s, keyOf, ids[..|ids| - 1], staleBefore); }
  }

  lemma StepKeyed(s: State, keyOf: Item -> string, cfg: Config, e: Event)
    requires Inv(s, cfg) && Keyed(s, keyOf)
    ensures Keyed(Step(s, keyOf, cfg, e), keyOf)
  {
    hide RowOk, NoteOk, KeysOk;
    match e {
      case Claimed(limit, now) => ClaimAllKeyed(s, keyOf, Claimable(s, limit), now);
      case Recovered(staleBefore) => RecoverAllKeyed(s, keyOf, s.order, staleBefore);
      case Dispatching(i, nid, outcome) =>
        if i < |s.inflight| && nid !in s.notifications { assert ClaimOk(s, cfg, s.inflight[i]); }
      case _ =>
    }
  }

  lemma {:induction false} RunKeyed(s: State, keyOf: Item -> string, cfg: Config, es: seq<Event>)
    requires Inv(s, cfg) && ConfigOk(cfg) && Keyed(s, keyOf)
    ensures Keyed(Run(s, keyOf, cfg, es), keyOf)
    decreases |es|
  {
    if es != [] {
      hide Step, Inv, Keyed;
      StepKeeps(s, keyOf, cfg, es[0]);
      StepKeyed(s, keyOf, cfg, es[0]);
      RunKeyed(Step(s, keyOf, cfg, es[0]), keyOf, cfg, es[1..]);
    }
  }

  /** However often an item is enqueued, it has one row: two rows with the same item are the
      same row, and enqueueing the item again changes nothing. */
  lemma OneRowPerItem(keyOf: Item -> string, cfg: Config, es: seq<Event>, a: OutboxId, b: OutboxId, again: OutboxId, now: int)
    requires ConfigOk(cfg)
    requires var s := Run(Empty, keyOf, cfg, es); a in s.rows && b in s.rows && s.rows[a].item == s.rows[b].item
    ensures a == b
    ensures var s := Run(Empty, keyOf, cfg, es); Enqueue(s, keyOf, s.rows[a].item, again, now) == s
  {
    ReachableOk(keyOf, cfg, es);
    RunKeyed(Empty, keyOf, cfg, es);
  }

  /** Keys and rows in bijection; attempts below the maximum unless dead, exactly the maximum
      when dead; a dispatched row names a notification with the row's own content. */
  lemma RowsAreConsistent(keyOf: Item -> string, cfg: Config, es: seq<Event>, id: OutboxId)
    requires ConfigOk(cfg) && id in Run(Empty, keyOf, cfg, es).rows
    ensures var s := Run(Empty, keyOf, cfg, es); var r := s.rows[id];
            && r.key == keyOf(r.item) && r.key in s.keys && s.keys[r.key] == id
            && (forall k :: k in s.keys ==> s.keys[k] in s.rows && s.rows[s.keys[k]].key == k)
            && (if r.status == Dead then r.attempts == cfg.maxDispatchAttempts else r.attempts < cfg.maxDispatchAttempts)
            && (r.status == Dispatched ==>
                  r.notification.Some? && r.notification.value in s.notifications
                  && s.notifications[r.notification.value].item == r.item)
  {
    ReachableOk(keyOf, cfg, es);
    RunKeyed(Empty, keyOf, cfg, es);
    var s := Run(Empty, keyOf, cfg, es);
    hide Run, NoteOk;
    assert RowOk(s.rows[id], cfg, s.notifications);
  }
}
