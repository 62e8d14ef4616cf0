/** The outbox store with its two workers as they run: every method is proved to be a run of
    the steps of module Outbox, so all that holds of runs holds of the object. */
module OutboxStore {
  import opened Common
  import opened Outbox
  import opened OutboxInvariants
  import opened OutboxRuns

  /** The events of enqueueing items one after another. */
  function Enqueuing(domainOutbox: bool, items: seq<Item>, ids: seq<string>, now: int): (r: seq<Event>)
    requires |ids| == |items|
    ensures |r| == |items|
  {
    seq(|items|, i requires 0 <= i < |items| =>
      if domainOutbox then Enqueued(items[i], ids[i], now) else Requested(items[i], ids[i], now))
  }

  /** The events of dispatching the claims that sit at position `at`, one after another. */
  function Dispatches(at: nat, nids: seq<NotificationId>, outcomes: seq<DispatchOutcome>, n: nat): (r: seq<Event>)
    requires n <= |nids| && n <= |outcomes|
    ensures |r| == n
  {
    seq(n, i requires 0 <= i < n => Dispatching(at, nids[i], outcomes[i]))
  }

  /** The events of a tick that aborts: the claim under way, and those not yet looked at. */
  function Abandons(at: nat, nids: seq<NotificationId>, saved: bool, n: nat): (r: seq<Event>)
    requires n <= |nids|
    ensures |r| == n
  {
    seq(n, i requires 0 <= i < n => Abandoned(at, nids[i], saved && i == 0))
  }

  /** What the provider does when asked to deliver: it answers, after whose recording a later
      call may still throw, or it throws itself. */
  datatype ProviderAnswer = Answered(ok: bool, laterThrows: bool) | ProviderThrew

  function Says(a: ProviderAnswer): bool { a.Answered? && a.ok }

  /** How many of the deliveries from k on up to n are recorded before an error ends the tick. */
  function RecordedUpTo(answers: seq<ProviderAnswer>, k: nat, n: nat): (r: nat)
    requires k <= n <= |answers|
    ensures k <= r <= n
    ensures forall i :: k <= i < r ==> answers[i].Answered?
    ensures r < n ==> answers[r].ProviderThrew? || (k < r && answers[r - 1].laterThrows)
    decreases n - k
  {
    if k == n || answers[k].ProviderThrew? then k
    else if answers[k].laterThrows then k + 1
    else RecordedUpTo(answers, k + 1, n)
  }

  /** The events of delivering a batch. */
  function Deliveries(batch: seq<NotificationId>, answers: seq<ProviderAnswer>, times: seq<int>, n: nat): (r: seq<Event>)
    requires n <= |batch| && n <= |answers| && n <= |times|
    ensures |r| == n
  {
    seq(n, i requires 0 <= i < n => Processed(batch[i], Says(answers[i]), times[i]))
  }

  ghost predicate AllStarted(claims: seq<Claim>, now: int) {
    forall i :: 0 <= i < |claims| ==> claims[i].row.startedAt == Some(now)
  }

  /** The rows named from position k on are still pending. */
  ghost predicate AllPending(rows: map<OutboxId, Row>, ids: seq<OutboxId>, k: nat) {
    forall i :: k <= i < |ids| ==> ids[i] in rows && rows[ids[i]].status == Pending
  }

  lemma PendingAfter(rows: map<OutboxId, Row>, ids: seq<OutboxId>, k: nat, r: Row)
    requires k < |ids| && Distinct(ids) && AllPending(rows, ids, k)
    ensures AllPending(rows[ids[k] := r], ids, k + 1)
  {
  }

  lemma FirstIsPending(rows: map<OutboxId, Row>, ids: seq<OutboxId>, k: nat)
    requires k < |ids| && AllPending(rows, ids, k)
    ensures ids[k] in rows && rows[ids[k]].status == Pending
  {
  }

  class Store {
    var rows: map<OutboxId, Row>
    var order: seq<OutboxId>
    var keys: map<string, OutboxId>
    var notifications: map<NotificationId, Notification>
    var noteOrder: seq<NotificationId>
    ghost var inflight: seq<Claim>
    ghost var calls: map<NotificationId, nat>
    ghost var made: map<OutboxId, set<NotificationId>>

    ghost function View(): State
      reads this
    {
      State(rows, order, keys, notifications, noteOrder, inflight, calls, made)
    }

    constructor ()
      ensures View() == Empty
    {
      rows, order, keys, notifications, noteOrder := map[], [], map[], map[], [];
      inflight, calls, made := [], map[], map[];
    }

    method AppendNotificationOutbox(id: OutboxId, row: Row) returns (inserted: bool)
      requires id !in rows
      modifies this
      ensures inserted == (row.key !in old(keys)) && View() == Append(old(View()), id, row)
    {
      if row.key in keys { return false; }
      rows, order := rows[id := row], order + [id];
      keys := keys[row.key := id];
      made := made[id := {}];
      return true;
    }

    /** Saving a notification under a fresh id. */
    method SaveNew(nid: NotificationId, item: Item, now: int)
      requires nid !in notifications
      modifies this
      ensures View() == AddNotification(old(View()), nid, item, now)
    {
      notifications := notifications[nid := Notification(item, Queued, 0, false, None, now)];
      noteOrder := noteOrder + [nid];
      calls := calls[nid := 0];
    }

    method EnqueueFanoutNotificationItems(ghost keyOf: Item -> string, ghost cfg: Config, digests: seq<string>,
                                          domainOutbox: bool, items: seq<Item>, ids: seq<string>, now: int)
      requires |ids| == |items| == |digests| && Distinct(ids)
      requires forall i :: 0 <= i < |ids| ==> ids[i] !in rows && ids[i] !in notifications && digests[i] == keyOf(items[i])
      modifies this
      ensures View() == Run(old(View()), keyOf, cfg, Enqueuing(domainOutbox, items, ids, now))
    {
      ghost var es := Enqueuing(domainOutbox, items, ids, now);
      for i := 0 to |items|
        invariant View() == Run(old(View()), keyOf, cfg, es[..i])
        invariant forall j :: i <= j < |ids| ==> ids[j] !in rows && ids[j] !in notifications
      {
        RunSnoc(old(View()), keyOf, cfg, es[..i], es[i]);
        assert es[..i + 1] == es[..i] + [es[i]];
        if domainOutbox {
          var inserted := AppendNotificationOutbox(ids[i], Row(digests[i], items[i], Pending, 0, now, None, None));
        } else {
          SaveNew(ids[i], items[i], now);
        }
      }
      assert es[..|items|] == es;
    }

    method ClaimRow(id: OutboxId, now: int) returns (c: Claim)
      requires id in rows && rows[id].status == Pending
      modifies this
      ensures View() == ClaimOne(old(View()), id, now)
      ensures inflight == old(inflight) + [c] && rows == old(rows)[id := c.row] && notifications == old(notifications)
      ensures c.row.startedAt == Some(now)
    {
      var u := rows[id].(status := Processing, startedAt := Some(now));
      c := Claim(id, u);
      rows := rows[id := u];
      inflight := inflight + [c];
    }

    method ClaimEach(pending: seq<OutboxId>, now: int) returns (out: seq<Claim>)
      requires Distinct(pending) && AllPending(rows, pending, 0)
      modifies this
      ensures View() == ClaimAll(old(View()), pending, now)
      ensures inflight == old(inflight) + out && |out| == |pending| && AllStarted(out, now)
    {
      hide ClaimOne, AllPending, Distinct;
      ghost var s := View();
      out := [];
      for k := 0 to |pending|
        invariant View() == ClaimAll(s, pending[..k], now)
        invariant inflight == s.inflight + out && |out| == k
        invariant AllStarted(out, now) && AllPending(rows, pending, k)
      {
        ClaimSnoc(s, pending, k, now);
        ghost var was := rows;
        FirstIsPending(was, pending, k);
        var c := ClaimRow(pending[k], now);
        PendingAfter(was, pending, k, c.row);
        out := out + [c];
      }
      assert pending[..|pending|] == pending;
    }

    method ClaimNotificationOutboxPending(limit: nat, now: int) returns (out: seq<Claim>)
      requires KeysOk(View())
      modifies this
      ensures View() == ClaimPending(old(View()), limit, now)
      ensures inflight == old(inflight) + out && |out| <= limit && AllStarted(out, now)
    {
      var pending := FirstSorted(order, IsPending(rows), Older(rows), limit);
      PendingBatch(View(), limit);
      out := ClaimEach(pending, now);
    }

    method UpdateNotificationOutbox(id: OutboxId, row: Row)
      modifies this`rows, this`keys, this`order
      ensures View() == UpdateRow(old(View()), id, row).(order := if id in old(rows) then old(order) else old(order) + [id])
    {
      if id in rows && rows[id].key != row.key {
        keys := keys - {rows[id].key};
        keys := keys[row.key := id];
      }
      if id !in rows { order := order + [id]; }
      rows := rows[id := row];
    }

    method RecoverStaleNotificationOutboxProcessing(staleBefore: int)
      requires KeysOk(View())
      modifies this
      ensures View() == RecoverStale(old(View()), staleBefore)
    {
      ghost var s := View();
      var ids := order;
      for k := 0 to |ids|
        invariant View() == RecoverAll(s, ids[..k], staleBefore)
        invariant forall id :: id in ids ==> id in rows
      {
        var id := ids[k];
        var r := rows[id];
        assert ids[..k + 1][..k] == ids[..k];
        if r.status == Processing && r.startedAt.Some? && r.startedAt.value < staleBefore {
          rows := rows[id := r.(status := Pending, startedAt := None)];
          made := made[id := {}];
        }
      }
      assert ids[..|ids|] == ids;
    }

    /** The worker's copy is all it writes back from; `i` says which open claim it is. */
    method DispatchOneOutboxRow(c: Claim, ghost i: nat, nid: NotificationId, cfg: Config, outcome: DispatchOutcome, t: int)
      requires i < |inflight| && inflight[i] == c && c.id in rows && c.row.startedAt == Some(t)
      requires nid !in notifications
      modifies this
      ensures View() == DispatchOne(old(View()), cfg, i, nid, outcome)
    {
      inflight := DropAt(inflight, i);
      if outcome != SaveThrew {
        SaveNew(nid, c.row.item, t);
        made := made[c.id := (if c.id in made then made[c.id] else {}) + {nid}];
      }
      if outcome == AllSaved {
        UpdateNotificationOutbox(c.id, c.row.(status := Dispatched, startedAt := None, notification := Some(nid)));
      } else {
        var nextAttempts := c.row.attempts + 1;
        if nextAttempts >= cfg.maxDispatchAttempts {
          UpdateNotificationOutbox(c.id, c.row.(status := Dead, attempts := nextAttempts, startedAt := None));
        } else {
          UpdateNotificationOutbox(c.id, c.row.(status := Pending, attempts := nextAttempts, startedAt := None));
        }
      }
    }

    method RetryOutboxRow(id: OutboxId) returns (r: Result<()>)
      modifies this
      ensures Performs(r, RetryDead(old(View()), id), old(View()), View())
    {
      if id !in rows { return Err("Outbox row not found"); }
      if rows[id].status != Dead { return Err("Only dead outbox rows can be retried"); }
      UpdateNotificationOutbox(id, rows[id].(status := Pending, attempts := 0, startedAt := None, notification := None));
      made := made[id := {}];
      return Ok(());
    }

    /** Dispatching the first `n` claims of a tick, each on its own. */
    method DispatchClaimed(ghost keyOf: Item -> string, cfg: Config, claimed: seq<Claim>, n: nat, ghost prior: seq<Claim>,
                           now: int, nids: seq<NotificationId>, outcomes: seq<DispatchOutcome>)
      requires Inv(View(), cfg) && ConfigOk(cfg) && inflight == prior + claimed
      requires AllStarted(claimed, now)
      requires n <= |claimed| <= |nids| == |outcomes| && Distinct(nids)
      requires forall j :: 0 <= j < |nids| ==> nids[j] !in notifications
      modifies this
      ensures View() == Run(old(View()), keyOf, cfg, Dispatches(|prior|, nids, outcomes, n))
      ensures inflight == prior + claimed[n..] && Inv(View(), cfg)
      ensures forall j :: n <= j < |nids| ==> nids[j] !in notifications
    {
      ghost var s0 := View();
      ghost var at := |prior|;
      hide Run, Inv, DispatchOne, DropAt, ConfigOk, Step;
      ghost var es := Dispatches(at, nids, outcomes, n);
      assert Run(s0, keyOf, cfg, es[..0]) == s0 by { NoSteps(s0, keyOf, cfg); assert es[..0] == []; }
      for k := 0 to n
        invariant View() == Run(s0, keyOf, cfg, es[..k]) && Inv(View(), cfg)
        invariant inflight == prior + claimed[k..]
        invariant forall j :: k <= j < |nids| ==> nids[j] !in notifications
      {
        ghost var s := View();
        assert inflight[at] == claimed[k];
        OpenClaim(s, cfg, at);
        DispatchOneOutboxRow(claimed[k], at, nids[k], cfg, outcomes[k], now);
        DispatchKeeps(s, cfg, at, nids[k], outcomes[k]);
        DispatchNotes(s, cfg, at, nids[k], outcomes[k]);
        RunSnoc(s0, keyOf, cfg, es[..k], es[k]);
        DispatchStep(s, keyOf, cfg, at, nids[k], outcomes[k]);
        assert es[..k + 1] == es[..k] + [es[k]];
        DropFirst(prior, claimed[k..]);
        assert claimed[k..][1..] == claimed[k + 1..];
      }
      assert es[..n] == es;
    }

    /** The tick aborts at the first of these claims, before or after its notification was
        saved; nobody works on them any more. */
    method AbandonClaims(ghost keyOf: Item -> string, ghost cfg: Config, claims: seq<Claim>, ghost prior: seq<Claim>,
                         now: int, nids: seq<NotificationId>, saved: bool)
      requires inflight == prior + claims && AllStarted(claims, now) && |claims| <= |nids|
      requires forall j :: 0 <= j < |nids| ==> nids[j] !in notifications
      requires Distinct(nids)
      modifies this
      ensures View() == Run(old(View()), keyOf, cfg, Abandons(|prior|, nids, saved, |claims|)) && inflight == prior
    {
      hide Run, Step, DropAt, Abandon;
      ghost var s0 := View();
      ghost var at := |prior|;
      ghost var es := Abandons(at, nids, saved, |claims|);
      NoSteps(s0, keyOf, cfg);
      assert es[..0] == [] && claims[0..] == claims;
      for k := 0 to |claims|
        invariant View() == Run(s0, keyOf, cfg, es[..k])
        invariant inflight == prior + claims[k..]
        invariant forall j :: k <= j < |nids| ==> nids[j] !in notifications
      {
        AbandonOne(claims[k], at, nids[k], saved && k == 0, now);
        RunSnoc(s0, keyOf, cfg, es[..k], es[k]);
        AbandonStep(Run(s0, keyOf, cfg, es[..k]), keyOf, cfg, at, nids[k], saved && k == 0);
        assert es[..k + 1] == es[..k] + [es[k]];
        DropFirst(prior, claims[k..]);
        assert claims[k..][1..] == claims[k + 1..];
      }
      assert es[..|claims|] == es && claims[|claims|..] == [];
    }

    method AbandonOne(c: Claim, ghost i: nat, nid: NotificationId, saved: bool, now: int)
      requires i < |inflight| && inflight[i] == c && c.row.startedAt == Some(now) && nid !in notifications
      modifies this
      ensures View() == Abandon(old(View()), i, nid, saved)
      ensures inflight == DropAt(old(inflight), i) && notifications.Keys <= old(notifications).Keys + {nid}
    {
      inflight := DropAt(inflight, i);
      if saved {
        SaveNew(nid, c.row.item, now);
        made := made[c.id := (if c.id in made then made[c.id] else {}) + {nid}];
      }
    }

    /** One tick: recover, claim, then dispatch each claim in turn. `ends` dispatches come to
        their end before an error aborts the tick, if one does; `saved` says whether the
        dispatch then under way had saved its notification. */
    method RunOutboxFanoutTick(ghost keyOf: Item -> string, cfg: Config, staleBefore: int, batchSize: nat, now: int,
                               nids: seq<NotificationId>, outcomes: seq<DispatchOutcome>, ends: nat, saved: bool)
      returns (ghost n: nat, ghost m: nat)
      requires Inv(View(), cfg) && ConfigOk(cfg)
      requires |nids| == |outcomes| == batchSize && Distinct(nids)
      requires forall j :: 0 <= j < |nids| ==> nids[j] !in notifications
      modifies this
      ensures m <= n <= batchSize && (m == n || m == ends) && Inv(View(), cfg)
      ensures View() == Run(old(View()), keyOf, cfg,
                            [Recovered(staleBefore), Claimed(batchSize, now)]
                            + (Dispatches(|old(inflight)|, nids, outcomes, m) + Abandons(|old(inflight)|, nids[m..], saved, n - m)))
      ensures inflight == old(inflight)
    {
      hide Run, Inv, KeysOk, Step, ClaimPending, RecoverStale, Dispatches, Abandons;
      ghost var s0 := View();
      ghost var at := |inflight|;
      ghost var head := [Recovered(staleBefore), Claimed(batchSize, now)];
      KeysOf(s0, cfg);
      RecoverStaleNotificationOutboxProcessing(staleBefore);
      AfterRecovery(s0, cfg, staleBefore);
      var claimed := ClaimNotificationOutboxPending(batchSize, now);
      n := |claimed|;
      AfterClaim(s0, keyOf, cfg, staleBefore, batchSize, now);
      ghost var s1 := View();
      var done := Min(ends, |claimed|);
      m := done;
      DispatchClaimed(keyOf, cfg, claimed, done, s0.inflight, now, nids, outcomes);
      ghost var s2 := View();
      AbandonClaims(keyOf, cfg, claimed[done..], s0.inflight, now, nids[done..], saved);
      RunConcat(s1, keyOf, cfg, Dispatches(at, nids, outcomes, m), Abandons(at, nids[m..], saved, n - m));
      RunConcat(s0, keyOf, cfg, head, Dispatches(at, nids, outcomes, m) + Abandons(at, nids[m..], saved, n - m));
      RunKeeps(s2, keyOf, cfg, Abandons(at, nids[m..], saved, n - m));
    }

    /** processOne on the copy that was listed as due. A provider that throws leaves nothing
        behind; `calls` counts the calls it answered. */
    method ProcessOneNotification(nid: NotificationId, cfg: Config, answer: ProviderAnswer, now: int) returns (r: Result<()>)
      requires nid in notifications && IsDue(notifications[nid], now)
      modifies this
      ensures r.Err? <==> answer.ProviderThrew? || answer.laterThrows
      ensures View() == if answer.ProviderThrew? then old(View()) else ProcessOne(old(View()), cfg, nid, answer.ok, now)
    {
      var n := notifications[nid];
      if answer.ProviderThrew? { return Err("provider threw"); }
      calls := calls[nid := (if nid in calls then calls[nid] else 0) + 1];
      if answer.ok {
        notifications := notifications[nid := n.(status := Sent, nextAttemptAt := None)];
      } else {
        var failed := n.attemptCount + 1;
        if failed >= cfg.maxAttempts {
          notifications := notifications[nid := n.(status := Failed, deadLetter := true, attemptCount := failed, nextAttemptAt := None)];
        } else {
          notifications := notifications[nid := n.(status := RetryScheduled, attemptCount := failed,
                                                   nextAttemptAt := Some(now + BackoffMs(failed, cfg)))];
        }
      }
      return if answer.laterThrows then Err("later call threw") else Ok(());
    }

    /** Delivering the notifications of a tick, each on its own, until one throws. */
    method DeliverEach(ghost keyOf: Item -> string, cfg: Config, batch: seq<NotificationId>, now: int,
                       answers: seq<ProviderAnswer>, times: seq<int>)
      requires Distinct(batch) && AllDue(notifications, batch, 0, now) && |batch| <= |answers| && |batch| <= |times|
      requires forall j :: 0 <= j < |times| ==> now <= times[j]
      modifies this
      ensures View() == Run(old(View()), keyOf, cfg, Deliveries(batch, answers, times, RecordedUpTo(answers, 0, |batch|)))
    {
      ghost var s0 := View();
      NoSteps(s0, keyOf, cfg);
      hide Run, Step, ProcessOne, Distinct, AllDue, IsDue;
      ghost var n := RecordedUpTo(answers, 0, |batch|);
      ghost var es := Deliveries(batch, answers, times, n);
      assert es[..0] == [];
      var k := 0;
      while k < |batch|
        invariant 0 <= k <= n && RecordedUpTo(answers, k, |batch|) == n
        invariant View() == Run(s0, keyOf, cfg, es[..k])
        invariant AllDue(notifications, batch, k, now)
      {
        ghost var s := View();
        FirstIsDue(s.notifications, batch, k, now, times[k]);
        var r := ProcessOneNotification(batch[k], cfg, answers[k], times[k]);
        if answers[k].Answered? {
          ProcessFrame(s, keyOf, cfg, batch[k], Says(answers[k]), times[k]);
          RunSnoc(s0, keyOf, cfg, es[..k], es[k]);
          assert es[..k + 1] == es[..k] + [es[k]];
        }
        if r.Err? {
          assert es[..n] == es;
          return;
        }
        DueAfter(s.notifications, notifications, batch, k, now);
        k := k + 1;
      }
      assert es[..n] == es;
    }

    /** One delivery tick: list what is due, then deliver each until one throws; clocks do
        not run backwards. */
    method ProcessBatch(ghost keyOf: Item -> string, cfg: Config, batchSize: nat, now: int,
                        answers: seq<ProviderAnswer>, times: seq<int>)
      returns (batch: seq<NotificationId>)
      requires Inv(View(), cfg)
      requires |answers| == |times| == batchSize && forall j :: 0 <= j < |times| ==> now <= times[j]
      modifies this
      ensures batch == Due(old(View()), now, batchSize) && |batch| <= batchSize
      ensures View() == Run(old(View()), keyOf, cfg, Deliveries(batch, answers, times, RecordedUpTo(answers, 0, |batch|)))
    {
      hide Run, Inv;
      batch := FirstSorted(noteOrder, DueNow(notifications, now), OlderNote(notifications), batchSize);
      DueBatch(View(), cfg, now, batchSize);
      DeliverEach(keyOf, cfg, batch, now, answers, times);
    }
  }

  /** The notifications named from position k on are still due. */
  ghost predicate AllDue(notifications: map<NotificationId, Notification>, batch: seq<NotificationId>, k: nat, now: int) {
    forall i :: k <= i < |batch| ==> batch[i] in notifications && IsDue(notifications[batch[i]], now)
  }

  lemma FirstIsDue(notifications: map<NotificationId, Notification>, batch: seq<NotificationId>, k: nat, now: int, later: int)
    requires k < |batch| && AllDue(notifications, batch, k, now) && now <= later
    ensures batch[k] in notifications && IsDue(notifications[batch[k]], later)
  {
  }

  lemma DueAfter(was: map<NotificationId, Notification>, notifications: map<NotificationId, Notification>,
                 batch: seq<NotificationId>, k: nat, now: int)
    requires k < |batch| && Distinct(batch) && AllDue(was, batch, k, now)
    requires forall x :: x in was && x != batch[k] ==> x in notifications && notifications[x] == was[x]
    ensures AllDue(notifications, batch, k + 1, now)
  {
    hide IsDue;
  }

  lemma ClaimSnoc(s: State, ids: seq<OutboxId>, k: nat, now: int)
    requires k < |ids|
    ensures ClaimAll(s, ids[..k + 1], now) == ClaimOne(ClaimAll(s, ids[..k], now), ids[k], now)
  {
    hide ClaimOne;
    assert ids[..k + 1][..k] == ids[..k];
  }

  lemma PendingBatch(s: State, limit: nat)
    requires KeysOk(s)
    ensures var p := Claimable(s, limit);
            && |p| <= limit && Distinct(p)
            && AllPending(s.rows, p, 0)
  {
    FirstSortedMeaning(s.order, IsPending(s.rows), Older(s.rows), limit);
    var p := Claimable(s, limit);
    forall i | 0 <= i < |p| ensures p[i] in s.rows && s.rows[p[i]].status == Pending {
      assert p[i] in p;
    }
  }

  lemma DueBatch(s: State, cfg: Config, now: int, limit: nat)
    requires Inv(s, cfg)
    ensures var out := Due(s, now, limit);
            && |out| <= limit && Distinct(out)
            && AllDue(s.notifications, out, 0, now)
  {
    DueMeaning(s, cfg, now, limit, "");
    var out := Due(s, now, limit);
    hide Inv, Due, IsDue;
    forall i | 0 <= i < |out| ensures out[i] in s.notifications && IsDue(s.notifications[out[i]], now) {
      assert out[i] in out;
    }
  }

  lemma ProcessFrame(s: State, keyOf: Item -> string, cfg: Config, nid: NotificationId, ok: bool, now: int)
    ensures var s' := ProcessOne(s, cfg, nid, ok, now);
            && Step(s, keyOf, cfg, Processed(nid, ok, now)) == s'
            && forall x :: x in s.notifications && x != nid ==> x in s'.notifications && s'.notifications[x] == s.notifications[x]
  {
    hide AfterDelivery;
  }

  lemma DropFirst(prior: seq<Claim>, claims: seq<Claim>)
    requires claims != []
    ensures DropAt(prior + claims, |prior|) == prior + claims[1..]
  {
  }

  lemma OpenClaim(s: State, cfg: Config, i: nat)
    requires Inv(s, cfg) && i < |s.inflight|
    ensures ClaimOk(s, cfg, s.inflight[i])
  {
  }

  lemma DispatchNotes(s: State, cfg: Config, i: nat, nid: NotificationId, outcome: DispatchOutcome)
    requires i < |s.inflight|
    ensures var s' := DispatchOne(s, cfg, i, nid, outcome);
            s'.notifications.Keys <= s.notifications.Keys + {nid} && s'.inflight == DropAt(s.inflight, i)
  {
    hide DropAt, AfterFailure;
  }

  lemma DispatchStep(s: State, keyOf: Item -> string, cfg: Config, i: nat, nid: NotificationId, outcome: DispatchOutcome)
    requires i < |s.inflight| && nid !in s.notifications
    ensures Step(s, keyOf, cfg, Dispatching(i, nid, outcome)) == DispatchOne(s, cfg, i, nid, outcome)
  {
  }

  lemma AbandonStep(s: State, keyOf: Item -> string, cfg: Config, i: nat, nid: NotificationId, saved: bool)
    requires i < |s.inflight| && nid !in s.notifications
    ensures Step(s, keyOf, cfg, Abandoned(i, nid, saved)) == Abandon(s, i, nid, saved)
  {
  }

  lemma {:induction false} RecoverAllInflight(s: State, ids: seq<OutboxId>, staleBefore: int)
    ensures RecoverAll(s, ids, staleBefore).inflight == s.inflight
  {
    if ids != [] { RecoverAllInflight(s, ids[..|ids| - 1], staleBefore); }
  }

  lemma KeysOf(s: State, cfg: Config)
    requires Inv(s, cfg)
    ensures KeysOk(s)
  {
  }

  lemma AfterRecovery(s: State, cfg: Config, staleBefore: int)
    requires Inv(s, cfg)
    ensures var s' := RecoverStale(s, staleBefore);
            Inv(s', cfg) && KeysOk(s') && s'.inflight == s.inflight && s'.notifications == s.notifications
  {
    hide Inv, KeysOk;
    RecoverAllFrame(s, s.order, staleBefore);
    RecoverAllInflight(s, s.order, staleBefore);
    RecoverAllKeeps(s, cfg, s.order, staleBefore);
    KeysOf(RecoverStale(s, staleBefore), cfg);
  }

  lemma AfterClaim(s: State, keyOf: Item -> string, cfg: Config, staleBefore: int, limit: nat, now: int)
    requires Inv(s, cfg)
    ensures var s' := ClaimPending(RecoverStale(s, staleBefore), limit, now);
            && Inv(s', cfg) && s'.notifications == s.notifications
            && Run(s, keyOf, cfg, [Recovered(staleBefore), Claimed(limit, now)]) == s'
  {
    hide Inv, KeysOk, RecoverStale;
    var s1 := RecoverStale(s, staleBefore);
    AfterRecovery(s, cfg, staleBefore);
    ClaimAllKeeps(s1, cfg, Claimable(s1, limit), now);
    ClaimAllFrame(s1, Claimable(s1, limit), now);
    TwoSteps(s, keyOf, cfg, Recovered(staleBefore), Claimed(limit, now));
  }
}
