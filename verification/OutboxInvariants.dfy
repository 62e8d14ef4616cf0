/** What every run of the outbox keeps, stale claims included. */
module OutboxInvariants {
  import opened Common
  import opened Outbox

  /** Idempotency keys and rows are in bijection. */
  ghost predicate KeysOk(s: State) {
    && (forall k :: k in s.keys ==> s.keys[k] in s.rows && s.rows[s.keys[k]].key == k)
    && (forall id :: id in s.rows ==> s.rows[id].key in s.keys && s.keys[s.rows[id].key] == id)
    && Distinct(s.order)
    && (forall id :: id in s.order <==> id in s.rows)
  }

  /** Attempts by status; a dispatched row names an existing notification saying the same. */
  ghost predicate RowOk(r: Row, cfg: Config, notifications: map<NotificationId, Notification>) {
    && (r.status == Dead ==> r.attempts == cfg.maxDispatchAttempts)
    && (r.status != Dead ==> r.attempts < cfg.maxDispatchAttempts)
    && (r.status == Dispatched ==>
          r.notification.Some? && r.notification.value in notifications && notifications[r.notification.value].item == r.item)
  }

  ghost predicate RowsOk(s: State, cfg: Config) {
    forall id :: id in s.rows ==> RowOk(s.rows[id], cfg, s.notifications)
  }

  /** A worker's copy, however old, is of an existing row and has attempts left. */
  ghost predicate ClaimOk(s: State, cfg: Config, c: Claim) {
    && c.id in s.rows && s.rows[c.id].key == c.row.key && s.rows[c.id].item == c.row.item
    && c.row.attempts < cfg.maxDispatchAttempts
  }

  ghost predicate ClaimsOk(s: State, cfg: Config) {
    forall i :: 0 <= i < |s.inflight| ==> ClaimOk(s, cfg, s.inflight[i])
  }

  /** Each provider call is accounted for by a failed attempt or the final success. */
  ghost predicate NoteOk(n: Notification, calls: nat, cfg: Config) {
    && calls == n.attemptCount + (if n.status == Sent then 1 else 0)
    && (n.status == Failed <==> n.deadLetter)
    && n.attemptCount <= cfg.maxAttempts
    && (n.status == Failed <==> n.attemptCount == cfg.maxAttempts)
  }

  ghost predicate NotesOk(s: State, cfg: Config) {
    forall nid :: nid in s.notifications ==> nid in s.calls && NoteOk(s.notifications[nid], s.calls[nid], cfg)
  }

  ghost predicate MadeOk(s: State) {
    forall id :: id in s.made ==> s.made[id] <= s.notifications.Keys
  }

  ghost predicate ListOk(s: State) {
    Distinct(s.noteOrder) && forall nid :: nid in s.noteOrder <==> nid in s.notifications
  }

  ghost predicate Inv(s: State, cfg: Config) {
    KeysOk(s) && RowsOk(s, cfg) && ClaimsOk(s, cfg) && NotesOk(s, cfg) && MadeOk(s) && ListOk(s)
  }

  ghost predicate ConfigOk(cfg: Config) { cfg.maxDispatchAttempts >= 1 && cfg.maxAttempts >= 1 }

  /** Replacing a row by one with the same key and item. */
  lemma ReplaceRow(s: State, cfg: Config, id: OutboxId, r: Row)
    requires Inv(s, cfg) && id in s.rows && r.key == s.rows[id].key && r.item == s.rows[id].item
    requires RowOk(r, cfg, s.notifications)
    ensures Inv(s.(rows := s.rows[id := r]), cfg)
    ensures UpdateRow(s, id, r) == s.(rows := s.rows[id := r])
  {
    hide NoteOk;
    var s' := s.(rows := s.rows[id := r]);
    assert KeysOk(s') by { KeysReplaced(s, id, r); }
    assert RowsOk(s', cfg);
    assert ClaimsOk(s', cfg) by { ClaimsReplaced(s, cfg, id, r); }
  }

  lemma ClaimsReplaced(s: State, cfg: Config, id: OutboxId, r: Row)
    requires ClaimsOk(s, cfg) && id in s.rows && r.key == s.rows[id].key && r.item == s.rows[id].item
    ensures ClaimsOk(s.(rows := s.rows[id := r]), cfg)
  {
    forall i | 0 <= i < |s.inflight| ensures ClaimOk(s.(rows := s.rows[id := r]), cfg, s.inflight[i]) {
      assert ClaimOk(s, cfg, s.inflight[i]);
    }
  }

  lemma KeysReplaced(s: State, id: OutboxId, r: Row)
    requires KeysOk(s) && id in s.rows && r.key == s.rows[id].key
    ensures KeysOk(s.(rows := s.rows[id := r]))
  {
  }

  /** A fresh notification disturbs nothing. */
  lemma AddNoteKeeps(s: State, cfg: Config, nid: NotificationId, item: Item, now: int)
    requires Inv(s, cfg) && nid !in s.notifications && ConfigOk(cfg)
    ensures Inv(AddNotification(s, nid, item, now), cfg)
  {
    var s' := AddNotification(s, nid, item, now);
    assert ClaimsOk(s', cfg) by {
      forall i | 0 <= i < |s'.inflight| ensures ClaimOk(s', cfg, s'.inflight[i]) { assert ClaimOk(s, cfg, s.inflight[i]); }
    }
    assert RowsOk(s', cfg) by {
      forall id | id in s'.rows ensures RowOk(s'.rows[id], cfg, s'.notifications) {
        assert RowOk(s.rows[id], cfg, s.notifications);
      }
    }
    assert MadeOk(s') by {
      assert s'.notifications.Keys == s.notifications.Keys + {nid};
    }
  }

  lemma NoteMadeKeeps(s: State, cfg: Config, id: OutboxId, nid: NotificationId)
    requires Inv(s, cfg) && nid in s.notifications
    ensures Inv(NoteMade(s, id, nid), cfg)
  {
    hide NoteOk, RowOk;
    var s' := NoteMade(s, id, nid);
    assert ClaimsOk(s', cfg) by {
      forall i | 0 <= i < |s'.inflight| ensures ClaimOk(s', cfg, s'.inflight[i]) { assert ClaimOk(s, cfg, s.inflight[i]); }
    }
  }

  lemma ClaimsShrink(s: State, cfg: Config, claims: seq<Claim>)
    requires Inv(s, cfg) && forall c :: c in claims ==> c in s.inflight
    ensures Inv(s.(inflight := claims), cfg)
  {
    hide NoteOk, RowOk;
    var s' := s.(inflight := claims);
    forall i | 0 <= i < |claims| ensures ClaimOk(s', cfg, claims[i]) {
      assert claims[i] in s.inflight;
      var j :| 0 <= j < |s.inflight| && s.inflight[j] == claims[i];
      assert ClaimOk(s, cfg, s.inflight[j]);
    }
  }

  lemma EnqueueKeeps(s: State, keyOf: Item -> string, cfg: Config, item: Item, id: OutboxId, now: int)
    requires Inv(s, cfg) && id !in s.rows && ConfigOk(cfg)
    ensures Inv(Enqueue(s, keyOf, item, id, now), cfg)
  {
    var s' := Enqueue(s, keyOf, item, id, now);
    assert ClaimsOk(s', cfg) by {
      forall i | 0 <= i < |s'.inflight| ensures ClaimOk(s', cfg, s'.inflight[i]) { assert ClaimOk(s, cfg, s.inflight[i]); }
    }
    assert KeysOk(s') by { AppendKeys(s, id, Row(keyOf(item), item, Pending, 0, now, None, None)); }
  }

  lemma AppendKeys(s: State, id: OutboxId, row: Row)
    requires KeysOk(s) && id !in s.rows
    ensures KeysOk(Append(s, id, row))
  {
  }

  lemma ClaimOneKeeps(s: State, cfg: Config, id: OutboxId, now: int)
    requires Inv(s, cfg)
    ensures Inv(ClaimOne(s, id, now), cfg)
  {
    hide Inv, KeysOk, NoteOk;
    if id in s.rows && s.rows[id].status == Pending {
      var u := Started(s.rows[id], now);
      RowFacts(s, cfg, id);
      ReplaceRow(s, cfg, id, u);
      ClaimAdded(s.(rows := s.rows[id := u]), cfg, Claim(id, u));
    }
  }

  lemma RowFacts(s: State, cfg: Config, id: OutboxId)
    requires Inv(s, cfg) && id in s.rows
    ensures RowOk(s.rows[id], cfg, s.notifications)
  {
  }

  lemma ClaimAdded(s: State, cfg: Config, c: Claim)
    requires Inv(s, cfg) && ClaimOk(s, cfg, c)
    ensures Inv(s.(inflight := s.inflight + [c]), cfg)
  {
    hide KeysOk, NoteOk, RowOk;
    var s' := s.(inflight := s.inflight + [c]);
    forall i | 0 <= i < |s'.inflight| ensures ClaimOk(s', cfg, s'.inflight[i]) {
      assert i < |s.inflight| ==> ClaimOk(s, cfg, s.inflight[i]);
    }
    assert KeysOk(s') by { KeysFrame(s, s'); }
  }

  lemma KeysFrame(s: State, s': State)
    requires KeysOk(s) && s'.rows == s.rows && s'.keys == s.keys && s'.order == s.order
    ensures KeysOk(s')
  {
  }

  lemma RecoverOneKeeps(s: State, cfg: Config, id: OutboxId, staleBefore: int)
    requires Inv(s, cfg)
    ensures Inv(RecoverOne(s, id, staleBefore), cfg)
  {
    if id in s.rows && IsStale(s.rows[id], staleBefore) {
      ResetKeeps(s, cfg, id, s.rows[id].(status := Pending, startedAt := None));
    }
  }

  /** Back to pending, with a fresh count. */
  lemma ResetKeeps(s: State, cfg: Config, id: OutboxId, r: Row)
    requires Inv(s, cfg) && id in s.rows && r.key == s.rows[id].key && r.item == s.rows[id].item
    requires RowOk(r, cfg, s.notifications)
    ensures Inv(s.(rows := s.rows[id := r], made := s.made[id := {}]), cfg)
  {
    hide KeysOk, NoteOk, RowOk;
    ReplaceRow(s, cfg, id, r);
    var s1 := s.(rows := s.rows[id := r]);
    var s' := s1.(made := s.made[id := {}]);
    assert KeysOk(s') by { KeysFrame(s1, s'); }
    forall i | 0 <= i < |s'.inflight| ensures ClaimOk(s', cfg, s'.inflight[i]) { assert ClaimOk(s1, cfg, s1.inflight[i]); }
  }

  lemma RetryKeeps(s: State, cfg: Config, id: OutboxId)
    requires Inv(s, cfg) && ConfigOk(cfg) && RetryDead(s, id).Ok?
    ensures Inv(RetryDead(s, id).value, cfg)
  {
    var r := s.rows[id].(status := Pending, attempts := 0, startedAt := None, notification := None);
    ReplaceRow(s, cfg, id, r);
    ResetKeeps(s, cfg, id, r);
  }

  /** The part a dispatch and an abandoned claim have in common. */
  lemma SavedKeeps(s: State, cfg: Config, i: nat, nid: NotificationId)
    requires Inv(s, cfg) && ConfigOk(cfg) && i < |s.inflight| && nid !in s.notifications
    ensures var s1 := s.(inflight := DropAt(s.inflight, i));
            var c := s.inflight[i];
            var s2 := SaveFor(s1, c, nid);
            Inv(s1, cfg) && ClaimOk(s1, cfg, c) && Inv(s2, cfg) && ClaimOk(s2, cfg, c)
  {
    hide KeysOk, NoteOk, RowOk;
    var c := s.inflight[i];
    var s1 := s.(inflight := DropAt(s.inflight, i));
    assert ClaimOk(s, cfg, c);
    ClaimsShrink(s, cfg, DropAt(s.inflight, i));
    var at := c.row.startedAt.GetOr(0);
    AddNoteKeeps(s1, cfg, nid, c.row.item, at);
    NoteMadeKeeps(AddNotification(s1, nid, c.row.item, at), cfg, c.id, nid);
  }

  lemma DispatchKeeps(s: State, cfg: Config, i: nat, nid: NotificationId, outcome: DispatchOutcome)
    requires Inv(s, cfg) && ConfigOk(cfg) && i < |s.inflight| && nid !in s.notifications
    ensures Inv(DispatchOne(s, cfg, i, nid, outcome), cfg)
  {
    hide Inv, SaveFor;
    var c := s.inflight[i];
    SavedKeeps(s, cfg, i, nid);
    var s1 := s.(inflight := DropAt(s.inflight, i));
    var s2 := if outcome == SaveThrew then s1 else SaveFor(s1, c, nid);
    var r := if outcome == AllSaved
      then c.row.(status := Dispatched, startedAt := None, notification := Some(nid))
      else AfterFailure(c.row, cfg.maxDispatchAttempts);
    assert outcome != SaveThrew ==> nid in s2.notifications && s2.notifications[nid].item == c.row.item by {
      NoteIsThere(s1, c, nid);
    }
    ReplaceRow(s2, cfg, c.id, r);
  }

  lemma NoteIsThere(s: State, c: Claim, nid: NotificationId)
    ensures var s2 := SaveFor(s, c, nid);
            nid in s2.notifications && s2.notifications[nid].item == c.row.item
  {
  }

  lemma ProcessKeeps(s: State, cfg: Config, nid: NotificationId, ok: bool, now: int)
    requires Inv(s, cfg)
    ensures Inv(ProcessOne(s, cfg, nid, ok, now), cfg)
  {
    hide BackoffMs, KeysOk;
    var s' := ProcessOne(s, cfg, nid, ok, now);
    if s' != s {
      assert s'.notifications.Keys == s.notifications.Keys;
      assert s'.notifications[nid].item == s.notifications[nid].item;
      assert RowsOk(s', cfg) by {
        forall id | id in s'.rows ensures RowOk(s'.rows[id], cfg, s'.notifications) {
          assert RowOk(s.rows[id], cfg, s.notifications);
        }
      }
      assert KeysOk(s') by { KeysFrame(s, s'); }
      assert ClaimsOk(s', cfg) by {
        forall i | 0 <= i < |s'.inflight| ensures ClaimOk(s', cfg, s'.inflight[i]) { assert ClaimOk(s, cfg, s.inflight[i]); }
      }
      assert NoteOk(s.notifications[nid], s.calls[nid], cfg);
    }
  }

  lemma {:induction false} ClaimAllKeeps(s: State, cfg: Config, ids: seq<OutboxId>, now: int)
    requires Inv(s, cfg)
    ensures Inv(ClaimAll(s, ids, now), cfg)
  {
    if ids != [] {
      ClaimAllKeeps(s, cfg, ids[..|ids| - 1], now);
      ClaimOneKeeps(ClaimAll(s, ids[..|ids| - 1], now), cfg, ids[|ids| - 1], now);
    }
  }

  lemma {:induction false} RecoverAllKeeps(s: State, cfg: Config, ids: seq<OutboxId>, staleBefore: int)
    requires Inv(s, cfg)
    ensures Inv(RecoverAll(s, ids, staleBefore), cfg)
  {
    if ids != [] {
      RecoverAllKeeps(s, cfg, ids[..|ids| - 1], staleBefore);
      RecoverOneKeeps(RecoverAll(s, ids[..|ids| - 1], staleBefore), cfg, ids[|ids| - 1], staleBefore);
    }
  }

  lemma {:induction false} ClaimAllFrame(s: State, ids: seq<OutboxId>, now: int)
    ensures var s' := ClaimAll(s, ids, now); s'.notifications == s.notifications && s'.calls == s.calls
  {
    if ids != [] { ClaimAllFrame(s, ids[..|ids| - 1], now); }
  }

  lemma {:induction false} RecoverAllFrame(s: State, ids: seq<OutboxId>, staleBefore: int)
    ensures var s' := RecoverAll(s, ids, staleBefore); s'.notifications == s.notifications && s'.calls == s.calls
  {
    if ids != [] { RecoverAllFrame(s, ids[..|ids| - 1], staleBefore); }
  }

  lemma StepKeeps(s: State, keyOf: Item -> string, cfg: Config, e: Event)
    requires Inv(s, cfg) && ConfigOk(cfg)
    ensures Inv(Step(s, keyOf, cfg, e), cfg)
  {
    hide Inv;
    match e {
      case Enqueued(item, id, now) => if id !in s.rows { EnqueueKeeps(s, keyOf, cfg, item, id, now); }
      case Claimed(limit, now) => ClaimAllKeeps(s, cfg, Claimable(s, limit), now);
      case Dispatching(i, nid, outcome) =>
        if i < |s.inflight| && nid !in s.notifications { DispatchKeeps(s, cfg, i, nid, outcome); }
      case Abandoned(i, nid, saved) =>
        if i < |s.inflight| && nid !in s.notifications { SavedKeeps(s, cfg, i, nid); }
      case Recovered(staleBefore) => RecoverAllKeeps(s, cfg, s.order, staleBefore);
      case Retried(id) => if RetryDead(s, id).Ok? { RetryKeeps(s, cfg, id); }
      case Requested(item, nid, now) => if nid !in s.notifications { AddNoteKeeps(s, cfg, nid, item, now); }
      case Processed(nid, ok, now) => ProcessKeeps(s, cfg, nid, ok, now);
    }
  }

  lemma {:induction false} RunKeeps(s: State, keyOf: Item -> string, cfg: Config, es: seq<Event>)
    requires Inv(s, cfg) && ConfigOk(cfg)
    ensures Inv(Run(s, keyOf, cfg, es), cfg)
    decreases |es|
  {
    if es != [] {
      hide Step, Inv;
      StepKeeps(s, keyOf, cfg, es[0]);
      RunKeeps(Step(s, keyOf, cfg, es[0]), keyOf, cfg, es[1..]);
    }
  }

  /** Every reachable state, stale claims included: keys and rows in bijection, attempts in
      bounds, dispatched rows backed by a matching notification, provider calls accounted. */
  lemma ReachableOk(keyOf: Item -> string, cfg: Config, es: seq<Event>)
    requires ConfigOk(cfg)
    ensures Inv(Run(Empty, keyOf, cfg, es), cfg)
  {
    assert Inv(Empty, cfg);
    RunKeeps(Empty, keyOf, cfg, es);
  }
}
