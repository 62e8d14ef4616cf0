/** What each outbox operation does, said over the fields of the rows themselves. */
module OutboxLaws {
  import opened Common
  import opened Outbox
  import opened OutboxInvariants
  import opened OutboxExact
  import opened OutboxRuns
  import opened OutboxStore

  /** An item whose key is known changes nothing; any other becomes one pending row that has
      not been tried, behind all others. */
  lemma EnqueueMeaning(s: State, keyOf: Item -> string, item: Item, id: OutboxId, now: int)
    requires id !in s.rows
    ensures var s' := Enqueue(s, keyOf, item, id, now);
            && Notes(s') == Notes(s) && s'.inflight == s.inflight
            && (keyOf(item) in s.keys ==> s' == s)
            && (keyOf(item) !in s.keys ==>
                  && s'.rows == s.rows[id := Row(keyOf(item), item, Pending, 0, now, None, None)]
                  && s'.keys == s.keys[keyOf(item) := id] && s'.order == s.order + [id] && MadeFor(s', id) == {})
  {
  }

  ghost function Copies(s: State, ids: seq<OutboxId>, now: int): seq<Claim>
    requires forall i :: 0 <= i < |ids| ==> ids[i] in s.rows
  {
    seq(|ids|, i requires 0 <= i < |ids| => Claim(ids[i], s.rows[ids[i]].(status := Processing, startedAt := Some(now))))
  }

  lemma {:induction false} ClaimAllMeaning(s: State, ids: seq<OutboxId>, now: int, id: OutboxId)
    requires Distinct(ids) && (forall i :: 0 <= i < |ids| ==> ids[i] in s.rows && s.rows[ids[i]].status == Pending)
    ensures var s' := ClaimAll(s, ids, now);
            && s'.inflight == s.inflight + Copies(s, ids, now) && s'.rows.Keys == s.rows.Keys
            && (id in s.rows ==>
                  s'.rows[id] == if id in ids then s.rows[id].(status := Processing, startedAt := Some(now)) else s.rows[id])
  {
    if ids != [] {
      var last := |ids| - 1;
      assert ids[last] !in ids[..last];
      ClaimAllMeaning(s, ids[..last], now, id);
      ClaimAllMeaning(s, ids[..last], now, ids[last]);
      assert Copies(s, ids, now) == Copies(s, ids[..last], now) + [Claim(ids[last], s.rows[ids[last]].(status := Processing, startedAt := Some(now)))];
    }
  }

  /** A claim marks exactly its batch as being processed since now, hands out their copies in
      order, and leaves every other row alone. */
  lemma ClaimedMeaning(s: State, keyOf: Item -> string, cfg: Config, limit: nat, now: int, id: OutboxId)
    requires Inv(s, cfg)
    ensures var out := Claimable(s, limit);
            var s' := Step(s, keyOf, cfg, Claimed(limit, now));
            && (forall i :: 0 <= i < |out| ==> out[i] in s.rows)
            && s'.inflight == s.inflight + Copies(s, out, now) && Notes(s') == Notes(s) && s'.made == s.made
            && (id in s.rows ==>
                  && id in s'.rows
                  && s'.rows[id] == if id in out then s.rows[id].(status := Processing, startedAt := Some(now)) else s.rows[id])
  {
    hide Claimable, Inv, Notes;
    var out := Claimable(s, limit);
    ClaimMeaning(s, cfg, limit, id);
    forall i | 0 <= i < |out| ensures out[i] in s.rows && s.rows[out[i]].status == Pending { assert out[i] in out; }
    ClaimAllMeaning(s, out, now, id);
    ClaimAllMade(s, out, now);
    ClaimAllFrame(s, out, now);
    assert Notes(ClaimAll(s, out, now)) == Notes(s) by { NotesOf(s, ClaimAll(s, out, now)); }
  }

  lemma NotesOf(s: State, s': State)
    requires s'.notifications == s.notifications && s'.calls == s.calls
    ensures Notes(s') == Notes(s)
  {
  }

  /** A dispatch closes its claim and rewrites its row from the claim's copy: dispatched and
      naming the new notification if all went well; else one attempt more, pending or, at the
      maximum, dead. Unless the save threw there is one new notification with the row's
      content, queued, untried, created when the claim was made. */
  lemma DispatchMeaning(s: State, cfg: Config, i: nat, nid: NotificationId, outcome: DispatchOutcome)
    requires Inv(s, cfg) && i < |s.inflight| && nid !in s.notifications
    ensures var c := s.inflight[i]; var s' := DispatchOne(s, cfg, i, nid, outcome);
            && s'.inflight == s.inflight[..i] + s.inflight[i + 1..]
            && s'.rows.Keys == s.rows.Keys && (forall x :: x in s.rows && x != c.id ==> s'.rows[x] == s.rows[x])
            && c.id in s'.rows
            && (outcome == AllSaved ==>
                  s'.rows[c.id] == c.row.(status := Dispatched, startedAt := None, notification := Some(nid)))
            && (outcome != AllSaved ==>
                  s'.rows[c.id] == c.row.(status := if c.row.attempts + 1 == cfg.maxDispatchAttempts then Dead else Pending,
                                          attempts := c.row.attempts + 1, startedAt := None))
            && (outcome == SaveThrew ==> s'.notifications == s.notifications)
            && (outcome != SaveThrew ==>
                  s'.notifications == s.notifications[nid := Notification(c.row.item, Queued, 0, false, None, c.row.startedAt.GetOr(0))])
            && s'.keys == s.keys && s'.order == s.order
  {
    hide NoteOk, RowOk, Claimable;
    assert ClaimOk(s, cfg, s.inflight[i]);
    DispatchShape(s, cfg, i, nid, outcome);
    DispatchKeys(s, cfg, i, nid, outcome);
  }

  lemma DispatchKeys(s: State, cfg: Config, i: nat, nid: NotificationId, outcome: DispatchOutcome)
    requires Inv(s, cfg) && i < |s.inflight|
    ensures var s' := DispatchOne(s, cfg, i, nid, outcome); s'.keys == s.keys && s'.order == s.order
  {
    assert ClaimOk(s, cfg, s.inflight[i]);
    hide NoteOk, RowOk, KeysOk, Claimable, DropAt;
  }

  lemma {:induction false} RecoverAllMeaning(s: State, ids: seq<OutboxId>, staleBefore: int, id: OutboxId)
    requires id in s.rows
    ensures var s' := RecoverAll(s, ids, staleBefore); var r := s.rows[id];
            && id in s'.rows
            && s'.rows[id] == (if id in ids && r.status == Processing && r.startedAt.Some? && r.startedAt.value < staleBefore
                               then r.(status := Pending, startedAt := None) else r)
  {
    if ids != [] {
      RecoverAllMeaning(s, ids[..|ids| - 1], staleBefore, id);
      assert id in ids <==> id in ids[..|ids| - 1] || id == ids[|ids| - 1];
    }
  }

  /** Recovery returns to pending exactly the rows being processed since before the limit, with
      their attempts; claims and notifications stay. */
  lemma RecoverMeaning(s: State, keyOf: Item -> string, cfg: Config, staleBefore: int, id: OutboxId)
    requires Inv(s, cfg) && id in s.rows
    ensures var s' := Step(s, keyOf, cfg, Recovered(staleBefore)); var r := s.rows[id];
            && id in s'.rows
            && s'.rows[id] == (if r.status == Processing && r.startedAt.Some? && r.startedAt.value < staleBefore
                               then r.(status := Pending, startedAt := None) else r)
            && s'.inflight == s.inflight && s'.notifications == s.notifications && s'.keys == s.keys
  {
    assert id in s.order by { assert KeysOk(s); }
    hide Inv;
    RecoverAllMeaning(s, s.order, staleBefore, id);
    RecoverAllFrame(s, s.order, staleBefore);
    RecoverAllClaims(s, s.order, staleBefore);
  }

  lemma {:induction false} RecoverAllClaims(s: State, ids: seq<OutboxId>, staleBefore: int)
    ensures var s' := RecoverAll(s, ids, staleBefore); s'.inflight == s.inflight && s'.keys == s.keys && s'.order == s.order
  {
    if ids != [] { RecoverAllClaims(s, ids[..|ids| - 1], staleBefore); }
  }

  /** The operator's retry is accepted exactly for a dead row, which then starts afresh. */
  lemma RetryMeaning(s: State, id: OutboxId)
    ensures var r := RetryDead(s, id);
            && (r.Ok? <==> id in s.rows && s.rows[id].status == Dead)
            && (r.Ok? ==>
                  && r.value.rows == s.rows[id := s.rows[id].(status := Pending, attempts := 0, startedAt := None, notification := None)]
                  && r.value.keys == s.keys && r.value.inflight == s.inflight && Notes(r.value) == Notes(s)
                  && MadeFor(r.value, id) == {})
  {
  }

  // ---- enqueueing a list ----

  lemma StepKeys(s: State, keyOf: Item -> string, cfg: Config, item: Item, id: OutboxId, now: int)
    ensures var s' := Step(s, keyOf, cfg, Enqueued(item, id, now));
            s.keys.Keys <= s'.keys.Keys && (id !in s.rows ==> keyOf(item) in s'.keys) && s'.rows.Keys <= s.rows.Keys + {id}
  {
  }

  /** With the outbox on, every item of the list has a row afterwards. */
  lemma {:induction false} EveryItemHasARow(s: State, keyOf: Item -> string, cfg: Config, items: seq<Item>, ids: seq<string>, now: int, n: nat, i: nat)
    requires |ids| == |items| && Distinct(ids) && i < n <= |items| && forall j :: 0 <= j < |ids| ==> ids[j] !in s.rows
    ensures var s' := Run(s, keyOf, cfg, Enqueuing(true, items, ids, now)[..n]);
            keyOf(items[i]) in s'.keys && s'.rows.Keys <= s.rows.Keys + Elems(ids[..n])
  {
    var es := Enqueuing(true, items, ids, now);
    var k := n - 1;
    var before := Run(s, keyOf, cfg, es[..k]);
    assert es[..n] == es[..k] + [es[k]] && es[k] == Enqueued(items[k], ids[k], now);
    RunSnoc(s, keyOf, cfg, es[..k], es[k]);
    if k == 0 {
      assert es[..0] == [] && before == s;
    } else {
      EveryItemHasARow(s, keyOf, cfg, items, ids, now, k, if i < k then i else 0);
    }
    assert ids[k] !in Elems(ids[..k]);
    hide Run, Step;
    StepKeys(before, keyOf, cfg, items[k], ids[k], now);
    assert ids[..n] == ids[..k] + [ids[k]];
  }

  /** With it off, every item is a queued notification of its own. */
  lemma {:induction false} EveryItemIsQueued(s: State, keyOf: Item -> string, cfg: Config, items: seq<Item>, ids: seq<string>, now: int, n: nat, i: nat)
    requires |ids| == |items| && Distinct(ids) && i < n <= |items| && forall j :: 0 <= j < |ids| ==> ids[j] !in s.notifications
    ensures var s' := Run(s, keyOf, cfg, Enqueuing(false, items, ids, now)[..n]);
            && ids[i] in s'.notifications && s'.notifications[ids[i]] == Notification(items[i], Queued, 0, false, None, now)
            && s'.notifications.Keys <= s.notifications.Keys + Elems(ids[..n])
  {
    var es := Enqueuing(false, items, ids, now);
    var k := n - 1;
    var before := Run(s, keyOf, cfg, es[..k]);
    assert es[..n] == es[..k] + [es[k]] && es[k] == Requested(items[k], ids[k], now);
    RunSnoc(s, keyOf, cfg, es[..k], es[k]);
    if k == 0 {
      assert es[..0] == [] && before == s;
    } else {
      EveryItemIsQueued(s, keyOf, cfg, items, ids, now, k, if i < k then i else 0);
    }
    assert ids[k] !in Elems(ids[..k]);
    hide Run;
    assert ids[..n] == ids[..k] + [ids[k]];
  }
}
