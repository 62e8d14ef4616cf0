/** The outbox when every claim finishes before it goes stale: each row then causes a bounded
    number of notifications and provider calls. And, for all runs, when a dispatch is final. */
module OutboxExact {
  import opened Common
  import opened Outbox
  import opened OutboxInvariants

  /** No claim still open is old enough to be recovered. */
  ghost predicate Timely(s: State, e: Event) {
    e.Recovered? ==> forall i :: 0 <= i < |s.inflight| ==> !IsStale(s.inflight[i].row, e.staleBefore)
  }

  ghost predicate TimelyRun(s: State, keyOf: Item -> string, cfg: Config, es: seq<Event>)
    decreases |es|
  {
    es == [] || (Timely(s, es[0]) && TimelyRun(Step(s, keyOf, cfg, es[0]), keyOf, cfg, es[1..]))
  }

  // ---- claims ----

  ghost predicate InFlight(s: State, id: OutboxId) {
    exists i :: 0 <= i < |s.inflight| && s.inflight[i].id == id
  }

  /** At most one worker holds a row, and its copy is the stored one. */
  ghost predicate ClaimsExact(s: State) {
    && (forall i, j :: 0 <= i < j < |s.inflight| ==> s.inflight[i].id != s.inflight[j].id)
    && (forall i :: 0 <= i < |s.inflight| ==> CopyExact(s.rows, s.inflight[i]))
  }

  ghost predicate CopyExact(rows: map<OutboxId, Row>, c: Claim) {
    c.id in rows && rows[c.id] == c.row && c.row.status == Processing
  }

  /** One more notification than failed attempts may exist once a dispatch has succeeded or
      a claim has been abandoned. */
  ghost function Allowed(s: State, id: OutboxId): nat
    requires id in s.rows
  {
    var r := s.rows[id];
    if r.status == Dispatched || (r.status == Processing && !InFlight(s, id)) then r.attempts + 1 else r.attempts
  }

  ghost predicate CountExact(s: State, id: OutboxId)
    requires id in s.rows
  {
    |MadeFor(s, id)| <= Allowed(s, id)
  }

  ghost predicate Exact(s: State) {
    ClaimsExact(s) && forall id :: id in s.rows ==> CountExact(s, id)
  }

  /** What a step leaves untouched for a row. */
  lemma CountFrame(s: State, s': State, id: OutboxId)
    requires id in s.rows && CountExact(s, id)
    requires id in s'.rows && s'.rows[id] == s.rows[id] && MadeFor(s', id) == MadeFor(s, id)
    requires InFlight(s, id) == InFlight(s', id)
    ensures CountExact(s', id)
  {
  }

  lemma DropClaim(s: State, i: nat)
    requires i < |s.inflight| && ClaimsExact(s)
    ensures var s' := s.(inflight := DropAt(s.inflight, i));
            && ClaimsExact(s') && !InFlight(s', s.inflight[i].id)
            && forall id :: id != s.inflight[i].id ==> (InFlight(s, id) <==> InFlight(s', id))
  {
    var d := DropAt(s.inflight, i);
    var s' := s.(inflight := d);
    assert forall k :: 0 <= k < |d| ==> d[k] == s.inflight[if k < i then k else k + 1];
    forall id | id != s.inflight[i].id && InFlight(s, id) ensures InFlight(s', id) {
      var k :| 0 <= k < |s.inflight| && s.inflight[k].id == id;
      assert d[if k < i then k else k - 1].id == id;
    }
  }

  /** A row somebody holds is being processed, as its copy says. */
  lemma HeldRow(s: State, id: OutboxId)
    requires ClaimsExact(s)
    ensures InFlight(s, id) ==> exists i :: 0 <= i < |s.inflight| && s.inflight[i].id == id && CopyExact(s.rows, s.inflight[i])
  {
  }

  /** Rewriting a row nobody holds leaves every open claim exact. */
  lemma ClaimsUntouched(s: State, id: OutboxId, r: Row)
    requires ClaimsExact(s) && !InFlight(s, id)
    ensures ClaimsExact(s.(rows := s.rows[id := r]))
  {
    var rows' := s.rows[id := r];
    forall i | 0 <= i < |s.inflight| ensures CopyExact(rows', s.inflight[i]) {
      assert CopyExact(s.rows, s.inflight[i]);
    }
  }

  // ---- each step ----

  lemma EnqueueExact(s: State, keyOf: Item -> string, item: Item, id: OutboxId, now: int)
    requires Exact(s) && id !in s.rows
    ensures Exact(Enqueue(s, keyOf, item, id, now))
  {
    if keyOf(item) !in s.keys {
      var s' := Enqueue(s, keyOf, item, id, now);
      var r := Row(keyOf(item), item, Pending, 0, now, None, None);
      HeldRow(s, id);
      ClaimsUntouched(s, id, r);
      assert ClaimsExact(s');
      forall x | x in s'.rows ensures CountExact(s', x) {
        if x != id { CountFrame(s, s', x); }
      }
    }
  }

  lemma ClaimOneExact(s: State, id: OutboxId, now: int)
    requires Exact(s)
    ensures Exact(ClaimOne(s, id, now))
  {
    if id in s.rows && s.rows[id].status == Pending {
      var u := Started(s.rows[id], now);
      var s' := ClaimOne(s, id, now);
      HeldRow(s, id);
      ClaimsUntouched(s, id, u);
      ClaimAdded(s, s', id, u);
      forall x | x in s'.rows ensures CountExact(s', x) {
        assert CountExact(s, x);
        if x != id { CountFrame(s, s', x); }
      }
    }
  }

  lemma ClaimAdded(s: State, s': State, id: OutboxId, u: Row)
    requires !InFlight(s, id) && u.status == Processing
    requires s'.rows == s.rows[id := u] && s'.inflight == s.inflight + [Claim(id, u)]
    requires ClaimsExact(s.(rows := s'.rows))
    ensures ClaimsExact(s') && InFlight(s', id)
    ensures forall x :: x != id ==> (InFlight(s, x) <==> InFlight(s', x))
  {
    assert s'.inflight[|s.inflight|].id == id;
    forall x | x != id && InFlight(s, x) ensures InFlight(s', x) {
      var i :| 0 <= i < |s.inflight| && s.inflight[i].id == x;
      assert s'.inflight[i].id == x;
    }
  }

  lemma {:induction false} ClaimAllExact(s: State, ids: seq<OutboxId>, now: int)
    requires Exact(s)
    ensures Exact(ClaimAll(s, ids, now))
  {
    if ids != [] {
      hide Exact, ClaimOne;
      ClaimAllExact(s, ids[..|ids| - 1], now);
      ClaimOneExact(ClaimAll(s, ids[..|ids| - 1], now), ids[|ids| - 1], now);
    }
  }

  lemma AddedCardinality<T>(a: set<T>, x: T)
    ensures |a + {x}| <= |a| + 1
  {
  }

  /** Closing a claim: the row is rewritten, and its count may grow by one. */
  lemma CloseExact(s: State, s': State, i: nat, r: Row, nid: NotificationId)
    requires Exact(s) && i < |s.inflight| && s'.inflight == DropAt(s.inflight, i)
    requires s'.rows == s.rows[s.inflight[i].id := r]
    requires MadeFor(s', s.inflight[i].id) <= MadeFor(s, s.inflight[i].id) + {nid}
    requires forall x :: x != s.inflight[i].id ==> MadeFor(s', x) == MadeFor(s, x)
    requires
      || (r == s.rows[s.inflight[i].id] && r.status == Processing)
      || (r.status == Dispatched && r.attempts == s.inflight[i].row.attempts)
      || r.attempts == s.inflight[i].row.attempts + 1
    ensures Exact(s')
  {
    var c := s.inflight[i];
    var s1 := s.(inflight := DropAt(s.inflight, i));
    assert CopyExact(s.rows, c) && CountExact(s, c.id) && InFlight(s, c.id);
    DropClaim(s, i);
    ClaimsUntouched(s1, c.id, r);
    assert ClaimsExact(s');
    forall x | x in s'.rows ensures CountExact(s', x) {
      if x == c.id {
        AddedCardinality(MadeFor(s, x), nid);
        SubsetCardinality(MadeFor(s', x), MadeFor(s, x) + {nid});
        assert !InFlight(s', x) by { assert !InFlight(s1, x); }
      } else {
        assert InFlight(s, x) == InFlight(s1, x) == InFlight(s', x);
        CountFrame(s, s', x);
      }
    }
  }

  function RowAfter(c: Claim, cfg: Config, nid: NotificationId, outcome: DispatchOutcome): Row {
    if outcome == AllSaved then c.row.(status := Dispatched, startedAt := None, notification := Some(nid))
    else AfterFailure(c.row, cfg.maxDispatchAttempts)
  }

  lemma DispatchShape(s: State, cfg: Config, i: nat, nid: NotificationId, outcome: DispatchOutcome)
    requires i < |s.inflight|
    ensures var c := s.inflight[i]; var s' := DispatchOne(s, cfg, i, nid, outcome);
            && s'.inflight == DropAt(s.inflight, i) && s'.rows == s.rows[c.id := RowAfter(c, cfg, nid, outcome)]
            && MadeFor(s', c.id) == (if outcome == SaveThrew then MadeFor(s, c.id) else MadeFor(s, c.id) + {nid})
            && (forall x :: x != c.id ==> MadeFor(s', x) == MadeFor(s, x))
            && Notes(s') == (if outcome == SaveThrew then Notes(s) else NotesWith(s, c, nid))
  {
    hide DropAt, AfterFailure;
  }

  /** What the delivery worker sees. */
  ghost function Notes(s: State): (map<NotificationId, Notification>, map<NotificationId, nat>) { (s.notifications, s.calls) }

  /** ... after a dispatch has saved its notification. */
  ghost function NotesWith(s: State, c: Claim, nid: NotificationId): (map<NotificationId, Notification>, map<NotificationId, nat>) {
    (s.notifications[nid := Notification(c.row.item, Queued, 0, false, None, c.row.startedAt.GetOr(0))], s.calls[nid := 0])
  }

  lemma DispatchExact(s: State, cfg: Config, i: nat, nid: NotificationId, outcome: DispatchOutcome)
    requires Exact(s) && i < |s.inflight|
    ensures Exact(DispatchOne(s, cfg, i, nid, outcome))
  {
    hide Exact, DispatchOne, DropAt;
    DispatchShape(s, cfg, i, nid, outcome);
    CloseExact(s, DispatchOne(s, cfg, i, nid, outcome), i, RowAfter(s.inflight[i], cfg, nid, outcome), nid);
  }

  lemma AbandonExact(s: State, i: nat, nid: NotificationId, saved: bool)
    requires Exact(s) && i < |s.inflight|
    ensures Exact(Abandon(s, i, nid, saved))
  {
    var c := s.inflight[i];
    assert CopyExact(s.rows, c);
    assert s.rows[c.id := c.row] == s.rows;
    CloseExact(s, Abandon(s, i, nid, saved), i, c.row, nid);
  }

  /** Starting the count again on a row nobody holds. */
  lemma ResetExact(s: State, id: OutboxId, r: Row)
    requires Exact(s) && id in s.rows && !InFlight(s, id)
    ensures Exact(s.(rows := s.rows[id := r], made := s.made[id := {}]))
  {
    var s' := s.(rows := s.rows[id := r], made := s.made[id := {}]);
    ClaimsUntouched(s, id, r);
    assert ClaimsExact(s');
    forall x | x in s'.rows ensures CountExact(s', x) {
      if x != id { CountFrame(s, s', x); }
    }
  }

  lemma {:induction false} RecoverAllExact(s: State, ids: seq<OutboxId>, staleBefore: int)
    requires Exact(s) && Timely(s, Recovered(staleBefore))
    ensures Exact(RecoverAll(s, ids, staleBefore)) && RecoverAll(s, ids, staleBefore).inflight == s.inflight
  {
    if ids != [] {
      var id := ids[|ids| - 1];
      RecoverAllExact(s, ids[..|ids| - 1], staleBefore);
      var s1 := RecoverAll(s, ids[..|ids| - 1], staleBefore);
      if id in s1.rows && IsStale(s1.rows[id], staleBefore) {
        HeldRow(s1, id);
        ResetExact(s1, id, s1.rows[id].(status := Pending, startedAt := None));
      }
    }
  }

  lemma RetryExact(s: State, id: OutboxId)
    requires Exact(s) && RetryDead(s, id).Ok?
    ensures Exact(RetryDead(s, id).value)
  {
    HeldRow(s, id);
    ResetExact(s, id, s.rows[id].(status := Pending, attempts := 0, startedAt := None, notification := None));
  }

  /** Steps of the delivery worker do not touch the outbox. */
  lemma ExactFrame(s: State, s': State)
    requires Exact(s) && s'.rows == s.rows && s'.inflight == s.inflight && s'.made == s.made
    ensures Exact(s')
  {
    forall x | x in s'.rows ensures CountExact(s', x) { CountFrame(s, s', x); }
  }

  lemma StepExact(s: State, keyOf: Item -> string, cfg: Config, e: Event)
    requires Exact(s) && Inv(s, cfg) && Timely(s, e)
    ensures Exact(Step(s, keyOf, cfg, e))
  {
    hide Exact, Inv;
    match e {
      case Enqueued(item, id, now) => if id !in s.rows { EnqueueExact(s, keyOf, item, id, now); }
      case Claimed(limit, now) => ClaimAllExact(s, Claimable(s, limit), now);
      case Dispatching(i, nid, outcome) =>
        if i < |s.inflight| && nid !in s.notifications { DispatchExact(s, cfg, i, nid, outcome); }
      case Abandoned(i, nid, saved) =>
        if i < |s.inflight| && nid !in s.notifications { AbandonExact(s, i, nid, saved); }
      case Recovered(staleBefore) => RecoverAllExact(s, s.order, staleBefore);
      case Retried(id) => if RetryDead(s, id).Ok? { RetryExact(s, id); }
      case Requested(item, nid, now) => ExactFrame(s, Step(s, keyOf, cfg, e));
      case Processed(nid, ok, now) => ExactFrame(s, Step(s, keyOf, cfg, e));
    }
  }

  lemma {:induction false} RunExact(s: State, keyOf: Item -> string, cfg: Config, es: seq<Event>)
    requires Exact(s) && Inv(s, cfg) && ConfigOk(cfg) && TimelyRun(s, keyOf, cfg, es)
    ensures Exact(Run(s, keyOf, cfg, es)) && Inv(Run(s, keyOf, cfg, es), cfg)
    decreases |es|
  {
    if es != [] {
      hide Step, Inv, Exact;
      StepKeeps(s, keyOf, cfg, es[0]);
      StepExact(s, keyOf, cfg, es[0]);
      RunExact(Step(s, keyOf, cfg, es[0]), keyOf, cfg, es[1..]);
    }
  }

  // ---- what a row can cause ----

  ghost function CallsOf(s: State, nid: NotificationId): nat {
    if nid in s.notifications && nid in s.calls then s.calls[nid] else 0
  }

  ghost function CallsTo(s: State, nids: set<NotificationId>): nat { Total(map nid | nid in nids :: CallsOf(s, nid)) }

  lemma {:induction false} TotalBound<K>(m: map<K, nat>, bound: nat)
    requires forall k :: k in m ==> m[k] <= bound
    ensures Total(m) <= |m| * bound
    decreases |m|
  {
    if m != map[] {
      var k :| k in m;
      TotalRemove(m, k);
      var rest := m - {k};
      assert |m| == |rest| + 1 by { assert m.Keys == rest.Keys + {k}; }
      TotalBound(rest, bound);
      assert m[k] <= bound;
      Distribute(|rest|, bound);
    }
  }

  lemma Distribute(a: nat, b: nat)
    ensures a * b + b == (a + 1) * b
  {
  }

  lemma CallsWithin(s: State, cfg: Config, nids: set<NotificationId>)
    requires Inv(s, cfg) && nids <= s.notifications.Keys
    ensures CallsTo(s, nids) <= |nids| * cfg.maxAttempts
  {
    var m := map nid | nid in nids :: CallsOf(s, nid);
    forall nid | nid in m ensures m[nid] <= cfg.maxAttempts {
      assert NoteOk(s.notifications[nid], s.calls[nid], cfg);
    }
    TotalBound(m, cfg.maxAttempts);
    assert m.Keys == nids;
    assert |m| == |m.Keys|;
  }

  /** Since its last operator retry or stale recovery, an outbox row has caused at most
      maxDispatchAttempts notifications, and these at most maxAttempts provider calls each. */
  lemma BoundedCalls(keyOf: Item -> string, cfg: Config, es: seq<Event>, id: OutboxId)
    requires ConfigOk(cfg) && TimelyRun(Empty, keyOf, cfg, es)
    requires id in Run(Empty, keyOf, cfg, es).rows
    ensures var s := Run(Empty, keyOf, cfg, es);
            && |MadeFor(s, id)| <= cfg.maxDispatchAttempts
            && CallsTo(s, MadeFor(s, id)) <= cfg.maxDispatchAttempts * cfg.maxAttempts
  {
    assert Inv(Empty, cfg) && Exact(Empty);
    RunExact(Empty, keyOf, cfg, es);
    var s := Run(Empty, keyOf, cfg, es);
    hide Run;
    assert RowOk(s.rows[id], cfg, s.notifications) && CountExact(s, id);
    assert MadeFor(s, id) <= s.notifications.Keys;
    CallsWithin(s, cfg, MadeFor(s, id));
    Product(|MadeFor(s, id)|, cfg.maxDispatchAttempts, cfg.maxAttempts);
  }

  lemma Product(a: nat, b: nat, c: nat)
    requires a <= b
    ensures a * c <= b * c
  {
  }

  // ---- over the whole life of a row ----

  /** The step starts the count of a row again. */
  ghost predicate Resets(s: State, e: Event, id: OutboxId) {
    || (e.Retried? && e.id == id && RetryDead(s, id).Ok?)
    || (e.Recovered? && id in s.rows && IsStale(s.rows[id], e.staleBefore))
  }

  ghost function ResetCount(s: State, keyOf: Item -> string, cfg: Config, es: seq<Event>, id: OutboxId): nat
    decreases |es|
  {
    if es == [] then 0
    else (if Resets(s, es[0], id) then 1 else 0) + ResetCount(Step(s, keyOf, cfg, es[0]), keyOf, cfg, es[1..], id)
  }

  ghost function MadeBy(s: State, id: OutboxId): set<NotificationId> { if id in s.rows then MadeFor(s, id) else {} }

  /** Every notification the row has caused at any time of a run. */
  ghost function EverMade(s: State, keyOf: Item -> string, cfg: Config, es: seq<Event>, id: OutboxId): set<NotificationId>
    decreases |es|
  {
    if es == [] then MadeBy(s, id)
    else MadeBy(s, id) + EverMade(Step(s, keyOf, cfg, es[0]), keyOf, cfg, es[1..], id)
  }

  lemma {:induction false} ClaimAllMade(s: State, ids: seq<OutboxId>, now: int)
    ensures ClaimAll(s, ids, now).made == s.made && ClaimAll(s, ids, now).rows.Keys == s.rows.Keys
  {
    if ids != [] { ClaimAllMade(s, ids[..|ids| - 1], now); }
  }

  lemma {:induction false} RecoverAllMade(s: State, ids: seq<OutboxId>, staleBefore: int, id: OutboxId)
    requires id in s.rows && !IsStale(s.rows[id], staleBefore)
    ensures var s' := RecoverAll(s, ids, staleBefore);
            && id in s'.rows && s'.rows[id] == s.rows[id] && MadeFor(s', id) == MadeFor(s, id)
            && s'.inflight == s.inflight && Notes(s') == Notes(s)
  {
    if ids != [] { RecoverAllMade(s, ids[..|ids| - 1], staleBefore, id); }
  }

  /** Between resets the notifications of a row only accumulate. */
  lemma MadeGrows(s: State, keyOf: Item -> string, cfg: Config, e: Event, id: OutboxId)
    requires id in s.rows && !Resets(s, e, id)
    ensures id in Step(s, keyOf, cfg, e).rows && MadeBy(s, id) <= MadeBy(Step(s, keyOf, cfg, e), id)
  {
    hide AfterDelivery, AfterFailure, Claimable, DispatchOne, Abandon, DropAt;
    match e {
      case Claimed(limit, now) => ClaimAllMade(s, Claimable(s, limit), now);
      case Recovered(staleBefore) => RecoverAllMade(s, s.order, staleBefore, id);
      case Dispatching(i, nid, outcome) => if i < |s.inflight| { DispatchShape(s, cfg, i, nid, outcome); }
      case Abandoned(i, nid, saved) => if i < |s.inflight| { AbandonShape(s, i, nid, saved); }
      case _ =>
    }
  }

  lemma MadeWithin(s: State, cfg: Config, id: OutboxId)
    requires Exact(s) && Inv(s, cfg)
    ensures |MadeBy(s, id)| <= cfg.maxDispatchAttempts
  {
    if id in s.rows {
      assert RowOk(s.rows[id], cfg, s.notifications) && CountExact(s, id);
    }
  }

  lemma {:induction false} EverMadeBound(s: State, keyOf: Item -> string, cfg: Config, es: seq<Event>, id: OutboxId)
    requires Exact(s) && Inv(s, cfg) && ConfigOk(cfg) && TimelyRun(s, keyOf, cfg, es)
    ensures |EverMade(s, keyOf, cfg, es, id)| <= (ResetCount(s, keyOf, cfg, es, id) + 1) * cfg.maxDispatchAttempts
    decreases |es|
  {
    hide Step, Inv, Exact, ConfigOk, MadeBy, Resets, Timely;
    MadeWithin(s, cfg, id);
    if es != [] {
      var s1 := Step(s, keyOf, cfg, es[0]);
      StepKeeps(s, keyOf, cfg, es[0]);
      StepExact(s, keyOf, cfg, es[0]);
      EverMadeBound(s1, keyOf, cfg, es[1..], id);
      var now, later := MadeBy(s, id), EverMade(s1, keyOf, cfg, es[1..], id);
      if Resets(s, es[0], id) {
        UnionCardinality(now, later);
        var r := ResetCount(s1, keyOf, cfg, es[1..], id);
        Distribute(r + 1, cfg.maxDispatchAttempts);
        assert ResetCount(s, keyOf, cfg, es, id) == r + 1;
      } else {
        MadeLater(s1, keyOf, cfg, es[1..], id);
        MadeKept(s, keyOf, cfg, es[0], id);
        assert now + later == later;
      }
    }
  }

  lemma MadeKept(s: State, keyOf: Item -> string, cfg: Config, e: Event, id: OutboxId)
    requires !Resets(s, e, id)
    ensures MadeBy(s, id) <= MadeBy(Step(s, keyOf, cfg, e), id)
  {
    if id in s.rows { MadeGrows(s, keyOf, cfg, e, id); }
  }

  lemma MadeLater(s: State, keyOf: Item -> string, cfg: Config, es: seq<Event>, id: OutboxId)
    ensures MadeBy(s, id) <= EverMade(s, keyOf, cfg, es, id)
  {
  }

  lemma UnionCardinality<T>(a: set<T>, b: set<T>)
    ensures |a + b| <= |a| + |b|
  {
    assert a + b == a + (b - a);
    SubsetCardinality(b - a, b);
  }

  /** Notifications are never removed. */
  lemma StepNotes(s: State, keyOf: Item -> string, cfg: Config, e: Event)
    ensures s.notifications.Keys <= Step(s, keyOf, cfg, e).notifications.Keys
  {
    hide AfterDelivery, AfterFailure, Claimable;
    match e {
      case Claimed(limit, now) => ClaimAllFrame(s, Claimable(s, limit), now);
      case Recovered(staleBefore) => RecoverAllFrame(s, s.order, staleBefore);
      case _ =>
    }
  }

  lemma {:induction false} EverMadeExist(s: State, keyOf: Item -> string, cfg: Config, es: seq<Event>, id: OutboxId)
    requires Inv(s, cfg) && ConfigOk(cfg)
    ensures EverMade(s, keyOf, cfg, es, id) <= Run(s, keyOf, cfg, es).notifications.Keys
    ensures s.notifications.Keys <= Run(s, keyOf, cfg, es).notifications.Keys
    decreases |es|
  {
    assert MadeBy(s, id) <= s.notifications.Keys;
    if es != [] {
      hide Step, Inv, MadeBy;
      StepKeeps(s, keyOf, cfg, es[0]);
      StepNotes(s, keyOf, cfg, es[0]);
      EverMadeExist(Step(s, keyOf, cfg, es[0]), keyOf, cfg, es[1..], id);
    }
  }

  lemma EmptyOk(cfg: Config)
    requires ConfigOk(cfg)
    ensures Inv(Empty, cfg) && Exact(Empty)
  {
  }

  /** Over a whole run, with r operator retries and stale recoveries of a row, all the
      notifications it ever caused reached the provider at most
      (r + 1) * maxDispatchAttempts * maxAttempts times altogether. */
  lemma LifetimeCalls(keyOf: Item -> string, cfg: Config, es: seq<Event>, id: OutboxId)
    requires ConfigOk(cfg) && TimelyRun(Empty, keyOf, cfg, es)
    ensures var s := Run(Empty, keyOf, cfg, es);
            var n := (ResetCount(Empty, keyOf, cfg, es, id) + 1) * cfg.maxDispatchAttempts;
            && |EverMade(Empty, keyOf, cfg, es, id)| <= n
            && CallsTo(s, EverMade(Empty, keyOf, cfg, es, id)) <= n * cfg.maxAttempts
  {
    hide Inv, Exact, CallsTo, EverMade, ResetCount, TimelyRun, Run;
    EmptyOk(cfg);
    EverMadeBound(Empty, keyOf, cfg, es, id);
    EverMadeExist(Empty, keyOf, cfg, es, id);
    ReachableOk(keyOf, cfg, es);
    var s := Run(Empty, keyOf, cfg, es);
    var made := EverMade(Empty, keyOf, cfg, es, id);
    var n := (ResetCount(Empty, keyOf, cfg, es, id) + 1) * cfg.maxDispatchAttempts;
    CallsWithin(s, cfg, made);
    Product(|made|, n, cfg.maxAttempts);
  }

  // ---- a dispatched row ----

  lemma {:induction false} ClaimAllSkips(s: State, ids: seq<OutboxId>, now: int, id: OutboxId)
    requires id in s.rows && s.rows[id].status != Pending
    ensures var s' := ClaimAll(s, ids, now);
            && id in s'.rows && s'.rows[id] == s.rows[id]
            && (!InFlight(s, id) ==> !InFlight(s', id))
  {
    if ids != [] { ClaimAllSkips(s, ids[..|ids| - 1], now, id); }
  }

  lemma {:induction false} RecoverAllSkips(s: State, ids: seq<OutboxId>, staleBefore: int, id: OutboxId)
    requires id in s.rows && s.rows[id].status != Processing
    ensures var s' := RecoverAll(s, ids, staleBefore);
            id in s'.rows && s'.rows[id] == s.rows[id] && s'.inflight == s.inflight
  {
    if ids != [] { RecoverAllSkips(s, ids[..|ids| - 1], staleBefore, id); }
  }

  /** In any run whatever, the one thing that can rewrite a dispatched row is the dispatch of
      another claim on it that is still open; and no new claim on it is ever made. */
  lemma DispatchedChangesOnlyByOpenClaim(s: State, keyOf: Item -> string, cfg: Config, e: Event, id: OutboxId)
    requires id in s.rows && s.rows[id].status == Dispatched
    requires e.Dispatching? && e.i < |s.inflight| ==> s.inflight[e.i].id != id
    ensures var s' := Step(s, keyOf, cfg, e);
            && id in s'.rows && s'.rows[id] == s.rows[id]
            && (!InFlight(s, id) ==> !InFlight(s', id))
  {
    hide AfterDelivery, AfterFailure, Claimable, SaveFor, DropAt;
    match e {
      case Claimed(limit, now) => ClaimAllSkips(s, Claimable(s, limit), now, id);
      case Recovered(staleBefore) => RecoverAllSkips(s, s.order, staleBefore, id);
      case Dispatching(i, nid, outcome) =>
        if i < |s.inflight| { DropFewer(s, i, id); DispatchShape(s, cfg, i, nid, outcome); }
      case Abandoned(i, nid, saved) =>
        if i < |s.inflight| { DropFewer(s, i, id); AbandonShape(s, i, nid, saved); }
      case _ =>
    }
  }

  lemma AbandonShape(s: State, i: nat, nid: NotificationId, saved: bool)
    requires i < |s.inflight|
    ensures var s' := Abandon(s, i, nid, saved); var c := s.inflight[i];
            && s'.rows == s.rows && s'.inflight == DropAt(s.inflight, i)
            && MadeFor(s', c.id) == (if saved then MadeFor(s, c.id) + {nid} else MadeFor(s, c.id))
            && (forall x :: x != c.id ==> MadeFor(s', x) == MadeFor(s, x))
            && Notes(s') == (if saved then NotesWith(s, c, nid) else Notes(s))
  {
    hide DropAt;
  }

  lemma DropFewer(s: State, i: nat, id: OutboxId)
    requires i < |s.inflight|
    ensures forall s': State :: s'.inflight == DropAt(s.inflight, i) && InFlight(s', id) ==> InFlight(s, id)
  {
    forall s': State | s'.inflight == DropAt(s.inflight, i) && InFlight(s', id) ensures InFlight(s, id) {
      var k :| 0 <= k < |s'.inflight| && s'.inflight[k].id == id;
      assert s.inflight[if k < i then k else k + 1].id == id;
    }
  }

  lemma {:induction false} NoOpenClaimKeeps(s: State, keyOf: Item -> string, cfg: Config, es: seq<Event>, id: OutboxId)
    requires id in s.rows && s.rows[id].status == Dispatched && !InFlight(s, id)
    ensures id in Run(s, keyOf, cfg, es).rows && Run(s, keyOf, cfg, es).rows[id] == s.rows[id]
    decreases |es|
  {
    if es != [] {
      hide Step;
      DispatchedChangesOnlyByOpenClaim(s, keyOf, cfg, es[0], id);
      NoOpenClaimKeeps(Step(s, keyOf, cfg, es[0]), keyOf, cfg, es[1..], id);
    }
  }

  lemma {:induction false} LongerThanAll(ids: set<string>) returns (n: nat)
    ensures forall x :: x in ids ==> |x| < n
  {
    n := 0;
    if ids != {} {
      var x :| x in ids;
      var m := LongerThanAll(ids - {x});
      n := m + |x| + 1;
      forall y | y in ids ensures |y| < n { assert y == x || y in ids - {x}; }
    }
  }

  lemma FreshId(ids: set<string>) returns (x: string)
    ensures x !in ids
  {
    var n := LongerThanAll(ids);
    x := seq(n, _ => 'n');
  }

  /** The exact condition for a dispatch to be final: every continuation of the run leaves
      the dispatched row as it is if and only if no claim on it is still open. */
  lemma DispatchIsFinalIff(s: State, keyOf: Item -> string, cfg: Config, id: OutboxId)
    requires id in s.rows && s.rows[id].status == Dispatched
    ensures !InFlight(s, id) <==>
            forall es :: id in Run(s, keyOf, cfg, es).rows && Run(s, keyOf, cfg, es).rows[id] == s.rows[id]
  {
    if !InFlight(s, id) {
      forall es ensures id in Run(s, keyOf, cfg, es).rows && Run(s, keyOf, cfg, es).rows[id] == s.rows[id] {
        NoOpenClaimKeeps(s, keyOf, cfg, es, id);
      }
    } else {
      var i :| 0 <= i < |s.inflight| && s.inflight[i].id == id;
      var nid := FreshId(s.notifications.Keys);
      var e := Dispatching(i, nid, SaveThrew);
      OneStep(s, keyOf, cfg, e);
      assert Run(s, keyOf, cfg, [e]).rows[id] != s.rows[id] by { DispatchShape(s, cfg, i, nid, SaveThrew); }
    }
  }

  /** With timely claims there is never an open claim on a dispatched row, so every dispatch
      is final. */
  lemma DispatchedForGood(keyOf: Item -> string, cfg: Config, es: seq<Event>, more: seq<Event>, id: OutboxId)
    requires ConfigOk(cfg) && TimelyRun(Empty, keyOf, cfg, es)
    requires var s := Run(Empty, keyOf, cfg, es); id in s.rows && s.rows[id].status == Dispatched
    ensures var s := Run(Empty, keyOf, cfg, es);
            id in Run(s, keyOf, cfg, more).rows && Run(s, keyOf, cfg, more).rows[id] == s.rows[id]
  {
    var s := Run(Empty, keyOf, cfg, es);
    assert Inv(Empty, cfg) && Exact(Empty);
    RunExact(Empty, keyOf, cfg, es);
    hide Run;
    HeldRow(s, id);
    NoOpenClaimKeeps(s, keyOf, cfg, more, id);
  }

  /** What an open claim on a dispatched row does to it: failing, it puts the row back to
      pending, or to dead on its last attempt, although its notification exists; succeeding,
      it makes the row name a second notification. */
  lemma OpenClaimUndoesDispatch(s: State, cfg: Config, i: nat, nid: NotificationId, outcome: DispatchOutcome, id: OutboxId)
    requires Inv(s, cfg) && i < |s.inflight| && s.inflight[i].id == id && nid !in s.notifications
    requires s.rows[id].status == Dispatched
    ensures var s' := DispatchOne(s, cfg, i, nid, outcome);
            var r := s'.rows[id];
            && s.rows[id].notification.Some? && s.rows[id].notification.value in s'.notifications
            && s.rows[id].notification != Some(nid)
            && (outcome == AllSaved ==> r.status == Dispatched && r.notification == Some(nid) && nid in s'.notifications)
            && (outcome != AllSaved ==>
                  && r.attempts == s.inflight[i].row.attempts + 1
                  && r.status == (if r.attempts < cfg.maxDispatchAttempts then Pending else Dead))
            && (outcome == LaterThrew ==> nid in s'.notifications)
  {
    hide KeysOk, NoteOk;
    assert ClaimOk(s, cfg, s.inflight[i]) && RowOk(s.rows[id], cfg, s.notifications);
  }
}
