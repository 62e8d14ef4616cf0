/** Runs that go wrong: what an outbox claim that has gone stale can do, and what a retry
    carries over. */
module OutboxStale {
  import opened Common
  import opened Decimal
  import opened Outbox

  // ---- a stale claim ----

  /** A claim made at time 1 is recovered at time 2 and the row claimed again at time 3. */
  function Overtaken(item: Item): seq<Event> {
    [Enqueued(item, "row", 0), Claimed(1, 1), Recovered(2), Claimed(1, 3)]
  }

  lemma SingleClaim(s: State, id: OutboxId, now: int)
    requires s.order == [id] && id in s.rows && s.rows[id].status == Pending
    ensures ClaimPending(s, 1, now) == ClaimOne(s, id, now)
  {
    var p := IsPending(s.rows);
    assert Filter([id], p) == [id] by { assert [id][1..] == []; }
    assert Sort([id], Older(s.rows)) == [id] by { assert [id][1..] == []; }
    assert Claimable(s, 1) == [id];
    assert [id][..0] == [];
    assert ClaimAll(s, [], now) == s;
  }

  lemma SingleRecover(s: State, id: OutboxId, staleBefore: int)
    requires s.order == [id]
    ensures RecoverStale(s, staleBefore) == RecoverOne(s, id, staleBefore)
  {
    assert [id][..0] == [];
    assert RecoverAll(s, [], staleBefore) == s;
  }

  lemma FourSteps(s: State, keyOf: Item -> string, cfg: Config, a: Event, b: Event, c: Event, d: Event)
    ensures Run(s, keyOf, cfg, [a, b, c, d])
         == Step(Step(Step(Step(s, keyOf, cfg, a), keyOf, cfg, b), keyOf, cfg, c), keyOf, cfg, d)
  {
    hide Step;
    assert [a, b, c, d][1..] == [b, c, d] && [b, c, d][1..] == [c, d] && [c, d][1..] == [d] && [d][1..] == [];
    var s1 := Step(s, keyOf, cfg, a);
    var s2 := Step(s1, keyOf, cfg, b);
    var s3 := Step(s2, keyOf, cfg, c);
    assert Run(s3, keyOf, cfg, [d]) == Run(Step(s3, keyOf, cfg, d), keyOf, cfg, []);
    assert Run(s2, keyOf, cfg, [c, d]) == Run(s3, keyOf, cfg, [d]);
    assert Run(s1, keyOf, cfg, [b, c, d]) == Run(s2, keyOf, cfg, [c, d]);
  }

  /** A store with one row. */
  function OneRow(row: Row, inflight: seq<Claim>): State {
    State(map["row" := row], ["row"], map[row.key := "row"], map[], [], inflight, map[], map["row" := {}])
  }

  lemma EnqueueOneRow(keyOf: Item -> string, cfg: Config, item: Item)
    ensures Step(Empty, keyOf, cfg, Enqueued(item, "row", 0)) == OneRow(Row(keyOf(item), item, Pending, 0, 0, None, None), [])
  {
  }

  lemma ClaimOneRow(keyOf: Item -> string, cfg: Config, row: Row, inflight: seq<Claim>, now: int)
    requires row.status == Pending
    ensures Step(OneRow(row, inflight), keyOf, cfg, Claimed(1, now)) ==
            OneRow(Started(row, now), inflight + [Claim("row", Started(row, now))])
  {
    SingleClaim(OneRow(row, inflight), "row", now);
    assert map["row" := row]["row" := Started(row, now)] == map["row" := Started(row, now)];
  }

  lemma RecoverOneRow(keyOf: Item -> string, cfg: Config, row: Row, inflight: seq<Claim>, staleBefore: int)
    requires IsStale(row, staleBefore)
    ensures Step(OneRow(row, inflight), keyOf, cfg, Recovered(staleBefore)) ==
            OneRow(row.(status := Pending, startedAt := None), inflight)
  {
    SingleRecover(OneRow(row, inflight), "row", staleBefore);
    var back := row.(status := Pending, startedAt := None);
    assert map["row" := row]["row" := back] == map["row" := back];
    var none: map<OutboxId, set<NotificationId>> := map["row" := {}];
    assert none["row" := {}] == none;
  }

  lemma OvertakenState(keyOf: Item -> string, cfg: Config, item: Item)
    ensures var row := Row(keyOf(item), item, Pending, 0, 0, None, None);
            Run(Empty, keyOf, cfg, Overtaken(item)) ==
            OneRow(Started(row, 3), [Claim("row", Started(row, 1)), Claim("row", Started(row, 3))])
  {
    hide Step, OneRow, Run;
    var row := Row(keyOf(item), item, Pending, 0, 0, None, None);
    FourSteps(Empty, keyOf, cfg, Enqueued(item, "row", 0), Claimed(1, 1), Recovered(2), Claimed(1, 3));
    EnqueueOneRow(keyOf, cfg, item);
    ClaimOneRow(keyOf, cfg, row, [], 1);
    var first := [] + [Claim("row", Started(row, 1))];
    RecoverOneRow(keyOf, cfg, Started(row, 1), first, 2);
    ClaimOneRow(keyOf, cfg, row, first, 3);
    assert first + [Claim("row", Started(row, 3))] == [Claim("row", Started(row, 1)), Claim("row", Started(row, 3))];
  }

  /** Two open claims on one row: the younger dispatches it, then the older fails and the
      row no longer names the notification that exists. */
  lemma StaleClaimLosesDispatch(keyOf: Item -> string, cfg: Config, item: Item)
    requires cfg.maxDispatchAttempts >= 2
    ensures var s := Run(Empty, keyOf, cfg, Overtaken(item));
            var d := Step(s, keyOf, cfg, Dispatching(1, "note", AllSaved));
            var u := Step(d, keyOf, cfg, Dispatching(0, "lost", SaveThrew));
            && "row" in d.rows && d.rows["row"].status == Dispatched && d.rows["row"].notification == Some("note")
            && "row" in u.rows && u.rows["row"].status == Pending && u.rows["row"].notification == None
            && "note" in u.notifications
  {
    OvertakenState(keyOf, cfg, item);
    hide Run;
  }

  // ---- more notifications than attempts ----

  /** The row is claimed and recovered n times; every claim stays open. */
  function Reclaims(n: nat): seq<Event> {
    if n == 0 then [] else Reclaims(n - 1) + [Claimed(1, 2 * n), Recovered(2 * n + 1)]
  }

  function OpenClaims(row: Row, n: nat): (r: seq<Claim>)
    ensures |r| == n && forall i :: 0 <= i < n ==> r[i].id == "row"
  {
    if n == 0 then [] else OpenClaims(row, n - 1) + [Claim("row", Started(row, 2 * n))]
  }

  lemma {:induction false} ReclaimsOpen(keyOf: Item -> string, cfg: Config, row: Row, n: nat)
    requires row.status == Pending && row.startedAt == None
    ensures Run(OneRow(row, []), keyOf, cfg, Reclaims(n)) == OneRow(row, OpenClaims(row, n))
  {
    hide Step, OneRow, Run;
    if n == 0 {
      NoSteps(OneRow(row, []), keyOf, cfg);
    } else {
      var open, u := OpenClaims(row, n - 1), Started(row, 2 * n);
      ReclaimsOpen(keyOf, cfg, row, n - 1);
      RunConcat(OneRow(row, []), keyOf, cfg, Reclaims(n - 1), [Claimed(1, 2 * n), Recovered(2 * n + 1)]);
      TwoSteps(OneRow(row, open), keyOf, cfg, Claimed(1, 2 * n), Recovered(2 * n + 1));
      ClaimOneRow(keyOf, cfg, row, open, 2 * n);
      RecoverOneRow(keyOf, cfg, u, open + [Claim("row", u)], 2 * n + 1);
      assert u.(status := Pending, startedAt := None) == row;
    }
  }

  ghost function Names(n: nat): set<NotificationId> { set k: nat | k < n :: ToText(k) }

  lemma {:induction false} NamesCount(n: nat)
    ensures |Names(n)| == n
    ensures ToText(n) !in Names(n) && Names(n + 1) == Names(n) + {ToText(n)}
  {
    hide ToText;
    forall k: nat | k < n ensures ToText(k) != ToText(n) {
      if ToText(k) == ToText(n) { ToTextInjective(k, n); }
    }
    if n > 0 {
      NamesCount(n - 1);
    }
  }

  lemma NoNames()
    ensures Names(0) == {}
  {
  }

  /** The open claims are dispatched one after the other, each with its own notification. */
  function DispatchEach(n: nat): seq<Event> {
    if n == 0 then [] else DispatchEach(n - 1) + [Dispatching(0, ToText(n - 1), AllSaved)]
  }

  lemma {:induction false} DispatchEachMakes(s: State, keyOf: Item -> string, cfg: Config, n: nat)
    requires n <= |s.inflight| && (forall i :: 0 <= i < |s.inflight| ==> s.inflight[i].id == "row")
    requires s.notifications == map[] && MadeFor(s, "row") == {}
    ensures var s' := Run(s, keyOf, cfg, DispatchEach(n));
            && s'.inflight == s.inflight[n..]
            && s'.notifications.Keys == Names(n) && MadeFor(s', "row") == Names(n)
  {
    hide Step, Run, ToText, Names, MadeFor;
    if n == 0 {
      NoSteps(s, keyOf, cfg);
      NoNames();
    } else {
      var e := Dispatching(0, ToText(n - 1), AllSaved);
      var s1 := Run(s, keyOf, cfg, DispatchEach(n - 1));
      DispatchEachMakes(s, keyOf, cfg, n - 1);
      NamesCount(n - 1);
      RunSnoc(s, keyOf, cfg, DispatchEach(n - 1), e);
      assert s1.inflight[0] == s.inflight[n - 1];
      DispatchMakes(s1, keyOf, cfg, ToText(n - 1));
      assert s.inflight[n - 1..][1..] == s.inflight[n..];
    }
  }

  lemma DispatchMakes(s: State, keyOf: Item -> string, cfg: Config, nid: NotificationId)
    requires s.inflight != [] && s.inflight[0].id == "row" && nid !in s.notifications
    ensures var s' := Step(s, keyOf, cfg, Dispatching(0, nid, AllSaved));
            && s'.inflight == s.inflight[1..]
            && s'.notifications.Keys == s.notifications.Keys + {nid} && MadeFor(s', "row") == MadeFor(s, "row") + {nid}
  {
    hide AfterFailure;
    assert DropAt(s.inflight, 0) == s.inflight[1..];
  }

  /** Without timely claims no configuration bounds the notifications of a row: some run
      makes one more than maxDispatchAttempts since the last reset, all by dispatches that
      succeed. */
  lemma StaleClaimsBreakTheBound(keyOf: Item -> string, cfg: Config, item: Item)
    ensures var n := cfg.maxDispatchAttempts + 1;
            var s := Run(Empty, keyOf, cfg, [Enqueued(item, "row", 0)] + (Reclaims(n) + DispatchEach(n)));
            |MadeFor(s, "row")| == n > cfg.maxDispatchAttempts
  {
    var n := cfg.maxDispatchAttempts + 1;
    var row := Row(keyOf(item), item, Pending, 0, 0, None, None);
    var enq := [Enqueued(item, "row", 0)];
    RunConcat(Empty, keyOf, cfg, enq, Reclaims(n) + DispatchEach(n));
    OneStep(Empty, keyOf, cfg, enq[0]);
    EnqueueOneRow(keyOf, cfg, item);
    RunConcat(OneRow(row, []), keyOf, cfg, Reclaims(n), DispatchEach(n));
    ReclaimsOpen(keyOf, cfg, row, n);
    DispatchEachMakes(OneRow(row, OpenClaims(row, n)), keyOf, cfg, n);
    NamesCount(n);
  }

  // ---- what a retry carries over ----

  const Once := Config(1, 1, 0, 0)     // one dispatch attempt, one delivery attempt

  function Note(item: Item, now: int): Notification { Notification(item, Queued, 0, false, None, now) }

  /** The dispatch saved its notification but a later call threw; the operator retries. */
  function FailedThenRetried(item: Item): seq<Event> {
    [Enqueued(item, "row", 0), Claimed(1, 1), Dispatching(0, "old", LaterThrew), Retried("row")]
  }

  function Retried1(keyOf: Item -> string, item: Item): State {
    State(map["row" := Row(keyOf(item), item, Pending, 0, 0, None, None)], ["row"], map[keyOf(item) := "row"],
          map["old" := Note(item, 1)], ["old"], [], map["old" := 0], map["row" := {}])
  }

  lemma AfterRetry(keyOf: Item -> string, item: Item)
    ensures Run(Empty, keyOf, Once, FailedThenRetried(item)) == Retried1(keyOf, item)
  {
    var row := Row(keyOf(item), item, Pending, 0, 0, None, None);
    FourSteps(Empty, keyOf, Once, Enqueued(item, "row", 0), Claimed(1, 1), Dispatching(0, "old", LaterThrew), Retried("row"));
    EnqueueOneRow(keyOf, Once, item);
    ClaimOneRow(keyOf, Once, row, [], 1);
    DispatchThenRetry(keyOf, row);
    assert [] + [Claim("row", Started(row, 1))] == [Claim("row", Started(row, 1))];
  }

  lemma DispatchThenRetry(keyOf: Item -> string, row: Row)
    requires row == Row(keyOf(row.item), row.item, Pending, 0, 0, None, None)
    ensures var s := OneRow(Started(row, 1), [Claim("row", Started(row, 1))]);
            Step(Step(s, keyOf, Once, Dispatching(0, "old", LaterThrew)), keyOf, Once, Retried("row")) == Retried1(keyOf, row.item)
  {
    var s := OneRow(Started(row, 1), [Claim("row", Started(row, 1))]);
    var dead := row.(status := Dead, attempts := 1);
    var d := Step(s, keyOf, Once, Dispatching(0, "old", LaterThrew));
    assert DropAt(s.inflight, 0) == [];
    assert d.rows == map["row" := dead] && d.inflight == [] && d.noteOrder == ["old"] && d.keys == s.keys;
    assert d.notifications == map["old" := Note(row.item, 1)] && d.calls == map["old" := 0];
    assert d.made == map["row" := {"old"}] by { assert {} + {"old"} == {"old"}; }
    assert d == State(map["row" := dead], ["row"], map[row.key := "row"], map["old" := Note(row.item, 1)], ["old"], [],
                      map["old" := 0], map["row" := {"old"}]);
    assert map["row" := dead]["row" := row] == map["row" := row];
    var made: map<OutboxId, set<NotificationId>> := map["row" := {"old"}];
    assert made["row" := {}] == map["row" := {}];
  }

  lemma ThenDispatched(keyOf: Item -> string, item: Item)
    ensures var row := Row(keyOf(item), item, Pending, 0, 0, None, None);
            var s := Step(Step(Retried1(keyOf, item), keyOf, Once, Claimed(1, 2)), keyOf, Once, Dispatching(0, "new", AllSaved));
            && s.notifications == map["old" := Note(item, 1), "new" := Note(item, 2)]
            && s.calls == map["old" := 0, "new" := 0]
  {
    hide AfterFailure, UpdateRow, Claimable;
    var s := Retried1(keyOf, item);
    SingleClaim(s, "row", 2);
    var c := ClaimOne(s, "row", 2);
    assert Step(s, keyOf, Once, Claimed(1, 2)) == c;
    assert c.inflight[0].row.startedAt == Some(2);
    UpdateFrame(SaveFor(c.(inflight := DropAt(c.inflight, 0)), c.inflight[0], "new"), "row",
                c.inflight[0].row.(status := Dispatched, startedAt := None, notification := Some("new")));
  }

  /** The notifications of earlier rounds may still be delivered after a retry: counting the
      calls made since the retry, whatever they are for, can exceed the bound. What bounds
      them is the number of rounds. */
  lemma CallsCarryOver(keyOf: Item -> string, item: Item)
    ensures var s := Run(Empty, keyOf, Once, FailedThenRetried(item));
            var s' := Run(s, keyOf, Once, [Claimed(1, 2), Dispatching(0, "new", AllSaved), Processed("old", true, 3), Processed("new", true, 3)]);
            && MadeFor(s, "row") == {} && s.calls == map["old" := 0]
            && s'.calls == map["old" := 1, "new" := 1]
  {
    AfterRetry(keyOf, item);
    var s := Retried1(keyOf, item);
    FourSteps(s, keyOf, Once, Claimed(1, 2), Dispatching(0, "new", AllSaved), Processed("old", true, 3), Processed("new", true, 3));
    ThenDispatched(keyOf, item);
    var d := Step(Step(s, keyOf, Once, Claimed(1, 2)), keyOf, Once, Dispatching(0, "new", AllSaved));
    ThenDelivered(d, keyOf, item);
  }

  lemma ThenDelivered(d: State, keyOf: Item -> string, item: Item)
    requires d.notifications == map["old" := Note(item, 1), "new" := Note(item, 2)] && d.calls == map["old" := 0, "new" := 0]
    ensures Step(Step(d, keyOf, Once, Processed("old", true, 3)), keyOf, Once, Processed("new", true, 3)).calls
         == map["old" := 1, "new" := 1]
  {
  }
}
