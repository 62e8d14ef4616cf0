/** How many notifications a row can still cause before its next reset, exactly, whatever
    claims are open: and so when the bound of maxDispatchAttempts holds. */
module OutboxPotential {
  import opened Common
  import opened Outbox
  import opened OutboxInvariants
  import opened OutboxExact
  import opened OutboxRuns

  ghost function Left(max: nat, attempts: nat): nat { if attempts < max then max - attempts else 0 }

  /** The attempts left to the open claims on a row, each by its own copy. */
  ghost function OpenLeft(claims: seq<Claim>, id: OutboxId, max: nat): nat {
    if claims == [] then 0
    else
      var last := |claims| - 1;
      OpenLeft(claims[..last], id, max) + ClaimLeft(claims[last], id, max)
  }

  ghost function ClaimLeft(c: Claim, id: OutboxId, max: nat): nat { if c.id == id then Left(max, c.row.attempts) else 0 }

  ghost function RowLeft(rows: map<OutboxId, Row>, id: OutboxId, max: nat): nat {
    if id in rows && rows[id].status == Pending then Left(max, rows[id].attempts) else 0
  }

  /** Open claims, and the row itself if it is waiting to be claimed. */
  ghost function Potential(s: State, cfg: Config, id: OutboxId): nat {
    OpenLeft(s.inflight, id, cfg.maxDispatchAttempts) + RowLeft(s.rows, id, cfg.maxDispatchAttempts)
  }

  lemma OpenAppend(claims: seq<Claim>, c: Claim, id: OutboxId, max: nat)
    ensures OpenLeft(claims + [c], id, max) == OpenLeft(claims, id, max) + ClaimLeft(c, id, max)
  {
    assert (claims + [c])[..|claims|] == claims;
  }

  lemma {:induction false} OpenDrop(claims: seq<Claim>, i: nat, id: OutboxId, max: nat)
    requires i < |claims|
    ensures OpenLeft(DropAt(claims, i), id, max) + ClaimLeft(claims[i], id, max) == OpenLeft(claims, id, max)
  {
    hide ClaimLeft;
    var last := |claims| - 1;
    if i == last {
      assert DropAt(claims, i) == claims[..last];
    } else {
      OpenDrop(claims[..last], i, id, max);
      assert DropAt(claims, i) == DropAt(claims[..last], i) + [claims[last]];
      OpenAppend(DropAt(claims[..last], i), claims[last], id, max);
    }
  }

  lemma {:induction false} OpenZero(claims: seq<Claim>, id: OutboxId, max: nat)
    requires forall i :: 0 <= i < |claims| ==> claims[i].row.attempts < max
    ensures OpenLeft(claims, id, max) == 0 <==> forall i :: 0 <= i < |claims| ==> claims[i].id != id
  {
    if claims != [] { OpenZero(claims[..|claims| - 1], id, max); }
  }

  // ---- claiming moves potential from the row to the claim ----

  lemma ClaimOnePotential(s: State, cfg: Config, x: OutboxId, now: int, id: OutboxId)
    ensures Potential(ClaimOne(s, x, now), cfg, id) == Potential(s, cfg, id)
    ensures ClaimOne(s, x, now).made == s.made && Notes(ClaimOne(s, x, now)) == Notes(s)
  {
    hide OpenLeft, Left;
    if x in s.rows && s.rows[x].status == Pending {
      OpenAppend(s.inflight, Claim(x, Started(s.rows[x], now)), id, cfg.maxDispatchAttempts);
    }
  }

  lemma {:induction false} ClaimAllPotential(s: State, cfg: Config, ids: seq<OutboxId>, now: int, id: OutboxId)
    ensures var s' := ClaimAll(s, ids, now);
            && Potential(s', cfg, id) == Potential(s, cfg, id)
            && s'.made == s.made && Notes(s') == Notes(s) && s'.rows.Keys == s.rows.Keys
            && (id in ids && id in s.rows && s.rows[id].status == Pending ==> s'.rows[id].status == Processing)
            && (id in s.rows && s.rows[id].status != Pending ==> s'.rows[id] == s.rows[id])
  {
    if ids != [] {
      hide Potential, Notes;
      var last := |ids| - 1;
      ClaimAllPotential(s, cfg, ids[..last], now, id);
      ClaimAllStatus(s, ids, now, id);
      ClaimOnePotential(ClaimAll(s, ids[..last], now), cfg, ids[last], now, id);
    }
  }

  lemma {:induction false} ClaimAllStatus(s: State, ids: seq<OutboxId>, now: int, id: OutboxId)
    ensures var s' := ClaimAll(s, ids, now);
            id in s.rows ==> id in s'.rows && (s'.rows[id] == s.rows[id] || s'.rows[id].status == Processing)
  {
    if ids != [] { ClaimAllStatus(s, ids[..|ids| - 1], now, id); }
  }

  // ---- no step raises made plus potential ----

  /** What a step that does not reset the row can do to it: nothing new, or one fresh
      notification for at least one unit of potential. */
  ghost predicate Spends(s: State, s': State, cfg: Config, id: OutboxId) {
    && id in s'.rows
    && (|| (MadeFor(s', id) == MadeFor(s, id) && Potential(s', cfg, id) <= Potential(s, cfg, id))
        || (exists nid :: nid !in s.notifications && nid in s'.notifications
              && MadeFor(s', id) == MadeFor(s, id) + {nid} && Potential(s', cfg, id) + 1 <= Potential(s, cfg, id)))
  }

  lemma DispatchSpends(s: State, cfg: Config, i: nat, nid: NotificationId, outcome: DispatchOutcome, id: OutboxId)
    requires i < |s.inflight| && ClaimOk(s, cfg, s.inflight[i]) && nid !in s.notifications && id in s.rows
    ensures Spends(s, DispatchOne(s, cfg, i, nid, outcome), cfg, id)
  {
    hide DispatchOne, DropAt, OpenLeft;
    DispatchShape(s, cfg, i, nid, outcome);
    OpenDrop(s.inflight, i, id, cfg.maxDispatchAttempts);
    if s.inflight[i].id == id && outcome != SaveThrew {
      assert nid in DispatchOne(s, cfg, i, nid, outcome).notifications;
    }
  }

  lemma AbandonSpends(s: State, cfg: Config, i: nat, nid: NotificationId, saved: bool, id: OutboxId)
    requires i < |s.inflight| && ClaimOk(s, cfg, s.inflight[i]) && nid !in s.notifications && id in s.rows
    ensures Spends(s, Abandon(s, i, nid, saved), cfg, id)
  {
    hide Abandon, DropAt, OpenLeft;
    AbandonShape(s, i, nid, saved);
    OpenDrop(s.inflight, i, id, cfg.maxDispatchAttempts);
    if s.inflight[i].id == id && saved {
      assert nid in Abandon(s, i, nid, saved).notifications;
    }
  }

  lemma StepSpends(s: State, keyOf: Item -> string, cfg: Config, e: Event, id: OutboxId)
    requires Inv(s, cfg) && id in s.rows && !Resets(s, e, id)
    ensures Spends(s, Step(s, keyOf, cfg, e), cfg, id)
  {
    hide OpenLeft, DispatchOne, Abandon, ClaimAll, RecoverAll, Claimable, AfterDelivery, KeysOk, RowOk, NoteOk;
    match e {
      case Claimed(limit, now) => ClaimAllPotential(s, cfg, Claimable(s, limit), now, id);
      case Recovered(staleBefore) => RecoverAllMade(s, s.order, staleBefore, id);
      case Dispatching(i, nid, outcome) =>
        if i < |s.inflight| && nid !in s.notifications { DispatchSpends(s, cfg, i, nid, outcome, id); }
      case Abandoned(i, nid, saved) =>
        if i < |s.inflight| && nid !in s.notifications { AbandonSpends(s, cfg, i, nid, saved, id); }
      case _ =>
    }
  }

  lemma SpendsCount(s: State, s': State, cfg: Config, id: OutboxId)
    requires Spends(s, s', cfg, id) && MadeOk(s)
    ensures |MadeFor(s', id)| + Potential(s', cfg, id) <= |MadeFor(s, id)| + Potential(s, cfg, id)
  {
    hide Potential;
  }

  lemma {:induction false} NeverRises(s: State, keyOf: Item -> string, cfg: Config, es: seq<Event>, id: OutboxId)
    requires Inv(s, cfg) && ConfigOk(cfg) && id in s.rows && ResetCount(s, keyOf, cfg, es, id) == 0
    ensures var s' := Run(s, keyOf, cfg, es);
            && id in s'.rows
            && |MadeFor(s', id)| + Potential(s', cfg, id) <= |MadeFor(s, id)| + Potential(s, cfg, id)
    decreases |es|
  {
    if es != [] {
      var s1 := Step(s, keyOf, cfg, es[0]);
      assert MadeOk(s);
      hide Step, Inv, Potential, MadeFor, Resets, ConfigOk;
      StepKeeps(s, keyOf, cfg, es[0]);
      StepSpends(s, keyOf, cfg, es[0], id);
      SpendsCount(s, s1, cfg, id);
      NeverRises(s1, keyOf, cfg, es[1..], id);
    }
  }

  // ---- and all of it can be spent ----

  /** Claims, dispatches and deliveries only: nothing here resets a row or recovers a claim. */
  ghost predicate Forward(es: seq<Event>) {
    forall i :: 0 <= i < |es| ==> es[i].Claimed? || es[i].Dispatching? || es[i].Processed?
  }

  lemma {:induction false} ForwardResetsNothing(s: State, keyOf: Item -> string, cfg: Config, es: seq<Event>, id: OutboxId)
    requires Forward(es)
    ensures ResetCount(s, keyOf, cfg, es, id) == 0 && TimelyRun(s, keyOf, cfg, es)
    decreases |es|
  {
    if es != [] {
      hide Step;
      assert es[0].Claimed? || es[0].Dispatching? || es[0].Processed?;
      forall i | 0 <= i < |es[1..]| ensures es[1..][i] == es[i + 1] {}
      ForwardResetsNothing(Step(s, keyOf, cfg, es[0]), keyOf, cfg, es[1..], id);
    }
  }

  /** A notification nobody has tried to deliver. */
  ghost predicate Unsent(s: State, nid: NotificationId) {
    && nid in s.notifications && nid in s.calls && s.calls[nid] == 0
    && s.notifications[nid].status == Queued && !s.notifications[nid].deadLetter && s.notifications[nid].attemptCount == 0
  }

  /** What is there stays as it is, and what the row has gained is unsent. */
  ghost predicate Grows(s: State, s': State, id: OutboxId) {
    && (forall n :: n in s.notifications ==> n in s'.notifications && s'.notifications[n] == s.notifications[n])
    && (forall n :: n in s.notifications && n in s.calls ==> n in s'.calls && s'.calls[n] == s.calls[n])
    && MadeFor(s, id) <= MadeFor(s', id)
    && (forall n :: n in MadeFor(s', id) && n !in MadeFor(s, id) ==> n !in s.notifications && Unsent(s', n))
  }

  lemma GrowsOn(a: State, b: State, c: State, id: OutboxId)
    requires Grows(a, b, id) && Grows(b, c, id)
    ensures Grows(a, c, id)
  {
    forall n | n in MadeFor(c, id) && n !in MadeFor(a, id) ensures n !in a.notifications && Unsent(c, n) {
      if n in MadeFor(b, id) { assert Unsent(b, n); }
    }
  }

  /** The whole batch of pending rows is claimed, id among them. */
  lemma ClaimEverything(s: State, keyOf: Item -> string, cfg: Config, id: OutboxId)
    requires Inv(s, cfg) && id in s.rows && s.rows[id].status == Pending
    ensures var s' := Step(s, keyOf, cfg, Claimed(|s.order| + 1, 0));
            && id in s'.rows && s'.rows[id].status == Processing
            && Potential(s', cfg, id) == Potential(s, cfg, id) && Grows(s, s', id) && MadeFor(s', id) == MadeFor(s, id)
  {
    hide Claimable, ClaimAll, Potential, Inv, Grows, Notes;
    var out := Claimable(s, |s.order| + 1);
    AllClaimable(s, cfg, id);
    ClaimAllPotential(s, cfg, out, 0, id);
    GrowsSame(s, ClaimAll(s, out, 0), id);
  }

  lemma GrowsSame(s: State, s': State, id: OutboxId)
    requires Notes(s') == Notes(s) && MadeFor(s', id) == MadeFor(s, id)
    ensures Grows(s, s', id)
  {
  }

  lemma GrowsByOne(s: State, s': State, c: Claim, nid: NotificationId, id: OutboxId)
    requires nid !in s.notifications && Notes(s') == NotesWith(s, c, nid) && MadeFor(s', id) == MadeFor(s, id) + {nid}
    requires MadeFor(s, id) <= s.notifications.Keys
    ensures Grows(s, s', id)
  {
    forall n | n in s.notifications && n in s.calls ensures n in s'.calls && s'.calls[n] == s.calls[n] {
      assert n != nid;
    }
  }

  lemma AllClaimable(s: State, cfg: Config, id: OutboxId)
    requires Inv(s, cfg) && id in s.rows && s.rows[id].status == Pending
    ensures id in Claimable(s, |s.order| + 1)
  {
    hide Claimable, Inv, Distinct;
    var out := Claimable(s, |s.order| + 1);
    ClaimMeaning(s, cfg, |s.order| + 1, id);
    OrderFacts(s, cfg);
    DistinctCardinality(out);
    DistinctCardinality(s.order);
    assert Elems(out) <= Elems(s.order);
    SubsetCardinality(Elems(out), Elems(s.order));
  }

  lemma OrderFacts(s: State, cfg: Config)
    requires Inv(s, cfg)
    ensures Distinct(s.order) && forall x :: x in s.rows ==> x in s.order
  {
    assert KeysOk(s);
  }

  lemma {:induction false} SomeOpen(claims: seq<Claim>, id: OutboxId, max: nat) returns (i: nat)
    requires OpenLeft(claims, id, max) > 0
    ensures i < |claims| && claims[i].id == id
  {
    i := |claims| - 1;
    if claims[i].id != id { i := SomeOpen(claims[..i], id, max); }
  }

  /** Failing after the notification was saved spends exactly one unit. */
  lemma LateFailure(s: State, keyOf: Item -> string, cfg: Config, i: nat, nid: NotificationId, id: OutboxId)
    requires Inv(s, cfg) && id in s.rows && s.rows[id].status != Pending
    requires i < |s.inflight| && s.inflight[i].id == id && nid !in s.notifications
    ensures var s' := Step(s, keyOf, cfg, Dispatching(i, nid, LaterThrew));
            && id in s'.rows && Potential(s', cfg, id) + 1 == Potential(s, cfg, id)
            && Grows(s, s', id) && MadeFor(s', id) == MadeFor(s, id) + {nid} && nid !in MadeFor(s, id)
  {
    hide DispatchOne, DropAt, OpenLeft, Grows, Notes, NotesWith, Inv;
    ClaimFacts(s, cfg, i, id);
    var s' := DispatchOne(s, cfg, i, nid, LaterThrew);
    DispatchShape(s, cfg, i, nid, LaterThrew);
    OpenDrop(s.inflight, i, id, cfg.maxDispatchAttempts);
    GrowsByOne(s, s', s.inflight[i], nid, id);
  }

  lemma ClaimFacts(s: State, cfg: Config, i: nat, id: OutboxId)
    requires Inv(s, cfg) && i < |s.inflight|
    ensures s.inflight[i].row.attempts < cfg.maxDispatchAttempts && MadeFor(s, id) <= s.notifications.Keys
  {
    assert ClaimOk(s, cfg, s.inflight[i]) && MadeOk(s);
  }

  lemma GrowsNot(s: State, id: OutboxId)
    ensures Grows(s, s, id)
  {
  }

  lemma {:induction false} Exhaust(s: State, keyOf: Item -> string, cfg: Config, id: OutboxId) returns (es: seq<Event>)
    requires Inv(s, cfg) && ConfigOk(cfg) && id in s.rows
    ensures Forward(es)
    ensures var s' := Run(s, keyOf, cfg, es);
            && id in s'.rows && Potential(s', cfg, id) == 0 && Grows(s, s', id)
            && |MadeFor(s', id)| == |MadeFor(s, id)| + Potential(s, cfg, id)
    decreases Potential(s, cfg, id), if s.rows[id].status == Pending then 1 else 0
  {
    hide Step, Inv, Grows, MadeFor, OpenLeft, Claimable, ConfigOk;
    if Potential(s, cfg, id) == 0 {
      es := [];
      GrowsNot(s, id);
    } else {
      var e;
      if s.rows[id].status == Pending {
        e := Claimed(|s.order| + 1, 0);
        ClaimEverything(s, keyOf, cfg, id);
      } else {
        var i := SomeOpen(s.inflight, id, cfg.maxDispatchAttempts);
        var nid := FreshId(s.notifications.Keys);
        e := Dispatching(i, nid, LaterThrew);
        LateFailure(s, keyOf, cfg, i, nid, id);
      }
      var s1 := Step(s, keyOf, cfg, e);
      StepKeeps(s, keyOf, cfg, e);
      var rest := Exhaust(s1, keyOf, cfg, id);
      es := [e] + rest;
      assert es[1..] == rest;
      GrowsOn(s, s1, Run(s1, keyOf, cfg, rest), id);
    }
  }

  /** Exactly this many notifications can still be made before the next reset. */
  lemma MostMade(s: State, keyOf: Item -> string, cfg: Config, id: OutboxId, n: nat)
    requires Inv(s, cfg) && ConfigOk(cfg) && id in s.rows
    ensures (forall es :: ResetCount(s, keyOf, cfg, es, id) == 0 ==> |MadeFor(Run(s, keyOf, cfg, es), id)| <= n)
       <==> |MadeFor(s, id)| + Potential(s, cfg, id) <= n
  {
    if |MadeFor(s, id)| + Potential(s, cfg, id) <= n {
      forall es | ResetCount(s, keyOf, cfg, es, id) == 0 ensures |MadeFor(Run(s, keyOf, cfg, es), id)| <= n {
        NeverRises(s, keyOf, cfg, es, id);
      }
    } else {
      var es := Exhaust(s, keyOf, cfg, id);
      ForwardResetsNothing(s, keyOf, cfg, es, id);
    }
  }

  /** The exact condition for the bound, in any state of any run: every continuation without
      a reset of the row keeps its notifications within maxDispatchAttempts if and only if
      those it has and those its open claims and the row itself can still make are. */
  lemma BoundHoldsIff(keyOf: Item -> string, cfg: Config, es: seq<Event>, id: OutboxId)
    requires ConfigOk(cfg) && id in Run(Empty, keyOf, cfg, es).rows
    ensures var s := Run(Empty, keyOf, cfg, es);
            (forall more :: ResetCount(s, keyOf, cfg, more, id) == 0 ==>
               |MadeFor(Run(s, keyOf, cfg, more), id)| <= cfg.maxDispatchAttempts)
            <==> |MadeFor(s, id)| + Potential(s, cfg, id) <= cfg.maxDispatchAttempts
  {
    ReachableOk(keyOf, cfg, es);
    MostMade(Run(Empty, keyOf, cfg, es), keyOf, cfg, id, cfg.maxDispatchAttempts);
  }

  // ---- timely claims ----

  lemma {:induction false} OpenOnce(claims: seq<Claim>, id: OutboxId, max: nat, i: nat)
    requires forall j, k :: 0 <= j < k < |claims| ==> claims[j].id != claims[k].id
    requires i < |claims| && claims[i].id == id
    ensures OpenLeft(claims, id, max) == Left(max, claims[i].row.attempts)
  {
    var last := |claims| - 1;
    if i < last {
      OpenOnce(claims[..last], id, max, i);
    } else {
      OpenNone(claims[..last], id, max);
    }
  }

  lemma {:induction false} OpenNone(claims: seq<Claim>, id: OutboxId, max: nat)
    requires forall i :: 0 <= i < |claims| ==> claims[i].id != id
    ensures OpenLeft(claims, id, max) == 0
  {
    if claims != [] { OpenNone(claims[..|claims| - 1], id, max); }
  }

  /** A state of a timely run satisfies the condition. */
  lemma ExactWithin(s: State, cfg: Config, id: OutboxId)
    requires Exact(s) && Inv(s, cfg) && id in s.rows
    ensures |MadeFor(s, id)| + Potential(s, cfg, id) <= cfg.maxDispatchAttempts
  {
    assert CountExact(s, id) && RowOk(s.rows[id], cfg, s.notifications);
    hide OpenLeft, KeysOk, NoteOk;
    if InFlight(s, id) {
      var i :| 0 <= i < |s.inflight| && s.inflight[i].id == id;
      assert CopyExact(s.rows, s.inflight[i]);
      OpenOnce(s.inflight, id, cfg.maxDispatchAttempts, i);
    } else {
      OpenNone(s.inflight, id, cfg.maxDispatchAttempts);
    }
  }

  /** After a timely run the bound holds in every continuation, timely or not, until the row
      is next reset. */
  lemma TimelyKeepsTheBound(keyOf: Item -> string, cfg: Config, es: seq<Event>, more: seq<Event>, id: OutboxId)
    requires ConfigOk(cfg) && TimelyRun(Empty, keyOf, cfg, es) && id in Run(Empty, keyOf, cfg, es).rows
    requires ResetCount(Run(Empty, keyOf, cfg, es), keyOf, cfg, more, id) == 0
    ensures |MadeFor(Run(Run(Empty, keyOf, cfg, es), keyOf, cfg, more), id)| <= cfg.maxDispatchAttempts
  {
    var s := Run(Empty, keyOf, cfg, es);
    assert Inv(Empty, cfg) && Exact(Empty);
    RunExact(Empty, keyOf, cfg, es);
    hide Run;
    ExactWithin(s, cfg, id);
    NeverRises(s, keyOf, cfg, more, id);
  }
}
