/** How many provider calls a row can still cause before its next reset, exactly: those owed to
    notifications that are still open, and those its open claims and the row itself can add. */
module OutboxRounds {
  import opened Common
  import opened Outbox
  import opened OutboxInvariants
  import opened OutboxExact
  import opened OutboxRuns
  import opened OutboxPotential

  /** Everything a row has caused: in earlier rounds, and what it has made since. */
  ghost function Caused(s: State, earlier: set<NotificationId>, id: OutboxId): set<NotificationId> { earlier + MadeFor(s, id) }

  /** The calls a notification will have had when its delivery is over, at most. */
  ghost function WorthOf(s: State, cfg: Config, n: NotificationId): nat {
    if n !in s.notifications then 0
    else if Closed(s.notifications[n]) then CallsOf(s, n)
    else cfg.maxAttempts
  }

  ghost function Worth(s: State, cfg: Config, nids: set<NotificationId>): nat {
    Total(map n | n in nids :: WorthOf(s, cfg, n))
  }

  /** The calls still owed to a notification: none once it is sent or dead-lettered. */
  ghost function OwedOf(s: State, cfg: Config, n: NotificationId): nat {
    if n in s.notifications && !Closed(s.notifications[n]) then Left(cfg.maxAttempts, CallsOf(s, n)) else 0
  }

  ghost function Owed(s: State, cfg: Config, nids: set<NotificationId>): nat {
    Total(map n | n in nids :: OwedOf(s, cfg, n))
  }

  lemma WorthIs(s: State, cfg: Config, n: NotificationId)
    requires Inv(s, cfg)
    ensures WorthOf(s, cfg, n) == CallsOf(s, n) + OwedOf(s, cfg, n) && WorthOf(s, cfg, n) <= cfg.maxAttempts
    ensures n in s.notifications ==> (OwedOf(s, cfg, n) == 0 <==> Closed(s.notifications[n]))
  {
    if n in s.notifications { assert NoteOk(s.notifications[n], s.calls[n], cfg); }
  }

  lemma WorthSplits(s: State, cfg: Config, nids: set<NotificationId>)
    requires Inv(s, cfg)
    ensures Worth(s, cfg, nids) == CallsTo(s, nids) + Owed(s, cfg, nids)
  {
    forall n ensures WorthOf(s, cfg, n) == CallsOf(s, n) + OwedOf(s, cfg, n) { WorthIs(s, cfg, n); }
    TotalSum(map n | n in nids :: CallsOf(s, n), map n | n in nids :: OwedOf(s, cfg, n), map n | n in nids :: WorthOf(s, cfg, n));
  }

  // ---- no step adds to it ----

  /** A step leaves a notification alone, or is a delivery of it. */
  lemma StepNote(s: State, keyOf: Item -> string, cfg: Config, e: Event, n: NotificationId)
    requires n in s.notifications && n in s.calls
    ensures var s' := Step(s, keyOf, cfg, e);
            && n in s'.notifications && n in s'.calls
            && (|| (s'.notifications[n] == s.notifications[n] && s'.calls[n] == s.calls[n])
                || (e.Processed? && e.nid == n && IsDue(s.notifications[n], e.now) && s'.calls[n] == s.calls[n] + 1
                    && s'.notifications[n] == AfterDelivery(s.notifications[n], cfg, e.ok, e.now)))
  {
    hide AfterDelivery, AfterFailure, UpdateRow, SaveFor, Claimable, RetryDead, IsDue;
    match e {
      case Enqueued(item, id, now) =>
      case Dispatching(i, row, outcome) =>
        if i < |s.inflight| && row !in s.notifications { DispatchFrame(s, cfg, i, row, outcome, n); }
      case Abandoned(i, row, saved) =>
        if i < |s.inflight| && row !in s.notifications {
          SaveFrame(s.(inflight := DropAt(s.inflight, i)), s.inflight[i], row, n);
        }
      case Retried(id) => RetryFrame(s, id);
      case Claimed(limit, now) => ClaimAllFrame(s, Claimable(s, limit), now);
      case Recovered(staleBefore) => RecoverAllFrame(s, s.order, staleBefore);
      case _ =>
    }
  }

  lemma StepWorth(s: State, keyOf: Item -> string, cfg: Config, e: Event, n: NotificationId)
    requires Inv(s, cfg) && n in s.notifications
    ensures WorthOf(Step(s, keyOf, cfg, e), cfg, n) <= WorthOf(s, cfg, n)
  {
    NoteFacts(s, cfg, n);
    hide Step, Inv, BackoffMs;
    StepNote(s, keyOf, cfg, e, n);
  }

  lemma NoteFacts(s: State, cfg: Config, n: NotificationId)
    requires Inv(s, cfg) && n in s.notifications
    ensures n in s.calls && NoteOk(s.notifications[n], s.calls[n], cfg)
  {
  }

  lemma WorthNeverRises(s: State, keyOf: Item -> string, cfg: Config, e: Event, nids: set<NotificationId>)
    requires Inv(s, cfg) && nids <= s.notifications.Keys
    ensures Worth(Step(s, keyOf, cfg, e), cfg, nids) <= Worth(s, cfg, nids)
  {
    var s' := Step(s, keyOf, cfg, e);
    hide Step, Inv, WorthOf;
    forall n | n in nids ensures WorthOf(s', cfg, n) <= WorthOf(s, cfg, n) { StepWorth(s, keyOf, cfg, e, n); }
    TotalMono(map n | n in nids :: WorthOf(s', cfg, n), map n | n in nids :: WorthOf(s, cfg, n));
  }

  lemma WorthAdd(s: State, cfg: Config, nids: set<NotificationId>, n: NotificationId)
    requires n !in nids
    ensures Worth(s, cfg, nids + {n}) == Worth(s, cfg, nids) + WorthOf(s, cfg, n)
  {
    hide WorthOf;
    var m := map x | x in nids :: WorthOf(s, cfg, x);
    TotalUpdate(m, n, WorthOf(s, cfg, n));
    assert (map x | x in nids + {n} :: WorthOf(s, cfg, x)) == m[n := WorthOf(s, cfg, n)];
  }

  /** All the calls made so far and still to come, at most. */
  ghost function Budget(s: State, cfg: Config, earlier: set<NotificationId>, id: OutboxId): nat {
    Worth(s, cfg, Caused(s, earlier, id)) + Potential(s, cfg, id) * cfg.maxAttempts
  }

  lemma StepBudget(s: State, keyOf: Item -> string, cfg: Config, e: Event, earlier: set<NotificationId>, id: OutboxId)
    requires Inv(s, cfg) && Inv(Step(s, keyOf, cfg, e), cfg) && id in s.rows && !Resets(s, e, id)
    requires earlier <= s.notifications.Keys
    ensures Budget(Step(s, keyOf, cfg, e), cfg, earlier, id) <= Budget(s, cfg, earlier, id)
  {
    hide Step, Inv, Potential, Worth, Resets, MadeFor, Spends;
    var s' := Step(s, keyOf, cfg, e);
    StepSpends(s, keyOf, cfg, e, id);
    MadeFacts(s, cfg, id);
    WorthNeverRises(s, keyOf, cfg, e, Caused(s, earlier, id));
    SpendsBudget(s, s', cfg, earlier, id);
  }

  lemma MadeFacts(s: State, cfg: Config, id: OutboxId)
    requires Inv(s, cfg)
    ensures MadeFor(s, id) <= s.notifications.Keys
  {
    assert MadeOk(s);
  }

  lemma SpendsBudget(s: State, s': State, cfg: Config, earlier: set<NotificationId>, id: OutboxId)
    requires Inv(s', cfg) && Spends(s, s', cfg, id) && Caused(s, earlier, id) <= s.notifications.Keys
    requires Worth(s', cfg, Caused(s, earlier, id)) <= Worth(s, cfg, Caused(s, earlier, id))
    ensures Budget(s', cfg, earlier, id) <= Budget(s, cfg, earlier, id)
  {
    hide Inv, Potential, Worth, WorthOf, MadeFor;
    var all, p, p' := Caused(s, earlier, id), Potential(s, cfg, id), Potential(s', cfg, id);
    if MadeFor(s', id) == MadeFor(s, id) {
      Product(p', p, cfg.maxAttempts);
    } else {
      var nid :| nid !in s.notifications && MadeFor(s', id) == MadeFor(s, id) + {nid} && p' + 1 <= p;
      assert Caused(s', earlier, id) == all + {nid};
      WorthAdd(s', cfg, all, nid);
      WorthIs(s', cfg, nid);
      Product(p' + 1, p, cfg.maxAttempts);
      Distribute(p', cfg.maxAttempts);
    }
  }

  lemma {:induction false} BudgetNeverRises(s: State, keyOf: Item -> string, cfg: Config, es: seq<Event>,
                                            earlier: set<NotificationId>, id: OutboxId)
    requires Inv(s, cfg) && ConfigOk(cfg) && id in s.rows && ResetCount(s, keyOf, cfg, es, id) == 0
    requires earlier <= s.notifications.Keys
    ensures var s' := Run(s, keyOf, cfg, es); Inv(s', cfg) && Budget(s', cfg, earlier, id) <= Budget(s, cfg, earlier, id)
    decreases |es|
  {
    if es != [] {
      hide Step, Inv, Budget, Resets, ConfigOk;
      StepKeeps(s, keyOf, cfg, es[0]);
      StepNotes(s, keyOf, cfg, es[0]);
      StepBudget(s, keyOf, cfg, es[0], earlier, id);
      MadeGrows(s, keyOf, cfg, es[0], id);
      BudgetNeverRises(Step(s, keyOf, cfg, es[0]), keyOf, cfg, es[1..], earlier, id);
    }
  }

  // ---- and all of it can be called in ----

  ghost predicate OnlyDelivers(s: State, s': State) {
    s'.rows == s.rows && s'.inflight == s.inflight && s'.made == s.made && s'.notifications.Keys == s.notifications.Keys
  }

  /** One more failing delivery of an open notification, at a time when it is due. */
  lemma FailOnce(s: State, keyOf: Item -> string, cfg: Config, n: NotificationId) returns (e: Event)
    requires Inv(s, cfg) && n in s.notifications && !Closed(s.notifications[n])
    ensures e.Processed?
    ensures var s' := Step(s, keyOf, cfg, e);
            && OnlyDelivers(s, s') && OwedOf(s', cfg, n) + 1 == OwedOf(s, cfg, n) && WorthOf(s', cfg, n) == cfg.maxAttempts
            && forall x :: x != n ==> CallsOf(s', x) == CallsOf(s, x) && WorthOf(s', cfg, x) == WorthOf(s, cfg, x)
  {
    NoteFacts(s, cfg, n);
    hide Inv, BackoffMs;
    e := Processed(n, false, s.notifications[n].nextAttemptAt.GetOr(0));
    assert IsDue(s.notifications[n], e.now);
    var s' := Step(s, keyOf, cfg, e);
    assert s' == s.(notifications := s.notifications[n := AfterDelivery(s.notifications[n], cfg, false, e.now)],
                    calls := s.calls[n := s.calls[n] + 1]);
  }

  lemma {:induction false} DrainOne(s: State, keyOf: Item -> string, cfg: Config, n: NotificationId) returns (es: seq<Event>)
    requires Inv(s, cfg) && ConfigOk(cfg) && n in s.notifications
    ensures Forward(es)
    ensures var s' := Run(s, keyOf, cfg, es);
            && Inv(s', cfg) && OnlyDelivers(s, s') && CallsOf(s', n) == WorthOf(s, cfg, n) == WorthOf(s', cfg, n)
            && forall x :: x != n ==> CallsOf(s', x) == CallsOf(s, x) && WorthOf(s', cfg, x) == WorthOf(s, cfg, x)
    decreases OwedOf(s, cfg, n)
  {
    hide Step, Inv, OwedOf, WorthOf, CallsOf, ConfigOk;
    WorthIs(s, cfg, n);
    if OwedOf(s, cfg, n) == 0 {
      es := [];
    } else {
      var e := FailOnce(s, keyOf, cfg, n);
      var s1 := Step(s, keyOf, cfg, e);
      StepKeeps(s, keyOf, cfg, e);
      var rest := DrainOne(s1, keyOf, cfg, n);
      OpenWorth(s, cfg, n);
      es := [e] + rest;
      assert es[1..] == rest;
    }
  }

  lemma OpenWorth(s: State, cfg: Config, n: NotificationId)
    requires n in s.notifications && !Closed(s.notifications[n])
    ensures WorthOf(s, cfg, n) == cfg.maxAttempts
  {
  }

  lemma {:induction false} DrainAll(s: State, keyOf: Item -> string, cfg: Config, nids: set<NotificationId>) returns (es: seq<Event>)
    requires Inv(s, cfg) && ConfigOk(cfg) && nids <= s.notifications.Keys
    ensures Forward(es)
    ensures var s' := Run(s, keyOf, cfg, es);
            && OnlyDelivers(s, s')
            && (forall n :: n in nids ==> CallsOf(s', n) == WorthOf(s, cfg, n))
            && (forall n :: n !in nids ==> CallsOf(s', n) == CallsOf(s, n))
    decreases |nids|
  {
    hide Step, Run, Inv, WorthOf, CallsOf, ConfigOk;
    if nids == {} {
      es := [];
      NoSteps(s, keyOf, cfg);
    } else {
      var n :| n in nids;
      var first := DrainOne(s, keyOf, cfg, n);
      var s1 := Run(s, keyOf, cfg, first);
      var rest := DrainAll(s1, keyOf, cfg, nids - {n});
      es := first + rest;
      RunConcat(s, keyOf, cfg, first, rest);
    }
  }

  /** After the row has made all it can, what is there to be called has grown accordingly. */
  lemma ExhaustedWorth(s: State, s': State, cfg: Config, earlier: set<NotificationId>, id: OutboxId)
    requires Inv(s, cfg) && Inv(s', cfg) && earlier <= s.notifications.Keys && Grows(s, s', id)
    requires |MadeFor(s', id)| == |MadeFor(s, id)| + Potential(s, cfg, id)
    ensures Worth(s', cfg, Caused(s', earlier, id)) == Budget(s, cfg, earlier, id)
  {
    hide Inv, Potential, Worth, WorthOf, MadeFor;
    MadeFacts(s, cfg, id);
    var all, more := Caused(s, earlier, id), MadeFor(s', id) - MadeFor(s, id);
    assert MadeFor(s', id) == MadeFor(s, id) + more;
    assert Caused(s', earlier, id) == all + more;
    assert all !! more;
    forall n | n in all ensures WorthOf(s', cfg, n) == WorthOf(s, cfg, n) { SameWorth(s, s', cfg, n, id); }
    assert Worth(s', cfg, all) == Worth(s, cfg, all) by { SameTotal(s, s', cfg, all); }
    forall n | n in more ensures WorthOf(s', cfg, n) == cfg.maxAttempts { UnsentWorth(s', cfg, n); }
    WorthOfUnsent(s', cfg, all, more);
  }

  lemma SameWorth(s: State, s': State, cfg: Config, n: NotificationId, id: OutboxId)
    requires Inv(s, cfg) && n in s.notifications && Grows(s, s', id)
    ensures WorthOf(s', cfg, n) == WorthOf(s, cfg, n)
  {
    NoteFacts(s, cfg, n);
    hide Inv;
  }

  lemma SameTotal(s: State, s': State, cfg: Config, nids: set<NotificationId>)
    requires forall n :: n in nids ==> WorthOf(s', cfg, n) == WorthOf(s, cfg, n)
    ensures Worth(s', cfg, nids) == Worth(s, cfg, nids)
  {
    assert (map n | n in nids :: WorthOf(s', cfg, n)) == (map n | n in nids :: WorthOf(s, cfg, n));
  }

  lemma UnsentWorth(s: State, cfg: Config, n: NotificationId)
    requires Unsent(s, n)
    ensures WorthOf(s, cfg, n) == cfg.maxAttempts
  {
  }

  lemma {:induction false} WorthOfUnsent(s: State, cfg: Config, all: set<NotificationId>, more: set<NotificationId>)
    requires all !! more && forall n :: n in more ==> WorthOf(s, cfg, n) == cfg.maxAttempts
    ensures Worth(s, cfg, all + more) == Worth(s, cfg, all) + |more| * cfg.maxAttempts
    decreases |more|
  {
    hide Worth, WorthOf;
    if more == {} {
      assert all + more == all;
    } else {
      var n :| n in more;
      var rest := more - {n};
      WorthOfUnsent(s, cfg, all, rest);
      WorthAdd(s, cfg, all + rest, n);
      assert all + more == all + rest + {n};
      Distribute(|rest|, cfg.maxAttempts);
    }
  }

  /** A run without a reset in which everything is called in. */
  lemma CallIn(s: State, keyOf: Item -> string, cfg: Config, earlier: set<NotificationId>, id: OutboxId) returns (es: seq<Event>)
    requires Inv(s, cfg) && ConfigOk(cfg) && id in s.rows && earlier <= s.notifications.Keys
    ensures ResetCount(s, keyOf, cfg, es, id) == 0
    ensures var s' := Run(s, keyOf, cfg, es); CallsTo(s', Caused(s', earlier, id)) == Budget(s, cfg, earlier, id)
  {
    hide Step, Inv, Run, Worth, Potential, CallsOf, WorthOf, ConfigOk;
    var first := Exhaust(s, keyOf, cfg, id);
    var s1 := Run(s, keyOf, cfg, first);
    RunKeeps(s, keyOf, cfg, first);
    ExhaustedWorth(s, s1, cfg, earlier, id);
    MadeFacts(s1, cfg, id);
    var all := Caused(s1, earlier, id);
    var rest := DrainAll(s1, keyOf, cfg, all);
    es := first + rest;
    RunConcat(s, keyOf, cfg, first, rest);
    ForwardResetsNothing(s, keyOf, cfg, es, id);
    Called(s1, Run(s1, keyOf, cfg, rest), cfg, all);
  }

  lemma Called(s: State, s': State, cfg: Config, nids: set<NotificationId>)
    requires forall n :: n in nids ==> CallsOf(s', n) == WorthOf(s, cfg, n)
    ensures CallsTo(s', nids) == Worth(s, cfg, nids)
  {
    assert (map n | n in nids :: CallsOf(s', n)) == (map n | n in nids :: WorthOf(s, cfg, n));
  }

  /** The most a row can still cost: the calls made for everything it ever caused rise by at
      most k in every continuation without a reset if and only if what is owed to its open
      notifications, and maxAttempts for each notification it can still make, come to at
      most k. */
  lemma MostCalls(s: State, keyOf: Item -> string, cfg: Config, earlier: set<NotificationId>, id: OutboxId, k: nat)
    requires Inv(s, cfg) && ConfigOk(cfg) && id in s.rows && earlier <= s.notifications.Keys
    ensures (forall es :: ResetCount(s, keyOf, cfg, es, id) == 0 ==> CallsSince(s, Run(s, keyOf, cfg, es), earlier, id) <= k)
       <==> Owed(s, cfg, Caused(s, earlier, id)) + Potential(s, cfg, id) * cfg.maxAttempts <= k
  {
    hide Inv, Run, Worth, Potential, Owed, CallsTo, ConfigOk, ResetCount;
    WorthSplits(s, cfg, Caused(s, earlier, id));
    if Owed(s, cfg, Caused(s, earlier, id)) + Potential(s, cfg, id) * cfg.maxAttempts <= k {
      forall es | ResetCount(s, keyOf, cfg, es, id) == 0 ensures CallsSince(s, Run(s, keyOf, cfg, es), earlier, id) <= k {
        var s' := Run(s, keyOf, cfg, es);
        BudgetNeverRises(s, keyOf, cfg, es, earlier, id);
        WorthSplits(s', cfg, Caused(s', earlier, id));
        NonNegative(Potential(s', cfg, id), cfg.maxAttempts);
      }
    } else {
      var es := CallIn(s, keyOf, cfg, earlier, id);
    }
  }

  lemma NonNegative(a: nat, b: nat)
    ensures a * b >= 0
  {
  }

  ghost function CallsSince(s: State, s': State, earlier: set<NotificationId>, id: OutboxId): int {
    CallsTo(s', Caused(s', earlier, id)) - CallsTo(s, Caused(s, earlier, id))
  }

  // ---- after an operator's retry ----

  lemma RetryState(s: State, cfg: Config, id: OutboxId)
    requires Inv(s, cfg) && RetryDead(s, id).Ok?
    ensures var s' := RetryDead(s, id).value;
            && id in s'.rows && MadeFor(s', id) == {} && Notes(s') == Notes(s)
            && Potential(s', cfg, id) == OpenLeft(s.inflight, id, cfg.maxDispatchAttempts) + cfg.maxDispatchAttempts
            && (OpenLeft(s.inflight, id, cfg.maxDispatchAttempts) == 0 <==> !InFlight(s, id))
  {
    hide OpenLeft, KeysOk, RowOk, NoteOk;
    forall i | 0 <= i < |s.inflight| ensures s.inflight[i].row.attempts < cfg.maxDispatchAttempts {
      assert ClaimOk(s, cfg, s.inflight[i]);
    }
    OpenZero(s.inflight, id, cfg.maxDispatchAttempts);
  }

  lemma OwedZero(s: State, cfg: Config, nids: set<NotificationId>)
    requires Inv(s, cfg) && nids <= s.notifications.Keys
    ensures Owed(s, cfg, nids) == 0 <==> forall n :: n in nids ==> Closed(s.notifications[n])
  {
    var m := map n | n in nids :: OwedOf(s, cfg, n);
    TotalZero(m);
    forall n | n in nids ensures OwedOf(s, cfg, n) == 0 <==> Closed(s.notifications[n]) { WorthIs(s, cfg, n); }
    hide Inv, OwedOf, Closed;
    assert forall n :: n in nids ==> m[n] == OwedOf(s, cfg, n);
  }

  /** What an operator can check before retrying a dead row, in any state of any run: until
      the next reset of the row, the calls made for everything it ever caused stay within
      maxDispatchAttempts * maxAttempts if and only if no claim on it is still open and every
      notification it has caused so far is sent or dead-lettered. */
  lemma RetryBoundIff(keyOf: Item -> string, cfg: Config, es: seq<Event>, id: OutboxId)
    requires ConfigOk(cfg) && RetryDead(Run(Empty, keyOf, cfg, es), id).Ok?
    ensures var s := Run(Empty, keyOf, cfg, es);
            var earlier := EverMade(Empty, keyOf, cfg, es, id);
            var s' := RetryDead(s, id).value;
            && earlier <= s.notifications.Keys
            && ((forall more :: ResetCount(s', keyOf, cfg, more, id) == 0 ==>
                   CallsSince(s', Run(s', keyOf, cfg, more), earlier, id) <= cfg.maxDispatchAttempts * cfg.maxAttempts)
                <==> !InFlight(s, id) && forall n :: n in earlier ==> Closed(s.notifications[n]))
  {
    assert Inv(Empty, cfg);
    hide Inv, Run, Potential, Owed, OpenLeft, Closed, MadeFor, InFlight, EverMade;
    EverMadeExist(Empty, keyOf, cfg, es, id);
    ReachableOk(keyOf, cfg, es);
    var s := Run(Empty, keyOf, cfg, es);
    var earlier := EverMade(Empty, keyOf, cfg, es, id);
    RetryBound(s, keyOf, cfg, earlier, id);
  }

  lemma RetryBound(s: State, keyOf: Item -> string, cfg: Config, earlier: set<NotificationId>, id: OutboxId)
    requires Inv(s, cfg) && ConfigOk(cfg) && RetryDead(s, id).Ok? && earlier <= s.notifications.Keys
    ensures var s' := RetryDead(s, id).value;
            (forall more :: ResetCount(s', keyOf, cfg, more, id) == 0 ==>
               CallsSince(s', Run(s', keyOf, cfg, more), earlier, id) <= cfg.maxDispatchAttempts * cfg.maxAttempts)
            <==> !InFlight(s, id) && forall n :: n in earlier ==> Closed(s.notifications[n])
  {
    hide Inv, Run, Potential, Owed, OpenLeft, Closed, MadeFor, InFlight, CallsSince;
    var s' := RetryDead(s, id).value;
    RetryState(s, cfg, id);
    RetryKeeps(s, cfg, id);
    assert Caused(s', earlier, id) == earlier;
    OwedZero(s', cfg, earlier);
    MostCalls(s', keyOf, cfg, earlier, id, cfg.maxDispatchAttempts * cfg.maxAttempts);
    Within(Owed(s', cfg, earlier), OpenLeft(s.inflight, id, cfg.maxDispatchAttempts), cfg.maxDispatchAttempts, cfg.maxAttempts);
  }

  lemma Within(owed: nat, open: nat, max: nat, each: nat)
    requires each >= 1
    ensures owed + (open + max) * each <= max * each <==> owed == 0 && open == 0
  {
    assert (open + max) * each == open * each + max * each;
    if open > 0 { assert open * each >= 1; }
  }
}
