/** When the provider is called: what one answer does to a notification, and how far apart the
    calls for one notification are over a whole run. */
module OutboxDelays {
  import opened Common
  import opened Outbox
  import opened OutboxInvariants
  import opened OutboxExact
  import opened OutboxRuns
  import opened OutboxRounds

  /** The wait after the k-th failure. */
  ghost function Delay(cfg: Config, k: nat): int { Min(cfg.maxBackoff, cfg.initialBackoff * Pow2(k)) }

  /** The first two waits, and how they go on: twice the last one, up to the cap. */
  lemma DelayValues(cfg: Config, k: nat)
    ensures Delay(cfg, 1) == Min(cfg.maxBackoff, 2 * cfg.initialBackoff)
    ensures Delay(cfg, k + 1) == Min(cfg.maxBackoff, 2 * (cfg.initialBackoff * Pow2(k)))
    ensures Delay(cfg, k) <= Delay(cfg, k + 1) <= cfg.maxBackoff
  {
    assert Pow2(1) == 2 && Pow2(k + 1) == 2 * Pow2(k);
    assert cfg.initialBackoff * (2 * Pow2(k)) == 2 * (cfg.initialBackoff * Pow2(k));
    assert cfg.initialBackoff * Pow2(k) >= 0;
  }

  /** The event calls the provider for the notification. */
  ghost predicate Calls(s: State, keyOf: Item -> string, cfg: Config, e: Event, n: NotificationId) {
    e.Processed? && e.nid == n && n in s.notifications && CallsOf(Step(s, keyOf, cfg, e), n) != CallsOf(s, n)
  }

  /** The provider is called exactly for a notification that is neither sent nor dead-lettered,
      and whose retry time, if it has one, has come. */
  lemma CalledIff(s: State, keyOf: Item -> string, cfg: Config, n: NotificationId, ok: bool, now: int)
    requires Inv(s, cfg) && n in s.notifications
    ensures var x := s.notifications[n];
            var ready := !x.deadLetter && (x.status == Queued || (x.status == RetryScheduled && (x.nextAttemptAt == None || x.nextAttemptAt.value <= now)));
            && (Calls(s, keyOf, cfg, Processed(n, ok, now), n) <==> ready)
            && CallsOf(Step(s, keyOf, cfg, Processed(n, ok, now)), n) == CallsOf(s, n) + if ready then 1 else 0
  {
    NoteFacts(s, cfg, n);
    hide Inv, AfterDelivery;
  }

  /** And it is listed for delivery only then; with room in the batch, exactly then. */
  lemma ListedIff(s: State, cfg: Config, n: NotificationId, now: int, limit: nat)
    requires Inv(s, cfg)
    ensures var ready := n in s.notifications && !s.notifications[n].deadLetter
                         && (s.notifications[n].status == Queued
                             || (s.notifications[n].status == RetryScheduled
                                 && (s.notifications[n].nextAttemptAt == None || s.notifications[n].nextAttemptAt.value <= now)));
            && (n in Due(s, now, limit) ==> ready)
            && (ready && |Due(s, now, limit)| < limit ==> n in Due(s, now, limit))
  {
    DueMeaning(s, cfg, now, limit, n);
    hide Inv, Due;
  }

  /** A notification before and after an answer. */
  ghost predicate Answered(x: Notification, y: Notification, cfg: Config, ok: bool, now: int) {
    && y.item == x.item && y.createdAt == x.createdAt
    && (ok ==> y.status == Sent && y.attemptCount == x.attemptCount && !y.deadLetter)
    && (!ok ==> y.attemptCount == x.attemptCount + 1)
    && (!ok && x.attemptCount + 1 == cfg.maxAttempts ==> y.status == Failed && y.deadLetter)
    && (!ok && x.attemptCount + 1 != cfg.maxAttempts ==>
          y.status == RetryScheduled && !y.deadLetter && y.nextAttemptAt == Some(now + Delay(cfg, x.attemptCount + 1)))
  }

  /** What an answer does: a success ends it; a failure counts, and ends it in the dead letter
      box exactly when it is the maxAttempts-th, else sets the next time to now plus the wait
      for this many failures. Everything else of the notification stays. */
  lemma AnswerMeaning(s: State, keyOf: Item -> string, cfg: Config, n: NotificationId, ok: bool, now: int)
    requires Inv(s, cfg) && Calls(s, keyOf, cfg, Processed(n, ok, now), n)
    ensures var x := s.notifications[n]; var s' := Step(s, keyOf, cfg, Processed(n, ok, now));
            && n in s'.notifications
            && Answered(x, s'.notifications[n], cfg, ok, now)
            && (forall m :: m in s.notifications && m != n ==> m in s'.notifications && s'.notifications[m] == s.notifications[m])
            && s'.rows == s.rows && s'.inflight == s.inflight && s'.made == s.made
  {
    NoteFacts(s, cfg, n);
    hide Inv;
  }

  // ---- one failure and what follows ----

  /** Failed k times, the last time at t, and still to be tried again. */
  ghost predicate Waits(s: State, cfg: Config, n: NotificationId, k: nat, t: int) {
    && n in s.notifications && n in s.calls && s.notifications[n].status == RetryScheduled && !s.notifications[n].deadLetter
    && s.notifications[n].attemptCount == k && s.notifications[n].nextAttemptAt == Some(t + Delay(cfg, k))
  }

  lemma StepWaits(s: State, keyOf: Item -> string, cfg: Config, e: Event, n: NotificationId, k: nat, t: int)
    requires Inv(s, cfg) && Waits(s, cfg, n, k, t)
    ensures !Calls(s, keyOf, cfg, e, n) ==> Waits(Step(s, keyOf, cfg, e), cfg, n, k, t)
    ensures Calls(s, keyOf, cfg, e, n) ==> e.now >= t + Delay(cfg, k)
  {
    StepNote(s, keyOf, cfg, e, n);
    if e.Processed? && e.nid == n { CalledIff(s, keyOf, cfg, n, e.ok, e.now); }
    hide Step, Inv, Delay, AfterDelivery;
  }

  /** Between two calls for a notification nothing changes it. */
  lemma {:induction false} RunWaits(s: State, keyOf: Item -> string, cfg: Config, es: seq<Event>, n: NotificationId, k: nat, t: int)
    requires Inv(s, cfg) && ConfigOk(cfg) && Waits(s, cfg, n, k, t) && CallTimes(s, keyOf, cfg, es, n) == []
    ensures Inv(Run(s, keyOf, cfg, es), cfg) && Waits(Run(s, keyOf, cfg, es), cfg, n, k, t)
    decreases |es|
  {
    if es != [] {
      hide Step, Inv, Waits, Calls, ConfigOk;
      StepKeeps(s, keyOf, cfg, es[0]);
      StepWaits(s, keyOf, cfg, es[0], n, k, t);
      RunWaits(Step(s, keyOf, cfg, es[0]), keyOf, cfg, es[1..], n, k, t);
    }
  }

  /** After a failed call at t that was not the last: until the next call, in every
      continuation, it is neither listed nor called for before t plus the wait, and from then
      on it is called for whenever its turn comes. */
  lemma RetryWaits(s: State, keyOf: Item -> string, cfg: Config, n: NotificationId, t: int, more: seq<Event>,
                   ok: bool, now: int, limit: nat)
    requires Inv(s, cfg) && ConfigOk(cfg) && Calls(s, keyOf, cfg, Processed(n, false, t), n)
    requires s.notifications[n].attemptCount + 1 < cfg.maxAttempts
    requires CallTimes(Step(s, keyOf, cfg, Processed(n, false, t)), keyOf, cfg, more, n) == []
    ensures var next := t + Delay(cfg, s.notifications[n].attemptCount + 1);
            var s' := Run(Step(s, keyOf, cfg, Processed(n, false, t)), keyOf, cfg, more);
            && (now < next ==> n !in Due(s', now, limit) && !Calls(s', keyOf, cfg, Processed(n, ok, now), n))
            && (now >= next ==> Calls(s', keyOf, cfg, Processed(n, ok, now), n)
                                && (|Due(s', now, limit)| < limit ==> n in Due(s', now, limit)))
  {
    var e := Processed(n, false, t);
    var k := s.notifications[n].attemptCount + 1;
    AnswerMeaning(s, keyOf, cfg, n, false, t);
    StepNote2(s, keyOf, cfg, e, n);
    StepKeeps(s, keyOf, cfg, e);
    hide Step, Inv, Calls, Due, Run, ConfigOk, Delay;
    RunWaits(Step(s, keyOf, cfg, e), keyOf, cfg, more, n, k, t);
    var s' := Run(Step(s, keyOf, cfg, e), keyOf, cfg, more);
    CalledIff(s', keyOf, cfg, n, ok, now);
    ListedIff(s', cfg, n, now, limit);
  }

  lemma StepNote2(s: State, keyOf: Item -> string, cfg: Config, e: Event, n: NotificationId)
    requires Inv(s, cfg) && n in s.notifications
    ensures var s' := Step(s, keyOf, cfg, e); n in s'.notifications && n in s'.calls
  {
    NoteFacts(s, cfg, n);
    hide Inv, Step;
    StepNote(s, keyOf, cfg, e, n);
  }

  // ---- all the calls of a run ----

  /** The times at which the provider is called for a notification. */
  ghost function CallTimes(s: State, keyOf: Item -> string, cfg: Config, es: seq<Event>, n: NotificationId): seq<int>
    decreases |es|
  {
    if es == [] then []
    else (if Calls(s, keyOf, cfg, es[0], n) then [es[0].now] else []) + CallTimes(Step(s, keyOf, cfg, es[0]), keyOf, cfg, es[1..], n)
  }

  /** Each call comes no sooner than the wait after the failures before it. */
  ghost predicate Spaced(times: seq<int>, cfg: Config, k: nat) {
    forall i :: 0 <= i < |times| - 1 ==> Gap(times, cfg, k, i)
  }

  ghost predicate Gap(times: seq<int>, cfg: Config, k: nat, i: nat)
    requires i + 1 < |times|
  {
    times[i + 1] >= times[i] + Delay(cfg, k + i + 1)
  }

  lemma SpacedCons(t: int, rest: seq<int>, cfg: Config, k: nat)
    requires Spaced(rest, cfg, k + 1) && (rest != [] ==> rest[0] >= t + Delay(cfg, k + 1))
    ensures Spaced([t] + rest, cfg, k)
  {
    hide Delay;
    var all := [t] + rest;
    forall i | 0 <= i < |all| - 1 ensures Gap(all, cfg, k, i) {
      if i > 0 { assert Gap(rest, cfg, k + 1, i - 1); }
    }
  }

  lemma {:induction false} ClosedNoCalls(s: State, keyOf: Item -> string, cfg: Config, es: seq<Event>, n: NotificationId)
    requires Inv(s, cfg) && ConfigOk(cfg) && n in s.notifications && Closed(s.notifications[n])
    ensures CallTimes(s, keyOf, cfg, es, n) == []
    decreases |es|
  {
    if es != [] {
      NoteFacts(s, cfg, n);
      hide Step, Inv, ConfigOk;
      StepKeeps(s, keyOf, cfg, es[0]);
      ClosedStep(s, keyOf, cfg, es[0], n);
      ClosedNoCalls(Step(s, keyOf, cfg, es[0]), keyOf, cfg, es[1..], n);
    }
  }

  /** A call by a notification that has failed k times so far: what is left is spaced from it. */
  lemma AfterCall(s: State, keyOf: Item -> string, cfg: Config, e: Event, n: NotificationId)
    requires Inv(s, cfg) && ConfigOk(cfg) && Calls(s, keyOf, cfg, e, n)
    ensures var s' := Step(s, keyOf, cfg, e);
            && n in s'.notifications
            && (Closed(s'.notifications[n]) || Waits(s', cfg, n, s.notifications[n].attemptCount + 1, e.now))
  {
    AnswerMeaning(s, keyOf, cfg, n, e.ok, e.now);
    StepNote2(s, keyOf, cfg, e, n);
    hide Step, Inv, Calls, Delay;
  }

  lemma CallTimesCons(s: State, keyOf: Item -> string, cfg: Config, es: seq<Event>, n: NotificationId)
    requires es != []
    ensures var rest := CallTimes(Step(s, keyOf, cfg, es[0]), keyOf, cfg, es[1..], n);
            && (Calls(s, keyOf, cfg, es[0], n) ==> CallTimes(s, keyOf, cfg, es, n) == [es[0].now] + rest)
            && (!Calls(s, keyOf, cfg, es[0], n) ==> CallTimes(s, keyOf, cfg, es, n) == rest)
  {
    hide Step;
  }

  lemma NoTimes(s: State, keyOf: Item -> string, cfg: Config, n: NotificationId, k: nat)
    ensures CallTimes(s, keyOf, cfg, [], n) == [] && Spaced([], cfg, k)
  {
  }

  lemma {:induction false} SpacedAfter(s: State, keyOf: Item -> string, cfg: Config, es: seq<Event>, n: NotificationId, k: nat, t: int)
    requires Inv(s, cfg) && ConfigOk(cfg) && Waits(s, cfg, n, k, t)
    ensures var times := CallTimes(s, keyOf, cfg, es, n);
            Spaced(times, cfg, k) && (times != [] ==> times[0] >= t + Delay(cfg, k))
    decreases |es|, 0
  {
    hide Step, Inv, Calls, Delay, Waits, ConfigOk, Spaced, CallTimes;
    if es != [] {
      WaitsIs(s, cfg, n, k, t);
      CallTimesCons(s, keyOf, cfg, es, n);
      var s1 := Step(s, keyOf, cfg, es[0]);
      StepKeeps(s, keyOf, cfg, es[0]);
      StepWaits(s, keyOf, cfg, es[0], n, k, t);
      if Calls(s, keyOf, cfg, es[0], n) {
        CallsIs(s, keyOf, cfg, es[0], n);
        AfterCall(s, keyOf, cfg, es[0], n);
        Rest(s1, keyOf, cfg, es[1..], n, k, es[0].now);
      } else {
        SpacedAfter(s1, keyOf, cfg, es[1..], n, k, t);
      }
    } else {
      NoTimes(s, keyOf, cfg, n, k);
    }
  }

  lemma WaitsIs(s: State, cfg: Config, n: NotificationId, k: nat, t: int)
    requires Waits(s, cfg, n, k, t)
    ensures n in s.notifications && s.notifications[n].attemptCount == k
  {
  }

  lemma CallsIs(s: State, keyOf: Item -> string, cfg: Config, e: Event, n: NotificationId)
    requires Calls(s, keyOf, cfg, e, n)
    ensures e.Processed? && n in s.notifications
  {
  }

  lemma {:induction false} Rest(s: State, keyOf: Item -> string, cfg: Config, es: seq<Event>, n: NotificationId, k: nat, t: int)
    requires Inv(s, cfg) && ConfigOk(cfg) && n in s.notifications && (Closed(s.notifications[n]) || Waits(s, cfg, n, k + 1, t))
    ensures Spaced([t] + CallTimes(s, keyOf, cfg, es, n), cfg, k)
    decreases |es|, 1
  {
    hide Inv, Waits, ConfigOk, Delay;
    if Closed(s.notifications[n]) {
      ClosedNoCalls(s, keyOf, cfg, es, n);
    } else {
      SpacedAfter(s, keyOf, cfg, es, n, k + 1, t);
    }
    SpacedCons(t, CallTimes(s, keyOf, cfg, es, n), cfg, k);
  }

  /** Not yet there, or there and not yet called for. */
  ghost predicate Untried(s: State, n: NotificationId) {
    n in s.notifications ==>
      n in s.calls && s.notifications[n].status == Queued && s.notifications[n].attemptCount == 0 && !s.notifications[n].deadLetter
  }

  lemma StepUntried(s: State, keyOf: Item -> string, cfg: Config, e: Event, n: NotificationId)
    requires Untried(s, n) && !Calls(s, keyOf, cfg, e, n)
    ensures Untried(Step(s, keyOf, cfg, e), n)
  {
    if n in s.notifications {
      StepNote(s, keyOf, cfg, e, n);
      hide Step, AfterDelivery;
    } else {
      StepBorn(s, keyOf, cfg, e, n);
    }
  }

  lemma StepBorn(s: State, keyOf: Item -> string, cfg: Config, e: Event, n: NotificationId)
    requires n !in s.notifications
    ensures Untried(Step(s, keyOf, cfg, e), n)
  {
    hide AfterDelivery, AfterFailure, Claimable, DispatchOne, Abandon, DropAt;
    match e {
      case Claimed(limit, now) => ClaimAllFrame(s, Claimable(s, limit), now);
      case Recovered(staleBefore) => RecoverAllFrame(s, s.order, staleBefore);
      case Dispatching(i, nid, outcome) => if i < |s.inflight| { DispatchShape(s, cfg, i, nid, outcome); }
      case Abandoned(i, nid, saved) => if i < |s.inflight| { AbandonShape(s, i, nid, saved); }
      case _ =>
    }
  }

  lemma UntriedIs(s: State, n: NotificationId)
    requires Untried(s, n)
    ensures n in s.notifications ==> s.notifications[n].attemptCount == 0
  {
  }

  lemma {:induction false} SpacedFrom(s: State, keyOf: Item -> string, cfg: Config, es: seq<Event>, n: NotificationId)
    requires Inv(s, cfg) && ConfigOk(cfg) && Untried(s, n)
    ensures Spaced(CallTimes(s, keyOf, cfg, es, n), cfg, 0)
    decreases |es|
  {
    hide Step, Inv, Calls, Delay, Waits, ConfigOk, Spaced, Untried, CallTimes;
    if es != [] {
      UntriedIs(s, n);
      CallTimesCons(s, keyOf, cfg, es, n);
      var s1 := Step(s, keyOf, cfg, es[0]);
      StepKeeps(s, keyOf, cfg, es[0]);
      if Calls(s, keyOf, cfg, es[0], n) {
        CallsIs(s, keyOf, cfg, es[0], n);
        AfterCall(s, keyOf, cfg, es[0], n);
        Rest(s1, keyOf, cfg, es[1..], n, 0, es[0].now);
      } else {
        StepUntried(s, keyOf, cfg, es[0], n);
        SpacedFrom(s1, keyOf, cfg, es[1..], n);
      }
    } else {
      NoTimes(s, keyOf, cfg, n, 0);
    }
  }

  /** In every run, the calls for one notification lie at least these growing distances apart:
      between its i-th call and the next, min(maxBackoff, initialBackoff * 2^i). */
  lemma CallsAreSpaced(keyOf: Item -> string, cfg: Config, es: seq<Event>, n: NotificationId, i: nat)
    requires ConfigOk(cfg) && 1 <= i < |CallTimes(Empty, keyOf, cfg, es, n)|
    ensures var times := CallTimes(Empty, keyOf, cfg, es, n);
            times[i] >= times[i - 1] + Min(cfg.maxBackoff, cfg.initialBackoff * Pow2(i))
  {
    EmptyOk(cfg);
    hide Inv, Step;
    SpacedFrom(Empty, keyOf, cfg, es, n);
    assert Gap(CallTimes(Empty, keyOf, cfg, es, n), cfg, 0, i - 1);
  }

  /** These are all its calls. */
  lemma {:induction false} CallTimesAreAll(s: State, keyOf: Item -> string, cfg: Config, es: seq<Event>, n: NotificationId)
    requires Inv(s, cfg) && ConfigOk(cfg)
    ensures CallsOf(Run(s, keyOf, cfg, es), n) == CallsOf(s, n) + |CallTimes(s, keyOf, cfg, es, n)|
    decreases |es|
  {
    if es != [] {
      StepCallCount(s, keyOf, cfg, es[0], n);
      hide Step, Inv, Calls, CallsOf, ConfigOk;
      StepKeeps(s, keyOf, cfg, es[0]);
      CallTimesAreAll(Step(s, keyOf, cfg, es[0]), keyOf, cfg, es[1..], n);
    }
  }

  lemma StepCallCount(s: State, keyOf: Item -> string, cfg: Config, e: Event, n: NotificationId)
    requires Inv(s, cfg)
    ensures CallsOf(Step(s, keyOf, cfg, e), n) == CallsOf(s, n) + if Calls(s, keyOf, cfg, e, n) then 1 else 0
  {
    if n in s.notifications {
      NoteFacts(s, cfg, n);
      hide Step, Inv;
      StepNote(s, keyOf, cfg, e, n);
    } else {
      StepBornCalls(s, keyOf, cfg, e, n);
    }
  }

  lemma StepBornCalls(s: State, keyOf: Item -> string, cfg: Config, e: Event, n: NotificationId)
    requires n !in s.notifications
    ensures CallsOf(Step(s, keyOf, cfg, e), n) == 0
  {
    hide AfterDelivery, AfterFailure, Claimable, DispatchOne, Abandon, DropAt;
    match e {
      case Claimed(limit, now) => ClaimAllFrame(s, Claimable(s, limit), now);
      case Recovered(staleBefore) => RecoverAllFrame(s, s.order, staleBefore);
      case Dispatching(i, nid, outcome) => if i < |s.inflight| { DispatchShape(s, cfg, i, nid, outcome); }
      case Abandoned(i, nid, saved) => if i < |s.inflight| { AbandonShape(s, i, nid, saved); }
      case _ =>
    }
  }
}
