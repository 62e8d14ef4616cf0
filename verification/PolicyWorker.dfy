/** The transaction policy worker: it turns overdue rows into jobs, claims jobs under a lease
    and probes the ledger, giving up after a budget of misses. Ticks may overlap. */
module PolicyWorker {
  import opened Common
  import T = TxTracking
  import J = DelayedJobs

  type Hash = T.Hash

  const KIND := "xrpl_tx_policy_probe"

  datatype Config = Config(intervalMs: nat, pendingTimeoutMs: int, batchSize: nat, maxNotFoundProbes: int,
                           lockTtlMs: int, maxBackoffMs: nat, accountBackfillPerTick: nat)

  function PolicyJobId(h: Hash): J.JobId { "xrpl_policy:" + h }

  // ---- backoff ----

  function Doubled(base: nat, n: nat): nat { base * Pow2(n) }

  function Backoff(base: nat, maxBackoff: nat, nextAttempts: int): nat {
    Min(maxBackoff, Max(base, Doubled(base, Min(Max(0, nextAttempts), 14))))
  }

  lemma {:induction false} Pow2Grows(a: nat, b: nat)
    requires a <= b
    ensures 1 <= Pow2(a) <= Pow2(b)
    decreases b
  {
    if b > 0 {
      if a < b { Pow2Grows(a, b - 1); } else { Pow2Grows(a - 1, b - 1); }
    }
  }

  lemma DoubledGrows(base: nat, a: nat, b: nat)
    requires a <= b
    ensures base <= Doubled(base, a) <= Doubled(base, b)
    ensures Doubled(base, a + 1) == 2 * Doubled(base, a)
  {
    Pow2Grows(a, b);
    var x, y := Pow2(a), Pow2(b);
    assert base * x <= base * y;
    assert base * 1 <= base * x;
    assert base * (2 * x) == 2 * (base * x);
  }

  /** Requeue delays never decrease with the attempts and never exceed the cap; up to the
      cap each attempt from 0 to 14 doubles the wait. */
  lemma BackoffGrows(base: nat, maxBackoff: nat, a: int, b: int)
    requires a <= b
    ensures Backoff(base, maxBackoff, a) <= Backoff(base, maxBackoff, b) <= maxBackoff
    ensures base <= maxBackoff ==> base <= Backoff(base, maxBackoff, a)
    ensures 0 <= a < 14 && 2 * Backoff(base, maxBackoff, a) <= maxBackoff ==>
              Backoff(base, maxBackoff, a + 1) == 2 * Backoff(base, maxBackoff, a)
  {
    hide Doubled;
    DoubledGrows(base, Min(Max(0, a), 14), Min(Max(0, b), 14));
    DoubledGrows(base, Min(Max(0, a), 14), Min(Max(0, a + 1), 14));
  }

  // ---- the worker ----

  /** A claimed job as the tick holds it; its lease ends at `lockedUntil`. */
  datatype Claimed = Claimed(id: J.JobId, txHash: Hash, attempts: nat, lockedUntil: int)

  datatype World = World(tracker: T.State, jobs: J.State, batch: seq<Claimed>)

  datatype Answer = Found(live: T.Live) | NotFound | Threw

  /** The tick tests the row as it was listed, which may be older than the stored one; it
      reads the clock again for the row's age. */
  function Enqueue(w: World, cfg: Config, h: Hash, listed: T.Tx, now: int, clock: int): World {
    if T.IsPolicyCandidate(listed) && clock - listed.lastChecked >= cfg.pendingTimeoutMs
    then w.(jobs := J.CreateIfAbsent(w.jobs, PolicyJobId(h), J.Job(KIND, h, now, 0, None)))
    else w
  }

  function Taken(jobs: map<J.JobId, J.Job>, ids: seq<J.JobId>, until: int): seq<Claimed> {
    if ids == [] then []
    else if ids[0] in jobs
    then [Claimed(ids[0], jobs[ids[0]].txHash, jobs[ids[0]].attempts, until)] + Taken(jobs, ids[1..], until)
    else Taken(jobs, ids[1..], until)
  }

  function ClaimBatch(w: World, cfg: Config, now: int): World {
    var ids := J.Picked(w.jobs, KIND, now, cfg.batchSize);
    w.(jobs := J.Claim(w.jobs, KIND, now, cfg.batchSize, cfg.lockTtlMs),
       batch := w.batch + Taken(w.jobs.jobs, ids, now + cfg.lockTtlMs))
  }

  function Requeue(jobs: J.State, cfg: Config, c: Claimed, now: int): J.State {
    J.Bump(jobs, c.id, now + Backoff(cfg.intervalMs, cfg.maxBackoffMs, c.attempts + 1), c.attempts + 1)
  }

  /** One claimed job worked through. */
  function Work(w: World, cfg: Config, c: Claimed, answer: Answer, now: int): World {
    if c.txHash == "" || c.txHash !in w.tracker.txs || !T.IsPolicyCandidate(w.tracker.txs[c.txHash])
    then w.(jobs := J.Delete(w.jobs, c.id))
    else
      match answer
      case Found(live) =>
        w.(tracker := T.ApplyLive(w.tracker, c.txHash, live, now), jobs := J.Delete(w.jobs, c.id))
      case NotFound =>
        var missed := T.PolicyMiss(w.tracker, c.txHash, cfg.maxNotFoundProbes, now);
        if w.tracker.txs[c.txHash].retries + 1 >= cfg.maxNotFoundProbes
        then w.(tracker := missed, jobs := J.Delete(w.jobs, c.id))
        else w.(tracker := missed, jobs := Requeue(w.jobs, cfg, c, now))
      case Threw => w.(jobs := Requeue(w.jobs, cfg, c, now))
  }

  // ---- runs: policy steps interleaved with all other writers ----

  datatype Event =
    | Enqueued(h: Hash, listed: T.Tx, now: int, clock: int)
    | Claiming(now: int)
    | Worked(i: nat, answer: Answer, now: int)
    | External(e: T.Event)

  function Step(w: World, cfg: Config, e: Event): World {
    match e
    case Enqueued(h, listed, now, clock) => Enqueue(w, cfg, h, listed, now, clock)
    case Claiming(now) => ClaimBatch(w, cfg, now)
    case Worked(i, answer, now) =>
      if i >= |w.batch| then w
      else Work(w.(batch := DropAt(w.batch, i)), cfg, w.batch[i], answer, now)
    case External(e) => w.(tracker := T.Step(w.tracker, e))
  }

  function Run(w: World, cfg: Config, es: seq<Event>): World
    decreases |es|
  {
    if es == [] then w else Run(Step(w, cfg, es[0]), cfg, es[1..])
  }

  // ---- a whole tick ----

  /** The rows whose account the tick tries to fill in. */
  function Missing(txs: map<Hash, T.Tx>, hs: seq<Hash>, limit: nat): (r: seq<Hash>)
    ensures |r| <= limit
  {
    if hs == [] then []
    else
      var before := Missing(txs, hs[..|hs| - 1], limit);
      var h := hs[|hs| - 1];
      if |before| < limit && h in txs && !Truthy(txs[h].account) && T.IsPolicyCandidate(txs[h]) then before + [h] else before
  }

  /** What the ledger says about a row's account, if anything, and when. */
  datatype AccountAnswer = AccountAnswer(account: string, at: int)

  datatype TimedAnswer = TimedAnswer(answer: Answer, at: int)

  function BackfillEvents(missing: seq<Hash>, found: seq<AccountAnswer>): (r: seq<Event>)
    requires |missing| <= |found|
    ensures |r| == |missing|
  {
    seq(|missing|, i requires 0 <= i < |missing| => External(T.FoundAccount(missing[i], found[i].account, found[i].at)))
  }

  function EnqueueEvents(txs: map<Hash, T.Tx>, hs: seq<Hash>, now: int, clocks: seq<int>): (r: seq<Event>)
    requires |clocks| == |hs| && forall i :: 0 <= i < |hs| ==> hs[i] in txs
    ensures |r| == |hs|
  {
    seq(|hs|, i requires 0 <= i < |hs| => Enqueued(hs[i], txs[hs[i]], now, clocks[i]))
  }

  function WorkEvents(answers: seq<TimedAnswer>): (r: seq<Event>)
    ensures |r| == |answers|
  {
    seq(|answers|, i requires 0 <= i < |answers| => Worked(0, answers[i].answer, answers[i].at))
  }

  lemma {:induction false} RunConcat(w: World, cfg: Config, es: seq<Event>, more: seq<Event>)
    ensures Run(w, cfg, es + more) == Run(Run(w, cfg, es), cfg, more)
    decreases |es|
  {
    hide Step;
    if es == [] {
      assert es + more == more;
    } else {
      assert (es + more)[1..] == es[1..] + more;
      RunConcat(Step(w, cfg, es[0]), cfg, es[1..], more);
    }
  }

  lemma RunSnoc(w: World, cfg: Config, es: seq<Event>, k: nat)
    requires k < |es|
    ensures Run(w, cfg, es[..k + 1]) == Step(Run(w, cfg, es[..k]), cfg, es[k])
  {
    hide Step;
    assert es[..k + 1] == es[..k] + [es[k]] && [es[k]][1..] == [];
    RunConcat(w, cfg, es[..k], [es[k]]);
    var w1 := Run(w, cfg, es[..k]);
    assert Run(w1, cfg, [es[k]]) == Run(Step(w1, cfg, es[k]), cfg, []);
  }

  /** The worker object; one tick that runs undisturbed is exactly such a sequence of steps. */
  class Worker {
    const cfg: Config
    var tracker: T.State
    var jobs: J.State
    var batch: seq<Claimed>

    ghost function View(): World
      reads this
    {
      World(tracker, jobs, batch)
    }

    constructor (cfg: Config)
      ensures View() == Empty && this.cfg == cfg
    {
      this.cfg := cfg;
      tracker, jobs, batch := T.Empty, J.Empty, [];
    }

    /** hs are the listed rows. The memory store lists the rows themselves, so a row whose
        account has just been filled in is tested as filled in. The clock is read again for
        each row's age, and for each account answer and job answer dealt with. */
    method Tick(hs: seq<Hash>, found: seq<AccountAnswer>, now: int, clocks: seq<int>, answers: seq<TimedAnswer>)
      requires batch == [] && |answers| == cfg.batchSize && |found| == cfg.accountBackfillPerTick
      requires |clocks| == |hs| && forall i :: 0 <= i < |hs| ==> hs[i] in tracker.txs
      modifies this
      ensures batch == []
      ensures var missing := Missing(old(tracker).txs, hs, cfg.accountBackfillPerTick);
              var w := Run(old(View()), cfg, BackfillEvents(missing, found));
              && (forall i :: 0 <= i < |hs| ==> hs[i] in w.tracker.txs)
              && View() == Run(w, cfg, EnqueueEvents(w.tracker.txs, hs, now, clocks) + ([Claiming(now)] + WorkEvents(answers)))
    {
      hide Step, Run, BackfillEvents, EnqueueEvents, WorkEvents;
      BackfillAccounts(hs, found);
      ghost var w := View();
      EnqueueListed(hs, now, clocks);
      ghost var w1 := View();
      ClaimOnce(now);
      ghost var w2 := View();
      WorkBatch(answers);
      RunConcat(w, cfg, EnqueueEvents(w.tracker.txs, hs, now, clocks), [Claiming(now)] + WorkEvents(answers));
      RunConcat(w1, cfg, [Claiming(now)], WorkEvents(answers));
      OneStep(w1, cfg, Claiming(now));
    }

    method BackfillAccounts(hs: seq<Hash>, found: seq<AccountAnswer>)
      requires |found| == cfg.accountBackfillPerTick
      modifies this
      ensures View() == Run(old(View()), cfg,
                            BackfillEvents(Missing(old(tracker).txs, hs, cfg.accountBackfillPerTick), found))
      ensures jobs == old(jobs) && batch == old(batch) && tracker.txs.Keys == old(tracker).txs.Keys
    {
      hide Step, Run, T.Trim, T.IsPolicyCandidate;
      var missing := [];
      for i := 0 to |hs|
        invariant missing == Missing(tracker.txs, hs[..i], cfg.accountBackfillPerTick)
      {
        assert hs[..i + 1][..i] == hs[..i];
        var h := hs[i];
        if |missing| < cfg.accountBackfillPerTick && h in tracker.txs && !Truthy(tracker.txs[h].account)
           && T.IsPolicyCandidate(tracker.txs[h]) {
          missing := missing + [h];
        }
      }
      assert hs[..|hs|] == hs;
      ghost var w0 := View();
      ghost var es := BackfillEvents(missing, found);
      NoSteps(w0, cfg);
      assert es[..0] == [];
      for k := 0 to |missing|
        invariant View() == Run(w0, cfg, es[..k])
        invariant jobs == old(jobs) && batch == old(batch) && tracker.txs.Keys == old(tracker).txs.Keys
      {
        RunSnoc(w0, cfg, es, k);
        FillStep(View(), cfg, missing[k], found[k].account, found[k].at);
        FillAccount(missing[k], found[k].account, found[k].at);
      }
      assert es[..|missing|] == es;
    }

    method FillAccount(h: Hash, account: string, at: int)
      modifies this`tracker
      ensures tracker == T.AccountBackfill(old(tracker), h, account, at)
    {
      var acct := T.Trim(account);
      if acct == "" || h !in tracker.txs { return; }
      var latest := tracker.txs[h];
      if Truthy(latest.account) { return; }
      latest := latest.(account := Some(acct), lastChecked := at);
      tracker := tracker.(txs := tracker.txs[h := latest]);
    }

    method EnqueueListed(hs: seq<Hash>, now: int, clocks: seq<int>)
      requires |clocks| == |hs| && forall i :: 0 <= i < |hs| ==> hs[i] in tracker.txs
      modifies this
      ensures View() == Run(old(View()), cfg, EnqueueEvents(old(tracker).txs, hs, now, clocks))
      ensures batch == old(batch) && tracker == old(tracker)
    {
      hide Step, Run;
      ghost var w0 := View();
      ghost var es := EnqueueEvents(tracker.txs, hs, now, clocks);
      NoSteps(w0, cfg);
      assert es[..0] == [];
      for k := 0 to |hs|
        invariant View() == Run(w0, cfg, es[..k]) && batch == old(batch) && tracker == old(tracker)
      {
        RunSnoc(w0, cfg, es, k);
        EnqueueOne(hs[k], tracker.txs[hs[k]], now, clocks[k]);
      }
      assert es[..|hs|] == es;
    }

    method WorkBatch(answers: seq<TimedAnswer>)
      requires |batch| <= |answers|
      modifies this
      ensures View() == Run(old(View()), cfg, WorkEvents(answers)) && batch == []
    {
      hide Step, Run;
      ghost var w0 := View();
      ghost var es := WorkEvents(answers);
      NoSteps(w0, cfg);
      assert es[..0] == [];
      var k := 0;
      while batch != []
        invariant 0 <= k && |batch| <= |answers| - k && View() == Run(w0, cfg, es[..k])
        decreases |batch|
      {
        RunSnoc(w0, cfg, es, k);
        WorkNext(answers[k].answer, answers[k].at);
        k := k + 1;
      }
      RunConcat(w0, cfg, es[..k], es[k..]);
      IdleWork(View(), cfg, es[k..]);
      assert es[..k] + es[k..] == es;
    }

    method EnqueueOne(h: Hash, listed: T.Tx, now: int, clock: int)
      modifies this
      ensures View() == Step(old(View()), cfg, Enqueued(h, listed, now, clock)) && batch == old(batch) && tracker == old(tracker)
    {
      if T.IsPolicyCandidate(listed) {
        if clock - listed.lastChecked < cfg.pendingTimeoutMs { return; }
        jobs := J.CreateIfAbsent(jobs, PolicyJobId(h), J.Job(KIND, h, now, 0, None));
      }
    }

    method ClaimOnce(now: int)
      requires batch == []
      modifies this
      ensures View() == Step(old(View()), cfg, Claiming(now)) && |batch| <= cfg.batchSize
    {
      var ids := J.Picked(jobs, KIND, now, cfg.batchSize);
      TakenLength(jobs.jobs, ids, now + cfg.lockTtlMs);
      batch := batch + Taken(jobs.jobs, ids, now + cfg.lockTtlMs);
      jobs := J.Claim(jobs, KIND, now, cfg.batchSize, cfg.lockTtlMs);
    }

    method WorkNext(answer: Answer, now: int)
      requires batch != []
      modifies this
      ensures View() == Step(old(View()), cfg, Worked(0, answer, now)) && |batch| == old(|batch|) - 1
    {
      hide J.Delete, J.Bump, T.ApplyLive, T.PolicyMiss, T.IsPolicyCandidate, Backoff;
      var c := batch[0];
      assert DropAt(batch, 0) == batch[1..];
      batch := batch[1..];
      if c.txHash == "" || c.txHash !in tracker.txs || !T.IsPolicyCandidate(tracker.txs[c.txHash]) {
        jobs := J.Delete(jobs, c.id);
        return;
      }
      match answer {
        case Found(live) =>
          tracker := T.ApplyLive(tracker, c.txHash, live, now);
          jobs := J.Delete(jobs, c.id);
        case NotFound =>
          var probes := tracker.txs[c.txHash].retries + 1;
          tracker := T.PolicyMiss(tracker, c.txHash, cfg.maxNotFoundProbes, now);
          if probes >= cfg.maxNotFoundProbes {
            jobs := J.Delete(jobs, c.id);
          } else {
            jobs := Requeue(jobs, cfg, c, now);
          }
        case Threw =>
          jobs := Requeue(jobs, cfg, c, now);
      }
    }
  }

  lemma NoSteps(w: World, cfg: Config)
    ensures Run(w, cfg, []) == w
  {
  }

  lemma OneStep(w: World, cfg: Config, e: Event)
    ensures Run(w, cfg, [e]) == Step(w, cfg, e)
  {
    RunSnoc(w, cfg, [e], 0);
    NoSteps(w, cfg);
    assert [e][..1] == [e] && [e][..0] == [];
  }

  lemma FillStep(w: World, cfg: Config, h: Hash, account: string, at: int)
    ensures Step(w, cfg, External(T.FoundAccount(h, account, at))) == w.(tracker := T.AccountBackfill(w.tracker, h, account, at))
  {
  }

  lemma {:induction false} TakenLength(jobs: map<J.JobId, J.Job>, ids: seq<J.JobId>, until: int)
    ensures |Taken(jobs, ids, until)| <= |ids|
  {
    if ids != [] { TakenLength(jobs, ids[1..], until); }
  }

  lemma {:induction false} IdleWork(w: World, cfg: Config, es: seq<Event>)
    requires w.batch == [] && forall i :: 0 <= i < |es| ==> es[i].Worked?
    ensures Run(w, cfg, es) == w
  {
    if es != [] { IdleWork(w, cfg, es[1..]); }
  }

  const Empty := World(T.Empty, J.Empty, [])

  // ---- one job per hash ----

  ghost predicate JobsOk(w: World) {
    && (forall id :: id in w.jobs.jobs ==> id == PolicyJobId(w.jobs.jobs[id].txHash))
    && (forall c :: c in w.batch ==> c.id == PolicyJobId(c.txHash))
  }

  lemma {:induction false} TakenOk(jobs: map<J.JobId, J.Job>, ids: seq<J.JobId>, until: int, c: Claimed)
    requires c in Taken(jobs, ids, until)
    ensures c.id in jobs && c.txHash == jobs[c.id].txHash
  {
    if ids[0] !in jobs || c != Taken(jobs, ids, until)[0] {
      TakenOk(jobs, ids[1..], until, c);
    }
  }

  lemma StepJobs(w: World, cfg: Config, e: Event)
    requires JobsOk(w)
    ensures JobsOk(Step(w, cfg, e))
  {
    hide T.ApplyLive, T.PolicyMiss, T.Step, Backoff;
    match e {
      case Claiming(now) =>
        var ids := J.Picked(w.jobs, KIND, now, cfg.batchSize);
        hide J.Picked;
        forall c | c in Taken(w.jobs.jobs, ids, now + cfg.lockTtlMs) ensures c.id == PolicyJobId(c.txHash) {
          TakenOk(w.jobs.jobs, ids, now + cfg.lockTtlMs, c);
        }
      case _ =>
    }
  }

  lemma {:induction false} RunJobs(w: World, cfg: Config, es: seq<Event>)
    requires JobsOk(w)
    ensures JobsOk(Run(w, cfg, es))
    decreases |es|
  {
    if es != [] {
      hide Step;
      StepJobs(w, cfg, es[0]);
      RunJobs(Step(w, cfg, es[0]), cfg, es[1..]);
    }
  }

  /** Over every run each hash has at most one job, and its name is given by the hash. */
  lemma OneJobPerHash(cfg: Config, es: seq<Event>, a: J.JobId, b: J.JobId)
    requires var jobs := Run(Empty, cfg, es).jobs.jobs; a in jobs && b in jobs && jobs[a].txHash == jobs[b].txHash
    ensures a == b == PolicyJobId(Run(Empty, cfg, es).jobs.jobs[a].txHash)
  {
    RunJobs(Empty, cfg, es);
  }

  // ---- a bounded number of probes ----

  ghost predicate Candidate(w: World, h: Hash) {
    h in w.tracker.txs && T.IsPolicyCandidate(w.tracker.txs[h])
  }

  /** The event works on the job of h. */
  ghost predicate WorksOn(w: World, e: Event, h: Hash) {
    e.Worked? && e.i < |w.batch| && w.batch[e.i].txHash == h
  }

  ghost predicate IsProbe(w: World, e: Event, h: Hash) {
    WorksOn(w, e, h) && e.answer == NotFound && h != "" && Candidate(w, h)
  }

  /** Nothing is reported about h. Other requests may still write to its row. */
  ghost predicate Silent(w: World, cfg: Config, es: seq<Event>, h: Hash)
    decreases |es|
  {
    es == [] || (SilentStep(w, es[0], h) && Silent(Step(w, cfg, es[0]), cfg, es[1..], h))
  }

  ghost predicate SilentStep(w: World, e: Event, h: Hash) {
    && (WorksOn(w, e, h) ==> !e.answer.Found?)
    && (e.External? ==> !Hears(e.e, h))
  }

  /** The event brings word of h: a report, a request with a live reply, a simulated backfill,
      or a probe by somebody else. */
  ghost predicate Hears(e: T.Event, h: Hash) {
    match e
    case Report(g, _, _) => g == h
    case Simulate(g, _, _, _) => g == h
    case Missed(g, _, _) => g == h
    case Track(g, _, _, _, reply, _) => g == h && reply.Some?
    case Execute(_, g, _, _, _, _, reply, _) => g == h && reply.Some?
    case _ => false
  }

  /** The part of a row that only word of its hash, or a probe, changes. */
  ghost function Progress(t: T.Tx): T.Tx {
    t.(txType := "", account := None, disputeId := None, network := "", lastChecked := 0, escrow := T.NoEscrow)
  }

  ghost function Probes(w: World, cfg: Config, es: seq<Event>, h: Hash): nat
    decreases |es|
  {
    if es == [] then 0
    else (if IsProbe(w, es[0], h) then 1 else 0) + Probes(Step(w, cfg, es[0]), cfg, es[1..], h)
  }

  lemma UnheardRow(s: T.State, e: T.Event, h: Hash)
    requires h in s.txs && !Hears(e, h)
    ensures h in T.Step(s, e).txs && Progress(T.Step(s, e).txs[h]) == Progress(s.txs[h])
  {
    hide T.Merge, T.Simulated, T.ProbeMissed, T.Trim, T.Resolve;
  }

  /** The progress of a row over a silent step. */
  lemma SilentRow(w: World, cfg: Config, e: Event, h: Hash)
    requires h in w.tracker.txs && SilentStep(w, e, h)
    ensures h in Step(w, cfg, e).tracker.txs
    ensures var t := w.tracker.txs[h];
            Progress(Step(w, cfg, e).tracker.txs[h]) ==
            Progress(if IsProbe(w, e, h) then T.ProbeMissed(t, cfg.maxNotFoundProbes, e.now) else t)
    ensures Candidate(Step(w, cfg, e), h) <==>
            T.IsPolicyCandidate(if IsProbe(w, e, h) then T.ProbeMissed(w.tracker.txs[h], cfg.maxNotFoundProbes, e.now) else w.tracker.txs[h])
  {
    if e.External? { UnheardRow(w.tracker, e.e, h); }
    hide J.Picked, J.Claim, J.Delete, J.Bump, T.Step, Requeue, Taken, T.ProbeMissed, T.Merge, T.Resolve;
  }

  lemma MissedRow(t: T.Tx, maxProbes: int, now: int)
    requires T.IsPolicyCandidate(t)
    ensures var u := T.ProbeMissed(t, maxProbes, now);
            && u.retries == t.retries + 1
            && (T.IsPolicyCandidate(u) <==> t.retries + 1 < maxProbes)
            && (!T.IsPolicyCandidate(u) ==> GivenUpRow(u))
  {
  }

  ghost predicate GivenUpRow(t: T.Tx) {
    !t.validated && t.outcome == Some(T.ManualReview) && t.tracking == T.ValidatedFail
  }

  /** A hash the ledger never reports is probed at most max(1, budget - retries so far)
      times, in every interleaving; while it is still probed its retries count the probes,
      and when it no longer is, it has been marked for manual review. */
  lemma {:induction false} ProbesAreBounded(w: World, cfg: Config, es: seq<Event>, h: Hash)
    requires h in w.tracker.txs && Silent(w, cfg, es, h)
    ensures var t := w.tracker.txs[h];
            var w' := Run(w, cfg, es);
            && h in w'.tracker.txs
            && Probes(w, cfg, es, h) <= (if Candidate(w, h) then Max(1, cfg.maxNotFoundProbes - t.retries) else 0)
            && (Candidate(w', h) ==> Candidate(w, h) && w'.tracker.txs[h].retries == t.retries + Probes(w, cfg, es, h))
            && (Candidate(w, h) && !Candidate(w', h) ==>
                  GivenUpRow(w'.tracker.txs[h]) && Probes(w, cfg, es, h) == Max(1, cfg.maxNotFoundProbes - t.retries))
    decreases |es|
  {
    if es != [] {
      hide Step, T.ProbeMissed, T.IsPolicyCandidate, GivenUpRow, SilentStep;
      var w1 := Step(w, cfg, es[0]);
      SilentRow(w, cfg, es[0], h);
      if IsProbe(w, es[0], h) {
        MissedRow(w.tracker.txs[h], cfg.maxNotFoundProbes, es[0].now);
      }
      ProbesAreBounded(w1, cfg, es[1..], h);
      if Candidate(w, h) && !Candidate(w1, h) {
        StaysGivenUp(w1, cfg, es[1..], h);
      }
    }
  }

  lemma {:induction false} StaysGivenUp(w: World, cfg: Config, es: seq<Event>, h: Hash)
    requires h in w.tracker.txs && !Candidate(w, h) && Silent(w, cfg, es, h)
    ensures h in Run(w, cfg, es).tracker.txs && !Candidate(Run(w, cfg, es), h)
    ensures Progress(Run(w, cfg, es).tracker.txs[h]) == Progress(w.tracker.txs[h])
    ensures Probes(w, cfg, es, h) == 0
    decreases |es|
  {
    if es != [] {
      hide Step, T.ProbeMissed, T.IsPolicyCandidate, SilentStep;
      SilentRow(w, cfg, es[0], h);
      StaysGivenUp(Step(w, cfg, es[0]), cfg, es[1..], h);
    }
  }

  // ---- its job is gone for good ----

  lemma GivingUpDeletesJob(w: World, cfg: Config, e: Event, h: Hash)
    requires JobsOk(w) && IsProbe(w, e, h) && w.tracker.txs[h].retries + 1 >= cfg.maxNotFoundProbes
    ensures PolicyJobId(h) !in Step(w, cfg, e).jobs.jobs
  {
    assert w.batch[e.i] in w.batch;
    hide T.PolicyMiss, T.IsPolicyCandidate, Requeue;
  }

  /** A job that is gone comes back by exactly one step: a tick enqueues the hash from a row
      it had listed while that was still a candidate. */
  lemma JobComesBackIff(w: World, cfg: Config, e: Event, h: Hash)
    requires JobsOk(w) && PolicyJobId(h) !in w.jobs.jobs
    ensures PolicyJobId(h) in Step(w, cfg, e).jobs.jobs <==>
            e.Enqueued? && e.h == h && T.IsPolicyCandidate(e.listed) && e.clock - e.listed.lastChecked >= cfg.pendingTimeoutMs
  {
    hide T.ApplyLive, T.PolicyMiss, T.Step, T.IsPolicyCandidate, J.Picked, Backoff;
    if e.Enqueued? { JobIdInjective(e.h, h); }
  }

  lemma JobIdInjective(g: Hash, h: Hash)
    ensures PolicyJobId(g) == PolicyJobId(h) ==> g == h
  {
    assert PolicyJobId(g)[|"xrpl_policy:"|..] == g && PolicyJobId(h)[|"xrpl_policy:"|..] == h;
  }

  /** Ticks list h no earlier than the start of the run. */
  ghost predicate ListedSince(w: World, cfg: Config, es: seq<Event>, h: Hash) {
    forall i :: 0 <= i < |es| && es[i].Enqueued? && es[i].h == h ==> exists j :: ListedAt(w, cfg, es, h, i, j)
  }

  ghost predicate ListedAt(w: World, cfg: Config, es: seq<Event>, h: Hash, i: nat, j: int)
    requires i < |es| && es[i].Enqueued?
  {
    && 0 <= j <= i
    && h in Run(w, cfg, es[..j]).tracker.txs
    && es[i].listed == Run(w, cfg, es[..j]).tracker.txs[h]
  }

  lemma {:induction false} SilentPrefix(w: World, cfg: Config, es: seq<Event>, h: Hash, j: nat)
    requires Silent(w, cfg, es, h) && j <= |es|
    ensures Silent(w, cfg, es[..j], h)
    decreases j
  {
    if j > 0 {
      hide Step, SilentStep;
      assert es[..j][1..] == es[1..][..j - 1] && es[..j][0] == es[0];
      SilentPrefix(Step(w, cfg, es[0]), cfg, es[1..], h, j - 1);
    }
  }

  /** After giving up, no tick that lists the rows from then on recreates the job. */
  lemma NoTickRecreatesJob(w: World, cfg: Config, es: seq<Event>, h: Hash)
    requires JobsOk(w) && h in w.tracker.txs && Silent(w, cfg, es, h) && ListedSince(w, cfg, es, h)
    requires !Candidate(w, h) && PolicyJobId(h) !in w.jobs.jobs
    ensures PolicyJobId(h) !in Run(w, cfg, es).jobs.jobs
  {
    forall i | 0 <= i < |es| && es[i].Enqueued? && es[i].h == h ensures !T.IsPolicyCandidate(es[i].listed) {
      var j :| ListedAt(w, cfg, es, h, i, j);
      SilentPrefix(w, cfg, es, h, j);
      StaysGivenUp(w, cfg, es[..j], h);
    }
    JobStaysGone(w, cfg, es, h);
  }

  lemma {:induction false} JobStaysGone(w: World, cfg: Config, es: seq<Event>, h: Hash)
    requires JobsOk(w) && PolicyJobId(h) !in w.jobs.jobs
    requires forall i :: 0 <= i < |es| && es[i].Enqueued? && es[i].h == h ==> !T.IsPolicyCandidate(es[i].listed)
    ensures PolicyJobId(h) !in Run(w, cfg, es).jobs.jobs
    decreases |es|
  {
    if es != [] {
      hide Step, T.IsPolicyCandidate;
      JobComesBackIff(w, cfg, es[0], h);
      StepJobs(w, cfg, es[0]);
      forall i | 0 <= i < |es[1..]| ensures es[1..][i] == es[i + 1] {}
      JobStaysGone(Step(w, cfg, es[0]), cfg, es[1..], h);
    }
  }
}
