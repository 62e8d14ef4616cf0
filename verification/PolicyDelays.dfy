/** The waiting times of one hash over whole runs of the policy worker: when they never
    decrease, and a run in which they do. */
module PolicyDelays {
  import opened Common
  import opened PolicyWorker
  import J = DelayedJobs
  import T = TxTracking

  /** Every claim is made before the lease of each claim still being worked has run out. A
      lease runs out lockTtlMs after its claim. */
  ghost predicate InTime(w: World, e: Event) {
    e.Claiming? ==> forall i :: 0 <= i < |w.batch| ==> e.now < w.batch[i].lockedUntil
  }

  ghost predicate InTimeRun(w: World, cfg: Config, es: seq<Event>)
    decreases |es|
  {
    es == [] || (InTime(w, es[0]) && InTimeRun(Step(w, cfg, es[0]), cfg, es[1..]))
  }

  ghost predicate ClaimFresh(jobs: map<J.JobId, J.Job>, c: Claimed) {
    && c.id in jobs && jobs[c.id].attempts == c.attempts && jobs[c.id].txHash == c.txHash
    && jobs[c.id].lockedUntil == Some(c.lockedUntil)
  }

  /** A claimed job has one claim, which agrees with the stored record. */
  ghost predicate Fresh(w: World) {
    && J.Valid(w.jobs)
    && (forall i, j :: 0 <= i < j < |w.batch| ==> w.batch[i].id != w.batch[j].id)
    && (forall i :: 0 <= i < |w.batch| ==> ClaimFresh(w.jobs.jobs, w.batch[i]))
  }

  // ---- claims stay fresh ----

  lemma {:induction false} TakenAll(jobs: map<J.JobId, J.Job>, ids: seq<J.JobId>, until: int)
    requires Distinct(ids) && forall i :: 0 <= i < |ids| ==> ids[i] in jobs
    ensures var t := Taken(jobs, ids, until);
            && |t| == |ids|
            && forall i :: 0 <= i < |ids| ==> t[i] == Claimed(ids[i], jobs[ids[i]].txHash, jobs[ids[i]].attempts, until)
  {
    if ids != [] {
      TakenAll(jobs, ids[1..], until);
    }
  }

  lemma PickedIn(s: J.State, now: int, limit: nat)
    requires J.Valid(s)
    ensures var ids := J.Picked(s, KIND, now, limit);
            Distinct(ids) && forall i :: 0 <= i < |ids| ==> ids[i] in s.jobs
  {
    J.ClaimMeaning(s, KIND, now, limit, "");
    var ids := J.Picked(s, KIND, now, limit);
    hide J.Picked;
    forall i | 0 <= i < |ids| ensures ids[i] in s.jobs { assert ids[i] in ids; }
  }

  /** A leased job is not claimed: what keeps two claims on one job apart. */
  lemma LeasedNotPicked(w: World, cfg: Config, now: int, i: nat)
    requires Fresh(w) && InTime(w, Claiming(now)) && i < |w.batch|
    ensures w.batch[i].id !in J.Picked(w.jobs, KIND, now, cfg.batchSize)
  {
    hide J.Picked, J.Claim, J.Valid;
    assert ClaimFresh(w.jobs.jobs, w.batch[i]);
    J.HeldStep(w.jobs, J.Claimed(KIND, now, cfg.batchSize, cfg.lockTtlMs), w.batch[i].id, w.batch[i].lockedUntil);
  }

  lemma LockedOther(jobs: map<J.JobId, J.Job>, ids: seq<J.JobId>, until: int, c: Claimed)
    requires ClaimFresh(jobs, c) && c.id !in ids
    ensures ClaimFresh(J.Locked(jobs, ids, until), c)
  {
  }

  lemma LockedTaken(jobs: map<J.JobId, J.Job>, ids: seq<J.JobId>, until: int, id: J.JobId)
    requires id in jobs && id in ids
    ensures ClaimFresh(J.Locked(jobs, ids, until), Claimed(id, jobs[id].txHash, jobs[id].attempts, until))
  {
  }

  lemma ClaimFreshens(w: World, cfg: Config, now: int)
    requires Fresh(w) && InTime(w, Claiming(now))
    ensures Fresh(ClaimBatch(w, cfg, now))
  {
    hide J.Picked, Taken, J.Valid, J.Locked, ClaimFresh, InTime;
    var ids := J.Picked(w.jobs, KIND, now, cfg.batchSize);
    var until := now + cfg.lockTtlMs;
    PickedIn(w.jobs, now, cfg.batchSize);
    TakenAll(w.jobs.jobs, ids, until);
    J.StepValid(w.jobs, J.Claimed(KIND, now, cfg.batchSize, cfg.lockTtlMs));
    var w' := ClaimBatch(w, cfg, now);
    var n := |w.batch|;
    forall i | 0 <= i < n ensures w.batch[i].id !in ids { LeasedNotPicked(w, cfg, now, i); }
    forall i | 0 <= i < |w'.batch| ensures ClaimFresh(w'.jobs.jobs, w'.batch[i]) {
      if i >= n {
        assert w'.batch[i] == Taken(w.jobs.jobs, ids, until)[i - n] && ids[i - n] in ids;
        LockedTaken(w.jobs.jobs, ids, until, ids[i - n]);
      } else {
        LockedOther(w.jobs.jobs, ids, until, w.batch[i]);
      }
    }
    forall i, k | 0 <= i < k < |w'.batch| ensures w'.batch[i].id != w'.batch[k].id {
      if n <= k { assert w'.batch[k].id == ids[k - n] && ids[k - n] in ids; }
      if n <= i { assert w'.batch[i].id == ids[i - n]; }
    }
  }

  /** What working a claim does to the jobs: its own job is deleted or requeued. */
  lemma WorkShape(w: World, cfg: Config, c: Claimed, answer: Answer, now: int)
    ensures var w' := Work(w, cfg, c, answer, now);
            w'.batch == w.batch && (w'.jobs == J.Delete(w.jobs, c.id) || w'.jobs == Requeue(w.jobs, cfg, c, now))
  {
    hide J.Delete, Requeue, T.ApplyLive, T.PolicyMiss;
  }

  lemma WorkFresh(w: World, cfg: Config, i: nat, answer: Answer, now: int)
    requires Fresh(w) && i < |w.batch|
    ensures Fresh(Step(w, cfg, Worked(i, answer, now)))
  {
    hide Work, Backoff, J.Valid;
    var c := w.batch[i];
    var w' := Step(w, cfg, Worked(i, answer, now));
    WorkShape(w.(batch := DropAt(w.batch, i)), cfg, c, answer, now);
    J.StepValid(w.jobs, J.Deleted(c.id));
    J.StepValid(w.jobs, J.Bumped(c.id, now + Backoff(cfg.intervalMs, cfg.maxBackoffMs, c.attempts + 1), c.attempts + 1));
    assert forall k :: 0 <= k < |w'.batch| ==> w'.batch[k] == w.batch[if k < i then k else k + 1];
    forall k | 0 <= k < |w'.batch| ensures ClaimFresh(w'.jobs.jobs, w'.batch[k]) {
      assert ClaimFresh(w.jobs.jobs, w.batch[if k < i then k else k + 1]);
    }
  }

  lemma StepFresh(w: World, cfg: Config, e: Event)
    requires Fresh(w) && InTime(w, e)
    ensures Fresh(Step(w, cfg, e))
  {
    match e {
      case Enqueued(h, listed, now, clock) =>
        var w' := Step(w, cfg, e);
        forall i | 0 <= i < |w'.batch| ensures ClaimFresh(w'.jobs.jobs, w'.batch[i]) {
          assert ClaimFresh(w.jobs.jobs, w.batch[i]);
        }
      case Claiming(now) => ClaimFreshens(w, cfg, now);
      case Worked(i, answer, now) => if i < |w.batch| { WorkFresh(w, cfg, i, answer, now); }
      case External(_) =>
    }
  }

  // ---- the delays of one hash ----

  /** The event works the job of h and the job is still there afterwards. */
  ghost predicate Requeues(w: World, cfg: Config, e: Event, h: Hash) {
    WorksOn(w, e, h) && PolicyJobId(h) in Step(w, cfg, e).jobs.jobs
  }

  ghost function Delays(w: World, cfg: Config, es: seq<Event>, h: Hash): seq<int>
    decreases |es|
  {
    if es == [] then []
    else
      var w' := Step(w, cfg, es[0]);
      (if Requeues(w, cfg, es[0], h) then [w'.jobs.jobs[PolicyJobId(h)].runAfter - es[0].now] else [])
      + Delays(w', cfg, es[1..], h)
  }

  /** The wait the stored attempts stand for: that of the last requeue, if there was one. */
  ghost function LastDelay(w: World, cfg: Config, h: Hash): int {
    if PolicyJobId(h) in w.jobs.jobs then Wait(cfg, w.jobs.jobs[PolicyJobId(h)].attempts) else 0
  }

  ghost function Wait(cfg: Config, attempts: nat): int { Backoff(cfg.intervalMs, cfg.maxBackoffMs, attempts) }

  /** A requeue by a claim that remembers so few attempts that it waits less than the stored
      attempts stand for. */
  ghost predicate Shrinks(w: World, cfg: Config, e: Event, h: Hash) {
    && Requeues(w, cfg, e, h) && PolicyJobId(h) in w.jobs.jobs
    && Wait(cfg, w.batch[e.i].attempts + 1) < Wait(cfg, w.jobs.jobs[PolicyJobId(h)].attempts)
  }

  ghost predicate NeverShrinks(w: World, cfg: Config, es: seq<Event>, h: Hash)
    decreases |es|
  {
    es == [] || (!Shrinks(w, cfg, es[0], h) && NeverShrinks(Step(w, cfg, es[0]), cfg, es[1..], h))
  }

  /** A requeue waits for the attempts its own claim remembers, plus one, and stores them. */
  lemma RequeueDelay(w: World, cfg: Config, e: Event, h: Hash)
    requires JobsOk(w) && Requeues(w, cfg, e, h)
    ensures var w' := Step(w, cfg, e);
            && PolicyJobId(h) in w.jobs.jobs
            && w'.jobs.jobs[PolicyJobId(h)].runAfter - e.now == Wait(cfg, w.batch[e.i].attempts + 1) == LastDelay(w', cfg, h)
  {
    hide Work, Backoff;
    var c := w.batch[e.i];
    assert c in w.batch && c.id == PolicyJobId(h);
    WorkShape(w.(batch := DropAt(w.batch, e.i)), cfg, c, e.answer, e.now);
  }

  /** Any other step keeps the attempts of a job that is there, and creates one with none. */
  lemma OtherStep(w: World, cfg: Config, e: Event, h: Hash)
    requires JobsOk(w) && !WorksOn(w, e, h)
    ensures PolicyJobId(h) in w.jobs.jobs ==> LastDelay(Step(w, cfg, e), cfg, h) == LastDelay(w, cfg, h)
    ensures PolicyJobId(h) !in w.jobs.jobs ==> LastDelay(Step(w, cfg, e), cfg, h) in {0, Wait(cfg, 0)}
  {
    hide Work, Backoff, J.Picked, T.IsPolicyCandidate;
    if e.Worked? && e.i < |w.batch| {
      var c := w.batch[e.i];
      assert c in w.batch;
      JobIdInjective(c.txHash, h);
      WorkShape(w.(batch := DropAt(w.batch, e.i)), cfg, c, e.answer, e.now);
    }
  }

  /** While the ledger is silent, a worked job goes away only when its row is no longer probed. */
  lemma GoneMeansDone(w: World, cfg: Config, e: Event, h: Hash)
    requires JobsOk(w) && h in w.tracker.txs && SilentStep(w, e, h) && WorksOn(w, e, h)
    requires PolicyJobId(h) in w.jobs.jobs && PolicyJobId(h) !in Step(w, cfg, e).jobs.jobs
    ensures h == "" || !Candidate(Step(w, cfg, e), h)
  {
    hide Backoff;
    var c := w.batch[e.i];
    assert c in w.batch;
  }

  lemma DoneNotRequeued(w: World, cfg: Config, e: Event, h: Hash)
    requires JobsOk(w) && (h == "" || !Candidate(w, h))
    ensures !Requeues(w, cfg, e, h)
  {
    if WorksOn(w, e, h) {
      assert w.batch[e.i] in w.batch;
    }
  }

  lemma {:induction false} DoneHasNoDelays(w: World, cfg: Config, es: seq<Event>, h: Hash)
    requires JobsOk(w) && h in w.tracker.txs && Silent(w, cfg, es, h) && (h == "" || !Candidate(w, h))
    ensures Delays(w, cfg, es, h) == [] && NeverShrinks(w, cfg, es, h)
    decreases |es|
  {
    if es != [] {
      hide Step, SilentStep, JobsOk, Requeues;
      StepJobs(w, cfg, es[0]);
      SilentRow(w, cfg, es[0], h);
      DoneNotRequeued(w, cfg, es[0], h);
      DoneHasNoDelays(Step(w, cfg, es[0]), cfg, es[1..], h);
    }
  }

  ghost predicate AllWithin(s: seq<int>, low: int, high: int) { forall i :: 0 <= i < |s| ==> low <= s[i] <= high }

  /** Every delay lies between the wait of a fresh job and the cap. */
  lemma {:induction false} DelaysInRange(w: World, cfg: Config, es: seq<Event>, h: Hash)
    requires JobsOk(w)
    ensures AllWithin(Delays(w, cfg, es, h), Wait(cfg, 0), cfg.maxBackoffMs)
    decreases |es|
  {
    hide Step, JobsOk, Requeues, Wait, LastDelay;
    if es != [] {
      StepJobs(w, cfg, es[0]);
      var rest := Delays(Step(w, cfg, es[0]), cfg, es[1..], h);
      DelaysInRange(Step(w, cfg, es[0]), cfg, es[1..], h);
      if Requeues(w, cfg, es[0], h) {
        RequeueIs(w, cfg, es[0], h);
        RequeueDelay(w, cfg, es[0], h);
        WaitInRange(cfg, w.batch[es[0].i].attempts + 1);
        assert Delays(w, cfg, es, h) == [Wait(cfg, w.batch[es[0].i].attempts + 1)] + rest;
      } else {
        assert Delays(w, cfg, es, h) == rest;
      }
    }
  }

  lemma WaitInRange(cfg: Config, attempts: nat)
    ensures Wait(cfg, 0) <= Wait(cfg, attempts) <= cfg.maxBackoffMs
  {
    BackoffGrows(cfg.intervalMs, cfg.maxBackoffMs, 0, attempts);
  }

  lemma RequeueIs(w: World, cfg: Config, e: Event, h: Hash)
    requires Requeues(w, cfg, e, h)
    ensures e.Worked? && e.i < |w.batch| && PolicyJobId(h) in Step(w, cfg, e).jobs.jobs
  {
  }

  ghost predicate NonDecreasing(s: seq<int>) { forall i, j :: 0 <= i < j < |s| ==> s[i] <= s[j] }

  lemma Front(a: int, x: int, s: seq<int>)
    ensures NonDecreasing([a] + ([x] + s)) <==> a <= x && NonDecreasing([x] + s)
  {
    var t, u := [a] + ([x] + s), [x] + s;
    assert forall i :: 0 <= i < |u| ==> t[i + 1] == u[i];
    if NonDecreasing(t) {
      assert t[0] <= t[1];
      forall i, j | 0 <= i < j < |u| ensures u[i] <= u[j] { assert t[i + 1] <= t[j + 1]; }
    }
    if a <= x && NonDecreasing(u) {
      forall i, j | 0 <= i < j < |t| ensures t[i] <= t[j] {
        assert i > 0 ==> u[i - 1] <= u[j - 1];
        assert j > 1 ==> u[0] <= u[j - 1];
      }
    }
  }

  /** A first element that is no larger than the rest does not matter. */
  lemma LowFront(a: int, b: int, s: seq<int>)
    requires forall i :: 0 <= i < |s| ==> a <= s[i] && b <= s[i]
    ensures NonDecreasing([a] + s) <==> NonDecreasing([b] + s)
  {
    var t, u := [a] + s, [b] + s;
    assert forall i :: 0 < i < |t| ==> t[i] == s[i - 1] == u[i];
    if NonDecreasing(t) { forall i, j | 0 <= i < j < |u| ensures u[i] <= u[j] { assert t[i] <= t[j]; } }
    if NonDecreasing(u) { forall i, j | 0 <= i < j < |t| ensures t[i] <= t[j] { assert u[i] <= u[j]; } }
  }

  /** For a hash the ledger never reports, in every run whatever the leases: the requeue
      delays never decrease if and only if no requeue is by a claim that remembers too few
      attempts. */
  lemma {:induction false} DelaysNeverDecreaseIff(w: World, cfg: Config, es: seq<Event>, h: Hash)
    requires JobsOk(w) && h in w.tracker.txs && Silent(w, cfg, es, h)
    ensures NonDecreasing([LastDelay(w, cfg, h)] + Delays(w, cfg, es, h)) <==> NeverShrinks(w, cfg, es, h)
    decreases |es|
  {
    hide Step, SilentStep, JobsOk, Requeues, WorksOn, Wait, NonDecreasing, LastDelay;
    if es == [] {
      Single(LastDelay(w, cfg, h));
    } else {
      var e := es[0];
      var w' := Step(w, cfg, e);
      StepJobs(w, cfg, e);
      SilentRow(w, cfg, e, h);
      var rest := Delays(w', cfg, es[1..], h);
      if !Requeues(w, cfg, e, h) && WorksOn(w, e, h) && PolicyJobId(h) in w.jobs.jobs {
        GoneIfNotRequeued(w, cfg, e, h);
        GoneMeansDone(w, cfg, e, h);
        DoneHasNoDelays(w', cfg, es[1..], h);
        Single(LastDelay(w, cfg, h));
        assert Delays(w, cfg, es, h) == [];
      } else {
        DelaysNeverDecreaseIff(w', cfg, es[1..], h);
        if Requeues(w, cfg, e, h) {
          RequeueIs(w, cfg, e, h);
          RequeueDelay(w, cfg, e, h);
          LastDelayIs(w, cfg, h);
          Front(LastDelay(w, cfg, h), LastDelay(w', cfg, h), rest);
        } else {
          Unmoved(w, cfg, e, h);
          DelaysInRange(w', cfg, es[1..], h);
          WaitPositive(cfg);
          assert Delays(w, cfg, es, h) == rest;
          if LastDelay(w, cfg, h) != LastDelay(w', cfg, h) { LowFront(LastDelay(w, cfg, h), LastDelay(w', cfg, h), rest); }
        }
      }
    }
  }

  lemma Single(a: int)
    ensures NonDecreasing([a]) && [a] + [] == [a]
  {
  }

  lemma WaitPositive(cfg: Config)
    ensures 0 <= Wait(cfg, 0)
  {
  }

  lemma LastDelayIs(w: World, cfg: Config, h: Hash)
    requires PolicyJobId(h) in w.jobs.jobs
    ensures LastDelay(w, cfg, h) == Wait(cfg, w.jobs.jobs[PolicyJobId(h)].attempts)
  {
  }

  lemma GoneIfNotRequeued(w: World, cfg: Config, e: Event, h: Hash)
    requires WorksOn(w, e, h) && !Requeues(w, cfg, e, h)
    ensures PolicyJobId(h) !in Step(w, cfg, e).jobs.jobs
  {
  }

  /** A step that neither requeues nor deletes the job of h. */
  lemma Unmoved(w: World, cfg: Config, e: Event, h: Hash)
    requires JobsOk(w) && !Requeues(w, cfg, e, h) && !(WorksOn(w, e, h) && PolicyJobId(h) in w.jobs.jobs)
    ensures var a, b := LastDelay(w, cfg, h), LastDelay(Step(w, cfg, e), cfg, h); a == b || (a == 0 && b == Wait(cfg, 0))
  {
    hide Step, Wait;
    if !WorksOn(w, e, h) {
      OtherStep(w, cfg, e, h);
    }
  }

  lemma {:induction false} InTimeNeverShrinks(w: World, cfg: Config, es: seq<Event>, h: Hash)
    requires JobsOk(w) && Fresh(w) && InTimeRun(w, cfg, es)
    ensures NeverShrinks(w, cfg, es, h)
    decreases |es|
  {
    if es != [] {
      hide Step, JobsOk, Requeues, Backoff, InTime;
      StepJobs(w, cfg, es[0]);
      StepFresh(w, cfg, es[0]);
      InTimeNeverShrinks(Step(w, cfg, es[0]), cfg, es[1..], h);
      if Requeues(w, cfg, es[0], h) {
        FreshRequeue(w, cfg, es[0], h);
        BackoffGrows(cfg.intervalMs, cfg.maxBackoffMs, w.batch[es[0].i].attempts, w.batch[es[0].i].attempts + 1);
      }
    }
  }

  lemma FreshRequeue(w: World, cfg: Config, e: Event, h: Hash)
    requires JobsOk(w) && Fresh(w) && Requeues(w, cfg, e, h)
    ensures e.Worked? && e.i < |w.batch| && PolicyJobId(h) in w.jobs.jobs
    ensures w.jobs.jobs[PolicyJobId(h)].attempts == w.batch[e.i].attempts
  {
    assert ClaimFresh(w.jobs.jobs, w.batch[e.i]) && w.batch[e.i] in w.batch;
  }

  /** With every claim made before the leases of the open ones run out, successive requeue
      delays of a hash the ledger never reports never decrease and never exceed the cap,
      whatever else the worker and the other writers do meanwhile. */
  lemma DelaysNeverDecrease(cfg: Config, es: seq<Event>, more: seq<Event>, h: Hash)
    requires InTimeRun(Empty, cfg, es) && InTimeRun(Run(Empty, cfg, es), cfg, more)
    requires h in Run(Empty, cfg, es).tracker.txs && Silent(Run(Empty, cfg, es), cfg, more, h)
    ensures var w := Run(Empty, cfg, es);
            var d := Delays(w, cfg, more, h);
            && NonDecreasing([LastDelay(w, cfg, h)] + d)
            && AllWithin(d, 0, cfg.maxBackoffMs)
  {
    hide Step, NonDecreasing;
    var w := Run(Empty, cfg, es);
    assert Fresh(Empty);
    FreshRun(Empty, cfg, es);
    InTimeNeverShrinks(w, cfg, more, h);
    DelaysNeverDecreaseIff(w, cfg, more, h);
    DelaysInRange(w, cfg, more, h);
    WaitPositive(cfg);
  }

  lemma {:induction false} FreshRun(w: World, cfg: Config, es: seq<Event>)
    requires JobsOk(w) && Fresh(w) && InTimeRun(w, cfg, es)
    ensures JobsOk(Run(w, cfg, es)) && Fresh(Run(w, cfg, es))
    decreases |es|
  {
    if es != [] {
      hide Step, JobsOk, Fresh, InTime;
      StepJobs(w, cfg, es[0]);
      StepFresh(w, cfg, es[0]);
      FreshRun(Step(w, cfg, es[0]), cfg, es[1..]);
    }
  }
}
