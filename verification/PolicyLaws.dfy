/** What each step of the policy worker does, said over the fields of rows and jobs. */
module PolicyLaws {
  import opened Common
  import opened PolicyWorker
  import opened PolicyDelays
  import opened TxLaws
  import J = DelayedJobs
  import T = TxTracking

  /** A tick makes a job exactly for a watched row not checked for the timeout, unless there is
      one; the job is due at the tick's time, has no attempts and no lease. */
  lemma EnqueueMeaning(w: World, cfg: Config, e: Event)
    requires e.Enqueued?
    ensures var w' := Step(w, cfg, e); var id := "xrpl_policy:" + e.h;
            && w'.tracker == w.tracker && w'.batch == w.batch
            && w'.jobs.jobs == (if Watched(e.listed) && e.clock - e.listed.lastChecked >= cfg.pendingTimeoutMs && id !in w.jobs.jobs
                                then w.jobs.jobs[id := J.Job("xrpl_tx_policy_probe", e.h, e.now, 0, None)]
                                else w.jobs.jobs)
  {
    CandidateIsWatched(e.listed);
    hide T.IsPolicyCandidate, Watched;
  }

  /** A missing job comes back exactly by such a step. */
  lemma JobComesBackByListing(w: World, cfg: Config, e: Event, h: Hash)
    requires JobsOk(w) && PolicyJobId(h) !in w.jobs.jobs
    ensures PolicyJobId(h) in Step(w, cfg, e).jobs.jobs <==>
            e.Enqueued? && e.h == h && Watched(e.listed) && e.clock - e.listed.lastChecked >= cfg.pendingTimeoutMs
  {
    hide Step, JobsOk, T.IsPolicyCandidate, Watched;
    JobComesBackIff(w, cfg, e, h);
    if e.Enqueued? { CandidateIsWatched(e.listed); }
  }

  /** The wait before the n-th attempt: the interval doubled n times, at most fourteen, capped. */
  ghost function WaitFor(cfg: Config, n: nat): int {
    Min(cfg.maxBackoffMs, cfg.intervalMs * Pow2(if n <= 14 then n else 14))
  }

  lemma BackoffIs(cfg: Config, n: nat)
    ensures Backoff(cfg.intervalMs, cfg.maxBackoffMs, n) == WaitFor(cfg, n)
  {
    DoubledGrows(cfg.intervalMs, Min(Max(0, n), 14), 14);
  }

  ghost predicate Requeued(before: map<J.JobId, J.Job>, after: map<J.JobId, J.Job>, cfg: Config, c: Claimed, now: int) {
    && after.Keys == before.Keys
    && (forall x :: x in before && x != c.id ==> after[x] == before[x])
    && (c.id in before ==>
          after[c.id] == J.Job(before[c.id].kind, before[c.id].txHash, now + WaitFor(cfg, c.attempts + 1), c.attempts + 1, None))
  }

  lemma RequeueMeaning(jobs: J.State, cfg: Config, c: Claimed, now: int)
    ensures Requeued(jobs.jobs, Requeue(jobs, cfg, c, now).jobs, cfg, c, now)
  {
    BackoffIs(cfg, c.attempts + 1);
    hide Backoff, WaitFor;
  }

  /** A worked job of a row that is not watched is deleted. For a watched row: what the ledger
      reports is applied and the job deleted; a miss counts, and the job goes with the last one
      and waits otherwise; a probe that throws only waits. */
  lemma WorkMeaning(w: World, cfg: Config, i: nat, answer: Answer, now: int)
    requires i < |w.batch|
    ensures var c := w.batch[i]; var w' := Step(w, cfg, Worked(i, answer, now));
            var h := c.txHash; var txs := w.tracker.txs;
            && w'.batch == w.batch[..i] + w.batch[i + 1..]
            && (h == "" || h !in txs || !Watched(txs[h]) ==> w'.tracker == w.tracker && w'.jobs.jobs == w.jobs.jobs - {c.id})
            && (h != "" && h in txs && Watched(txs[h]) ==>
                  match answer
                  case Found(live) => w'.tracker == T.Step(w.tracker, T.Report(h, live, now)) && w'.jobs.jobs == w.jobs.jobs - {c.id}
                  case NotFound =>
                    && w'.tracker == w.tracker.(txs := txs[h := T.ProbeMissed(txs[h], cfg.maxNotFoundProbes, now)])
                    && (txs[h].retries + 1 >= cfg.maxNotFoundProbes ==> w'.jobs.jobs == w.jobs.jobs - {c.id})
                    && (txs[h].retries + 1 < cfg.maxNotFoundProbes ==> Requeued(w.jobs.jobs, w'.jobs.jobs, cfg, c, now))
                  case Threw => w'.tracker == w.tracker && Requeued(w.jobs.jobs, w'.jobs.jobs, cfg, c, now))
  {
    var c := w.batch[i];
    if c.txHash in w.tracker.txs { CandidateIsWatched(w.tracker.txs[c.txHash]); }
    RequeueMeaning(w.jobs, cfg, c, now);
    hide T.ApplyLive, T.ProbeMissed, T.IsPolicyCandidate, Watched, Requeued, Requeue, Backoff;
  }

  /** A claim takes the jobs of its kind that are due and not leased, and remembers of each its
      hash, its attempts and the end of its lease. */
  lemma ClaimingMeaning(w: World, cfg: Config, now: int)
    requires J.Valid(w.jobs)
    ensures var out := J.Picked(w.jobs, "xrpl_tx_policy_probe", now, cfg.batchSize);
            var w' := Step(w, cfg, Claiming(now));
            && w'.tracker == w.tracker && w'.jobs == J.Step(w.jobs, J.Claimed("xrpl_tx_policy_probe", now, cfg.batchSize, cfg.lockTtlMs))
            && |w'.batch| == |w.batch| + |out| && w.batch <= w'.batch
            && forall i :: 0 <= i < |out| ==>
                 out[i] in w.jobs.jobs
                 && w'.batch[|w.batch| + i] == Claimed(out[i], w.jobs.jobs[out[i]].txHash, w.jobs.jobs[out[i]].attempts, now + cfg.lockTtlMs)
  {
    hide J.Picked, J.Locked, Taken, J.Valid, Distinct;
    var out := J.Picked(w.jobs, KIND, now, cfg.batchSize);
    PickedIn(w.jobs, now, cfg.batchSize);
    TakenAll(w.jobs.jobs, out, now + cfg.lockTtlMs);
  }

  /** The tick tries to fill in the account of listed, watched rows without one: as many as
      there are, up to the cap. */
  lemma {:induction false} MissingMeaning(txs: map<Hash, T.Tx>, hs: seq<Hash>, limit: nat, h: Hash)
    ensures var out := Missing(txs, hs, limit);
            var lacks := h in hs && h in txs && Watched(txs[h]) && (txs[h].account == None || txs[h].account == Some(""));
            (h in out ==> lacks) && (lacks && |out| < limit ==> h in out)
  {
    if hs != [] {
      var last := |hs| - 1;
      MissingMeaning(txs, hs[..last], limit, h);
      if hs[last] in txs { CandidateIsWatched(txs[hs[last]]); }
      if h in txs { CandidateIsWatched(txs[h]); }
      hide T.IsPolicyCandidate, Watched;
      assert h in hs <==> h in hs[..last] || h == hs[last];
    }
  }
}
