/** Runs of overlapping policy ticks that go wrong: a lease that lapses and makes the waits of
    a hash shrink, and a listing so old that it brings back the job of a hash given up. */
module PolicyLapse {
  import opened Common
  import opened PolicyWorker
  import opened PolicyDelays
  import J = DelayedJobs
  import T = TxTracking

  const Lapsing := Config(1000, 0, 1, 5, 10, 60000, 0)     // a lease of 10 ms

  const Row := T.Tx("Payment", None, None, "testnet", T.PendingValidation, false, None, None, None, 0, 0, T.NoEscrow)

  function OneJob(job: J.Job, batch: seq<Claimed>): World {
    World(T.State(map["h" := Row], map[], []), J.State(map[PolicyJobId("h") := job], [PolicyJobId("h")]), batch)
  }

  function Held(attempts: nat, until: int): Claimed { Claimed(PolicyJobId("h"), "h", attempts, until) }

  /** The first claim is still being worked when its lease ends at 10 and the job is claimed
      again; it is requeued last. */
  function LapsingRun(): seq<Event> {
    [External(T.Track("h", "Payment", None, "testnet", None, 0)), Enqueued("h", Row, 0, 0), Claiming(0), Claiming(10),
     Worked(1, Threw, 10), Claiming(2010), Worked(1, Threw, 2010), Worked(0, Threw, 2010)]
  }

  lemma ClaimOneJob(cfg: Config, job: J.Job, batch: seq<Claimed>, now: int)
    requires cfg.batchSize == 1 && cfg.lockTtlMs == 10 && job.txHash == "h" && J.IsDue(job, KIND, now)
    ensures Step(OneJob(job, batch), cfg, Claiming(now)) ==
            OneJob(job.(lockedUntil := Some(now + 10)), batch + [Held(job.attempts, now + 10)])
  {
    var id := PolicyJobId("h");
    var jobs := map[id := job];
    var p, le := J.Due(jobs, KIND, now), J.Earlier(jobs);
    assert Filter([id], p) == [id] by { assert [id][1..] == []; }
    assert Sort([id], le) == [id] by { assert [id][1..] == []; }
    assert J.Picked(J.State(jobs, [id]), KIND, now, 1) == [id];
    assert Taken(jobs, [id], now + 10) == [Held(job.attempts, now + 10)] by { assert [id][1..] == []; }
    assert J.Locked(jobs, [id], now + 10) == map[id := job.(lockedUntil := Some(now + 10))];
  }

  lemma WorkOneJob(job: J.Job, batch: seq<Claimed>, i: nat, now: int)
    requires i < |batch| && batch[i] == Held(batch[i].attempts, batch[i].lockedUntil) && job.txHash == "h"
    ensures var a := batch[i].attempts + 1;
            Step(OneJob(job, batch), Lapsing, Worked(i, Threw, now)) ==
            OneJob(job.(attempts := a, runAfter := now + Wait(Lapsing, a), lockedUntil := None), DropAt(batch, i))
  {
    hide Backoff;
    var id := PolicyJobId("h");
    var a := batch[i].attempts + 1;
    var next := job.(attempts := a, runAfter := now + Wait(Lapsing, a), lockedUntil := None);
    assert map[id := job][id := next] == map[id := next];
  }

  lemma StartOneJob()
    ensures Step(Step(Empty, Lapsing, LapsingRun()[0]), Lapsing, LapsingRun()[1]) == OneJob(J.Job(KIND, "h", 0, 0, None), [])
  {
    assert T.UpsertTracked(T.Empty, "h", T.Params("Payment", None, None, "testnet"), 0) == T.State(map["h" := Row], map[], []);
  }

  lemma DelaysCons(w: World, cfg: Config, es: seq<Event>, k: nat, h: Hash)
    requires k < |es|
    ensures var w' := Step(w, cfg, es[k]);
            Delays(w, cfg, es[k..], h) ==
            (if Requeues(w, cfg, es[k], h) then [w'.jobs.jobs[PolicyJobId(h)].runAfter - es[k].now] else [])
            + Delays(w', cfg, es[k + 1..], h)
  {
    hide Step, Requeues;
    assert es[k..][0] == es[k] && es[k..][1..] == es[k + 1..];
  }

  lemma WaitValues()
    ensures Wait(Lapsing, 1) == 2000 && Wait(Lapsing, 2) == 4000
  {
    assert Pow2(1) == 2 && Pow2(2) == 4;
  }

  lemma NoRequeue(w: World, cfg: Config, e: Event, h: Hash)
    requires !e.Worked?
    ensures !Requeues(w, cfg, e, h)
  {
  }

  /** One requeue, and the delay it adds. */
  lemma WorkDelays(job: J.Job, batch: seq<Claimed>, es: seq<Event>, k: nat, next: J.Job, left: seq<Claimed>)
    requires k < |es| && es[k].Worked? && es[k].answer == Threw && es[k].i < |batch|
    requires batch[es[k].i] == Held(batch[es[k].i].attempts, batch[es[k].i].lockedUntil) && job.txHash == "h"
    requires var a := batch[es[k].i].attempts + 1;
             next == job.(attempts := a, runAfter := es[k].now + Wait(Lapsing, a), lockedUntil := None)
    requires left == DropAt(batch, es[k].i)
    ensures Delays(OneJob(job, batch), Lapsing, es[k..], "h") ==
            [Wait(Lapsing, batch[es[k].i].attempts + 1)] + Delays(OneJob(next, left), Lapsing, es[k + 1..], "h")
  {
    hide Wait, Delays, Step;
    WorkOneJob(job, batch, es[k].i, es[k].now);
    DelaysCons(OneJob(job, batch), Lapsing, es, k, "h");
  }

  lemma ClaimDelays(job: J.Job, batch: seq<Claimed>, es: seq<Event>, k: nat, more: seq<Claimed>)
    requires k < |es| && es[k].Claiming? && job.txHash == "h" && J.IsDue(job, KIND, es[k].now)
    requires more == batch + [Held(job.attempts, es[k].now + 10)]
    ensures Delays(OneJob(job, batch), Lapsing, es[k..], "h") ==
            Delays(OneJob(job.(lockedUntil := Some(es[k].now + 10)), more), Lapsing, es[k + 1..], "h")
  {
    hide Delays, Step, Requeues, OneJob;
    ClaimOneJob(Lapsing, job, batch, es[k].now);
    DelaysCons(OneJob(job, batch), Lapsing, es, k, "h");
    NoRequeue(OneJob(job, batch), Lapsing, es[k], "h");
  }

  lemma ThreeWaits(w1: World)
    requires w1 == Step(Empty, Lapsing, LapsingRun()[0])
    ensures Delays(w1, Lapsing, LapsingRun()[1..], "h") == [2000, 4000, 2000]
  {
    hide Delays, Step, OneJob, Wait, Requeues;
    var es := LapsingRun();
    WaitValues();
    DelaysCons(w1, Lapsing, es, 1, "h");
    NoRequeue(w1, Lapsing, es[1], "h");
    StartOneJob();
    var job := J.Job(KIND, "h", 0, 0, None);
    ClaimDelays(job, [], es, 2, [Held(0, 10)]);
    ClaimDelays(job.(lockedUntil := Some(10)), [Held(0, 10)], es, 3, [Held(0, 10), Held(0, 20)]);
    var j1 := J.Job(KIND, "h", 2010, 1, None);
    WorkDelays(job.(lockedUntil := Some(20)), [Held(0, 10), Held(0, 20)], es, 4, j1, [Held(0, 10)]);
    ClaimDelays(j1, [Held(0, 10)], es, 5, [Held(0, 10), Held(1, 2020)]);
    var j2 := J.Job(KIND, "h", 6010, 2, None);
    WorkDelays(j1.(lockedUntil := Some(2020)), [Held(0, 10), Held(1, 2020)], es, 6, j2, [Held(0, 10)]);
    WorkDelays(j2, [Held(0, 10)], es, 7, J.Job(KIND, "h", 4010, 1, None), []);
    NoDelays(OneJob(J.Job(KIND, "h", 4010, 1, None), []));
    assert es[8..] == [];
  }

  lemma NoDelays(w: World)
    ensures Delays(w, Lapsing, [], "h") == []
  {
  }

  /** Nothing in these events brings word of the hash. */
  lemma {:induction false} QuietRun(w: World, es: seq<Event>)
    requires forall i :: 0 <= i < |es| ==> !es[i].External? && (es[i].Worked? ==> !es[i].answer.Found?)
    ensures Silent(w, Lapsing, es, "h")
    decreases |es|
  {
    if es != [] {
      hide Step;
      forall i | 0 <= i < |es[1..]| ensures es[1..][i] == es[i + 1] {}
      QuietRun(Step(w, Lapsing, es[0]), es[1..]);
    }
  }

  /** From the first request on, the waits are 2, 4 and again 2 seconds for a hash nothing is
      heard of: one of its requeues was by a claim that remembered too few attempts. */
  lemma LapsedLeaseShrinks()
    ensures var w := Step(Empty, Lapsing, LapsingRun()[0]);
            var es := LapsingRun()[1..];
            && "h" in w.tracker.txs && Silent(w, Lapsing, es, "h")
            && Delays(w, Lapsing, es, "h") == [2000, 4000, 2000]
            && !NonDecreasing(Delays(w, Lapsing, es, "h")) && !NeverShrinks(w, Lapsing, es, "h")
  {
    hide Delays, Step, Silent, NeverShrinks, JobsOk, LastDelay, NonDecreasing, Row;
    var w := Step(Empty, Lapsing, LapsingRun()[0]);
    var es := LapsingRun()[1..];
    Tracked();
    QuietEvents();
    QuietRun(w, es);
    ThreeWaits(w);
    Shrunk(LastDelay(w, Lapsing, "h"));
    DelaysNeverDecreaseIff(w, Lapsing, es, "h");
  }

  lemma QuietEvents()
    ensures var es := LapsingRun()[1..];
            forall i :: 0 <= i < |es| ==> !es[i].External? && (es[i].Worked? ==> !es[i].answer.Found?)
  {
  }

  lemma Shrunk(a: int)
    ensures !NonDecreasing([2000, 4000, 2000]) && !NonDecreasing([a] + [2000, 4000, 2000])
  {
    var d, t := [2000, 4000, 2000], [a] + [2000, 4000, 2000];
    assert d[1] > d[2] && t[2] > t[3];
  }

  lemma Tracked()
    ensures var w := Step(Empty, Lapsing, LapsingRun()[0]);
            w == World(T.State(map["h" := Row], map[], []), J.Empty, []) && JobsOk(w)
  {
    assert T.UpsertTracked(T.Empty, "h", T.Params("Payment", None, None, "testnet"), 0) == T.State(map["h" := Row], map[], []);
  }

  lemma ThreeSteps(w: World, cfg: Config, a: Event, b: Event, c: Event)
    ensures Run(w, cfg, [a, b, c]) == Step(Step(Step(w, cfg, a), cfg, b), cfg, c)
  {
    hide Step;
    var es := [a, b, c];
    RunSnoc(w, cfg, es, 2);
    RunSnoc(w, cfg, es, 1);
    RunSnoc(w, cfg, es, 0);
    NoSteps(w, cfg);
    assert es[..3] == es && es[..0] == [] && es[..2 + 1] == es[..3] && es[..1 + 1] == es[..2] && es[..0 + 1] == es[..1];
  }

  /** The fourth event of that run is the claim that comes too late: the lease of the first
      claim, still open then, ended at 10. */
  lemma LapseIsLate()
    ensures !InTime(Run(Empty, Lapsing, LapsingRun()[..3]), LapsingRun()[3])
  {
    var es := LapsingRun();
    assert es[..3] == [es[0], es[1], es[2]];
    ThreeSteps(Empty, Lapsing, es[0], es[1], es[2]);
    StartOneJob();
    ClaimOneJob(Lapsing, J.Job(KIND, "h", 0, 0, None), [], 0);
    var w := Run(Empty, Lapsing, es[..3]);
    hide Run, Step;
    assert w.batch == [] + [Held(0, 10)];
    assert w.batch[0].lockedUntil == 10 && es[3] == Claiming(10);
  }

  // ---- a listing that is too old ----

  const GivingUp := Lapsing.(maxNotFoundProbes := 1)

  /** Two ticks list the row as it is tracked. One enqueues, claims and probes it and gives
      it up; then the other comes to enqueue it. */
  function StaleListing(): seq<Event> {
    [External(T.Track("h", "Payment", None, "testnet", None, 0)), Enqueued("h", Row, 0, 0), Claiming(0),
     Worked(0, NotFound, 0), Enqueued("h", Row, 0, 0)]
  }

  lemma GiveUpOneJob(job: J.Job)
    requires job == J.Job(KIND, "h", 0, 0, Some(10))
    ensures var w := Step(OneJob(job, [Held(0, 10)]), GivingUp, Worked(0, NotFound, 0));
            && "h" in w.tracker.txs && GivenUpRow(w.tracker.txs["h"]) && PolicyJobId("h") !in w.jobs.jobs && w.batch == []
  {
    hide Backoff;
    assert DropAt([Held(0, 10)], 0) == [];
  }

  lemma ListedRow()
    ensures Run(Empty, GivingUp, StaleListing()[..1]) == World(T.State(map["h" := Row], map[], []), J.Empty, [])
  {
    var es := StaleListing();
    assert es[..1] == [es[0]];
    OneStep(Empty, GivingUp, es[0]);
    assert T.UpsertTracked(T.Empty, "h", T.Params("Payment", None, None, "testnet"), 0) == T.State(map["h" := Row], map[], []);
  }

  lemma BeforeGiveUp()
    ensures Run(Empty, GivingUp, StaleListing()[..3]) == OneJob(J.Job(KIND, "h", 0, 0, Some(10)), [Held(0, 10)])
  {
    hide Run, Step, OneJob;
    var es := StaleListing();
    ListedRow();
    RunSnoc(Empty, GivingUp, es, 1);
    RunSnoc(Empty, GivingUp, es, 2);
    EnqueueOneJob();
    ClaimOneJob(GivingUp, J.Job(KIND, "h", 0, 0, None), [], 0);
    assert [] + [Held(0, 10)] == [Held(0, 10)];
  }

  lemma EnqueueOneJob()
    ensures Step(World(T.State(map["h" := Row], map[], []), J.Empty, []), GivingUp, Enqueued("h", Row, 0, 0)) ==
            OneJob(J.Job(KIND, "h", 0, 0, None), [])
  {
  }

  /** The job of a hash that has been given up is there again, for a row that is no candidate. */
  lemma StaleListingRecreatesJob()
    ensures var es := StaleListing();
            var w := Run(Empty, GivingUp, es[..4]);
            var w' := Run(Empty, GivingUp, es);
            && Run(Empty, GivingUp, es[..1]).tracker.txs == map["h" := es[4].listed]
            && "h" in w.tracker.txs && GivenUpRow(w.tracker.txs["h"]) && PolicyJobId("h") !in w.jobs.jobs
            && PolicyJobId("h") in w'.jobs.jobs && w'.tracker == w.tracker && !Candidate(w', "h")
  {
    hide Run, Step, OneJob, JobsOk;
    var es := StaleListing();
    ListedRow();
    BeforeGiveUp();
    RunSnoc(Empty, GivingUp, es, 3);
    RunSnoc(Empty, GivingUp, es, 4);
    assert es[..5] == es;
    GiveUpOneJob(J.Job(KIND, "h", 0, 0, Some(10)));
    var w := Run(Empty, GivingUp, es[..4]);
    StartsOk();
    RunJobs(Empty, GivingUp, es[..4]);
    JobComesBackIff(w, GivingUp, es[4], "h");
    EnqueueKeepsRows(w, GivingUp, es[4]);
  }

  lemma StartsOk()
    ensures JobsOk(Empty)
  {
  }

  lemma EnqueueKeepsRows(w: World, cfg: Config, e: Event)
    requires e.Enqueued?
    ensures Step(w, cfg, e).tracker == w.tracker
  {
  }
}
