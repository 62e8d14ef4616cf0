/** Delayed jobs with leases: create, claim, bump, delete. Times are milliseconds. */
module DelayedJobs {
  import opened Common

  type JobId = string

  datatype Job = Job(kind: string, txHash: string, runAfter: int, attempts: nat, lockedUntil: Option<int>)

  datatype State = State(
    jobs: map<JobId, Job>,
    order: seq<JobId>)          // insertion order of `jobs`

  const Empty := State(map[], [])

  ghost predicate Valid(s: State) {
    Distinct(s.order) && forall id :: id in s.order <==> id in s.jobs
  }

  function CreateIfAbsent(s: State, id: JobId, job: Job): State {
    if id in s.jobs then s else State(s.jobs[id := job], s.order + [id])
  }

  function Other(id: JobId): JobId -> bool { (x: JobId) => x != id }

  function Delete(s: State, id: JobId): State {
    State(s.jobs - {id}, Filter(s.order, Other(id)))
  }

  function Bump(s: State, id: JobId, runAfter: int, attempts: nat): State {
    if id !in s.jobs then s
    else s.(jobs := s.jobs[id := s.jobs[id].(runAfter := runAfter, attempts := attempts, lockedUntil := None)])
  }

  predicate IsDue(j: Job, kind: string, now: int) {
    j.kind == kind && j.runAfter <= now && (j.lockedUntil.None? || j.lockedUntil.value <= now)
  }

  function Due(jobs: map<JobId, Job>, kind: string, now: int): JobId -> bool {
    (id: JobId) => id in jobs && IsDue(jobs[id], kind, now)
  }

  function RunAfterOf(jobs: map<JobId, Job>, id: JobId): int { if id in jobs then jobs[id].runAfter else 0 }

  function Earlier(jobs: map<JobId, Job>): (JobId, JobId) -> bool {
    (a: JobId, b: JobId) => RunAfterOf(jobs, a) <= RunAfterOf(jobs, b)
  }

  /** The due jobs, earliest first, at most `limit` of them. */
  function Picked(s: State, kind: string, now: int, limit: nat): seq<JobId> {
    FirstSorted(s.order, Due(s.jobs, kind, now), Earlier(s.jobs), limit)
  }

  function Locked(jobs: map<JobId, Job>, ids: seq<JobId>, lockedUntil: int): map<JobId, Job> {
    map id | id in jobs :: if id in ids then jobs[id].(lockedUntil := Some(lockedUntil)) else jobs[id]
  }

  function Claim(s: State, kind: string, now: int, limit: nat, lockTtl: int): State {
    s.(jobs := Locked(s.jobs, Picked(s, kind, now, limit), now + lockTtl))
  }

  /** The store object; the claim loop rewrites the claimed records one by one. */
  class JobStore {
    var jobs: map<JobId, Job>
    var order: seq<JobId>

    ghost function View(): State
      reads this
    {
      State(jobs, order)
    }

    constructor ()
      ensures View() == Empty
    {
      jobs, order := map[], [];
    }

    method CreateDelayedJobIfAbsent(id: JobId, job: Job) returns (created: bool)
      modifies this
      ensures created == (id !in old(jobs)) && View() == CreateIfAbsent(old(View()), id, job)
    {
      if id in jobs { return false; }
      jobs := jobs[id := job];
      order := order + [id];
      return true;
    }

    method ClaimDueDelayedJobs(kind: string, now: int, limit: nat, lockTtl: int) returns (out: seq<JobId>)
      modifies this
      ensures out == Picked(old(View()), kind, now, limit)
      ensures View() == Claim(old(View()), kind, now, limit, lockTtl)
    {
      var candidates := Picked(State(jobs, order), kind, now, limit);
      ghost var was := jobs;
      out := [];
      for i := 0 to |candidates|
        invariant out == candidates[..i] && order == old(order)
        invariant jobs == Locked(was, candidates[..i], now + lockTtl)
      {
        var id := candidates[i];
        LockOneMore(was, candidates[..i], id, now + lockTtl);
        assert candidates[..i + 1] == candidates[..i] + [id];
        if id in jobs {
          jobs := jobs[id := jobs[id].(lockedUntil := Some(now + lockTtl))];
        }
        out := out + [id];
      }
      assert candidates[..|candidates|] == candidates;
    }

    method DeleteDelayedJob(id: JobId)
      modifies this
      ensures View() == Delete(old(View()), id)
    {
      jobs := jobs - {id};
      order := Filter(order, Other(id));
    }

    method BumpDelayedJob(id: JobId, runAfter: int, attempts: nat)
      modifies this
      ensures View() == Bump(old(View()), id, runAfter, attempts)
    {
      if id !in jobs { return; }
      jobs := jobs[id := jobs[id].(runAfter := runAfter, attempts := attempts, lockedUntil := None)];
    }
  }

  lemma LockOneMore(jobs: map<JobId, Job>, ids: seq<JobId>, id: JobId, until: int)
    ensures var l := Locked(jobs, ids, until);
            Locked(jobs, ids + [id], until) == if id in jobs then l[id := l[id].(lockedUntil := Some(until))] else l
  {
  }

  // ---- what a claim returns ----

  lemma EarlierPreorder(jobs: map<JobId, Job>)
    ensures TotalPreorder(Earlier(jobs))
  {
  }

  /** At most `limit` jobs, all of them due, none twice, in run-after order; a due job is
      left behind only when the claim is full, and is then no earlier than any claimed one. */
  lemma ClaimMeaning(s: State, kind: string, now: int, limit: nat, left: JobId)
    requires Valid(s)
    ensures var out := Picked(s, kind, now, limit);
            && |out| <= limit
            && Distinct(out)
            && (forall id :: id in out ==> id in s.jobs && IsDue(s.jobs[id], kind, now))
            && (forall i, j :: 0 <= i < j < |out| ==> RunAfterOf(s.jobs, out[i]) <= RunAfterOf(s.jobs, out[j]))
            && (left in s.jobs && IsDue(s.jobs[left], kind, now) && left !in out ==>
                  |out| == limit && forall id :: id in out ==> s.jobs[id].runAfter <= s.jobs[left].runAfter)
  {
    EarlierPreorder(s.jobs);
    FirstSortedMeaning(s.order, Due(s.jobs, kind, now), Earlier(s.jobs), limit);
  }

  // ---- leases ----

  datatype Event =
    | Created(id: JobId, job: Job)
    | Claimed(kind: string, now: int, limit: nat, lockTtl: int)
    | Bumped(id: JobId, runAfter: int, attempts: nat)
    | Deleted(id: JobId)

  function Step(s: State, e: Event): State {
    match e
    case Created(id, job) => CreateIfAbsent(s, id, job)
    case Claimed(kind, now, limit, ttl) => Claim(s, kind, now, limit, ttl)
    case Bumped(id, runAfter, attempts) => Bump(s, id, runAfter, attempts)
    case Deleted(id) => Delete(s, id)
  }

  function Run(s: State, es: seq<Event>): State
    decreases |es|
  {
    if es == [] then s else Run(Step(s, es[0]), es[1..])
  }

  lemma StepValid(s: State, e: Event)
    requires Valid(s)
    ensures Valid(Step(s, e))
  {
    if e.Deleted? { FilterDistinct(s.order, Other(e.id)); }
  }

  ghost predicate HeldUntil(s: State, id: JobId, until: int) {
    id in s.jobs && s.jobs[id].lockedUntil == Some(until)
  }

  /** No one bumps or deletes the job, and no claim is made at or after the lease's end. */
  ghost predicate Undisturbed(es: seq<Event>, id: JobId, until: int) {
    forall i :: 0 <= i < |es| ==>
      && (es[i].Claimed? ==> es[i].now < until)
      && (es[i].Bumped? || es[i].Deleted? ==> es[i].id != id)
  }

  lemma HeldStep(s: State, e: Event, id: JobId, until: int)
    requires HeldUntil(s, id, until)
    requires e.Claimed? ==> e.now < until
    requires e.Bumped? || e.Deleted? ==> e.id != id
    ensures HeldUntil(Step(s, e), id, until)
    ensures e.Claimed? ==> id !in Picked(s, e.kind, e.now, e.limit)
  {
    if e.Claimed? {
      var due := Filter(s.order, Due(s.jobs, e.kind, e.now));
      SortElems(due, Earlier(s.jobs));
      assert id !in due;
    }
  }

  /** In any interleaving, the claims of a run never return the leased job. */
  lemma {:induction false} LeaseExcludes(s: State, es: seq<Event>, id: JobId, until: int, k: nat)
    requires HeldUntil(s, id, until) && Undisturbed(es, id, until)
    requires k < |es| && es[k].Claimed?
    ensures id !in Picked(Run(s, es[..k]), es[k].kind, es[k].now, es[k].limit)
    decreases |es|
  {
    hide Step, Picked;
    if k == 0 {
      HeldStep(s, es[0], id, until);
    } else {
      HeldStep(s, es[0], id, until);
      var rest := es[1..];
      assert es[..k][1..] == rest[..k - 1] && es[..k][0] == es[0];
      forall i | 0 <= i < |rest| ensures rest[i] == es[i + 1] {}
      LeaseExcludes(Step(s, es[0]), rest, id, until, k - 1);
    }
  }

  /** After a claim at time t returned a job, no claim before t + lockTtl returns it again
      unless it has been bumped or deleted meanwhile. */
  lemma ClaimIsExclusive(s: State, kind: string, t: int, limit: nat, lockTtl: int, id: JobId, es: seq<Event>, k: nat)
    requires Valid(s) && id in Picked(s, kind, t, limit)
    requires Undisturbed(es, id, t + lockTtl) && k < |es| && es[k].Claimed?
    ensures var s1 := Claim(s, kind, t, limit, lockTtl);
            id !in Picked(Run(s1, es[..k]), es[k].kind, es[k].now, es[k].limit)
  {
    ClaimMeaning(s, kind, t, limit, id);
    LeaseExcludes(Claim(s, kind, t, limit, lockTtl), es, id, t + lockTtl, k);
  }

  // ---- the operations, field by field ----

  /** A job can be claimed: of the kind, its time come, not leased any more. */
  ghost predicate Claimable(s: State, kind: string, now: int, id: JobId) {
    && id in s.jobs && s.jobs[id].kind == kind && s.jobs[id].runAfter <= now
    && (s.jobs[id].lockedUntil == None || s.jobs[id].lockedUntil.value <= now)
  }

  /** A claim takes claimable jobs only and, with room left, all of them; it leases each until
      now plus the lock time and changes nothing else. */
  lemma ClaimTakes(s: State, kind: string, now: int, limit: nat, lockTtl: int, id: JobId)
    requires Valid(s)
    ensures var out := Picked(s, kind, now, limit);
            var s' := Step(s, Claimed(kind, now, limit, lockTtl));
            && (id in out ==> Claimable(s, kind, now, id))
            && (Claimable(s, kind, now, id) && |out| < limit ==> id in out)
            && s'.order == s.order && s'.jobs.Keys == s.jobs.Keys
            && (id in s.jobs ==> s'.jobs[id] == if id in out then s.jobs[id].(lockedUntil := Some(now + lockTtl)) else s.jobs[id])
  {
    ClaimMeaning(s, kind, now, limit, id);
    hide Picked;
  }

  /** Creating keeps a job of that id; deleting removes it; bumping sets its time and attempts
      and drops its lease; no other job is touched. */
  lemma StepMeaning(s: State, e: Event, id: JobId)
    requires !e.Claimed?
    ensures var s' := Step(s, e);
            && (e.id != id ==> (id in s'.jobs <==> id in s.jobs) && (id in s.jobs ==> s'.jobs[id] == s.jobs[id]))
            && (e.Created? && e.id == id ==> id in s'.jobs && s'.jobs[id] == if id in s.jobs then s.jobs[id] else e.job)
            && (e.Deleted? && e.id == id ==> id !in s'.jobs)
            && (e.Bumped? && e.id == id ==>
                  && (id in s'.jobs <==> id in s.jobs)
                  && (id in s.jobs ==> s'.jobs[id] == Job(s.jobs[id].kind, s.jobs[id].txHash, e.runAfter, e.attempts, None)))
  {
  }

  lemma StepKeepsTime(s: State, e: Event, id: JobId)
    requires Valid(s) && id in s.jobs && (e.Bumped? || e.Deleted? ==> e.id != id)
    ensures id in Step(s, e).jobs && Step(s, e).jobs[id].runAfter == s.jobs[id].runAfter && Step(s, e).jobs[id].attempts == s.jobs[id].attempts
  {
    if e.Claimed? { ClaimTakes(s, e.kind, e.now, e.limit, e.lockTtl, id); } else { StepMeaning(s, e, id); }
  }

  /** A job put off until t is not claimed before t in any run that does not bump or delete it
      again. */
  lemma {:induction false} PutOffUntil(s: State, es: seq<Event>, id: JobId, t: int, k: nat)
    requires Valid(s) && id in s.jobs && s.jobs[id].runAfter == t
    requires forall i :: 0 <= i < |es| && (es[i].Bumped? || es[i].Deleted?) ==> es[i].id != id
    requires k < |es| && es[k].Claimed? && es[k].now < t
    ensures id !in Picked(Run(s, es[..k]), es[k].kind, es[k].now, es[k].limit)
    decreases |es|
  {
    hide Step, Picked;
    if k == 0 {
      ClaimTakes(s, es[0].kind, es[0].now, es[0].limit, es[0].lockTtl, id);
    } else {
      StepKeepsTime(s, es[0], id);
      StepValid(s, es[0]);
      var rest := es[1..];
      assert es[..k][1..] == rest[..k - 1] && es[..k][0] == es[0];
      forall i | 0 <= i < |rest| ensures rest[i] == es[i + 1] {}
      PutOffUntil(Step(s, es[0]), rest, id, t, k - 1);
    }
  }
}
