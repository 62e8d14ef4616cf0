/** How a dispute becomes pending, what settles one whose transaction is already validated,
    and what becomes of one whose hash another dispute takes over. */
module TxPending {
  import opened Common
  import opened TxTracking
  import opened TxInvariants
  import W = PolicyWorker

  predicate Accepts(s: State, e: Event)
  {
    e.Execute? && RequestExecution(s, e.id, e.h, e.txType, e.owner, e.network, e.ledgerBacked, e.reply, e.now).Ok?
  }

  lemma MergeValidated(t: Tx, l: Live, now: int)
    ensures var m := Merge(t, l, now); m.validated == l.validated && m.disputeId == t.disputeId
  {
  }

  /** An accepted execution request leaves the dispute pending and linked, even when its
      transaction is validated already: by the reply, or, without one, from before. */
  lemma ExecuteMakesPending(s: State, e: Event)
    requires Accepts(s, e)
    ensures var s' := Step(s, e);
            && e.id in s'.disputes && s'.disputes[e.id] == ExecutionPending && Linked(s', e.h, e.id)
            && (s'.txs[e.h].validated <==>
                  if e.reply.Some? then e.reply.value.validated else e.h in s.txs && s.txs[e.h].validated)
  {
    hide Merge, Resolve;
    if e.reply.Some? {
      MergeValidated(UpsertTracked(s, e.h, Params(e.txType, Some(e.owner), Some(e.id), e.network), e.now).txs[e.h], e.reply.value, e.now);
    }
  }

  /** A validated row loses its flag by exactly an unvalidated report of its hash, or by
      tracking or executing with the hash when the live reply is not validated. */
  lemma LosesValidationIff(s: State, e: Event, h: Hash)
    requires h in s.txs && s.txs[h].validated
    ensures h in Step(s, e).txs
    ensures !Step(s, e).txs[h].validated <==>
            || (e.Report? && e.h == h && !e.live.validated)
            || (e.Track? && e.h == h && e.reply.Some? && !e.reply.value.validated)
            || (Accepts(s, e) && e.h == h && e.reply.Some? && !e.reply.value.validated)
  {
    hide Merge, Resolve, Simulated, ProbeMissed, Trim;
    match e {
      case Report(g, live, now) => if g in s.txs { MergeValidated(s.txs[g], live, now); }
      case Track(g, txType, account, network, reply, now) =>
        if reply.Some? {
          MergeValidated(UpsertTracked(s, g, Params(txType, account, None, network), now).txs[g], reply.value, now);
        }
      case Execute(id, g, txType, owner, network, _, reply, now) =>
        if reply.Some? {
          MergeValidated(UpsertTracked(s, g, Params(txType, Some(owner), Some(id), network), now).txs[g], reply.value, now);
        }
      case _ =>
    }
  }

  // ---- pending with a validated transaction ----

  ghost predicate ValidatedPending(s: State, h: Hash, id: DisputeId) {
    && LinksOk(s) && Linked(s, h, id) && s.txs[h].validated
    && id in s.disputes && s.disputes[id] == ExecutionPending
  }

  /** The step brings a validated report of h: directly, or as the reply to tracking it. */
  ghost predicate ReportsValidated(e: Event, h: Hash) {
    || (e.Report? && e.h == h && e.live.validated)
    || (e.Track? && e.h == h && e.reply.Some? && e.reply.value.validated)
  }

  /** Such a dispute is settled by exactly the validated reports of its hash. Probes and the
      simulated backfill pass it over. */
  lemma SettledByReportIff(s: State, e: Event, h: Hash, id: DisputeId)
    requires ValidatedPending(s, h, id)
    ensures id in Step(s, e).disputes
    ensures Step(s, e).disputes[id] != ExecutionPending <==> ReportsValidated(e, h)
  {
    hide Merge, Simulated, ProbeMissed, Trim;
    StepMoves(s, e, id);
    match e {
      case Report(g, live, now) =>
        if g in s.txs { MergeValidated(s.txs[g], live, now); assert Linked(s, g, id) ==> g == h; }
      case Track(g, txType, account, network, reply, now) =>
        if reply.Some? {
          MergeValidated(UpsertTracked(s, g, Params(txType, account, None, network), now).txs[g], reply.value, now);
          assert Linked(s, g, id) ==> g == h;
        }
      case Execute(other, g, txType, owner, network, _, reply, now) =>
        if reply.Some? {
          MergeValidated(UpsertTracked(s, g, Params(txType, Some(owner), Some(other), network), now).txs[g], reply.value, now);
        }
      case Simulate(g, code, fromLedger, now) =>
        if g in s.txs && !s.txs[g].validated { SimulateKeepsLink(s, g, code, fromLedger, now); assert Linked(s, g, id) ==> g == h; }
      case _ =>
    }
  }

  lemma SimulateKeepsLink(s: State, g: Hash, code: string, fromLedger: int, now: int)
    requires g in s.txs && !s.txs[g].validated
    ensures var u := Simulated(s.txs[g], code, fromLedger, now);
            && u.disputeId == s.txs[g].disputeId
            && Merge(u, Live(u.validated, u.ledgerIndex, u.resultCode, None, None, NoEscrow), now).disputeId == u.disputeId
  {
  }

  /** What a step of the policy worker does to the tracker is a report, a miss or nothing. */
  lemma PolicyStep(w: W.World, cfg: W.Config, e: W.Event)
    requires !e.External?
    ensures var t := W.Step(w, cfg, e).tracker;
            || t == w.tracker
            || (exists g, l, now :: Candidate(w.tracker, g) && t == Step(w.tracker, Report(g, l, now)))
            || (exists g, max, now :: Candidate(w.tracker, g) && t == Step(w.tracker, Missed(g, max, now)))
  {
    hide ApplyLive, PolicyMiss, W.Requeue, IsPolicyCandidate;
    if e.Worked? && e.i < |w.batch| && e.answer.Found? {
      assert Step(w.tracker, Report(w.batch[e.i].txHash, e.answer.live, e.now))
          == ApplyLive(w.tracker, w.batch[e.i].txHash, e.answer.live, e.now);
    }
    if e.Worked? && e.i < |w.batch| && e.answer.NotFound? {
      assert Step(w.tracker, Missed(w.batch[e.i].txHash, cfg.maxNotFoundProbes, e.now))
          == PolicyMiss(w.tracker, w.batch[e.i].txHash, cfg.maxNotFoundProbes, e.now);
    }
  }

  ghost predicate Candidate(s: State, g: Hash) { g in s.txs && IsPolicyCandidate(s.txs[g]) }

  lemma OtherHashKeeps(s: State, e: Event, g: Hash, h: Hash, id: DisputeId)
    requires ValidatedPending(s, h, id) && g != h
    requires (e.Report? && e.h == g) || (e.Missed? && e.h == g)
    ensures ValidatedPending(Step(s, e), h, id)
  {
    SettledByReportIff(s, e, h, id);
    StepLinks(s, e);
    hide Merge, ProbeMissed;
  }

  /** No run of the policy worker alone settles it: its row is no candidate. */
  lemma {:induction false} PolicyNeverSettles(w: W.World, cfg: W.Config, es: seq<W.Event>, h: Hash, id: DisputeId)
    requires ValidatedPending(w.tracker, h, id) && forall i :: 0 <= i < |es| ==> !es[i].External?
    ensures ValidatedPending(W.Run(w, cfg, es).tracker, h, id)
    decreases |es|
  {
    if es != [] {
      var w1 := W.Step(w, cfg, es[0]);
      PolicyStep(w, cfg, es[0]);
      hide W.Step, Step, ValidatedPending;
      assert !Candidate(w.tracker, h) by { NoCandidate(w.tracker, h, id); }
      if w1.tracker != w.tracker {
        if g, l, now :| Candidate(w.tracker, g) && w1.tracker == Step(w.tracker, Report(g, l, now)) {
          OtherHashKeeps(w.tracker, Report(g, l, now), g, h, id);
        } else {
          var g, max, now :| Candidate(w.tracker, g) && w1.tracker == Step(w.tracker, Missed(g, max, now));
          OtherHashKeeps(w.tracker, Missed(g, max, now), g, h, id);
        }
      }
      PolicyNeverSettles(w1, cfg, es[1..], h, id);
    }
  }

  lemma NoCandidate(s: State, h: Hash, id: DisputeId)
    requires ValidatedPending(s, h, id)
    ensures !Candidate(s, h)
  {
  }

  // ---- a hash used again ----

  ghost predicate HasHash(s: State, id: DisputeId) { exists h :: Linked(s, h, id) }

  /** Some execution request of the run, for whichever dispute, uses h. */
  ghost predicate HashTaken(s: State, es: seq<Event>, h: Hash)
    decreases |es|
  {
    es != [] && ((Accepts(s, es[0]) && es[0].h == h) || HashTaken(Step(s, es[0]), es[1..], h))
  }

  lemma StepKeepsLink(s: State, e: Event, h: Hash, id: DisputeId)
    requires Linked(s, h, id) && StageIn(s, id) >= 2
    ensures Linked(Step(s, e), h, id) <==> !(Accepts(s, e) && e.h == h)
  {
    hide Merge, Simulated, ProbeMissed, Resolve, Trim;
    match e {
      case Report(g, live, now) => if g in s.txs { MergeValidated(s.txs[g], live, now); }
      case Track(g, txType, account, network, reply, now) =>
        if reply.Some? {
          MergeValidated(UpsertTracked(s, g, Params(txType, account, None, network), now).txs[g], reply.value, now);
        }
      case Execute(other, g, txType, owner, network, _, reply, now) =>
        if reply.Some? {
          MergeValidated(UpsertTracked(s, g, Params(txType, Some(owner), Some(other), network), now).txs[g], reply.value, now);
        }
      case Simulate(g, code, fromLedger, now) =>
        if g in s.txs && !s.txs[g].validated { SimulateKeepsLink(s, g, code, fromLedger, now); }
      case Missed(g, max, now) => if g in s.txs { MissKeepsLink(s.txs[g], max, now); }
      case _ =>
    }
  }

  lemma MissKeepsLink(t: Tx, max: int, now: int)
    ensures ProbeMissed(t, max, now).disputeId == t.disputeId
  {
  }

  /** A dispute without a hash stays without one, and so stays pending for good. */
  lemma {:induction false} OrphanStaysPending(s: State, es: seq<Event>, id: DisputeId)
    requires !HasHash(s, id) && id in s.disputes && s.disputes[id] == ExecutionPending
    ensures var s' := Run(s, es); !HasHash(s', id) && id in s'.disputes && s'.disputes[id] == ExecutionPending
    decreases |es|
  {
    if es != [] {
      var s1 := Step(s, es[0]);
      hide Step;
      StepMoves(s, es[0], id);
      forall g ensures !Linked(s1, g, id) {
        if Linked(s1, g, id) { StepLink(s, es[0], g, id); }
      }
      if s1.disputes[id] != ExecutionPending { LeavesPendingByLink(s, es[0], id); }
      OrphanStaysPending(s1, es[1..], id);
    }
  }

  /** A dispute under execution keeps its hash exactly as long as no later execution request
      uses that hash. */
  lemma {:induction false} KeepsHashIff(s: State, es: seq<Event>, h: Hash, id: DisputeId)
    requires LinksOk(s) && Linked(s, h, id)
    ensures HasHash(Run(s, es), id) <==> !HashTaken(s, es, h)
    decreases |es|
  {
    if es != [] {
      var s1 := Step(s, es[0]);
      StepLinks(s, es[0]);
      StepKeepsLink(s, es[0], h, id);
      StageRises(s, es[0], id);
      if Accepts(s, es[0]) && es[0].h == h {
        forall g ensures !Linked(s1, g, id) {
          if Linked(s1, g, id) { StepLink(s, es[0], g, id); }
        }
        hide Step;
        NoHashStays(s1, es[1..], id);
      } else {
        hide Step;
        KeepsHashIff(s1, es[1..], h, id);
      }
    }
  }

  lemma {:induction false} NoHashStays(s: State, es: seq<Event>, id: DisputeId)
    requires !HasHash(s, id) && StageIn(s, id) >= 2
    ensures !HasHash(Run(s, es), id)
    decreases |es|
  {
    if es != [] {
      var s1 := Step(s, es[0]);
      hide Step;
      StageRises(s, es[0], id);
      forall g ensures !Linked(s1, g, id) {
        if Linked(s1, g, id) { StepLink(s, es[0], g, id); }
      }
      NoHashStays(s1, es[1..], id);
    }
  }

  /** Two decided disputes executed with one hash. */
  function SharedHash(a: DisputeId, b: DisputeId, h: Hash): seq<Event> {
    [FileDispute(a), FileDispute(b), Decide(a), Decide(b),
     Execute(a, h, "EscrowFinish", "owner", "testnet", false, None, 0),
     Execute(b, h, "EscrowFinish", "owner", "testnet", false, None, 0)]
  }

  lemma RunSnoc(s: State, es: seq<Event>, k: nat)
    requires k < |es|
    ensures Run(s, es[..k + 1]) == Step(Run(s, es[..k]), es[k])
    decreases k
  {
    hide Step;
    if k == 0 {
      assert es[..1] == [es[0]] && es[..1][1..] == [];
      assert Run(Step(s, es[0]), []) == Step(s, es[0]);
    } else {
      assert es[..k + 1][1..] == es[1..][..k] && es[..k][1..] == es[1..][..k - 1];
      RunSnoc(Step(s, es[0]), es[1..], k - 1);
    }
  }

  /** The first of them is left pending without a hash, so for good. */
  lemma SharedHashOrphans(a: DisputeId, b: DisputeId, h: Hash, more: seq<Event>)
    requires a != b
    ensures var s := Run(Run(Empty, SharedHash(a, b, h)), more);
            a in s.disputes && s.disputes[a] == ExecutionPending && !HasHash(s, a)
  {
    var es := SharedHash(a, b, h);
    var s := Run(Empty, es);
    OrphanAtEnd(a, b, h);
    hide Run;
    OrphanStaysPending(s, more, a);
  }

  lemma OrphanAtEnd(a: DisputeId, b: DisputeId, h: Hash)
    requires a != b
    ensures var s := Run(Empty, SharedHash(a, b, h)); a in s.disputes && s.disputes[a] == ExecutionPending && !HasHash(s, a)
  {
    var es := SharedHash(a, b, h);
    var s1 := Step(Empty, es[0]);
    var s2 := Step(s1, es[1]);
    var s3 := Step(s2, es[2]);
    var s4 := Step(s3, es[3]);
    assert s4.txs == map[] && s4.disputes == map[a := Decided, b := Decided];
    var s5 := Step(s4, es[4]);
    var s6 := Step(s5, es[5]);
    assert s6.disputes == map[a := ExecutionPending, b := ExecutionPending];
    assert s6.txs.Keys == {h} && s6.txs[h].disputeId == Some(b);
    SixSteps(es);
  }

  lemma SixSteps(es: seq<Event>)
    requires |es| == 6
    ensures Run(Empty, es) == Step(Step(Step(Step(Step(Step(Empty, es[0]), es[1]), es[2]), es[3]), es[4]), es[5])
  {
    hide Step;
    RunSnoc(Empty, es, 0);
    RunSnoc(Empty, es, 1);
    RunSnoc(Empty, es, 2);
    RunSnoc(Empty, es, 3);
    RunSnoc(Empty, es, 4);
    RunSnoc(Empty, es, 5);
    assert es[..6] == es && es[..0] == [] && Run(Empty, []) == Empty;
  }
}
