/** The rulings of a run against its votes: a stored ruling is the plurality of the votes, and
    a majority decides it for good. */
module DisputeRulings {
  import opened Common
  import opened Ruling
  import opened DisputeProtocol
  import opened DisputeInvariants

  /** The panel stays and votes are only added. */
  ghost predicate Extends(d: Dispute, e: Dispute) {
    && e.panel == d.panel && e.deadline == d.deadline
    && forall v :: v in d.votes ==> v in e.votes && e.votes[v] == d.votes[v]
  }

  lemma StepExtends(s: State, e: Event, pool: Address, id: DisputeId)
    requires id in s.disputes
    ensures id in Step(s, e, pool).disputes && Extends(s.disputes[id], Step(s, e, pool).disputes[id])
  {
    hide Plan, Credit, SelectVerifiers, ComputeRuling;
  }

  lemma {:induction false} RunExtends(s: State, es: seq<Event>, pool: Address, id: DisputeId)
    requires id in s.disputes
    ensures id in Run(s, es, pool).disputes && Extends(s.disputes[id], Run(s, es, pool).disputes[id])
    decreases |es|
  {
    if es != [] {
      hide Step;
      StepExtends(s, es[0], pool, id);
      RunExtends(Step(s, es[0], pool), es[1..], pool, id);
    }
  }

  ghost predicate RulingOk(d: Dispute) { d.ruling.Some? ==> d.ruling.value == Plurality(TallyOf(d.votes)) }

  ghost predicate RulingsOk(s: State) { forall id :: id in s.disputes ==> RulingOk(s.disputes[id]) }

  /** Whichever branch computes it, a ruling is the plurality of the votes. */
  lemma RulingIsPlurality(panel: seq<Address>, votes: Votes, deadline: int, now: int)
    requires VotesFrom(panel, votes)
    ensures var r := ComputeRuling(|panel|, votes, deadline, now); r.Ok? ==> r.value == Plurality(TallyOf(votes))
  {
    TallyWithinPanel(panel, votes);
    hide TallyOf;
  }

  /** The one step that stores a ruling. */
  lemma StepRules(s: State, e: Event, pool: Address, id: DisputeId)
    requires id in Step(s, e, pool).disputes
    ensures var d' := Step(s, e, pool).disputes[id];
            || d'.ruling.None?
            || (id in s.disputes && s.disputes[id].ruling == d'.ruling && s.disputes[id].votes == d'.votes)
            || (id in s.disputes && d'.votes == s.disputes[id].votes && e.Judge?
                && Ok(d'.ruling.value) == ComputeRuling(|s.disputes[id].panel|, d'.votes, s.disputes[id].deadline, e.now))
  {
    hide Plan, Credit, SelectVerifiers, ComputeRuling;
  }

  lemma StepRulings(s: State, e: Event, pool: Address)
    requires Inv(s, pool) && RulingsOk(s)
    ensures RulingsOk(Step(s, e, pool))
  {
    var s' := Step(s, e, pool);
    hide Step, ComputeRuling, TallyOf, Plurality;
    forall id | id in s'.disputes ensures RulingOk(s'.disputes[id]) {
      StepRules(s, e, pool, id);
      if id in s.disputes && e.Judge? {
        var d := s.disputes[id];
        assert DisputeOk(d, s.verifiers.Keys) && RulingOk(d);
        RulingIsPlurality(d.panel, d.votes, d.deadline, e.now);
      }
    }
  }

  lemma {:induction false} RunRulings(s: State, es: seq<Event>, pool: Address)
    requires Inv(s, pool) && RulingsOk(s)
    ensures RulingsOk(Run(s, es, pool)) && Inv(Run(s, es, pool), pool)
    decreases |es|
  {
    if es != [] {
      hide Step, Inv, RulingsOk;
      StepKeeps(s, es[0], pool);
      StepRulings(s, es[0], pool);
      RunRulings(Step(s, es[0], pool), es[1..], pool);
    }
  }

  /** In every reachable state a stored ruling is the plurality of the votes cast. */
  lemma StoredRuling(es: seq<Event>, pool: Address, id: DisputeId)
    requires Ruled(Run(Init, es, pool), id)
    ensures var d := Run(Init, es, pool).disputes[id]; d.ruling.value == Plurality(TallyOf(d.votes))
  {
    InitOk(pool);
    RunRulings(Init, es, pool);
    assert RulingOk(Run(Init, es, pool).disputes[id]);
  }

  /** Once a reachable dispute has a majority for r, no votes still to come change that: in
      every continuation of the run the majority stands, is the only one, is what a judgment
      at any time would rule, and the dispute's ruling is r or not yet made. */
  lemma ReachableMajority(es: seq<Event>, more: seq<Event>, pool: Address, id: DisputeId, r: Verdict, q: Verdict, now: int)
    requires id in Run(Init, es, pool).disputes
    requires var d := Run(Init, es, pool).disputes[id]; HasMajority(d.panel, d.votes, r)
    ensures var s := Run(Run(Init, es, pool), more, pool);
            && id in s.disputes
            && var d := s.disputes[id];
               && HasMajority(d.panel, d.votes, r)
               && (HasMajority(d.panel, d.votes, q) ==> q == r)
               && ComputeRuling(|d.panel|, d.votes, d.deadline, now) == Ok(r)
               && Plurality(TallyOf(d.votes)) == r
               && (d.ruling == None || d.ruling == Some(r))
  {
    var s0 := Run(Init, es, pool);
    var s := Run(s0, more, pool);
    InitOk(pool);
    RunRulings(Init, es, pool);
    RunRulings(s0, more, pool);
    RunExtends(s0, more, pool, id);
    hide Run, ComputeRuling, TallyOf, Plurality, HasMajority;
    var d0, d := s0.disputes[id], s.disputes[id];
    assert DisputeOk(d0, s0.verifiers.Keys) && DisputeOk(d, s.verifiers.Keys) && RulingOk(d);
    MajorityIsFinal(d.panel, d0.votes, d.votes, r, d.deadline, now);
    if HasMajority(d.panel, d.votes, q) {
      OneMajority(d.panel, d.votes, r, q);
    }
  }
}
