/** What callers of the dispute service can rely on, said over the records themselves: who is
    drawn, whose verdicts are counted, who is paid, who can withdraw. */
module DisputeLaws {
  import opened Common
  import opened Ruling
  import opened DisputeProtocol
  import opened DisputeInvariants
  import opened DisputeRulings

  // ---- the panel ----

  /** The verifiers that may sit on a panel: active, not excluded by address, not of a given
      region, of no given brokerage. */
  ghost function Available(s: State, sel: Selection): set<Address> {
    set a | && a in s.verifiers && s.verifiers[a].active == true && a !in sel.excludeAddresses
            && (sel.excludeRegion.Some? && sel.excludeRegion.value != "" ==> s.verifiers[a].region != sel.excludeRegion)
            && (forall b :: b in s.verifiers[a].brokerages ==> b !in sel.excludeBrokerages)
  }

  /** selectVerifiers draws panelSize distinct available verifiers, and throws exactly when
      there are fewer. */
  lemma PanelIsAvailable(s: State, sel: Selection, draws: seq<nat>)
    requires RosterOk(s) && DrawsFit(s, sel, draws)
    ensures SelectVerifiers(s, sel, draws).Err? <==> |Available(s, sel)| < sel.panelSize
    ensures SelectVerifiers(s, sel, draws).Ok? ==>
              var panel := SelectVerifiers(s, sel, draws).value;
              |panel| == Max(0, sel.panelSize) && Distinct(panel) && forall a :: a in panel ==> a in Available(s, sel)
  {
    SelectionMeaning(s, sel, draws);
    assert Available(s, sel) == set a | a in s.verifiers && Eligible(s.verifiers[a], a, sel);
    hide SelectVerifiers;
  }

  /** A dispute is accepted exactly from a lease party with enough verifiers available, both
      parties excluded; it opens without votes, for a week, with an available panel. */
  lemma SubmissionMeaning(s: State, id: DisputeId, claimant: Address, meta: Meta, sel: Selection, draws: seq<nat>, now: int)
    requires RosterOk(s) && DrawsFit(s, PartySelection(sel, meta), draws)
    ensures var r := SubmitDispute(s, id, claimant, meta, sel, draws, now);
            var among := Available(s, sel) - {meta.tenant, meta.landlord};
            && (r.Ok? <==> (claimant == meta.tenant || claimant == meta.landlord) && |among| >= sel.panelSize)
            && (r.Ok? ==>
                  && id in r.value.disputes && r.value == s.(disputes := s.disputes[id := r.value.disputes[id]])
                  && var d := r.value.disputes[id];
                     && d.claimant == claimant && d.meta == meta && d.openedAt == now && d.deadline == now + 604800
                     && d.votes == map[] && !d.withdrawn && d.ruling == None
                     && |d.panel| == Max(0, sel.panelSize) && Distinct(d.panel) && forall a :: a in d.panel ==> a in among)
  {
    hide SelectVerifiers;
    PanelIsAvailable(s, PartySelection(sel, meta), draws);
    var excluded := sel.excludeAddresses + [meta.tenant, meta.landlord];
    assert forall a :: a in excluded <==> a in sel.excludeAddresses || a == meta.tenant || a == meta.landlord;
    assert Available(s, PartySelection(sel, meta)) == Available(s, sel) - {meta.tenant, meta.landlord};
  }

  /** Registered and not active. */
  ghost predicate Retired(s: State, a: Address) { a in s.verifiers && !s.verifiers[a].active }

  lemma StepRoster(s: State, e: Event, pool: Address, a: Address)
    requires a in s.verifiers
    ensures var s' := Step(s, e, pool);
            && a in s'.verifiers
            && s'.verifiers[a].active == (s.verifiers[a].active && e != Deactivate(a))
            && s'.verifiers[a].region == s.verifiers[a].region && s'.verifiers[a].brokerages == s.verifiers[a].brokerages
  {
    hide Plan, SelectVerifiers, ComputeRuling, Truthy;
  }

  lemma StepEnters(s: State, e: Event, pool: Address, a: Address)
    requires a !in s.verifiers
    ensures var s' := Step(s, e, pool);
            && (a in s'.verifiers <==> e.Register? && e.a == a)
            && (a in s'.verifiers ==> s'.verifiers[a] == Entry(true, e.region, e.brokerages, 0, 0))
  {
    hide Plan, SelectVerifiers, ComputeRuling, Truthy;
  }

  /** Where a verifier stands after a run, by the events alone: the first registration counts,
      and a deactivation after it. */
  datatype Standing = Unknown | Active(region: Option<string>, brokerages: seq<string>) | Inactive(region: Option<string>, brokerages: seq<string>)

  ghost function StandingAfter(es: seq<Event>, a: Address): Standing {
    if es == [] then Unknown
    else
      var before := StandingAfter(es[..|es| - 1], a);
      var e := es[|es| - 1];
      if before.Unknown? && e.Register? && e.a == a then Active(e.region, e.brokerages)
      else if before.Active? && e == Deactivate(a) then Inactive(before.region, before.brokerages)
      else before
  }

  ghost function StandingIn(s: State, a: Address): Standing {
    if a !in s.verifiers then Unknown
    else if s.verifiers[a].active then Active(s.verifiers[a].region, s.verifiers[a].brokerages)
    else Inactive(s.verifiers[a].region, s.verifiers[a].brokerages)
  }

  lemma {:induction false} RunSnoc(s: State, es: seq<Event>, pool: Address)
    requires es != []
    ensures Run(s, es, pool) == Step(Run(s, es[..|es| - 1], pool), es[|es| - 1], pool)
    decreases |es|
  {
    hide Step;
    var n := |es| - 1;
    if n == 0 {
      assert es[1..] == [] && es[..0] == [];
      assert Run(Step(s, es[0], pool), [], pool) == Step(s, es[0], pool);
    } else {
      RunSnoc(Step(s, es[0], pool), es[1..], pool);
      assert es[1..][..n - 1] == es[..n][1..] && es[..n][0] == es[0];
    }
  }

  /** The roster holds exactly what the events of the run say. */
  lemma {:induction false} RosterFollowsEvents(es: seq<Event>, pool: Address, a: Address)
    ensures StandingIn(Run(Init, es, pool), a) == StandingAfter(es, a)
  {
    if es != [] {
      hide Run, Step;
      var n := |es| - 1;
      RosterFollowsEvents(es[..n], pool, a);
      RunSnoc(Init, es, pool);
      var s := Run(Init, es[..n], pool);
      if a in s.verifiers { StepRoster(s, es[n], pool, a); } else { StepEnters(s, es[n], pool, a); }
    } else {
      assert Run(Init, [], pool) == Init;
    }
  }

  lemma StepPanels(s: State, e: Event, pool: Address, id: DisputeId, a: Address)
    requires RosterOk(s) && Retired(s, a)
    requires id in Step(s, e, pool).disputes && a in Step(s, e, pool).disputes[id].panel
    ensures id in s.disputes && a in s.disputes[id].panel
  {
    hide Plan, Credit, SelectVerifiers, ComputeRuling, Truthy, Eligible;
    if e.Submit? && e.id !in s.disputes && DrawsFit(s, PartySelection(e.sel, e.meta), e.draws) {
      PanelIsAvailable(s, PartySelection(e.sel, e.meta), e.draws);
    }
  }

  /** Once deactivated, a verifier is drawn for no dispute submitted in any continuation. */
  lemma {:induction false} RetiredIsNeverDrawn(s: State, es: seq<Event>, pool: Address, a: Address, id: DisputeId)
    requires Inv(s, pool) && Retired(s, a) && id !in s.disputes && id in Run(s, es, pool).disputes
    ensures a !in Run(s, es, pool).disputes[id].panel
    decreases |es|
  {
    if es != [] {
      var s1 := Step(s, es[0], pool);
      StepKeeps(s, es[0], pool);
      assert RosterOk(s);
      hide Step, Inv;
      StepRoster(s, es[0], pool, a);
      if id in s1.disputes {
        if a in s1.disputes[id].panel { StepPanels(s, es[0], pool, id, a); }
        RunExtends(s1, es[1..], pool, id);
      } else {
        RetiredIsNeverDrawn(s1, es[1..], pool, a, id);
      }
    }
  }

  /** In a whole run: after Deactivate(a) of a registered verifier. */
  lemma DeactivatedIsNeverDrawn(es: seq<Event>, more: seq<Event>, pool: Address, a: Address, id: DisputeId)
    requires var s := Run(Init, es, pool); a in s.verifiers && id !in s.disputes
    requires id in Run(Step(Run(Init, es, pool), Deactivate(a), pool), more, pool).disputes
    ensures a !in Run(Step(Run(Init, es, pool), Deactivate(a), pool), more, pool).disputes[id].panel
  {
    var s := Run(Init, es, pool);
    ReachableOk(es, pool);
    StepKeeps(s, Deactivate(a), pool);
    StepRoster(s, Deactivate(a), pool, a);
    assert id !in Step(s, Deactivate(a), pool).disputes;
    hide Run, Step, Inv;
    RetiredIsNeverDrawn(Step(s, Deactivate(a), pool), more, pool, a, id);
  }

  // ---- votes ----

  /** A vote counts: the dispute is open, the voter is on its panel and has not voted. */
  ghost predicate Counts(s: State, id: DisputeId, v: Address) {
    && id in s.disputes && !s.disputes[id].withdrawn && s.disputes[id].ruling == None
    && v in s.disputes[id].panel && v !in s.disputes[id].votes
  }

  /** It is accepted exactly then, is stored as cast, and changes nothing else but the
      voter's number of cases. */
  lemma VoteMeaning(s: State, id: DisputeId, v: Address, r: Verdict)
    ensures CollectVote(s, id, v, r).Ok? <==> Counts(s, id, v)
    ensures Counts(s, id, v) ==>
              var s' := CollectVote(s, id, v, r).value;
              && s'.disputes.Keys == s.disputes.Keys
              && s'.disputes[id].votes == s.disputes[id].votes[v := r]
              && s'.disputes[id] == s.disputes[id].(votes := s'.disputes[id].votes)
              && (forall q :: q in s.disputes && q != id ==> s'.disputes[q] == s.disputes[q])
              && s'.verifiers.Keys == s.verifiers.Keys
              && (forall w :: w in s.verifiers ==>
                    s'.verifiers[w] == s.verifiers[w].(casesHandled := s.verifiers[w].casesHandled + if w == v then 1 else 0))
              && s'.roster == s.roster && s'.tasks == s.tasks && s'.ledger == s.ledger
  {
  }

  lemma StepVotes(s: State, e: Event, pool: Address, id: DisputeId)
    requires id in s.disputes
    ensures var s' := Step(s, e, pool);
            && id in s'.disputes
            && s'.disputes[id].votes == if e.Vote? && e.id == id && Counts(s, id, e.a)
                                        then s.disputes[id].votes[e.a := e.verdict] else s.disputes[id].votes
  {
    hide Plan, Credit, SelectVerifiers, ComputeRuling, Truthy;
  }

  lemma StepOpens(s: State, e: Event, pool: Address, id: DisputeId)
    requires id !in s.disputes && id in Step(s, e, pool).disputes
    ensures Step(s, e, pool).disputes[id].votes == map[]
  {
    hide Plan, Credit, SelectVerifiers, ComputeRuling, Truthy;
  }

  /** Once cast and counted, a verdict stands in every continuation. */
  lemma CastVoteStands(s: State, more: seq<Event>, pool: Address, id: DisputeId, v: Address, r: Verdict)
    requires Counts(s, id, v)
    ensures var s' := Run(Step(s, Vote(id, v, r), pool), more, pool);
            id in s'.disputes && v in s'.disputes[id].votes && s'.disputes[id].votes[v] == r
  {
    StepVotes(s, Vote(id, v, r), pool, id);
    hide Step, Run;
    RunExtends(Step(s, Vote(id, v, r), pool), more, pool, id);
  }

  /** How many verdicts r were cast and counted for a dispute over a run. */
  ghost function CastFor(es: seq<Event>, pool: Address, id: DisputeId, r: Verdict): nat {
    if es == [] then 0
    else
      var n := |es| - 1;
      CastFor(es[..n], pool, id, r) + if IsCast(Run(Init, es[..n], pool), es[n], id, r) then 1 else 0
  }

  ghost predicate IsCast(s: State, e: Event, id: DisputeId, r: Verdict) {
    e.Vote? && e.id == id && e.verdict == r && Counts(s, id, e.a)
  }

  ghost function VotesOf(s: State, id: DisputeId): Votes { if id in s.disputes then s.disputes[id].votes else map[] }

  lemma TallyStep(s: State, e: Event, pool: Address, id: DisputeId, r: Verdict)
    ensures TallyOf(VotesOf(Step(s, e, pool), id)).Of(r) == TallyOf(VotesOf(s, id)).Of(r) + if IsCast(s, e, id, r) then 1 else 0
  {
    if id in s.disputes {
      StepVotes(s, e, pool, id);
      hide Step, TallyOf;
      if e.Vote? && e.id == id && Counts(s, id, e.a) { TallyAdd(s.disputes[id].votes, e.a, e.verdict); }
    } else {
      if id in Step(s, e, pool).disputes { StepOpens(s, e, pool, id); }
      hide Step, TallyOf;
    }
  }

  /** In every run the tally of a dispute counts, for each ruling, exactly the verdicts cast
      for it: one per panel member, while the dispute was open. */
  lemma {:induction false} TallyIsVotesCast(es: seq<Event>, pool: Address, id: DisputeId, r: Verdict)
    ensures TallyOf(VotesOf(Run(Init, es, pool), id)).Of(r) == CastFor(es, pool, id, r)
  {
    if es != [] {
      hide Step, Run, TallyOf, Counts, VotesOf;
      var n := |es| - 1;
      TallyIsVotesCast(es[..n], pool, id, r);
      RunSnoc(Init, es, pool);
      TallyStep(Run(Init, es[..n], pool), es[n], pool, id, r);
    } else {
      NoTally(r);
      assert Run(Init, [], pool) == Init;
    }
  }

  lemma NoTally(r: Verdict)
    ensures TallyOf(map[]).Of(r) == 0
  {
    assert Voters(map[], TenantWins) == {} && Voters(map[], LandlordWins) == {} && Voters(map[], SystemFault) == {};
  }

  // ---- withdrawal and judgment ----

  /** Only the claimant can withdraw, only an open dispute, and nothing else changes. */
  lemma WithdrawalMeaning(s: State, id: DisputeId, claimant: Address)
    ensures WithdrawDispute(s, id, claimant).Ok? <==>
              id in s.disputes && !s.disputes[id].withdrawn && s.disputes[id].ruling == None && s.disputes[id].claimant == claimant
    ensures WithdrawDispute(s, id, claimant).Ok? ==>
              WithdrawDispute(s, id, claimant).value == s.(disputes := s.disputes[id := s.disputes[id].(withdrawn := true)])
  {
  }

  /** A dispute is withdrawn by exactly one kind of step, and then stays as it is. */
  lemma StepWithdraws(s: State, e: Event, pool: Address, id: DisputeId)
    requires id in s.disputes
    ensures var s' := Step(s, e, pool);
            && id in s'.disputes
            && s'.disputes[id].claimant == s.disputes[id].claimant && s'.disputes[id].meta == s.disputes[id].meta
            && (s'.disputes[id].withdrawn && !s.disputes[id].withdrawn <==>
                  e == Withdraw(id, s.disputes[id].claimant) && !s.disputes[id].withdrawn && s.disputes[id].ruling == None)
            && (s.disputes[id].withdrawn && s.disputes[id].ruling == None ==> s'.disputes[id] == s.disputes[id])
  {
    hide Plan, Credit, SelectVerifiers, ComputeRuling, Truthy;
  }

  /** A dispute is ruled exactly when it is open and computeRuling returns, with that ruling;
      the judgment starts with nothing sent. */
  lemma JudgmentMeaning(s: State, id: DisputeId, now: int)
    ensures var r := BeginJudgment(s, id, now);
            var open := id in s.disputes && !s.disputes[id].withdrawn && s.disputes[id].ruling == None;
            && (r.Ok? <==> open && ComputeRuling(|s.disputes[id].panel|, s.disputes[id].votes, s.disputes[id].deadline, now).Ok?)
            && (r.Ok? ==>
                  var d := s.disputes[id];
                  && Ok(r.value.disputes[id].ruling.GetOr(SystemFault)) == ComputeRuling(|d.panel|, d.votes, d.deadline, now)
                  && r.value.disputes == s.disputes[id := d.(ruling := r.value.disputes[id].ruling, executedTxs := [])]
                  && r.value.disputes[id].ruling.Some?
                  && r.value.tasks == s.tasks + [Task(id, 0, Running)]
                  && r.value.verifiers == s.verifiers && r.value.ledger == s.ledger)
  {
    hide ComputeRuling;
  }

  /** A refused submission fails its judgment and changes nothing else; an accepted one puts
      exactly the next transaction of the plan on the ledger. */
  lemma SubmissionAnswered(s: State, i: nat, reply: Reply, pool: Address)
    requires CanResume(s, i, pool)
    ensures var s' := Resume(s, i, reply, pool); var t := s.tasks[i];
            && (reply.Rejected? ==> s' == s.(tasks := s.tasks[i := t.(phase := Failed)]))
            && (reply.Confirmed? ==>
                  && s'.ledger == s.ledger + [Accepted(t.id, Plan(t.id, s.disputes[t.id], pool)[t.accepted], reply.hash)]
                  && s'.tasks[i].accepted == t.accepted + 1 && s'.tasks[i].id == t.id
                  && (s'.tasks[i].phase == Running <==> t.accepted + 1 < |Plan(t.id, s.disputes[t.id], pool)|)
                  && (forall j :: 0 <= j < |s.tasks| && j != i ==> s'.tasks[j] == s.tasks[j])
                  && (s'.tasks[i].phase == Finished ==> PlanCompletes(s.disputes[t.id]))
                  && (s'.tasks[i].phase == Failed ==> !PlanCompletes(s.disputes[t.id])))
  {
    hide Plan, Credit, Truthy;
  }

  // ---- who is paid ----

  ghost function PaidTo(txs: seq<Tx>, a: Address): nat {
    if txs == [] then 0 else (if txs[0].Pay? && txs[0].to == a then txs[0].drops else 0) + PaidTo(txs[1..], a)
  }

  ghost function DropsTo(txs: seq<Tx>, k: nat, a: Address): nat {
    if k < |txs| && txs[k].Pay? && txs[k].to == a then txs[k].drops else 0
  }

  lemma PaidToUnfold(txs: seq<Tx>, a: Address)
    requires 0 < |txs| <= 5
    ensures PaidTo(txs, a) == DropsTo(txs, 0, a) + DropsTo(txs, 1, a) + DropsTo(txs, 2, a) + DropsTo(txs, 3, a) + DropsTo(txs, 4, a)
  {
    if |txs| > 1 { assert txs[1..][1..] == txs[2..]; }
    if |txs| > 2 { assert txs[2..][1..] == txs[3..]; }
    if |txs| > 3 { assert txs[3..][1..] == txs[4..]; }
    if |txs| > 4 { assert txs[4..][1..] == []; }
  }

  /** What an address is due under a ruling: seven tenths of the stake, rounded down, if it is
      the tenant's and he won; the rest if it is the pool's; nothing otherwise. */
  ghost function DueTo(d: Dispute, pool: Address, a: Address): nat {
    if d.ruling == Some(TenantWins) && d.meta.stakeDrops.Some? then
      var stake := d.meta.stakeDrops.value;
      (if a == d.meta.tenant then stake * 7 / 10 else 0) + (if a == pool then stake - stake * 7 / 10 else 0)
    else 0
  }

  lemma PlanPays(id: DisputeId, d: Dispute, pool: Address, a: Address)
    requires d.ruling.Some?
    ensures PaidTo(Plan(id, d, pool), a) == DueTo(d, pool, a)
  {
    PaidToUnfold(Plan(id, d, pool), a);
    if d.meta.stakeDrops.Some? { ShareWithinStake(d.meta.stakeDrops.value); }
  }

  /** The order of settlement: the deposit first, the stake escrow second and only where the
      plan completes, payments between the two and the mint, the judgment NFT last. */
  lemma PlanOrder(id: DisputeId, d: Dispute, pool: Address, k: nat)
    requires d.ruling.Some?
    ensures var plan := Plan(id, d, pool);
            var complete := d.ruling != Some(TenantWins) || d.meta.stakeDrops.Some?;
            && |plan| == (if !complete then 1 else if d.ruling == Some(TenantWins) then 5 else 3)
            && plan[0] == (if d.ruling == Some(LandlordWins) then FinishEscrow(d.meta.deposit) else CancelEscrow(d.meta.deposit))
            && (complete ==> plan[1] == FinishEscrow(d.meta.stake.(fulfillment := None))
                             && plan[|plan| - 1] == MintJudgment(id, d.ruling.value, TallyOf(d.votes)))
            && (k < |plan| ==> (plan[k].Pay? <==> 1 < k < |plan| - 1))
            && (|plan| == 5 ==> plan[2].to == d.meta.tenant && plan[3].to == pool)
  {
    hide TallyOf;
  }

  /** In every reachable state: the ledger never pays an address more for a dispute than it is
      due, and has paid every address exactly that once the judgment has finished. */
  lemma LedgerPaysWhatIsDue(es: seq<Event>, pool: Address, i: nat, a: Address)
    requires i < |Run(Init, es, pool).tasks|
    ensures var s := Run(Init, es, pool); var t := s.tasks[i];
            && t.id in s.disputes
            && PaidTo(LedgerOf(s.ledger, t.id), a) <= DueTo(s.disputes[t.id], pool, a)
            && (t.phase == Finished ==> PaidTo(LedgerOf(s.ledger, t.id), a) == DueTo(s.disputes[t.id], pool, a))
  {
    var s := Run(Init, es, pool);
    var t := s.tasks[i];
    SettledOnce(es, pool, i, i);
    hide Run, DueTo, Plan;
    var plan := Plan(t.id, s.disputes[t.id], pool);
    PlanPays(t.id, s.disputes[t.id], pool, a);
    var paid := LedgerOf(s.ledger, t.id);
    assert paid == plan[..|paid|];
    PaidToPrefix(plan, |paid|, a);
  }

  lemma {:induction false} PaidToPrefix(txs: seq<Tx>, n: nat, a: Address)
    requires n <= |txs|
    ensures PaidTo(txs[..n], a) <= PaidTo(txs, a)
  {
    if n > 0 {
      PaidToPrefix(txs[1..], n - 1, a);
      assert txs[..n][1..] == txs[1..][..n - 1];
    }
  }
}
