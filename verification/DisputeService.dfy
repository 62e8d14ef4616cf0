/** The service object: maps of disputes and verifiers updated in place. Each method is
    proved against the protocol step it performs. */
module DisputeServiceObject {
  import opened Common
  import opened Ruling
  import opened DisputeProtocol
  import PanelDraw

  class DisputeService {
    var verifiers: map<Address, Entry>
    var roster: seq<Address>
    var disputes: map<DisputeId, Dispute>
    var tasks: seq<Task>
    ghost var ledger: seq<Accepted>
    const insurancePool: Address

    ghost function View(): State
      reads this
    {
      State(verifiers, roster, disputes, tasks, ledger)
    }

    constructor (pool: Address)
      ensures View() == Init && insurancePool == pool
    {
      verifiers, roster, disputes, tasks, ledger := map[], [], map[], [], [];
      insurancePool := pool;
    }

    method RegisterVerifier(a: Address, region: Option<string>, brokerages: seq<string>) returns (r: Result<()>)
      modifies this
      ensures Performs(r, DisputeProtocol.RegisterVerifier(old(View()), a, region, brokerages), old(View()), View())
    {
      if a in verifiers { return Err("verifier already registered"); }
      verifiers := verifiers[a := Entry(true, region, brokerages, 0, 0)];
      roster := roster + [a];
      return Ok(());
    }

    method DeactivateVerifier(a: Address) returns (r: Result<()>)
      modifies this
      ensures Performs(r, DisputeProtocol.DeactivateVerifier(old(View()), a), old(View()), View())
    {
      if a !in verifiers { return Err("verifier not found"); }
      verifiers := verifiers[a := verifiers[a].(active := false)];
      return Ok(());
    }

    method EligibleAddresses(sel: Selection) returns (eligible: seq<Address>)
      ensures eligible == Pool(View(), sel)
    {
      eligible := [];
      ghost var keep := EligibleIn(verifiers, sel);
      for i := 0 to |roster|
        invariant eligible == Filter(roster[..i], keep)
      {
        assert roster[..i + 1] == roster[..i] + [roster[i]];
        FilterAppend(roster[..i], [roster[i]], keep);
        if roster[i] in verifiers && Eligible(verifiers[roster[i]], roster[i], sel) {
          eligible := eligible + [roster[i]];
        }
      }
      assert roster[..|roster|] == roster;
    }

    /** Copies the eligible addresses into an array, shuffles its tail in place and slices
        it off. */
    method SelectVerifiers(sel: Selection, draws: seq<nat>) returns (r: Result<seq<Address>>)
      requires DrawsFit(View(), sel, draws)
      ensures r == DisputeProtocol.SelectVerifiers(View(), sel, draws)
    {
      var eligible := EligibleAddresses(sel);
      if |eligible| < sel.panelSize { return Err("not enough eligible verifiers"); }
      var panel := DrawPanel(eligible, draws);
      return Ok(panel);
    }

    static method DrawPanel(eligible: seq<Address>, draws: seq<nat>) returns (panel: seq<Address>)
      requires PanelDraw.ValidDraws(draws, |eligible|)
      ensures panel == PanelDraw.Panel(eligible, draws)
    {
      var arr := new Address[|eligible|](i requires 0 <= i < |eligible| => eligible[i]);
      assert arr[..] == eligible;
      PanelDraw.PartialShuffle(arr, draws);
      panel := arr[arr.Length - |draws|..];
    }

    method SubmitDispute(id: DisputeId, claimant: Address, meta: Meta, sel: Selection, draws: seq<nat>, now: int)
      returns (r: Result<()>)
      requires DrawsFit(View(), PartySelection(sel, meta), draws)
      modifies this
      ensures Performs(r, DisputeProtocol.SubmitDispute(old(View()), id, claimant, meta, sel, draws, now), old(View()), View())
    {
      if claimant != meta.tenant && claimant != meta.landlord { return Err("claimant must be a lease party"); }
      var panel := SelectVerifiers(PartySelection(sel, meta), draws);
      match panel {
        case Err(e) => return Err(e);
        case Ok(p) =>
          disputes := disputes[id := Dispute(claimant, now, now + VOTING_PERIOD, p, map[], false, None, [], meta)];
          return Ok(());
      }
    }

    method RequireOpen(id: DisputeId) returns (r: Result<Dispute>)
      ensures r == DisputeProtocol.RequireOpen(View(), id)
    {
      if id !in disputes { return Err("dispute not found"); }
      var d := disputes[id];
      if d.withdrawn { return Err("dispute withdrawn"); }
      if d.ruling.Some? { return Err("dispute already executed"); }
      return Ok(d);
    }

    method CollectVote(id: DisputeId, v: Address, verdict: Verdict) returns (r: Result<()>)
      modifies this
      ensures Performs(r, DisputeProtocol.CollectVote(old(View()), id, v, verdict), old(View()), View())
    {
      var open := RequireOpen(id);
      if open.Err? { return Err(open.error); }
      var d := open.value;
      if v !in d.panel { return Err("not on panel"); }
      if v in d.votes { return Err("already voted"); }
      disputes := disputes[id := d.(votes := d.votes[v := verdict])];
      if v in verifiers {
        verifiers := verifiers[v := verifiers[v].(casesHandled := verifiers[v].casesHandled + 1)];
      }
      return Ok(());
    }

    method WithdrawDispute(id: DisputeId, claimant: Address) returns (r: Result<()>)
      modifies this
      ensures Performs(r, DisputeProtocol.WithdrawDispute(old(View()), id, claimant), old(View()), View())
    {
      var open := RequireOpen(id);
      if open.Err? { return Err(open.error); }
      if open.value.claimant != claimant { return Err("not the claimant"); }
      disputes := disputes[id := open.value.(withdrawn := true)];
      return Ok(());
    }

    method ComputeRuling(d: Dispute, now: int) returns (r: Result<Verdict>)
      ensures r == Ruling.ComputeRuling(|d.panel|, d.votes, d.deadline, now)
    {
      var tally := CountVotes(d.votes);
      var majority := |d.panel| / 2 + 1;
      if tally.tenant >= majority { return Ok(TenantWins); }
      if tally.landlord >= majority { return Ok(LandlordWins); }
      if tally.system >= majority { return Ok(SystemFault); }
      if now < d.deadline { return Err("no majority yet and voting still open"); }
      if tally.tenant > tally.landlord && tally.tenant > tally.system { return Ok(TenantWins); }
      if tally.landlord > tally.tenant && tally.landlord > tally.system { return Ok(LandlordWins); }
      return Ok(SystemFault);
    }

    /** executeJudgment up to the first await: the ruling is stored before anything is sent. */
    method BeginJudgment(id: DisputeId, now: int) returns (r: Result<()>)
      modifies this
      ensures Performs(r, DisputeProtocol.BeginJudgment(old(View()), id, now), old(View()), View())
    {
      var open := RequireOpen(id);
      if open.Err? { return Err(open.error); }
      var ruling := ComputeRuling(open.value, now);
      if ruling.Err? { return Err(ruling.error); }
      disputes := disputes[id := open.value.(ruling := Some(ruling.value), executedTxs := [])];
      tasks := tasks + [Task(id, 0, Running)];
      return Ok(());
    }

    /** executeJudgment from the answer of one submission to the next await or the end. */
    method Resume(i: nat, reply: Reply)
      requires CanResume(View(), i, insurancePool)
      modifies this
      ensures View() == DisputeProtocol.Resume(old(View()), i, reply, insurancePool)
    {
      var t := tasks[i];
      if reply.Rejected? {
        tasks := tasks[i := t.(phase := Failed)];
        return;
      }
      var d := disputes[t.id];
      var plan := Plan(t.id, d, insurancePool);
      ledger := ledger + [Accepted(t.id, plan[t.accepted], reply.hash)];
      if Truthy(reply.hash) {
        disputes := disputes[t.id := d.(executedTxs := d.executedTxs + [reply.hash.value])];
      } else {
        assert disputes == disputes[t.id := d];
      }
      if t.accepted + 1 < |plan| {
        tasks := tasks[i := Task(t.id, t.accepted + 1, Running)];
      } else if PlanCompletes(d) {
        CreditVoters(d);
        tasks := tasks[i := Task(t.id, t.accepted + 1, Finished)];
      } else {
        tasks := tasks[i := Task(t.id, t.accepted + 1, Failed)];
      }
    }

    /** The closing loop over the votes. */
    method CreditVoters(d: Dispute)
      requires d.ruling.Some?
      modifies this`verifiers
      ensures verifiers == Credit(old(verifiers), d)
    {
      var rest := d.votes.Keys;
      ghost var was := verifiers;
      while rest != {}
        invariant rest <= d.votes.Keys
        invariant verifiers.Keys == was.Keys
        invariant forall v :: v in was ==>
          verifiers[v] == if v in d.votes && v !in rest then Credit(was, d)[v] else was[v]
        decreases rest
      {
        var v :| v in rest;
        if d.votes[v] == d.ruling.value && v in verifiers {
          verifiers := verifiers[v := verifiers[v].(votesWithMajority := verifiers[v].votesWithMajority + 1)];
        }
        rest := rest - {v};
      }
    }
  }
}
