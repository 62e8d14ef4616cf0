/** What every run of the dispute protocol keeps, over all interleavings of calls and
    suspended judgments, including submissions that fail. */
module DisputeInvariants {
  import opened Common
  import opened Ruling
  import opened DisputeProtocol
  import PanelDraw

  ghost predicate RosterOk(s: State) {
    Distinct(s.roster) && forall a :: a in s.roster <==> a in s.verifiers
  }

  ghost predicate DisputeOk(d: Dispute, known: set<Address>) {
    && VotesFrom(d.panel, d.votes)
    && (forall v :: v in d.panel ==> v in known && v != d.meta.tenant && v != d.meta.landlord)
    && !(d.withdrawn && d.ruling.Some?)
  }

  ghost predicate DisputesOk(s: State) {
    forall id :: id in s.disputes ==> DisputeOk(s.disputes[id], s.verifiers.Keys)
  }

  ghost predicate Ruled(s: State, id: DisputeId) { id in s.disputes && s.disputes[id].ruling.Some? }

  /** A dispute is judged at most once, and exactly the judged ones carry a ruling. */
  ghost predicate TasksOk(s: State) {
    && (forall i, j :: 0 <= i < j < |s.tasks| ==> s.tasks[i].id != s.tasks[j].id)
    && (forall i :: 0 <= i < |s.tasks| ==> Ruled(s, s.tasks[i].id))
    && (forall id :: Ruled(s, id) ==> exists i :: 0 <= i < |s.tasks| && s.tasks[i].id == id)
  }

  /** The transactions accepted for one dispute. */
  ghost function LedgerOf(ledger: seq<Accepted>, id: DisputeId): seq<Tx> {
    if ledger == [] then []
    else
      var last := |ledger| - 1;
      var before := LedgerOf(ledger[..last], id);
      if ledger[last].id == id then before + [ledger[last].tx] else before
  }

  /** The hashes those submissions reported. */
  ghost function HashesOf(ledger: seq<Accepted>, id: DisputeId): seq<string> {
    if ledger == [] then []
    else
      var last := |ledger| - 1;
      var before := HashesOf(ledger[..last], id);
      if ledger[last].id == id && Truthy(ledger[last].hash) then before + [ledger[last].hash.value] else before
  }

  ghost predicate TaskOk(s: State, t: Task, pool: Address)
    requires Ruled(s, t.id)
  {
    var plan := Plan(t.id, s.disputes[t.id], pool);
    && t.accepted <= |plan|
    && LedgerOf(s.ledger, t.id) == plan[..t.accepted]
    && HashesOf(s.ledger, t.id) == s.disputes[t.id].executedTxs
    && (t.phase == Running ==> t.accepted < |plan|)
    && (t.phase == Finished ==> t.accepted == |plan| && PlanCompletes(s.disputes[t.id]))
  }

  /** One-shot settlement: what the ledger accepted for a dispute is a prefix of its plan,
      each transaction once, and nothing at all before the ruling. */
  ghost predicate LedgerOk(s: State, pool: Address) {
    && (forall i :: 0 <= i < |s.tasks| ==> Ruled(s, s.tasks[i].id) && TaskOk(s, s.tasks[i], pool))
    && (forall id :: !Ruled(s, id) ==> LedgerOf(s.ledger, id) == [] && HashesOf(s.ledger, id) == [])
  }

  ghost function VotedIn(s: State, v: Address): set<DisputeId> {
    set id | id in s.disputes && v in s.disputes[id].votes
  }

  ghost predicate Agreed(s: State, t: Task, v: Address) {
    && t.phase == Finished
    && Ruled(s, t.id)
    && v in s.disputes[t.id].votes
    && s.disputes[t.id].votes[v] == s.disputes[t.id].ruling.value
  }

  /** The finished judgments whose ruling v had voted for. */
  ghost function AgreedIn(s: State, v: Address): set<int> {
    set i | 0 <= i < |s.tasks| && Agreed(s, s.tasks[i], v)
  }

  ghost predicate RecordsOk(s: State) {
    forall v :: v in s.verifiers ==>
      && s.verifiers[v].casesHandled == |VotedIn(s, v)|
      && s.verifiers[v].votesWithMajority == |AgreedIn(s, v)|
  }

  ghost predicate Inv(s: State, pool: Address) {
    RosterOk(s) && DisputesOk(s) && TasksOk(s) && LedgerOk(s, pool) && RecordsOk(s)
  }

  // ---- one lemma per kind of step ----

  lemma RegisterKeeps(s: State, a: Address, region: Option<string>, brokerages: seq<string>, pool: Address)
    requires Inv(s, pool) && RegisterVerifier(s, a, region, brokerages).Ok?
    ensures Inv(RegisterVerifier(s, a, region, brokerages).value, pool)
  {
    var s' := RegisterVerifier(s, a, region, brokerages).value;
    assert DisputesOk(s') by {
      forall id | id in s'.disputes ensures DisputeOk(s'.disputes[id], s'.verifiers.Keys) {
        assert DisputeOk(s.disputes[id], s.verifiers.Keys);
      }
    }
    LedgerKept(s, s', pool);
    assert RecordsOk(s') by { RegisterRecords(s, a, s', pool); }
  }

  /** A newcomer has voted in nothing: votes come from panels, panels from the roster. */
  lemma RegisterRecords(s: State, a: Address, s': State, pool: Address)
    requires DisputesOk(s) && RecordsOk(s) && a !in s.verifiers
    requires s'.disputes == s.disputes && s'.tasks == s.tasks
    requires s'.verifiers.Keys == s.verifiers.Keys + {a}
    requires s'.verifiers[a].casesHandled == 0 && s'.verifiers[a].votesWithMajority == 0
    requires forall v :: v in s.verifiers ==> s'.verifiers[v] == s.verifiers[v]
    ensures RecordsOk(s')
  {
    forall id | id in s.disputes ensures a !in s.disputes[id].votes {
      assert DisputeOk(s.disputes[id], s.verifiers.Keys);
    }
    assert VotedIn(s', a) == {} && AgreedIn(s', a) == {};
    forall v | v in s'.verifiers ensures VotedIn(s', v) == VotedIn(s, v) && AgreedIn(s', v) == AgreedIn(s, v) {}
  }

  lemma DeactivateKeeps(s: State, a: Address, pool: Address)
    requires Inv(s, pool) && DeactivateVerifier(s, a).Ok?
    ensures Inv(DeactivateVerifier(s, a).value, pool)
  {
    var s' := DeactivateVerifier(s, a).value;
    assert s'.verifiers.Keys == s.verifiers.Keys;
    LedgerKept(s, s', pool);
    forall v | v in s'.verifiers ensures VotedIn(s', v) == VotedIn(s, v) && AgreedIn(s', v) == AgreedIn(s, v) {}
  }

  lemma LedgerKept(s: State, s': State, pool: Address)
    requires LedgerOk(s, pool)
    requires s'.tasks == s.tasks && s'.ledger == s.ledger
    requires forall id :: Ruled(s, id) <==> Ruled(s', id)
    requires forall id :: Ruled(s, id) ==> id in s'.disputes && s'.disputes[id] == s.disputes[id]
    ensures LedgerOk(s', pool)
  {
    forall i | 0 <= i < |s'.tasks| ensures Ruled(s', s'.tasks[i].id) && TaskOk(s', s'.tasks[i], pool) {
      assert TaskOk(s, s.tasks[i], pool);
    }
  }

  /** Records after a step that changes one unruled dispute without touching its votes. */
  lemma RecordsKept(s: State, s': State)
    requires RecordsOk(s) && TasksOk(s)
    requires s'.verifiers == s.verifiers && s'.tasks == s.tasks
    requires forall id, v :: id in s'.disputes && v in s'.disputes[id].votes <==> id in s.disputes && v in s.disputes[id].votes
    requires forall id :: Ruled(s, id) ==> id in s'.disputes && s'.disputes[id] == s.disputes[id]
    ensures RecordsOk(s')
  {
    forall v | v in s'.verifiers
      ensures VotedIn(s', v) == VotedIn(s, v) && AgreedIn(s', v) == AgreedIn(s, v)
    {}
  }

  lemma SubmitKeeps(s: State, id: DisputeId, claimant: Address, meta: Meta, sel: Selection,
                    draws: seq<nat>, now: int, pool: Address)
    requires Inv(s, pool) && id !in s.disputes && DrawsFit(s, PartySelection(sel, meta), draws)
    requires SubmitDispute(s, id, claimant, meta, sel, draws, now).Ok?
    ensures Inv(SubmitDispute(s, id, claimant, meta, sel, draws, now).value, pool)
  {
    hide SelectVerifiers, VotedIn, AgreedIn, DisputeOk;
    var s' := SubmitDispute(s, id, claimant, meta, sel, draws, now).value;
    PanelIsNeutral(s, id, claimant, meta, sel, draws, now);
    LedgerKept(s, s', pool);
    RecordsKept(s, s');
  }

  /** A new dispute's panel holds registered verifiers, none of them a party. */
  lemma PanelIsNeutral(s: State, id: DisputeId, claimant: Address, meta: Meta, sel: Selection, draws: seq<nat>, now: int)
    requires RosterOk(s) && DrawsFit(s, PartySelection(sel, meta), draws)
    requires SubmitDispute(s, id, claimant, meta, sel, draws, now).Ok?
    ensures var s' := SubmitDispute(s, id, claimant, meta, sel, draws, now).value;
            id in s'.disputes && DisputeOk(s'.disputes[id], s.verifiers.Keys)
  {
    hide SelectVerifiers;
    var d := SubmitDispute(s, id, claimant, meta, sel, draws, now).value.disputes[id];
    SelectionMeaning(s, PartySelection(sel, meta), draws);
    forall v | v in d.panel ensures v in s.verifiers && v != meta.tenant && v != meta.landlord {
      var excluded := PartySelection(sel, meta).excludeAddresses;
      assert excluded[|excluded| - 2] == meta.tenant && excluded[|excluded| - 1] == meta.landlord;
    }
  }

  /** selectVerifiers returns panelSize distinct registered verifiers that are active and
      not excluded, and throws exactly when too few are eligible. */
  lemma SelectionMeaning(s: State, sel: Selection, draws: seq<nat>)
    requires RosterOk(s) && DrawsFit(s, sel, draws)
    ensures SelectVerifiers(s, sel, draws).Err?
       <==> |set a | a in s.verifiers && Eligible(s.verifiers[a], a, sel)| < sel.panelSize
    ensures SelectVerifiers(s, sel, draws).Ok? ==>
              var panel := SelectVerifiers(s, sel, draws).value;
              && |panel| == Max(0, sel.panelSize)
              && Distinct(panel)
              && forall a :: a in panel ==> a in s.verifiers && Eligible(s.verifiers[a], a, sel)
  {
    var pool := Pool(s, sel);
    FilterDistinct(s.roster, EligibleIn(s.verifiers, sel));
    assert forall a :: a in pool <==> a in s.verifiers && Eligible(s.verifiers[a], a, sel);
    DistinctCardinality(pool);
    assert Elems(pool) == set a | a in s.verifiers && Eligible(s.verifiers[a], a, sel);
    if |pool| >= sel.panelSize {
      PanelDraw.PanelDistinct(pool, draws);
    }
  }

  lemma VoteKeeps(s: State, id: DisputeId, v: Address, r: Verdict, pool: Address)
    requires Inv(s, pool) && CollectVote(s, id, v, r).Ok?
    ensures Inv(CollectVote(s, id, v, r).value, pool)
  {
    hide TaskOk, VotedIn, AgreedIn;
    var s' := CollectVote(s, id, v, r).value;
    assert DisputeOk(s.disputes[id], s.verifiers.Keys);
    assert s'.verifiers.Keys == s.verifiers.Keys;
    assert DisputeOk(s'.disputes[id], s'.verifiers.Keys);
    LedgerKept(s, s', pool);
    assert RecordsOk(s') by { VoteRecords(s, id, v, r); }
  }

  lemma VoteRecords(s: State, id: DisputeId, v: Address, r: Verdict)
    requires DisputesOk(s) && TasksOk(s) && RecordsOk(s) && CollectVote(s, id, v, r).Ok?
    ensures RecordsOk(CollectVote(s, id, v, r).value)
  {
    var s' := CollectVote(s, id, v, r).value;
    assert v in s.verifiers by { assert DisputeOk(s.disputes[id], s.verifiers.Keys); }
    forall w | w in s'.verifiers
      ensures s'.verifiers[w].casesHandled == |VotedIn(s', w)|
      ensures s'.verifiers[w].votesWithMajority == |AgreedIn(s', w)|
    {
      VoteCounts(s, id, v, r, w);
    }
  }

  lemma VoteCounts(s: State, id: DisputeId, v: Address, r: Verdict, w: Address)
    requires TasksOk(s) && CollectVote(s, id, v, r).Ok?
    ensures var s' := CollectVote(s, id, v, r).value;
            && |VotedIn(s', w)| == |VotedIn(s, w)| + (if w == v then 1 else 0)
            && AgreedIn(s', w) == AgreedIn(s, w)
  {
    var s' := CollectVote(s, id, v, r).value;
    var d := s.disputes[id];
    assert s'.disputes == s.disputes[id := d.(votes := d.votes[v := r])];
    VotedAfter(s, s', id, v, r, w);
    AgreedAfter(s, s', id, w);
  }

  lemma VotedAfter(s: State, s': State, id: DisputeId, v: Address, r: Verdict, w: Address)
    requires id in s.disputes && v !in s.disputes[id].votes
    requires s'.disputes == s.disputes[id := s.disputes[id].(votes := s.disputes[id].votes[v := r])]
    ensures |VotedIn(s', w)| == |VotedIn(s, w)| + if w == v then 1 else 0
  {
    assert VotedIn(s', w) == if w == v then VotedIn(s, w) + {id} else VotedIn(s, w);
  }

  lemma AgreedAfter(s: State, s': State, id: DisputeId, w: Address)
    requires TasksOk(s) && id in s.disputes && !Ruled(s, id)
    requires s'.tasks == s.tasks && s'.disputes.Keys == s.disputes.Keys
    requires forall q :: q in s.disputes && q != id ==> s'.disputes[q] == s.disputes[q]
    ensures AgreedIn(s', w) == AgreedIn(s, w)
  {
    forall i | 0 <= i < |s.tasks| ensures Agreed(s', s.tasks[i], w) <==> Agreed(s, s.tasks[i], w) {
      assert Ruled(s, s.tasks[i].id);
    }
  }

  lemma WithdrawKeeps(s: State, id: DisputeId, claimant: Address, pool: Address)
    requires Inv(s, pool) && WithdrawDispute(s, id, claimant).Ok?
    ensures Inv(WithdrawDispute(s, id, claimant).value, pool)
  {
    var s' := WithdrawDispute(s, id, claimant).value;
    assert DisputeOk(s.disputes[id], s.verifiers.Keys);
    assert DisputeOk(s'.disputes[id], s'.verifiers.Keys);
    LedgerKept(s, s', pool);
    RecordsKept(s, s');
  }

  lemma JudgeKeeps(s: State, id: DisputeId, now: int, pool: Address)
    requires Inv(s, pool) && BeginJudgment(s, id, now).Ok?
    ensures Inv(BeginJudgment(s, id, now).value, pool)
  {
    var s' := BeginJudgment(s, id, now).value;
    assert DisputeOk(s.disputes[id], s.verifiers.Keys);
    assert DisputeOk(s'.disputes[id], s'.verifiers.Keys);
    assert TasksOk(s') by { JudgeTasks(s, id, now); }
    assert LedgerOk(s', pool) by { JudgeLedger(s, id, now, pool); }
    assert RecordsOk(s') by { JudgeRecords(s, id, now); }
  }

  lemma JudgeTasks(s: State, id: DisputeId, now: int)
    requires TasksOk(s) && BeginJudgment(s, id, now).Ok?
    ensures TasksOk(BeginJudgment(s, id, now).value)
  {
    var s' := BeginJudgment(s, id, now).value;
    var n := |s.tasks|;
    assert !Ruled(s, id);
    forall q | Ruled(s', q) ensures exists i :: 0 <= i < |s'.tasks| && s'.tasks[i].id == q {
      if q == id {
        assert s'.tasks[n].id == q;
      } else {
        assert Ruled(s, q);
        var i :| 0 <= i < n && s.tasks[i].id == q;
        assert s'.tasks[i].id == q;
      }
    }
  }

  lemma JudgeLedger(s: State, id: DisputeId, now: int, pool: Address)
    requires TasksOk(s) && LedgerOk(s, pool) && BeginJudgment(s, id, now).Ok?
    ensures LedgerOk(BeginJudgment(s, id, now).value, pool)
  {
    var s' := BeginJudgment(s, id, now).value;
    assert !Ruled(s, id);
    forall i | 0 <= i < |s'.tasks| ensures Ruled(s', s'.tasks[i].id) && TaskOk(s', s'.tasks[i], pool) {
      if i < |s.tasks| {
        assert TaskOk(s, s.tasks[i], pool);
      }
    }
  }

  lemma JudgeRecords(s: State, id: DisputeId, now: int)
    requires TasksOk(s) && RecordsOk(s) && BeginJudgment(s, id, now).Ok?
    ensures RecordsOk(BeginJudgment(s, id, now).value)
  {
    var s' := BeginJudgment(s, id, now).value;
    assert !Ruled(s, id);
    forall v | v in s'.verifiers ensures VotedIn(s', v) == VotedIn(s, v) && AgreedIn(s', v) == AgreedIn(s, v) {
      forall i ensures i in AgreedIn(s', v) <==> i in AgreedIn(s, v) {
        assert i == |s.tasks| ==> s'.tasks[i].phase == Running;
      }
    }
  }

  // ---- resuming a suspended judgment ----

  /** The plan of a ruled dispute depends only on what no step changes any more. */
  lemma ResumeTasks(s: State, i: nat, reply: Reply, pool: Address)
    requires TasksOk(s) && CanResume(s, i, pool)
    ensures TasksOk(Resume(s, i, reply, pool))
    ensures forall id :: Ruled(Resume(s, i, reply, pool), id) <==> Ruled(s, id)
    ensures forall id :: id in s.disputes ==> SameCase(s.disputes[id], Resume(s, i, reply, pool).disputes[id])
  {
    var s' := Resume(s, i, reply, pool);
    forall j | 0 <= j < |s.tasks| ensures s'.tasks[j].id == s.tasks[j].id {}
    forall id | Ruled(s', id) ensures exists j :: 0 <= j < |s'.tasks| && s'.tasks[j].id == id {
      assert Ruled(s, id);
      var j :| 0 <= j < |s.tasks| && s.tasks[j].id == id;
      assert s'.tasks[j].id == id;
    }
  }

  /** Equal but for the list of submitted hashes. */
  ghost predicate SameCase(d: Dispute, e: Dispute) { e == d.(executedTxs := e.executedTxs) }

  lemma LedgerAppend(ledger: seq<Accepted>, a: Accepted, id: DisputeId)
    ensures LedgerOf(ledger + [a], id) == LedgerOf(ledger, id) + if a.id == id then [a.tx] else []
    ensures HashesOf(ledger + [a], id) ==
            HashesOf(ledger, id) + if a.id == id && Truthy(a.hash) then [a.hash.value] else []
  {
    assert (ledger + [a])[..|ledger|] == ledger;
  }

  lemma ResumeLedger(s: State, i: nat, reply: Reply, pool: Address)
    requires TasksOk(s) && LedgerOk(s, pool) && CanResume(s, i, pool)
    ensures LedgerOk(Resume(s, i, reply, pool), pool)
  {
    var s' := Resume(s, i, reply, pool);
    ResumeTasks(s, i, reply, pool);
    forall j | 0 <= j < |s'.tasks| ensures Ruled(s', s'.tasks[j].id) && TaskOk(s', s'.tasks[j], pool) {
      ResumeTask(s, i, reply, pool, j);
    }
    forall id | !Ruled(s', id) ensures LedgerOf(s'.ledger, id) == [] && HashesOf(s'.ledger, id) == [] {
      assert !Ruled(s, id);
      if reply.Confirmed? {
        LedgerAppend(s.ledger, s'.ledger[|s.ledger|], id);
      }
    }
  }

  lemma ResumeTask(s: State, i: nat, reply: Reply, pool: Address, j: nat)
    requires TasksOk(s) && LedgerOk(s, pool) && CanResume(s, i, pool) && j < |s.tasks|
    ensures var s' := Resume(s, i, reply, pool); Ruled(s', s'.tasks[j].id) && TaskOk(s', s'.tasks[j], pool)
  {
    var s' := Resume(s, i, reply, pool);
    var id := s.tasks[j].id;
    assert TaskOk(s, s.tasks[j], pool);
    assert SameCase(s.disputes[id], s'.disputes[id]);
    assert Plan(id, s'.disputes[id], pool) == Plan(id, s.disputes[id], pool);
    if reply.Confirmed? {
      LedgerAppend(s.ledger, s'.ledger[|s.ledger|], id);
      assert i == j <==> s.tasks[i].id == id;
    }
  }

  lemma ResumeRecords(s: State, i: nat, reply: Reply, pool: Address)
    requires TasksOk(s) && RecordsOk(s) && CanResume(s, i, pool)
    ensures RecordsOk(Resume(s, i, reply, pool))
  {
    var s' := Resume(s, i, reply, pool);
    forall v | v in s'.verifiers
      ensures s'.verifiers[v].casesHandled == |VotedIn(s', v)|
      ensures s'.verifiers[v].votesWithMajority == |AgreedIn(s', v)|
    {
      ResumeCounts(s, i, reply, pool, v);
    }
  }

  lemma ResumeCounts(s: State, i: nat, reply: Reply, pool: Address, v: Address)
    requires TasksOk(s) && CanResume(s, i, pool)
    ensures var s' := Resume(s, i, reply, pool);
            && VotedIn(s', v) == VotedIn(s, v)
            && |AgreedIn(s', v)| == |AgreedIn(s, v)| + if Agreed(s', s'.tasks[i], v) then 1 else 0
  {
    var s' := Resume(s, i, reply, pool);
    ResumeShape(s, i, reply, pool);
    ResumeTasks(s, i, reply, pool);
    hide Resume, CanResume, Plan, Credit;
    forall j | 0 <= j < |s.tasks| && j != i ensures Agreed(s', s'.tasks[j], v) <==> Agreed(s, s.tasks[j], v) {
      OtherAgrees(s, s', j, v);
    }
    VotedSame(s, s', v);
    AgreedGrows(s, s', i, v);
  }

  /** Which parts of the state a resumed judgment leaves alone. */
  lemma ResumeShape(s: State, i: nat, reply: Reply, pool: Address)
    requires CanResume(s, i, pool)
    ensures var s' := Resume(s, i, reply, pool);
            && |s'.tasks| == |s.tasks| && s'.disputes.Keys == s.disputes.Keys && s.tasks[i].phase == Running
            && forall j :: 0 <= j < |s.tasks| && j != i ==> s'.tasks[j] == s.tasks[j]
  {
    hide Plan, Credit, Truthy;
  }

  lemma OtherAgrees(s: State, s': State, j: nat, v: Address)
    requires j < |s.tasks| == |s'.tasks| && s'.tasks[j] == s.tasks[j] && s'.disputes.Keys == s.disputes.Keys
    requires forall id :: id in s.disputes ==> SameCase(s.disputes[id], s'.disputes[id])
    ensures Agreed(s', s'.tasks[j], v) <==> Agreed(s, s.tasks[j], v)
  {
    var id := s.tasks[j].id;
    assert id in s.disputes ==> SameCase(s.disputes[id], s'.disputes[id]);
  }

  lemma VotedSame(s: State, s': State, v: Address)
    requires s'.disputes.Keys == s.disputes.Keys
    requires forall id :: id in s.disputes ==> SameCase(s.disputes[id], s'.disputes[id])
    ensures VotedIn(s', v) == VotedIn(s, v)
  {
    forall id | id in s.disputes ensures v in s'.disputes[id].votes <==> v in s.disputes[id].votes {
      assert SameCase(s.disputes[id], s'.disputes[id]);
    }
  }

  /** One task may join those v agreed with. */
  lemma AgreedGrows(s: State, s': State, i: nat, v: Address)
    requires i < |s.tasks| == |s'.tasks| && s.tasks[i].phase == Running
    requires forall j :: 0 <= j < |s.tasks| && j != i ==> (Agreed(s', s'.tasks[j], v) <==> Agreed(s, s.tasks[j], v))
    ensures |AgreedIn(s', v)| == |AgreedIn(s, v)| + if Agreed(s', s'.tasks[i], v) then 1 else 0
  {
    assert i !in AgreedIn(s, v);
    assert AgreedIn(s', v) == if Agreed(s', s'.tasks[i], v) then AgreedIn(s, v) + {i} else AgreedIn(s, v);
  }

  lemma ResumeKeeps(s: State, i: nat, reply: Reply, pool: Address)
    requires Inv(s, pool) && CanResume(s, i, pool)
    ensures Inv(Resume(s, i, reply, pool), pool)
  {
    var s' := Resume(s, i, reply, pool);
    ResumeTasks(s, i, reply, pool);
    assert s'.verifiers.Keys == s.verifiers.Keys;
    assert DisputesOk(s') by {
      forall id | id in s'.disputes ensures DisputeOk(s'.disputes[id], s'.verifiers.Keys) {
        assert SameCase(s.disputes[id], s'.disputes[id]) && DisputeOk(s.disputes[id], s.verifiers.Keys);
      }
    }
    ResumeLedger(s, i, reply, pool);
    ResumeRecords(s, i, reply, pool);
  }

  // ---- whole runs ----

  lemma StepKeeps(s: State, e: Event, pool: Address)
    requires Inv(s, pool)
    ensures Inv(Step(s, e, pool), pool)
  {
    if Step(s, e, pool) != s {
      match e {
        case Register(a, region, brokerages) => RegisterKeeps(s, a, region, brokerages, pool);
        case Deactivate(a) => DeactivateKeeps(s, a, pool);
        case Submit(id, claimant, meta, sel, draws, now) => SubmitKeeps(s, id, claimant, meta, sel, draws, now, pool);
        case Vote(id, a, verdict) => VoteKeeps(s, id, a, verdict, pool);
        case Withdraw(id, claimant) => WithdrawKeeps(s, id, claimant, pool);
        case Judge(id, now) => JudgeKeeps(s, id, now, pool);
        case Continue(i, reply) => ResumeKeeps(s, i, reply, pool);
      }
    }
  }

  lemma {:induction false} RunKeeps(s: State, es: seq<Event>, pool: Address)
    requires Inv(s, pool)
    ensures Inv(Run(s, es, pool), pool)
    decreases |es|
  {
    if es != [] {
      StepKeeps(s, es[0], pool);
      RunKeeps(Step(s, es[0], pool), es[1..], pool);
    }
  }

  lemma InitOk(pool: Address)
    ensures Inv(Init, pool)
  {
  }

  /** Every reachable state satisfies the invariant. */
  lemma ReachableOk(es: seq<Event>, pool: Address)
    ensures Inv(Run(Init, es, pool), pool)
  {
    InitOk(pool);
    RunKeeps(Init, es, pool);
  }

  /** What a ruling freezes. */
  ghost predicate Frozen(d: Dispute, e: Dispute) {
    d.ruling.Some? ==> e.ruling == d.ruling && e.votes == d.votes && e.panel == d.panel && e.withdrawn == d.withdrawn
  }

  lemma StepFreezes(s: State, e: Event, pool: Address, id: DisputeId)
    requires id in s.disputes
    ensures id in Step(s, e, pool).disputes && Frozen(s.disputes[id], Step(s, e, pool).disputes[id])
  {
    hide Plan, Credit, SelectVerifiers, ComputeRuling, Truthy;
  }

  /** Once ruled, no continuation of the run changes the ruling or the votes, and the
      dispute can no longer be withdrawn. */
  lemma {:induction false} RulingIsFinal(s: State, es: seq<Event>, pool: Address, id: DisputeId)
    requires Ruled(s, id)
    ensures id in Run(s, es, pool).disputes && Frozen(s.disputes[id], Run(s, es, pool).disputes[id])
    decreases |es|
  {
    if es != [] {
      StepFreezes(s, es[0], pool, id);
      RulingIsFinal(Step(s, es[0], pool), es[1..], pool, id);
    }
  }

  lemma StepKeepsFailed(s: State, e: Event, pool: Address, i: nat)
    requires TasksOk(s) && i < |s.tasks| && s.tasks[i].phase == Failed
    ensures var s' := Step(s, e, pool); var id := s.tasks[i].id;
            i < |s'.tasks| && s'.tasks[i] == s.tasks[i] && LedgerOf(s'.ledger, id) == LedgerOf(s.ledger, id)
  {
    hide Plan, Credit, SelectVerifiers, ComputeRuling, Truthy, LedgerOf;
    if e.Continue? && CanResume(s, e.task, pool) && e.reply.Confirmed? {
      var t := s.tasks[e.task];
      LedgerAppend(s.ledger, Accepted(t.id, Plan(t.id, s.disputes[t.id], pool)[t.accepted], e.reply.hash), s.tasks[i].id);
      if e.task != i {
        assert t.id != s.tasks[i].id;
      }
    }
  }

  /** A judgment that failed stays failed: its dispute is ruled, so nobody can judge it again,
      and the ledger never accepts another transaction for it. */
  lemma {:induction false} FailedForGood(s: State, es: seq<Event>, pool: Address, i: nat)
    requires Inv(s, pool) && i < |s.tasks| && s.tasks[i].phase == Failed
    ensures var s' := Run(s, es, pool); var id := s.tasks[i].id;
            && i < |s'.tasks| && s'.tasks[i] == s.tasks[i]
            && LedgerOf(s'.ledger, id) == LedgerOf(s.ledger, id)
            && Ruled(s', id) && RequireOpen(s', id).Err?
    decreases |es|
  {
    assert TasksOk(s) && Ruled(s, s.tasks[i].id);
    if es != [] {
      hide Step, Inv, LedgerOf, TasksOk;
      StepKeeps(s, es[0], pool);
      StepKeepsFailed(s, es[0], pool, i);
      FailedForGood(Step(s, es[0], pool), es[1..], pool, i);
    }
  }

  lemma AgreedWithinVoted(s: State, v: Address)
    requires TasksOk(s)
    ensures |AgreedIn(s, v)| <= |VotedIn(s, v)|
  {
    var f := (i: int) => if 0 <= i < |s.tasks| then s.tasks[i].id else "";
    InjectionCardinality(AgreedIn(s, v), VotedIn(s, v), f);
  }

  /** In every reachable state a verifier's record counts exactly the disputes it voted in
      and the finished judgments it agreed with. */
  lemma TrackRecord(es: seq<Event>, pool: Address, v: Address)
    requires v in Run(Init, es, pool).verifiers
    ensures var s := Run(Init, es, pool);
            && s.verifiers[v].casesHandled == |VotedIn(s, v)|
            && s.verifiers[v].votesWithMajority == |AgreedIn(s, v)|
            && s.verifiers[v].votesWithMajority <= s.verifiers[v].casesHandled
  {
    ReachableOk(es, pool);
    AgreedWithinVoted(Run(Init, es, pool), v);
  }

  /** In every reachable state the ledger has accepted, for each dispute, a prefix of the
      plan of its one ruling, all of it once the judgment has finished, and has paid out at
      most the stake. */
  lemma SettledOnce(es: seq<Event>, pool: Address, i: nat, j: nat)
    requires i < |Run(Init, es, pool).tasks| && j < |Run(Init, es, pool).tasks|
    ensures var s := Run(Init, es, pool);
            var t := s.tasks[i];
            && (t.id == s.tasks[j].id ==> i == j)
            && Ruled(s, t.id)
            && !s.disputes[t.id].withdrawn
            && LedgerOf(s.ledger, t.id) <= Plan(t.id, s.disputes[t.id], pool)
            && Paid(LedgerOf(s.ledger, t.id)) <= s.disputes[t.id].meta.stakeDrops.GetOr(0)
            && (t.phase == Finished ==> LedgerOf(s.ledger, t.id) == Plan(t.id, s.disputes[t.id], pool))
  {
    var s := Run(Init, es, pool);
    ReachableOk(es, pool);
    var t := s.tasks[i];
    var d := s.disputes[t.id];
    assert TaskOk(s, t, pool) && DisputeOk(d, s.verifiers.Keys);
    PlanMeaning(t.id, d, pool);
    PaidPrefix(Plan(t.id, d, pool), t.accepted);
  }

  lemma {:induction false} PaidPrefix(txs: seq<Tx>, n: nat)
    requires n <= |txs|
    ensures Paid(txs[..n]) <= Paid(txs)
  {
    if n > 0 {
      PaidPrefix(txs[1..], n - 1);
      assert txs[..n][1..] == txs[1..][..n - 1];
    }
  }

  // ---- what settlement does ----

  ghost function Paid(txs: seq<Tx>): nat {
    if txs == [] then 0 else (if txs[0].Pay? then txs[0].drops else 0) + Paid(txs[1..])
  }

  /** The deposit goes back exactly when the landlord does not win and is released exactly
      when he does; only a tenant win pays out, and then exactly the stake, with at least
      70% (rounded down) to the tenant; a plan that completes ends in the judgment NFT. */
  lemma PlanMeaning(id: DisputeId, d: Dispute, pool: Address)
    requires d.ruling.Some?
    ensures var plan := Plan(id, d, pool);
            && (CancelEscrow(d.meta.deposit) in plan <==> d.ruling.value != LandlordWins)
            && (FinishEscrow(d.meta.deposit) == plan[0] <==> d.ruling.value == LandlordWins)
            && Paid(plan) == (if d.ruling.value == TenantWins && d.meta.stakeDrops.Some? then d.meta.stakeDrops.value else 0)
            && (Pay(d.meta.tenant, Paid(plan) * 7 / 10) in plan <==> d.ruling.value == TenantWins && PlanCompletes(d))
            && (plan[|plan| - 1] == MintJudgment(id, d.ruling.value, TallyOf(d.votes)) <==> PlanCompletes(d))
  {
    var plan := Plan(id, d, pool);
    PaidUnfold(plan);
    assert plan[0].CancelEscrow? || plan[0].FinishEscrow?;
    if d.ruling.value == TenantWins && d.meta.stakeDrops.Some? {
      ShareWithinStake(d.meta.stakeDrops.value);
      assert plan[2] == Pay(d.meta.tenant, TenantShare(d.meta.stakeDrops.value));
    }
  }

  lemma PaidUnfold(txs: seq<Tx>)
    requires 0 < |txs| <= 5
    ensures Paid(txs) == Drops(txs, 0) + Drops(txs, 1) + Drops(txs, 2) + Drops(txs, 3) + Drops(txs, 4)
  {
    if |txs| > 1 { assert txs[1..][1..] == txs[2..]; }
    if |txs| > 2 { assert txs[2..][1..] == txs[3..]; }
    if |txs| > 3 { assert txs[3..][1..] == txs[4..]; }
    if |txs| > 4 { assert txs[4..][1..] == []; }
  }

  ghost function Drops(txs: seq<Tx>, k: nat): nat {
    if k < |txs| && txs[k].Pay? then txs[k].drops else 0
  }
}
