/** The verifier-panel dispute protocol as a state machine. One step is one synchronous
    stretch of the service: a whole call, or the part of executeJudgment between two of
    its awaits. Any number of judgments may be suspended at an await at the same time. */
module DisputeProtocol {
  import opened Common
  import opened Ruling
  import PanelDraw

  type DisputeId = string

  datatype Entry = Entry(
    active: bool,
    region: Option<string>,
    brokerages: seq<string>,
    casesHandled: nat,
    votesWithMajority: nat)

  datatype Escrow = Escrow(owner: Address, sequence: nat, fulfillment: Option<string>)

  datatype Meta = Meta(tenant: Address, landlord: Address, deposit: Escrow, stake: Escrow, stakeDrops: Option<nat>)

  datatype Dispute = Dispute(
    claimant: Address,
    openedAt: int,
    deadline: int,
    panel: seq<Address>,
    votes: Votes,
    withdrawn: bool,
    ruling: Option<Verdict>,
    executedTxs: seq<string>,
    meta: Meta)

  datatype Selection = Selection(
    panelSize: int,
    excludeAddresses: seq<Address>,
    excludeRegion: Option<string>,
    excludeBrokerages: seq<string>)

  /** A transaction the verdict produces. */
  datatype Tx =
    | CancelEscrow(escrow: Escrow)
    | FinishEscrow(escrow: Escrow)
    | Pay(to: Address, drops: nat)
    | MintJudgment(id: DisputeId, ruling: Verdict, tally: Tally)

  /** A suspended, failed or finished activation of executeJudgment. */
  datatype Phase = Running | Failed | Finished
  datatype Task = Task(id: DisputeId, accepted: nat, phase: Phase)

  /** A submission the ledger accepted, in order of acceptance over all disputes. */
  datatype Accepted = Accepted(id: DisputeId, tx: Tx, hash: Option<string>)

  datatype State = State(
    verifiers: map<Address, Entry>,
    roster: seq<Address>,              // insertion order of `verifiers`
    disputes: map<DisputeId, Dispute>,
    tasks: seq<Task>,
    ledger: seq<Accepted>)

  const VOTING_PERIOD := 7 * 24 * 60 * 60
  const SLASH_TENANT_BPS := 7000
  const BPS_DENOM := 10000
  const DEFAULT_PANEL := 5

  const Init := State(map[], [], map[], [], [])

  // ---- roster ----

  function RegisterVerifier(s: State, a: Address, region: Option<string>, brokerages: seq<string>): Result<State> {
    if a in s.verifiers then Err("verifier already registered")
    else Ok(s.(verifiers := s.verifiers[a := Entry(true, region, brokerages, 0, 0)], roster := s.roster + [a]))
  }

  function DeactivateVerifier(s: State, a: Address): Result<State> {
    if a !in s.verifiers then Err("verifier not found")
    else Ok(s.(verifiers := s.verifiers[a := s.verifiers[a].(active := false)]))
  }

  // ---- panel selection ----

  predicate Eligible(v: Entry, a: Address, sel: Selection) {
    && v.active
    && a !in sel.excludeAddresses
    && !(Truthy(sel.excludeRegion) && v.region == sel.excludeRegion)
    && !(exists b :: b in v.brokerages && b in sel.excludeBrokerages)
  }

  function EligibleIn(verifiers: map<Address, Entry>, sel: Selection): Address -> bool {
    a => a in verifiers && Eligible(verifiers[a], a, sel)
  }

  function Pool(s: State, sel: Selection): seq<Address> {
    Filter(s.roster, EligibleIn(s.verifiers, sel))
  }

  /** What the random source must supply for the call to go through. */
  predicate DrawsFit(s: State, sel: Selection, draws: seq<nat>) {
    var n := |Pool(s, sel)|;
    sel.panelSize <= n ==> |draws| == Max(0, sel.panelSize) && PanelDraw.ValidDraws(draws, n)
  }

  function SelectVerifiers(s: State, sel: Selection, draws: seq<nat>): Result<seq<Address>>
    requires DrawsFit(s, sel, draws)
  {
    var pool := Pool(s, sel);
    if |pool| < sel.panelSize then Err("not enough eligible verifiers")
    else Ok(PanelDraw.Panel(pool, draws))
  }

  /** Tenant and landlord are always excluded. */
  function PartySelection(sel: Selection, meta: Meta): Selection {
    sel.(excludeAddresses := sel.excludeAddresses + [meta.tenant, meta.landlord])
  }

  function SubmitDispute(s: State, id: DisputeId, claimant: Address, meta: Meta, sel: Selection,
                         draws: seq<nat>, now: int): Result<State>
    requires DrawsFit(s, PartySelection(sel, meta), draws)
  {
    if claimant != meta.tenant && claimant != meta.landlord then Err("claimant must be a lease party")
    else
      match SelectVerifiers(s, PartySelection(sel, meta), draws)
      case Err(e) => Err(e)
      case Ok(panel) =>
        var d := Dispute(claimant, now, now + VOTING_PERIOD, panel, map[], false, None, [], meta);
        Ok(s.(disputes := s.disputes[id := d]))
  }

  // ---- votes and withdrawal ----

  function RequireOpen(s: State, id: DisputeId): Result<Dispute> {
    if id !in s.disputes then Err("dispute not found")
    else if s.disputes[id].withdrawn then Err("dispute withdrawn")
    else if s.disputes[id].ruling.Some? then Err("dispute already executed")
    else Ok(s.disputes[id])
  }

  function CollectVote(s: State, id: DisputeId, v: Address, r: Verdict): Result<State> {
    match RequireOpen(s, id)
    case Err(e) => Err(e)
    case Ok(d) =>
      if v !in d.panel then Err("not on panel")
      else if v in d.votes then Err("already voted")
      else
        var disputes := s.disputes[id := d.(votes := d.votes[v := r])];
        if v in s.verifiers then
          var e := s.verifiers[v];
          Ok(s.(disputes := disputes, verifiers := s.verifiers[v := e.(casesHandled := e.casesHandled + 1)]))
        else Ok(s.(disputes := disputes))
  }

  function WithdrawDispute(s: State, id: DisputeId, claimant: Address): Result<State> {
    match RequireOpen(s, id)
    case Err(e) => Err(e)
    case Ok(d) =>
      if d.claimant != claimant then Err("not the claimant")
      else Ok(s.(disputes := s.disputes[id := d.(withdrawn := true)]))
  }

  // ---- judgment ----

  function TenantShare(stake: nat): nat { stake * SLASH_TENANT_BPS / BPS_DENOM }

  /** Every transaction the ruling calls for, in order. Slashing without a stake amount
      throws right after the deposit has been cancelled. */
  function Plan(id: DisputeId, d: Dispute, pool: Address): (p: seq<Tx>)
    requires d.ruling.Some?
    ensures p != []
  {
    var mint := MintJudgment(id, d.ruling.value, TallyOf(d.votes));
    var finishStake := FinishEscrow(d.meta.stake.(fulfillment := None));
    match d.ruling.value
    case TenantWins =>
      if d.meta.stakeDrops.None? then [CancelEscrow(d.meta.deposit)]
      else
        var total := d.meta.stakeDrops.value;
        ShareWithinStake(total);
        [ CancelEscrow(d.meta.deposit), finishStake,
          Pay(d.meta.tenant, TenantShare(total)), Pay(pool, total - TenantShare(total)), mint ]
    case LandlordWins => [FinishEscrow(d.meta.deposit), finishStake, mint]
    case SystemFault => [CancelEscrow(d.meta.deposit), finishStake, mint]
  }

  predicate PlanCompletes(d: Dispute) {
    !(d.ruling == Some(TenantWins) && d.meta.stakeDrops.None?)
  }

  /** Slashing pays out exactly the stake: floor(70%) to the tenant, the rest to the pool. */
  lemma ShareWithinStake(stake: nat)
    ensures TenantShare(stake) <= stake
    ensures BPS_DENOM * TenantShare(stake) <= stake * SLASH_TENANT_BPS < BPS_DENOM * (TenantShare(stake) + 1)
  {
  }

  /** executeJudgment up to its first await. */
  function BeginJudgment(s: State, id: DisputeId, now: int): Result<State> {
    match RequireOpen(s, id)
    case Err(e) => Err(e)
    case Ok(d) =>
      match ComputeRuling(|d.panel|, d.votes, d.deadline, now)
      case Err(e) => Err(e)
      case Ok(r) =>
        Ok(s.(disputes := s.disputes[id := d.(ruling := Some(r), executedTxs := [])],
              tasks := s.tasks + [Task(id, 0, Running)]))
  }

  datatype Reply = Confirmed(hash: Option<string>) | Rejected

  predicate CanResume(s: State, i: int, pool: Address) {
    && 0 <= i < |s.tasks|
    && s.tasks[i].phase == Running
    && s.tasks[i].id in s.disputes
    && s.disputes[s.tasks[i].id].ruling.Some?
    && s.tasks[i].accepted < |Plan(s.tasks[i].id, s.disputes[s.tasks[i].id], pool)|
  }

  function Credit(verifiers: map<Address, Entry>, d: Dispute): map<Address, Entry>
    requires d.ruling.Some?
  {
    map v | v in verifiers ::
      if v in d.votes && d.votes[v] == d.ruling.value
      then verifiers[v].(votesWithMajority := verifiers[v].votesWithMajority + 1)
      else verifiers[v]
  }

  /** executeJudgment from one await to the next (or to its end). */
  function Resume(s: State, i: nat, reply: Reply, pool: Address): State
    requires CanResume(s, i, pool)
  {
    var t := s.tasks[i];
    var d := s.disputes[t.id];
    match reply
    case Rejected => s.(tasks := s.tasks[i := t.(phase := Failed)])
    case Confirmed(hash) =>
      var d' := if Truthy(hash) then d.(executedTxs := d.executedTxs + [hash.value]) else d;
      var n := t.accepted + 1;
      var over := n == |Plan(t.id, d, pool)|;
      var phase := if !over then Running else if PlanCompletes(d) then Finished else Failed;
      s.(disputes := s.disputes[t.id := d'],
         verifiers := if phase == Finished then Credit(s.verifiers, d) else s.verifiers,
         tasks := s.tasks[i := Task(t.id, n, phase)],
         ledger := s.ledger + [Accepted(t.id, Plan(t.id, d, pool)[t.accepted], hash)])
  }

  // ---- runs ----

  datatype Event =
    | Register(a: Address, region: Option<string>, brokerages: seq<string>)
    | Deactivate(a: Address)
    | Submit(id: DisputeId, claimant: Address, meta: Meta, sel: Selection, draws: seq<nat>, now: int)
    | Vote(id: DisputeId, a: Address, verdict: Verdict)
    | Withdraw(id: DisputeId, claimant: Address)
    | Judge(id: DisputeId, now: int)
    | Continue(task: nat, reply: Reply)

  /** The environment supplies fresh dispute ids and in-range draws, and only answers
      submissions that are outstanding; any other event leaves the state alone. */
  function Step(s: State, e: Event, pool: Address): State {
    match e
    case Register(a, region, brokerages) => OrElse(RegisterVerifier(s, a, region, brokerages), s)
    case Deactivate(a) => OrElse(DeactivateVerifier(s, a), s)
    case Submit(id, claimant, meta, sel, draws, now) =>
      if id !in s.disputes && DrawsFit(s, PartySelection(sel, meta), draws)
      then OrElse(SubmitDispute(s, id, claimant, meta, sel, draws, now), s)
      else s
    case Vote(id, a, verdict) => OrElse(CollectVote(s, id, a, verdict), s)
    case Withdraw(id, claimant) => OrElse(WithdrawDispute(s, id, claimant), s)
    case Judge(id, now) => OrElse(BeginJudgment(s, id, now), s)
    case Continue(i, reply) => if CanResume(s, i, pool) then Resume(s, i, reply, pool) else s
  }

  function Run(s: State, es: seq<Event>, pool: Address): State
    decreases |es|
  {
    if es == [] then s else Run(Step(s, es[0], pool), es[1..], pool)
  }
}
