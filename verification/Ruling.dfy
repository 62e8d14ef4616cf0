/** Vote counting and the majority / plurality ruling of a verifier panel. */
module Ruling {
  import opened Common

  type Address = string

  datatype Verdict = TenantWins | LandlordWins | SystemFault

  type Votes = map<Address, Verdict>

  datatype Tally = Tally(tenant: nat, landlord: nat, system: nat) {
    function Of(r: Verdict): nat {
      match r
      case TenantWins => tenant
      case LandlordWins => landlord
      case SystemFault => system
    }
  }

  function Voters(votes: Votes, r: Verdict): set<Address> {
    set v | v in votes && votes[v] == r
  }

  function TallyOf(votes: Votes): Tally {
    Tally(|Voters(votes, TenantWins)|, |Voters(votes, LandlordWins)|, |Voters(votes, SystemFault)|)
  }

  /** The counting loop over the vote map. */
  method CountVotes(votes: Votes) returns (t: Tally)
    ensures t == TallyOf(votes)
  {
    var tenant, landlord, system := 0, 0, 0;
    var rest := votes.Keys;
    ghost var done: Votes := map[];
    while rest != {}
      invariant rest <= votes.Keys
      invariant done == map v | v in votes && v !in rest :: votes[v]
      invariant Tally(tenant, landlord, system) == TallyOf(done)
      decreases rest
    {
      var v :| v in rest;
      TallyAdd(done, v, votes[v]);
      match votes[v] {
        case TenantWins => tenant := tenant + 1;
        case LandlordWins => landlord := landlord + 1;
        case SystemFault => system := system + 1;
      }
      rest := rest - {v};
      done := done[v := votes[v]];
    }
    assert done == votes;
    t := Tally(tenant, landlord, system);
  }

  lemma TallyAdd(votes: Votes, v: Address, r: Verdict)
    requires v !in votes
    ensures var t := TallyOf(votes);
            TallyOf(votes[v := r]) ==
            match r
            case TenantWins => t.(tenant := t.tenant + 1)
            case LandlordWins => t.(landlord := t.landlord + 1)
            case SystemFault => t.(system := t.system + 1)
  {
    var more := votes[v := r];
    assert Voters(more, r) == Voters(votes, r) + {v};
    assert r != TenantWins ==> Voters(more, TenantWins) == Voters(votes, TenantWins);
    assert r != LandlordWins ==> Voters(more, LandlordWins) == Voters(votes, LandlordWins);
    assert r != SystemFault ==> Voters(more, SystemFault) == Voters(votes, SystemFault);
  }

  function Majority(panelSize: nat): nat { panelSize / 2 + 1 }

  /** Used once the voting window is over; a tie gives SystemFault. */
  function Plurality(t: Tally): Verdict {
    if t.tenant > t.landlord && t.tenant > t.system then TenantWins
    else if t.landlord > t.tenant && t.landlord > t.system then LandlordWins
    else SystemFault
  }

  function ComputeRuling(panelSize: nat, votes: Votes, deadline: int, now: int): Result<Verdict> {
    var t := TallyOf(votes);
    var m := Majority(panelSize);
    if t.tenant >= m then Ok(TenantWins)
    else if t.landlord >= m then Ok(LandlordWins)
    else if t.system >= m then Ok(SystemFault)
    else if now < deadline then Err("no majority yet and voting still open")
    else Ok(Plurality(t))
  }

  /** What collectVote maintains: votes come once each from distinct panel members. */
  ghost predicate VotesFrom(panel: seq<Address>, votes: Votes) {
    Distinct(panel) && forall v :: v in votes ==> v in panel
  }

  lemma TallyTotal(votes: Votes)
    ensures TallyOf(votes).tenant + TallyOf(votes).landlord + TallyOf(votes).system == |votes|
  {
    var t, l, s := Voters(votes, TenantWins), Voters(votes, LandlordWins), Voters(votes, SystemFault);
    assert votes.Keys == t + l + s;
    assert t !! l && (t + l) !! s;
    assert |votes.Keys| == |votes|;
  }

  lemma TallyWithinPanel(panel: seq<Address>, votes: Votes)
    requires VotesFrom(panel, votes)
    ensures TallyOf(votes).tenant + TallyOf(votes).landlord + TallyOf(votes).system <= |panel|
  {
    TallyTotal(votes);
    DistinctCardinality(panel);
    SubsetCardinality(votes.Keys, Elems(panel));
    assert |votes.Keys| == |votes|;
  }

  ghost predicate HasMajority(panel: seq<Address>, votes: Votes, r: Verdict) {
    TallyOf(votes).Of(r) >= Majority(|panel|)
  }

  /** At most one ruling can hold a majority, so the order of the checks is irrelevant. */
  lemma OneMajority(panel: seq<Address>, votes: Votes, r: Verdict, q: Verdict)
    requires VotesFrom(panel, votes)
    requires HasMajority(panel, votes, r) && HasMajority(panel, votes, q)
    ensures r == q
  {
    TallyWithinPanel(panel, votes);
  }

  /** The ruling in full: a majority decides at any time; without one the call throws while
      voting is open; afterwards tenant or landlord must strictly lead, else SystemFault. */
  lemma RulingMeaning(panel: seq<Address>, votes: Votes, deadline: int, now: int, r: Verdict)
    requires VotesFrom(panel, votes)
    ensures HasMajority(panel, votes, r) ==> ComputeRuling(|panel|, votes, deadline, now) == Ok(r)
    ensures ComputeRuling(|panel|, votes, deadline, now).Err?
       <==> (now < deadline && forall q :: !HasMajority(panel, votes, q))
    ensures now >= deadline && r != SystemFault ==>
              (ComputeRuling(|panel|, votes, deadline, now) == Ok(r)
               <==> forall q :: q != r ==> TallyOf(votes).Of(q) < TallyOf(votes).Of(r))
  {
    TallyWithinPanel(panel, votes);
    var t := TallyOf(votes);
    assert t.Of(TenantWins) == t.tenant && t.Of(LandlordWins) == t.landlord && t.Of(SystemFault) == t.system;
    assert HasMajority(panel, votes, TenantWins) <==> t.tenant >= Majority(|panel|);
    assert HasMajority(panel, votes, LandlordWins) <==> t.landlord >= Majority(|panel|);
    assert HasMajority(panel, votes, SystemFault) <==> t.system >= Majority(|panel|);
  }

  /** A majority survives any further votes, is what the plurality rule would say, and no
      later call, before or after the deadline, can come out differently. */
  lemma MajorityIsFinal(panel: seq<Address>, votes: Votes, later: Votes, r: Verdict, deadline: int, now: int)
    requires VotesFrom(panel, votes) && VotesFrom(panel, later)
    requires forall v :: v in votes ==> v in later && later[v] == votes[v]
    requires HasMajority(panel, votes, r)
    ensures HasMajority(panel, later, r)
    ensures ComputeRuling(|panel|, later, deadline, now) == Ok(r)
    ensures Plurality(TallyOf(later)) == r
  {
    SubsetCardinality(Voters(votes, r), Voters(later, r));
    RulingMeaning(panel, later, deadline, now, r);
    TallyWithinPanel(panel, later);
  }
}
