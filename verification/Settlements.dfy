/** Monthly settlement rows driven by ledger-closed events: replays are dropped, each close
    upserts one row per eligible contract, and a counter tracks every touch. */
module Settlements {
  import opened Common
  import opened Decimal

  type ContractId = string
  type RowId = string

  datatype ContractStatus = Draft | EscrowPending | EscrowValidated | Active | Closed | Cancelled
  datatype RowStatus = Collecting | Accrued | Confirmed | Archived

  datatype Row = Row(contract: ContractId, year: nat, month: nat, status: RowStatus, lastLedger: nat, count: nat)

  datatype State = State(
    contracts: map<ContractId, ContractStatus>,
    order: seq<ContractId>,             // insertion order of `contracts`
    rows: map<RowId, Row>,
    seen: set<string>,                  // ingestion dedup keys
    touchedTotal: nat)                  // contractsTouchedTotal

  const Empty := State(map[], [], map[], {}, 0)

  // ---- identifiers ----

  predicate SafeChar(c: char) { 'a' <= c <= 'z' || 'A' <= c <= 'Z' || IsDigit(c) || c == '_' }

  function Sanitize(c: ContractId): (s: string)
    ensures |s| == |c|
    ensures forall i :: 0 <= i < |c| ==> s[i] == if SafeChar(c[i]) then c[i] else '_'
  {
    seq(|c|, i requires 0 <= i < |c| => if SafeChar(c[i]) then c[i] else '_')
  }

  predicate Safe(c: ContractId) { forall i :: 0 <= i < |c| ==> SafeChar(c[i]) }

  function SettlementId(c: ContractId, year: nat, month: nat): RowId {
    "stl_" + Sanitize(c) + "_" + ToText(year) + "_" + ToText(month)
  }

  function LedgerKey(ledger: nat): string {
    ToText(ledger) + ":" + ("ledger:" + ToText(ledger)) + ":" + "xrpl_subscribe_ledger_closed"
  }

  function TransactionKey(ledger: nat, hash: string): string {
    ToText(ledger) + ":" + hash + ":" + "xrpl_subscribe_transaction"
  }

  /** Two contract-months share a row exactly when their ids agree after sanitizing and the
      months are the same; underscores inside ids cannot confuse it. */
  lemma SettlementIdCollision(c: ContractId, y: nat, m: nat, c': ContractId, y': nat, m': nat)
    ensures SettlementId(c, y, m) == SettlementId(c', y', m') <==> Sanitize(c) == Sanitize(c') && y == y' && m == m'
  {
    if SettlementId(c, y, m) == SettlementId(c', y', m') {
      var p, p' := "stl_" + Sanitize(c), "stl_" + Sanitize(c');
      SplitLast(p + "_" + ToText(y), ToText(m), p' + "_" + ToText(y'), ToText(m'), '_');
      SplitLast(p, ToText(y), p', ToText(y'), '_');
      assert Sanitize(c) == p[4..] && Sanitize(c') == p'[4..];
      ToTextInjective(y, y');
      ToTextInjective(m, m');
    }
  }

  lemma SafeUnchanged(c: ContractId)
    requires Safe(c)
    ensures Sanitize(c) == c
  {
  }

  /** Ledger keys identify the ledger, and no transaction event uses one. */
  lemma LedgerKeyInjective(a: nat, b: nat, hash: string)
    ensures LedgerKey(a) == LedgerKey(b) <==> a == b
    ensures LedgerKey(a) != TransactionKey(b, hash)
  {
    if LedgerKey(a) == LedgerKey(b) {
      var ra := "ledger:" + ToText(a) + ":" + "xrpl_subscribe_ledger_closed";
      var rb := "ledger:" + ToText(b) + ":" + "xrpl_subscribe_ledger_closed";
      assert LedgerKey(a) == ToText(a) + [':'] + ra && LedgerKey(b) == ToText(b) + [':'] + rb;
      SplitFirst(ToText(a), ra, ToText(b), rb, ':');
      ToTextInjective(a, b);
    }
    assert LedgerKey(a)[|LedgerKey(a)| - 1] == 'd';
    assert TransactionKey(b, hash)[|TransactionKey(b, hash)| - 1] == 'n';
  }

  // ---- operations ----

  predicate EligibleStatus(c: ContractStatus) { c == Active || c == EscrowValidated }

  predicate IsArchived(rows: map<RowId, Row>, id: RowId) { id in rows && rows[id].status == Archived }

  predicate Touches(contracts: map<ContractId, ContractStatus>, rows: map<RowId, Row>, c: ContractId, id: RowId) {
    c in contracts && EligibleStatus(contracts[c]) && !IsArchived(rows, id)
  }

  function TouchedRow(rows: map<RowId, Row>, id: RowId, c: ContractId, year: nat, month: nat, ledger: nat): Row {
    if id in rows then rows[id].(lastLedger := ledger, count := rows[id].count + 1)
    else Row(c, year, month, Collecting, ledger, 1)
  }

  /** Touching the contracts of a list in order; the number touched is the second result. */
  function Touch(contracts: map<ContractId, ContractStatus>, rows: map<RowId, Row>, ids: seq<ContractId>,
                 year: nat, month: nat, ledger: nat): (map<RowId, Row>, nat) {
    if ids == [] then (rows, 0)
    else
      var last := |ids| - 1;
      var (r, n) := Touch(contracts, rows, ids[..last], year, month, ledger);
      var id := SettlementId(ids[last], year, month);
      if Touches(contracts, r, ids[last], id)
      then (r[id := TouchedRow(r, id, ids[last], year, month, ledger)], n + 1)
      else (r, n)
  }

  /** handleLedgerClosed, with the calendar month of the ledger's close time. */
  function LedgerClosed(s: State, ledger: nat, year: nat, month: nat, touchEnabled: bool): State {
    if LedgerKey(ledger) in s.seen then s
    else
      var s1 := s.(seen := s.seen + {LedgerKey(ledger)});
      if !touchEnabled then s1
      else
        var (rows, n) := Touch(s.contracts, s.rows, s.order, year, month, ledger);
        s1.(rows := rows, touchedTotal := s.touchedTotal + n)
  }

  predicate TransitionAllowed(from: RowStatus, to: RowStatus) {
    from == to || (from != Archived && (to == Archived
                                        || (from == Collecting && to != Collecting)
                                        || (from == Accrued && to == Confirmed)))
  }

  /** PATCH of a settlement's status; refused or unknown ids change nothing. */
  function PatchStatus(s: State, id: RowId, to: RowStatus): State {
    if id !in s.rows || !TransitionAllowed(s.rows[id].status, to) then s
    else s.(rows := s.rows[id := s.rows[id].(status := to)])
  }

  function SetContract(s: State, c: ContractId, status: ContractStatus): State {
    s.(contracts := s.contracts[c := status], order := if c in s.contracts then s.order else s.order + [c])
  }

  /** Ledger-close handling as the repository does it: a loop over the contract map that
      rewrites the settlement map and counts. */
  class SettlementStore {
    var contracts: map<ContractId, ContractStatus>
    var order: seq<ContractId>
    var rows: map<RowId, Row>
    var seen: set<string>
    var touchedTotal: nat

    ghost function View(): State
      reads this
    {
      State(contracts, order, rows, seen, touchedTotal)
    }

    constructor ()
      ensures View() == Empty
    {
      contracts, order, rows, seen, touchedTotal := map[], [], map[], {}, 0;
    }

    method TryRecordIngestion(key: string) returns (inserted: bool)
      modifies this`seen
      ensures inserted == (key !in old(seen)) && seen == old(seen) + {key}
    {
      if key in seen { return false; }
      seen := seen + {key};
      return true;
    }

    method TouchSettlementsOnLedgerClose(year: nat, month: nat, ledger: nat) returns (n: nat)
      modifies this`rows
      ensures (rows, n) == Touch(contracts, old(rows), order, year, month, ledger)
    {
      n := 0;
      for i := 0 to |order|
        invariant (rows, n) == Touch(contracts, old(rows), order[..i], year, month, ledger)
      {
        assert order[..i + 1][..i] == order[..i];
        var c := order[i];
        if c in contracts && EligibleStatus(contracts[c]) {
          var id := SettlementId(c, year, month);
          if id !in rows {
            rows := rows[id := Row(c, year, month, Collecting, ledger, 1)];
            n := n + 1;
          } else if rows[id].status != Archived {
            rows := rows[id := rows[id].(lastLedger := ledger, count := rows[id].count + 1)];
            n := n + 1;
          }
        }
      }
      assert order[..|order|] == order;
    }

    method HandleLedgerClosed(ledger: nat, year: nat, month: nat, touchEnabled: bool)
      modifies this
      ensures View() == LedgerClosed(old(View()), ledger, year, month, touchEnabled)
    {
      var inserted := TryRecordIngestion(LedgerKey(ledger));
      if !inserted { assert seen == old(seen); return; }
      if !touchEnabled { return; }
      var n := TouchSettlementsOnLedgerClose(year, month, ledger);
      touchedTotal := touchedTotal + n;
    }
  }

  // ---- runs ----

  datatype Event =
    | Close(ledger: nat, year: nat, month: nat, touchEnabled: bool)
    | Transaction(ledger: nat, hash: string)      // the stream's other user of the dedup set
    | Patch(id: RowId, to: RowStatus)
    | Contract(c: ContractId, status: ContractStatus)

  function Step(s: State, e: Event): State {
    match e
    case Close(ledger, year, month, enabled) => LedgerClosed(s, ledger, year, month, enabled)
    case Transaction(ledger, hash) => s.(seen := s.seen + {TransactionKey(ledger, hash)})
    case Patch(id, to) => PatchStatus(s, id, to)
    case Contract(c, status) => SetContract(s, c, status)
  }

  function Run(s: State, es: seq<Event>): State
    decreases |es|
  {
    if es == [] then s else Run(Step(s, es[0]), es[1..])
  }

  ghost function Counts(rows: map<RowId, Row>): map<RowId, nat> { map id | id in rows :: rows[id].count }

  ghost function CountOf(rows: map<RowId, Row>, id: RowId): nat { if id in rows then rows[id].count else 0 }

  /** The metric equals the sum of all rows' counts. */
  ghost predicate Inv(s: State) {
    && s.touchedTotal == Total(Counts(s.rows))
    && Distinct(s.order)
    && forall c :: c in s.order <==> c in s.contracts
  }

  lemma {:induction false} TouchTotal(contracts: map<ContractId, ContractStatus>, rows: map<RowId, Row>,
                                      ids: seq<ContractId>, year: nat, month: nat, ledger: nat)
    ensures var (r, n) := Touch(contracts, rows, ids, year, month, ledger);
            Total(Counts(r)) == Total(Counts(rows)) + n
  {
    if ids != [] {
      hide SettlementId;
      var last := |ids| - 1;
      TouchTotal(contracts, rows, ids[..last], year, month, ledger);
      var (r, n) := Touch(contracts, rows, ids[..last], year, month, ledger);
      var id := SettlementId(ids[last], year, month);
      var row := TouchedRow(r, id, ids[last], year, month, ledger);
      TotalUpdate(Counts(r), id, row.count);
      assert Counts(r[id := row]) == Counts(r)[id := row.count];
    }
  }

  lemma StepKeeps(s: State, e: Event)
    requires Inv(s)
    ensures Inv(Step(s, e))
  {
    hide LedgerKey, TransactionKey, Touch, Total;
    match e {
      case Close(ledger, year, month, _) => TouchTotal(s.contracts, s.rows, s.order, year, month, ledger);
      case Transaction(_, _) =>
      case Patch(id, to) => assert Counts(Step(s, e).rows) == Counts(s.rows);
      case Contract(_, _) =>
    }
  }

  lemma {:induction false} RunKeeps(s: State, es: seq<Event>)
    requires Inv(s)
    ensures Inv(Run(s, es))
    decreases |es|
  {
    if es != [] {
      StepKeeps(s, es[0]);
      RunKeeps(Step(s, es[0]), es[1..]);
    }
  }

  /** Over every run of closes, replays, patches and contract changes, whatever the contract
      ids: contracts touched in total == sum of all ledgerCloseCount values. */
  lemma TouchedTotalIsSum(es: seq<Event>)
    ensures Run(Empty, es).touchedTotal == Total(Counts(Run(Empty, es).rows))
  {
    assert Counts(map[]) == map[];
    RunKeeps(Empty, es);
  }

  // ---- what a single row counts ----

  /** The contracts a close would touch a given row for. */
  ghost function Touchers(contracts: map<ContractId, ContractStatus>, rows: map<RowId, Row>, ids: seq<ContractId>,
                          year: nat, month: nat, id: RowId): set<ContractId> {
    set c | c in ids && Touches(contracts, rows, c, id) && SettlementId(c, year, month) == id
  }

  lemma {:induction false} TouchCounts(contracts: map<ContractId, ContractStatus>, rows: map<RowId, Row>,
                                       ids: seq<ContractId>, year: nat, month: nat, ledger: nat, id: RowId)
    requires Distinct(ids)
    ensures var r := Touch(contracts, rows, ids, year, month, ledger).0;
            && CountOf(r, id) == CountOf(rows, id) + |Touchers(contracts, rows, ids, year, month, id)|
            && (IsArchived(r, id) <==> IsArchived(rows, id))
  {
    hide SettlementId;
    if ids == [] {
      assert Touchers(contracts, rows, ids, year, month, id) == {};
    } else {
      var last := |ids| - 1;
      TouchCounts(contracts, rows, ids[..last], year, month, ledger, id);
      TouchersStep(contracts, rows, ids, year, month, id);
      hide Touchers, Distinct;
    }
  }

  lemma TouchersStep(contracts: map<ContractId, ContractStatus>, rows: map<RowId, Row>, ids: seq<ContractId>,
                     year: nat, month: nat, id: RowId)
    requires Distinct(ids) && ids != []
    ensures var last := |ids| - 1;
            var hit := Touches(contracts, rows, ids[last], id) && SettlementId(ids[last], year, month) == id;
            |Touchers(contracts, rows, ids, year, month, id)|
            == |Touchers(contracts, rows, ids[..last], year, month, id)| + if hit then 1 else 0
  {
    hide SettlementId;
    var last := |ids| - 1;
    var c := ids[last];
    var before := Touchers(contracts, rows, ids[..last], year, month, id);
    var hit := Touches(contracts, rows, c, id) && SettlementId(c, year, month) == id;
    assert forall q :: q in ids <==> q in ids[..last] || q == c;
    assert c !in ids[..last];
    assert Touchers(contracts, rows, ids, year, month, id) == if hit then before + {c} else before;
  }

  /** A close that is not a replay counts for the contract-month: enabled, in that month,
      contract eligible, row not archived. */
  ghost predicate Hit(s: State, e: Event, c: ContractId, year: nat, month: nat) {
    && e.Close? && e.touchEnabled && e.year == year && e.month == month
    && LedgerKey(e.ledger) !in s.seen
    && c in s.contracts && (s.contracts[c] == Active || s.contracts[c] == EscrowValidated)
    && !(SettlementId(c, year, month) in s.rows && s.rows[SettlementId(c, year, month)].status == Archived)
  }

  /** The ledgers whose close counted over a run. */
  ghost function Hits(s: State, es: seq<Event>, c: ContractId, year: nat, month: nat): set<nat>
    decreases |es|
  {
    if es == [] then {}
    else (if Hit(s, es[0], c, year, month) then {es[0].ledger} else {}) + Hits(Step(s, es[0]), es[1..], c, year, month)
  }

  /** The contracts a close counts for in the row of c: c itself, and every contract whose id
      reads the same once sanitized. */
  ghost function HitBy(s: State, e: Event, c: ContractId, year: nat, month: nat): set<ContractId> {
    set q | q in s.contracts && Sanitize(q) == Sanitize(c) && Hit(s, e, q, year, month)
  }

  lemma CloseCounts(s: State, ledger: nat, y: nat, m: nat, enabled: bool, c: ContractId, year: nat, month: nat)
    requires Inv(s)
    ensures var e := Close(ledger, y, m, enabled);
            var id := SettlementId(c, year, month);
            CountOf(Step(s, e).rows, id) == CountOf(s.rows, id) + |HitBy(s, e, c, year, month)|
  {
    var e := Close(ledger, y, m, enabled);
    var id := SettlementId(c, year, month);
    var hit := HitBy(s, e, c, year, month);
    if LedgerKey(ledger) !in s.seen && enabled {
      TouchCounts(s.contracts, s.rows, s.order, y, m, ledger, id);
      forall q ensures SettlementId(q, y, m) == id <==> Sanitize(q) == Sanitize(c) && y == year && m == month {
        SettlementIdCollision(q, y, m, c, year, month);
      }
      forall q ensures Sanitize(q) == Sanitize(c) ==> SettlementId(q, year, month) == id {
        SettlementIdCollision(q, year, month, c, year, month);
      }
      assert Touchers(s.contracts, s.rows, s.order, y, m, id) == hit;
    } else {
      assert hit == {};
    }
  }

  lemma StepCounts(s: State, e: Event, c: ContractId, year: nat, month: nat)
    requires Inv(s)
    ensures var id := SettlementId(c, year, month);
            CountOf(Step(s, e).rows, id) == CountOf(s.rows, id) + |HitBy(s, e, c, year, month)|
  {
    hide SettlementId, LedgerKey, TransactionKey, Touch, Sanitize;
    if e.Close? {
      CloseCounts(s, e.ledger, e.year, e.month, e.touchEnabled, c, year, month);
    } else {
      assert HitBy(s, e, c, year, month) == {};
    }
  }

  lemma SeenStays(s: State, e: Event, ledger: nat)
    requires LedgerKey(ledger) in s.seen || (e.Close? && e.ledger == ledger)
    ensures LedgerKey(ledger) in Step(s, e).seen
  {
    hide LedgerKey, TransactionKey, Touch;
  }

  /** Over a run: which contract was counted in the row of c, and for which ledger. */
  ghost function AllHits(s: State, es: seq<Event>, c: ContractId, year: nat, month: nat): set<(ContractId, nat)>
    decreases |es|
  {
    if es == [] then {}
    else Now(s, es[0], c, year, month) + AllHits(Step(s, es[0]), es[1..], c, year, month)
  }

  ghost function Now(s: State, e: Event, c: ContractId, year: nat, month: nat): set<(ContractId, nat)> {
    if e.Close? then set q | q in HitBy(s, e, c, year, month) :: (q, e.ledger) else {}
  }

  lemma NowCounts(s: State, e: Event, c: ContractId, year: nat, month: nat)
    ensures |Now(s, e, c, year, month)| == |HitBy(s, e, c, year, month)|
    ensures forall p :: p in Now(s, e, c, year, month) ==> e.Close? && p.1 == e.ledger && Hit(s, e, p.0, year, month)
  {
    hide Hit, Sanitize;
    var hit, now := HitBy(s, e, c, year, month), Now(s, e, c, year, month);
    if e.Close? {
      InjectionCardinality(hit, now, (q: ContractId) => (q, e.ledger));
      InjectionCardinality(now, hit, (p: (ContractId, nat)) => p.0);
    } else {
      NoHit(s, e, year, month);
      assert hit == {};
    }
  }

  lemma NoHit(s: State, e: Event, year: nat, month: nat)
    requires !e.Close?
    ensures forall q :: !Hit(s, e, q, year, month)
  {
  }

  lemma {:induction false} SeenNeverCounts(s: State, es: seq<Event>, ledger: nat, c: ContractId, year: nat, month: nat)
    requires LedgerKey(ledger) in s.seen
    ensures forall q :: (q, ledger) !in AllHits(s, es, c, year, month)
    decreases |es|
  {
    if es != [] {
      hide LedgerKey, SettlementId, Step, Hit, HitBy, Now;
      SeenStays(s, es[0], ledger);
      SeenNeverCounts(Step(s, es[0]), es[1..], ledger, c, year, month);
      NowCounts(s, es[0], c, year, month);
      if es[0].Close? && es[0].ledger == ledger { SeenNoHit(s, es[0], ledger, year, month); }
    }
  }

  lemma SeenNoHit(s: State, e: Event, ledger: nat, year: nat, month: nat)
    requires LedgerKey(ledger) in s.seen && e.Close? && e.ledger == ledger
    ensures forall q :: !Hit(s, e, q, year, month)
  {
  }

  /** The row counts every pair once: no close is lost, and no replay is counted. */
  lemma {:induction false} RunCounts(s: State, es: seq<Event>, c: ContractId, year: nat, month: nat)
    requires Inv(s)
    ensures var id := SettlementId(c, year, month);
            CountOf(Run(s, es).rows, id) == CountOf(s.rows, id) + |AllHits(s, es, c, year, month)|
    decreases |es|
  {
    if es != [] {
      hide LedgerKey, SettlementId, Step, Hit, HitBy, Now;
      var s1 := Step(s, es[0]);
      StepKeeps(s, es[0]);
      StepCounts(s, es[0], c, year, month);
      NowCounts(s, es[0], c, year, month);
      RunCounts(s1, es[1..], c, year, month);
      var now, later := Now(s, es[0], c, year, month), AllHits(s1, es[1..], c, year, month);
      if now != {} {
        assert es[0].Close?;
        SeenStays(s, es[0], es[0].ledger);
        SeenNeverCounts(s1, es[1..], es[0].ledger, c, year, month);
        assert now !! later;
      }
      assert |now + later| == |now| + |later|;
    }
  }

  /** The pairs of c itself are the ledgers that hit it. */
  lemma {:induction false} OwnHits(s: State, es: seq<Event>, c: ContractId, year: nat, month: nat)
    ensures forall l :: (c, l) in AllHits(s, es, c, year, month) <==> l in Hits(s, es, c, year, month)
    decreases |es|
  {
    if es != [] {
      hide LedgerKey, SettlementId, Step, Sanitize;
      OwnHits(Step(s, es[0]), es[1..], c, year, month);
      assert c in HitBy(s, es[0], c, year, month) <==> Hit(s, es[0], c, year, month);
    }
  }

  lemma OwnOnly(all: set<(ContractId, nat)>, own: set<nat>, c: ContractId)
    requires forall l :: (c, l) in all <==> l in own
    ensures |all| == |own| <==> forall p :: p in all ==> p.0 == c
  {
    var mine := set l | l in own :: (c, l);
    InjectionCardinality(own, mine, (l: nat) => (c, l));
    InjectionCardinality(mine, own, (p: (ContractId, nat)) => p.1);
    assert mine <= all;
    assert all == mine + (all - mine);
    if |all| == |own| {
      assert all - mine == {};
    }
    if forall p :: p in all ==> p.0 == c {
      forall p | p in all ensures p in mine { assert p == (c, p.1); }
      assert all == mine;
    }
  }

  /** In every run, whatever the ids: the row of a contract-month counts exactly the distinct
      ledgers that closed in its month while its contract was eligible and the row was not
      archived, if and only if no close ever counted there for another contract. */
  lemma RowIsItsOwnIff(es: seq<Event>, c: ContractId, year: nat, month: nat)
    ensures CountOf(Run(Empty, es).rows, SettlementId(c, year, month)) == |Hits(Empty, es, c, year, month)|
       <==> forall p :: p in AllHits(Empty, es, c, year, month) ==> p.0 == c
  {
    assert Counts(map[]) == map[];
    RunCounts(Empty, es, c, year, month);
    OwnHits(Empty, es, c, year, month);
    OwnOnly(AllHits(Empty, es, c, year, month), Hits(Empty, es, c, year, month), c);
  }

  ghost predicate UsesOnly(es: seq<Event>, ids: set<ContractId>) {
    forall i :: 0 <= i < |es| && es[i].Contract? ==> es[i].c in ids
  }

  /** No other id in use reads like c once sanitized. */
  ghost predicate NoClash(ids: set<ContractId>, c: ContractId) {
    forall q :: q in ids && Sanitize(q) == Sanitize(c) ==> q == c
  }

  lemma {:induction false} HitsInUse(s: State, es: seq<Event>, ids: set<ContractId>, c: ContractId, year: nat, month: nat)
    requires UsesOnly(es, ids) && s.contracts.Keys <= ids
    ensures forall p :: p in AllHits(s, es, c, year, month) ==> p.0 in ids && Sanitize(p.0) == Sanitize(c)
    decreases |es|
  {
    if es != [] {
      StepInUse(s, es[0], ids);
      forall i | 0 <= i < |es[1..]| ensures es[1..][i] == es[i + 1] {}
      hide LedgerKey, SettlementId, Step, Sanitize, Hit;
      HitsInUse(Step(s, es[0]), es[1..], ids, c, year, month);
    }
  }

  lemma StepInUse(s: State, e: Event, ids: set<ContractId>)
    requires s.contracts.Keys <= ids && (e.Contract? ==> e.c in ids)
    ensures Step(s, e).contracts.Keys <= ids
  {
    hide LedgerKey, TransactionKey, Touch;
  }

  /** The exact condition on the contract ids in use: every run over them keeps the count of
      c's row right if and only if none of them clashes with c. */
  lemma RowCountsDistinctClosesIff(ids: set<ContractId>, c: ContractId, year: nat, month: nat)
    ensures NoClash(ids, c) <==>
            forall es :: UsesOnly(es, ids) ==>
              CountOf(Run(Empty, es).rows, SettlementId(c, year, month)) == |Hits(Empty, es, c, year, month)|
  {
    if NoClash(ids, c) {
      forall es | UsesOnly(es, ids)
        ensures CountOf(Run(Empty, es).rows, SettlementId(c, year, month)) == |Hits(Empty, es, c, year, month)|
      {
        HitsInUse(Empty, es, ids, c, year, month);
        RowIsItsOwnIff(es, c, year, month);
      }
    } else {
      var q :| q in ids && Sanitize(q) == Sanitize(c) && q != c;
      var es := [Contract(q, Active), Close(0, year, month, true)];
      assert UsesOnly(es, ids);
      ClashCounts(q, c, year, month, 0);
      RowIsItsOwnIff(es, c, year, month);
    }
  }

  /** One close, counted in the row of c for another contract. */
  lemma ClashCounts(q: ContractId, c: ContractId, year: nat, month: nat, ledger: nat)
    requires q != c && Sanitize(q) == Sanitize(c)
    ensures (q, ledger) in AllHits(Empty, [Contract(q, Active), Close(ledger, year, month, true)], c, year, month)
  {
    var e, f := Contract(q, Active), Close(ledger, year, month, true);
    assert [e, f][1..] == [f];
    var s := Step(Empty, e);
    assert AllHits(s, [f], c, year, month) == Now(s, f, c, year, month) + AllHits(Step(s, f), [f][1..], c, year, month);
    assert Hit(s, f, q, year, month);
    assert q in HitBy(s, f, c, year, month);
  }

  ghost predicate SafeEvents(es: seq<Event>) {
    forall i :: 0 <= i < |es| && es[i].Contract? ==> Safe(es[i].c)
  }

  /** In particular for contract ids of letters, digits and underscores, such as every id the
      service makes itself. */
  lemma RowCountsDistinctCloses(es: seq<Event>, c: ContractId, year: nat, month: nat)
    requires SafeEvents(es) && Safe(c)
    ensures CountOf(Run(Empty, es).rows, SettlementId(c, year, month)) == |Hits(Empty, es, c, year, month)|
  {
    var ids := set i | 0 <= i < |es| && es[i].Contract? :: es[i].c;
    forall q | q in ids && Sanitize(q) == Sanitize(c) ensures q == c {
      SafeUnchanged(q);
      SafeUnchanged(c);
    }
    RowCountsDistinctClosesIff(ids, c, year, month);
  }

  /** Two clashing contracts in use at once: one close, two counts. */
  lemma CollidingIdsShareARow(a: ContractId, b: ContractId, year: nat, month: nat, ledger: nat)
    requires a != b && Sanitize(a) == Sanitize(b)
    ensures var es := [Contract(a, Active), Contract(b, Active), Close(ledger, year, month, true)];
            && |Hits(Empty, es, a, year, month)| <= 1
            && CountOf(Run(Empty, es).rows, SettlementId(a, year, month)) == 2
  {
    var es := [Contract(a, Active), Contract(b, Active), Close(ledger, year, month, true)];
    var id := SettlementId(a, year, month);
    SettlementIdCollision(a, year, month, b, year, month);
    hide SettlementId, LedgerKey, Sanitize, Touch;
    var s1 := Step(Empty, es[0]);
    var s2 := Step(s1, es[1]);
    var s3 := Step(s2, es[2]);
    assert es[1..] == [es[1], es[2]] && es[1..][1..] == [es[2]] && [es[2]][1..] == [];
    assert Run(Empty, es) == s3 by {
      assert Run(s1, es[1..]) == Run(s2, [es[2]]);
      assert Run(s2, [es[2]]) == Run(s3, []);
    }
    assert Hits(Empty, es, a, year, month) <= {ledger} by {
      assert Hits(s1, es[1..], a, year, month) == Hits(s2, [es[2]], a, year, month);
      assert Hits(s2, [es[2]], a, year, month) <= {ledger} + Hits(s3, [], a, year, month);
    }
    SubsetCardinality(Hits(Empty, es, a, year, month), {ledger});
    assert s2.order == [a, b];
    TouchCounts(s2.contracts, s2.rows, s2.order, year, month, ledger, id);
    assert Touchers(s2.contracts, s2.rows, s2.order, year, month, id) == {a, b};
  }

  lemma CollisionExists()
    ensures Sanitize("a-b") == Sanitize("a_b")
  {
  }

  // ---- what a close and a patch do to a row ----

  /** A ledger is known to the deduplication exactly when a close of it has been handled. */
  lemma {:induction false} SeenIffClosed(es: seq<Event>, ledger: nat)
    ensures LedgerKey(ledger) in Run(Empty, es).seen <==> exists i :: 0 <= i < |es| && es[i].Close? && es[i].ledger == ledger
  {
    SeenFrom(Empty, es, ledger);
  }

  lemma {:induction false} SeenFrom(s: State, es: seq<Event>, ledger: nat)
    ensures LedgerKey(ledger) in Run(s, es).seen <==>
            LedgerKey(ledger) in s.seen || exists i :: 0 <= i < |es| && es[i].Close? && es[i].ledger == ledger
    decreases |es|
  {
    if es != [] {
      StepSeen(s, es[0], ledger);
      hide Step, LedgerKey;
      SeenFrom(Step(s, es[0]), es[1..], ledger);
      if exists i :: 0 <= i < |es| && es[i].Close? && es[i].ledger == ledger {
        var i :| 0 <= i < |es| && es[i].Close? && es[i].ledger == ledger;
        if i > 0 { assert es[1..][i - 1] == es[i]; }
      }
      if exists i :: 0 <= i < |es[1..]| && es[1..][i].Close? && es[1..][i].ledger == ledger {
        var i :| 0 <= i < |es[1..]| && es[1..][i].Close? && es[1..][i].ledger == ledger;
        assert es[i + 1] == es[1..][i];
      }
    }
  }

  lemma StepSeen(s: State, e: Event, ledger: nat)
    ensures LedgerKey(ledger) in Step(s, e).seen <==> LedgerKey(ledger) in s.seen || (e.Close? && e.ledger == ledger)
  {
    if e.Close? { LedgerKeyInjective(ledger, e.ledger, ""); }
    if e.Transaction? { LedgerKeyInjective(ledger, e.ledger, e.hash); }
    hide LedgerKey, TransactionKey, Touch;
  }

  /** A row after a close: untouched, or counted further with the ledger noted. */
  ghost predicate Counted(before: Row, after: Row, ledger: nat) {
    after == before || (after == before.(lastLedger := ledger, count := after.count) && after.count > before.count)
  }

  /** A row a close has opened: for an active or escrow-validated contract, in the month. */
  ghost predicate Opened(contracts: map<ContractId, ContractStatus>, id: RowId, row: Row, year: nat, month: nat, ledger: nat) {
    && row.status == Collecting && row.year == year && row.month == month && row.lastLedger == ledger && row.count >= 1
    && SettlementId(row.contract, year, month) == id
    && row.contract in contracts && (contracts[row.contract] == Active || contracts[row.contract] == EscrowValidated)
  }

  lemma {:induction false} TouchRow(contracts: map<ContractId, ContractStatus>, rows: map<RowId, Row>, ids: seq<ContractId>,
                                    year: nat, month: nat, ledger: nat, id: RowId)
    ensures var r := Touch(contracts, rows, ids, year, month, ledger).0;
            && (id in rows ==> id in r && Counted(rows[id], r[id], ledger))
            && (id !in rows && id in r ==> Opened(contracts, id, r[id], year, month, ledger))
            && (id in rows && rows[id].status == Archived ==> r[id] == rows[id])
  {
    if ids != [] {
      hide SettlementId;
      TouchRow(contracts, rows, ids[..|ids| - 1], year, month, ledger, id);
    }
  }

  /** A close opens rows only for eligible contracts in its month, and otherwise only raises
      counts and notes the ledger; status, contract and month of a row stay, an archived row
      entirely. */
  lemma CloseMeaning(s: State, ledger: nat, year: nat, month: nat, enabled: bool, id: RowId)
    ensures var s' := Step(s, Close(ledger, year, month, enabled));
            && s'.contracts == s.contracts
            && (id in s.rows ==> id in s'.rows && Counted(s.rows[id], s'.rows[id], ledger))
            && (id !in s.rows && id in s'.rows ==> Opened(s.contracts, id, s'.rows[id], year, month, ledger))
            && (id in s.rows && s.rows[id].status == Archived ==> s'.rows[id] == s.rows[id])
            && (!enabled ==> s'.rows == s.rows)
  {
    hide LedgerKey, Touch;
    TouchRow(s.contracts, s.rows, s.order, year, month, ledger, id);
  }

  function Rank(st: RowStatus): nat {
    match st
    case Collecting => 0
    case Accrued => 1
    case Confirmed => 2
    case Archived => 3
  }

  /** An operator can move a settlement forward, from confirmed only to the archive, and leave
      it where it is; nothing leaves the archive, and nothing else about the row changes. */
  lemma PatchMeaning(s: State, id: RowId, to: RowStatus)
    ensures var s' := Step(s, Patch(id, to));
            && (id !in s.rows ==> s' == s)
            && (id in s.rows ==>
                  var from := s.rows[id].status;
                  s' == if Rank(to) >= Rank(from) then s.(rows := s.rows[id := s.rows[id].(status := to)]) else s)
  {
    if id in s.rows {
      assert s.rows[id := s.rows[id]] == s.rows;
      match s.rows[id].status {
        case Collecting =>
        case Accrued =>
        case Confirmed =>
        case Archived =>
      }
    }
  }

  /** Over every run a settlement's status never goes back, and its contract and month stay. */
  lemma {:induction false} StatusNeverFalls(s: State, es: seq<Event>, id: RowId)
    requires id in s.rows
    ensures var s' := Run(s, es);
            && id in s'.rows && Rank(s'.rows[id].status) >= Rank(s.rows[id].status) && s'.rows[id].count >= s.rows[id].count
            && s'.rows[id].contract == s.rows[id].contract && s'.rows[id].year == s.rows[id].year && s'.rows[id].month == s.rows[id].month
    decreases |es|
  {
    if es != [] {
      match es[0] {
        case Close(ledger, year, month, enabled) => CloseMeaning(s, ledger, year, month, enabled, id);
        case Transaction(_, _) =>
        case Patch(x, to) => PatchMeaning(s, x, to);
        case Contract(_, _) =>
      }
      hide LedgerClosed, TransitionAllowed;
      StatusNeverFalls(Step(s, es[0]), es[1..], id);
    }
  }

  /** The shape of a row id. */
  lemma IdExample()
    ensures SettlementId("ctr_1-a", 2024, 3) == "stl_ctr_1_a_2024_3"
  {
    assert Sanitize("ctr_1-a") == "ctr_1_a";
    assert ToText(2024) == "2024" by { assert ToText(202) == "202" by { assert ToText(20) == "20" by { assert ToText(2) == "2"; } } }
    assert ToText(3) == "3";
  }
}
