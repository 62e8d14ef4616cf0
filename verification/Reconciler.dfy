/** The monthly reconciler: settlement payments driven by cron passes, manual triggers and
    queue retries, one after the other. */
module Reconciler {
  import opened Common

  type ContractId = string
  type Month = string

  datatype Contract = Contract(locked: bool, hasAccount: bool)

  datatype Key = Key(contract: ContractId, month: Month)

  /** A row of the reconciliations table. */
  datatype Row = Row(key: Key, charge: nat, matched: bool)

  datatype Payment = Payment(key: Key, drops: nat)

  /** What the outside world answers during one call: the usage read, the payment, the
      saving of the row, and the queueing of a retry should one be needed. A payment that
      throws has not been made. */
  datatype Answers = Answers(usage: Option<nat>, paid: bool, saved: bool, queued: bool)

  datatype State = State(
    contracts: map<ContractId, Contract>,
    rows: seq<Row>,
    queue: seq<Key>,
    payments: seq<Payment>,     // made on the ledger
    unrecorded: seq<Payment>)   // those whose row could not be saved

  const Empty := State(map[], [], [], [], [])

  predicate AlreadyMatched(rows: seq<Row>, key: Key) {
    exists i :: 0 <= i < |rows| && rows[i].key == key && rows[i].matched
  }

  function Reconcile(s: State, key: Key, a: Answers): (State, Result<()>) {
    if AlreadyMatched(s.rows, key) then (s, Ok(()))
    else if key.contract !in s.contracts then (s, Err("not found"))
    else if !s.contracts[key.contract].locked then (s, Err("not Locked"))
    else if !s.contracts[key.contract].hasAccount then (s, Err("missing contractAccount info"))
    else if a.usage.None? then (s, Err("usage unavailable"))
    else
      var charge := a.usage.value;
      var p := Payment(key, charge);
      var s1 := if a.paid then s.(payments := s.payments + [p]) else s;
      if !a.saved then (if a.paid then s1.(unrecorded := s1.unrecorded + [p]) else s1, Err("save failed"))
      else
        (s1.(rows := s1.rows + [Row(key, charge, a.paid)]), if a.paid then Ok(()) else Err("payment failed"))
  }

  /** One contract of a monthly pass: a failure is swallowed and queued; if the queue refuses
      too, the pass throws. */
  function PassOne(s: State, key: Key, a: Answers): (State, Result<()>) {
    var (s', r) := Reconcile(s, key, a);
    if r.Ok? then (s', Ok(()))
    else if a.queued then (s'.(queue := s'.queue + [key]), Ok(()))
    else (s', Err("queue unavailable"))
  }

  /** The pass over a list of contracts, up to the first refusal of the queue. */
  function RunMonthly(s: State, month: Month, locked: seq<ContractId>, answers: seq<Answers>): (State, Result<()>)
    requires |locked| == |answers|
  {
    if locked == [] then (s, Ok(()))
    else
      var k := |locked| - 1;
      var (mid, r) := RunMonthly(s, month, locked[..k], answers[..k]);
      if r.Err? then (mid, r) else PassOne(mid, Key(locked[k], month), answers[k])
  }

  /** The service, with its loop over the locked contracts. */
  class ReconcilerService {
    var contracts: map<ContractId, Contract>
    var rows: seq<Row>
    var queue: seq<Key>
    ghost var payments: seq<Payment>
    ghost var unrecorded: seq<Payment>

    ghost function View(): State
      reads this
    {
      State(contracts, rows, queue, payments, unrecorded)
    }

    constructor ()
      ensures View() == Empty
    {
      contracts, rows, queue, payments, unrecorded := map[], [], [], [], [];
    }

    method ReconcileContract(key: Key, a: Answers) returns (r: Result<()>)
      modifies this
      ensures (View(), r) == Reconcile(old(View()), key, a)
    {
      for i := 0 to |rows|
        invariant forall j :: 0 <= j < i ==> !(rows[j].key == key && rows[j].matched)
      {
        if rows[i].key == key && rows[i].matched { return Ok(()); }
      }
      if key.contract !in contracts { return Err("not found"); }
      if !contracts[key.contract].locked { return Err("not Locked"); }
      if !contracts[key.contract].hasAccount { return Err("missing contractAccount info"); }
      if a.usage.None? { return Err("usage unavailable"); }
      var matched := true;
      if a.paid {
        payments := payments + [Payment(key, a.usage.value)];
      } else {
        matched := false;
      }
      if !a.saved {
        if a.paid { unrecorded := unrecorded + [Payment(key, a.usage.value)]; }
        return Err("save failed");
      }
      rows := rows + [Row(key, a.usage.value, matched)];
      if !matched { return Err("payment failed"); }
      return Ok(());
    }

    method RunMonthlyReconcile(month: Month, locked: seq<ContractId>, answers: seq<Answers>) returns (r: Result<()>)
      requires |locked| == |answers|
      modifies this
      ensures (View(), r) == RunMonthly(old(View()), month, locked, answers)
    {
      hide Reconcile;
      for i := 0 to |locked|
        invariant (View(), Ok(())) == RunMonthly(old(View()), month, locked[..i], answers[..i])
      {
        assert locked[..i + 1][..i] == locked[..i] && answers[..i + 1][..i] == answers[..i];
        var one := this.ReconcileContract(Key(locked[i], month), answers[i]);
        if one.Err? {
          if !answers[i].queued {
            Refused(old(View()), month, locked, answers, i + 1);
            return Err("queue unavailable");
          }
          queue := queue + [Key(locked[i], month)];
        }
      }
      assert locked[..|locked|] == locked && answers[..|locked|] == answers;
      return Ok(());
    }
  }

  /** Once the queue has refused, the rest of the list is not looked at. */
  lemma {:induction false} Refused(s: State, month: Month, locked: seq<ContractId>, answers: seq<Answers>, n: nat)
    requires |locked| == |answers| && n <= |locked|
    requires RunMonthly(s, month, locked[..n], answers[..n]).1.Err?
    ensures RunMonthly(s, month, locked, answers) == RunMonthly(s, month, locked[..n], answers[..n])
    decreases |locked|
  {
    hide PassOne;
    if n < |locked| {
      var k := |locked| - 1;
      assert locked[..k][..n] == locked[..n] && answers[..k][..n] == answers[..n];
      Refused(s, month, locked[..k], answers[..k], n);
    } else {
      assert locked[..n] == locked && answers[..n] == answers;
    }
  }

  // ---- runs ----

  datatype Event =
    | SetContract(id: ContractId, contract: Contract)
    | Pass(month: Month, order: seq<ContractId>, answers: seq<Answers>)
    | Manual(key: Key, one: Answers)
    | Retry(job: nat, one: Answers, again: bool)   // a failed job may or may not be kept

  /** findAllLocked lists every locked contract, in some order. */
  ghost predicate ListsLocked(s: State, order: seq<ContractId>) {
    forall c :: c in order <==> c in s.contracts && s.contracts[c].locked
  }

  ghost function Step(s: State, e: Event): State {
    match e
    case SetContract(id, contract) => s.(contracts := s.contracts[id := contract])
    case Pass(month, order, answers) =>
      if |order| == |answers| && ListsLocked(s, order) then RunMonthly(s, month, order, answers).0 else s
    case Manual(key, one) => Reconcile(s, key, one).0
    case Retry(job, one, again) =>
      if job >= |s.queue| then s
      else
        var (s', r) := Reconcile(s, s.queue[job], one);
        if r.Err? && again then s' else s'.(queue := DropAt(s'.queue, job))
  }

  ghost function Run(s: State, es: seq<Event>): State
    decreases |es|
  {
    if es == [] then s else Run(Step(s, es[0]), es[1..])
  }

  /** The payments among ps for one contract-month. */
  ghost function For(ps: seq<Payment>, key: Key): seq<Payment> {
    if ps == [] then []
    else
      var last := |ps| - 1;
      For(ps[..last], key) + if ps[last].key == key then [ps[last]] else []
  }

  /** The payments its Matched rows stand for. */
  ghost function Recorded(rows: seq<Row>, key: Key): seq<Payment> {
    if rows == [] then []
    else
      var last := |rows| - 1;
      var r := rows[last];
      Recorded(rows[..last], key) + if r.key == key && r.matched then [Payment(r.key, r.charge)] else []
  }

  lemma ForAppend(ps: seq<Payment>, p: Payment, key: Key)
    ensures For(ps + [p], key) == For(ps, key) + if p.key == key then [p] else []
  {
    assert (ps + [p])[..|ps|] == ps;
  }

  lemma RecordedAppend(rows: seq<Row>, r: Row, key: Key)
    ensures Recorded(rows + [r], key) ==
            Recorded(rows, key) + if r.key == key && r.matched then [Payment(r.key, r.charge)] else []
  {
    assert (rows + [r])[..|rows|] == rows;
  }

  lemma {:induction false} RecordedMeansMatched(rows: seq<Row>, key: Key)
    ensures AlreadyMatched(rows, key) <==> Recorded(rows, key) != []
  {
    if rows != [] {
      var last := |rows| - 1;
      RecordedMeansMatched(rows[..last], key);
      if AlreadyMatched(rows[..last], key) {
        var j :| 0 <= j < last && rows[..last][j].key == key && rows[..last][j].matched;
        assert rows[j].key == key && rows[j].matched;
      }
      if AlreadyMatched(rows, key) && !(rows[last].key == key && rows[last].matched) {
        var j :| 0 <= j < |rows| && rows[j].key == key && rows[j].matched;
        assert rows[..last][j].key == key && rows[..last][j].matched;
      }
    }
  }

  /** The books of one contract-month: first the payments whose rows were lost, then at
      most one that is recorded, with its amount. */
  ghost predicate Balanced(s: State, key: Key) {
    && For(s.payments, key) == For(s.unrecorded, key) + Recorded(s.rows, key)
    && |Recorded(s.rows, key)| <= 1
  }

  ghost predicate Inv(s: State) { forall key :: Balanced(s, key) }

  lemma ReconcileBalances(s: State, key: Key, a: Answers, k: Key)
    requires Balanced(s, k)
    ensures Balanced(Reconcile(s, key, a).0, k)
  {
    hide For, Recorded;
    if a.usage.Some? && !AlreadyMatched(s.rows, key) {
      var p := Payment(key, a.usage.value);
      RecordedMeansMatched(s.rows, key);
      ForAppend(s.payments, p, k);
      ForAppend(s.unrecorded, p, k);
      RecordedAppend(s.rows, Row(key, a.usage.value, a.paid), k);
    }
  }

  lemma ReconcileKeeps(s: State, key: Key, a: Answers)
    requires Inv(s)
    ensures Inv(Reconcile(s, key, a).0)
  {
    forall k ensures Balanced(Reconcile(s, key, a).0, k) { ReconcileBalances(s, key, a, k); }
  }

  /** A call that returns leaves a Matched row; rows and queue only grow. */
  lemma ReconcileResult(s: State, key: Key, a: Answers)
    ensures var (s', r) := Reconcile(s, key, a);
            && (r.Ok? ==> AlreadyMatched(s'.rows, key))
            && s.rows <= s'.rows && s'.queue == s.queue && s'.contracts == s.contracts
  {
    var (s', r) := Reconcile(s, key, a);
    if s'.rows != s.rows {
      assert s'.rows[|s.rows|] == Row(key, a.usage.value, a.paid);
    }
  }

  lemma {:induction false} PassKeeps(s: State, month: Month, locked: seq<ContractId>, answers: seq<Answers>)
    requires Inv(s) && |locked| == |answers|
    ensures Inv(RunMonthly(s, month, locked, answers).0)
  {
    if locked != [] {
      hide Reconcile;
      var k := |locked| - 1;
      var mid := RunMonthly(s, month, locked[..k], answers[..k]).0;
      PassKeeps(s, month, locked[..k], answers[..k]);
      ReconcileKeeps(mid, Key(locked[k], month), answers[k]);
      forall key ensures Balanced(RunMonthly(s, month, locked, answers).0, key) {
        assert Balanced(mid, key);
        assert Balanced(Reconcile(mid, Key(locked[k], month), answers[k]).0, key);
      }
    }
  }

  lemma StepKeeps(s: State, e: Event)
    requires Inv(s)
    ensures Inv(Step(s, e))
  {
    hide Reconcile, RunMonthly;
    match e {
      case SetContract(_, _) =>
        assert forall key :: Balanced(s, key) ==> Balanced(Step(s, e), key);
      case Pass(month, order, answers) =>
        if |order| == |answers| { PassKeeps(s, month, order, answers); }
      case Manual(key, one) => ReconcileKeeps(s, key, one);
      case Retry(job, one, _) =>
        if job < |s.queue| {
          ReconcileKeeps(s, s.queue[job], one);
          ReconcileResult(s, s.queue[job], one);
          var s' := Reconcile(s, s.queue[job], one).0;
          assert forall key :: Balanced(s', key) ==> Balanced(s'.(queue := DropAt(s'.queue, job)), key);
        }
    }
  }

  lemma {:induction false} RunKeeps(s: State, es: seq<Event>)
    requires Inv(s)
    ensures Inv(Run(s, es))
    decreases |es|
  {
    if es != [] {
      StepKeeps(s, es[0]);
      RunKeeps(Step(s, es[0]), es[1..]);
    }
  }

  /** In every run a contract-month is paid at most once more than its payments went
      unrecorded; with every save succeeding it is paid exactly when it has its one
      Matched row, and by the amount of that row. */
  lemma PaidAtMostOnce(es: seq<Event>, key: Key)
    ensures var s := Run(Empty, es);
            && |For(s.payments, key)| == |For(s.unrecorded, key)| + (if AlreadyMatched(s.rows, key) then 1 else 0)
            && (For(s.unrecorded, key) == [] ==>
                  For(s.payments, key) == Recorded(s.rows, key) && |For(s.payments, key)| <= 1)
  {
    var s := Run(Empty, es);
    assert Inv(Empty);
    RunKeeps(Empty, es);
    assert Balanced(s, key);
    RecordedMeansMatched(s.rows, key);
  }

  /** A contract-month is paid more than once exactly when a payment's record was lost and
      it was paid again: a second record was lost as well, or the last one was kept. */
  lemma PaidTwiceIff(es: seq<Event>, key: Key)
    ensures var s := Run(Empty, es);
            |For(s.payments, key)| > 1 <==>
            |For(s.unrecorded, key)| > 1 || (|For(s.unrecorded, key)| == 1 && AlreadyMatched(s.rows, key))
  {
    PaidAtMostOnce(es, key);
  }

  /** A run that pays twice: the record of the first payment is not saved. */
  lemma LostRecordPaysTwice(key: Key, drops: nat)
    ensures var es := [SetContract(key.contract, Contract(true, true)),
                       Manual(key, Answers(Some(drops), true, false, true)),
                       Manual(key, Answers(Some(drops), true, true, true))];
            For(Run(Empty, es).payments, key) == [Payment(key, drops), Payment(key, drops)]
  {
    var lost, kept := Manual(key, Answers(Some(drops), true, false, true)), Manual(key, Answers(Some(drops), true, true, true));
    var es := [SetContract(key.contract, Contract(true, true)), lost, kept];
    var s1 := Step(Empty, es[0]);
    var s2 := Step(s1, lost);
    var s3 := Step(s2, kept);
    assert es[1..] == [lost, kept] && [lost, kept][1..] == [kept] && [kept][1..] == [];
    assert Run(s2, [kept]) == Run(s3, []);
    assert Run(s1, [lost, kept]) == Run(s2, [kept]);
    var p := Payment(key, drops);
    assert s3.payments == [] + [p] + [p];
    ForAppend([], p, key);
    ForAppend([] + [p], p, key);
  }

  lemma {:induction false} PassCovers(s: State, month: Month, order: seq<ContractId>, answers: seq<Answers>, i: nat)
    requires |order| == |answers| && i < |order| && RunMonthly(s, month, order, answers).1.Ok?
    ensures var s' := RunMonthly(s, month, order, answers).0;
            AlreadyMatched(s'.rows, Key(order[i], month)) || Key(order[i], month) in s'.queue
  {
    hide Reconcile;
    var k := |order| - 1;
    var mid := RunMonthly(s, month, order[..k], answers[..k]).0;
    ReconcileResult(mid, Key(order[k], month), answers[k]);
    if i < k {
      PassCovers(s, month, order[..k], answers[..k], i);
      var s' := RunMonthly(s, month, order, answers).0;
      var key := Key(order[i], month);
      if AlreadyMatched(mid.rows, key) {
        var j :| 0 <= j < |mid.rows| && mid.rows[j].key == key && mid.rows[j].matched;
        assert s'.rows[j] == mid.rows[j];
      }
    }
  }

  /** After a monthly pass that ran to its end every locked contract has its Matched row or a
      queued retry. */
  lemma PassLeavesNoOneBehind(s: State, month: Month, order: seq<ContractId>, answers: seq<Answers>, c: ContractId)
    requires |order| == |answers| && ListsLocked(s, order) && RunMonthly(s, month, order, answers).1.Ok?
    requires c in s.contracts && s.contracts[c].locked
    ensures var s' := Step(s, Pass(month, order, answers));
            AlreadyMatched(s'.rows, Key(c, month)) || Key(c, month) in s'.queue
  {
    assert c in order;
    var i :| 0 <= i < |order| && order[i] == c;
    PassCovers(s, month, order, answers, i);
  }

  /** And it runs to its end exactly when no contract failed while the queue was refusing. */
  lemma {:induction false} PassEndsIff(s: State, month: Month, order: seq<ContractId>, answers: seq<Answers>)
    requires |order| == |answers|
    ensures RunMonthly(s, month, order, answers).1.Ok? <==>
            forall i :: 0 <= i < |order| ==> !StoppedAt(s, month, order, answers, i)
  {
    hide Reconcile;
    if order != [] {
      var k := |order| - 1;
      PassEndsIff(s, month, order[..k], answers[..k]);
      forall i | 0 <= i < k
        ensures StoppedAt(s, month, order, answers, i) <==> StoppedAt(s, month, order[..k], answers[..k], i)
      {
        assert order[..k][..i] == order[..i] && answers[..k][..i] == answers[..i];
      }
      if RunMonthly(s, month, order[..k], answers[..k]).1.Ok? {
        assert RunMonthly(s, month, order, answers).1.Err? <==> StoppedAt(s, month, order, answers, k);
      }
    }
  }

  /** The i-th contract's call fails and the queue refuses its retry. */
  ghost predicate StoppedAt(s: State, month: Month, order: seq<ContractId>, answers: seq<Answers>, i: nat)
    requires i < |order| == |answers|
  {
    var before := RunMonthly(s, month, order[..i], answers[..i]).0;
    Reconcile(before, Key(order[i], month), answers[i]).1.Err? && !answers[i].queued
  }

  // ---- when a payment is made ----

  /** The call gets as far as paying: not yet paid and recorded, contract there, locked and
      with an account, usage known. */
  ghost predicate Pays(s: State, key: Key, a: Answers) {
    && (forall i :: 0 <= i < |s.rows| ==> !(s.rows[i].key == key && s.rows[i].matched))
    && key.contract in s.contracts && s.contracts[key.contract].locked && s.contracts[key.contract].hasAccount
    && a.usage.Some?
  }

  /** Then it pays the charge if the ledger takes it, and records what happened if the row can
      be saved; in every other case it does neither. */
  lemma ReconcileMeaning(s: State, key: Key, a: Answers)
    ensures var (s', r) := Reconcile(s, key, a);
            && s'.payments == s.payments + (if Pays(s, key, a) && a.paid then [Payment(key, a.usage.value)] else [])
            && s'.rows == s.rows + (if Pays(s, key, a) && a.saved then [Row(key, a.usage.value, a.paid)] else [])
            && s'.contracts == s.contracts && s'.queue == s.queue
            && (r.Ok? <==> (exists i :: 0 <= i < |s.rows| && s.rows[i].key == key && s.rows[i].matched) || (Pays(s, key, a) && a.paid && a.saved))
  {
  }

  lemma PassPays(s: State, month: Month, locked: seq<ContractId>, answers: seq<Answers>, key: Key)
    requires |locked| == |answers|
    requires For(RunMonthly(s, month, locked, answers).0.payments, key) != For(s.payments, key)
    ensures key.contract in s.contracts && s.contracts[key.contract].locked && s.contracts[key.contract].hasAccount
    ensures !AlreadyMatched(s.rows, key)
    decreases |locked|
  {
    PassFrame(s, month, locked, answers);
    if locked != [] {
      var k := |locked| - 1;
      var mid := RunMonthly(s, month, locked[..k], answers[..k]).0;
      PassFrame(s, month, locked[..k], answers[..k]);
      if For(mid.payments, key) != For(s.payments, key) {
        PassPays(s, month, locked[..k], answers[..k], key);
      } else {
        ReconcileMeaning(mid, Key(locked[k], month), answers[k]);
        if answers[k].usage.Some? { ForAppend(mid.payments, Payment(Key(locked[k], month), answers[k].usage.value), key); }
        hide Reconcile, For;
        StaysMatched(s.rows, mid.rows, key);
      }
    }
  }

  lemma StaysMatched(rows: seq<Row>, more: seq<Row>, key: Key)
    requires rows <= more
    ensures AlreadyMatched(rows, key) ==> AlreadyMatched(more, key)
  {
    if AlreadyMatched(rows, key) {
      var i :| 0 <= i < |rows| && rows[i].key == key && rows[i].matched;
      assert more[i] == rows[i];
    }
  }

  lemma {:induction false} PassFrame(s: State, month: Month, locked: seq<ContractId>, answers: seq<Answers>)
    requires |locked| == |answers|
    ensures var s' := RunMonthly(s, month, locked, answers).0; s'.contracts == s.contracts && s.rows <= s'.rows
  {
    if locked != [] {
      hide Reconcile;
      var k := |locked| - 1;
      PassFrame(s, month, locked[..k], answers[..k]);
      ReconcileResult(RunMonthly(s, month, locked[..k], answers[..k]).0, Key(locked[k], month), answers[k]);
    }
  }

  /** Whatever pays for a contract-month, pass, trigger or retry: the contract is locked and has
      its account at that moment, and no Matched row stands for the month. */
  lemma PaidWhileLocked(s: State, e: Event, key: Key)
    requires For(Step(s, e).payments, key) != For(s.payments, key)
    ensures key.contract in s.contracts && s.contracts[key.contract].locked && s.contracts[key.contract].hasAccount
    ensures !AlreadyMatched(s.rows, key)
  {
    match e {
      case SetContract(_, _) =>
      case Pass(month, order, answers) => PassPays(s, month, order, answers, key);
      case Manual(k, one) => CallPays(s, k, one, key);
      case Retry(job, one, _) => if job < |s.queue| { CallPays(s, s.queue[job], one, key); }
    }
  }

  lemma CallPays(s: State, k: Key, a: Answers, key: Key)
    requires For(Reconcile(s, k, a).0.payments, key) != For(s.payments, key)
    ensures key.contract in s.contracts && s.contracts[key.contract].locked && s.contracts[key.contract].hasAccount
    ensures !AlreadyMatched(s.rows, key)
  {
    ReconcileMeaning(s, k, a);
    if a.usage.Some? { ForAppend(s.payments, Payment(k, a.usage.value), key); }
    hide Reconcile, For;
  }

  /** In a pass a contract's retry is queued exactly when its call fails and the queue accepts;
      the pass goes on exactly unless it fails and the queue refuses. */
  lemma PassOneMeaning(s: State, key: Key, a: Answers)
    ensures var (s', r) := PassOne(s, key, a); var one := Reconcile(s, key, a);
            && s' == one.0.(queue := s.queue + if one.1.Err? && a.queued then [key] else [])
            && (r.Ok? <==> one.1.Ok? || a.queued)
  {
    ReconcileResult(s, key, a);
    hide Reconcile;
  }

  /** A queue retry is the same call, and leaves the queue unless it failed and is kept. */
  lemma RetryMeaning(s: State, job: nat, a: Answers, again: bool)
    requires job < |s.queue|
    ensures var one := Reconcile(s, s.queue[job], a);
            Step(s, Retry(job, a, again)) ==
            one.0.(queue := if one.1.Err? && again then s.queue else s.queue[..job] + s.queue[job + 1..])
  {
    ReconcileResult(s, s.queue[job], a);
    hide Reconcile;
  }
}
