/** Delivering validated results: in any order, any number of times, the end is the same. */
module TxDelivery {
  import opened Common
  import opened TxTracking
  import opened TxInvariants

  /** One delivery of a hash's final status, by the stream, the policy worker, a refresh or
      the live backfill, at some time. */
  datatype Delivery = Delivery(h: Hash, at: int)

  function Deliver(s: State, ds: seq<Delivery>, final: map<Hash, Live>): State {
    if ds == [] then s
    else
      var last := |ds| - 1;
      var before := Deliver(s, ds[..last], final);
      if ds[last].h in final then ApplyLive(before, ds[last].h, final[ds[last].h], ds[last].at) else before
  }

  /** A state without its timestamps. */
  ghost function Timeless(s: State): State {
    s.(txs := map h | h in s.txs :: s.txs[h].(lastChecked := 0))
  }

  ghost function Delivered(ds: seq<Delivery>): set<Hash> { set i | 0 <= i < |ds| :: ds[i].h }

  // ---- the end state, without reference to any order ----

  ghost predicate Heard(s: State, hs: set<Hash>, final: map<Hash, Live>, h: Hash, id: DisputeId) {
    h in hs && h in final && Linked(s, h, id)
  }

  ghost function EndTx(t: Tx, h: Hash, hs: set<Hash>, final: map<Hash, Live>): Tx {
    if h in hs && h in final then Merge(t, final[h], 0) else t.(lastChecked := 0)
  }

  ghost function EndStatus(s: State, hs: set<Hash>, final: map<Hash, Live>, id: DisputeId): DisputeStatus
    requires id in s.disputes
  {
    if s.disputes[id] != ExecutionPending || !(exists h :: Heard(s, hs, final, h, id)) then s.disputes[id]
    else if exists h :: Heard(s, hs, final, h, id) && Classify(final[h].resultCode) == Success then Executed
    else Rejected
  }

  ghost function End(s: State, hs: set<Hash>, final: map<Hash, Live>): State {
    State(map h | h in s.txs :: EndTx(s.txs[h], h, hs, final),
          map id | id in s.disputes :: EndStatus(s, hs, final, id),
          s.decisions)
  }

  ghost predicate Validated(final: map<Hash, Live>) { forall h :: h in final ==> final[h].validated }

  lemma MergeTwice(t: Tx, u: Tx, l: Live, a: int, b: int)
    requires u.(lastChecked := 0) == Merge(t, l, a).(lastChecked := 0)
    ensures Merge(u, l, b).(lastChecked := 0) == Merge(t, l, a).(lastChecked := 0)
  {
  }

  lemma MergeTime(t: Tx, u: Tx, l: Live, a: int, b: int)
    requires t.(lastChecked := 0) == u.(lastChecked := 0)
    ensures Merge(t, l, a).(lastChecked := 0) == Merge(u, l, b).(lastChecked := 0)
  {
  }

  /** One more delivery takes the end for hs to the end for hs + {h}: rows. */
  lemma DeliverTx(s: State, now: State, hs: set<Hash>, final: map<Hash, Live>, h: Hash, at: int, g: Hash)
    requires Timeless(now) == End(s, hs, final) && h in final && g in s.txs
    ensures now.txs.Keys == s.txs.Keys
    ensures ApplyLive(now, h, final[h], at).txs.Keys == s.txs.Keys
    ensures ApplyLive(now, h, final[h], at).txs[g].(lastChecked := 0) == EndTx(s.txs[g], g, hs + {h}, final).(lastChecked := 0)
    ensures EndTx(s.txs[g], g, hs + {h}, final).lastChecked == 0
  {
    hide Merge, Resolve;
    SameKeys(now, s, hs, final);
    assert Timeless(now).txs[g] == End(s, hs, final).txs[g];
    if g == h {
      if h in hs {
        MergeTwice(s.txs[h], now.txs[h], final[h], 0, at);
      } else {
        MergeTime(s.txs[h], now.txs[h], final[h], 0, at);
      }
    }
    MergeStamp(s.txs[g], if g in final then final[g] else final[h]);
  }

  lemma MergeStamp(t: Tx, l: Live)
    ensures Merge(t, l, 0).lastChecked == 0
  {
  }

  lemma SameKeys(now: State, s: State, hs: set<Hash>, final: map<Hash, Live>)
    requires Timeless(now) == End(s, hs, final)
    ensures now.txs.Keys == s.txs.Keys && now.disputes.Keys == s.disputes.Keys
    ensures forall h, id :: Linked(now, h, id) <==> Linked(s, h, id)
    ensures forall id :: id in s.disputes ==> now.disputes[id] == EndStatus(s, hs, final, id)
  {
    assert Timeless(now).txs.Keys == now.txs.Keys && End(s, hs, final).txs.Keys == s.txs.Keys;
    assert Timeless(now).disputes == now.disputes && End(s, hs, final).disputes.Keys == s.disputes.Keys;
    forall h, id ensures Linked(now, h, id) <==> Linked(s, h, id) {
      if h in s.txs {
        assert Timeless(now).txs[h].disputeId == End(s, hs, final).txs[h].disputeId;
      }
    }
  }

  /** ... and statuses; this is where one hash per dispute is needed. */
  lemma StatusStep(s: State, now: State, hs: set<Hash>, final: map<Hash, Live>, h: Hash, live: Live, at: int, id: DisputeId)
    requires LinksOk(s) && id in s.disputes && SameLinks(s, now) && now.disputes[id] == EndStatus(s, hs, final, id)
    requires h in final && live.validated && Classify(live.resultCode) == Classify(final[h].resultCode)
    ensures ApplyLive(now, h, live, at).disputes.Keys == s.disputes.Keys
    ensures ApplyLive(now, h, live, at).disputes[id] == EndStatus(s, hs + {h}, final, id)
  {
    forall g ensures Heard(s, hs + {h}, final, g, id) <==> Heard(s, hs, final, g, id) || (g == h && Linked(s, h, id)) {}
    if h in s.txs {
      assert Linked(now, h, id) <==> Linked(s, h, id);
      MergeFacts(now.txs[h], live, at);
      hide Merge, Classify;
      if Linked(s, h, id) && s.disputes[id] == ExecutionPending {
        assert Heard(s, hs + {h}, final, h, id);
        forall g | Heard(s, hs + {h}, final, g, id) ensures g == h {}
      }
    }
  }

  ghost predicate SameLinks(s: State, now: State) {
    && now.txs.Keys == s.txs.Keys && now.disputes.Keys == s.disputes.Keys
    && forall h, id :: Linked(now, h, id) <==> Linked(s, h, id)
  }

  lemma DeliverStatus(s: State, now: State, hs: set<Hash>, final: map<Hash, Live>, h: Hash, at: int, id: DisputeId)
    requires Timeless(now) == End(s, hs, final) && h in final && Validated(final) && LinksOk(s)
    requires id in s.disputes
    ensures id in now.disputes
    ensures ApplyLive(now, h, final[h], at).disputes.Keys == s.disputes.Keys
    ensures ApplyLive(now, h, final[h], at).disputes[id] == EndStatus(s, hs + {h}, final, id)
  {
    SameKeys(now, s, hs, final);
    hide ApplyLive, EndStatus, LinksOk, Classify, End, Timeless;
    StatusStep(s, now, hs, final, h, final[h], at, id);
  }

  lemma MergeFacts(t: Tx, l: Live, at: int)
    ensures var m := Merge(t, l, at);
            m.disputeId == t.disputeId && m.validated == l.validated && m.outcome == Some(Classify(l.resultCode))
  {
  }

  lemma DeliverOne(s: State, now: State, hs: set<Hash>, final: map<Hash, Live>, h: Hash, at: int)
    requires Timeless(now) == End(s, hs, final) && h in final && Validated(final) && LinksOk(s)
    ensures Timeless(ApplyLive(now, h, final[h], at)) == End(s, hs + {h}, final)
  {
    hide ApplyLive, End, Timeless;
    var next := ApplyLive(now, h, final[h], at);
    DeliverRows(s, now, hs, final, h, at);
    DeliverStatuses(s, now, hs, final, h, at);
    var a, b := Timeless(next), End(s, hs + {h}, final);
    assert a.txs == b.txs && a.disputes == b.disputes && a.decisions == b.decisions;
  }

  lemma DeliverRows(s: State, now: State, hs: set<Hash>, final: map<Hash, Live>, h: Hash, at: int)
    requires Timeless(now) == End(s, hs, final) && h in final
    ensures var next := ApplyLive(now, h, final[h], at);
            Timeless(next).txs == End(s, hs + {h}, final).txs && Timeless(next).decisions == End(s, hs + {h}, final).decisions
  {
    hide Merge, EndStatus, EndTx, Resolve;
    var next := ApplyLive(now, h, final[h], at);
    var goal := End(s, hs + {h}, final);
    SameKeys(now, s, hs, final);
    forall g | g in s.txs ensures next.txs.Keys == s.txs.Keys && Timeless(next).txs[g] == goal.txs[g] {
      DeliverTx(s, now, hs, final, h, at, g);
    }
    assert next.txs.Keys == s.txs.Keys;
  }

  lemma DeliverStatuses(s: State, now: State, hs: set<Hash>, final: map<Hash, Live>, h: Hash, at: int)
    requires Timeless(now) == End(s, hs, final) && h in final && Validated(final) && LinksOk(s)
    ensures Timeless(ApplyLive(now, h, final[h], at)).disputes == End(s, hs + {h}, final).disputes
  {
    hide Merge, EndStatus, EndTx, LinksOk, Validated;
    var next := ApplyLive(now, h, final[h], at);
    var goal := End(s, hs + {h}, final);
    SameKeys(now, s, hs, final);
    forall id | id in s.disputes ensures next.disputes.Keys == s.disputes.Keys && next.disputes[id] == goal.disputes[id] {
      DeliverStatus(s, now, hs, final, h, at, id);
    }
    assert next.disputes.Keys == s.disputes.Keys;
  }

  lemma {:induction false} DeliverReachesEnd(s: State, ds: seq<Delivery>, final: map<Hash, Live>)
    requires Validated(final) && LinksOk(s)
    ensures Timeless(Deliver(s, ds, final)) == End(s, Delivered(ds), final)
  {
    if ds == [] {
      assert Delivered(ds) == {};
      NothingHeard(s, final);
    } else {
      var last := |ds| - 1;
      var h := ds[last].h;
      var now := Deliver(s, ds[..last], final);
      DeliverReachesEnd(s, ds[..last], final);
      assert Delivered(ds) == Delivered(ds[..last]) + {h} by {
        forall i | 0 <= i < last ensures ds[i].h in Delivered(ds[..last]) { assert ds[..last][i] == ds[i]; }
      }
      if h in final {
        DeliverOne(s, now, Delivered(ds[..last]), final, h, ds[last].at);
      } else {
        assert End(s, Delivered(ds), final) == End(s, Delivered(ds[..last]), final) by {
          UnknownHashIgnored(s, Delivered(ds[..last]), final, h);
        }
      }
    }
  }

  lemma NothingHeard(s: State, final: map<Hash, Live>)
    ensures Timeless(s) == End(s, {}, final)
  {
    assert End(s, {}, final).disputes == s.disputes;
  }

  lemma UnknownHashIgnored(s: State, hs: set<Hash>, final: map<Hash, Live>, h: Hash)
    requires h !in final
    ensures End(s, hs + {h}, final) == End(s, hs, final)
  {
    hide Merge, Classify;
    forall g, id ensures Heard(s, hs + {h}, final, g, id) <==> Heard(s, hs, final, g, id) {}
    assert End(s, hs + {h}, final).txs == End(s, hs, final).txs;
    assert End(s, hs + {h}, final).disputes == End(s, hs, final).disputes;
  }

  /** From any reachable state: two delivery sequences that report the same hashes, in any
      order and with any repetitions, end in the same rows and dispute statuses. */
  lemma OrderAndRepetitionDoNotMatter(es: seq<Event>, a: seq<Delivery>, b: seq<Delivery>, final: map<Hash, Live>)
    requires Validated(final) && Delivered(a) == Delivered(b)
    ensures Timeless(Deliver(Run(Empty, es), a, final)) == Timeless(Deliver(Run(Empty, es), b, final))
  {
    ReachableOk(es);
    DeliverReachesEnd(Run(Empty, es), a, final);
    DeliverReachesEnd(Run(Empty, es), b, final);
  }

  /** And the pending dispute behind a reported hash is settled by it. */
  lemma ReportedDisputeIsSettled(es: seq<Event>, ds: seq<Delivery>, final: map<Hash, Live>, h: Hash, id: DisputeId)
    requires Validated(final) && h in final && h in Delivered(ds)
    requires var s := Run(Empty, es); Linked(s, h, id) && id in s.disputes && s.disputes[id] == ExecutionPending
    ensures var s' := Deliver(Run(Empty, es), ds, final);
            id in s'.disputes && s'.disputes[id] == if Classify(final[h].resultCode) == Success then Executed else Rejected
  {
    var s := Run(Empty, es);
    ReachableOk(es);
    DeliverReachesEnd(s, ds, final);
    SameKeys(Deliver(s, ds, final), s, Delivered(ds), final);
    assert Heard(s, Delivered(ds), final, h, id);
  }

  /** The reason it works: with two hashes on one dispute the order would decide. */
  lemma TwoHashesWouldRace(s: State, h: Hash, g: Hash, id: DisputeId, good: Live, bad: Live)
    requires h != g && Linked(s, h, id) && Linked(s, g, id)
    requires id in s.disputes && s.disputes[id] == ExecutionPending
    requires good.validated && bad.validated && Classify(good.resultCode) == Success && Classify(bad.resultCode) != Success
    ensures ApplyLive(ApplyLive(s, h, good, 0), g, bad, 0).disputes[id] == Executed
    ensures ApplyLive(ApplyLive(s, g, bad, 0), h, good, 0).disputes[id] == Rejected
  {
  }

  // ---- reports that are not validated ----

  /** Any report at all: what rippled says of a hash may not be validated yet. */
  datatype Word = Word(h: Hash, live: Live, at: int)

  function Hear(s: State, rs: seq<Word>): State {
    if rs == [] then s
    else
      var last := |rs| - 1;
      ApplyLive(Hear(s, rs[..last]), rs[last].h, rs[last].live, rs[last].at)
  }

  /** The hashes of which a validated report came. */
  ghost function HeardOf(rs: seq<Word>): set<Hash> { set i | 0 <= i < |rs| && rs[i].live.validated :: rs[i].h }

  /** The validated reports of a hash agree on the class of its result. */
  ghost predicate Agree(rs: seq<Word>, final: map<Hash, Live>) {
    forall i :: 0 <= i < |rs| && rs[i].live.validated ==>
      rs[i].h in final && Classify(rs[i].live.resultCode) == Classify(final[rs[i].h].resultCode)
  }

  lemma HearKeepsLinks(now: State, h: Hash, live: Live, at: int)
    ensures SameLinks(now, ApplyLive(now, h, live, at))
    ensures !live.validated ==> ApplyLive(now, h, live, at).disputes == now.disputes
  {
    hide Classify, Prefer, MergeEscrow, Trim;
  }

  lemma {:induction false} HearStatuses(s: State, rs: seq<Word>, final: map<Hash, Live>)
    requires LinksOk(s) && Agree(rs, final)
    ensures var s' := Hear(s, rs);
            SameLinks(s, s') && forall id :: id in s.disputes ==> s'.disputes[id] == EndStatus(s, HeardOf(rs), final, id)
  {
    if rs == [] {
      assert HeardOf(rs) == {};
    } else {
      var last := |rs| - 1;
      var r, before := rs[last], HeardOf(rs[..last]);
      var now := Hear(s, rs[..last]);
      assert forall i :: 0 <= i < last ==> rs[..last][i] == rs[i];
      HearStatuses(s, rs[..last], final);
      HearKeepsLinks(now, r.h, r.live, r.at);
      HeardMore(rs);
      hide ApplyLive, EndStatus, LinksOk, Classify, HeardOf;
      if r.live.validated {
        forall id | id in s.disputes ensures ApplyLive(now, r.h, r.live, r.at).disputes[id] == EndStatus(s, before + {r.h}, final, id) {
          StatusStep(s, now, before, final, r.h, r.live, r.at, id);
        }
      }
    }
  }

  lemma HeardMore(rs: seq<Word>)
    requires rs != []
    ensures var last := |rs| - 1;
            HeardOf(rs) == if rs[last].live.validated then HeardOf(rs[..last]) + {rs[last].h} else HeardOf(rs[..last])
  {
    var last := |rs| - 1;
    forall i | 0 <= i < last && rs[i].live.validated ensures rs[i].h in HeardOf(rs[..last]) { assert rs[..last][i] == rs[i]; }
    forall h | h in HeardOf(rs[..last]) ensures h in HeardOf(rs) {
      var i :| 0 <= i < last && rs[..last][i].live.validated && rs[..last][i].h == h;
      assert rs[i].h == h;
    }
  }

  /** With unvalidated reports mixed in anywhere, dispute statuses still depend only on which
      hashes a validated report came of: not on order, repetition or what else was heard. */
  lemma UnvalidatedReportsDoNotMatter(es: seq<Event>, a: seq<Word>, b: seq<Word>, final: map<Hash, Live>)
    requires Agree(a, final) && Agree(b, final) && HeardOf(a) == HeardOf(b)
    ensures Hear(Run(Empty, es), a).disputes == Hear(Run(Empty, es), b).disputes
  {
    var s := Run(Empty, es);
    ReachableOk(es);
    HearStatuses(s, a, final);
    HearStatuses(s, b, final);
  }
}
