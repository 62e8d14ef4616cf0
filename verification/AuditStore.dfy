/** Audit logs, their filter and the two orders the repository uses: `localeCompare` for
    sorting (a parameter here) and code-unit comparison for filters and cursors. */
module AuditStore {
  import opened Common

  /** An audit log; the three JSON columns are given as their serialized text. */
  datatype AuditLog = AuditLog(
    id: string, entityType: string, entityId: string, action: string, actorId: string,
    createdAt: string, before: Option<string>, after: Option<string>, metadata: Option<string>)

  datatype Filtering = Filtering(entityType: Option<string>, entityId: Option<string>,
                                 from: Option<string>, to: Option<string>)

  /** `a < b` on strings. */
  predicate Less(a: string, b: string) {
    if b == "" then false
    else if a == "" then true
    else if a[0] != b[0] then a[0] < b[0]
    else Less(a[1..], b[1..])
  }

  lemma {:induction false} LessTransitive(a: string, b: string, c: string)
    requires Less(a, b) && Less(b, c)
    ensures Less(a, c)
  {
    if a != "" && a[0] == b[0] && b[0] == c[0] {
      LessTransitive(a[1..], b[1..], c[1..]);
    }
  }

  lemma {:induction false} LessTrichotomy(a: string, b: string)
    ensures Less(a, b) || a == b || Less(b, a)
    ensures !(Less(a, b) && Less(b, a)) && !Less(a, a)
    decreases |a| + |b|
  {
    if a != "" && b != "" {
      if a[0] == b[0] {
        LessTrichotomy(a[1..], b[1..]);
        assert a == [a[0]] + a[1..] && b == [b[0]] + b[1..];
      }
    }
    if a != "" { LessIrreflexive(a); }
  }

  lemma {:induction false} LessIrreflexive(a: string)
    ensures !Less(a, a)
  {
    if a != "" { LessIrreflexive(a[1..]); }
  }

  /** `a < b` in other words: at the first place where they differ a has the smaller character,
      or a ends there. */
  lemma {:induction false} LessMeaning(a: string, b: string, k: nat)
    requires k <= |a| && k <= |b| && a[..k] == b[..k] && (k < |a| && k < |b| ==> a[k] != b[k])
    ensures Less(a, b) <==> k < |b| && (k == |a| || a[k] < b[k])
  {
    if k > 0 {
      assert a[0] == a[..k][0] == b[..k][0] == b[0];
      assert a[1..][..k - 1] == a[..k][1..] && b[1..][..k - 1] == b[..k][1..];
      LessMeaning(a[1..], b[1..], k - 1);
    }
  }

  predicate Matches(f: Filtering, log: AuditLog) {
    && (Truthy(f.entityType) ==> log.entityType == f.entityType.value)
    && (Truthy(f.entityId) ==> log.entityId == f.entityId.value)
    && (Truthy(f.from) ==> !Less(log.createdAt, f.from.value))
    && (Truthy(f.to) ==> !Less(f.to.value, log.createdAt))
  }

  /** The locale order: LocaleLe(a, b) stands for a.localeCompare(b) <= 0. */
  type Locale = (string, string) -> bool

  function LogLe(loc: Locale): (AuditLog, AuditLog) -> bool {
    (a: AuditLog, b: AuditLog) =>
      if loc(a.createdAt, b.createdAt) && loc(b.createdAt, a.createdAt) then loc(a.id, b.id)
      else loc(a.createdAt, b.createdAt)
  }

  function Passing(f: Filtering): AuditLog -> bool { (log: AuditLog) => Matches(f, log) }

  function ListAudits(logs: seq<AuditLog>, f: Filtering, loc: Locale): seq<AuditLog> {
    Sort(Filter(logs, Passing(f)), LogLe(loc))
  }

  datatype OffsetPage = OffsetPage(items: seq<AuditLog>, total: nat)

  function ListAuditsPage(logs: seq<AuditLog>, f: Filtering, loc: Locale, limit: nat, offset: nat): OffsetPage {
    var sorted := ListAudits(logs, f, loc);
    var start := Min(offset, |sorted|);
    OffsetPage(sorted[start..Min(start + limit, |sorted|)], |sorted|)
  }

  // ---- when the two orders agree ----

  /** Before(a, b): b comes after a in the cursor's order. */
  predicate Before(a: AuditLog, b: AuditLog) {
    Less(a.createdAt, b.createdAt) || (a.createdAt == b.createdAt && Less(a.id, b.id))
  }

  lemma BeforeTransitive(a: AuditLog, b: AuditLog, c: AuditLog)
    requires Before(a, b) && Before(b, c)
    ensures Before(a, c)
  {
    if Less(a.createdAt, b.createdAt) && Less(b.createdAt, c.createdAt) {
      LessTransitive(a.createdAt, b.createdAt, c.createdAt);
    }
    if a.createdAt == b.createdAt == c.createdAt {
      LessIrreflexive(a.createdAt);
      LessTransitive(a.id, b.id, c.id);
    }
  }

  lemma BeforeTrichotomy(a: AuditLog, b: AuditLog)
    ensures Before(a, b) || Before(b, a) || (a.createdAt == b.createdAt && a.id == b.id)
    ensures !(Before(a, b) && Before(b, a))
  {
    LessTrichotomy(a.createdAt, b.createdAt);
    LessTrichotomy(a.id, b.id);
  }

  ghost predicate Ascending(s: seq<AuditLog>) {
    forall i, j :: 0 <= i < j < |s| ==> Before(s[i], s[j])
  }

  /** The two orders agree on the timestamps and ids that occur. */
  ghost predicate Agrees(loc: Locale, logs: seq<AuditLog>) {
    forall a, b :: a in logs && b in logs ==>
      && (loc(a.createdAt, b.createdAt) <==> !Less(b.createdAt, a.createdAt))
      && (loc(a.id, b.id) <==> !Less(b.id, a.id))
  }

  /** What the store promises: ids are fresh, and neither key part is empty. */
  ghost predicate KeysOk(logs: seq<AuditLog>) {
    && (forall i, j :: 0 <= i < j < |logs| ==> logs[i].id != logs[j].id)
    && (forall i :: 0 <= i < |logs| ==> logs[i].id != "" && logs[i].createdAt != "")
  }

  lemma LogLePreorder(loc: Locale)
    requires TotalPreorder(loc)
    ensures TotalPreorder(LogLe(loc))
  {
    var le := LogLe(loc);
    forall a, b ensures le(a, b) || le(b, a) {
      assert loc(a.createdAt, b.createdAt) || loc(b.createdAt, a.createdAt);
      assert loc(a.id, b.id) || loc(b.id, a.id);
    }
    forall a, b, c | le(a, b) && le(b, c) ensures le(a, c) {
      assert loc(a.createdAt, b.createdAt) && loc(b.createdAt, c.createdAt);
    }
  }

  /** Then the sorted list is strictly ascending in the cursor's order, and holds exactly
      the matching logs. */
  lemma ListAscends(logs: seq<AuditLog>, f: Filtering, loc: Locale)
    requires TotalPreorder(loc) && Agrees(loc, logs) && KeysOk(logs)
    ensures Ascending(ListAudits(logs, f, loc))
    ensures forall x :: x in ListAudits(logs, f, loc) <==> x in logs && Matches(f, x)
  {
    var kept := Filter(logs, Passing(f));
    var list := ListAudits(logs, f, loc);
    LogLePreorder(loc);
    SortSorts(kept, LogLe(loc));
    SortElems(kept, LogLe(loc));
    assert Distinct(logs);
    FilterDistinct(logs, Passing(f));
    SortDistinct(kept, LogLe(loc));
    forall i, j | 0 <= i < j < |list| ensures Before(list[i], list[j]) {
      var a, b := list[i], list[j];
      assert LogLe(loc)(a, b) && a in logs && b in logs && a != b;
      assert a.id != b.id;
      LessTrichotomy(a.createdAt, b.createdAt);
      LessTrichotomy(a.id, b.id);
    }
  }

  /** The list holds exactly the logs of the given entity type and entity, if given, from the
      first time to the second, both included, each as often as it was written. */
  lemma ListMeaning(logs: seq<AuditLog>, f: Filtering, loc: Locale, x: AuditLog)
    ensures x in ListAudits(logs, f, loc) <==>
            && x in logs
            && (f.entityType.Some? && f.entityType.value != "" ==> x.entityType == f.entityType.value)
            && (f.entityId.Some? && f.entityId.value != "" ==> x.entityId == f.entityId.value)
            && (f.from.Some? && f.from.value != "" ==> x.createdAt == f.from.value || Less(f.from.value, x.createdAt))
            && (f.to.Some? && f.to.value != "" ==> x.createdAt == f.to.value || Less(x.createdAt, f.to.value))
  {
    SortElems(Filter(logs, Passing(f)), LogLe(loc));
    if f.from.Some? { LessTrichotomy(x.createdAt, f.from.value); }
    if f.to.Some? { LessTrichotomy(x.createdAt, f.to.value); }
  }

  /** In order of time, then of id, by the locale. */
  lemma ListIsSorted(logs: seq<AuditLog>, f: Filtering, loc: Locale, i: nat, j: nat)
    requires TotalPreorder(loc) && i < j < |ListAudits(logs, f, loc)|
    ensures var a, b := ListAudits(logs, f, loc)[i], ListAudits(logs, f, loc)[j];
            loc(a.createdAt, b.createdAt) && (loc(b.createdAt, a.createdAt) ==> loc(a.id, b.id))
  {
    LogLePreorder(loc);
    SortSorts(Filter(logs, Passing(f)), LogLe(loc));
    var list := ListAudits(logs, f, loc);
    assert LogLe(loc)(list[i], list[j]);
  }

  /** An offset page is that part of the list, with the list's length. */
  lemma OffsetPageMeaning(logs: seq<AuditLog>, f: Filtering, loc: Locale, limit: nat, offset: nat)
    ensures var list := ListAudits(logs, f, loc); var p := ListAuditsPage(logs, f, loc, limit, offset);
            && p.total == |list|
            && |p.items| == (if offset >= |list| then 0 else Min(limit, |list| - offset))
            && forall i :: 0 <= i < |p.items| ==> p.items[i] == list[offset + i]
  {
    hide ListAudits;
  }
}
