/** Audit paging when the order of the list and the order of the cursor disagree: exactly when
    a walk still returns the list, and a store it loses a log of. */
module AuditOrders {
  import opened Common
  import opened AuditStore
  import opened AuditPaging

  /** Following nextCursor from the first page returns the list. */
  ghost predicate ExactWalk(list: seq<AuditLog>, limit: nat, codec: Codec) {
    exists pages: seq<Page> :: FinishedWalk(Same(list, |pages|), pages, limit, codec) && Items(pages) == list
  }

  lemma {:induction false} ItemsCons(p: Page, rest: seq<Page>)
    ensures Items([p] + rest) == p.items + Items(rest)
  {
    var all := [p] + rest;
    if rest == [] {
      assert all[..0] == [] && all == [p];
      assert Items([]) == [];
    } else {
      assert all[..|all| - 1] == [p] + rest[..|rest| - 1];
      ItemsCons(p, rest[..|rest| - 1]);
    }
  }

  lemma {:induction false} CutItems(list: seq<AuditLog>, start: nat, limit: nat, codec: Codec)
    requires start <= |list| && limit >= 1
    ensures Items(Cut(list, start, limit, codec)) == list[start..]
    decreases |list| - start
  {
    hide Cut, Items;
    var p := PageAt(list, start, limit, codec);
    CutUnfolds(list, start, limit, codec);
    if p.next.Some? {
      ItemsCons(p, Cut(list, start + limit, limit, codec));
      CutItems(list, start + limit, limit, codec);
      assert list[start..] == list[start..start + limit] + list[start + limit..];
    } else {
      ItemsCons(p, []);
      assert [p] + [] == [p];
      NoItems();
    }
  }

  lemma NoItems()
    ensures Items([]) == []
  {
  }

  lemma {:induction false} ItemsPrefix(pages: seq<Page>, k: nat)
    requires k <= |pages|
    ensures Items(pages[..k]) <= Items(pages)
    decreases |pages| - k
  {
    if k < |pages| {
      ItemsPrefix(pages, k + 1);
      ItemsStep(pages, k);
    } else {
      assert pages[..k] == pages;
    }
  }

  /** The k-th page of a walk that returns the list starts where it should. */
  ghost predicate At(list: seq<AuditLog>, pages: seq<Page>, limit: nat, codec: Codec, k: nat) {
    var start := PageStart(k, limit);
    k < |pages| && start <= |list| && Items(pages[..k]) == list[..start] && pages[k] == PageAt(list, start, limit, codec)
  }

  /** A full page with more behind it. */
  lemma FullPage(list: seq<AuditLog>, start: nat, limit: nat, codec: Codec)
    requires limit >= 1 && start + limit < |list|
    ensures var p := PageAt(list, start, limit, codec);
            p.items == list[start..start + limit] && p.next == Some(codec.encode(CursorOf(list[start + limit - 1])))
  {
  }

  lemma PageShape(list: seq<AuditLog>, start: nat, limit: nat, codec: Codec)
    requires limit >= 1 && start <= |list|
    ensures var p := PageAt(list, start, limit, codec);
            && (p.items == [] ==> start == |list| && p.next == None)
            && (p.items != [] ==> start < |list| && p.items[0] == list[start])
  {
  }

  /** A page in the middle is full and hands out the cursor of its last log. */
  lemma MiddlePage(list: seq<AuditLog>, pages: seq<Page>, limit: nat, codec: Codec, k: nat)
    requires limit >= 1 && pages != [] && pages[|pages| - 1].next.None?
    requires At(list, pages, limit, codec, k) && PageStart(k, limit) + limit < |list|
    ensures var b := PageStart(k, limit) + limit;
            && k + 1 < |pages| && Items(pages[..k + 1]) == list[..b]
            && pages[k].next == Some(codec.encode(CursorOf(list[b - 1])))
  {
    hide Items, PageAt, PageStart;
    var start := PageStart(k, limit);
    FullPage(list, start, limit, codec);
    ItemsStep(pages, k);
    assert list[..start] + list[start..start + limit] == list[..start + limit];
  }

  /** A walk that returns the list goes on with the log right behind the page. */
  lemma LandsThere(list: seq<AuditLog>, pages: seq<Page>, limit: nat, codec: Codec, k: nat, b: nat, f: nat)
    requires Distinct(list) && limit >= 1 && 0 < k < |pages| && b < |list| && f <= |list|
    requires FinishedWalk(Same(list, |pages|), pages, limit, codec) && Items(pages) == list
    requires Items(pages[..k]) == list[..b] && pages[k] == PageAt(list, f, limit, codec)
    ensures f == b
  {
    hide Items, PageAt, AfterCursor;
    var items := pages[k].items;
    PageShape(list, f, limit, codec);
    ItemsStep(pages, k);
    ItemsPrefix(pages, k + 1);
    NotTheEnd(list, pages, limit, codec, k, b);
    assert (list[..b] + items)[b] == items[0];
    assert list[b] == list[f];
  }

  lemma NotTheEnd(list: seq<AuditLog>, pages: seq<Page>, limit: nat, codec: Codec, k: nat, b: nat)
    requires k < |pages| && b < |list|
    requires FinishedWalk(Same(list, |pages|), pages, limit, codec) && Items(pages) == list && Items(pages[..k]) == list[..b]
    requires pages[k].items == [] ==> pages[k].next.None?
    ensures pages[k].items != []
  {
    hide Items, AfterCursor;
    ItemsStep(pages, k);
    assert k + 1 < |pages| ==> FollowsAt(Same(list, |pages|), pages, limit, codec, k + 1);
    assert k + 1 == |pages| ==> pages[..k + 1] == pages;
    assert |Items(pages[..k])| == b;
  }

  lemma KeyedAt(list: seq<AuditLog>, i: nat)
    requires Keyed(list) && i < |list|
    ensures list[i].id != "" && list[i].createdAt != ""
  {
  }

  lemma {:induction false} WalkAt(list: seq<AuditLog>, pages: seq<Page>, limit: nat, codec: Codec, k: nat)
    requires codec.Valid() && Keyed(list) && Distinct(list) && limit >= 1
    requires FinishedWalk(Same(list, |pages|), pages, limit, codec) && Items(pages) == list
    requires PageStart(k, limit) < |list|
    ensures At(list, pages, limit, codec, k) && Boundary(list, PageStart(k, limit))
  {
    hide Items, FirstAfter, PageAt, PageStart, Keyed;
    if k == 0 {
      NextStart(0, limit);
      ItemsNone(pages);
      NoCursor(list, limit, codec);
    } else {
      NextStart(k - 1, limit);
      var b := PageStart(k, limit);
      WalkAt(list, pages, limit, codec, k - 1);
      MiddlePage(list, pages, limit, codec, k - 1);
      KeyedAt(list, b - 1);
      CursorFollowed(Same(list, |pages|), pages, limit, codec, k, list[..b]);
      LandsThere(list, pages, limit, codec, k, b, FirstAfter(list, CursorOf(list[b - 1])));
    }
  }

  /** The exact condition for a page size: walking the list by pages of that size returns it
      if and only if at the end of every page the cursor leads to the log right behind. */
  lemma WalkExactIff(list: seq<AuditLog>, limit: nat, codec: Codec)
    requires codec.Valid() && Keyed(list) && Distinct(list) && limit >= 1
    ensures ExactWalk(list, limit, codec) <==> Boundaries(list, limit)
  {
    hide Items, FirstAfter, PageAt, PageStart, Keyed;
    if Boundaries(list, limit) {
      CutFinishes(list, limit, codec);
      CutItems(list, 0, limit, codec);
      assert list[0..] == list;
    }
    if ExactWalk(list, limit, codec) {
      var pages: seq<Page> :| FinishedWalk(Same(list, |pages|), pages, limit, codec) && Items(pages) == list;
      forall k: nat ensures Boundary(list, PageStart(k, limit)) {
        if PageStart(k, limit) < |list| { WalkAt(list, pages, limit, codec, k); }
      }
    }
  }

  lemma {:induction false} NeighboursSuffice(list: seq<AuditLog>, i: nat, j: nat)
    requires forall k :: 0 <= k < |list| - 1 ==> NextBefore(list, k)
    requires i < j < |list|
    ensures Before(list[i], list[j])
    decreases j
  {
    assert NextBefore(list, j - 1);
    if i < j - 1 {
      NeighboursSuffice(list, i, j - 1);
      BeforeTransitive(list[i], list[j - 1], list[j]);
    }
  }

  ghost predicate NextBefore(list: seq<AuditLog>, k: nat)
    requires k + 1 < |list|
  {
    Before(list[k], list[k + 1])
  }

  /** Every page size returns the list if and only if it ascends in the cursor's own order. */
  lemma WalkExactIffAscending(list: seq<AuditLog>, codec: Codec)
    requires codec.Valid() && Keyed(list) && Distinct(list)
    ensures Ascending(list) <==> forall limit: nat :: limit >= 1 ==> ExactWalk(list, limit, codec)
  {
    hide FirstAfter, Less, Before, ExactWalk, Keyed;
    if Ascending(list) {
      forall limit: nat | limit >= 1 ensures ExactWalk(list, limit, codec) {
        AscendingBounds(list, limit);
        WalkExactIff(list, limit, codec);
      }
    }
    if forall limit: nat :: limit >= 1 ==> ExactWalk(list, limit, codec) {
      assert ExactWalk(list, 1, codec);
      WalkExactIff(list, 1, codec);
      forall k | 0 <= k < |list| - 1 ensures NextBefore(list, k) {
        NextStart(k + 1, 1);
        assert Boundary(list, PageStart(k + 1, 1));
        AfterMeansBefore(list[k + 1], list[k]);
      }
      forall i, j | 0 <= i < j < |list| ensures Before(list[i], list[j]) {
        NeighboursSuffice(list, i, j);
      }
    }
  }

  // ---- a store that loses a log ----

  function LowerChar(c: char): char { if 'A' <= c <= 'Z' then c - 'A' + 'a' else c }

  function Lower(s: string): string { seq(|s|, i requires 0 <= i < |s| => LowerChar(s[i])) }

  /** A locale order that ignores case, as collations do before anything else. */
  predicate FoldLe(a: string, b: string) { !Less(Lower(b), Lower(a)) }

  const Folding: Locale := (a: string, b: string) => FoldLe(a, b)

  lemma FoldingIsOrder()
    ensures TotalPreorder(Folding)
  {
    hide Less, Lower;
    forall a: string, b: string ensures FoldLe(a, b) || FoldLe(b, a) { LessTrichotomy(Lower(a), Lower(b)); }
    forall a: string, b: string, c: string | FoldLe(a, b) && FoldLe(b, c) ensures FoldLe(a, c) {
      LessTrichotomy(Lower(a), Lower(b));
      LessTrichotomy(Lower(b), Lower(c));
      if Less(Lower(c), Lower(a)) {
        if Less(Lower(a), Lower(b)) { LessTransitive(Lower(c), Lower(a), Lower(b)); }
      }
    }
  }

  const NoFilter := Filtering(None, None, None, None)

  /** Such an order lists "a" before "B", though code units say otherwise. */
  lemma FoldedList(a: AuditLog, b: AuditLog)
    requires a.createdAt == b.createdAt == "t" && a.id == "a" && b.id == "B"
    ensures ListAudits([b, a], NoFilter, Folding) == [a, b]
  {
    var le := LogLe(Folding);
    var p := Passing(NoFilter);
    assert [b, a][1..] == [a] && [a][1..] == [];
    assert Filter([a], p) == [a] && Filter([b, a], p) == [b, a];
    assert Lower("a") == "a" && Lower("B") == "b" && Lower("t") == "t";
    assert "b"[1..] == "" && "a"[1..] == "" && "t"[1..] == "";
    assert !Less("t", "t") && !Less("b", "a") && Less("a", "b");
    assert !le(b, a);
    assert Sort([a], le) == [a];
    assert Insert(b, [a], le) == [a, b];
  }

  /** And the walk over that store ends after the first page without the second log. */
  lemma DisagreeingOrdersLoseALog(codec: Codec, a: AuditLog, b: AuditLog)
    requires codec.Valid() && a.createdAt == b.createdAt == "t" && a.id == "a" && b.id == "B"
    ensures var list := ListAudits([b, a], NoFilter, Folding);
            var first := AfterCursor(list, 1, None, codec);
            && first.Ok? && first.value.items == [a] && first.value.next.Some?
            && AfterCursor(list, 1, first.value.next, codec) == Ok(Page([], None))
  {
    FoldedList(a, b);
    LostLog(codec, a, b);
  }

  lemma LostLog(codec: Codec, a: AuditLog, b: AuditLog)
    requires codec.Valid() && a.createdAt == b.createdAt == "t" && a.id == "a" && b.id == "B"
    ensures var first := AfterCursor([a, b], 1, None, codec);
            && first.Ok? && first.value.items == [a] && first.value.next.Some?
            && AfterCursor([a, b], 1, first.value.next, codec) == Ok(Page([], None))
  {
    var list := [a, b];
    assert !Less("a", "B") && !Less("a", "a") && !Less("t", "t");
    assert PageAt(list, 0, 1, codec).items == [a];
    assert list[1..] == [b] && list[2..] == [];
    assert FirstAfter(list, CursorOf(a)) == 2;
  }
}
