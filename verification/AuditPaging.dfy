/** Keyset paging over audit logs: what following nextCursor to the end returns. */
module AuditPaging {
  import opened Common
  import opened AuditStore

  datatype Cursor = Cursor(createdAt: string, id: string)

  /** encodeAuditCursor / decodeAuditCursor; only what is promised of them is used. */
  datatype Codec = Codec(encode: Cursor -> string, decode: string -> Option<Cursor>) {
    ghost predicate Valid() {
      forall c: Cursor :: c.createdAt != "" && c.id != "" ==> encode(c) != "" && decode(encode(c)) == Some(c)
    }
  }

  datatype Page = Page(items: seq<AuditLog>, next: Option<string>)

  predicate IsAfter(log: AuditLog, c: Cursor) {
    Less(c.createdAt, log.createdAt) || (log.createdAt == c.createdAt && Less(c.id, log.id))
  }

  /** findIndex, with the length standing for "none". */
  function FirstAfter(list: seq<AuditLog>, c: Cursor): (k: nat)
    ensures k <= |list|
    ensures forall i :: 0 <= i < k ==> !IsAfter(list[i], c)
    ensures k < |list| ==> IsAfter(list[k], c)
  {
    if list == [] || IsAfter(list[0], c) then 0 else 1 + FirstAfter(list[1..], c)
  }

  function CursorOf(log: AuditLog): Cursor { Cursor(log.createdAt, log.id) }

  /** The page starting at an index. */
  function PageAt(list: seq<AuditLog>, start: nat, limit: nat, codec: Codec): Page
    requires start <= |list|
  {
    var window := list[start..Min(start + limit + 1, |list|)];
    var hasMore := |window| > limit;
    var items := if hasMore then window[..limit] else window;
    Page(items, if hasMore && items != [] then Some(codec.encode(CursorOf(items[|items| - 1]))) else None)
  }

  /** listAuditsAfterCursor on the filtered, sorted list. */
  function AfterCursor(list: seq<AuditLog>, limit: nat, cursor: Option<string>, codec: Codec): Result<Page> {
    if !Truthy(cursor) then Ok(PageAt(list, 0, limit, codec))
    else
      match codec.decode(cursor.value)
      case None => Err("INVALID_AUDIT_CURSOR")
      case Some(c) => Ok(PageAt(list, FirstAfter(list, c), limit, codec))
  }

  /** A client that follows nextCursor until it is null; lists[k] is the sorted list at the
      time of request k. */
  ghost predicate FollowsAt(lists: seq<seq<AuditLog>>, pages: seq<Page>, limit: nat, codec: Codec, k: nat)
    requires 0 < k < |pages| == |lists|
  {
    pages[k - 1].next.Some? && Ok(pages[k]) == AfterCursor(lists[k], limit, pages[k - 1].next, codec)
  }

  ghost predicate FinishedWalk(lists: seq<seq<AuditLog>>, pages: seq<Page>, limit: nat, codec: Codec) {
    && 1 <= |pages| == |lists|
    && Ok(pages[0]) == AfterCursor(lists[0], limit, None, codec)
    && (forall k :: 0 < k < |pages| ==> FollowsAt(lists, pages, limit, codec, k))
    && pages[|pages| - 1].next.None?
  }

  ghost function Items(pages: seq<Page>): seq<AuditLog> {
    if pages == [] then [] else Items(pages[..|pages| - 1]) + pages[|pages| - 1].items
  }

  lemma ItemsStep(pages: seq<Page>, k: nat)
    requires k < |pages|
    ensures Items(pages[..k + 1]) == Items(pages[..k]) + pages[k].items
  {
    assert pages[..k + 1][..k] == pages[..k];
  }

  lemma ItemsNone(pages: seq<Page>)
    ensures Items(pages[..0]) == []
  {
  }

  // ---- one page ----

  /** Neither part of a cursor is ever empty. */
  ghost predicate Keyed(list: seq<AuditLog>) {
    forall i :: 0 <= i < |list| ==> list[i].id != "" && list[i].createdAt != ""
  }

  ghost predicate ListOk(list: seq<AuditLog>) { Ascending(list) && Keyed(list) }

  lemma AfterMeansBefore(log: AuditLog, a: AuditLog)
    ensures IsAfter(log, CursorOf(a)) <==> Before(a, log)
  {
    hide Less;
  }

  lemma AfterIsUpward(list: seq<AuditLog>, a: AuditLog, i: nat)
    requires Ascending(list) && i < |list|
    ensures i >= FirstAfter(list, CursorOf(a)) <==> Before(a, list[i])
  {
    hide IsAfter, Before, FirstAfter;
    var k := FirstAfter(list, CursorOf(a));
    AfterMeansBefore(list[i], a);
    if k < i {
      AfterMeansBefore(list[k], a);
      BeforeTransitive(a, list[k], list[i]);
    }
  }

  /** What page k adds, given where it starts. */
  lemma PageAtMeaning(list: seq<AuditLog>, start: nat, limit: nat, codec: Codec)
    requires ListOk(list) && start <= |list| && limit >= 1
    ensures var p := PageAt(list, start, limit, codec);
            && ListOk(p.items)
            && start + |p.items| <= |list|
            && p.items == list[start..start + |p.items|]
            && (p.next.None? ==> p.items == list[start..])
            && (p.next.Some? ==> p.items != [] && p.next == Some(codec.encode(CursorOf(p.items[|p.items| - 1]))))
  {
    hide Before;
    var items := PageAt(list, start, limit, codec).items;
    assert items == list[start..start + |items|];
    forall i | 0 <= i < |items| ensures items[i] == list[start + i] {}
  }

  /** A page has `limit` logs while there are as many, in list order from its start, and hands
      out the cursor of its last one exactly when there are more. */
  lemma PageSize(list: seq<AuditLog>, start: nat, limit: nat, codec: Codec)
    requires start <= |list|
    ensures var p := PageAt(list, start, limit, codec);
            && |p.items| == Min(limit, |list| - start)
            && (forall i :: 0 <= i < |p.items| ==> p.items[i] == list[start + i])
            && (p.next.Some? <==> 0 < limit < |list| - start)
            && (p.next.Some? ==> p.next.value == codec.encode(Cursor(list[start + limit - 1].createdAt, list[start + limit - 1].id)))
  {
  }

  /** Without a cursor the page starts at the front; with one, behind the last log that does not
      come after it; an unreadable one is refused. */
  lemma CursorMeaning(list: seq<AuditLog>, limit: nat, cursor: Option<string>, codec: Codec)
    ensures var r := AfterCursor(list, limit, cursor, codec);
            && (cursor == None || cursor == Some("") ==> r == Ok(PageAt(list, 0, limit, codec)))
            && (cursor.Some? && cursor.value != "" ==>
                  match codec.decode(cursor.value)
                  case None => r.Err?
                  case Some(c) => exists k :: 0 <= k <= |list| && r == Ok(PageAt(list, k, limit, codec)) && CutsAt(list, c, k))
  {
    hide PageAt, Less;
    if cursor.Some? && cursor.value != "" && codec.decode(cursor.value).Some? {
      var c := codec.decode(cursor.value).value;
      assert CutsAt(list, c, FirstAfter(list, c));
    }
  }

  /** Nothing before k comes after the cursor, and the log at k, if there is one, does. */
  ghost predicate CutsAt(list: seq<AuditLog>, c: Cursor, k: nat) {
    && (forall i :: 0 <= i < k && i < |list| ==> !After(list[i], c))
    && (k < |list| ==> After(list[k], c))
  }

  ghost predicate After(log: AuditLog, c: Cursor) {
    Less(c.createdAt, log.createdAt) || (log.createdAt == c.createdAt && Less(c.id, log.id))
  }

  // ---- the walk ----

  /** After page k: the output is ascending, ends with the log the next cursor names, and
      misses no log of the first list up to that one. */
  ghost predicate Covered(first: seq<AuditLog>, out: seq<AuditLog>) {
    && out != []
    && Ascending(out)
    && out[|out| - 1].id != "" && out[|out| - 1].createdAt != ""
    && forall x :: x in first && !Before(out[|out| - 1], x) ==> x in out
  }

  ghost predicate Growing(lists: seq<seq<AuditLog>>) {
    && (forall k :: 0 <= k < |lists| ==> ListOk(lists[k]))
    && (forall k, x :: 0 <= k < |lists| && x in lists[0] ==> x in lists[k])
  }

  /** The page after a cursor holds ascending logs after the one the cursor names, and
      everything of the first list up to its own last log. */
  lemma NextPage(first: seq<AuditLog>, list: seq<AuditLog>, out: seq<AuditLog>, limit: nat, codec: Codec, p: Page)
    requires ListOk(list) && (forall x :: x in first ==> x in list) && limit >= 1
    requires Covered(first, out)
    requires p == PageAt(list, FirstAfter(list, CursorOf(out[|out| - 1])), limit, codec)
    ensures Ascending(out + p.items)
    ensures p.next.Some? ==> Covered(first, out + p.items)
    ensures p.next.None? ==> forall x :: x in first ==> x in out + p.items
  {
    hide Less, PageAt, FirstAfter;
    var a := out[|out| - 1];
    var start := FirstAfter(list, CursorOf(a));
    PageAtMeaning(list, start, limit, codec);
    var all := out + p.items;
    forall i | 0 <= i < |p.items| ensures Before(a, p.items[i]) {
      assert p.items[i] == list[start + i];
      AfterIsUpward(list, a, start + i);
    }
    forall i, j | 0 <= i < j < |all| ensures Before(all[i], all[j]) {
      if i < |out| <= j && i < |out| - 1 {
        BeforeTransitive(all[i], a, all[j]);
      }
    }
    forall x | x in first && (p.next.None? || !Before(all[|all| - 1], x)) ensures x in all {
      NextPageCovers(first, list, out, p, start, x);
    }
  }

  lemma NextPageCovers(first: seq<AuditLog>, list: seq<AuditLog>, out: seq<AuditLog>, p: Page, start: nat, x: AuditLog)
    requires ListOk(list) && x in first && x in list && Covered(first, out)
    requires start == FirstAfter(list, CursorOf(out[|out| - 1]))
    requires start + |p.items| <= |list| && p.items == list[start..start + |p.items|]
    requires if p.next.None? then p.items == list[start..]
             else p.items != [] && !Before(p.items[|p.items| - 1], x)
    ensures x in out + p.items
  {
    hide FirstAfter, Before;
    var i :| 0 <= i < |list| && list[i] == x;
    AfterIsUpward(list, out[|out| - 1], i);
    if i >= start {
      assert x == p.items[i - start];
    }
  }

  lemma {:induction false} WalkPrefix(lists: seq<seq<AuditLog>>, pages: seq<Page>, limit: nat, codec: Codec, k: nat)
    requires codec.Valid() && limit >= 1 && Growing(lists) && FinishedWalk(lists, pages, limit, codec)
    requires k < |pages| - 1
    ensures Covered(lists[0], Items(pages[..k + 1]))
    ensures pages[k].next == Some(codec.encode(CursorOf(Items(pages[..k + 1])[|Items(pages[..k + 1])| - 1])))
  {
    hide Less, PageAt, FirstAfter, Items;
    ItemsStep(pages, k);
    assert FollowsAt(lists, pages, limit, codec, k + 1);
    if k == 0 {
      FirstPage(lists[0], limit, codec);
      ItemsNone(pages);
    } else {
      WalkPrefix(lists, pages, limit, codec, k - 1);
      var out := Items(pages[..k]);
      assert pages[..k - 1 + 1] == pages[..k];
      CursorFollowed(lists, pages, limit, codec, k, out);
      NextPage(lists[0], lists[k], out, limit, codec, pages[k]);
      PageAtMeaning(lists[k], FirstAfter(lists[k], CursorOf(out[|out| - 1])), limit, codec);
      var items := pages[k].items;
      assert (out + items)[|out + items| - 1] == items[|items| - 1];
    }
  }

  lemma FirstPage(list: seq<AuditLog>, limit: nat, codec: Codec)
    requires ListOk(list) && limit >= 1
    ensures var p := PageAt(list, 0, limit, codec);
            && (p.next.Some? ==> Covered(list, p.items) && p.next == Some(codec.encode(CursorOf(p.items[|p.items| - 1]))))
            && (p.next.None? ==> p.items == list)
  {
    var p := PageAt(list, 0, limit, codec);
    PageAtMeaning(list, 0, limit, codec);
    if p.next.Some? {
      var n := |p.items|;
      forall x | x in list && !Before(p.items[n - 1], x) ensures x in p.items {
        var i :| 0 <= i < |list| && list[i] == x;
        assert x == p.items[i];
      }
    }
  }

  /** The cursor handed out decodes to the last log of the page before. */
  lemma CursorFollowed(lists: seq<seq<AuditLog>>, pages: seq<Page>, limit: nat, codec: Codec, k: nat, out: seq<AuditLog>)
    requires codec.Valid() && FinishedWalk(lists, pages, limit, codec) && 0 < k < |pages|
    requires out != [] && pages[k - 1].next == Some(codec.encode(CursorOf(out[|out| - 1])))
    requires out[|out| - 1].id != "" && out[|out| - 1].createdAt != ""
    ensures pages[k] == PageAt(lists[k], FirstAfter(lists[k], CursorOf(out[|out| - 1])), limit, codec)
  {
    assert FollowsAt(lists, pages, limit, codec, k);
  }

  /** Logs may be appended between the requests: a finished walk still returns every log of
      the first list exactly once, in order, and repeats nothing. */
  lemma WalkReturnsEveryLog(lists: seq<seq<AuditLog>>, pages: seq<Page>, limit: nat, codec: Codec)
    requires codec.Valid() && limit >= 1 && Growing(lists) && FinishedWalk(lists, pages, limit, codec)
    ensures Ascending(Items(pages))
    ensures forall x :: x in lists[0] ==> x in Items(pages)
  {
    var last := |pages| - 1;
    assert pages[..last + 1] == pages;
    ItemsStep(pages, last);
    if last == 0 {
      FirstPage(lists[0], limit, codec);
      assert Items(pages[..0]) == [];
    } else {
      WalkPrefix(lists, pages, limit, codec, last - 1);
      var out := Items(pages[..last]);
      assert pages[..last - 1 + 1] == pages[..last];
      CursorFollowed(lists, pages, limit, codec, last, out);
      NextPage(lists[0], lists[last], out, limit, codec, pages[last]);
    }
  }

  // ---- without appends: exactly the list ----

  ghost function Same(list: seq<AuditLog>, n: nat): seq<seq<AuditLog>> { seq(n, _ => list) }

  lemma PageListed(list: seq<AuditLog>, limit: nat, cursor: Option<string>, codec: Codec)
    ensures var r := AfterCursor(list, limit, cursor, codec);
            r.Ok? ==> forall x :: x in r.value.items ==> x in list
  {
  }

  lemma {:induction false} ItemsListed(list: seq<AuditLog>, pages: seq<Page>, limit: nat, codec: Codec, n: nat)
    requires FinishedWalk(Same(list, |pages|), pages, limit, codec) && n <= |pages|
    ensures forall x :: x in Items(pages[..n]) ==> x in list
  {
    if n > 0 {
      ItemsListed(list, pages, limit, codec, n - 1);
      hide AfterCursor, Items;
      ItemsStep(pages, n - 1);
      assert n > 1 ==> FollowsAt(Same(list, |pages|), pages, limit, codec, n - 1);
      PageListed(list, limit, if n == 1 then None else pages[n - 2].next, codec);
    }
  }

  /** Two ascending sequences with the same logs are the same sequence. */
  lemma {:induction false} AscendingUnique(a: seq<AuditLog>, b: seq<AuditLog>)
    requires Ascending(a) && Ascending(b) && forall x :: x in a <==> x in b
    ensures a == b
    decreases |a|
  {
    assert a != [] ==> a[0] in b;
    assert b != [] ==> b[0] in a;
    if a != [] && b != [] {
      HeadsAgree(a, b);
      forall x ensures x in a[1..] <==> x in b[1..] {
        BeforeTrichotomy(a[0], a[0]);
        assert a == [a[0]] + a[1..] && b == [b[0]] + b[1..];
        assert x in a <==> x in b;
        if x in a[1..] { var i :| 1 <= i < |a| && a[i] == x; assert Before(a[0], x); }
        if x in b[1..] { var i :| 1 <= i < |b| && b[i] == x; assert Before(b[0], x); }
      }
      AscendingUnique(a[1..], b[1..]);
      assert a == [a[0]] + a[1..] && b == [b[0]] + b[1..];
    }
  }

  lemma HeadsAgree(a: seq<AuditLog>, b: seq<AuditLog>)
    requires Ascending(a) && Ascending(b) && a != [] && b != [] && forall x :: x in a <==> x in b
    ensures a[0] == b[0]
  {
    assert a[0] in b && b[0] in a;
    var i :| 0 <= i < |b| && b[i] == a[0];
    var j :| 0 <= j < |a| && a[j] == b[0];
    BeforeTrichotomy(a[0], b[0]);
  }

  /** Whatever the page size, a walk over an unchanging list returns exactly the list. */
  lemma WalkReturnsTheList(list: seq<AuditLog>, pages: seq<Page>, limit: nat, codec: Codec)
    requires codec.Valid() && limit >= 1 && ListOk(list)
    requires FinishedWalk(Same(list, |pages|), pages, limit, codec)
    ensures Items(pages) == list
  {
    WalkReturnsEveryLog(Same(list, |pages|), pages, limit, codec);
    ItemsListed(list, pages, limit, codec, |pages|);
    assert pages[..|pages|] == pages;
    AscendingUnique(Items(pages), list);
  }

  /** The pages cut at fixed distances: the walk a client makes. */
  ghost function Cut(list: seq<AuditLog>, start: nat, limit: nat, codec: Codec): seq<Page>
    requires start <= |list| && limit >= 1
    decreases |list| - start
  {
    var p := PageAt(list, start, limit, codec);
    [p] + if p.next.None? then [] else Cut(list, start + limit, limit, codec)
  }

  lemma FirstAfterOwn(list: seq<AuditLog>, i: nat)
    requires Ascending(list) && i < |list|
    ensures FirstAfter(list, CursorOf(list[i])) == i + 1
  {
    hide Less, FirstAfter, Before;
    AfterIsUpward(list, list[i], i);
    BeforeTrichotomy(list[i], list[i]);
    if i + 1 < |list| { AfterIsUpward(list, list[i], i + 1); }
  }

  lemma CutUnfolds(list: seq<AuditLog>, start: nat, limit: nat, codec: Codec)
    requires start <= |list| && limit >= 1
    ensures var cut, p := Cut(list, start, limit, codec), PageAt(list, start, limit, codec);
            && (p.next.None? ==> cut == [p])
            && (p.next.Some? ==> start + limit <= |list| && cut == [p] + Cut(list, start + limit, limit, codec))
  {
  }

  /** The cursor of the log before position b leads to position b. */
  ghost predicate Boundary(list: seq<AuditLog>, b: int) {
    0 < b < |list| ==> FirstAfter(list, CursorOf(list[b - 1])) == b
  }

  /** Where the k-th page of a walk is meant to start. */
  ghost function PageStart(k: nat, limit: nat): nat { k * limit }

  lemma NextStart(k: nat, limit: nat)
    ensures PageStart(k + 1, limit) == PageStart(k, limit) + limit && PageStart(0, limit) == 0 && PageStart(k, 1) == k
  {
  }

  /** At the end of every page of this size the cursor leads to the log right behind. */
  ghost predicate Boundaries(list: seq<AuditLog>, limit: nat) {
    forall k: nat :: Boundary(list, PageStart(k, limit))
  }

  lemma AscendingBounds(list: seq<AuditLog>, limit: nat)
    requires Ascending(list)
    ensures Boundaries(list, limit)
  {
    forall k: nat ensures Boundary(list, PageStart(k, limit)) { AscendingBound(list, PageStart(k, limit)); }
  }

  lemma AscendingBound(list: seq<AuditLog>, b: nat)
    requires Ascending(list)
    ensures Boundary(list, b)
  {
    if 0 < b < |list| { FirstAfterOwn(list, b - 1); }
  }

  /** The cursor of a page that is not the last leads to the page right behind it, if it
      leads to its first log. */
  lemma SecondPage(list: seq<AuditLog>, start: nat, limit: nat, codec: Codec)
    requires codec.Valid() && Keyed(list) && start <= |list| && limit >= 1
    requires PageAt(list, start, limit, codec).next.Some?
    ensures start + limit < |list|
    ensures Boundary(list, start + limit) ==>
            AfterCursor(list, limit, PageAt(list, start, limit, codec).next, codec) == Ok(PageAt(list, start + limit, limit, codec))
  {
    hide FirstAfter, Less, Before;
    var p := PageAt(list, start, limit, codec);
    assert p.items[|p.items| - 1] == list[start + limit - 1];
  }

  lemma {:induction false} CutFollows(list: seq<AuditLog>, base: nat, m: nat, start: nat, limit: nat, codec: Codec, k: nat)
    requires codec.Valid() && Keyed(list) && start <= |list| && limit >= 1
    requires forall j: nat :: Boundary(list, base + PageStart(j, limit))
    requires start == base + PageStart(m, limit)
    requires 0 < k < |Cut(list, start, limit, codec)|
    ensures var cut := Cut(list, start, limit, codec);
            cut[k - 1].next.Some? && Ok(cut[k]) == AfterCursor(list, limit, cut[k - 1].next, codec)
    decreases k
  {
    hide FirstAfter, Less, Keyed, AfterCursor, PageAt, Boundary, PageStart;
    CutUnfolds(list, start, limit, codec);
    NextStart(m, limit);
    var cut, more := Cut(list, start, limit, codec), Cut(list, start + limit, limit, codec);
    if k == 1 {
      CutUnfolds(list, start + limit, limit, codec);
      SecondPage(list, start, limit, codec);
    } else {
      CutFollows(list, base, m + 1, start + limit, limit, codec, k - 1);
      assert cut[k] == more[k - 1] && cut[k - 1] == more[k - 2];
    }
  }

  lemma {:induction false} CutEnds(list: seq<AuditLog>, start: nat, limit: nat, codec: Codec)
    requires start <= |list| && limit >= 1
    ensures var cut := Cut(list, start, limit, codec);
            cut != [] && cut[0] == PageAt(list, start, limit, codec) && cut[|cut| - 1].next.None?
    decreases |list| - start
  {
    hide PageAt, Cut;
    CutUnfolds(list, start, limit, codec);
    if PageAt(list, start, limit, codec).next.Some? {
      CutEnds(list, start + limit, limit, codec);
    }
  }

  lemma CutFinishes(list: seq<AuditLog>, limit: nat, codec: Codec)
    requires codec.Valid() && limit >= 1 && Keyed(list) && Boundaries(list, limit)
    ensures var pages := Cut(list, 0, limit, codec); FinishedWalk(Same(list, |pages|), pages, limit, codec)
  {
    hide PageAt, FirstAfter, Cut, AfterCursor, Boundary, Keyed;
    var pages := Cut(list, 0, limit, codec);
    CutEnds(list, 0, limit, codec);
    NoCursor(list, limit, codec);
    NextStart(0, limit);
    forall k | 0 < k < |pages| ensures FollowsAt(Same(list, |pages|), pages, limit, codec, k) {
      CutFollows(list, 0, 0, 0, limit, codec, k);
    }
  }

  /** Whatever was appended up to some request: if the list no longer changes from then on,
      following nextCursor comes to an end, from whichever cursor the client holds. */
  lemma WalkFinishes(list: seq<AuditLog>, limit: nat, cursor: Option<string>, codec: Codec) returns (pages: seq<Page>)
    requires codec.Valid() && limit >= 1 && ListOk(list) && AfterCursor(list, limit, cursor, codec).Ok?
    ensures pages != [] && Ok(pages[0]) == AfterCursor(list, limit, cursor, codec) && pages[|pages| - 1].next.None?
    ensures forall k :: 0 < k < |pages| ==> FollowsAt(Same(list, |pages|), pages, limit, codec, k)
  {
    var start := StartOf(list, limit, cursor, codec);
    hide PageAt, FirstAfter, Cut, AfterCursor, Boundary;
    pages := Cut(list, start, limit, codec);
    CutEnds(list, start, limit, codec);
    NextStart(0, limit);
    forall j: nat ensures Boundary(list, start + PageStart(j, limit)) { AscendingBound(list, start + PageStart(j, limit)); }
    forall k | 0 < k < |pages| ensures FollowsAt(Same(list, |pages|), pages, limit, codec, k) {
      CutFollows(list, start, 0, start, limit, codec, k);
    }
  }

  /** Where a page starts. */
  lemma StartOf(list: seq<AuditLog>, limit: nat, cursor: Option<string>, codec: Codec) returns (start: nat)
    requires AfterCursor(list, limit, cursor, codec).Ok?
    ensures start <= |list| && AfterCursor(list, limit, cursor, codec) == Ok(PageAt(list, start, limit, codec))
  {
    hide PageAt;
    start := if Truthy(cursor) then FirstAfter(list, codec.decode(cursor.value).value) else 0;
  }

  lemma NoCursor(list: seq<AuditLog>, limit: nat, codec: Codec)
    ensures AfterCursor(list, limit, None, codec) == Ok(PageAt(list, 0, limit, codec))
  {
  }

  // ---- over the store ----

  /** From the store's point of view: if logs are only appended between the requests and
      the locale order agrees with code-unit order on the keys, a finished walk returns
      every matching log present at the start exactly once; if nothing was appended, it
      returns exactly listAudits. */
  lemma StoreWalk(stores: seq<seq<AuditLog>>, f: Filtering, loc: Locale, pages: seq<Page>, limit: nat, codec: Codec)
    requires codec.Valid() && limit >= 1 && TotalPreorder(loc) && stores != []
    requires forall k :: 0 <= k < |stores| ==> stores[0] <= stores[k] && KeysOk(stores[k]) && Agrees(loc, stores[k])
    requires FinishedWalk(seq(|stores|, k requires 0 <= k < |stores| => ListAudits(stores[k], f, loc)), pages, limit, codec)
    ensures Ascending(Items(pages))
    ensures forall x :: x in stores[0] && Matches(f, x) ==> x in Items(pages)
    ensures (forall k :: 0 <= k < |stores| ==> stores[k] == stores[0]) ==> Items(pages) == ListAudits(stores[0], f, loc)
  {
    hide ListAudits, PageAt, FirstAfter, Items;
    var lists := seq(|stores|, k requires 0 <= k < |stores| => ListAudits(stores[k], f, loc));
    forall k | 0 <= k < |lists|
      ensures ListOk(lists[k]) && forall x :: x in lists[k] <==> x in stores[k] && Matches(f, x)
    {
      ListAscends(stores[k], f, loc);
      forall i | 0 <= i < |lists[k]| ensures lists[k][i].id != "" && lists[k][i].createdAt != "" {
        assert lists[k][i] in stores[k];
      }
    }
    WalkReturnsEveryLog(lists, pages, limit, codec);
    if forall k :: 0 <= k < |stores| ==> stores[k] == stores[0] {
      assert lists == Same(lists[0], |pages|);
      WalkReturnsTheList(lists[0], pages, limit, codec);
    }
  }
}
