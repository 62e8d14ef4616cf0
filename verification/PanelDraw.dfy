/** The verifier panel draw: a partial Fisher-Yates shuffle of the eligible addresses,
    run in place from the back of the array, whose last `panelSize` slots are the panel. */
module PanelDraw {
  import opened Common

  /** draws[k] is floor(random * (i + 1)) in the iteration with i == n - 1 - k. */
  predicate ValidDraws(draws: seq<nat>, n: nat) {
    && |draws| <= n
    && forall k :: 0 <= k < |draws| ==> draws[k] <= n - 1 - k
  }

  function Swapped<T>(s: seq<T>, i: nat, j: nat): (r: seq<T>)
    requires i < |s| && j < |s|
    ensures |r| == |s|
  {
    s[i := s[j]][j := s[i]]
  }

  lemma SwappedMultiset<T>(s: seq<T>, i: nat, j: nat)
    requires j <= i < |s|
    ensures multiset(Swapped(s, i, j)) == multiset(s)
  {
    if j < i {
      assert s == s[..j] + [s[j]] + s[j + 1..i] + [s[i]] + s[i + 1..];
      assert Swapped(s, i, j) == s[..j] + [s[i]] + s[j + 1..i] + [s[j]] + s[i + 1..];
    } else {
      assert Swapped(s, i, j) == s;
    }
  }

  /** The array after all draws: the first draw settles the last slot, the rest is a
      shuffle of the slots before it. */
  function Shuffled<T>(s: seq<T>, draws: seq<nat>): (r: seq<T>)
    requires ValidDraws(draws, |s|)
    ensures |r| == |s|
    decreases |draws|
  {
    if draws == [] then s
    else
      var last := |s| - 1;
      var t := Swapped(s, last, draws[0]);
      Shuffled(t[..last], draws[1..]) + [t[last]]
  }

  function Panel<T>(s: seq<T>, draws: seq<nat>): (p: seq<T>)
    requires ValidDraws(draws, |s|)
    ensures |p| == |draws|
  {
    Shuffled(s, draws)[|s| - |draws|..]
  }

  /** The array stays a permutation of the eligible pool. */
  lemma {:induction false} ShuffledIsPermutation<T>(s: seq<T>, draws: seq<nat>)
    requires ValidDraws(draws, |s|)
    ensures multiset(Shuffled(s, draws)) == multiset(s)
    decreases |draws|
  {
    if draws != [] {
      var last := |s| - 1;
      var t := Swapped(s, last, draws[0]);
      var front := t[..last];
      calc {
        multiset(Shuffled(s, draws));
        multiset(Shuffled(front, draws[1..])) + multiset{t[last]};
        { ShuffledIsPermutation(front, draws[1..]); }
        multiset(front) + multiset{t[last]};
        { assert t == front + [t[last]]; }
        multiset(t);
        { SwappedMultiset(s, last, draws[0]); }
        multiset(s);
      }
    }
  }

  /** The panel holds distinct members of the pool. */
  lemma PanelDistinct<T>(s: seq<T>, draws: seq<nat>)
    requires ValidDraws(draws, |s|) && Distinct(s)
    ensures Distinct(Panel(s, draws))
    ensures forall x :: x in Panel(s, draws) ==> x in s
  {
    var r := Shuffled(s, draws);
    ShuffledIsPermutation(s, draws);
    forall i, j | 0 <= i < j < |r| ensures r[i] != r[j] {
      if r[i] == r[j] {
        TwiceInMultiset(r, i, j);
        OnceInMultiset(s, r[i]);
      }
    }
    forall x | x in Panel(s, draws) ensures x in s {
      assert x in r && x in multiset(r);
    }
  }

  // ---- the draw is a bijection between draw sequences and ordered panels ----

  lemma PanelStep<T>(s: seq<T>, draws: seq<nat>)
    requires ValidDraws(draws, |s|) && draws != []
    ensures var last := |s| - 1;
            var t := Swapped(s, last, draws[0]);
            Panel(s, draws) == Panel(t[..last], draws[1..]) + [s[draws[0]]]
  {
  }

  function IndexOf<T(==)>(s: seq<T>, x: T): (i: nat)
    requires x in s
    ensures i < |s| && s[i] == x
  {
    if s[0] == x then 0 else 1 + IndexOf(s[1..], x)
  }

  /** The only draws that can have produced an ordered panel. */
  function DrawsOf<T(==)>(s: seq<T>, panel: seq<T>): (draws: seq<nat>)
    requires Distinct(s) && Distinct(panel) && forall x :: x in panel ==> x in s
    ensures ValidDraws(draws, |s|) && |draws| == |panel|
    decreases |panel|
  {
    if panel == [] then []
    else
      var j := IndexOf(s, panel[|panel| - 1]);
      var last := |s| - 1;
      var t := Swapped(s, last, j);
      var rest := panel[..|panel| - 1];
      RestOfPanel(s, panel, j);
      [j] + DrawsOf(t[..last], rest)
  }

  lemma RestOfPanel<T>(s: seq<T>, panel: seq<T>, j: nat)
    requires Distinct(s) && Distinct(panel) && forall x :: x in panel ==> x in s
    requires panel != [] && j < |s| && s[j] == panel[|panel| - 1]
    ensures var last := |s| - 1;
            var t := Swapped(s, last, j);
            && Distinct(t[..last])
            && forall x :: x in panel[..|panel| - 1] ==> x in t[..last]
  {
    var last := |s| - 1;
    var t := Swapped(s, last, j);
    forall x | x in panel[..|panel| - 1] ensures x in t[..last] {
      assert x in panel;
      var k :| 0 <= k < |s| && s[k] == x;
      assert k != j;
      assert x == if k == last then t[..last][j] else t[..last][k];
    }
  }

  /** Every ordered panel is reached by some draw sequence... */
  lemma {:induction false} EveryPanelIsDrawn<T>(s: seq<T>, panel: seq<T>)
    requires Distinct(s) && Distinct(panel) && forall x :: x in panel ==> x in s
    ensures Panel(s, DrawsOf(s, panel)) == panel
    decreases |panel|
  {
    if panel != [] {
      var j := IndexOf(s, panel[|panel| - 1]);
      var last := |s| - 1;
      var t := Swapped(s, last, j);
      var rest := panel[..|panel| - 1];
      RestOfPanel(s, panel, j);
      EveryPanelIsDrawn(t[..last], rest);
      var d := DrawsOf(s, panel);
      assert d[1..] == DrawsOf(t[..last], rest);
      PanelStep(s, d);
      assert panel == rest + [panel[|panel| - 1]];
    } else {
      assert DrawsOf(s, panel) == [];
      assert Panel(s, []) == [];
    }
  }

  /** ... and by only one, so uniform draws give a uniform panel. */
  lemma {:induction false} PanelHasOneDraw<T>(s: seq<T>, d: seq<nat>, e: seq<nat>)
    requires Distinct(s) && ValidDraws(d, |s|) && ValidDraws(e, |s|)
    requires Panel(s, d) == Panel(s, e)
    ensures d == e
    decreases |d|
  {
    assert |d| == |e|;
    if d != [] {
      var last := |s| - 1;
      PanelStep(s, d);
      PanelStep(s, e);
      var p, q := Panel(s, d), Panel(s, e);
      assert p[|p| - 1] == s[d[0]] && q[|q| - 1] == s[e[0]];
      assert d[0] == e[0];
      var t := Swapped(s, last, d[0]);
      assert p[..|p| - 1] == Panel(t[..last], d[1..]) && q[..|q| - 1] == Panel(t[..last], e[1..]);
      PanelHasOneDraw(t[..last], d[1..], e[1..]);
      assert d == [d[0]] + d[1..] && e == [e[0]] + e[1..];
    }
  }

  /** Slots above i are final; finishing the remaining draws on the slots up to i
      reaches the goal. */
  ghost predicate Pending<T>(a: seq<T>, draws: seq<nat>, i: int, goal: seq<T>)
    requires |draws| <= |a| && |a| - 1 - |draws| <= i <= |a| - 1
  {
    var rest := draws[|a| - 1 - i..];
    ValidDraws(rest, i + 1) && goal == Shuffled(a[..i + 1], rest) + a[i + 1..]
  }

  lemma PendingStep<T>(a: seq<T>, draws: seq<nat>, i: nat, goal: seq<T>)
    requires |draws| <= |a| && |a| - 1 - |draws| < i <= |a| - 1
    requires Pending(a, draws, i, goal)
    ensures Pending(Swapped(a, i, draws[|a| - 1 - i]), draws, i - 1, goal)
  {
    var j := draws[|a| - 1 - i];
    var rest := draws[|a| - 1 - i..];
    var b := Swapped(a, i, j);
    var t := Swapped(a[..i + 1], i, rest[0]);
    assert rest[1..] == draws[|a| - i..];
    assert t[..i] == b[..i];
    assert b[i..] == [t[i]] + a[i + 1..];
    forall k | 0 <= k < |rest[1..]| ensures rest[1..][k] <= i - 1 - k {
      assert rest[1..][k] == rest[k + 1];
    }
    assert Shuffled(a[..i + 1], rest) == Shuffled(t[..i], rest[1..]) + [t[i]];
  }

  lemma PendingEnds<T>(s: seq<T>, draws: seq<nat>, a: seq<T>, goal: seq<T>)
    requires |draws| <= |a|
    ensures ValidDraws(draws, |s|) ==> |draws| <= |s| && Pending(s, draws, |s| - 1, Shuffled(s, draws))
    ensures Pending(a, draws, |a| - 1 - |draws|, goal) ==> a == goal
  {
    assert draws[0..] == draws && s[..|s|] == s && s[|s|..] == [];
    var i := |a| - 1 - |draws|;
    assert draws[|a| - 1 - i..] == [];
    assert a[..i + 1] + a[i + 1..] == a;
  }

  method SwapAt<T>(arr: array<T>, i: nat, j: nat)
    requires i < arr.Length && j < arr.Length
    modifies arr
    ensures arr[..] == Swapped(old(arr[..]), i, j)
  {
    arr[i], arr[j] := arr[j], arr[i];
  }

  /** The in-place loop, refining the recursive description above. */
  method PartialShuffle<T>(arr: array<T>, draws: seq<nat>)
    requires ValidDraws(draws, arr.Length)
    modifies arr
    ensures arr[..] == Shuffled(old(arr[..]), draws)
  {
    hide Shuffled, Pending, Swapped;
    var n := arr.Length;
    ghost var goal := Shuffled(arr[..], draws);
    PendingEnds(arr[..], draws, arr[..], goal);
    var i := n - 1;
    while i > n - 1 - |draws|
      invariant n - 1 - |draws| <= i <= n - 1
      invariant Pending(arr[..], draws, i, goal)
    {
      ghost var before := arr[..];
      PendingStep(before, draws, i, goal);
      SwapAt(arr, i, draws[n - 1 - i]);
      i := i - 1;
    }
    PendingEnds(arr[..], draws, arr[..], goal);
  }
}
