/** Sorting and arg-max selection as the dashboard uses them. JavaScript's
    `Array.prototype.sort` is stable, so `xs.sort((a, b) => key(b) - key(a))` is fully
    determined: the elements in non-increasing key order, ties in their original order.
    `SortDesc` is one algorithm (insertion) that produces that order;
    `StableSortUnique` shows it is the only order meeting that description. */
module Sorting {
  import opened Seqs
  import opened Grouping
  import opened Strings

  ghost predicate SortedDesc<T>(s: seq<T>, key: T -> real)
  {
    forall i, j :: 0 <= i < j < |s| ==> key(s[i]) >= key(s[j])
  }

  /** Place x after every element whose key is at least key(x). */
  function InsertDesc<T>(s: seq<T>, x: T, key: T -> real): (r: seq<T>)
    ensures |r| == |s| + 1
  {
    if s == [] || key(Last(s)) >= key(x) then s + [x]
    else InsertDesc(Init(s), x, key) + [Last(s)]
  }

  /** `xs.slice().sort((a, b) => key(b) - key(a))`. */
  function SortDesc<T>(s: seq<T>, key: T -> real): (r: seq<T>)
    ensures |r| == |s|
  {
    if s == [] then [] else InsertDesc(SortDesc(Init(s), key), Last(s), key)
  }

  lemma {:induction false} InsertDescPermutes<T>(s: seq<T>, x: T, key: T -> real)
    ensures multiset(InsertDesc(s, x, key)) == multiset(s) + multiset{x}
    decreases |s|
  {
    if s != [] && key(Last(s)) < key(x) {
      InsertDescPermutes(Init(s), x, key);
      assert s == Init(s) + [Last(s)];
    }
  }

  lemma {:induction false} InsertDescSorted<T>(s: seq<T>, x: T, key: T -> real)
    requires SortedDesc(s, key)
    ensures SortedDesc(InsertDesc(s, x, key), key)
    decreases |s|
  {
    if s != [] && key(Last(s)) < key(x) {
      var l := Last(s);
      var r0 := InsertDesc(Init(s), x, key);
      var r := r0 + [l];
      InsertDescSorted(Init(s), x, key);
      InsertDescPermutes(Init(s), x, key);
      forall i, j | 0 <= i < j < |r| ensures key(r[i]) >= key(r[j]) {
        if j == |r| - 1 {
          assert r[i] == r0[i];
          assert r[i] in multiset(r0);
          if r[i] != x {
            assert r[i] in multiset(Init(s));
            var k :| 0 <= k < |Init(s)| && Init(s)[k] == r[i];
            assert s[k] == r[i];
          }
        } else {
          assert r[i] == r0[i] && r[j] == r0[j];
        }
      }
    }
  }

  lemma {:induction false} InsertDescSelect<T>(s: seq<T>, x: T, key: T -> real, c: real)
    ensures Select(InsertDesc(s, x, key), key, c)
         == Select(s, key, c) + (if key(x) == c then [x] else [])
    decreases |s|
  {
    if s == [] || key(Last(s)) >= key(x) {
      InitOfSnoc(s, x);
    } else {
      var l := Last(s);
      var r0 := InsertDesc(Init(s), x, key);
      InsertDescSelect(Init(s), x, key, c);
      InitOfSnoc(r0, l);
      if key(l) == c {
        assert key(x) != c;
      }
    }
  }

  /** The insertion sort returns the elements in non-increasing key order, as a
      permutation of its input, keeping the relative order of equal keys. */
  lemma SortDescSpec<T>(s: seq<T>, key: T -> real)
    ensures SortedDesc(SortDesc(s, key), key)
    ensures multiset(SortDesc(s, key)) == multiset(s)
    ensures forall c :: Select(SortDesc(s, key), key, c) == Select(s, key, c)
  {
    SortDescSorted(s, key);
    SortDescPermutes(s, key);
    forall c ensures Select(SortDesc(s, key), key, c) == Select(s, key, c) {
      SortDescSelect(s, key, c);
    }
  }

  lemma {:induction false} SortDescSorted<T>(s: seq<T>, key: T -> real)
    ensures SortedDesc(SortDesc(s, key), key)
    decreases |s|
  {
    if s != [] {
      SortDescSorted(Init(s), key);
      InsertDescSorted(SortDesc(Init(s), key), Last(s), key);
    }
  }

  lemma {:induction false} SortDescPermutes<T>(s: seq<T>, key: T -> real)
    ensures multiset(SortDesc(s, key)) == multiset(s)
    decreases |s|
  {
    if s != [] {
      SortDescPermutes(Init(s), key);
      InsertDescPermutes(SortDesc(Init(s), key), Last(s), key);
      assert s == Init(s) + [Last(s)];
    }
  }

  lemma {:induction false} SortDescSelect<T>(s: seq<T>, key: T -> real, c: real)
    ensures Select(SortDesc(s, key), key, c) == Select(s, key, c)
    decreases |s|
  {
    if s != [] {
      SortDescSelect(Init(s), key, c);
      InsertDescSelect(SortDesc(Init(s), key), Last(s), key, c);
      SelectInit(s, key, c);
    }
  }

  /** Select on the two sides of a split keeps those parts. */
  lemma SelectInit<T>(t: seq<T>, key: T -> real, c: real)
    requires t != []
    ensures Select(t, key, c) == Select(Init(t), key, c) + (if key(Last(t)) == c then [Last(t)] else [])
  {
  }

  /** Any non-increasing order that keeps equal keys in their original order is the one
      the insertion sort computes: the comparator-based sort is fully determined. */
  lemma {:induction false} StableSortUnique<T>(s: seq<T>, t: seq<T>, key: T -> real)
    requires SortedDesc(t, key)
    requires forall c :: Select(t, key, c) == Select(s, key, c)
    ensures t == SortDesc(s, key)
  {
    SortDescSpec(s, key);
    SortedSameSelectEqual(t, SortDesc(s, key), key);
  }

  lemma {:induction false} SortedSameSelectEqual<T>(t: seq<T>, u: seq<T>, key: T -> real)
    requires SortedDesc(t, key) && SortedDesc(u, key)
    requires forall c :: Select(t, key, c) == Select(u, key, c)
    ensures t == u
    decreases |t|
  {
    if t == [] || u == [] {
      SameEmptiness(t, u, key);
    } else {
      SameLast(t, u, key);
      InitSameSelect(t, u, key);
      SortedSameSelectEqual(Init(t), Init(u), key);
      assert t == Init(t) + [Last(t)] && u == Init(u) + [Last(u)];
    }
  }

  lemma SameEmptiness<T>(t: seq<T>, u: seq<T>, key: T -> real)
    requires forall c :: Select(t, key, c) == Select(u, key, c)
    ensures t == [] <==> u == []
  {
    if t != [] {
      assert Select(u, key, key(Last(t))) != [];
    }
    if u != [] {
      assert Select(t, key, key(Last(u))) != [];
    }
  }

  lemma SameLast<T>(t: seq<T>, u: seq<T>, key: T -> real)
    requires t != [] && u != []
    requires SortedDesc(t, key) && SortedDesc(u, key)
    requires forall c :: Select(t, key, c) == Select(u, key, c)
    ensures Last(t) == Last(u)
  {
    SameLastKey(t, u, key);
    var m := key(Last(t));
    assert Last(Select(t, key, m)) == Last(t);
    assert Last(Select(u, key, m)) == Last(u);
  }

  lemma InitSameSelect<T>(t: seq<T>, u: seq<T>, key: T -> real)
    requires t != [] && u != [] && Last(t) == Last(u)
    requires forall c :: Select(t, key, c) == Select(u, key, c)
    ensures forall c :: Select(Init(t), key, c) == Select(Init(u), key, c)
  {
    forall c ensures Select(Init(t), key, c) == Select(Init(u), key, c) {
      var l := Last(t);
      if key(l) == c {
        InitOfSnoc(Select(Init(t), key, c), l);
        InitOfSnoc(Select(Init(u), key, c), l);
        assert Select(Init(t), key, c) == Init(Select(t, key, c));
      } else {
        assert Select(Init(t), key, c) == Select(t, key, c);
      }
    }
  }

  lemma SameLastKey<T>(t: seq<T>, u: seq<T>, key: T -> real)
    requires t != [] && u != []
    requires SortedDesc(t, key) && SortedDesc(u, key)
    requires forall c :: Select(t, key, c) == Select(u, key, c)
    ensures key(Last(t)) == key(Last(u))
  {
    var a, b := key(Last(t)), key(Last(u));
    SelectMembers(t, key, a);
    SelectMembers(u, key, a);
    SelectMembers(t, key, b);
    SelectMembers(u, key, b);
    assert Last(t) in Select(t, key, a);
    var y :| y in Select(u, key, a);
    var i :| 0 <= i < |u| && u[i] == y;
    assert key(Last(u)) <= a;
    assert Last(u) in Select(u, key, b);
    var z :| z in Select(t, key, b);
    var j :| 0 <= j < |t| && t[j] == z;
    assert key(Last(t)) <= b;
  }

  /** Where the shifting loop stops: everything after position j has a smaller key. */
  lemma {:induction false} InsertDescAt<T>(s: seq<T>, x: T, key: T -> real, j: nat)
    requires j <= |s|
    requires forall k :: j <= k < |s| ==> key(s[k]) < key(x)
    requires j == 0 || key(s[j - 1]) >= key(x)
    ensures InsertDesc(s, x, key) == s[..j] + [x] + s[j..]
    decreases |s| - j
  {
    if j == |s| {
      assert s[..j] == s;
    } else {
      InsertDescAt(Init(s), x, key, j);
      assert s == Init(s) + [Last(s)];
      assert Init(s)[..j] == s[..j];
      assert s[j..] == Init(s)[j..] + [Last(s)];
    }
  }

  /** `a.sort((p, q) => key(q) - key(p))` in place: insertion sort shifting larger
      elements right. */
  method SortDescInPlace<T>(a: array<T>, key: T -> real)
    modifies a
    ensures a[..] == SortDesc(old(a[..]), key)
  {
    ghost var s := a[..];
    var i := 0;
    while i < a.Length
      invariant 0 <= i <= a.Length
      invariant a[..i] == SortDesc(s[..i], key)
      invariant a[i..] == s[i..]
    {
      ghost var pre := a[..];
      assert pre[i] == a[i..][0] == s[i];
      assert pre[..i] == SortDesc(s[..i], key);
      assert pre[i + 1..] == s[i + 1..] by {
        assert pre[i + 1..] == a[i..][1..];
      }
      InsertIntoPrefix(a, i, key);
      SortDescSnoc(s, i, key);
      i := i + 1;
    }
    assert s[..a.Length] == s;
  }

  lemma SortDescSnoc<T>(s: seq<T>, i: nat, key: T -> real)
    requires i < |s|
    ensures SortDesc(s[..i + 1], key) == InsertDesc(SortDesc(s[..i], key), s[i], key)
  {
    assert s[..i + 1] == s[..i] + [s[i]];
    InitOfSnoc(s[..i], s[i]);
  }

  /** One pass of the insertion sort: moves `a[i]` into the sorted prefix `a[..i]`. */
  method InsertIntoPrefix<T>(a: array<T>, i: nat, key: T -> real)
    requires i < a.Length
    modifies a
    ensures a[..i + 1] == InsertDesc(old(a[..i]), old(a[i]), key)
    ensures a[i + 1..] == old(a[i + 1..])
  {
    ghost var x := a[i];
    ghost var sorted := a[..i];
    ghost var rest := a[i + 1..];
    var j := ShiftAndPlace(a, i, key);
    InsertDescAt(sorted, x, key, j);
    ShiftedInsert(a[..], sorted, rest, x, j);
  }

  /** The shifting loop and the final write: moves the elements before position i whose
      key is below that of `a[i]` one place right and puts `a[i]` into the gap at j. */
  method ShiftAndPlace<T>(a: array<T>, i: nat, key: T -> real) returns (j: nat)
    requires i < a.Length
    modifies a
    ensures j <= i && a[j] == old(a[i])
    ensures forall k :: 0 <= k < j ==> a[k] == old(a[k])
    ensures forall k :: j < k <= i ==> a[k] == old(a[k - 1])
    ensures forall k :: i < k < a.Length ==> a[k] == old(a[k])
    ensures forall k :: j <= k < i ==> key(old(a[k])) < key(old(a[i]))
    ensures j == 0 || key(old(a[j - 1])) >= key(old(a[i]))
  {
    var x := a[i];
    j := i;
    while j > 0 && key(a[j - 1]) < key(x)
      invariant 0 <= j <= i
      invariant forall k :: 0 <= k < j ==> a[k] == old(a[k])
      invariant forall k :: j < k <= i ==> a[k] == old(a[k - 1])
      invariant forall k :: i < k < a.Length ==> a[k] == old(a[k])
      invariant forall k :: j <= k < i ==> key(old(a[k])) < key(x)
    {
      a[j] := a[j - 1];
      j := j - 1;
    }
    a[j] := x;
  }

  /** The array after the shifting loop and the final write, read as a sequence. */
  lemma ShiftedInsert<T>(s: seq<T>, sorted: seq<T>, rest: seq<T>, x: T, j: nat)
    requires j <= |sorted| && |s| == |sorted| + 1 + |rest|
    requires forall k :: 0 <= k < j ==> s[k] == sorted[k]
    requires s[j] == x
    requires forall k :: j < k <= |sorted| ==> s[k] == sorted[k - 1]
    requires forall k :: |sorted| < k < |s| ==> s[k] == rest[k - |sorted| - 1]
    ensures s[..|sorted| + 1] == sorted[..j] + [x] + sorted[j..]
    ensures s[|sorted| + 1..] == rest
  {
    var i := |sorted|;
    forall k | 0 <= k <= i ensures s[k] == (sorted[..j] + [x] + sorted[j..])[k] {
      if k > j {
        assert (sorted[..j] + [x] + sorted[j..])[k] == sorted[k - 1];
      }
    }
  }

  lemma {:induction false} InsertDescSums<T>(s: seq<T>, x: T, key: T -> real, f: T -> nat, g: T -> real)
    ensures SumNat(InsertDesc(s, x, key), f) == SumNat(s, f) + f(x)
    ensures SumReal(InsertDesc(s, x, key), g) == SumReal(s, g) + g(x)
    decreases |s|
  {
    if s == [] || key(Last(s)) >= key(x) {
      InitOfSnoc(s, x);
    } else {
      InsertDescSums(Init(s), x, key, f, g);
      InitOfSnoc(InsertDesc(Init(s), x, key), Last(s));
    }
  }

  /** Reordering does not change a sum. */
  lemma {:induction false} SortDescSums<T>(s: seq<T>, key: T -> real, f: T -> nat, g: T -> real)
    ensures SumNat(SortDesc(s, key), f) == SumNat(s, f)
    ensures SumReal(SortDesc(s, key), g) == SumReal(s, g)
    decreases |s|
  {
    if s != [] {
      SortDescSums(Init(s), key, f, g);
      InsertDescSums(SortDesc(Init(s), key), Last(s), key, f, g);
    }
  }

  /** Sorting keeps the same elements, and so the same values of any projection. */
  lemma SortDescMembers<T, U>(s: seq<T>, key: T -> real, name: T -> U)
    ensures forall x :: x in SortDesc(s, key) <==> x in s
    ensures forall k :: k in MapSeq(SortDesc(s, key), name) <==> k in MapSeq(s, name)
  {
    var r := SortDesc(s, key);
    SortDescSpec(s, key);
    forall x ensures x in r <==> x in s {
      assert x in r <==> x in multiset(r);
      assert x in s <==> x in multiset(s);
    }
    forall k ensures k in MapSeq(r, name) ==> k in MapSeq(s, name) {
      if k in MapSeq(r, name) {
        var i :| 0 <= i < |r| && MapSeq(r, name)[i] == k;
        assert r[i] in s;
        var j :| 0 <= j < |s| && s[j] == r[i];
        assert MapSeq(s, name)[j] == k;
      }
    }
    forall k ensures k in MapSeq(s, name) ==> k in MapSeq(r, name) {
      if k in MapSeq(s, name) {
        var i :| 0 <= i < |s| && MapSeq(s, name)[i] == k;
        assert s[i] in r;
        var j :| 0 <= j < |r| && r[j] == s[i];
        assert MapSeq(r, name)[j] == k;
      }
    }
  }

  /** The index `xs.reduce((max, x) => key(x) > key(max) ? x : max)` ends on: the first
      element with the greatest key. */
  function FirstMaxIndex<T>(xs: seq<T>, key: T -> real): (i: nat)
    requires xs != []
    ensures i < |xs|
    ensures forall j :: 0 <= j < |xs| ==> key(xs[j]) <= key(xs[i])
    ensures forall j :: 0 <= j < i ==> key(xs[j]) < key(xs[i])
  {
    if |xs| == 1 then 0
    else
      var k := FirstMaxIndex(Init(xs), key);
      if key(Last(xs)) > key(xs[k]) then |xs| - 1 else k
  }

  /** `xs.reduce((max, x) => key(x) > key(max) ? x : max, m)`. */
  function MaxBy<T>(xs: seq<T>, key: T -> real, m: T): T
  {
    if xs == [] then m
    else
      var best := MaxBy(Init(xs), key, m);
      if key(Last(xs)) > key(best) then Last(xs) else best
  }

  /** The reduction keeps its seed unless some element beats it strictly, and then ends
      on the first element with the greatest key. */
  lemma {:induction false} MaxByIsFirstMax<T>(xs: seq<T>, key: T -> real, m: T)
    requires xs != []
    ensures var i := FirstMaxIndex(xs, key);
            MaxBy(xs, key, m) == if key(xs[i]) > key(m) then xs[i] else m
    decreases |xs|
  {
    if |xs| > 1 {
      MaxByIsFirstMax(Init(xs), key, m);
    }
  }

  /** `xs.reduce((max, x) => !max || key(x) > key(max) ? x : max, null)`. */
  function OptMaxBy<T>(xs: seq<T>, key: T -> real): Option<T>
  {
    if xs == [] then None
    else
      var best := OptMaxBy(Init(xs), key);
      if best.None? || key(Last(xs)) > key(best.value) then Some(Last(xs)) else best
  }

  /** The null-seeded reduction is empty only on the empty list, and otherwise ends on the
      first element with the greatest key. */
  lemma {:induction false} OptMaxByIsFirstMax<T>(xs: seq<T>, key: T -> real)
    ensures OptMaxBy(xs, key).None? <==> xs == []
    ensures xs != [] ==> OptMaxBy(xs, key) == Some(xs[FirstMaxIndex(xs, key)])
    decreases |xs|
  {
    if |xs| > 1 {
      OptMaxByIsFirstMax(Init(xs), key);
    }
  }

  /** Seeded with its own first element, the reduction returns the first maximum. */
  lemma MaxBySeededWithHead<T>(xs: seq<T>, key: T -> real)
    requires xs != []
    ensures MaxBy(xs, key, xs[0]) == xs[FirstMaxIndex(xs, key)]
  {
    MaxByIsFirstMax(xs, key, xs[0]);
    var i := FirstMaxIndex(xs, key);
    if key(xs[i]) <= key(xs[0]) {
      assert i == 0;
    }
  }

  /** Taking `[0]` after a stable non-increasing sort picks the same element as the
      first-maximum rule. */
  lemma SortDescHeadIsFirstMax<T>(xs: seq<T>, key: T -> real)
    requires xs != []
    ensures SortDesc(xs, key)[0] == xs[FirstMaxIndex(xs, key)]
  {
    var t := SortDesc(xs, key);
    var i := FirstMaxIndex(xs, key);
    var m := key(xs[i]);
    SortDescSpec(xs, key);
    assert xs[i] in multiset(xs);
    assert xs[i] in multiset(t);
    var p :| 0 <= p < |t| && t[p] == xs[i];
    assert key(t[0]) >= m;
    assert t[0] in multiset(t);
    assert t[0] in multiset(xs);
    var q :| 0 <= q < |xs| && xs[q] == t[0];
    assert key(t[0]) == m;
    SelectHead(t, key, m);
    SelectFirst(xs, key, i);
  }

  lemma {:induction false} SelectHead<T>(t: seq<T>, key: T -> real, c: real)
    requires t != [] && key(t[0]) == c
    ensures Select(t, key, c) != [] && Select(t, key, c)[0] == t[0]
    decreases |t|
  {
    if |t| > 1 {
      SelectHead(Init(t), key, c);
    }
  }

  lemma {:induction false} SelectFirst<T>(xs: seq<T>, key: T -> real, i: nat)
    requires i < |xs|
    requires forall j :: 0 <= j < i ==> key(xs[j]) != key(xs[i])
    ensures Select(xs, key, key(xs[i])) != [] && Select(xs, key, key(xs[i]))[0] == xs[i]
    decreases |xs|
  {
    if i < |xs| - 1 {
      SelectFirst(Init(xs), key, i);
    } else {
      SelectNone(Init(xs), key, key(xs[i]));
    }
  }

  lemma {:induction false} SelectNone<T>(xs: seq<T>, key: T -> real, c: real)
    requires forall j :: 0 <= j < |xs| ==> key(xs[j]) != c
    ensures Select(xs, key, c) == []
    decreases |xs|
  {
    if xs != [] {
      SelectNone(Init(xs), key, c);
    }
  }

  ghost predicate DistinctKeys<T>(s: seq<T>, key: T -> string)
  {
    forall i, j :: 0 <= i < j < |s| ==> key(s[i]) != key(s[j])
  }

  ghost predicate StrictlyAscending<T>(s: seq<T>, key: T -> string)
  {
    forall i, j :: 0 <= i < j < |s| ==> LexLess(key(s[i]), key(s[j]))
  }

  /** Place x before the trailing elements whose key is greater. */
  function InsertAsc<T>(s: seq<T>, x: T, key: T -> string): (r: seq<T>)
    ensures |r| == |s| + 1
  {
    if s == [] || !LexLess(key(x), key(Last(s))) then s + [x]
    else InsertAsc(Init(s), x, key) + [Last(s)]
  }

  /** `xs.sort((a, b) => key(a).localeCompare(key(b)))`, with the comparison of code units. */
  function SortAsc<T>(s: seq<T>, key: T -> string): (r: seq<T>)
    ensures |r| == |s|
  {
    if s == [] then [] else InsertAsc(SortAsc(Init(s), key), Last(s), key)
  }

  lemma {:induction false} InsertAscSpec<T>(s: seq<T>, x: T, key: T -> string)
    requires StrictlyAscending(s, key)
    requires forall y :: y in s ==> key(y) != key(x)
    ensures multiset(InsertAsc(s, x, key)) == multiset(s) + multiset{x}
    ensures StrictlyAscending(InsertAsc(s, x, key), key)
    decreases |s|
  {
    var r := InsertAsc(s, x, key);
    if s == [] {
    } else if !LexLess(key(x), key(Last(s))) {
      LexLessTotal(key(x), key(Last(s)));
      forall i, j | 0 <= i < j < |r| ensures LexLess(key(r[i]), key(r[j])) {
        if j == |r| - 1 && i < |s| - 1 {
          LexLessTransitive(key(r[i]), key(Last(s)), key(x));
        }
      }
    } else {
      var l := Last(s);
      var r0 := InsertAsc(Init(s), x, key);
      assert s == Init(s) + [l];
      InsertAscSpec(Init(s), x, key);
      InitOfSnoc(r0, l);
      forall i, j | 0 <= i < j < |r| ensures LexLess(key(r[i]), key(r[j])) {
        if j == |r| - 1 {
          assert r[i] in multiset(r0);
          assert r[i] == x || r[i] in multiset(Init(s));
        }
      }
    }
  }

  /** With distinct keys, the sort gives strictly ascending keys and a permutation. */
  lemma SortAscSpec<T>(s: seq<T>, key: T -> string)
    requires DistinctKeys(s, key)
    ensures StrictlyAscending(SortAsc(s, key), key)
    ensures multiset(SortAsc(s, key)) == multiset(s)
  {
    SortAscSorted(s, key);
    SortAscPermutes(s, key);
  }

  lemma {:induction false} SortAscSorted<T>(s: seq<T>, key: T -> string)
    requires DistinctKeys(s, key)
    ensures StrictlyAscending(SortAsc(s, key), key)
    decreases |s|
  {
    if s != [] {
      assert DistinctKeys(Init(s), key);
      SortAscSorted(Init(s), key);
      SortAscPermutes(Init(s), key);
      forall y | y in SortAsc(Init(s), key) ensures key(y) != key(Last(s)) {
        assert y in multiset(Init(s));
        var i :| 0 <= i < |Init(s)| && Init(s)[i] == y;
      }
      InsertAscSpec(SortAsc(Init(s), key), Last(s), key);
    }
  }

  lemma {:induction false} SortAscPermutes<T>(s: seq<T>, key: T -> string)
    ensures multiset(SortAsc(s, key)) == multiset(s)
    decreases |s|
  {
    if s != [] {
      SortAscPermutes(Init(s), key);
      InsertAscPermutes(SortAsc(Init(s), key), Last(s), key);
      assert s == Init(s) + [Last(s)];
    }
  }

  lemma {:induction false} InsertAscPermutes<T>(s: seq<T>, x: T, key: T -> string)
    ensures multiset(InsertAsc(s, x, key)) == multiset(s) + multiset{x}
    decreases |s|
  {
    if s != [] && LexLess(key(x), key(Last(s))) {
      InsertAscPermutes(Init(s), x, key);
      assert s == Init(s) + [Last(s)];
    }
  }

  lemma {:induction false} InsertAscSums<T>(s: seq<T>, x: T, key: T -> string, f: T -> nat, g: T -> real)
    ensures SumNat(InsertAsc(s, x, key), f) == SumNat(s, f) + f(x)
    ensures SumReal(InsertAsc(s, x, key), g) == SumReal(s, g) + g(x)
    decreases |s|
  {
    if s == [] || !LexLess(key(x), key(Last(s))) {
      InitOfSnoc(s, x);
    } else {
      InsertAscSums(Init(s), x, key, f, g);
      InitOfSnoc(InsertAsc(Init(s), x, key), Last(s));
    }
  }

  /** Reordering does not change a sum. */
  lemma {:induction false} SortAscSums<T>(s: seq<T>, key: T -> string, f: T -> nat, g: T -> real)
    ensures SumNat(SortAsc(s, key), f) == SumNat(s, f)
    ensures SumReal(SortAsc(s, key), g) == SumReal(s, g)
    decreases |s|
  {
    if s != [] {
      SortAscSums(Init(s), key, f, g);
      InsertAscSums(SortAsc(Init(s), key), Last(s), key, f, g);
    }
  }

  /** Sorting a list whose keys are pairwise distinct: ascending, the same elements and
      the same keys. */
  lemma SortAscMembers<T>(s: seq<T>, key: T -> string)
    requires NoDup(MapSeq(s, key))
    ensures StrictlyAscending(SortAsc(s, key), key)
    ensures forall x :: x in SortAsc(s, key) <==> x in s
    ensures forall k :: k in MapSeq(SortAsc(s, key), key) <==> k in MapSeq(s, key)
  {
    var r := SortAsc(s, key);
    assert DistinctKeys(s, key) by {
      forall i, j | 0 <= i < j < |s| ensures key(s[i]) != key(s[j]) {
        assert MapSeq(s, key)[i] == key(s[i]) && MapSeq(s, key)[j] == key(s[j]);
      }
    }
    SortAscSpec(s, key);
    forall x ensures x in r <==> x in s {
      assert x in r <==> x in multiset(r);
      assert x in s <==> x in multiset(s);
    }
    forall k ensures k in MapSeq(r, key) ==> k in MapSeq(s, key) {
      if k in MapSeq(r, key) {
        var i :| 0 <= i < |r| && MapSeq(r, key)[i] == k;
        assert r[i] in s;
        var j :| 0 <= j < |s| && s[j] == r[i];
        assert MapSeq(s, key)[j] == k;
      }
    }
    forall k ensures k in MapSeq(s, key) ==> k in MapSeq(r, key) {
      if k in MapSeq(s, key) {
        var i :| 0 <= i < |s| && MapSeq(s, key)[i] == k;
        assert s[i] in r;
        var j :| 0 <= j < |r| && r[j] == s[i];
        assert MapSeq(r, key)[j] == k;
      }
    }
  }
}
