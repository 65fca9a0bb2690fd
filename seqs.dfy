/** Sequence helpers shared by every aggregation: optional values that JavaScript's
    `x || 0` collapses to zero, sums, filters, and the insertion-ordered duplicate-free
    union that a JavaScript `Set` keeps. Every recursive definition peels off the LAST
    element, so each one is literally the left fold that a `forEach`/`reduce` performs. */
module Seqs {

  datatype Option<T> = None | Some(value: T)

  /** `x || 0` on an optional count: absent (and 0) give 0. */
  function Or0(o: Option<nat>): nat
  {
    match o
    case Some(v) => v
    case None => 0
  }

  /** `x || 0` on an optional amount of money. */
  function Or0Real(o: Option<real>): real
  {
    match o
    case Some(v) => v
    case None => 0.0
  }

  function Last<T>(xs: seq<T>): T
    requires xs != []
  {
    xs[|xs| - 1]
  }

  function Init<T>(xs: seq<T>): seq<T>
    requires xs != []
  {
    xs[..|xs| - 1]
  }

  lemma InitOfSnoc<T>(xs: seq<T>, x: T)
    ensures Init(xs + [x]) == xs && Last(xs + [x]) == x
  {
    assert (xs + [x])[..|xs|] == xs;
  }

  /** `xs.reduce((sum, x) => sum + f(x), 0)` over natural numbers. */
  function SumNat<T>(xs: seq<T>, f: T -> nat): nat
  {
    if xs == [] then 0 else SumNat(Init(xs), f) + f(Last(xs))
  }

  /** `xs.reduce((sum, x) => sum + f(x), 0)` over exact reals. */
  function SumReal<T>(xs: seq<T>, f: T -> real): real
  {
    if xs == [] then 0.0 else SumReal(Init(xs), f) + f(Last(xs))
  }

  lemma {:induction false} SumNatAppend<T>(a: seq<T>, b: seq<T>, f: T -> nat)
    ensures SumNat(a + b, f) == SumNat(a, f) + SumNat(b, f)
    decreases |b|
  {
    if b == [] {
      assert a + b == a;
    } else {
      assert Init(a + b) == a + Init(b);
      assert Last(a + b) == Last(b);
      SumNatAppend(a, Init(b), f);
    }
  }

  lemma {:induction false} SumRealAppend<T>(a: seq<T>, b: seq<T>, f: T -> real)
    ensures SumReal(a + b, f) == SumReal(a, f) + SumReal(b, f)
    decreases |b|
  {
    if b == [] {
      assert a + b == a;
    } else {
      assert Init(a + b) == a + Init(b);
      assert Last(a + b) == Last(b);
      SumRealAppend(a, Init(b), f);
    }
  }

  /** `xs.filter(p)`: the elements satisfying p, in their original order. */
  function Filter<T>(xs: seq<T>, p: T -> bool): (r: seq<T>)
    ensures |r| <= |xs|
  {
    if xs == [] then []
    else if p(Last(xs)) then Filter(Init(xs), p) + [Last(xs)]
    else Filter(Init(xs), p)
  }

  lemma {:induction false} FilterAppend<T>(a: seq<T>, b: seq<T>, p: T -> bool)
    ensures Filter(a + b, p) == Filter(a, p) + Filter(b, p)
    decreases |b|
  {
    if b == [] {
      assert a + b == a;
    } else {
      assert Init(a + b) == a + Init(b);
      assert Last(a + b) == Last(b);
      FilterAppend(a, Init(b), p);
    }
  }

  lemma {:induction false} FilterMembers<T>(xs: seq<T>, p: T -> bool)
    ensures forall x :: x in Filter(xs, p) <==> x in xs && p(x)
    decreases |xs|
  {
    if xs != [] {
      FilterMembers(Init(xs), p);
      assert xs == Init(xs) + [Last(xs)];
    }
  }

  /** Filtering with a weaker predicate keeps at least as many elements and at least
      as large a sum. */
  lemma {:induction false} FilterWeaker<T>(xs: seq<T>, p: T -> bool, q: T -> bool, f: T -> nat)
    requires forall x :: p(x) ==> q(x)
    ensures |Filter(xs, p)| <= |Filter(xs, q)|
    ensures SumNat(Filter(xs, p), f) <= SumNat(Filter(xs, q), f)
    decreases |xs|
  {
    if xs != [] {
      FilterWeaker(Init(xs), p, q, f);
      var fp, fq := Filter(Init(xs), p), Filter(Init(xs), q);
      if p(Last(xs)) {
        InitOfSnoc(fp, Last(xs));
        InitOfSnoc(fq, Last(xs));
      } else if q(Last(xs)) {
        InitOfSnoc(fq, Last(xs));
      }
    }
  }

  lemma {:induction false} FilterSumBound<T>(xs: seq<T>, p: T -> bool, f: T -> nat)
    ensures SumNat(Filter(xs, p), f) <= SumNat(xs, f)
    decreases |xs|
  {
    if xs != [] {
      FilterSumBound(Init(xs), p, f);
      if p(Last(xs)) {
        InitOfSnoc(Filter(Init(xs), p), Last(xs));
      }
    }
  }

  /** Dropping only elements whose figure is 0 keeps the sum. */
  lemma {:induction false} FilterKeepsSum<T>(xs: seq<T>, p: T -> bool, f: T -> nat)
    requires forall x :: !p(x) ==> f(x) == 0
    ensures SumNat(Filter(xs, p), f) == SumNat(xs, f)
    decreases |xs|
  {
    if xs != [] {
      FilterKeepsSum(Init(xs), p, f);
      if p(Last(xs)) {
        InitOfSnoc(Filter(Init(xs), p), Last(xs));
      }
    }
  }

  /** `xs.map(f)`. */
  function MapSeq<T, U>(xs: seq<T>, f: T -> U): (r: seq<U>)
    ensures |r| == |xs| && forall i :: 0 <= i < |xs| ==> r[i] == f(xs[i])
  {
    if xs == [] then [] else MapSeq(Init(xs), f) + [f(Last(xs))]
  }

  lemma MapSeqAppend<T, U>(a: seq<T>, b: seq<T>, f: T -> U)
    ensures MapSeq(a + b, f) == MapSeq(a, f) + MapSeq(b, f)
  {
    assert forall i :: 0 <= i < |a + b| ==> (a + b)[i] == if i < |a| then a[i] else b[i - |a|];
  }

  /** `xs.map((x, index) => f(x, index))`. */
  function MapIndexed<T, U>(xs: seq<T>, f: (T, nat) -> U): (r: seq<U>)
    ensures |r| == |xs| && forall i :: 0 <= i < |xs| ==> r[i] == f(xs[i], i)
  {
    if xs == [] then [] else MapIndexed(Init(xs), f) + [f(Last(xs), |xs| - 1)]
  }

  /** What survives a filter after an indexed map: the images, at their own indices,
      that pass the test. */
  lemma FilterMapIndexedMembers<T, U>(xs: seq<T>, f: (T, nat) -> U, p: U -> bool)
    ensures forall y :: y in Filter(MapIndexed(xs, f), p) <==>
              exists i :: 0 <= i < |xs| && y == f(xs[i], i) && p(y)
  {
    var all := MapIndexed(xs, f);
    FilterMembers(all, p);
    forall y ensures y in all <==> exists i :: 0 <= i < |xs| && y == f(xs[i], i) {
      if y in all {
        var i :| 0 <= i < |all| && all[i] == y;
      }
    }
  }

  /** Counting by summing ones. */
  lemma {:induction false} SumOnes<T>(xs: seq<T>, f: T -> nat)
    requires forall x :: f(x) == 1
    ensures SumNat(xs, f) == |xs|
    decreases |xs|
  {
    if xs != [] {
      SumOnes(Init(xs), f);
    }
  }

  /** An indexed map whose images keep a figure of their source element keeps its sum. */
  lemma {:induction false} SumMapIndexedNat<T, U>(xs: seq<T>, f: (T, nat) -> U, g: U -> nat, h: T -> nat)
    requires forall x, i :: g(f(x, i)) == h(x)
    ensures SumNat(MapIndexed(xs, f), g) == SumNat(xs, h)
    decreases |xs|
  {
    if xs != [] {
      SumMapIndexedNat(Init(xs), f, g, h);
      InitOfSnoc(MapIndexed(Init(xs), f), f(Last(xs), |xs| - 1));
    }
  }

  lemma {:induction false} SumMapIndexedReal<T, U>(xs: seq<T>, f: (T, nat) -> U, g: U -> real, h: T -> real)
    requires forall x, i :: g(f(x, i)) == h(x)
    ensures SumReal(MapIndexed(xs, f), g) == SumReal(xs, h)
    decreases |xs|
  {
    if xs != [] {
      SumMapIndexedReal(Init(xs), f, g, h);
      InitOfSnoc(MapIndexed(Init(xs), f), f(Last(xs), |xs| - 1));
    }
  }

  /** A map keeps a figure that its images carry over from their sources. */
  lemma {:induction false} SumMapReal<T, U>(xs: seq<T>, f: T -> U, g: U -> real, h: T -> real)
    requires forall x :: g(f(x)) == h(x)
    ensures SumReal(MapSeq(xs, f), g) == SumReal(xs, h)
    decreases |xs|
  {
    if xs != [] {
      SumMapReal(Init(xs), f, g, h);
      InitOfSnoc(MapSeq(Init(xs), f), f(Last(xs)));
    }
  }

  /** Two filters that never both hold pick out disjoint parts, whose sums together stay
      within the whole. */
  lemma {:induction false} FilterDisjointSum<T>(xs: seq<T>, p: T -> bool, q: T -> bool, f: T -> nat)
    requires forall x :: !(p(x) && q(x))
    ensures SumNat(Filter(xs, p), f) + SumNat(Filter(xs, q), f) <= SumNat(xs, f)
    decreases |xs|
  {
    if xs != [] {
      FilterDisjointSum(Init(xs), p, q, f);
      InitOfSnoc(Filter(Init(xs), p), Last(xs));
      InitOfSnoc(Filter(Init(xs), q), Last(xs));
    }
  }

  /** Concatenation of a sequence of sequences. */
  function Flatten<T>(xss: seq<seq<T>>): seq<T>
  {
    if xss == [] then [] else Flatten(Init(xss)) + Last(xss)
  }

  lemma {:induction false} FlattenAppend<T>(a: seq<seq<T>>, b: seq<seq<T>>)
    ensures Flatten(a + b) == Flatten(a) + Flatten(b)
    decreases |b|
  {
    if b == [] {
      assert a + b == a;
    } else {
      var front, x := Init(b), Last(b);
      FlattenAppend(a, front);
      assert a + b == (a + front) + [x];
      assert b == front + [x];
      FlattenSnoc(a + front, x);
      FlattenSnoc(front, x);
    }
  }

  lemma FlattenSnoc<T>(xss: seq<seq<T>>, xs: seq<T>)
    ensures Flatten(xss + [xs]) == Flatten(xss) + xs
  {
    assert Init(xss + [xs]) == xss;
  }

  ghost predicate NoDup<T>(s: seq<T>)
  {
    forall i, j :: 0 <= i < j < |s| ==> s[i] != s[j]
  }

  /** Filtering keeps values of a projection distinct. */
  lemma {:induction false} FilterNoDup<T, U>(xs: seq<T>, p: T -> bool, f: T -> U)
    requires NoDup(MapSeq(xs, f))
    ensures NoDup(MapSeq(Filter(xs, p), f))
    decreases |xs|
  {
    if xs != [] {
      var front, x := Init(xs), Last(xs);
      assert MapSeq(xs, f) == MapSeq(front, f) + [f(x)];
      assert NoDup(MapSeq(front, f)) by {
        forall i, j | 0 <= i < j < |front| ensures MapSeq(front, f)[i] != MapSeq(front, f)[j] {
          assert MapSeq(front, f)[i] == MapSeq(xs, f)[i] && MapSeq(front, f)[j] == MapSeq(xs, f)[j];
        }
      }
      FilterNoDup(front, p, f);
      if p(x) {
        var kept := Filter(front, p);
        FilterMembers(front, p);
        InitOfSnoc(kept, x);
        assert Filter(xs, p) == kept + [x];
        assert MapSeq(kept + [x], f) == MapSeq(kept, f) + [f(x)];
        forall i | 0 <= i < |kept| ensures MapSeq(kept, f)[i] != f(x) {
          assert kept[i] in front;
          var j :| 0 <= j < |front| && front[j] == kept[i];
          assert MapSeq(xs, f)[j] == f(kept[i]);
          assert MapSeq(xs, f)[|xs| - 1] == f(x);
        }
      }
    }
  }

  /** `set.add(x)` on a JavaScript `Set`, seen as the sequence it iterates in. */
  function AddUnique<T(==)>(s: seq<T>, x: T): seq<T>
  {
    if x in s then s else s + [x]
  }

  /** `xs.forEach(x => set.add(x))`. */
  function AddAll<T(==)>(s: seq<T>, xs: seq<T>): seq<T>
  {
    if xs == [] then s else AddUnique(AddAll(s, Init(xs)), Last(xs))
  }

  /** `Array.from(new Set(xs))`: first occurrences, in order. */
  function Dedup<T(==)>(xs: seq<T>): seq<T>
  {
    AddAll([], xs)
  }

  lemma {:induction false} AddAllSpec<T>(s: seq<T>, xs: seq<T>)
    requires NoDup(s)
    ensures NoDup(AddAll(s, xs))
    ensures forall x :: x in AddAll(s, xs) <==> x in s || x in xs
    ensures |s| <= |AddAll(s, xs)| && AddAll(s, xs)[..|s|] == s
    decreases |xs|
  {
    if xs != [] {
      AddAllSpec(s, Init(xs));
      assert xs == Init(xs) + [Last(xs)];
      var r := AddAll(s, Init(xs));
      if Last(xs) !in r {
        assert (r + [Last(xs)])[..|s|] == r[..|s|];
      }
    }
  }

  lemma DedupSpec<T>(xs: seq<T>)
    ensures NoDup(Dedup(xs))
    ensures forall x :: x in Dedup(xs) <==> x in xs
  {
    AddAllSpec([], xs);
  }

  /** Folding the members of a concatenation into a set is folding them one part
      after the other. */
  lemma {:induction false} AddAllAppend<T>(s: seq<T>, a: seq<T>, b: seq<T>)
    ensures AddAll(s, a + b) == AddAll(AddAll(s, a), b)
    decreases |b|
  {
    if b == [] {
      assert a + b == a;
    } else {
      assert Init(a + b) == a + Init(b);
      assert Last(a + b) == Last(b);
      AddAllAppend(s, a, Init(b));
    }
  }

  lemma DedupMember<T>(xs: seq<T>, y: T)
    requires y in Dedup(xs)
    ensures y in xs
  {
    DedupSpec(xs);
  }

  /** The first occurrences in a prefix are the start of those in the whole. */
  lemma DedupPrefix<T>(xs: seq<T>, n: nat)
    requires n <= |xs|
    ensures |Dedup(xs[..n])| <= |Dedup(xs)| && Dedup(xs)[..|Dedup(xs[..n])|] == Dedup(xs[..n])
  {
    assert xs == xs[..n] + xs[n..];
    AddAllAppend([], xs[..n], xs[n..]);
    DedupSpec(xs[..n]);
    AddAllSpec(Dedup(xs[..n]), xs[n..]);
  }

  /** `Dedup` lists keys in order of first occurrence: the key at position p has already
      occurred wherever the key at a later position q occurs. */
  lemma DedupFirstSeen<T>(xs: seq<T>, p: nat, q: nat, j: nat)
    requires p <= q < |Dedup(xs)| && j < |xs| && xs[j] == Dedup(xs)[q]
    ensures exists i :: 0 <= i <= j && xs[i] == Dedup(xs)[p]
  {
    var ks := Dedup(xs);
    var a := xs[..j + 1];
    var da := Dedup(a);
    DedupPrefix(xs, j + 1);
    DedupSpec(a);
    DedupSpec(xs);
    assert a[j] == ks[q];
    assert ks[q] in da;
    var t :| 0 <= t < |da| && da[t] == ks[q];
    assert ks[t] == ks[q];
    assert ks[p] == da[p];
    DedupMember(a, da[p]);
    var i :| 0 <= i < |a| && a[i] == ks[p];
    assert xs[i] == ks[p];
  }
}
