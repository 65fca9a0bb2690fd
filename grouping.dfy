/** The keyed accumulator that every aggregation in the dashboard builds: a JavaScript
    `Map` or plain object from a key to an accumulator, created the first time a key
    is met and updated by every element mapped to it. `keys` is the insertion order in
    which the `Map` (or the object) is iterated afterwards. */
module Grouping {
  import opened Seqs

  datatype Groups<K, A> = Groups(keys: seq<K>, m: map<K, A>)

  /** The elements whose key is k, in their original order. */
  function Select<T, K(==)>(xs: seq<T>, key: T -> K, k: K): (r: seq<T>)
    ensures |r| <= |xs|
  {
    if xs == [] then []
    else if key(Last(xs)) == k then Select(Init(xs), key, k) + [Last(xs)]
    else Select(Init(xs), key, k)
  }

  function LeftFold<T, A>(xs: seq<T>, init: A, step: (A, T) -> A): A
  {
    if xs == [] then init else step(LeftFold(Init(xs), init, step), Last(xs))
  }

  /** The loop `for x of xs { k = key(x); if (!(k in m)) m[k] = init(k); m[k] = step(m[k], x) }`. */
  function GroupFold<T, K(==), A>(xs: seq<T>, key: T -> K, init: K -> A, step: (A, T) -> A): Groups<K, A>
  {
    if xs == [] then Groups([], map[])
    else
      var g := GroupFold(Init(xs), key, init, step);
      var k := key(Last(xs));
      var acc := if k in g.m then g.m[k] else init(k);
      Groups(if k in g.m then g.keys else g.keys + [k], g.m[k := step(acc, Last(xs))])
  }

  /** One step of the loop, as the imperative code writes it. */
  lemma GroupFoldStep<T, K, A>(xs: seq<T>, x: T, key: T -> K, init: K -> A, step: (A, T) -> A)
    ensures var g := GroupFold(xs, key, init, step);
            var k := key(x);
            var acc := if k in g.m then g.m[k] else init(k);
            GroupFold(xs + [x], key, init, step)
              == Groups(if k in g.m then g.keys else g.keys + [k], g.m[k := step(acc, x)])
  {
    InitOfSnoc(xs, x);
  }

  /** Everything the loop promises: one entry per key that occurs, keys in order of first
      occurrence, and each accumulator is the fold over exactly the elements with that key. */
  lemma {:induction false} GroupFoldSpec<T, K, A>(xs: seq<T>, key: T -> K, init: K -> A, step: (A, T) -> A)
    ensures var g := GroupFold(xs, key, init, step);
            && g.keys == Dedup(MapSeq(xs, key))
            && NoDup(g.keys)
            && (forall k :: k in g.m <==> k in g.keys)
            && (forall k :: k in g.m <==> k in MapSeq(xs, key))
            && (forall k :: k in g.m ==> g.m[k] == LeftFold(Select(xs, key, k), init(k), step))
    decreases |xs|
  {
    var g := GroupFold(xs, key, init, step);
    if xs == [] {
      assert Dedup(MapSeq(xs, key)) == [];
    } else {
      GroupFoldSpec(Init(xs), key, init, step);
      var g0 := GroupFold(Init(xs), key, init, step);
      var x := Last(xs);
      assert MapSeq(xs, key) == MapSeq(Init(xs), key) + [key(x)];
      InitOfSnoc(MapSeq(Init(xs), key), key(x));
      DedupSpec(MapSeq(xs, key));
      forall k | k in g.m
        ensures g.m[k] == LeftFold(Select(xs, key, k), init(k), step)
      {
        if k == key(x) {
          InitOfSnoc(Select(Init(xs), key, k), x);
          if k !in g0.m {
            assert Select(Init(xs), key, k) == [] by {
              SelectMembers(Init(xs), key, k);
            }
          }
        }
      }
    }
  }

  lemma {:induction false} SelectMembers<T, K>(xs: seq<T>, key: T -> K, k: K)
    ensures forall x :: x in Select(xs, key, k) <==> x in xs && key(x) == k
    ensures Select(xs, key, k) != [] <==> k in MapSeq(xs, key)
    decreases |xs|
  {
    if xs != [] {
      SelectMembers(Init(xs), key, k);
      assert xs == Init(xs) + [Last(xs)];
      assert MapSeq(xs, key) == MapSeq(Init(xs), key) + [key(Last(xs))];
    }
  }

  lemma {:induction false} SelectAppend<T, K>(a: seq<T>, b: seq<T>, key: T -> K, k: K)
    ensures Select(a + b, key, k) == Select(a, key, k) + Select(b, key, k)
    decreases |b|
  {
    if b == [] {
      assert a + b == a;
    } else {
      assert Init(a + b) == a + Init(b);
      assert Last(a + b) == Last(b);
      SelectAppend(a, Init(b), key, k);
    }
  }

  /** The accumulators in iteration order: `Array.from(map.values())` / `Object.values(obj)`. */
  function Values<K, A>(g: Groups<K, A>): (r: seq<A>)
    ensures (forall k :: k in g.keys ==> k in g.m) ==>
              |r| == |g.keys| && forall i :: 0 <= i < |r| ==> r[i] == g.m[g.keys[i]]
    decreases |g.keys|
  {
    if g.keys == [] then []
    else
      var front := Values(Groups(Init(g.keys), g.m));
      assert forall k :: k in Init(g.keys) ==> k in g.keys;
      if Last(g.keys) in g.m then front + [g.m[Last(g.keys)]] else front
  }

  /** The same loop continued from an accumulator state g that earlier elements left. */
  function GroupFoldFrom<T, K(==), A>(g: Groups<K, A>, xs: seq<T>, key: T -> K, init: K -> A, step: (A, T) -> A): Groups<K, A>
  {
    if xs == [] then g
    else
      var g0 := GroupFoldFrom(g, Init(xs), key, init, step);
      var k := key(Last(xs));
      var acc := if k in g0.m then g0.m[k] else init(k);
      Groups(if k in g0.m then g0.keys else g0.keys + [k], g0.m[k := step(acc, Last(xs))])
  }

  lemma {:induction false} GroupFoldFromEmpty<T, K, A>(xs: seq<T>, key: T -> K, init: K -> A, step: (A, T) -> A)
    ensures GroupFoldFrom(Groups([], map[]), xs, key, init, step) == GroupFold(xs, key, init, step)
    decreases |xs|
  {
    if xs != [] {
      GroupFoldFromEmpty(Init(xs), key, init, step);
    }
  }

  /** Folding a concatenation is folding its second part from where the first left off. */
  lemma {:induction false} GroupFoldFromAppend<T, K, A>(g: Groups<K, A>, xs: seq<T>, ys: seq<T>, key: T -> K, init: K -> A, step: (A, T) -> A)
    ensures GroupFoldFrom(g, xs + ys, key, init, step)
         == GroupFoldFrom(GroupFoldFrom(g, xs, key, init, step), ys, key, init, step)
    decreases |ys|
  {
    if ys == [] {
      assert xs + ys == xs;
    } else {
      assert Init(xs + ys) == xs + Init(ys);
      assert Last(xs + ys) == Last(ys);
      GroupFoldFromAppend(g, xs, Init(ys), key, init, step);
    }
  }

  /** A fold whose step ignores what it accumulated is the step on the last element. */
  lemma LeftFoldOverwrite<T, A>(xs: seq<T>, init: A, step: (A, T) -> A, put: T -> A)
    requires xs != []
    requires forall a, x :: step(a, x) == put(x)
    ensures LeftFold(xs, init, step) == put(Last(xs))
  {
  }

  /** Sum over the keys of f summed over the elements carrying that key. */
  function SumPerKeyNat<T, K(==)>(keys: seq<K>, xs: seq<T>, key: T -> K, f: T -> nat): nat
  {
    if keys == [] then 0 else SumPerKeyNat(Init(keys), xs, key, f) + SumNat(Select(xs, key, Last(keys)), f)
  }

  function SumPerKeyReal<T, K(==)>(keys: seq<K>, xs: seq<T>, key: T -> K, f: T -> real): real
  {
    if keys == [] then 0.0 else SumPerKeyReal(Init(keys), xs, key, f) + SumReal(Select(xs, key, Last(keys)), f)
  }

  /** Conservation: when every element's key is listed exactly once, the per-key sums
      add up to the sum over all elements (nothing dropped, nothing counted twice). */
  lemma {:induction false} SumPerKeyNatConserves<T, K>(keys: seq<K>, xs: seq<T>, key: T -> K, f: T -> nat)
    requires NoDup(keys)
    requires forall x :: x in xs ==> key(x) in keys
    ensures SumPerKeyNat(keys, xs, key, f) == SumNat(xs, f)
    decreases |xs|
  {
    if xs == [] {
      SumPerKeyNatEmpty(keys, xs, key, f);
    } else {
      var x := Last(xs);
      assert xs == Init(xs) + [x];
      SumPerKeyNatConserves(keys, Init(xs), key, f);
      SumPerKeyNatSnoc(keys, Init(xs), x, key, f);
    }
  }

  lemma {:induction false} SumPerKeyNatEmpty<T, K>(keys: seq<K>, xs: seq<T>, key: T -> K, f: T -> nat)
    requires xs == []
    ensures SumPerKeyNat(keys, xs, key, f) == 0
    decreases |keys|
  {
    if keys != [] {
      SumPerKeyNatEmpty(Init(keys), xs, key, f);
    }
  }

  lemma {:induction false} SumPerKeyNatSnoc<T, K>(keys: seq<K>, xs: seq<T>, x: T, key: T -> K, f: T -> nat)
    requires NoDup(keys)
    ensures SumPerKeyNat(keys, xs + [x], key, f)
         == SumPerKeyNat(keys, xs, key, f) + (if key(x) in keys then f(x) else 0)
    decreases |keys|
  {
    if keys != [] {
      var k := Last(keys);
      assert keys == Init(keys) + [k];
      SumPerKeyNatSnoc(Init(keys), xs, x, key, f);
      InitOfSnoc(xs, x);
      if key(x) == k {
        InitOfSnoc(Select(xs, key, k), x);
        assert key(x) !in Init(keys);
      }
    }
  }

  lemma {:induction false} SumPerKeyRealConserves<T, K>(keys: seq<K>, xs: seq<T>, key: T -> K, f: T -> real)
    requires NoDup(keys)
    requires forall x :: x in xs ==> key(x) in keys
    ensures SumPerKeyReal(keys, xs, key, f) == SumReal(xs, f)
    decreases |xs|
  {
    if xs == [] {
      SumPerKeyRealEmpty(keys, xs, key, f);
    } else {
      var x := Last(xs);
      assert xs == Init(xs) + [x];
      SumPerKeyRealConserves(keys, Init(xs), key, f);
      SumPerKeyRealSnoc(keys, Init(xs), x, key, f);
    }
  }

  lemma {:induction false} SumPerKeyRealEmpty<T, K>(keys: seq<K>, xs: seq<T>, key: T -> K, f: T -> real)
    requires xs == []
    ensures SumPerKeyReal(keys, xs, key, f) == 0.0
    decreases |keys|
  {
    if keys != [] {
      SumPerKeyRealEmpty(Init(keys), xs, key, f);
    }
  }

  lemma {:induction false} SumPerKeyRealSnoc<T, K>(keys: seq<K>, xs: seq<T>, x: T, key: T -> K, f: T -> real)
    requires NoDup(keys)
    ensures SumPerKeyReal(keys, xs + [x], key, f)
         == SumPerKeyReal(keys, xs, key, f) + (if key(x) in keys then f(x) else 0.0)
    decreases |keys|
  {
    if keys != [] {
      var k := Last(keys);
      assert keys == Init(keys) + [k];
      SumPerKeyRealSnoc(Init(keys), xs, x, key, f);
      InitOfSnoc(xs, x);
      if key(x) == k {
        InitOfSnoc(Select(xs, key, k), x);
        assert key(x) !in Init(keys);
      }
    }
  }

  /** The per-key figures, read off the accumulators through F and h, add up to the
      per-key sums over the elements. */
  lemma {:induction false} SumValuesNat<T, K, A, B>(ks: seq<K>, m: map<K, A>, F: A -> B, h: B -> nat,
                                                    xs: seq<T>, key: T -> K, f: T -> nat)
    requires forall k :: k in ks ==> k in m && h(F(m[k])) == SumNat(Select(xs, key, k), f)
    ensures SumNat(MapSeq(Values(Groups(ks, m)), F), h) == SumPerKeyNat(ks, xs, key, f)
    decreases |ks|
  {
    if ks != [] {
      assert forall k :: k in Init(ks) ==> k in ks;
      SumValuesNat(Init(ks), m, F, h, xs, key, f);
      var front := Values(Groups(Init(ks), m));
      assert Values(Groups(ks, m)) == front + [m[Last(ks)]];
      InitOfSnoc(MapSeq(front, F), F(m[Last(ks)]));
      assert MapSeq(front + [m[Last(ks)]], F) == MapSeq(front, F) + [F(m[Last(ks)])];
    }
  }

  lemma {:induction false} SumValuesReal<T, K, A, B>(ks: seq<K>, m: map<K, A>, F: A -> B, h: B -> real,
                                                     xs: seq<T>, key: T -> K, f: T -> real)
    requires forall k :: k in ks ==> k in m && h(F(m[k])) == SumReal(Select(xs, key, k), f)
    ensures SumReal(MapSeq(Values(Groups(ks, m)), F), h) == SumPerKeyReal(ks, xs, key, f)
    decreases |ks|
  {
    if ks != [] {
      assert forall k :: k in Init(ks) ==> k in ks;
      SumValuesReal(Init(ks), m, F, h, xs, key, f);
      var front := Values(Groups(Init(ks), m));
      assert Values(Groups(ks, m)) == front + [m[Last(ks)]];
      InitOfSnoc(MapSeq(front, F), F(m[Last(ks)]));
      assert MapSeq(front + [m[Last(ks)]], F) == MapSeq(front, F) + [F(m[Last(ks)])];
    }
  }

  /** The key facts alone: the keys are distinct, are exactly the map's domain, and
      every element's key is among them. */
  lemma GroupFoldKeys<T, K, A>(xs: seq<T>, key: T -> K, init: K -> A, step: (A, T) -> A)
    ensures var g := GroupFold(xs, key, init, step);
            && NoDup(g.keys)
            && (forall k :: k in g.keys ==> k in g.m)
            && forall x :: x in xs ==> key(x) in g.keys
  {
    var g := GroupFold(xs, key, init, step);
    GroupFoldSpec(xs, key, init, step);
    forall x | x in xs ensures key(x) in g.keys {
      var i :| 0 <= i < |xs| && xs[i] == x;
      assert MapSeq(xs, key)[i] == key(x);
    }
  }

  /** Over all accumulators, a figure that each accumulator holds as its elements' sum adds
      up to the sum over all elements. */
  lemma GroupedSumNat<T, K, A, B>(xs: seq<T>, key: T -> K, init: K -> A, step: (A, T) -> A,
                                  F: A -> B, h: B -> nat, f: T -> nat)
    requires var g := GroupFold(xs, key, init, step);
             forall k :: k in g.m ==> h(F(g.m[k])) == SumNat(Select(xs, key, k), f)
    ensures SumNat(MapSeq(Values(GroupFold(xs, key, init, step)), F), h) == SumNat(xs, f)
  {
    var g := GroupFold(xs, key, init, step);
    GroupFoldKeys(xs, key, init, step);
    SumValuesNat(g.keys, g.m, F, h, xs, key, f);
    SumPerKeyNatConserves(g.keys, xs, key, f);
  }

  lemma GroupedSumReal<T, K, A, B>(xs: seq<T>, key: T -> K, init: K -> A, step: (A, T) -> A,
                                   F: A -> B, h: B -> real, f: T -> real)
    requires var g := GroupFold(xs, key, init, step);
             forall k :: k in g.m ==> h(F(g.m[k])) == SumReal(Select(xs, key, k), f)
    ensures SumReal(MapSeq(Values(GroupFold(xs, key, init, step)), F), h) == SumReal(xs, f)
  {
    var g := GroupFold(xs, key, init, step);
    GroupFoldKeys(xs, key, init, step);
    SumValuesReal(g.keys, g.m, F, h, xs, key, f);
    SumPerKeyRealConserves(g.keys, xs, key, f);
  }

  /** `if (!acc[k]) acc[k] = []`: the array a key starts with. */
  function NoItems<K, T>(k: K): seq<T> { [] }

  /** `acc[k].push(x)`. */
  function Push<T>(acc: seq<T>, x: T): seq<T> { acc + [x] }

  lemma {:induction false} PushFold<T>(ys: seq<T>)
    ensures LeftFold(ys, [], Push) == ys
    decreases |ys|
  {
    if ys != [] {
      PushFold(Init(ys));
    }
  }

  /** Grouping into arrays: one array per key that occurs, keys in order of first
      occurrence, and each array holds exactly the elements with its key, in order. */
  lemma PartitionSpec<T, K>(xs: seq<T>, key: T -> K)
    ensures var g := GroupFold(xs, key, NoItems, Push);
            && g.keys == Dedup(MapSeq(xs, key))
            && NoDup(g.keys)
            && (forall k :: k in g.m <==> k in g.keys)
            && forall k :: k in g.m ==> g.m[k] == Select(xs, key, k) && g.m[k] != []
  {
    var g := GroupFold(xs, key, NoItems, Push);
    GroupFoldSpec(xs, key, NoItems, Push);
    forall k | k in g.m
      ensures g.m[k] == Select(xs, key, k) && g.m[k] != []
    {
      PushFold(Select(xs, key, k));
      SelectMembers(xs, key, k);
    }
  }

  /** Grouping where each element replaces its key's accumulator: one entry per key that
      occurs, keys in order of first occurrence, and each entry made from the last element
      with its key. */
  lemma GroupOverwriteSpec<T, K, A>(xs: seq<T>, key: T -> K, init: K -> A, step: (A, T) -> A, put: T -> A)
    requires forall a, x :: step(a, x) == put(x)
    ensures var g := GroupFold(xs, key, init, step);
            && g.keys == Dedup(MapSeq(xs, key))
            && (forall k :: k in g.m <==> k in MapSeq(xs, key))
            && forall k :: k in g.m ==> Select(xs, key, k) != [] && g.m[k] == put(Last(Select(xs, key, k)))
  {
    GroupFoldSpec(xs, key, init, step);
    forall k | k in GroupFold(xs, key, init, step).m
      ensures Select(xs, key, k) != [] && GroupFold(xs, key, init, step).m[k] == put(Last(Select(xs, key, k)))
    {
      GroupOverwriteAt(xs, key, init, step, put, k);
    }
  }

  lemma GroupOverwriteAt<T, K, A>(xs: seq<T>, key: T -> K, init: K -> A, step: (A, T) -> A, put: T -> A, k: K)
    requires forall a, x :: step(a, x) == put(x)
    requires k in GroupFold(xs, key, init, step).m
    ensures Select(xs, key, k) != [] && GroupFold(xs, key, init, step).m[k] == put(Last(Select(xs, key, k)))
  {
    GroupFoldSpec(xs, key, init, step);
    SelectMembers(xs, key, k);
    LeftFoldOverwrite(Select(xs, key, k), init(k), step, put);
  }

  /** The keyed-accumulator loop over xs, left early (ok false) at the first element on
      which the loop body throws. */
  method GroupInto<T, K, A>(xs: seq<T>, key: T -> K, init: K -> A, step: (A, T) -> A, throws: T -> bool)
    returns (ok: bool, keys: seq<K>, m: map<K, A>)
    ensures ok <==> forall i :: 0 <= i < |xs| ==> !throws(xs[i])
    ensures ok ==> Groups(keys, m) == GroupFold(xs, key, init, step)
  {
    keys, m := [], map[];
    var i := 0;
    while i < |xs|
      invariant 0 <= i <= |xs|
      invariant Groups(keys, m) == GroupFold(xs[..i], key, init, step)
      invariant forall j :: 0 <= j < i ==> !throws(xs[j])
    {
      var x := xs[i];
      if throws(x) {
        assert throws(xs[i]);
        return false, keys, m;
      }
      var k := key(x);
      GroupIntoStep(xs, i, keys, m, key, init, step);
      var acc := if k in m then m[k] else init(k);
      if k !in m {
        keys := keys + [k];
      }
      m := m[k := step(acc, x)];
      i := i + 1;
    }
    assert xs[..i] == xs;
    ok := true;
  }

  /** The loop body of `GroupInto` extends the groups of the first i elements to those of
      the first i + 1. */
  lemma GroupIntoStep<T, K, A>(xs: seq<T>, i: nat, keys: seq<K>, m: map<K, A>, key: T -> K, init: K -> A, step: (A, T) -> A)
    requires i < |xs| && Groups(keys, m) == GroupFold(xs[..i], key, init, step)
    ensures var k := key(xs[i]);
            Groups(if k in m then keys else keys + [k], m[k := step(if k in m then m[k] else init(k), xs[i])])
              == GroupFold(xs[..i + 1], key, init, step)
  {
    assert xs[..i + 1] == xs[..i] + [xs[i]];
    GroupFoldStep(xs[..i], xs[i], key, init, step);
  }
}
