/** Tallies of how often each key occurs, as the dashboard builds them with
    `acc[k] = (acc[k] || 0) + 1`, and the key that a stable sort of those tallies by
    descending count puts first: the most frequent key, the first-seen one among ties. */
module Counting {
  import opened Seqs
  import opened Grouping
  import opened Sorting

  /** One `[key, count]` entry of a tally object. */
  datatype Tally<K> = Tally(key: K, count: nat)

  function NewTally<K>(k: K): Tally<K> { Tally(k, 0) }

  function Bump<K, T>(t: Tally<K>, x: T): Tally<K> { Tally(t.key, t.count + 1) }

  function CountOf<K>(t: Tally<K>): real { t.count as real }

  /** How many elements carry key k. */
  function Occurrences<T, K(==)>(xs: seq<T>, key: T -> K, k: K): nat
  {
    |Select(xs, key, k)|
  }

  /** `Object.entries(tally)`, in the order the keys were first met. */
  function Tallies<T, K(==)>(xs: seq<T>, key: T -> K): seq<Tally<K>>
  {
    Values(GroupFold(xs, key, NewTally, Bump))
  }

  /** `Object.entries(tally).sort(([, a], [, b]) => b - a)[0]?.[0] || fallback`. */
  function MostFrequent<T, K(==)>(xs: seq<T>, key: T -> K, fallback: K): K
  {
    var ts := Tallies(xs, key);
    if ts == [] then fallback else SortDesc(ts, CountOf)[0].key
  }

  lemma {:induction false} TallyFold<T, K>(ys: seq<T>, k: K)
    ensures LeftFold(ys, NewTally(k), Bump) == Tally(k, |ys|)
    decreases |ys|
  {
    if ys != [] {
      TallyFold(Init(ys), k);
    }
  }

  /** One tally per key that occurs, in order of first occurrence, holding that key's
      number of occurrences. */
  lemma TalliesSpec<T, K>(xs: seq<T>, key: T -> K)
    ensures var ks := Dedup(MapSeq(xs, key));
            var ts := Tallies(xs, key);
            && |ts| == |ks|
            && forall i :: 0 <= i < |ts| ==> ts[i] == Tally(ks[i], Occurrences(xs, key, ks[i]))
  {
    var g := GroupFold(xs, key, NewTally, Bump);
    GroupFoldSpec(xs, key, NewTally, Bump);
    var ts := Values(g);
    forall i | 0 <= i < |ts|
      ensures ts[i] == Tally(g.keys[i], Occurrences(xs, key, g.keys[i]))
    {
      TallyFold(Select(xs, key, g.keys[i]), g.keys[i]);
    }
  }

  /** The most frequent key: it occurs, no key occurs more often, and among the keys
      that occur just as often it is the first to appear (the fallback only for no
      elements at all). */
  lemma MostFrequentSpec<T, K>(xs: seq<T>, key: T -> K, fallback: K)
    ensures xs == [] ==> MostFrequent(xs, key, fallback) == fallback
    ensures xs != [] ==>
              var r := MostFrequent(xs, key, fallback);
              && r in MapSeq(xs, key)
              && (forall j :: 0 <= j < |xs| ==> Occurrences(xs, key, key(xs[j])) <= Occurrences(xs, key, r))
              && (forall j :: 0 <= j < |xs| && Occurrences(xs, key, key(xs[j])) == Occurrences(xs, key, r) ==>
                    exists i :: 0 <= i <= j && key(xs[i]) == r)
  {
    var ks := Dedup(MapSeq(xs, key));
    var ts := Tallies(xs, key);
    TalliesSpec(xs, key);
    DedupSpec(MapSeq(xs, key));
    if xs == [] {
      assert ks == [];
    } else {
      assert MapSeq(xs, key)[0] in ks;
      var p := FirstMaxIndex(ts, CountOf);
      SortDescHeadIsFirstMax(ts, CountOf);
      var r := ks[p];
      assert MostFrequent(xs, key, fallback) == r;
      forall j | 0 <= j < |xs|
        ensures Occurrences(xs, key, key(xs[j])) <= Occurrences(xs, key, r)
        ensures Occurrences(xs, key, key(xs[j])) == Occurrences(xs, key, r) ==>
                  exists i :: 0 <= i <= j && key(xs[i]) == r
      {
        assert MapSeq(xs, key)[j] == key(xs[j]);
        assert key(xs[j]) in ks;
        var q :| 0 <= q < |ks| && ks[q] == key(xs[j]);
        assert CountOf(ts[q]) <= CountOf(ts[p]);
        if Occurrences(xs, key, key(xs[j])) == Occurrences(xs, key, r) {
          assert CountOf(ts[q]) == CountOf(ts[p]);
          DedupFirstSeen(MapSeq(xs, key), p, q, j);
          var i :| 0 <= i <= j && MapSeq(xs, key)[i] == r;
          assert key(xs[i]) == r;
        }
      }
    }
  }
}
