/** The sort step of get_dominant_colors: the per-cluster pixel counts are
    ordered by descending frequency, and the cluster centres are reordered
    by the same permutation. The source computes that permutation once (an
    argsort of the negated counts) and gathers both arrays through it; here
    the (centre, count) pairs are sorted together, which applies one and the
    same permutation to both. The clustering that produces centres and
    counts is an input. */
module Dominant {

  /** A cluster centre truncated to integer channels. */
  datatype Color = Color(r: int, g: int, b: int)

  /** Total of a sequence of counts (the numpy sum), taken from the back so
      that a prefix grows by one element at a time. */
  function Sum(s: seq<nat>): nat
  {
    if s == [] then 0 else Sum(s[..|s| - 1]) + s[|s| - 1]
  }

  lemma {:induction false} SumConcat(a: seq<nat>, b: seq<nat>)
    ensures Sum(a + b) == Sum(a) + Sum(b)
    decreases |b|
  {
    if b != [] {
      assert (a + b)[..|a + b| - 1] == a + b[..|b| - 1];
      SumConcat(a, b[..|b| - 1]);
    } else {
      assert a + b == a;
    }
  }

  /** The sum of a prefix never exceeds the sum of a longer prefix. */
  lemma {:induction false} SumPrefixMonotone(s: seq<nat>, i: nat, j: nat)
    requires i <= j <= |s|
    ensures Sum(s[..i]) <= Sum(s[..j])
  {
    assert s[..j] == s[..i] + s[i..j];
    SumConcat(s[..i], s[i..j]);
  }

  /** Two sequences holding the same counts (in any order) have the same total. */
  lemma {:induction false} SumPermutation(a: seq<nat>, b: seq<nat>)
    requires multiset(a) == multiset(b)
    ensures Sum(a) == Sum(b)
    decreases |a|
  {
    if a == [] {
      assert |multiset(b)| == 0;
    } else {
      var x := a[|a| - 1];
      var a' := a[..|a| - 1];
      assert a == a' + [x];
      assert x in multiset(b);
      var j :| 0 <= j < |b| && b[j] == x;
      var b' := b[..j] + b[j + 1..];
      assert b == b[..j] + [x] + b[j + 1..];
      assert multiset(b') == multiset(b) - multiset{x};
      assert multiset(a') == multiset(a) - multiset{x};
      SumPermutation(a', b');
      SumConcat(b[..j] + [x], b[j + 1..]);
      SumConcat(b[..j], [x]);
      SumConcat(b[..j], b[j + 1..]);
      assert Sum([x]) == x by { assert [x][..0] == []; }
    }
  }

  /** A cluster as the clustering reports it: its centre and its pixel count. */
  type Cluster = (Color, nat)

  /** The counts of the clusters, in order, never increase. */
  predicate SortedByCount(xs: seq<Cluster>)
  {
    forall a, b :: 0 <= a < b < |xs| ==> xs[a].1 >= xs[b].1
  }

  predicate NonIncreasing(s: seq<nat>)
  {
    forall a, b :: 0 <= a < b < |s| ==> s[a] >= s[b]
  }

  /** Cluster x placed after every cluster whose count is at least x's, so
      clusters with equal counts keep their label order. */
  function Insert(x: Cluster, xs: seq<Cluster>): (r: seq<Cluster>)
    ensures |r| == |xs| + 1
  {
    if xs == [] || xs[0].1 < x.1 then [x] + xs
    else [xs[0]] + Insert(x, xs[1..])
  }

  /** An insertion adds exactly the inserted cluster. */
  lemma {:induction false} InsertMultiset(x: Cluster, xs: seq<Cluster>)
    ensures multiset(Insert(x, xs)) == multiset(xs) + multiset{x}
  {
    if xs != [] && xs[0].1 >= x.1 {
      InsertMultiset(x, xs[1..]);
      assert xs == [xs[0]] + xs[1..];
    }
  }

  /** A bound on every count survives an insertion that respects it. */
  lemma {:induction false} InsertBounded(x: Cluster, xs: seq<Cluster>, m: nat)
    requires x.1 <= m && forall j :: 0 <= j < |xs| ==> xs[j].1 <= m
    ensures forall j :: 0 <= j < |xs| + 1 ==> Insert(x, xs)[j].1 <= m
  {
    if xs != [] && xs[0].1 >= x.1 {
      InsertBounded(x, xs[1..], m);
    }
  }

  /** Inserting into a list sorted by descending count keeps it sorted. */
  lemma {:induction false} InsertSorted(x: Cluster, xs: seq<Cluster>)
    requires SortedByCount(xs)
    ensures SortedByCount(Insert(x, xs))
  {
    if xs != [] && xs[0].1 >= x.1 {
      var rest := xs[1..];
      InsertSorted(x, rest);
      InsertBounded(x, rest, xs[0].1);
    }
  }

  /** The first n clusters sorted by descending count: each label in turn is
      inserted into the labels already sorted. */
  function SortPrefix(xs: seq<Cluster>, n: nat): (r: seq<Cluster>)
    requires n <= |xs|
    ensures |r| == n
  {
    if n == 0 then [] else Insert(xs[n - 1], SortPrefix(xs, n - 1))
  }

  lemma TakeSnoc<T>(s: seq<T>, n: nat)
    requires 0 < n <= |s|
    ensures multiset(s[..n]) == multiset(s[..n - 1]) + multiset{s[n - 1]}
  {
    assert s[..n] == s[..n - 1] + [s[n - 1]];
  }

  /** Sorting permutes the clusters: none is lost, none is duplicated. */
  lemma {:induction false} SortPrefixPermutes(xs: seq<Cluster>, n: nat)
    requires n <= |xs|
    ensures multiset(SortPrefix(xs, n)) == multiset(xs[..n])
  {
    if n > 0 {
      calc {
        multiset(SortPrefix(xs, n));
        multiset(Insert(xs[n - 1], SortPrefix(xs, n - 1)));
        { InsertMultiset(xs[n - 1], SortPrefix(xs, n - 1)); }
        multiset(SortPrefix(xs, n - 1)) + multiset{xs[n - 1]};
        { SortPrefixPermutes(xs, n - 1); }
        multiset(xs[..n - 1]) + multiset{xs[n - 1]};
        { TakeSnoc(xs, n); }
        multiset(xs[..n]);
      }
    }
  }

  /** Sorting orders the clusters by non-increasing count. */
  lemma {:induction false} SortPrefixSorted(xs: seq<Cluster>, n: nat)
    requires n <= |xs|
    ensures SortedByCount(SortPrefix(xs, n))
  {
    if n > 0 {
      SortPrefixSorted(xs, n - 1);
      InsertSorted(xs[n - 1], SortPrefix(xs, n - 1));
    }
  }

  /** The (centre, count) pairs the clustering reports, label by label. */
  function Zip(colors: seq<Color>, counts: seq<nat>): (r: seq<Cluster>)
    requires |colors| == |counts|
    ensures |r| == |colors|
    ensures forall j {:trigger r[j]} :: 0 <= j < |r| ==> r[j] == (colors[j], counts[j])
  {
    seq(|colors|, j requires 0 <= j < |colors| => (colors[j], counts[j]))
  }

  /** The centres of a list of clusters (the gather of the colours). */
  function Colors(xs: seq<Cluster>): (r: seq<Color>)
    ensures |r| == |xs|
    ensures forall j {:trigger r[j]} :: 0 <= j < |r| ==> r[j] == xs[j].0
  {
    seq(|xs|, j requires 0 <= j < |xs| => xs[j].0)
  }

  /** The counts of a list of clusters (the gather of the counts). */
  function Counts(xs: seq<Cluster>): (r: seq<nat>)
    ensures |r| == |xs|
    ensures forall j {:trigger r[j]} :: 0 <= j < |r| ==> r[j] == xs[j].1
  {
    if xs == [] then [] else [xs[0].1] + Counts(xs[1..])
  }

  lemma CountsCons(x: Cluster, xs: seq<Cluster>)
    ensures Counts([x] + xs) == [x.1] + Counts(xs)
  {
    assert ([x] + xs)[1..] == xs;
  }

  /** The counts of an insertion are the old counts plus the inserted one. */
  lemma {:induction false} CountsInsert(x: Cluster, xs: seq<Cluster>)
    ensures multiset(Counts(Insert(x, xs))) == multiset(Counts(xs)) + multiset{x.1}
  {
    if xs == [] || xs[0].1 < x.1 {
      CountsCons(x, xs);
    } else {
      CountsInsert(x, xs[1..]);
      CountsCons(xs[0], Insert(x, xs[1..]));
      CountsCons(xs[0], xs[1..]);
      assert xs == [xs[0]] + xs[1..];
    }
  }

  lemma {:induction false} CountsSortPrefix(xs: seq<Cluster>, n: nat)
    requires n <= |xs|
    ensures multiset(Counts(SortPrefix(xs, n))) == multiset(Counts(xs)[..n])
  {
    if n > 0 {
      calc {
        multiset(Counts(SortPrefix(xs, n)));
        { CountsInsert(xs[n - 1], SortPrefix(xs, n - 1)); }
        multiset(Counts(SortPrefix(xs, n - 1))) + multiset{xs[n - 1].1};
        { CountsSortPrefix(xs, n - 1); }
        multiset(Counts(xs)[..n - 1]) + multiset{Counts(xs)[n - 1]};
        { TakeSnoc(Counts(xs), n); }
        multiset(Counts(xs)[..n]);
      }
    }
  }

  /** Sorts the clusters by descending pixel count, applying one permutation
      to the centres and the counts: the counts come out non-increasing, the
      output pairs are a permutation of the input pairs (each centre keeps its
      own count), and the counts, hence their total, are unchanged. */
  function SortByFrequency(colors: seq<Color>, counts: seq<nat>): (r: (seq<Color>, seq<nat>))
    requires |colors| == |counts|
    ensures |r.0| == |r.1| == |counts|
    ensures NonIncreasing(r.1)
    ensures multiset(Zip(r.0, r.1)) == multiset(Zip(colors, counts))
    ensures multiset(r.1) == multiset(counts)
    ensures Sum(r.1) == Sum(counts)
  {
    var pairs := Zip(colors, counts);
    var sorted := SortPrefix(pairs, |pairs|);
    SortPrefixSorted(pairs, |pairs|);
    SortPrefixPermutes(pairs, |pairs|);
    CountsSortPrefix(pairs, |pairs|);
    assert pairs[..|pairs|] == pairs;
    assert Zip(Colors(sorted), Counts(sorted)) == sorted;
    assert Counts(pairs)[..|pairs|] == counts;
    SumPermutation(Counts(sorted), counts);
    (Colors(sorted), Counts(sorted))
  }
}
