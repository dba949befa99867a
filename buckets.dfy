/**
 * What `getYearCommits` computes from the commits it manages to retrieve:
 * the total and three histograms (by month, weekday and hour). Each commit
 * adds one to exactly one slot of each histogram, so every histogram sums to
 * the total.
 */
module Buckets {
  import opened Records

  /** How many of `ks` equal `v`. */
  function Count(ks: seq<nat>, v: nat): nat {
    if ks == [] then 0
    else Count(ks[..|ks| - 1], v) + (if ks[|ks| - 1] == v then 1 else 0)
  }

  /** Appending one key adds one to its own count and nothing to the others:
      the effect of `counts[key]++`. */
  lemma CountAppend(ks: seq<nat>, k: nat, v: nat)
    ensures Count(ks + [k], v) == Count(ks, v) + (if k == v then 1 else 0)
  {
    assert (ks + [k])[..|ks|] == ks;
  }

  /** Sum of a sequence of counts (the reduce the charts and this model use). */
  function Sum(s: seq<nat>): nat {
    if s == [] then 0 else Sum(s[..|s| - 1]) + s[|s| - 1]
  }

  /** The histogram of `ks` over the slots `0 .. n-1`. */
  function Histogram(ks: seq<nat>, n: nat): (h: seq<nat>)
    ensures |h| == n
    ensures forall v :: 0 <= v < n ==> h[v] == Count(ks, v)
  {
    seq(n, (v: nat) => Count(ks, v))
  }

  /** One more key `k` adds one to slot `k` and leaves the other slots alone:
      `counts[k]++` on the histogram. */
  lemma HistogramSnoc(ks: seq<nat>, k: nat, n: nat)
    requires k < n
    ensures Histogram(ks + [k], n) == Histogram(ks, n)[k := Histogram(ks, n)[k] + 1]
  {
    forall v | 0 <= v < n
      ensures Histogram(ks + [k], n)[v] == Histogram(ks, n)[k := Histogram(ks, n)[k] + 1][v]
    {
      CountAppend(ks, k, v);
    }
  }

  /** The keys below `n` in `ks`. */
  function Below(ks: seq<nat>, n: nat): nat {
    if ks == [] then 0
    else Below(ks[..|ks| - 1], n) + (if ks[|ks| - 1] < n then 1 else 0)
  }

  /** Summing the first `n` slots of a histogram counts the keys below `n`. */
  lemma {:induction false} HistogramPrefixSum(ks: seq<nat>, n: nat)
    ensures Sum(Histogram(ks, n)) == Below(ks, n)
  {
    if n == 0 {
      BelowZero(ks);
    } else {
      HistogramPrefixSum(ks, n - 1);
      assert Histogram(ks, n)[..n - 1] == Histogram(ks, n - 1);
      BelowStep(ks, n - 1);
    }
  }

  lemma {:induction false} BelowZero(ks: seq<nat>)
    ensures Below(ks, 0) == 0
  {
    if ks != [] {
      BelowZero(ks[..|ks| - 1]);
    }
  }

  lemma {:induction false} BelowStep(ks: seq<nat>, n: nat)
    ensures Below(ks, n + 1) == Below(ks, n) + Count(ks, n)
  {
    if ks != [] {
      BelowStep(ks[..|ks| - 1], n);
    }
  }

  /** When every key lies in `0 .. n-1`, the histogram sums to the number of keys. */
  lemma {:induction false} HistogramSum(ks: seq<nat>, n: nat)
    requires forall k :: 0 <= k < |ks| ==> ks[k] < n
    ensures Sum(Histogram(ks, n)) == |ks|
  {
    HistogramPrefixSum(ks, n);
    AllBelow(ks, n);
  }

  lemma {:induction false} AllBelow(ks: seq<nat>, n: nat)
    requires forall k :: 0 <= k < |ks| ==> ks[k] < n
    ensures Below(ks, n) == |ks|
  {
    if ks != [] {
      AllBelow(ks[..|ks| - 1], n);
    }
  }

  /** The month, weekday and hour of each commit. */
  function Months(cs: seq<RawCommit>): (ks: seq<nat>)
    ensures |ks| == |cs| && forall k :: 0 <= k < |ks| ==> ks[k] < 12
  {
    seq(|cs|, k requires 0 <= k < |cs| => cs[k].authorDate.month as nat)
  }

  function Weekdays(cs: seq<RawCommit>): (ks: seq<nat>)
    ensures |ks| == |cs| && forall k :: 0 <= k < |ks| ==> ks[k] < 7
  {
    seq(|cs|, k requires 0 <= k < |cs| => cs[k].authorDate.weekday as nat)
  }

  function Hours(cs: seq<RawCommit>): (ks: seq<nat>)
    ensures |ks| == |cs| && forall k :: 0 <= k < |ks| ==> ks[k] < 24
  {
    seq(|cs|, k requires 0 <= k < |cs| => cs[k].authorDate.hour as nat)
  }

  /** The buckets of a list of retrieved commits: the total is their number and
      slot `v` of each histogram counts the commits whose month (weekday, hour)
      is `v`. */
  function Bucketize(cs: seq<RawCommit>): CommitBuckets {
    CommitBuckets(|cs|, Histogram(Months(cs), 12), Histogram(Weekdays(cs), 7), Histogram(Hours(cs), 24))
  }

  /** The bucket invariant: 12, 7 and 24 slots, each histogram summing to the total. */
  predicate WellFormed(b: CommitBuckets) {
    && |b.byMonth| == 12 && |b.byDay| == 7 && |b.byHour| == 24
    && Sum(b.byMonth) == b.total && Sum(b.byDay) == b.total && Sum(b.byHour) == b.total
  }

  /** Every set of buckets built from retrieved commits keeps the invariant. */
  lemma BucketizeWellFormed(cs: seq<RawCommit>)
    ensures WellFormed(Bucketize(cs))
  {
    HistogramSum(Months(cs), 12);
    HistogramSum(Weekdays(cs), 7);
    HistogramSum(Hours(cs), 24);
  }

  /** The buckets of a longer list are the buckets of its prefix with one more
      commit counted in each dimension: what the loop body does per commit. */
  lemma BucketizeAppend(cs: seq<RawCommit>, c: RawCommit)
    ensures Months(cs + [c]) == Months(cs) + [c.authorDate.month as nat]
    ensures Weekdays(cs + [c]) == Weekdays(cs) + [c.authorDate.weekday as nat]
    ensures Hours(cs + [c]) == Hours(cs) + [c.authorDate.hour as nat]
  {
  }
}
