/**
 * The latency histogram: one counter per bit length, and a percentile read off the counters. What it reports is
 * compared with the samples themselves, sorted.
 */
module Histogram {
  import opened Bits
  import opened Words

  const BUCKETS: nat := 1024

  /** The source's 64 - clz(x). */
  function BitLength(x: nat): (r: nat)
    ensures r == 0 <==> x == 0
  {
    if x == 0 then 0 else 1 + BitLength(x / 2)
  }

  function BucketFor(x: nat): nat {
    if BitLength(x) < BUCKETS - 1 then BitLength(x) else BUCKETS - 1
  }

  /** What percentile answers for a sample: the power of two at or below it, and 1 for the sample 0. */
  function Estimate(x: nat): nat {
    if x == 0 then 1 else Pow2(BitLength(x) - 1)
  }

  /** Within a factor of two from below; 0 counts as 1. */
  predicate Close(x: nat, r: nat) {
    x < 2 * r && (x == 0 || r <= x)
  }

  lemma {:induction false} BitLengthBounds(x: nat)
    requires x > 0
    ensures Pow2(BitLength(x) - 1) <= x < 2 * Pow2(BitLength(x) - 1)
  {
    if x > 1 {
      BitLengthBounds(x / 2);
    }
  }

  lemma {:induction false} BitLengthMonotone(x: nat, y: nat)
    requires x <= y
    ensures BitLength(x) <= BitLength(y)
  {
    if x > 0 {
      BitLengthMonotone(x / 2, y / 2);
    }
  }

  lemma {:induction false} BitLengthOfWord(x: nat, n: nat)
    requires x < Pow2(n)
    ensures BitLength(x) <= n
  {
    if x > 0 {
      BitLengthOfWord(x / 2, n - 1);
    }
  }

  /** The estimate is within a factor of two of the sample. */
  lemma {:induction false} EstimateIsClose(x: nat)
    ensures Close(x, Estimate(x))
  {
    if x > 0 {
      BitLengthBounds(x);
    }
  }

  lemma {:induction false} EstimateMonotone(x: nat, y: nat)
    requires x <= y
    ensures Estimate(x) <= Estimate(y)
  {
    if x > 0 {
      BitLengthMonotone(x, y);
      Pow2Monotone(BitLength(x) - 1, BitLength(y) - 1);
    } else if y > 0 {
      Pow2Monotone(0, BitLength(y) - 1);
    }
  }

  // ---------------------------------------------------------------- counting samples

  /** How many samples fall in buckets before i. */
  function Before(samples: seq<nat>, i: nat): (r: nat)
    ensures r <= |samples|
  {
    if samples == [] then 0
    else Before(samples[..|samples| - 1], i) + if BucketFor(samples[|samples| - 1]) < i then 1 else 0
  }

  function InBucket(samples: seq<nat>, i: nat): nat {
    if samples == [] then 0
    else InBucket(samples[..|samples| - 1], i) + if BucketFor(samples[|samples| - 1]) == i then 1 else 0
  }

  lemma {:induction false} BeforeStep(samples: seq<nat>, i: nat)
    ensures Before(samples, i + 1) == Before(samples, i) + InBucket(samples, i)
  {
    if samples != [] {
      BeforeStep(samples[..|samples| - 1], i);
    }
  }

  lemma {:induction false} BeforeNone(samples: seq<nat>)
    ensures Before(samples, 0) == 0
  {
    if samples != [] {
      BeforeNone(samples[..|samples| - 1]);
    }
  }

  lemma {:induction false} BeforeAll(samples: seq<nat>, i: nat)
    requires forall x :: x in samples ==> BucketFor(x) < i
    ensures Before(samples, i) == |samples|
  {
    if samples != [] {
      BeforeAll(samples[..|samples| - 1], i);
    }
  }

  predicate Sorted(s: seq<nat>) {
    forall i, j :: 0 <= i < j < |s| ==> s[i] <= s[j]
  }

  function Insert(x: nat, s: seq<nat>): seq<nat> {
    if s == [] || x >= s[|s| - 1] then s + [x] else Insert(x, s[..|s| - 1]) + [s[|s| - 1]]
  }

  function Sort(samples: seq<nat>): seq<nat> {
    if samples == [] then [] else Insert(samples[|samples| - 1], Sort(samples[..|samples| - 1]))
  }

  lemma {:induction false} InsertAdds(x: nat, s: seq<nat>)
    ensures |Insert(x, s)| == |s| + 1 && multiset(Insert(x, s)) == multiset(s) + multiset{x}
  {
    if s != [] && x < s[|s| - 1] {
      InsertAdds(x, s[..|s| - 1]);
      assert s == s[..|s| - 1] + [s[|s| - 1]];
    }
  }

  lemma {:induction false} InsertSorted(x: nat, s: seq<nat>)
    requires Sorted(s)
    ensures Sorted(Insert(x, s))
  {
    if s != [] && x < s[|s| - 1] {
      var r := Insert(x, s[..|s| - 1]);
      InsertSorted(x, s[..|s| - 1]);
      InsertAdds(x, s[..|s| - 1]);
      forall i | 0 <= i < |r|
        ensures r[i] <= s[|s| - 1]
      {
        assert r[i] in multiset(r);
      }
    }
  }

  lemma {:induction false} SortSorts(samples: seq<nat>)
    ensures Sorted(Sort(samples)) && |Sort(samples)| == |samples| && multiset(Sort(samples)) == multiset(samples)
  {
    if samples != [] {
      var rest, last := samples[..|samples| - 1], samples[|samples| - 1];
      assert samples == rest + [last];
      SortSorts(rest);
      InsertAdds(last, Sort(rest));
      InsertSorted(last, Sort(rest));
    }
  }

  /** In sorted samples, the k-th is the first to bring the count of its bucket and those before to k. */
  lemma {:induction false} BeforeInSorted(s: seq<nat>, i: nat, k: nat)
    requires Sorted(s) && 0 < k <= |s|
    ensures k <= Before(s, i) <==> BucketFor(s[k - 1]) < i
  {
    var last := s[|s| - 1];
    BucketMonotone(s[k - 1], last);
    if k == |s| {
      if BucketFor(last) < i {
        forall x | x in s
          ensures BucketFor(x) < i
        {
          BucketMonotone(x, last);
        }
        BeforeAll(s, i);
      }
    } else {
      BeforeInSorted(s[..|s| - 1], i, k);
      if BucketFor(last) < i {
        forall x | x in s
          ensures BucketFor(x) < i
        {
          BucketMonotone(x, last);
        }
        BeforeAll(s, i);
      }
    }
  }

  lemma {:induction false} BucketMonotone(x: nat, y: nat)
    requires x <= y
    ensures BucketFor(x) <= BucketFor(y)
  {
    BitLengthMonotone(x, y);
  }

  lemma {:induction false} BeforeInsert(x: nat, s: seq<nat>, i: nat)
    ensures Before(Insert(x, s), i) == Before(s, i) + if BucketFor(x) < i then 1 else 0
  {
    if s == [] || x >= s[|s| - 1] {
      assert (s + [x])[..|s|] == s;
    } else {
      var r := Insert(x, s[..|s| - 1]);
      BeforeInsert(x, s[..|s| - 1], i);
      assert (r + [s[|s| - 1]])[..|r|] == r;
    }
  }

  lemma {:induction false} BeforeSort(samples: seq<nat>, i: nat)
    ensures Before(Sort(samples), i) == Before(samples, i)
  {
    if samples != [] {
      BeforeSort(samples[..|samples| - 1], i);
      BeforeInsert(samples[|samples| - 1], Sort(samples[..|samples| - 1]), i);
    }
  }

  // ---------------------------------------------------------------- what percentile reports

  /** What percentile is to report, in terms of the samples alone. */
  function Report(samples: seq<nat>, target: nat): nat {
    if samples == [] || target > |samples| then 0
    else if target == 0 then 1
    else
      SortSorts(samples);
      Estimate(Sort(samples)[target - 1])
  }

  /**
   * For a rank in range and its true value x, the report r has x < 2r, and r <= x unless x is 0; rank 0 always
   * reports 1, which is that close to the least sample exactly when that is 0 or 1. Reports grow with the rank.
   */
  lemma {:induction false} ReportIsClose(samples: seq<nat>, j: nat, k: nat)
    requires samples != [] && j <= k <= |samples|
    ensures |Sort(samples)| == |samples|
    ensures var x := Sort(samples)[if k > 0 then k - 1 else 0];
      Close(x, Report(samples, k)) <==> k > 0 || x <= 1
    ensures Report(samples, j) <= Report(samples, k)
  {
    SortSorts(samples);
    EstimateIsClose(Sort(samples)[if k > 0 then k - 1 else 0]);
    EstimateMonotone(0, Sort(samples)[if k > 0 then k - 1 else 0]);
    if j > 0 {
      EstimateMonotone(Sort(samples)[j - 1], Sort(samples)[k - 1]);
    }
  }

  /** The report is the sample itself exactly when that is a power of two; 0 is not one, and 1 is reported for it. */
  lemma {:induction false} ReportIsExact(samples: seq<nat>, k: nat)
    requires 0 < k <= |samples|
    ensures |Sort(samples)| == |samples|
    ensures Report(samples, k) == Sort(samples)[k - 1] <==> PowerOfTwo(Sort(samples)[k - 1])
  {
    SortSorts(samples);
    EstimateIsExact(Sort(samples)[k - 1]);
  }

  lemma {:induction false} EstimateIsExact(x: nat)
    ensures Estimate(x) == x <==> PowerOfTwo(x)
  {
    if x > 1 {
      EstimateIsExact(x / 2);
      assert Estimate(x) == 2 * Estimate(x / 2);
    }
  }

  /** A single latency of 3 is reported as 2, and at rank 0 as 1. */
  lemma {:induction false} ThreeIsReportedAsTwo()
    ensures Sort([3]) == [3] && Report([3], 1) == 2 && Report([3], 0) == 1
  {
    assert [3][..0] == [];
    assert Sort([3]) == Insert(3, []);
    assert BitLength(3) == 2 && Pow2(1) == 2;
  }

  class LatencyHistogram {
    const buckets: array<nat>
    ghost var samples: seq<nat>

    ghost predicate Valid()
      reads this, buckets
    {
      && buckets.Length == BUCKETS
      && (forall x :: x in samples ==> x < WORD)
      && forall i :: 0 <= i < BUCKETS ==> buckets[i] == InBucket(samples, i)
    }

    constructor ()
      ensures Valid() && samples == [] && fresh(buckets) && buckets.Length == 1024
    {
      buckets := new nat[BUCKETS](_ => 0);
      samples := [];
    }

    method Record(latency: nat)
      requires Valid() && latency < WORD
      modifies this, buckets
      ensures Valid() && samples == old(samples) + [latency]
    {
      var i := BucketFor(latency);
      buckets[i] := buckets[i] + 1;
      assert (samples + [latency])[..|samples|] == samples;
      samples := samples + [latency];
    }

    method Percentile(target: nat) returns (r: nat)
      requires Valid()
      ensures r == Report(samples, target)
      ensures samples == [] || target > |samples| ==> r == 0
      ensures samples != [] && target == 0 ==> r == 1
    {
      var total := 0;
      BeforeNone(samples);
      var i := 0;
      while i < BUCKETS
        invariant i <= BUCKETS && total == Before(samples, i)
      {
        BeforeStep(samples, i);
        total := total + buckets[i];
        i := i + 1;
      }
      BeforeAll(samples, BUCKETS);
      if total == 0 {
        return 0;
      }
      var count := 0;
      i := 0;
      while i < BUCKETS
        invariant i <= BUCKETS && count == Before(samples, i)
        invariant i == 0 || count < target
      {
        BeforeStep(samples, i);
        count := count + buckets[i];
        if count >= target {
          FirstToReach(samples, i, target);
          return Pow2(if i > 0 then i - 1 else 0);
        }
        i := i + 1;
      }
      return 0;
    }
  }

  lemma EstimateOfBucket(x: nat)
    requires BitLength(x) < BUCKETS - 1
    ensures Estimate(x) == Pow2(if BucketFor(x) > 0 then BucketFor(x) - 1 else 0)
  {
  }

  lemma WordIsPow2()
    ensures Pow2(64) == WORD
  {
    hide Pow2;
    WordIs32Bits();
    Pow2Sum(32, 32);
  }

  /** The first bucket to bring the count to the rank is the bucket of the sample of that rank; it is at most 64. */
  lemma {:induction false} FirstToReach(samples: seq<nat>, i: nat, target: nat)
    requires samples != [] && forall x :: x in samples ==> x < WORD
    requires i == 0 || Before(samples, i) < target
    requires Before(samples, i + 1) >= target
    ensures Pow2(if i > 0 then i - 1 else 0) == Report(samples, target) && i <= 64
  {
    hide Pow2, Before, Sort, BitLength, Sorted;
    BeforeNone(samples);
    SortSorts(samples);
    EstimateOfBucket(0);
    if target > 0 {
      var s := Sort(samples);
      BeforeSort(samples, i);
      BeforeSort(samples, i + 1);
      BeforeInSorted(s, i, target);
      BeforeInSorted(s, i + 1, target);
      var x := s[target - 1];
      assert x in multiset(s) && x in samples;
      WordIsPow2();
      BitLengthOfWord(x, 64);
      EstimateOfBucket(x);
    }
  }
}
