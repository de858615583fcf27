/**
 * The grouped confidence of app.py: the detailed `label -> probability` dictionary is folded
 * into three buckets seeded with 0, each label's probability going to the bucket that the label's
 * main category names. A label that falls back to itself names no bucket, and the lookup
 * raises a KeyError.
 *
 * The mapping from a label to its main category is a parameter `bucketOf` here; the route passes
 * `Categories.MapToMainCategory` (see `Prediction.Predict`). Nothing below depends on how labels
 * are classified, only on which names the buckets carry.
 */
module Grouping {
  import opened Wrappers
  import opened Categories

  /** One entry of the detailed confidence, in the dictionary's iteration order. */
  type Item = (string, real)

  /** The grouped dictionary before the loop: the three category names, each at 0. */
  const Seeded: map<string, real> :=
    map[ConfirmedPlanet.Name() := 0.0, CandidatePlanet.Name() := 0.0, FalsePositive.Name() := 0.0]

  /** A label whose main category is one of the buckets. */
  predicate HasBucket(bucketOf: string -> string, name: string) {
    bucketOf(name) in CategoryNames
  }

  /** Every label of `items` has a bucket. */
  predicate AllHaveBuckets(items: seq<Item>, bucketOf: string -> string) {
    items == [] || (AllHaveBuckets(items[..|items| - 1], bucketOf) && HasBucket(bucketOf, items[|items| - 1].0))
  }

  /** The sum of the probabilities of the items whose label maps to `bucket`. */
  function BucketSum(items: seq<Item>, bucketOf: string -> string, bucket: string): real {
    if items == [] then 0.0
    else
      var last := items[|items| - 1];
      BucketSum(items[..|items| - 1], bucketOf, bucket) + (if bucketOf(last.0) == bucket then last.1 else 0.0)
  }

  /** The sum of all the probabilities. */
  function Total(items: seq<Item>): real {
    if items == [] then 0.0 else Total(items[..|items| - 1]) + items[|items| - 1].1
  }

  /** The grouped confidence of `items`: each category name with its bucket's sum. */
  function Grouped(items: seq<Item>, bucketOf: string -> string): (g: map<string, real>)
    ensures g.Keys == CategoryNames
  {
    map b | b in CategoryNames :: BucketSum(items, bucketOf, b)
  }

  /** The seeded dictionary is the grouping of no items. */
  lemma SeededIsEmptyGrouping(bucketOf: string -> string)
    ensures Grouped([], bucketOf) == Seeded
  {
  }

  /** Adding one more item to a bucket adds its probability to that bucket and to no other. */
  lemma GroupedStep(items: seq<Item>, bucketOf: string -> string, i: nat)
    requires i < |items| && HasBucket(bucketOf, items[i].0)
    ensures var g := Grouped(items[..i], bucketOf);
            var b := bucketOf(items[i].0);
            Grouped(items[..i + 1], bucketOf) == g[b := g[b] + items[i].1]
  {
    assert items[..i + 1][..i] == items[..i];
  }

  /** The `for label, prob in detailed_confidence.items()` loop: the grouped dictionary, or the
      first label that names no bucket (the key of the KeyError). */
  method GroupConfidence(detailed: seq<Item>, bucketOf: string -> string) returns (r: Result<map<string, real>, string>)
    ensures r.Success? <==> AllHaveBuckets(detailed, bucketOf)
    ensures r.Success? ==> r.value == Grouped(detailed, bucketOf)
    ensures r.Failure? ==> exists k :: 0 <= k < |detailed| && r.error == bucketOf(detailed[k].0)
                                       && !HasBucket(bucketOf, detailed[k].0)
                                       && AllHaveBuckets(detailed[..k], bucketOf)
  {
    var grouped := Seeded;
    SeededIsEmptyGrouping(bucketOf);
    for i := 0 to |detailed|
      invariant grouped == Grouped(detailed[..i], bucketOf)
      invariant AllHaveBuckets(detailed[..i], bucketOf)
    {
      var (name, prob) := detailed[i];
      var bucket := bucketOf(name);
      assert detailed[..i + 1][..i] == detailed[..i];
      if bucket !in grouped {
        PrefixesHaveBuckets(detailed, bucketOf, i + 1);
        return Failure(bucket);
      }
      GroupedStep(detailed, bucketOf, i);
      grouped := grouped[bucket := grouped[bucket] + prob];
    }
    assert detailed[..|detailed|] == detailed;
    return Success(grouped);
  }

  /** A sequence all of whose labels have buckets has only prefixes of that kind. */
  lemma {:induction false} PrefixesHaveBuckets(items: seq<Item>, bucketOf: string -> string, n: nat)
    requires n <= |items|
    ensures AllHaveBuckets(items, bucketOf) ==> AllHaveBuckets(items[..n], bucketOf)
    decreases |items|
  {
    if n < |items| {
      var init := items[..|items| - 1];
      assert init[..n] == items[..n];
      PrefixesHaveBuckets(init, bucketOf, n);
    } else {
      assert items[..n] == items;
    }
  }

  /** `AllHaveBuckets` says that every label has a bucket. */
  lemma {:induction false} AllHaveBucketsIff(items: seq<Item>, bucketOf: string -> string)
    ensures AllHaveBuckets(items, bucketOf)
            <==> forall k :: 0 <= k < |items| ==> HasBucket(bucketOf, items[k].0)
  {
    if items != [] {
      var init := items[..|items| - 1];
      AllHaveBucketsIff(init, bucketOf);
      assert forall k :: 0 <= k < |init| ==> init[k] == items[k];
    }
  }

  /** When every label has a bucket, the three buckets together hold all the probability. */
  lemma {:induction false} GroupedSumsToTotal(items: seq<Item>, bucketOf: string -> string)
    requires AllHaveBuckets(items, bucketOf)
    ensures var g := Grouped(items, bucketOf);
            g[ConfirmedPlanet.Name()] + g[CandidatePlanet.Name()] + g[FalsePositive.Name()] == Total(items)
  {
    if items != [] {
      GroupedSumsToTotal(items[..|items| - 1], bucketOf);
    }
  }

  /** With probabilities that are not negative, every bucket lies between 0 and the total. */
  lemma {:induction false} BucketWithinTotal(items: seq<Item>, bucketOf: string -> string, bucket: string)
    requires forall k :: 0 <= k < |items| ==> items[k].1 >= 0.0
    ensures 0.0 <= BucketSum(items, bucketOf, bucket) <= Total(items)
  {
    if items != [] {
      var init := items[..|items| - 1];
      assert forall k :: 0 <= k < |init| ==> init[k] == items[k];
      BucketWithinTotal(init, bucketOf, bucket);
    }
  }
}
