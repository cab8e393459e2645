/**
 * A stream as the test components feed it: every event is one call
 * `sketch.increment(item)` with the default count 1.
 */
module Streams {
  import opened Tally
  import opened CountMin

  /** The increments performed for a stream of item labels. */
  function Events(items: seq<string>): (log: seq<Update>)
    ensures |log| == |items|
    ensures forall k :: 0 <= k < |items| ==> log[k] == Update(items[k], 1)
  {
    seq(|items|, k requires 0 <= k < |items| => Update(items[k], 1))
  }

  lemma EventsAppend(items: seq<string>, x: string)
    ensures Events(items + [x]) == Events(items) + [Update(x, 1)]
  {
  }

  /** The true count the sketch receives for an item is its number of occurrences. */
  lemma {:induction false} AddedIsCount(items: seq<string>, x: string)
    ensures Added(Events(items), x) == Count(items, x)
  {
    if items != [] {
      assert Events(items)[..|items| - 1] == Events(items[..|items| - 1]);
      AddedIsCount(items[..|items| - 1], x);
    }
  }

  /** The mass a stream inserts is its length. */
  lemma {:induction false} TotalIsLength(items: seq<string>)
    ensures Total(Events(items)) == |items|
  {
    if items != [] {
      assert Events(items)[..|items| - 1] == Events(items[..|items| - 1]);
      TotalIsLength(items[..|items| - 1]);
    }
  }

  /** The estimate after a stream is never below the item's number of occurrences. */
  lemma StreamNoUnderestimate(hashes: Hashing.HashFamily, width: nat, depth: nat, items: seq<string>, x: string)
    requires width > 0 && depth > 0
    ensures EstimateOf(hashes, width, depth, Events(items), x) >= Count(items, x)
  {
    NoUnderestimate(hashes, width, depth, Events(items), x);
    AddedIsCount(items, x);
  }

  /** `stream.forEach((item) => sketch.increment(item))`. */
  method Feed(sketch: CountMinSketch, items: seq<string>)
    requires sketch.Valid()
    modifies sketch`Log, sketch.table
    ensures sketch.Valid()
    ensures sketch.Log == old(sketch.Log) + Events(items)
  {
    for k := 0 to |items|
      invariant sketch.Valid()
      invariant sketch.Log == old(sketch.Log) + Events(items[..k])
    {
      sketch.Increment(items[k], 1);
      assert items[..k + 1] == items[..k] + [items[k]];
      EventsAppend(items[..k], items[k]);
    }
    assert items[..|items|] == items;
  }

  /** One row of `results`: `{item, true, estimated, error}`. */
  datatype ResultRow = ResultRow(item: string, trueCount: int, estimated: int, error: int)

  /**
   * `Object.keys(trueFreq).map(item => ...)`: one row per key, in key order,
   * with the sketch's estimate and `error = estimated - true`.
   */
  method CollectResults(sketch: CountMinSketch, freq: seq<(string, nat)>) returns (results: seq<ResultRow>)
    requires sketch.Valid()
    ensures |results| == |freq|
    ensures forall k :: 0 <= k < |freq| ==>
      && results[k].item == freq[k].0
      && results[k].trueCount == freq[k].1
      && results[k].estimated == EstimateOf(sketch.hashFunctions, sketch.width, sketch.depth, sketch.Log, freq[k].0)
      && results[k].error == results[k].estimated - freq[k].1
  {
    results := [];
    for k := 0 to |freq|
      invariant |results| == k
      invariant forall m :: 0 <= m < k ==>
        && results[m].item == freq[m].0
        && results[m].trueCount == freq[m].1
        && results[m].estimated == EstimateOf(sketch.hashFunctions, sketch.width, sketch.depth, sketch.Log, freq[m].0)
        && results[m].error == results[m].estimated - freq[m].1
    {
      var item := freq[k].0;
      var est := sketch.Estimate(item);
      var trueCount := freq[k].1;
      results := results + [ResultRow(item, trueCount, est, est - trueCount)];
    }
  }
}
