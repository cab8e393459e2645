/**
 * `runArtificialTest` of `ArtificialTest.jsx`: a fixed frequency map is
 * expanded into a stream of increments, each item's estimate is compared
 * with its true frequency, and the columns each row uses are reported.
 */
module ArtificialTest {
  import opened Wrappers
  import opened Hashing
  import opened Tally
  import opened CountMin
  import opened Streams

  /** The ground truth: item -> frequency, in key order. */
  const TrueFreq: seq<(string, nat)> := [("A", 1000), ("B", 500), ("C", 200), ("D", 100), ("E", 50)]

  /** What the component computes: `results` and the `debugInfo` it records. */
  datatype ArtificialReport = ArtificialReport(
    results: seq<ResultRow>,
    hashValues: map<string, seq<nat>>,
    table: seq<seq<int>>,
    totalItems: int)

  ghost predicate DistinctKeys(freq: seq<(string, nat)>)
  {
    forall i, j :: 0 <= i < j < |freq| ==> freq[i].0 != freq[j].0
  }

  function Repeat(item: string, count: nat): seq<string>
  {
    seq(count, _ => item)
  }

  /** The stream the nested loop produces: each item repeated as often as its frequency, in key order. */
  function Expand(freq: seq<(string, nat)>): seq<string>
  {
    if freq == [] then [] else Expand(freq[..|freq| - 1]) + Repeat(freq[|freq| - 1].0, freq[|freq| - 1].1)
  }

  /**
   * `Object.values(freq).reduce((a, b) => a + b, 0)`: the number of
   * increments the expanded stream performs.
   */
  function SumFreq(freq: seq<(string, nat)>): (total: int)
    ensures total == |Expand(freq)|
  {
    if freq == [] then 0 else SumFreq(freq[..|freq| - 1]) + freq[|freq| - 1].1
  }

  /** The frequency `freq` gives `x`, 0 when `x` is not a key. */
  function FreqOf(freq: seq<(string, nat)>, x: string): nat
  {
    if freq == [] then 0
    else if freq[|freq| - 1].0 == x then freq[|freq| - 1].1
    else FreqOf(freq[..|freq| - 1], x)
  }

  /** The column each row uses for `item`, row by row. */
  function Columns(hashes: HashFamily, width: nat, depth: nat, item: string): (cols: seq<nat>)
    requires width > 0
    ensures |cols| == depth
    ensures forall i :: 0 <= i < depth ==> cols[i] < width
  {
    seq(depth, i requires 0 <= i < depth => Col(hashes, width, i, item))
  }

  lemma {:induction false} RepeatCount(item: string, count: nat, x: string)
    ensures Count(Repeat(item, count), x) == if item == x then count else 0
  {
    if count > 0 {
      assert Repeat(item, count)[..count - 1] == Repeat(item, count - 1);
      RepeatCount(item, count - 1, x);
    }
  }

  /** With distinct keys, the expansion holds each item exactly as often as its frequency. */
  lemma {:induction false} ExpandCount(freq: seq<(string, nat)>, x: string)
    requires DistinctKeys(freq)
    ensures Count(Expand(freq), x) == FreqOf(freq, x)
  {
    if freq != [] {
      var init, last := freq[..|freq| - 1], freq[|freq| - 1];
      ExpandCount(init, x);
      CountAppend(Expand(init), Repeat(last.0, last.1), x);
      RepeatCount(last.0, last.1, x);
      if last.0 == x {
        FreqOfAbsent(init, x);
      }
    }
  }

  lemma {:induction false} FreqOfAbsent(freq: seq<(string, nat)>, x: string)
    requires forall i :: 0 <= i < |freq| ==> freq[i].0 != x
    ensures FreqOf(freq, x) == 0
  {
    if freq != [] {
      FreqOfAbsent(freq[..|freq| - 1], x);
    }
  }

  lemma {:induction false} FreqOfKey(freq: seq<(string, nat)>, k: nat)
    requires DistinctKeys(freq) && k < |freq|
    ensures FreqOf(freq, freq[k].0) == freq[k].1
  {
    if k < |freq| - 1 {
      FreqOfKey(freq[..|freq| - 1], k);
    }
  }

  /** The frequencies of the fixed map add up to 1850. */
  lemma TotalItemsValue()
    ensures SumFreq(TrueFreq) == 1850
  {
    assert TrueFreq[..1][..0] == [];
    assert SumFreq(TrueFreq[..1]) == 1000;
    assert TrueFreq[..2][..1] == TrueFreq[..1];
    assert SumFreq(TrueFreq[..2]) == 1500;
    assert TrueFreq[..3][..2] == TrueFreq[..2];
    assert SumFreq(TrueFreq[..3]) == 1700;
    assert TrueFreq[..4][..3] == TrueFreq[..3];
    assert SumFreq(TrueFreq[..4]) == 1800;
    assert TrueFreq[..4] == TrueFreq[..|TrueFreq| - 1];
  }

  lemma TrueFreqDistinct()
    ensures DistinctKeys(TrueFreq)
  {
  }

  /** The nested loop of the stream simulation: `increment(item)` `count` times per entry. */
  method SimulateStream(sketch: CountMinSketch, freq: seq<(string, nat)>)
    requires sketch.Valid()
    modifies sketch`Log, sketch.table
    ensures sketch.Valid()
    ensures sketch.Log == old(sketch.Log) + Events(Expand(freq))
  {
    for k := 0 to |freq|
      invariant sketch.Valid()
      invariant sketch.Log == old(sketch.Log) + Events(Expand(freq[..k]))
    {
      var item, count := freq[k].0, freq[k].1;
      for i := 0 to count
        invariant sketch.Valid()
        invariant sketch.Log == old(sketch.Log) + Events(Expand(freq[..k]) + Repeat(item, i))
      {
        sketch.Increment(item);
        assert Expand(freq[..k]) + Repeat(item, i + 1) == Expand(freq[..k]) + Repeat(item, i) + [item];
        EventsAppend(Expand(freq[..k]) + Repeat(item, i), item);
      }
      assert freq[..k + 1][..k] == freq[..k];
    }
    assert freq[..|freq|] == freq;
  }

  /** The `hashValues` debug map: for each key, the column every row uses for it. */
  method CollectHashValues(sketch: CountMinSketch, freq: seq<(string, nat)>) returns (hashValues: map<string, seq<nat>>)
    requires sketch.Valid()
    ensures hashValues.Keys == (set k | 0 <= k < |freq| :: freq[k].0)
    ensures forall item :: item in hashValues ==> hashValues[item] == Columns(sketch.hashFunctions, sketch.width, sketch.depth, item)
  {
    hashValues := map[];
    for k := 0 to |freq|
      invariant hashValues.Keys == (set m | 0 <= m < k :: freq[m].0)
      invariant forall item :: item in hashValues ==> hashValues[item] == Columns(sketch.hashFunctions, sketch.width, sketch.depth, item)
    {
      var item := freq[k].0;
      var hs: seq<nat> := [];
      for i := 0 to sketch.depth
        invariant |hs| == i
        invariant forall j :: 0 <= j < i ==> hs[j] == Col(sketch.hashFunctions, sketch.width, j, item)
      {
        var hash := sketch.hashFunctions(i, item);
        hs := hs + [hash % sketch.width];
      }
      hashValues := hashValues[item := hs];
    }
  }

  /** What the report says about each item, from the properties of the sketch. */
  lemma ItemFacts(hashes: HashFamily, w: nat, d: nat, freq: seq<(string, nat)>, k: nat)
    requires w > 0 && d > 0 && DistinctKeys(freq) && k < |freq|
    ensures freq[k].1 == Count(Expand(freq), freq[k].0)
    ensures EstimateOf(hashes, w, d, Events(Expand(freq)), freq[k].0) >= freq[k].1
    ensures w == 1 ==> EstimateOf(hashes, w, d, Events(Expand(freq)), freq[k].0) == SumFreq(freq)
  {
    var stream := Expand(freq);
    ExpandCount(freq, freq[k].0);
    FreqOfKey(freq, k);
    StreamNoUnderestimate(hashes, w, d, stream, freq[k].0);
    if w == 1 {
      WidthOneEstimateIsTotal(hashes, d, Events(stream), freq[k].0);
      TotalIsLength(stream);
    }
  }

  /**
   * What the report of the test on `freq` holds: `totalItems` is the number of
   * increments; one row per key in key order, with its frequency (which is its
   * number of occurrences in the stream), the estimate after the stream and a
   * non-negative error, equal to the total at width 1; `hashValues` holds the
   * columns of every key; the table is the one the stream specifies, each row
   * summing to `totalItems`.
   */
  ghost predicate ArtificialReportOf(rep: ArtificialReport, freq: seq<(string, nat)>, w: nat, d: nat, hashes: HashFamily)
  {
    var stream := Expand(freq);
    && w > 0 && d > 0
    && rep.totalItems == SumFreq(freq) == |stream|
    && |rep.results| == |freq|
    && (forall k :: 0 <= k < |freq| ==>
          && rep.results[k].item == freq[k].0
          && rep.results[k].trueCount == freq[k].1 == Count(stream, freq[k].0)
          && rep.results[k].estimated == EstimateOf(hashes, w, d, Events(stream), freq[k].0)
          && rep.results[k].error == rep.results[k].estimated - rep.results[k].trueCount
          && rep.results[k].error >= 0
          && (w == 1 ==> rep.results[k].estimated == rep.totalItems))
    && rep.hashValues.Keys == (set k | 0 <= k < |freq| :: freq[k].0)
    && (forall item :: item in rep.hashValues ==>
          && |rep.hashValues[item]| == d
          && (forall i :: 0 <= i < d ==> rep.hashValues[item][i] == Col(hashes, w, i, item) < w))
    && rep.table == TableOf(hashes, w, d, Events(stream))
    && (forall i :: 0 <= i < d ==> SumRow(rep.table[i]) == rep.totalItems)
  }

  /** The report's contents, from what each step of the test ensures. */
  lemma ReportFacts(freq: seq<(string, nat)>, w: nat, d: nat, hashes: HashFamily,
                    results: seq<ResultRow>, hashValues: map<string, seq<nat>>, table: seq<seq<int>>, totalItems: int)
    requires w > 0 && d > 0 && DistinctKeys(freq)
    requires |results| == |freq|
    requires forall k :: 0 <= k < |freq| ==>
      && results[k].item == freq[k].0
      && results[k].trueCount == freq[k].1
      && results[k].estimated == EstimateOf(hashes, w, d, Events(Expand(freq)), freq[k].0)
      && results[k].error == results[k].estimated - freq[k].1
    requires hashValues.Keys == (set k | 0 <= k < |freq| :: freq[k].0)
    requires forall item :: item in hashValues ==> hashValues[item] == Columns(hashes, w, d, item)
    requires table == TableOf(hashes, w, d, Events(Expand(freq)))
    requires forall i :: 0 <= i < d ==> SumRow(table[i]) == Total(Events(Expand(freq)))
    requires totalItems == SumFreq(freq)
    ensures ArtificialReportOf(ArtificialReport(results, hashValues, table, totalItems), freq, w, d, hashes)
  {
    var stream := Expand(freq);
    TotalIsLength(stream);
    forall k | 0 <= k < |freq|
      ensures freq[k].1 == Count(stream, freq[k].0)
      ensures EstimateOf(hashes, w, d, Events(stream), freq[k].0) >= freq[k].1
      ensures w == 1 ==> EstimateOf(hashes, w, d, Events(stream), freq[k].0) == totalItems
    {
      ItemFacts(hashes, w, d, freq, k);
    }
  }

  /**
   * The test for a given frequency map: build the sketch, replay the expanded
   * stream, then report each item's estimate and error and the columns each
   * row uses for it.
   */
  method RunWithFrequencies(freq: seq<(string, nat)>, width: JsNumber, depth: JsNumber, mix: Mixer)
    returns (r: Result<ArtificialReport, SketchError>)
    requires DistinctKeys(freq)
    ensures r.Ok? <==> Constructible(width, depth)
    ensures r.Err? ==> r.error == ConstructionError(width, depth)
    ensures r.Ok? ==> ArtificialReportOf(r.value, freq, width.v, depth.v, HashFunctions(mix))
  {
    ghost var hashes := HashFunctions(mix);
    var created := CountMinSketch.Create(width, depth, mix);
    if created.Err? {
      return Err(created.error);
    }
    var sketch := created.value;
    SimulateStream(sketch, freq);
    var results := CollectResults(sketch, freq);
    var hashValues := CollectHashValues(sketch, freq);
    var totalItems := SumFreq(freq);
    var table := sketch.GetTable();
    RowSums(sketch);
    assert sketch.Log == Events(Expand(freq));
    ReportFacts(freq, width.v, depth.v, hashes, results, hashValues, table, totalItems);
    r := Ok(ArtificialReport(results, hashValues, table, totalItems));
  }

  /** `runArtificialTest`: the test on the fixed map `TrueFreq`, 1850 increments in all. */
  method RunArtificialTest(width: JsNumber, depth: JsNumber, mix: Mixer) returns (r: Result<ArtificialReport, SketchError>)
    ensures r.Ok? <==> Constructible(width, depth)
    ensures r.Err? ==> r.error == ConstructionError(width, depth)
    ensures r.Ok? ==> ArtificialReportOf(r.value, TrueFreq, width.v, depth.v, HashFunctions(mix))
    ensures r.Ok? ==> r.value.totalItems == 1850 && |r.value.results| == 5
    ensures r.Ok? ==> forall k :: 0 <= k < 5 ==>
      r.value.results[k].item == TrueFreq[k].0 && r.value.results[k].trueCount == TrueFreq[k].1
    ensures r.Ok? && width.v == 1 ==> forall k :: 0 <= k < 5 ==> r.value.results[k].estimated == 1850
  {
    TrueFreqDistinct();
    TotalItemsValue();
    r := RunWithFrequencies(TrueFreq, width, depth, mix);
  }
}
