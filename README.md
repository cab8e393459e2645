# Count-Min sketch

A model, in Dafny, of the Count-Min sketch in
`countmin-sketch-app/src/utils/count-min-sketch.js` and of the integer
bookkeeping in the two evaluation components that drive it: `runArtificialTest`
in `ArtificialTest.jsx` and `runRealWorldTest` in `RealWorldTest.jsx`.

- The sketch (`count_min.dfy`, module `CountMin`) is a class over an
  `array2<int>` table and one hash function per row.
  - `Increment` and `Estimate` are its loops.
  - A ghost history `Log` of the increments ties every cell to the
    specification function `Mass`: the total count of the increments that row
    `i` sends to column `j`.
  - One-sided error, the row-sum invariant, monotonicity and the width-1 case
    are lemmas about `Mass` and `EstimateOf`.
- The hash family (`hashing.dfy`) keeps the exact part of `createHashFunction`:
  the XOR of the FNV-1a offset basis with `ToInt32(seed)`. Everything after it
  is an abstract deterministic function `Mixer` of the 32-bit start state and
  the item.
  - After ToInt32 the seeds `0x100000000 + i * 0x20000000` equal
    `(i mod 8) * 2^29` modulo 2^32 (a negative number when `i mod 8 >= 4`).
    So rows `i` and `i + 8` are the same hash function, and
    rows beyond the eighth never change an estimate.
  - The specification functions of the sketch take the whole family as a value,
    `HashFamily`, and the sketch's `hashFunctions` field holds it.
- The dictionaries the components use as counters (`trueFreq`, `errorHist`) are
  `Tally.Dict`: insertion-ordered keys and a map, as `Object.keys` sees a
  JavaScript object (`tally.dfy`).
- Feeding a stream and collecting per-item result rows are shared by both
  components (`streams.dfy`).
- `artificial_test.dfy` expands the fixed map `A:1000 … E:50` into 1850
  increments. It reports each item's estimate and error, the column each row
  uses for it, and the table.
- `real_world_test.dfy` takes the random draws as input, in hundredths.
  - It classifies them into the six labels and tallies the true frequencies.
  - It runs the 100 trials, pooling their errors into a list and a histogram.
  - It summarises the errors and sorts the histogram's entries by error.

The comment at `count-min-sketch.js:38` calls the row hash functions
independent, and the test components treat their trials as independent. The code
does otherwise, and the model follows the code:

- Trials are not independent. Every trial builds `new CountMinSketch(width,
  depth)` with the same seeds and replays the same stream. So the pooled errors
  are 100 copies of one trial's errors, and every histogram count is a multiple
  of 100 (`RunTrials`, `PooledErrorFacts`, `RunOnStream`).
- Row seeds are not pairwise distinct modulo 2^32. They repeat with period 8,
  so a sketch deeper than 8 rows estimates exactly as one of 8 rows
  (`SameStartIffSameResidue`, `DepthBeyondEightAddsNothing`).
- `getTable()` returns the live array, not a copy. The model reads its contents
  (`GetTable`).
- `increment` accepts any count, including negative ones. Non-negativity of the
  counts is a hypothesis of the one-sided-error lemmas, not an invariant of the
  sketch.
- `Number.isInteger` accepts dimensions of 2^32 and more, but `Array(depth)` and
  `Array(width)` then throw a `RangeError`. `Create` returns
  `InvalidArrayLength` for them.

## Model

| member | source | states |
|---|---|---|
| Hashing.Xor32Injective | countmin-sketch-app/src/utils/count-min-sketch.js:8 | XOR-ing with a fixed 32-bit value maps two values to the same result exactly when they are equal |
| Hashing.EffectiveSeed | countmin-sketch-app/src/utils/count-min-sketch.js:41 | the seed of row `i`, reduced modulo 2^32, is `(i mod 8) * 0x20000000` |
| Hashing.SameStartIffSameResidue | countmin-sketch-app/src/utils/count-min-sketch.js:8 | two rows start from the same hash state after the seed XOR if and only if their indices agree modulo 8 |
| Hashing.RowsRepeatWithPeriodEight | countmin-sketch-app/src/utils/count-min-sketch.js:39-41 | rows `i` and `i + 8` hash every item to the same value |
| Hashing.FamilyRepeats | countmin-sketch-app/src/utils/count-min-sketch.js:39-41 | the family repeats with period 8, and row `i` is the closure of seed `0x100000000 + i * 0x20000000` |
| CountMin.Min | countmin-sketch-app/src/utils/count-min-sketch.js:55 | `Math.min` against the running minimum (initially `Infinity`) is finite, at most both operands, and equal to one of them |
| CountMin.Col | countmin-sketch-app/src/utils/count-min-sketch.js:47 | the bucket `hash % width` lies in `[0, width)` |
| CountMin.MinMassIsMinimum | countmin-sketch-app/src/utils/count-min-sketch.js:51-58 | the minimum over the first `d` rows is at most every row's cell for the item and equal to one of them |
| CountMin.NoUnderestimate | countmin-sketch-app/src/utils/count-min-sketch.js:44-58 | with non-negative counts, the estimate is at least the total count added for the item |
| CountMin.EstimateNonNegative | countmin-sketch-app/src/utils/count-min-sketch.js:51-58 | with non-negative counts, every estimate is non-negative, also for items never inserted |
| CountMin.EstimateMonotone | countmin-sketch-app/src/utils/count-min-sketch.js:44-58 | further increments with non-negative counts never lower any estimate |
| CountMin.RowSumIsTotal | countmin-sketch-app/src/utils/count-min-sketch.js:44-49 | every row sums to the total count inserted, whatever the counts' signs |
| CountMin.WidthOneEstimateIsTotal | countmin-sketch-app/src/utils/count-min-sketch.js:47 | with width 1 every estimate equals the total count inserted |
| CountMin.SketchFamilyHasPeriodEight | countmin-sketch-app/src/utils/count-min-sketch.js:39-41 | the family a sketch builds repeats with period 8 |
| CountMin.RowsRepeat | countmin-sketch-app/src/utils/count-min-sketch.js:41 | for a period-8 family, rows `i` and `i + 8` use the same column for every item and hold the same counters |
| CountMin.DepthBeyondEightAddsNothing | countmin-sketch-app/src/utils/count-min-sketch.js:51-58 | for a period-8 family, a sketch of depth `d >= 8` estimates every item exactly as one of depth 8 |
| CountMin.CountMinSketch.constructor | countmin-sketch-app/src/utils/count-min-sketch.js:32-41 | the table is `depth x width`, all cells 0, with the seeded family; the history is empty |
| CountMin.CountMinSketch.Create | countmin-sketch-app/src/utils/count-min-sketch.js:28-42 | construction succeeds if and only if both dimensions are positive integers below 2^32; otherwise it fails with `InvalidDimension` when the check of line 29 rejects them, and with `InvalidArrayLength` (the `RangeError` of `Array(n)`) when it does not |
| CountMin.CountMinSketch.Increment | countmin-sketch-app/src/utils/count-min-sketch.js:44-49 | adds `count` to the cell at column `H(i, item) % width` of every row `i`; every other cell is unchanged; the invariant is kept |
| CountMin.CountMinSketch.Estimate | countmin-sketch-app/src/utils/count-min-sketch.js:51-58 | changes nothing; returns the minimum of the item's cells: at most each, equal to one; with non-negative counts, at least the item's true count |
| CountMin.CountMinSketch.GetTable | countmin-sketch-app/src/utils/count-min-sketch.js:61-63 | the table's contents are the table the increment history specifies |
| CountMin.RowSums | countmin-sketch-app/src/utils/count-min-sketch.js:44-49 | every row of a sketch's table sums to the total it was fed |
| CountMin.Deterministic | countmin-sketch-app/src/utils/count-min-sketch.js:39-41 | two sketches of equal dimensions and family fed the same increments hold equal tables and give every item equal estimates |
| Tally.Add | countmin-sketch-app/src/components/RealWorldTest.jsx:39 | `d[x] = (d[x] \|\| 0) + 1`: `x` maps to one more than its old count (0 when absent), and every other key keeps its presence and count |
| Tally.AddFacts | countmin-sketch-app/src/components/RealWorldTest.jsx:39 | `d[x] = (d[x] \|\| 0) + 1` keeps the dictionary well formed, bumps exactly `x`, appends `x` to the keys only when it is new, and adds 1 to the sum |
| Tally.OfFacts | countmin-sketch-app/src/components/RealWorldTest.jsx:37-40 | the tally of a stream has one key per distinct element, each mapped to its number of occurrences, and its values sum to the stream's length |
| Tally.Entries | countmin-sketch-app/src/components/RealWorldTest.jsx:89 | `Object.entries` lists every pair `(key, count)` of the dictionary and no other, no key twice, in key order |
| Streams.AddedIsCount | countmin-sketch-app/src/components/RealWorldTest.jsx:43 | the count a stream adds for an item is its number of occurrences |
| Streams.TotalIsLength | countmin-sketch-app/src/components/RealWorldTest.jsx:43 | the mass a stream inserts is its length |
| Streams.StreamNoUnderestimate | countmin-sketch-app/src/components/RealWorldTest.jsx:43-46 | after feeding a stream, every estimate is at least the item's number of occurrences |
| Streams.Feed | countmin-sketch-app/src/components/RealWorldTest.jsx:43 | one `increment(item)` with count 1 per element, in order |
| Streams.CollectResults | countmin-sketch-app/src/components/RealWorldTest.jsx:45-55 | one row per key in key order, with the true count, the sketch's estimate and `error = estimated - true` |
| ArtificialTest.Columns | countmin-sketch-app/src/components/ArtificialTest.jsx:50-57 | `depth` columns, each in `[0, width)` |
| ArtificialTest.SumFreq | countmin-sketch-app/src/components/ArtificialTest.jsx:62 | the sum of the frequencies is the number of increments the expanded stream performs |
| ArtificialTest.ExpandCount | countmin-sketch-app/src/components/ArtificialTest.jsx:31-35 | with distinct keys, each item occurs in the stream exactly as often as its frequency, and nothing else occurs |
| ArtificialTest.TotalItemsValue | countmin-sketch-app/src/components/ArtificialTest.jsx:62 | the frequencies of the fixed map sum to 1850 |
| ArtificialTest.SimulateStream | countmin-sketch-app/src/components/ArtificialTest.jsx:31-35 | the nested loop replays exactly the expanded stream |
| ArtificialTest.CollectHashValues | countmin-sketch-app/src/components/ArtificialTest.jsx:50-57 | one entry per key, each the column every row uses for it in `increment` |
| ArtificialTest.ItemFacts | countmin-sketch-app/src/components/ArtificialTest.jsx:37-47 | each key's true count is its occurrences, its estimate is at least that, and with width 1 it is the total |
| ArtificialTest.RunWithFrequencies | countmin-sketch-app/src/components/ArtificialTest.jsx:19-64 | fails, with the constructor's error, if and only if the constructor does; otherwise `totalItems` is the number of increments, there is one row per key with a non-negative error (equal to the total at width 1), `hashValues` holds the columns, and every row of the table sums to `totalItems` |
| ArtificialTest.RunArtificialTest | countmin-sketch-app/src/components/ArtificialTest.jsx:19-66 | fails if and only if the constructor does; otherwise the report of the fixed map: 1850 increments; rows A..E in that order with true counts 1000, 500, 200, 100, 50, each the item's occurrences; the estimate after the stream and a non-negative error (every estimate 1850 at width 1); `hashValues` holds each item's columns; the table is the one the stream specifies, each row summing to 1850 |
| RealWorldTest.Classify | countmin-sketch-app/src/components/RealWorldTest.jsx:28-34 | the label of a draw is the label whose index is the number of thresholds the draw has reached |
| RealWorldTest.ClassifyExactlyOne | countmin-sketch-app/src/components/RealWorldTest.jsx:27-35 | every draw gets exactly one of the six labels: the one of the threshold interval it falls in |
| RealWorldTest.BuildStream | countmin-sketch-app/src/components/RealWorldTest.jsx:24-35 | one classified label per draw, in order, each one of the six labels |
| RealWorldTest.TallyStream | countmin-sketch-app/src/components/RealWorldTest.jsx:37-40 | `trueFreq` has one key per distinct label of the stream, with its number of occurrences, summing to the stream length |
| RealWorldTest.TrialErrorsNonNegative | countmin-sketch-app/src/components/RealWorldTest.jsx:65-70 | no error a trial records is negative |
| RealWorldTest.PooledFacts | countmin-sketch-app/src/components/RealWorldTest.jsx:60-71 | `t` pooled trials hold `t * \|keys\|` errors, and each error value `t` times as often as in one trial |
| RealWorldTest.KeyError | countmin-sketch-app/src/components/RealWorldTest.jsx:66-67 | the error of the `k`-th key is the `k`-th entry of the trial's errors: the estimate after the sketch's increments minus the key's true count |
| RealWorldTest.RecordTrial | countmin-sketch-app/src/components/RealWorldTest.jsx:65-70 | appends one error per key, in key order, and the histogram stays the tally of all errors |
| RealWorldTest.RunTrials | countmin-sketch-app/src/components/RealWorldTest.jsx:58-71 | the errors are `trials` copies of the same trial's errors, and the histogram is their tally |
| RealWorldTest.PooledErrorFacts | countmin-sketch-app/src/components/RealWorldTest.jsx:58-71 | `trials * \|keys\|` errors, none negative; the histogram's values sum to the number of errors and each is `trials` times a count of one trial |
| RealWorldTest.CeilDiv | countmin-sketch-app/src/components/RealWorldTest.jsx:75 | the least integer `b` with `b * width >= S` |
| RealWorldTest.MinOf | countmin-sketch-app/src/components/RealWorldTest.jsx:84 | an element at most every element |
| RealWorldTest.MaxOf | countmin-sketch-app/src/components/RealWorldTest.jsx:83 | an element at least every element |
| RealWorldTest.SumInts | countmin-sketch-app/src/components/RealWorldTest.jsx:82 | the sum of errors none of which is negative is non-negative |
| RealWorldTest.CountPositive | countmin-sketch-app/src/components/RealWorldTest.jsx:85 | the positive errors are at most all errors, and with no negative error exactly the errors that are not 0 |
| RealWorldTest.SumWithinExtremes | countmin-sketch-app/src/components/RealWorldTest.jsx:82-84 | the sum lies between the length times the minimum and the length times the maximum, so the average error lies between `minError` and `maxError` |
| RealWorldTest.Summarize | countmin-sketch-app/src/components/RealWorldTest.jsx:74-86 | the bound is `ceil(S / width)`; `minError` and `maxError` are errors bounding all the others; the average lies between them; positive errors are at most all errors; with no negative error `0 <= minError`, the sum is non-negative, and the non-positive errors are exactly the zero errors |
| RealWorldTest.InsertAscending | countmin-sketch-app/src/components/RealWorldTest.jsx:91 | inserting into an ascending list keeps it ascending, strictly when the error is new |
| RealWorldTest.SortByError | countmin-sketch-app/src/components/RealWorldTest.jsx:91 | the sort is a permutation of the entries |
| RealWorldTest.SortByErrorAscending | countmin-sketch-app/src/components/RealWorldTest.jsx:91 | the sorted entries are ascending by error, strictly when the errors are distinct |
| RealWorldTest.Distribution | countmin-sketch-app/src/components/RealWorldTest.jsx:88-92 | every error of the histogram exactly once, with its frequency, in strictly ascending order |
| RealWorldTest.PooledAnalysis | countmin-sketch-app/src/components/RealWorldTest.jsx:74-86 | the summary of pooled trials: count and sum scale by `trials`, min and max are those of one trial, the average lies between them, the bound is the ceiling |
| RealWorldTest.PooledDistribution | countmin-sketch-app/src/components/RealWorldTest.jsx:88-92 | the distribution of pooled trials is strictly ascending and lists each error of one trial with `trials` times its count |
| RealWorldTest.KeyResults | countmin-sketch-app/src/components/RealWorldTest.jsx:45-55 | one row per key of `trueFreq` in key order, with its true count, the sketch's estimate and `error = estimated - true`; the error column is one trial's errors |
| RealWorldTest.PooledReport | countmin-sketch-app/src/components/RealWorldTest.jsx:58-92 | on a non-empty stream, the analysis and the distribution of 100 copies of one trial's errors are those of the one trial, scaled where they count |
| RealWorldTest.ResultRowsFacts | countmin-sketch-app/src/components/RealWorldTest.jsx:37-55 | the rows of the tally of a stream are one per distinct item of the stream, each with its number of occurrences, the estimate after the stream and a non-negative error |
| RealWorldTest.RunOnStream | countmin-sketch-app/src/components/RealWorldTest.jsx:37-92 | fails, with the constructor's error, if and only if the constructor does; otherwise one row per distinct label with its number of occurrences, the estimate after the stream and a non-negative error, and the analysis and distribution are those of 100 copies of the rows' error column |
| RealWorldTest.ResultsWithinLabels | countmin-sketch-app/src/components/RealWorldTest.jsx:45-55 | the rows list between one and six distinct labels |
| RealWorldTest.RunRealWorldTest | countmin-sketch-app/src/components/RealWorldTest.jsx:21-92 | fails if and only if the constructor does; otherwise, for the stream the 10000 draws classify to: one row per distinct label (between one and six), each with its number of occurrences in that stream, the estimate after it and a non-negative error; the analysis and distribution are those of 100 copies of the error column |

## Left out

- The bits of `createHashFunction` after the seed XOR (character loop and avalanche mix) are not modelled: the products `hash * prime`, `hash * 0x85ebca6b` and `hash * 0xc2b2ae35` are double-precision and can exceed 2^53, so they are rounded before truncation. They are the abstract parameter `Mixer`.
- `Math.random` is not modelled: the 10000 draws are a parameter, as whole numbers of hundredths. A draw stands for any double `rand` that the comparison chain of `RealWorldTest.jsx:28-34` puts in the same branch, so every run of the component matches some sequence of draws. The draw is not always `floor(100 * rand)`: the literals 0.85 and 0.97 are stored slightly below their decimal values and 0.92 slightly above, so for the few doubles next to those three thresholds (such as `rand` equal to the double 0.97, which fails `rand < 0.97` while `100 * rand` is below 97 in exact arithmetic) `floor(100 * rand)` lands in the neighbouring branch. The model does not tie a draw to the double it comes from.
- Floating-point outputs are not modelled: `errorPercent`, `toFixed`, `averageError` and `overestimationRate`. The analysis keeps their integer parts: the error sum, the error count and the count of positive errors.
- `markovBound` is left out: it is the constant 0.5 and is never computed.
- Aliasing through `getTable`: the live array it returns could be mutated by the caller; the model returns its contents only.
- React state, hooks and rendering (`useState`, `useCallback`, `useEffect`, `setAnalysis`, `setDebugInfo`, the tables) are left out, as are the components `Overview.jsx`, `Chart.jsx` and `App.jsx`.
- JavaScript limits are not modelled: `Math.max(...errors)` with its argument-count limit, and counters beyond 2^53. `Math.ceil(S / width)` is modelled as the exact integer ceiling.
- `Object.keys` and `Object.entries` order is modelled as insertion order. JavaScript lists integer-like keys (such as the histogram's error values) in ascending numeric order first. Here this only affects the order before the sort, which the distribution does not depend on.
- `.sort((a, b) => a.error - b.error)` is modelled as an insertion sort. The histogram's errors are distinct, so every correct sort gives the same result.
- CountMin.CountMinSketch.Increment: counts are integers only. A fractional, infinite or NaN `count` (any JavaScript number is accepted) is not modelled, because the counters are `int`.
- The constructor's exceptions (the `Error` thrown at line 30 and the `RangeError` of `Array(n)`) are the `Err(InvalidDimension)` and `Err(InvalidArrayLength)` results of `CountMinSketch.Create`. A component that throws is modelled as returning that error.
