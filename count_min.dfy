/**
 * The Count-Min sketch of `count-min-sketch.js`: a `depth x width` table of
 * counters and one hash function per row. `increment` adds a count to one
 * cell per row, `estimate` takes the minimum of the cells an item maps to.
 *
 * The table is specified by the history of increments: cell `(i, j)` holds
 * the total count of the increments whose item row `i` sends to column `j`
 * (`Mass`). Everything the sketch promises is proved about that function.
 */
module CountMin {
  import opened Wrappers
  import opened Hashing

  /**
   * The constructor's failures: the `Error` it throws for a dimension that is
   * not a positive integer, and the `RangeError` of `Array(n)` for a
   * dimension that is no valid array length.
   */
  datatype SketchError = InvalidDimension | InvalidArrayLength

  /** `Array(n)` accepts exactly the lengths below 2^32. */
  const MaxArrayLength: int := 0x1_0000_0000

  /**
   * A JavaScript number as `Number.isInteger` sees it: an integer value, or
   * anything else (a fraction, NaN, an infinity).
   */
  datatype JsNumber = Integer(v: int) | NonInteger

  predicate IsPositiveInteger(n: JsNumber)
  {
    n.Integer? && n.v > 0
  }

  /** One call `increment(item, count)`. */
  datatype Update = Update(item: string, count: int)

  /** `Math.min` seeded with `Infinity`, as `estimate` uses it. */
  datatype Extended = Infinity | Finite(value: int)

  function Min(a: Extended, b: int): (m: Extended)
    ensures m.Finite? && m.value <= b
    ensures a.Finite? ==> m.value <= a.value
    ensures m.value == b || (a.Finite? && m.value == a.value)
  {
    match a
    case Infinity => Finite(b)
    case Finite(x) => Finite(if x <= b then x else b)
  }

  /** The column `hashFunctions[row](item) % width` that row `row` uses for `item`; always in bounds. */
  function Col(hashes: HashFamily, width: nat, row: nat, item: string): (c: nat)
    requires width > 0
    ensures c < width
  {
    hashes(row, item) % width
  }

  /** Total count of the increments in `log` that row `row` sends to column `col`. */
  function Mass(hashes: HashFamily, width: nat, row: nat, col: nat, log: seq<Update>): int
    requires width > 0
  {
    if log == [] then 0
    else
      var u := log[|log| - 1];
      Mass(hashes, width, row, col, log[..|log| - 1]) + (if Col(hashes, width, row, u.item) == col then u.count else 0)
  }

  /** Total count added for `item`: its true frequency. */
  function Added(log: seq<Update>, item: string): int
  {
    if log == [] then 0
    else Added(log[..|log| - 1], item) + (if log[|log| - 1].item == item then log[|log| - 1].count else 0)
  }

  /** Total count added over all items: the stream's mass. */
  function Total(log: seq<Update>): int
  {
    if log == [] then 0 else Total(log[..|log| - 1]) + log[|log| - 1].count
  }

  ghost predicate AllNonNegative(log: seq<Update>)
  {
    forall k :: 0 <= k < |log| ==> log[k].count >= 0
  }

  /** Row `row` of the table after the increments of `log`. */
  function RowOf(hashes: HashFamily, width: nat, row: nat, log: seq<Update>): seq<int>
    requires width > 0
  {
    seq(width, j requires 0 <= j < width => Mass(hashes, width, row, j, log))
  }

  /** The table a sketch holds after the increments of `log`. */
  function TableOf(hashes: HashFamily, width: nat, depth: nat, log: seq<Update>): seq<seq<int>>
    requires width > 0
  {
    seq(depth, i requires 0 <= i < depth => RowOf(hashes, width, i, log))
  }

  /** Minimum over rows `0 .. d-1` of the cell `item` maps to. */
  function MinMass(hashes: HashFamily, width: nat, log: seq<Update>, item: string, d: nat): int
    requires width > 0 && d > 0
  {
    var here := Mass(hashes, width, d - 1, Col(hashes, width, d - 1, item), log);
    if d == 1 then here
    else
      var rest := MinMass(hashes, width, log, item, d - 1);
      if rest <= here then rest else here
  }

  /** The value `estimate(item)` returns after the increments of `log`. */
  function EstimateOf(hashes: HashFamily, width: nat, depth: nat, log: seq<Update>, item: string): int
    requires width > 0 && depth > 0
  {
    MinMass(hashes, width, log, item, depth)
  }

  function SumRow(s: seq<int>): int
  {
    if s == [] then 0 else s[0] + SumRow(s[1..])
  }

  // ---------------------------------------------------------------------
  // Properties of the specification

  /** The minimum over the first `d` rows is at most each of their cells... */
  lemma {:induction false} MinMassIsLower(hashes: HashFamily, width: nat, log: seq<Update>, item: string, d: nat)
    requires width > 0 && d > 0
    ensures forall i :: 0 <= i < d ==> MinMass(hashes, width, log, item, d) <= Mass(hashes, width, i, Col(hashes, width, i, item), log)
  {
    if d > 1 {
      MinMassIsLower(hashes, width, log, item, d - 1);
      var m, rest := MinMass(hashes, width, log, item, d), MinMass(hashes, width, log, item, d - 1);
      var here := Mass(hashes, width, d - 1, Col(hashes, width, d - 1, item), log);
      assert m == if rest <= here then rest else here;
      forall i | 0 <= i < d ensures m <= Mass(hashes, width, i, Col(hashes, width, i, item), log) {
        if i < d - 1 {
          assert rest <= Mass(hashes, width, i, Col(hashes, width, i, item), log);
        }
      }
    }
  }

  /** ... and equal to one of them. */
  lemma {:induction false} MinMassIsAttained(hashes: HashFamily, width: nat, log: seq<Update>, item: string, d: nat)
    requires width > 0 && d > 0
    ensures exists i :: 0 <= i < d && MinMass(hashes, width, log, item, d) == Mass(hashes, width, i, Col(hashes, width, i, item), log)
  {
    var here := Mass(hashes, width, d - 1, Col(hashes, width, d - 1, item), log);
    if d > 1 && MinMass(hashes, width, log, item, d - 1) <= here {
      MinMassIsAttained(hashes, width, log, item, d - 1);
      var i :| 0 <= i < d - 1 && MinMass(hashes, width, log, item, d - 1) == Mass(hashes, width, i, Col(hashes, width, i, item), log);
      assert MinMass(hashes, width, log, item, d) == Mass(hashes, width, i, Col(hashes, width, i, item), log);
    } else {
      assert MinMass(hashes, width, log, item, d) == here;
    }
  }

  /** The minimum over the first `d` rows is one of their cells and at most each of them. */
  lemma MinMassIsMinimum(hashes: HashFamily, width: nat, log: seq<Update>, item: string, d: nat)
    requires width > 0 && d > 0
    ensures forall i :: 0 <= i < d ==> MinMass(hashes, width, log, item, d) <= Mass(hashes, width, i, Col(hashes, width, i, item), log)
    ensures exists i :: 0 <= i < d && MinMass(hashes, width, log, item, d) == Mass(hashes, width, i, Col(hashes, width, i, item), log)
  {
    MinMassIsLower(hashes, width, log, item, d);
    MinMassIsAttained(hashes, width, log, item, d);
  }

  /** With non-negative counts, every counter is non-negative. */
  lemma {:induction false} MassNonNegative(hashes: HashFamily, width: nat, row: nat, col: nat, log: seq<Update>)
    requires width > 0 && AllNonNegative(log)
    ensures Mass(hashes, width, row, col, log) >= 0
  {
    if log != [] {
      MassNonNegative(hashes, width, row, col, log[..|log| - 1]);
    }
  }

  /**
   * With non-negative counts, the cell an item maps to in any row holds at
   * least the item's own total: collisions only add mass.
   */
  lemma {:induction false} MassCoversAdded(hashes: HashFamily, width: nat, row: nat, item: string, log: seq<Update>)
    requires width > 0 && AllNonNegative(log)
    ensures Mass(hashes, width, row, Col(hashes, width, row, item), log) >= Added(log, item)
  {
    if log != [] {
      MassCoversAdded(hashes, width, row, item, log[..|log| - 1]);
    }
  }

  /** One-sided error: the estimate is never below the true count. */
  lemma NoUnderestimate(hashes: HashFamily, width: nat, depth: nat, log: seq<Update>, item: string)
    requires width > 0 && depth > 0 && AllNonNegative(log)
    ensures EstimateOf(hashes, width, depth, log, item) >= Added(log, item)
  {
    MinMassIsMinimum(hashes, width, log, item, depth);
    var i :| 0 <= i < depth && EstimateOf(hashes, width, depth, log, item) == Mass(hashes, width, i, Col(hashes, width, i, item), log);
    MassCoversAdded(hashes, width, i, item, log);
  }

  /** The estimate of an item never inserted is at least 0, and in general is the smallest collision mass. */
  lemma EstimateNonNegative(hashes: HashFamily, width: nat, depth: nat, log: seq<Update>, item: string)
    requires width > 0 && depth > 0 && AllNonNegative(log)
    ensures EstimateOf(hashes, width, depth, log, item) >= 0
  {
    MinMassIsMinimum(hashes, width, log, item, depth);
    var i :| 0 <= i < depth && EstimateOf(hashes, width, depth, log, item) == Mass(hashes, width, i, Col(hashes, width, i, item), log);
    MassNonNegative(hashes, width, i, Col(hashes, width, i, item), log);
  }

  lemma {:induction false} MassMonotone(hashes: HashFamily, width: nat, row: nat, col: nat, log: seq<Update>, more: seq<Update>)
    requires width > 0 && AllNonNegative(more)
    ensures Mass(hashes, width, row, col, log + more) >= Mass(hashes, width, row, col, log)
  {
    if more == [] {
      assert log + more == log;
    } else {
      assert (log + more)[..|log + more| - 1] == log + more[..|more| - 1];
      MassMonotone(hashes, width, row, col, log, more[..|more| - 1]);
    }
  }

  /** Monotonicity: further increments with non-negative counts never lower an estimate. */
  lemma EstimateMonotone(hashes: HashFamily, width: nat, depth: nat, log: seq<Update>, more: seq<Update>, item: string)
    requires width > 0 && depth > 0 && AllNonNegative(more)
    ensures EstimateOf(hashes, width, depth, log + more, item) >= EstimateOf(hashes, width, depth, log, item)
  {
    MinMassIsMinimum(hashes, width, log, item, depth);
    MinMassIsMinimum(hashes, width, log + more, item, depth);
    var i :| 0 <= i < depth && EstimateOf(hashes, width, depth, log + more, item) == Mass(hashes, width, i, Col(hashes, width, i, item), log + more);
    MassMonotone(hashes, width, i, Col(hashes, width, i, item), log, more);
  }

  lemma {:induction false} SumZeros(n: nat)
    ensures SumRow(seq(n, _ => 0)) == 0
  {
    if n > 0 {
      assert seq(n, _ => 0)[1..] == seq(n - 1, _ => 0);
      SumZeros(n - 1);
    }
  }

  lemma {:induction false} SumBump(s: seq<int>, c: nat, k: int)
    requires c < |s|
    ensures SumRow(s[c := s[c] + k]) == SumRow(s) + k
  {
    if c == 0 {
      assert s[c := s[c] + k][1..] == s[1..];
    } else {
      assert s[c := s[c] + k][1..] == s[1..][c - 1 := s[c] + k];
      SumBump(s[1..], c - 1, k);
    }
  }

  /** Row-sum invariant: every row of the table holds the total mass inserted. */
  lemma {:induction false} RowSumIsTotal(hashes: HashFamily, width: nat, row: nat, log: seq<Update>)
    requires width > 0
    ensures SumRow(RowOf(hashes, width, row, log)) == Total(log)
  {
    var cells := RowOf(hashes, width, row, log);
    if log == [] {
      assert cells == seq(width, _ => 0);
      SumZeros(width);
    } else {
      var init, u := log[..|log| - 1], log[|log| - 1];
      var before := RowOf(hashes, width, row, init);
      var c := Col(hashes, width, row, u.item);
      assert cells == before[c := before[c] + u.count];
      SumBump(before, c, u.count);
      RowSumIsTotal(hashes, width, row, init);
    }
  }

  /** With a single column every item collides, so each cell holds the whole mass. */
  lemma {:induction false} WidthOneMassIsTotal(hashes: HashFamily, row: nat, log: seq<Update>)
    ensures Mass(hashes, 1, row, 0, log) == Total(log)
  {
    if log != [] {
      WidthOneMassIsTotal(hashes, row, log[..|log| - 1]);
    }
  }

  /** Degenerate width: with `width = 1` every estimate is the total mass. */
  lemma WidthOneEstimateIsTotal(hashes: HashFamily, depth: nat, log: seq<Update>, item: string)
    requires depth > 0
    ensures EstimateOf(hashes, 1, depth, log, item) == Total(log)
  {
    MinMassIsMinimum(hashes, 1, log, item, depth);
    var i :| 0 <= i < depth && EstimateOf(hashes, 1, depth, log, item) == Mass(hashes, 1, i, Col(hashes, 1, i, item), log);
    WidthOneMassIsTotal(hashes, i, log);
  }

  /** The rows of `hashes` repeat with period 8, as those of every sketch do. */
  ghost predicate PeriodEight(hashes: HashFamily)
  {
    forall row: nat, item: string :: hashes(row + 8, item) == hashes(row, item)
  }

  lemma SketchFamilyHasPeriodEight(mix: Mixer)
    ensures PeriodEight(HashFunctions(mix))
  {
    forall row: nat, item: string ensures HashFunctions(mix)(row + 8, item) == HashFunctions(mix)(row, item) {
      FamilyRepeats(mix, row, item);
    }
  }

  /** Rows `i` and `i + 8` send every item to the same column, so hold the same counters. */
  lemma RowsRepeat(hashes: HashFamily, width: nat, row: nat, col: nat, log: seq<Update>, item: string)
    requires width > 0 && PeriodEight(hashes)
    ensures Col(hashes, width, row + 8, item) == Col(hashes, width, row, item)
    ensures Mass(hashes, width, row + 8, col, log) == Mass(hashes, width, row, col, log)
  {
    assert hashes(row + 8, item) == hashes(row, item);
    RowMassRepeats(hashes, width, row, col, log);
  }

  lemma {:induction false} RowMassRepeats(hashes: HashFamily, width: nat, row: nat, col: nat, log: seq<Update>)
    requires width > 0 && PeriodEight(hashes)
    ensures Mass(hashes, width, row + 8, col, log) == Mass(hashes, width, row, col, log)
  {
    if log != [] {
      assert hashes(row + 8, log[|log| - 1].item) == hashes(row, log[|log| - 1].item);
      RowMassRepeats(hashes, width, row, col, log[..|log| - 1]);
    }
  }

  /**
   * Because the seeds repeat with period 8, rows beyond the eighth never lower
   * an estimate: a sketch of depth `d >= 8` estimates exactly as one of depth 8.
   */
  lemma {:induction false} DepthBeyondEightAddsNothing(hashes: HashFamily, width: nat, depth: nat, log: seq<Update>, item: string)
    requires width > 0 && depth >= 8 && PeriodEight(hashes)
    ensures EstimateOf(hashes, width, depth, log, item) == EstimateOf(hashes, width, 8, log, item)
  {
    if depth > 8 {
      DepthBeyondEightAddsNothing(hashes, width, depth - 1, log, item);
      var r := depth - 9;
      RowsRepeat(hashes, width, r, Col(hashes, width, r, item), log, item);
      MinMassIsMinimum(hashes, width, log, item, depth - 1);
      assert MinMass(hashes, width, log, item, depth - 1) <= Mass(hashes, width, r, Col(hashes, width, r, item), log);
      assert Mass(hashes, width, depth - 1, Col(hashes, width, depth - 1, item), log)
          == Mass(hashes, width, r, Col(hashes, width, r, item), log);
    }
  }

  // ---------------------------------------------------------------------
  // The sketch object

  /** The check of line 29: both dimensions are positive integers. */
  predicate ValidDimensions(width: JsNumber, depth: JsNumber)
  {
    IsPositiveInteger(width) && IsPositiveInteger(depth)
  }

  /** Valid dimensions that `Array(depth)` and `Array(width)` also accept. */
  predicate Constructible(width: JsNumber, depth: JsNumber)
  {
    ValidDimensions(width, depth) && width.v < MaxArrayLength && depth.v < MaxArrayLength
  }

  /** The error `new CountMinSketch(width, depth)` throws when it throws. */
  function ConstructionError(width: JsNumber, depth: JsNumber): SketchError
  {
    if ValidDimensions(width, depth) then InvalidArrayLength else InvalidDimension
  }

  class CountMinSketch {
    const width: nat
    const depth: nat
    /** `this.hashFunctions`: row `i` hashes with `hashFunctions(i, _)`. */
    const hashFunctions: HashFamily
    const table: array2<int>
    /** The increments performed so far. */
    ghost var Log: seq<Update>

    ghost predicate Valid()
      reads this, table
    {
      && width > 0 && depth > 0
      && table.Length0 == depth && table.Length1 == width
      && (forall i, j :: 0 <= i < depth && 0 <= j < width ==> table[i, j] == Mass(hashFunctions, width, i, j, Log))
    }

    /**
     * The constructor after validation: a zeroed `depth x width` table and
     * the hash function of seed `0x100000000 + i * 0x20000000` for row `i`.
     */
    constructor (width: nat, depth: nat, mix: Mixer)
      requires width > 0 && depth > 0
      ensures Valid() && fresh(table)
      ensures this.width == width && this.depth == depth && this.hashFunctions == HashFunctions(mix)
      ensures Log == []
      ensures forall i, j :: 0 <= i < depth && 0 <= j < width ==> table[i, j] == 0
    {
      this.width := width;
      this.depth := depth;
      this.hashFunctions := HashFunctions(mix);
      this.table := new int[depth, width]((_, _) => 0);
      Log := [];
    }

    /**
     * `new CountMinSketch(width, depth)`: fails with `InvalidDimension` unless
     * both are positive integers, then with `InvalidArrayLength` unless both
     * are valid array lengths.
     */
    static method Create(width: JsNumber, depth: JsNumber, mix: Mixer) returns (r: Result<CountMinSketch, SketchError>)
      ensures r.Ok? <==> Constructible(width, depth)
      ensures r.Err? ==> r.error == ConstructionError(width, depth)
      ensures r.Ok? ==> && fresh(r.value) && fresh(r.value.table) && r.value.Valid()
                        && r.value.width == width.v && r.value.depth == depth.v
                        && r.value.hashFunctions == HashFunctions(mix)
                        && r.value.Log == []
    {
      if !width.Integer? || width.v <= 0 || !depth.Integer? || depth.v <= 0 {
        return Err(InvalidDimension);
      }
      if depth.v >= MaxArrayLength || width.v >= MaxArrayLength {
        return Err(InvalidArrayLength);
      }
      var s := new CountMinSketch(width.v, depth.v, mix);
      return Ok(s);
    }

    /** `increment(item, count)`: adds `count` to one cell per row and leaves every other cell alone. */
    method Increment(item: string, count: int := 1)
      requires Valid()
      modifies this`Log, table
      ensures Valid()
      ensures Log == old(Log) + [Update(item, count)]
      ensures forall i, j :: 0 <= i < depth && 0 <= j < width ==>
        table[i, j] == old(table[i, j]) + (if j == Col(hashFunctions, width, i, item) then count else 0)
    {
      for i := 0 to depth
        invariant Log == old(Log)
        invariant forall r, j :: 0 <= r < depth && 0 <= j < width ==>
          table[r, j] == old(table[r, j]) + (if r < i && j == Col(hashFunctions, width, r, item) then count else 0)
      {
        var hash := hashFunctions(i, item);
        table[i, hash % width] := table[i, hash % width] + count;
      }
      Log := Log + [Update(item, count)];
      assert Log[..|Log| - 1] == old(Log);
    }

    /**
     * `estimate(item)`: the smallest of the `depth` cells `item` maps to. It
     * reads the table only, and is never below the item's true count.
     */
    method Estimate(item: string) returns (r: int)
      requires Valid()
      ensures r == EstimateOf(hashFunctions, width, depth, Log, item)
      ensures forall i :: 0 <= i < depth ==> r <= table[i, Col(hashFunctions, width, i, item)]
      ensures exists i :: 0 <= i < depth && r == table[i, Col(hashFunctions, width, i, item)]
      ensures AllNonNegative(Log) ==> r >= Added(Log, item)
    {
      var minEstimate := Infinity;
      for i := 0 to depth
        invariant i == 0 <==> minEstimate == Infinity
        invariant i > 0 ==> minEstimate == Finite(MinMass(hashFunctions, width, Log, item, i))
      {
        var hash := hashFunctions(i, item);
        minEstimate := Min(minEstimate, table[i, hash % width]);
      }
      r := minEstimate.value;
      MinMassIsMinimum(hashFunctions, width, Log, item, depth);
      if AllNonNegative(Log) {
        NoUnderestimate(hashFunctions, width, depth, Log, item);
      }
    }

    /** `getTable()`: the counters, row by row. */
    function GetTable(): (t: seq<seq<int>>)
      reads this, table
      requires Valid()
      ensures t == TableOf(hashFunctions, width, depth, Log)
    {
      var t := seq(depth, i requires 0 <= i < depth reads table =>
        seq(width, j requires 0 <= j < width reads table => table[i, j]));
      assert forall i :: 0 <= i < depth ==> t[i] == RowOf(hashFunctions, width, i, Log);
      t
    }
  }

  /** Row-sum invariant of a sketch object: each row of its table sums to the total inserted. */
  lemma RowSums(s: CountMinSketch)
    requires s.Valid()
    ensures forall i :: 0 <= i < s.depth ==> SumRow(s.GetTable()[i]) == Total(s.Log)
  {
    forall i | 0 <= i < s.depth ensures SumRow(s.GetTable()[i]) == Total(s.Log) {
      RowSumIsTotal(s.hashFunctions, s.width, i, s.Log);
    }
  }

  /**
   * Determinism: two sketches of equal dimensions fed the same increments hold
   * equal tables and give every item equal estimates.
   */
  lemma Deterministic(a: CountMinSketch, b: CountMinSketch, item: string)
    requires a.Valid() && b.Valid()
    requires a.width == b.width && a.depth == b.depth && a.hashFunctions == b.hashFunctions && a.Log == b.Log
    ensures a.GetTable() == b.GetTable()
    ensures forall i, j :: 0 <= i < a.depth && 0 <= j < a.width ==> a.table[i, j] == b.table[i, j]
    ensures EstimateOf(a.hashFunctions, a.width, a.depth, a.Log, item)
         == EstimateOf(b.hashFunctions, b.width, b.depth, b.Log, item)
  {
  }
}
