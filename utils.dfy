// The derivative utilities of bingo's utils: break points at NaN rows, the
// integer falling factorial, the index arithmetic of the Savitzky-Golay
// convolution and the segment bookkeeping of CalculatePartials.
//
// Samples are reals tagged as NaN or finite; the arithmetic of the filter is
// on reals, and the Gram weights are taken as a parameter.

module Utils {
  import opened Wrappers

  /** One entry of a data matrix: NaN or a finite value. */
  datatype Sample = NaN | Finite(value: real)

  /** A data matrix as a list of rows; column 0 is where break points are looked for. */
  type Matrix = seq<seq<Sample>>

  const PartialWindowSize: int := 7
  const PartialEdgeSize: int := 3
  const DerivativeOrder: int := 1

  // ---- set_break_points

  /** The rows below n whose sample is NaN, in increasing order. */
  function NaNRows(x: seq<Sample>, n: nat): seq<int>
    requires n <= |x|
  {
    if n == 0 then []
    else NaNRows(x, n - 1) + (if x[n - 1].NaN? then [n - 1] else [])
  }

  predicate StrictlyIncreasing(s: seq<int>) {
    forall i, j :: 0 <= i < j < |s| ==> s[i] < s[j]
  }

  /** NaNRows lists exactly the NaN rows below n, strictly increasing. */
  lemma {:induction false} NaNRowsExactly(x: seq<Sample>, n: nat)
    requires n <= |x|
    ensures StrictlyIncreasing(NaNRows(x, n))
    ensures forall k :: 0 <= k < |NaNRows(x, n)| ==> 0 <= NaNRows(x, n)[k] < n
    ensures forall r :: r in NaNRows(x, n) <==> 0 <= r < n && x[r].NaN?
  {
    if n > 0 {
      NaNRowsExactly(x, n - 1);
    }
  }

  /** Rows lo..n-1 hold no NaN, so they add no break point. */
  lemma {:induction false} NaNRowsSkipFinite(x: seq<Sample>, lo: nat, n: nat)
    requires lo <= n <= |x|
    requires forall r :: lo <= r < n ==> x[r].Finite?
    ensures NaNRows(x, n) == NaNRows(x, lo)
    decreases n
  {
    if n > lo {
      NaNRowsSkipFinite(x, lo, n - 1);
    }
  }

  /** The break points of a column: its NaN rows followed by its length. */
  function BreakPoints(x: seq<Sample>): seq<int> {
    NaNRows(x, |x|) + [|x|]
  }

  /** set_break_points: push every NaN row index, then the row count. */
  method SetBreakPoints(x: seq<Sample>, breakPoints: seq<int>) returns (result: seq<int>)
    ensures result == breakPoints + BreakPoints(x)
  {
    result := breakPoints;
    var i := 0;
    while i < |x|
      invariant 0 <= i <= |x|
      invariant result == breakPoints + NaNRows(x, i)
    {
      if x[i].NaN? {
        result := result + [i];
      }
      i := i + 1;
    }
    result := result + [|x|];
  }

  /**
   * The break points are strictly increasing, end with the row count, all
   * lie in [0, rows], and every one but the last is a NaN row.
   */
  lemma BreakPointsShape(x: seq<Sample>)
    ensures |BreakPoints(x)| >= 1 && BreakPoints(x)[|BreakPoints(x)| - 1] == |x|
    ensures StrictlyIncreasing(BreakPoints(x))
    ensures forall k :: 0 <= k < |BreakPoints(x)| ==> 0 <= BreakPoints(x)[k] <= |x|
    ensures forall k :: 0 <= k < |BreakPoints(x)| - 1 ==> x[BreakPoints(x)[k]].NaN?
  {
    NaNRowsExactly(x, |x|);
    var bp := BreakPoints(x);
    forall k | 0 <= k < |bp| - 1
      ensures x[bp[k]].NaN?
    {
      assert bp[k] == NaNRows(x, |x|)[k];
      assert bp[k] in NaNRows(x, |x|);
    }
  }

  // ---- GenFact

  /** The product of the integers lo, lo+1, ..., hi-1 (1 when the range is empty). */
  function Product(lo: int, hi: int): int
    decreases hi - lo
  {
    if hi <= lo then 1 else Product(lo, hi - 1) * (hi - 1)
  }

  /** The falling factorial a·(a-1)·…·(a-b+1), defined by recursion on b. */
  function FallingFactorial(a: int, b: int): int
    decreases b
  {
    if b <= 0 then 1 else a * FallingFactorial(a - 1, b - 1)
  }

  function Factorial(n: nat): nat {
    if n == 0 then 1 else n * Factorial(n - 1)
  }

  /** GenFact: multiply the integers from a-b+1 up to a into an accumulator. */
  method GenFact(a: int, b: int) returns (fact: int)
    ensures fact == Product(a - b + 1, a + 1)
  {
    fact := 1;
    var i := a - b + 1;
    if i < a + 1 {
      while i < a + 1
        invariant a - b + 1 <= i <= a + 1
        invariant fact == Product(a - b + 1, i)
        decreases a + 1 - i
      {
        fact := fact * i;
        i := i + 1;
      }
    }
  }

  /** The loop's product is the falling factorial, and 1 when b <= 0. */
  lemma {:induction false} GenFactIsFallingFactorial(a: int, b: int)
    ensures Product(a - b + 1, a + 1) == FallingFactorial(a, b)
    ensures b <= 0 ==> Product(a - b + 1, a + 1) == 1
    decreases b
  {
    if b > 0 {
      GenFactIsFallingFactorial(a - 1, b - 1);
      assert Product(a - b + 1, a + 1) == Product(a - b + 1, a) * a;
    }
  }

  /** GenFact(a, b) · (a-b)! == a! for 0 <= b <= a. */
  lemma {:induction false} GenFactFactorial(a: nat, b: nat)
    requires b <= a
    ensures FallingFactorial(a, b) * Factorial(a - b) == Factorial(a)
    decreases b
  {
    if b > 0 {
      GenFactFactorial(a - 1, b - 1);
      var rest, tail := FallingFactorial(a - 1, b - 1), Factorial(a - b);
      assert FallingFactorial(a, b) == a * rest;
      assert rest * tail == Factorial(a - 1);
      MultiplyAssociates(a, rest, tail);
    }
  }

  /** Associativity of the product, kept apart so GenFactFactorial stays linear. */
  lemma MultiplyAssociates(a: int, b: int, c: int)
    ensures (a * b) * c == a * (b * c)
  {
  }

  /**
   * The arguments the partial-derivative filter passes (half window 3,
   * polynomial order up to 3) keep every GenFact within a 32-bit int.
   */
  lemma GenFactFitsInt32ForPartials()
    ensures forall i :: 0 <= i <= 3 ==>
      0 < FallingFactorial(6, i) < 0x8000_0000 && 0 < FallingFactorial(6 + i + 1, i + 1) < 0x8000_0000
  {
    assert FallingFactorial(6, 0) == 1 && FallingFactorial(7, 1) == 7;
    assert FallingFactorial(6, 1) == 6 && FallingFactorial(8, 2) == 56;
    assert FallingFactorial(6, 2) == 30 && FallingFactorial(9, 3) == 504;
    assert FallingFactorial(6, 3) == 120 && FallingFactorial(10, 4) == 5040;
  }

  // ---- convolution

  /** The centre of the window used for output row i: clamped to [h, len-h-1]. */
  function Center(len: int, h: int, i: int): int {
    if i < h then h
    else if len - i <= h then len - h - 1
    else i
  }

  /** The weight column used for output row i. */
  function WeightColumn(len: int, h: int, i: int): int {
    if i < h then i
    else if len - i <= h then 2 * h + 1 - (len - i)
    else h
  }

  /**
   * With at least 2h+1 samples, the centre lies in [h, len-h-1], so the
   * window c-h..c+h is in range; the weight column lies in [0, 2h] and is
   * the offset of row i inside that window. Interior rows are their own
   * centre and use the middle column.
   */
  lemma WindowInRange(len: int, h: int, i: int)
    requires 0 <= h && 2 * h + 1 <= len && 0 <= i < len
    ensures h <= Center(len, h, i) <= len - h - 1
    ensures 0 <= Center(len, h, i) - h && Center(len, h, i) + h < len
    ensures 0 <= WeightColumn(len, h, i) <= 2 * h
    ensures WeightColumn(len, h, i) == i - Center(len, h, i) + h
    ensures h <= i < len - h ==> Center(len, h, i) == i && WeightColumn(len, h, i) == h
  {
  }

  /** With fewer than 2h+1 samples (but some), row 0 reads past the end of the data. */
  lemma ShortDataReadsPastEnd(len: int, h: int)
    requires 0 < len < 2 * h + 1
    ensures 0 < h && Center(len, h, 0) + h >= len
  {
  }

  predicate WeightsCover(weights: seq<seq<real>>, h: int) {
    |weights| > 2 * h && forall r :: 0 <= r < |weights| ==> |weights[r]| > 2 * h
  }

  /**
   * The first k terms of output row i: data(c+j) · weights(j+h, w) for
   * j = -h .. -h+k-1.
   */
  function WindowSum(data: seq<real>, h: int, weights: seq<seq<real>>, i: nat, k: nat): real
    requires 0 <= h && 2 * h + 1 <= |data| && i < |data| && k <= 2 * h + 1 && WeightsCover(weights, h)
  {
    if k == 0 then 0.0
    else
      WindowInRange(|data|, h, i);
      var c, w, j := Center(|data|, h, i), WeightColumn(|data|, h, i), k - 1 - h;
      WindowSum(data, h, weights, i, k - 1) + data[c + j] * weights[j + h][w]
  }

  /** The value convolution gives to output row i: the whole window. */
  function ConvolutionAt(data: seq<real>, h: int, weights: seq<seq<real>>, i: nat): real
    requires 0 <= h && 2 * h + 1 <= |data| && i < |data| && WeightsCover(weights, h)
  {
    WindowSum(data, h, weights, i, 2 * h + 1)
  }

  /**
   * One pass of convolution's outer loop: row i of the output is reset and
   * accumulates its window, clamped at the edges; no other row changes.
   */
  method ConvolveRow(data: seq<real>, h: int, weights: seq<seq<real>>, out: array<real>, i: nat)
    requires 0 <= h && 2 * h + 1 <= |data| && i < |data| == out.Length && WeightsCover(weights, h)
    modifies out
    ensures out[i] == ConvolutionAt(data, h, weights, i)
    ensures forall k :: 0 <= k < out.Length && k != i ==> out[k] == old(out[k])
  {
    var len := |data|;
    var center: int;
    var wInd: int;
    if i < h {
      center := h;
      wInd := i;
    } else if len - i <= h {
      center := len - h - 1;
      wInd := 2 * h + 1 - (len - i);
    } else {
      center := i;
      wInd := h;
    }
    WindowInRange(len, h, i);
    out[i] := 0.0;
    var j := -h;
    while j < h + 1
      invariant -h <= j <= h + 1
      invariant out[i] == WindowSum(data, h, weights, i, j + h)
      invariant forall k :: 0 <= k < out.Length && k != i ==> out[k] == old(out[k])
    {
      out[i] := out[i] + data[center + j] * weights[j + h][wInd];
      j := j + 1;
    }
  }

  /** convolution: one output per input row, each the weighted window sum. */
  method Convolution(data: seq<real>, h: int, weights: seq<seq<real>>) returns (r: seq<real>)
    requires 0 <= h && (|data| == 0 || 2 * h + 1 <= |data|) && WeightsCover(weights, h)
    ensures |r| == |data|
    ensures forall i :: 0 <= i < |data| ==> r[i] == ConvolutionAt(data, h, weights, i)
  {
    var len := |data|;
    var out := new real[len];
    var i := 0;
    while i < len
      invariant 0 <= i <= len
      invariant forall k :: 0 <= k < i ==> out[k] == ConvolutionAt(data, h, weights, k)
    {
      ConvolveRow(data, h, weights, out, i);
      i := i + 1;
    }
    r := out[..];
  }

  // ---- SavitzkyGolay

  /** C++ integer division of a by a positive b, truncating toward zero. */
  function TruncDiv(a: int, b: int): int
    requires b > 0
  {
    if a >= 0 then a / b else -((-a) / b)
  }

  /** m = (window_size - 1) / 2 as C++ computes it. */
  function HalfWindow(windowSize: int): int {
    TruncDiv(windowSize - 1, 2)
  }

  /** The half window is never negative for a non-negative window, and a window of 7 gives 3. */
  lemma HalfWindowFacts(windowSize: int)
    requires windowSize >= 0
    ensures HalfWindow(windowSize) >= 0
    ensures windowSize == 0 ==> HalfWindow(windowSize) == 0
    ensures windowSize % 2 == 1 ==> 2 * HalfWindow(windowSize) + 1 == windowSize
    ensures HalfWindow(PartialWindowSize) == PartialEdgeSize
  {
  }

  /**
   * SavitzkyGolay: fill the (2m+1)×(2m+1) table weights(i+m, j+m) with the
   * Gram weight of (i, j) and convolve the column with it.
   */
  method SavitzkyGolay(y: seq<real>, windowSize: int, polynomialOrder: int, derivativeOrder: int,
                       gramWeight: (int, int, int, int, int) -> real)
    returns (r: seq<real>, weights: seq<seq<real>>)
    requires windowSize >= 0
    requires |y| == 0 || 2 * HalfWindow(windowSize) + 1 <= |y|
    ensures var m := HalfWindow(windowSize);
      |weights| == 2 * m + 1
      && (forall a :: 0 <= a < |weights| ==> |weights[a]| == 2 * m + 1)
      && (forall a, b :: 0 <= a < 2 * m + 1 && 0 <= b < 2 * m + 1 ==>
            weights[a][b] == gramWeight(a - m, b - m, m, polynomialOrder, derivativeOrder))
    ensures |r| == |y|
    ensures WeightsCover(weights, HalfWindow(windowSize))
    ensures forall i :: 0 <= i < |y| ==> r[i] == ConvolutionAt(y, HalfWindow(windowSize), weights, i)
  {
    // (window_size - 1) / 2 with C++'s truncating division
    var m := HalfWindow(windowSize);
    weights := [];
    var i := -m;
    while i < m + 1
      invariant -m <= i <= m + 1
      invariant |weights| == i + m
      invariant forall a :: 0 <= a < |weights| ==> |weights[a]| == 2 * m + 1
      invariant forall a, b :: 0 <= a < |weights| && 0 <= b < 2 * m + 1 ==>
                  weights[a][b] == gramWeight(a - m, b - m, m, polynomialOrder, derivativeOrder)
    {
      var row: seq<real> := [];
      var j := -m;
      while j < m + 1
        invariant -m <= j <= m + 1
        invariant |row| == j + m
        invariant forall b :: 0 <= b < |row| ==> row[b] == gramWeight(i, b - m, m, polynomialOrder, derivativeOrder)
      {
        row := row + [gramWeight(i, j, m, polynomialOrder, derivativeOrder)];
        j := j + 1;
      }
      weights := weights + [row];
      i := i + 1;
    }
    r := Convolution(y, m, weights);
  }

  // ---- CalculatePartials

  /** The column-0 samples of a matrix whose rows are non-empty. */
  function FirstColumn(x: Matrix): (c: seq<Sample>)
    requires forall i :: 0 <= i < |x| ==> |x[i]| > 0
    ensures |c| == |x| && forall i :: 0 <= i < |x| ==> c[i] == x[i][0]
  {
    seq(|x|, i requires 0 <= i < |x| => x[i][0])
  }

  /** The integers lo, ..., hi-1. */
  function Range(lo: int, hi: int): (s: seq<int>)
    ensures |s| == if hi <= lo then 0 else hi - lo
    ensures forall k :: 0 <= k < |s| ==> s[k] == lo + k
    decreases hi - lo
  {
    if hi <= lo then [] else [lo] + Range(lo + 1, hi)
  }

  /** Where CalculatePartials stands after some break points: the rows kept so far and the next segment's start. */
  datatype Progress = Progress(kept: seq<int>, start: int)

  /**
   * The rows CalculatePartials keeps from the first k segments: a segment
   * ends at each break point, is trimmed by 3 rows at its start and 4 at
   * its end (7 in all), and the next one starts one row past the break
   * point. None once a segment is shorter than the 7-row window.
   */
  function KeptRows(breakPoints: seq<int>, k: nat): Option<Progress>
    requires k <= |breakPoints|
  {
    if k == 0 then Some(Progress([], 0))
    else
      match KeptRows(breakPoints, k - 1)
      case None => None
      case Some(p) =>
        var bp := breakPoints[k - 1];
        if bp - p.start < PartialWindowSize then None
        else Some(Progress(p.kept + Range(p.start + PartialEdgeSize, bp - (PartialWindowSize - PartialEdgeSize)), bp + 1))
  }

  /** A failed segment fails the whole run. */
  lemma {:induction false} KeptRowsStaysNone(breakPoints: seq<int>, k: nat, n: nat)
    requires k <= n <= |breakPoints| && KeptRows(breakPoints, k).None?
    ensures KeptRows(breakPoints, n).None?
    decreases n - k
  {
    if k < n {
      KeptRowsStaysNone(breakPoints, k, n - 1);
    }
  }

  /**
   * After k segments the kept rows are strictly increasing, lie in
   * [3, start-5], avoid every break point, and number start - 8k: each
   * segment loses its 7 trimmed rows and each break point its own row.
   */
  lemma {:induction false} KeptRowsShape(breakPoints: seq<int>, k: nat)
    requires k <= |breakPoints| && StrictlyIncreasing(breakPoints)
    requires KeptRows(breakPoints, k).Some?
    ensures var p := KeptRows(breakPoints, k).value;
      StrictlyIncreasing(p.kept)
      && |p.kept| == p.start - 8 * k
      && (k > 0 ==> p.start == breakPoints[k - 1] + 1)
      && (k == 0 ==> p.start == 0)
      && (forall t :: 0 <= t < |p.kept| ==> 3 <= p.kept[t] <= p.start - 5)
      && (forall t :: 0 <= t < |p.kept| ==> p.kept[t] !in breakPoints)
  {
    if k > 0 {
      KeptRowsShape(breakPoints, k - 1);
      var before := KeptRows(breakPoints, k - 1).value;
      var bp := breakPoints[k - 1];
      var front := Range(before.start + PartialEdgeSize, bp - (PartialWindowSize - PartialEdgeSize));
      var p := KeptRows(breakPoints, k).value;
      assert p.kept == before.kept + front;
      forall t | 0 <= t < |p.kept| ensures p.kept[t] !in breakPoints {
        if t >= |before.kept| {
          var r := front[t - |before.kept|];
          assert p.kept[t] == r;
          forall j | 0 <= j < |breakPoints| ensures breakPoints[j] != r {
            if j < k - 1 {
              assert breakPoints[j] < breakPoints[k - 2] + 1 || j == k - 2;
            }
          }
        }
      }
    }
  }

  /** The rows of x at the given indices. */
  function Rows(x: Matrix, kept: seq<int>): Matrix
    requires forall k :: 0 <= k < |kept| ==> 0 <= kept[k] < |x|
  {
    seq(|kept|, k requires 0 <= k < |kept| => x[kept[k]])
  }

  /** The rows kept over all the break points of column 0 lie inside x. */
  lemma KeptRowsInside(x: Matrix)
    requires forall i :: 0 <= i < |x| ==> |x[i]| > 0
    ensures var bps := BreakPoints(FirstColumn(x));
      KeptRows(bps, |bps|).Some? ==>
        forall t :: 0 <= t < |KeptRows(bps, |bps|).value.kept| ==> 0 <= KeptRows(bps, |bps|).value.kept[t] < |x|
  {
    var bps := BreakPoints(FirstColumn(x));
    BreakPointsShape(FirstColumn(x));
    if KeptRows(bps, |bps|).Some? {
      KeptRowsShape(bps, |bps|);
    }
  }

  /**
   * What CalculatePartials returns as its x part: the kept rows of x, or
   * None when some segment is shorter than the filter window.
   */
  function PartialRows(x: Matrix): Option<Matrix>
    requires forall i :: 0 <= i < |x| ==> |x[i]| > 0
  {
    var bps := BreakPoints(FirstColumn(x));
    KeptRowsInside(x);
    match KeptRows(bps, |bps|)
    case None => None
    case Some(p) => Some(Rows(x, p.kept))
  }

  /** One segment of CalculatePartials: the rows start..bp-1 of x with 3 rows cut at the front and 4 at the back. */
  method TrimSegment(x: Matrix, start: int, bp: int) returns (trimmed: Matrix)
    requires 0 <= start && bp <= |x| && bp - start >= PartialWindowSize
    ensures var front := Range(start + PartialEdgeSize, bp - (PartialWindowSize - PartialEdgeSize));
      |trimmed| == |front| && forall t :: 0 <= t < |front| ==> 0 <= front[t] < |x| && trimmed[t] == x[front[t]]
  {
    var segment := x[start..bp];
    trimmed := segment[PartialEdgeSize..bp - start - (PartialWindowSize - PartialEdgeSize)];
  }

  /** The loop state of CalculatePartials after k break points: xReturn holds the kept rows so far. */
  predicate Tracks(x: Matrix, breakPoints: seq<int>, k: nat, start: int, kept: seq<int>, xReturn: Matrix) {
    k <= |breakPoints| && 0 <= start
    && KeptRows(breakPoints, k) == Some(Progress(kept, start))
    && (start == 0 ==> kept == [])
    && |xReturn| == |kept|
    && (forall t :: 0 <= t < |kept| ==> 0 <= kept[t] < |x| && xReturn[t] == x[kept[t]])
  }

  /** One accepted segment keeps Tracks: its trimmed rows extend the kept rows. */
  lemma TracksStep(x: Matrix, breakPoints: seq<int>, k: nat, start: int, kept: seq<int>, xReturn: Matrix,
                   trimmed: Matrix)
    requires Tracks(x, breakPoints, k, start, kept, xReturn) && k < |breakPoints|
    requires breakPoints[k] - start >= PartialWindowSize
    requires var front := Range(start + PartialEdgeSize, breakPoints[k] - (PartialWindowSize - PartialEdgeSize));
      |trimmed| == |front| && forall t :: 0 <= t < |front| ==> 0 <= front[t] < |x| && trimmed[t] == x[front[t]]
    ensures var front := Range(start + PartialEdgeSize, breakPoints[k] - (PartialWindowSize - PartialEdgeSize));
      Tracks(x, breakPoints, k + 1, breakPoints[k] + 1, kept + front, xReturn + trimmed)
  {
    var front := Range(start + PartialEdgeSize, breakPoints[k] - (PartialWindowSize - PartialEdgeSize));
    assert KeptRows(breakPoints, k + 1) == Some(Progress(kept + front, breakPoints[k] + 1));
    var next := xReturn + trimmed;
    forall t | 0 <= t < |kept + front|
      ensures 0 <= (kept + front)[t] < |x| && next[t] == x[(kept + front)[t]]
    {
      if t >= |kept| {
        assert (kept + front)[t] == front[t - |kept|] && next[t] == trimmed[t - |kept|];
      } else {
        assert (kept + front)[t] == kept[t] && next[t] == xReturn[t];
      }
    }
  }

  /** A segment shorter than the window fails the run. */
  lemma TracksFail(x: Matrix, breakPoints: seq<int>, k: nat, start: int, kept: seq<int>, xReturn: Matrix)
    requires Tracks(x, breakPoints, k, start, kept, xReturn) && k < |breakPoints|
    requires breakPoints[k] - start < PartialWindowSize
    ensures KeptRows(breakPoints, |breakPoints|).None?
  {
    assert KeptRows(breakPoints, k + 1).None?;
    KeptRowsStaysNone(breakPoints, k + 1, |breakPoints|);
  }

  /** After the last break point, xReturn holds the rows KeptRows names. */
  lemma TracksDone(x: Matrix, breakPoints: seq<int>, start: int, kept: seq<int>, xReturn: Matrix)
    requires Tracks(x, breakPoints, |breakPoints|, start, kept, xReturn)
    ensures KeptRows(breakPoints, |breakPoints|).Some?
    ensures var done := KeptRows(breakPoints, |breakPoints|).value.kept;
      (forall t :: 0 <= t < |done| ==> 0 <= done[t] < |x|) && xReturn == Rows(x, done)
  {
  }

  /**
   * One pass of CalculatePartials' loop over the break points: fail where
   * the C++ code would ask for a block of negative size, otherwise append
   * the trimmed segment and move start past the break point.
   */
  method TrimStep(x: Matrix, breakPoints: seq<int>, k: nat, start: int, ghost kept: seq<int>, xReturn: Matrix)
    returns (ok: bool, start': int, ghost kept': seq<int>, xReturn': Matrix)
    requires Tracks(x, breakPoints, k, start, kept, xReturn) && k < |breakPoints| && breakPoints[k] <= |x|
    ensures ok <==> breakPoints[k] - start >= PartialWindowSize
    ensures ok ==> Tracks(x, breakPoints, k + 1, start', kept', xReturn')
    ensures !ok ==> KeptRows(breakPoints, |breakPoints|).None?
  {
    var breakPoint := breakPoints[k];
    if breakPoint - start < PartialWindowSize {
      TracksFail(x, breakPoints, k, start, kept, xReturn);
      return false, start, kept, xReturn;
    }
    var trimmed := TrimSegment(x, start, breakPoint);
    TracksStep(x, breakPoints, k, start, kept, xReturn, trimmed);
    if start == 0 {
      xReturn' := trimmed;
      assert xReturn == [] && xReturn' == xReturn + trimmed;
    } else {
      xReturn' := xReturn + trimmed;
    }
    kept' := kept + Range(start + PartialEdgeSize, breakPoint - (PartialWindowSize - PartialEdgeSize));
    start' := breakPoint + 1;
    ok := true;
  }

  /** The loop of CalculatePartials over the break points: trim each segment and concatenate what remains. */
  method TrimSegments(x: Matrix, breakPoints: seq<int>) returns (r: Result<Matrix, string>)
    requires forall k :: 0 <= k < |breakPoints| ==> 0 <= breakPoints[k] <= |x|
    ensures r.Success? <==> KeptRows(breakPoints, |breakPoints|).Some?
    ensures r.Success? ==>
      (forall t :: 0 <= t < |KeptRows(breakPoints, |breakPoints|).value.kept| ==>
         0 <= KeptRows(breakPoints, |breakPoints|).value.kept[t] < |x|)
      && r.value == Rows(x, KeptRows(breakPoints, |breakPoints|).value.kept)
  {
    var start := 0;
    var xReturn: Matrix := [];
    ghost var kept: seq<int> := [];
    var k := 0;
    while k < |breakPoints|
      invariant Tracks(x, breakPoints, k, start, kept, xReturn)
    {
      var ok;
      ok, start, kept, xReturn := TrimStep(x, breakPoints, k, start, kept, xReturn);
      if !ok {
        return Failure("segment shorter than the filter window");
      }
      k := k + 1;
    }
    TracksDone(x, breakPoints, start, kept, xReturn);
    r := Success(xReturn);
  }

  /**
   * CalculatePartials' row bookkeeping: the break points of column 0, then
   * the trimmed segments between them. The result is the x part of the
   * returned pair; the derivative part has the same rows.
   */
  method CalculatePartials(x: Matrix) returns (r: Result<Matrix, string>)
    requires forall i :: 0 <= i < |x| ==> |x[i]| > 0
    ensures r.Success? <==> PartialRows(x).Some?
    ensures r.Success? ==> r.value == PartialRows(x).value
  {
    var breakPoints := SetBreakPoints(FirstColumn(x), []);
    assert breakPoints == BreakPoints(FirstColumn(x));
    BreakPointsShape(FirstColumn(x));
    r := TrimSegments(x, breakPoints);
  }

  /** Tests' case: 20 rows without NaN keep 13 rows. */
  lemma PartialsOfTwentyRows(x: Matrix)
    requires |x| == 20 && forall i :: 0 <= i < |x| ==> |x[i]| > 0 && x[i][0].Finite?
    ensures PartialRows(x).Some? && |PartialRows(x).value| == 13
  {
    var c := FirstColumn(x);
    NaNRowsSkipFinite(c, 0, 20);
    assert BreakPoints(c) == [20];
    assert KeptRows([20], 1).Some?;
    KeptRowsShape([20], 1);
  }

  /** Tests' case: two runs of 20 rows split by one NaN row keep 26 rows. */
  lemma PartialsAcrossOneNaN(x: Matrix)
    requires |x| == 41 && forall i :: 0 <= i < |x| ==> |x[i]| > 0
    requires x[20][0].NaN? && forall i :: 0 <= i < |x| && i != 20 ==> x[i][0].Finite?
    ensures PartialRows(x).Some? && |PartialRows(x).value| == 26
  {
    var c := FirstColumn(x);
    NaNRowsSkipFinite(c, 0, 20);
    NaNRowsSkipFinite(c, 21, 41);
    assert NaNRows(c, 21) == [20];
    assert BreakPoints(c) == [20, 41];
    assert KeptRows([20, 41], 2).Some?;
    KeptRowsShape([20, 41], 2);
  }

  /**
   * Over all break points: rows + 1 - 8·(number of break points) rows are
   * kept, in increasing order, and none has a NaN in column 0.
   */
  lemma PartialRowsShape(x: Matrix)
    requires forall i :: 0 <= i < |x| ==> |x[i]| > 0
    requires PartialRows(x).Some?
    ensures |PartialRows(x).value| == |x| + 1 - 8 * |BreakPoints(FirstColumn(x))|
    ensures forall row: seq<Sample> :: row in PartialRows(x).value ==> |row| > 0 && row[0].Finite?
  {
    var c := FirstColumn(x);
    var bps := BreakPoints(c);
    BreakPointsShape(c);
    NaNRowsExactly(c, |c|);
    KeptRowsShape(bps, |bps|);
    var kept := KeptRows(bps, |bps|).value.kept;
    assert forall r :: 0 <= r < |c| && c[r].NaN? ==> r in bps;
    forall row: seq<Sample> | row in PartialRows(x).value ensures |row| > 0 && row[0].Finite? {
      var t :| 0 <= t < |kept| && row == x[kept[t]];
      assert kept[t] !in bps;
    }
  }

  /** Data shorter than the 7-row window cannot be processed. */
  lemma PartialsOfShortData(x: Matrix)
    requires |x| < PartialWindowSize && forall i :: 0 <= i < |x| ==> |x[i]| > 0
    ensures PartialRows(x).None?
  {
    var c := FirstColumn(x);
    BreakPointsShape(c);
    var bps := BreakPoints(c);
    assert KeptRows(bps, 1).None?;
    KeptRowsStaysNone(bps, 1, |bps|);
  }
}
