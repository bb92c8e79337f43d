/** Numeric helpers of the pendulum simulator (js/utils.js): angle conversion,
    clamping, averages, evenly spaced samples, ReLU and small dense matrices
    stored as sequences of rows. */
module Utils {
  import opened Wrappers

  /** Math.PI, taken as an exact positive real. */
  const Pi: real := 3.141592653589793

  // ---------------------------------------------------------------------------
  // Angles
  // ---------------------------------------------------------------------------

  function DegToRad(degrees: real): (radians: real)
    ensures radians > 0.0 <==> degrees > 0.0
    ensures radians < 0.0 <==> degrees < 0.0
  {
    degrees * Pi / 180.0
  }

  function RadToDeg(radians: real): (degrees: real)
    ensures degrees > 0.0 <==> radians > 0.0
    ensures degrees < 0.0 <==> radians < 0.0
  {
    radians * 180.0 / Pi
  }

  lemma DegreesRoundTrip(degrees: real)
    ensures RadToDeg(DegToRad(degrees)) == degrees
  {
  }

  lemma RadiansRoundTrip(radians: real)
    ensures DegToRad(RadToDeg(radians)) == radians
  {
  }

  /** A value of `Math.random()`: a number in [0, 1). */
  type Draw = d: real | 0.0 <= d < 1.0

  /** `Math.floor(Math.random() * n)`: an index below n. */
  function Pick(d: Draw, n: nat): (i: nat)
    requires n > 0
    ensures (i as real) <= d * (n as real) < (i as real) + 1.0
    ensures i < n
  {
    ScaledDraw(d, n as real);
    (d * (n as real)).Floor
  }

  lemma ScaledDraw(d: Draw, n: real)
    requires n > 0.0
    ensures 0.0 <= d * n < n
  {
    assert n - d * n == (1.0 - d) * n;
  }

  /** utils.random(min, max): a draw spread over [min, max). */
  function Random(min: real, max: real, d: Draw): (r: real)
    ensures min < max ==> min <= r < max
  {
    var width := max - min;
    if width > 0.0 then ScaledDraw(d, width); d * width + min else d * width + min
  }

  /** A count that is never negative: a loop `for (i = 0; i < n; i++)` runs
      this many times. */
  function Max0(n: int): nat
  {
    if n > 0 then n else 0
  }

  /** Math.abs. */
  function Abs(x: real): real
  {
    if x < 0.0 then -x else x
  }

  // ---------------------------------------------------------------------------
  // Clamping
  // ---------------------------------------------------------------------------

  /** Math.min(Math.max(value, min), max). When min > max the result is max. */
  function Clamp(value: real, min: real, max: real): (r: real)
    ensures r <= max
    ensures min <= max ==> min <= r
    ensures min <= value <= max ==> r == value
    ensures r == value || r == min || r == max
  {
    var raised := if value > min then value else min;
    if raised < max then raised else max
  }

  // ---------------------------------------------------------------------------
  // Averages
  // ---------------------------------------------------------------------------

  /** Left-to-right sum, as `reduce((a, b) => a + b, 0)`. */
  function Sum(s: seq<real>): real
  {
    if |s| == 0 then 0.0 else Sum(s[..|s| - 1]) + s[|s| - 1]
  }

  lemma {:induction false} SumBounds(s: seq<real>, lo: real, hi: real)
    requires forall i :: 0 <= i < |s| ==> lo <= s[i] <= hi
    ensures |s| as real * lo <= Sum(s) <= |s| as real * hi
  {
    if |s| > 0 {
      SumBounds(s[..|s| - 1], lo, hi);
      assert (|s| - 1) as real * lo + lo == |s| as real * lo;
      assert (|s| - 1) as real * hi + hi == |s| as real * hi;
    }
  }

  lemma {:induction false} SumConcat(a: seq<real>, b: seq<real>)
    ensures Sum(a + b) == Sum(a) + Sum(b)
  {
    if |b| > 0 {
      SumConcat(a, b[..|b| - 1]);
      assert (a + b)[..|a + b| - 1] == a + b[..|b| - 1];
    } else {
      assert a + b == a;
    }
  }

  /** The sum does not depend on the order of the terms: a reordered array
      sums to the same total. */
  lemma {:induction false} SumPermutation(a: seq<real>, b: seq<real>)
    requires multiset(a) == multiset(b)
    ensures Sum(a) == Sum(b)
    decreases |a|
  {
    if |a| == 0 {
      assert |b| == |multiset(b)| == 0;
    } else {
      var n := |a| - 1;
      var x := a[n];
      assert a == a[..n] + [x];
      assert x in multiset(b);
      var j :| 0 <= j < |b| && b[j] == x;
      var rest := b[..j] + b[j + 1..];
      assert b == b[..j] + [x] + b[j + 1..];
      assert multiset(rest) == multiset(b) - multiset{x};
      assert multiset(a[..n]) == multiset(a) - multiset{x};
      SumPermutation(a[..n], rest);
      SumConcat(b[..j] + [x], b[j + 1..]);
      SumConcat(b[..j], b[j + 1..]);
      assert (b[..j] + [x])[..j] == b[..j];
    }
  }

  /** The mean; `None` stands for the NaN that 0 / 0 gives on an empty array. */
  function Mean(s: seq<real>): (r: Option<real>)
    ensures r.None? <==> |s| == 0
  {
    if |s| == 0 then None else Some(Sum(s) / |s| as real)
  }

  /** Every bound on the elements bounds the mean, in particular the smallest
      and the largest element. */
  lemma MeanWithinBounds(s: seq<real>, lo: real, hi: real)
    requires |s| > 0
    requires forall i :: 0 <= i < |s| ==> lo <= s[i] <= hi
    ensures lo <= Mean(s).value <= hi
  {
    SumBounds(s, lo, hi);
    var n := |s| as real;
    assert Mean(s).value == Sum(s) / n;
    assert lo == (n * lo) / n;
    assert hi == (n * hi) / n;
  }

  function Squares(s: seq<real>): (r: seq<real>)
    ensures |r| == |s|
    ensures forall i :: 0 <= i < |s| ==> r[i] == s[i] * s[i] && r[i] >= 0.0
  {
    seq(|s|, i requires 0 <= i < |s| => s[i] * s[i])
  }

  /** sqrt(mean((x - mean)^2)); `sqrt` is left abstract. `None` is the NaN of
      an empty array. */
  function StandardDeviation(s: seq<real>, sqrt: real -> real): (r: Option<real>)
    ensures r.None? <==> |s| == 0
    ensures r.Some? && (forall y :: y >= 0.0 ==> sqrt(y) >= 0.0) ==> r.value >= 0.0
  {
    if |s| == 0 then None
    else
      var avg := Mean(s).value;
      var deviations := seq(|s|, i requires 0 <= i < |s| => s[i] - avg);
      MeanOfSquaresNonNegative(deviations);
      Some(sqrt(Mean(Squares(deviations)).value))
  }

  lemma {:induction false} SumNonNegative(s: seq<real>)
    requires forall i :: 0 <= i < |s| ==> s[i] >= 0.0
    ensures Sum(s) >= 0.0
  {
    if |s| > 0 {
      SumNonNegative(s[..|s| - 1]);
    }
  }

  /** The mean of squares is never negative, so the square root taken by the
      standard deviation and by the RMSE is of a non-negative number. */
  lemma MeanOfSquaresNonNegative(s: seq<real>)
    requires |s| > 0
    ensures Mean(Squares(s)).value >= 0.0
  {
    SumNonNegative(Squares(s));
  }

  // ---------------------------------------------------------------------------
  // Evenly spaced samples
  // ---------------------------------------------------------------------------

  /** `num` values from start to end with equal steps. With num = 1 the step
      is a division by zero and the single element is NaN (`None`). */
  function Linspace(start: real, end: real, num: nat): (r: Option<seq<real>>)
    ensures r.None? <==> num == 1
    ensures r.Some? ==> |r.value| == num
    ensures r.Some? && num >= 2 ==> r.value[0] == start && r.value[num - 1] == end
    ensures r.Some? ==> forall i :: 0 < i < num ==>
      r.value[i] - r.value[i - 1] == (end - start) / (num - 1) as real
  {
    if num == 1 then None
    else
      var step := (end - start) / (num - 1) as real;
      var values := seq(num, i requires 0 <= i < num => start + step * i as real);
      assert num >= 2 ==> values[num - 1] == end by {
        if num >= 2 {
          assert step * (num - 1) as real == end - start;
        }
      }
      Some(values)
  }

  // ---------------------------------------------------------------------------
  // Dense matrices
  // ---------------------------------------------------------------------------

  type Matrix = seq<seq<real>>

  /** Number of columns, read from the first row as the source does. */
  function Cols(m: Matrix): nat
  {
    if |m| == 0 then 0 else |m[0]|
  }

  predicate HasShape(m: Matrix, rows: nat, cols: nat)
  {
    |m| == rows && forall i :: 0 <= i < |m| ==> |m[i]| == cols
  }

  /** Every row as long as the first. */
  predicate IsRect(m: Matrix)
  {
    HasShape(m, |m|, Cols(m))
  }

  function Zeros(rows: nat, cols: nat): (m: Matrix)
    ensures HasShape(m, rows, cols)
    ensures forall i, j :: 0 <= i < rows && 0 <= j < cols ==> m[i][j] == 0.0
  {
    seq(rows, _ => seq(cols, _ => 0.0))
  }

  function Ones(rows: nat, cols: nat): (m: Matrix)
    ensures HasShape(m, rows, cols)
    ensures forall i, j :: 0 <= i < rows && 0 <= j < cols ==> m[i][j] == 1.0
  {
    seq(rows, _ => seq(cols, _ => 1.0))
  }

  function Eye(size: nat): (m: Matrix)
    ensures HasShape(m, size, size)
    ensures forall i, j :: 0 <= i < size && 0 <= j < size ==>
      (m[i][j] == 1.0 <==> i == j) && (m[i][j] == 0.0 <==> i != j)
  {
    seq(size, i => seq(size, j => if i == j then 1.0 else 0.0))
  }

  /** `matrix[0].map(...)`: an empty matrix has no first row and the source
      throws (`None`). */
  function Transpose(m: Matrix): (t: Option<Matrix>)
    requires IsRect(m)
    ensures t.None? <==> |m| == 0
    ensures t.Some? ==> HasShape(t.value, Cols(m), |m|)
    ensures t.Some? ==> forall i, j :: 0 <= i < |m| && 0 <= j < Cols(m) ==> t.value[j][i] == m[i][j]
  {
    if |m| == 0 then None
    else Some(seq(|m[0]|, j requires 0 <= j < |m[0]| => seq(|m|, i requires 0 <= i < |m| => m[i][j])))
  }

  lemma TransposeTwice(m: Matrix)
    requires IsRect(m) && |m| > 0 && Cols(m) > 0
    ensures Transpose(m).Some? && IsRect(Transpose(m).value)
    ensures Transpose(Transpose(m).value) == Some(m)
  {
    var t := Transpose(m).value;
    assert Cols(t) == |m|;
    var tt := Transpose(t).value;
    assert |tt| == |m|;
    forall i | 0 <= i < |m|
      ensures tt[i] == m[i]
    {
      assert |tt[i]| == |m[i]|;
      forall j | 0 <= j < |m[i]|
        ensures tt[i][j] == m[i][j]
      {
        assert tt[i][j] == t[j][i];
      }
    }
    assert tt == m;
  }

  /** Sum over k < n of row[k] * b[k][j], accumulated for increasing k. */
  function DotColumn(row: seq<real>, b: Matrix, j: nat, n: nat): real
    requires n <= |row| && n <= |b|
    requires forall k :: 0 <= k < n ==> j < |b[k]|
  {
    if n == 0 then 0.0 else DotColumn(row, b, j, n - 1) + row[n - 1] * b[n - 1][j]
  }

  /** What matrixMultiply reads without failing: every row k < a[0].length of
      b exists, and b[0] exists whenever a has a row. */
  predicate CanMultiply(a: Matrix, b: Matrix)
  {
    IsRect(a) && IsRect(b) && Cols(a) <= |b| && (|a| > 0 ==> |b| > 0)
  }

  function ProductRow(a: Matrix, b: Matrix, i: nat): (row: seq<real>)
    requires CanMultiply(a, b) && i < |a|
    ensures |row| == Cols(b)
  {
    seq(Cols(b), j requires 0 <= j < Cols(b) => DotColumn(a[i], b, j, Cols(a)))
  }

  function Product(a: Matrix, b: Matrix): (c: Matrix)
    requires CanMultiply(a, b)
    ensures HasShape(c, |a|, Cols(b))
    ensures forall i, j :: 0 <= i < |a| && 0 <= j < Cols(b) ==> c[i][j] == DotColumn(a[i], b, j, Cols(a))
  {
    seq(|a|, i requires 0 <= i < |a| => ProductRow(a, b, i))
  }

  /** Multiplying by eye(n) picks the entry in column j. */
  lemma {:induction false} DotColumnWithEye(row: seq<real>, size: nat, j: nat, n: nat)
    requires n <= size && n <= |row| && j < size
    ensures DotColumn(row, Eye(size), j, n) == if j < n then row[j] else 0.0
  {
    if n > 0 {
      DotColumnWithEye(row, size, j, n - 1);
    }
  }

  lemma ProductWithIdentity(a: Matrix)
    requires IsRect(a) && Cols(a) > 0
    ensures CanMultiply(a, Eye(Cols(a)))
    ensures Product(a, Eye(Cols(a))) == a
  {
    var e := Eye(Cols(a));
    var c := Product(a, e);
    assert |c| == |a|;
    forall i | 0 <= i < |a|
      ensures c[i] == a[i]
    {
      forall j | 0 <= j < Cols(a)
        ensures c[i][j] == a[i][j]
      {
        DotColumnWithEye(a[i], Cols(a), j, Cols(a));
      }
    }
  }

  /** matrixMultiply: three nested loops with a running sum. */
  method MatrixMultiply(a: Matrix, b: Matrix) returns (c: Matrix)
    requires CanMultiply(a, b)
    ensures c == Product(a, b)
  {
    c := [];
    var i := 0;
    while i < |a|
      invariant 0 <= i <= |a|
      invariant |c| == i
      invariant forall p :: 0 <= p < i ==> c[p] == ProductRow(a, b, p)
    {
      var row: seq<real> := [];
      var j := 0;
      while j < Cols(b)
        invariant 0 <= j <= Cols(b)
        invariant row == ProductRow(a, b, i)[..j]
      {
        var sum := 0.0;
        var k := 0;
        while k < Cols(a)
          invariant 0 <= k <= Cols(a)
          invariant sum == DotColumn(a[i], b, j, k)
        {
          sum := sum + a[i][k] * b[k][j];
          k := k + 1;
        }
        row := row + [sum];
        j := j + 1;
      }
      c := c + [row];
      i := i + 1;
    }
  }

  /** b has an entry wherever a has one. */
  predicate Covers(b: Matrix, a: Matrix)
  {
    |a| <= |b| && forall i :: 0 <= i < |a| ==> Cols(a) <= |b[i]|
  }

  function Elementwise(a: Matrix, b: Matrix, subtract: bool): (c: Matrix)
    requires IsRect(a) && Covers(b, a)
    ensures HasShape(c, |a|, Cols(a))
    ensures forall i, j :: 0 <= i < |a| && 0 <= j < Cols(a) ==>
      c[i][j] == if subtract then a[i][j] - b[i][j] else a[i][j] + b[i][j]
  {
    seq(|a|, i requires 0 <= i < |a| =>
      seq(Cols(a), j requires 0 <= j < Cols(a) => if subtract then a[i][j] - b[i][j] else a[i][j] + b[i][j]))
  }

  /** Subtracting b undoes adding it. */
  lemma SubtractUndoesAdd(a: Matrix, b: Matrix)
    requires IsRect(a) && Covers(b, a)
    ensures IsRect(Elementwise(a, b, false)) && Covers(b, Elementwise(a, b, false))
    ensures Elementwise(Elementwise(a, b, false), b, true) == a
  {
    var s := Elementwise(a, b, false);
    var d := Elementwise(s, b, true);
    assert |d| == |a|;
    forall i | 0 <= i < |a|
      ensures d[i] == a[i]
    {
      assert |d[i]| == |a[i]|;
    }
  }

  /** matrixAdd and matrixSubtract: two nested loops over a's shape. */
  method ElementwiseLoop(a: Matrix, b: Matrix, subtract: bool) returns (c: Matrix)
    requires IsRect(a) && Covers(b, a)
    ensures c == Elementwise(a, b, subtract)
  {
    var expected := Elementwise(a, b, subtract);
    c := [];
    var i := 0;
    while i < |a|
      invariant 0 <= i <= |a|
      invariant |c| == i
      invariant forall p :: 0 <= p < i ==> c[p] == expected[p]
    {
      var row: seq<real> := [];
      var j := 0;
      while j < Cols(a)
        invariant 0 <= j <= Cols(a)
        invariant row == expected[i][..j]
      {
        row := row + [if subtract then a[i][j] - b[i][j] else a[i][j] + b[i][j]];
        j := j + 1;
      }
      c := c + [row];
      i := i + 1;
    }
  }

  method MatrixAdd(a: Matrix, b: Matrix) returns (c: Matrix)
    requires IsRect(a) && Covers(b, a)
    ensures HasShape(c, |a|, Cols(a))
    ensures forall i, j :: 0 <= i < |a| && 0 <= j < Cols(a) ==> c[i][j] == a[i][j] + b[i][j]
  {
    c := ElementwiseLoop(a, b, false);
  }

  method MatrixSubtract(a: Matrix, b: Matrix) returns (c: Matrix)
    requires IsRect(a) && Covers(b, a)
    ensures HasShape(c, |a|, Cols(a))
    ensures forall i, j :: 0 <= i < |a| && 0 <= j < Cols(a) ==> c[i][j] == a[i][j] - b[i][j]
  {
    c := ElementwiseLoop(a, b, true);
  }

  // ---------------------------------------------------------------------------
  // Activation
  // ---------------------------------------------------------------------------

  /** Math.max(0, x). */
  function Relu(x: real): (r: real)
    ensures r >= 0.0 && r >= x
    ensures r == x || r == 0.0
  {
    if x > 0.0 then x else 0.0
  }

  function ReluDerivative(x: real): (r: real)
    ensures r == 0.0 || r == 1.0
    ensures r == 1.0 <==> x > 0.0
    ensures r == 1.0 <==> Relu(x) == x && x != 0.0
  {
    if x > 0.0 then 1.0 else 0.0
  }

  // ---------------------------------------------------------------------------
  // Training rounds
  // ---------------------------------------------------------------------------

  /** How many rounds a training loop `for (i = 0; i < limit && isTraining; i++)`
      runs from round i on, when stopTraining is called during the pause after
      round k exactly when stopRequested(k) holds. */
  function RoundsFrom(limit: int, stopRequested: nat -> bool, i: nat): nat
    decreases limit - i
  {
    if i >= limit then i
    else if stopRequested(i) then i + 1
    else RoundsFrom(limit, stopRequested, i + 1)
  }

  function RoundsRun(limit: int, stopRequested: nat -> bool): nat
  {
    RoundsFrom(limit, stopRequested, 0)
  }

  /** Training runs at most `limit` rounds; exactly that many when no stop is
      requested, and one more than the index of the first stop request
      otherwise. */
  lemma {:induction false} RoundsFromCount(limit: int, stopRequested: nat -> bool, i: nat)
    requires i <= Max0(limit)
    decreases limit - i
    ensures i <= RoundsFrom(limit, stopRequested, i) <= Max0(limit)
    ensures (forall k :: i <= k < limit ==> !stopRequested(k)) ==>
      RoundsFrom(limit, stopRequested, i) == Max0(limit)
    ensures forall k :: i <= k < limit && stopRequested(k) && (forall p :: i <= p < k ==> !stopRequested(p)) ==>
      RoundsFrom(limit, stopRequested, i) == k + 1
  {
    if i < limit && !stopRequested(i) {
      RoundsFromCount(limit, stopRequested, i + 1);
      forall k | i <= k < limit && stopRequested(k) && (forall p :: i <= p < k ==> !stopRequested(p))
        ensures RoundsFrom(limit, stopRequested, i) == k + 1
      {
        assert i + 1 <= k && forall p :: i + 1 <= p < k ==> !stopRequested(p);
      }
    } else if i < limit {
      forall k | i <= k < limit && stopRequested(k) && (forall p :: i <= p < k ==> !stopRequested(p))
        ensures RoundsFrom(limit, stopRequested, i) == k + 1
      {
        assert k == i;
      }
    }
  }
}
