/**
 * `analyzeVolume`: the sum of squares over the analyser's time-domain
 * buffer and its mean. The square root taken of the mean is left to the
 * caller (it is a parameter of the component's volume tick).
 */
module VolumeMeter {

  /** `fftSize` given to the analyser when the audio context is set up. */
  const FftSize: nat := 2048

  /** `frequencyBinCount`, the length of the buffer `analyzeVolume` allocates: half of `fftSize`. */
  const FrequencyBinCount: nat := FftSize / 2

  /** The sum of squares of the samples, accumulated in index order. */
  function SumOfSquaresOf(s: seq<real>): real
  {
    if s == [] then 0.0 else SumOfSquaresOf(s[..|s| - 1]) + s[|s| - 1] * s[|s| - 1]
  }

  /** A sum of squares is never negative. */
  lemma {:induction false} SumOfSquaresNonNegative(s: seq<real>)
    ensures SumOfSquaresOf(s) >= 0.0
    decreases |s|
  {
    if s != [] {
      SumOfSquaresNonNegative(s[..|s| - 1]);
      SquareNonNegative(s[|s| - 1]);
    }
  }

  lemma SquareNonNegative(x: real)
    ensures x * x >= 0.0
  {
    if x < 0.0 {
      assert x * x == (-x) * (-x);
    }
  }

  /** The mean of the squares, `sum / dataArray.length`; never negative. */
  function MeanSquare(s: seq<real>): (m: real)
    requires |s| > 0
    ensures m >= 0.0
  {
    SumOfSquaresNonNegative(s);
    SumOfSquaresOf(s) / (|s| as real)
  }

  /** A window of `n` copies of amplitude `a` has sum of squares `n * a * a`. */
  lemma {:induction false} ConstantWindowSum(a: real, n: nat)
    ensures SumOfSquaresOf(seq(n, _ => a)) == (n as real) * (a * a)
    decreases n
  {
    if n > 0 {
      var w := seq(n, _ => a);
      assert w[..n - 1] == seq(n - 1, _ => a);
      ConstantWindowSum(a, n - 1);
      assert (n as real) * (a * a) == ((n - 1) as real) * (a * a) + a * a;
    }
  }

  /** A constant window's mean square is the amplitude squared, so its RMS is `|a|`. */
  lemma ConstantWindowMeanSquare(a: real, n: nat)
    requires n > 0
    ensures MeanSquare(seq(n, _ => a)) == a * a
  {
    ConstantWindowSum(a, n);
    var k := n as real;
    assert (k * (a * a)) / k == a * a;
  }

  /** The `for` loop of `analyzeVolume`: `sum += dataArray[i] * dataArray[i]`. */
  method SumOfSquares(data: array<real>) returns (sum: real)
    ensures sum == SumOfSquaresOf(data[..])
  {
    sum := 0.0;
    for i := 0 to data.Length
      invariant sum == SumOfSquaresOf(data[..i])
    {
      assert data[..i + 1][..i] == data[..i];
      sum := sum + data[i] * data[i];
    }
    assert data[..data.Length] == data[..];
  }
}
