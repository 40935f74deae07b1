/**
 * JrgenUtil: argument validation and the bounded random draw every numeric
 * generator uses. Random draws are explicit parameters here: `coin` is the
 * value of Random.nextBoolean() and `frac` the value of Random.nextDouble(),
 * which lies in [0, 1).
 */
module JrgenUtil {
  import opened Types

  const TwoTo64: int := 0x1_0000_0000_0000_0000

  /**
   * Two's-complement reduction to 64 bits, as Java long arithmetic does, of
   * an exact sum or difference of two longs.
   */
  function Wrap64(x: int): (r: Int64)
    requires -TwoTo64 <= x < TwoTo64
    ensures r == x || r == x - TwoTo64 || r == x + TwoTo64
    ensures MinInt64 <= x <= MaxInt64 ==> r == x
  {
    if MaxInt64 < x then x - TwoTo64 else if x < MinInt64 then x + TwoTo64 else x
  }

  /** Java's (long) cast of a double in range: truncation toward zero. */
  function TruncateTowardZero(x: real): (r: int)
    ensures 0.0 <= x ==> 0 <= r && (r as real) <= x < (r as real) + 1.0
    ensures x < 0.0 ==> r <= 0 && (r as real) - 1.0 < x <= (r as real)
  {
    if 0.0 <= x then x.Floor else -((-x).Floor)
  }

  /** validateMaxMin: throws exactly when max is below min. */
  function ValidateMaxMin(min: int, max: int): (s: Status)
    ensures s.Threw? <==> max < min
    ensures s.Threw? ==> s.error == IllegalArgument(MinGreaterThanMax)
  {
    if max < min then Threw(IllegalArgument(MinGreaterThanMax)) else Done
  }

  /** validatePositiveNumber: throws exactly for negative numbers (zero passes). */
  function ValidatePositiveNumber(n: int): (s: Status)
    ensures s.Threw? <==> n < 0
    ensures s.Threw? ==> s.error == IllegalArgument(NegativeNumber)
  {
    if n < 0 then Threw(IllegalArgument(NegativeNumber)) else Done
  }

  /** validateNonNullArgument: throws exactly for a null argument. */
  function ValidateNonNullArgument<T>(p: Option<T>): (s: Status)
    ensures s.Threw? <==> p.None?
    ensures s.Threw? ==> s.error == IllegalArgument(NullArgument)
  {
    if p.None? then Threw(IllegalArgument(NullArgument)) else Done
  }

  /**
   * (long)(frac * w) for a drawn frac in [0, 1): it lies between 0 and w,
   * never reaching w unless w is 0.
   */
  function Scaled(frac: real, w: int): (t: int)
    requires 0.0 <= frac < 1.0
    ensures 0 < w ==> 0 <= t < w
    ensures w < 0 ==> w < t <= 0
    ensures w == 0 ==> t == 0
  {
    ScaledBounds(frac, w);
    TruncateTowardZero(frac * (w as real))
  }

  /** The truncated product lies between 0 and w, reaching w only when w is 0. */
  lemma ScaledBounds(frac: real, w: int)
    requires 0.0 <= frac < 1.0
    ensures 0 < w ==> 0 <= TruncateTowardZero(frac * (w as real)) < w
    ensures w < 0 ==> w < TruncateTowardZero(frac * (w as real)) <= 0
    ensures w == 0 ==> TruncateTowardZero(frac * (w as real)) == 0
  {
    if 0 < w {
      ScaledPositive(frac, w);
    } else if w < 0 {
      ScaledNegative(frac, w);
    } else {
      assert frac * (w as real) == 0.0;
    }
  }

  /** For a positive width the truncated product lies in [0, w). */
  lemma ScaledPositive(frac: real, w: int)
    requires 0.0 <= frac < 1.0 && 0 < w
    ensures 0 <= TruncateTowardZero(frac * (w as real)) < w
  {
    ProductBelow(frac, w);
  }

  /** For a negative width (a wrapped range) the truncated product lies in (w, 0]. */
  lemma ScaledNegative(frac: real, w: int)
    requires 0.0 <= frac < 1.0 && w < 0
    ensures w < TruncateTowardZero(frac * (w as real)) <= 0
  {
    var y := frac * ((-w) as real);
    ProductBelow(frac, -w);
    assert frac * (w as real) == -y;
    NegatedTruncation(y);
  }

  /** Truncation toward zero commutes with negation. */
  lemma NegatedTruncation(y: real)
    ensures TruncateTowardZero(-y) == -TruncateTowardZero(y)
  {
  }

  /**
   * getNumberFromRange(long, long) as written: a range of width one is a
   * coin toss, any other range is min + (long)(frac * (max - min)) in
   * 64-bit arithmetic. The double product is taken exactly.
   */
  function NumberFromRangeAsWritten(min: Int64, max: Int64, coin: bool, frac: real): (r: Result<Int64>)
    requires 0.0 <= frac < 1.0
    ensures r.Err? <==> max < min
  {
    if max < min then Err(IllegalArgument(MinGreaterThanMax))
    else if Wrap64(max - min) == 1 then Ok(if coin then min else max)
    else Ok(Wrap64(min + Scaled(frac, Wrap64(max - min))))
  }

  /**
   * The draw the documentation promises: a value in [min, max], every one
   * of them reachable, computed without overflow. The rest of the model uses
   * this draw.
   */
  function NumberFromRange(min: int, max: int, frac: real): (r: Result<int>)
    requires 0.0 <= frac < 1.0
    ensures r.Err? <==> max < min
    ensures r.Err? ==> r.error == IllegalArgument(MinGreaterThanMax)
    ensures r.Ok? ==> min <= r.value <= max
  {
    if max < min then Err(IllegalArgument(MinGreaterThanMax))
    else
      var n := max - min + 1;
      ProductBelow(frac, n);
      Ok(min + (frac * (n as real)).Floor)
  }

  /** frac * n lies in [0, n) for frac in [0, 1). */
  lemma ProductBelow(frac: real, n: int)
    requires 0.0 <= frac < 1.0 && 0 < n
    ensures 0.0 <= frac * (n as real) < (n as real)
  {
    assert frac * (n as real) < 1.0 * (n as real);
  }

  /** Every value of [min, max] is produced by some draw of the corrected range. */
  lemma {:induction false} NumberFromRangeReachesAll(min: int, max: int, v: int)
    requires min <= v <= max
    ensures exists frac: real :: 0.0 <= frac < 1.0 && NumberFromRange(min, max, frac) == Ok(v)
  {
    var n := max - min + 1;
    var frac := (v - min) as real / n as real;
    assert frac * (n as real) == (v - min) as real;
    assert ((v - min) as real).Floor == v - min;
    assert NumberFromRange(min, max, frac) == Ok(v);
  }

  /**
   * As written, no draw ever yields max once the range is wider than one and
   * its width fits in a long: (long)(frac * (max - min)) is at most max - min - 1.
   */
  lemma {:induction false} AsWrittenNeverReachesMax(min: Int64, max: Int64, coin: bool, frac: real)
    requires 0.0 <= frac < 1.0
    requires 2 <= max - min <= MaxInt64
    ensures NumberFromRangeAsWritten(min, max, coin, frac).Ok?
    ensures min <= NumberFromRangeAsWritten(min, max, coin, frac).value < max
  {
    var w: int := max - min;
    assert Wrap64(w) == w;
    var t := Scaled(frac, w);
    assert Wrap64(min + t) == min + t;
  }

  /** Example of the same defect: container sizes in [0, 10] are never 10. */
  lemma AsWrittenDefaultContainerRange(coin: bool, frac: real)
    requires 0.0 <= frac < 1.0
    ensures NumberFromRangeAsWritten(0, 10, coin, frac).Ok?
    ensures NumberFromRangeAsWritten(0, 10, coin, frac).value != 10
  {
    AsWrittenNeverReachesMax(0, 10, coin, frac);
  }

  /**
   * As written, max - min wraps around when the range is wider than
   * Long.MAX_VALUE, and the result falls below min.
   */
  lemma AsWrittenOverflowsWideRange()
    ensures NumberFromRangeAsWritten(-0x4000_0000_0000_0000, 0x4000_0000_0000_0000, false, 0.5)
         == Ok(MinInt64)
    ensures MinInt64 < -0x4000_0000_0000_0000
  {
    var min: Int64 := -0x4000_0000_0000_0000;
    var max: Int64 := 0x4000_0000_0000_0000;
    assert Wrap64(max - min) == MinInt64;
    assert Scaled(0.5, MinInt64) == -0x4000_0000_0000_0000;
    assert Wrap64(min + -0x4000_0000_0000_0000) == MinInt64;
  }

  /**
   * For ranges whose bounds are ints, shorts or bytes the width fits in a
   * long, so the overflow cannot happen and the draw stays in [min, max].
   */
  lemma {:induction false} AsWrittenInRangeForInt32Bounds(min: Int32, max: Int32, coin: bool, frac: real)
    requires 0.0 <= frac < 1.0
    requires min <= max
    ensures NumberFromRangeAsWritten(min, max, coin, frac).Ok?
    ensures min <= NumberFromRangeAsWritten(min, max, coin, frac).value <= max
  {
    if 2 <= max - min {
      AsWrittenNeverReachesMax(min, max, coin, frac);
    }
  }
}
