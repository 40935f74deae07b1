/**
 * java.util.Random as the generators use it. Each draw is a nondeterministic
 * choice among the values Random may return; the model makes no claim about
 * their distribution.
 */
module Draws {
  import opened Types
  import JrgenUtil

  /** Random.nextInt(bound): a value in [0, bound), or an exception for a bound that is not positive. */
  method NextInt(bound: int) returns (r: Result<int>)
    ensures bound <= 0 ==> r == Err(IllegalArgument(NonPositiveBound))
    ensures 0 < bound ==> r.Ok? && 0 <= r.value < bound
  {
    if bound <= 0 {
      return Err(IllegalArgument(NonPositiveBound));
    }
    var i :| 0 <= i < bound;
    return Ok(i);
  }

  /** Random.nextDouble(): a value in [0, 1). */
  method NextDouble() returns (d: real)
    ensures 0.0 <= d < 1.0
  {
    d :| 0.0 <= d < 1.0;
  }

  /** An element of a non-empty sequence, chosen with nextInt(|s|). */
  method Choose<T>(s: seq<T>) returns (r: Result<T>)
    ensures |s| == 0 ==> r == Err(IllegalArgument(NonPositiveBound))
    ensures 0 < |s| ==> r.Ok? && r.value in s
  {
    var i := NextInt(|s|);
    if i.Err? {
      return Err(i.error);
    }
    return Ok(s[i.value]);
  }

  /** JrgenUtil.getNumberFromRange with a fresh draw, in its corrected form. */
  method NumberFromRange(min: int, max: int) returns (r: Result<int>)
    ensures r.Err? <==> max < min
    ensures r.Err? ==> r.error == IllegalArgument(MinGreaterThanMax)
    ensures r.Ok? ==> min <= r.value <= max
  {
    var frac := NextDouble();
    r := JrgenUtil.NumberFromRange(min, max, frac);
  }
}
