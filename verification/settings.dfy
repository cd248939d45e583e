/**
  The min/max vector size settings (`validateAndApplySettings`) and the
  random length drawn between them (`randLen`), vectors.js.
*/
module Settings {
  import opened Wrappers

  const HardMin: int := 1
  const HardMax: int := 400
  /** What `randLen` returns when the range is empty. */
  const FallbackLength: int := 50

  datatype Sizes = Sizes(min: int, max: int)

  /** The invariant validation establishes: 1 <= min < max <= 400. */
  predicate ValidSizes(s: Sizes) {
    HardMin <= s.min < s.max <= HardMax
  }

  /**
    Validates the parsed bounds (`None` is NaN): a missing or too small min
    becomes 1, a missing or too large max becomes 400, and a pair with
    min >= max is repaired by max := min + 1, or to (399, 400) when that
    would exceed 400.
  */
  function ValidateSizes(minIn: Option<int>, maxIn: Option<int>): (r: Sizes)
    ensures ValidSizes(r)
    // the minimum survives whenever it is itself usable
    ensures minIn.Some? && HardMin <= minIn.value < HardMax ==> r.min == minIn.value
    ensures minIn.None? || minIn.value < HardMin ==> r.min == HardMin
    ensures minIn.Some? && minIn.value >= HardMax ==> r == Sizes(HardMax - 1, HardMax)
    // the maximum survives whenever it is at most 400 and above the resulting minimum
    ensures maxIn.Some? && maxIn.value <= HardMax && maxIn.value > r.min ==> r.max == maxIn.value
    ensures maxIn.Some? && maxIn.value <= r.min ==> r.max == r.min + 1
    ensures maxIn.None? || maxIn.value > HardMax ==> r.max == HardMax
  {
    var tempMin := if minIn.None? || minIn.value < HardMin then HardMin else minIn.value;
    var tempMax := if maxIn.None? || maxIn.value > HardMax then HardMax else maxIn.value;
    if tempMin >= tempMax then
      if tempMin + 1 > HardMax then Sizes(HardMax - 1, HardMax)
      else Sizes(tempMin, tempMin + 1)
    else Sizes(tempMin, tempMax)
  }

  /** A pair that is already valid is left as it is. */
  lemma ValidSizesUnchanged(s: Sizes)
    requires ValidSizes(s)
    ensures ValidateSizes(Some(s.min), Some(s.max)) == s
  {
  }

  /** Validating the result of a validation changes nothing. */
  lemma ValidateIdempotent(minIn: Option<int>, maxIn: Option<int>)
    ensures var r := ValidateSizes(minIn, maxIn); ValidateSizes(Some(r.min), Some(r.max)) == r
  {
    ValidSizesUnchanged(ValidateSizes(minIn, maxIn));
  }

  /** `Math.floor(draw * n)` for a draw in [0, 1): the integer in [0, n) whose unit interval holds draw * n. */
  function FloorDraw(draw: real, n: int): (k: int)
    requires 0.0 <= draw < 1.0 && n > 0
    ensures 0 <= k < n
    ensures k as real <= draw * n as real < k as real + 1.0
  {
    var x := draw * n as real;
    DrawBelowBound(draw, n as real);
    var k := x.Floor;
    assert k as real <= x < k as real + 1.0;
    assert 0.0 <= x < n as real;
    assert k as real < n as real && -1.0 < k as real;
    k
  }

  /** A draw in [0, 1) scales a positive bound to a value in [0, bound). */
  lemma DrawBelowBound(draw: real, bound: real)
    requires 0.0 <= draw < 1.0 && bound > 0.0
    ensures 0.0 <= draw * bound < bound
  {
    assert bound - draw * bound == (1.0 - draw) * bound;
    assert (1.0 - draw) * bound > 0.0;
  }

  /** Only one integer's unit interval holds draw * n, so the drawn value is fixed by the draw. */
  lemma FloorDrawUnique(draw: real, n: int, j: int)
    requires 0.0 <= draw < 1.0 && n > 0
    requires j as real <= draw * n as real < j as real + 1.0
    ensures FloorDraw(draw, n) == j
  {
    var k := FloorDraw(draw, n);
    assert k as real < j as real + 1.0 && j as real < k as real + 1.0;
  }

  /** Every integer in [0, n) is the floor of some draw in [0, 1). */
  lemma FloorDrawOnto(n: int, k: int)
    requires 0 <= k < n
    ensures 0.0 <= k as real / n as real < 1.0
    ensures FloorDraw(k as real / n as real, n) == k
  {
    var d := k as real / n as real;
    assert d * n as real == k as real;
  }

  /**
    A random length in [min, max] from a draw in [0, 1), or 50 when the range
    max - min + 1 is empty.
  */
  function RandLen(minSize: int, maxSize: int, draw: real): (len: int)
    requires 0.0 <= draw < 1.0
    ensures maxSize - minSize + 1 <= 0 ==> len == FallbackLength
    ensures maxSize - minSize + 1 > 0 ==> minSize <= len <= maxSize
    ensures maxSize - minSize + 1 > 0 ==>
              (len - minSize) as real <= draw * (maxSize - minSize + 1) as real < (len - minSize + 1) as real
  {
    var range := maxSize - minSize + 1;
    if range <= 0 then FallbackLength
    else FloorDraw(draw, range) + minSize
  }

  /** Each length in [min, max] is what some draw produces: k + min for the draw k / range. */
  lemma RandLenCoversRange(minSize: int, maxSize: int, k: int)
    requires 0 <= k < maxSize - minSize + 1
    ensures var range := maxSize - minSize + 1;
            0.0 <= k as real / range as real < 1.0
            && RandLen(minSize, maxSize, k as real / range as real) == k + minSize
  {
    FloorDrawOnto(maxSize - minSize + 1, k);
  }

  /** After validation the range holds at least two lengths, so the fallback never applies. */
  lemma ValidatedRangeNeverFallsBack(s: Sizes, draw: real)
    requires ValidSizes(s) && 0.0 <= draw < 1.0
    ensures s.max - s.min + 1 >= 2
    ensures s.min <= RandLen(s.min, s.max, draw) <= s.max
  {
  }
}
