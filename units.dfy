/** Unit conversion and the two-decimal rounding of `round(x, 2)`, on exact numbers. */
module Units {

  /** `1024 ** 3`. */
  const BytesPerGiB: nat := 1073741824

  /** `round(x, 2)`, as a count of hundredths; ties are rounded up. */
  function RoundHundredths(x: real): (r: int)
    ensures (r as real) - 0.5 <= 100.0 * x < (r as real) + 0.5
    ensures x >= 0.0 ==> r >= 0
  {
    (100.0 * x + 0.5).Floor
  }

  /** `round(bytes / 1024**3, 2)`: a byte count in hundredths of a GiB, the nearest such
      value to the exact quotient. */
  function BytesToCentiGiB(bytes: nat): (r: nat)
    ensures (r as real) - 0.5 <= 100.0 * (bytes as real) / (BytesPerGiB as real) < (r as real) + 0.5
  {
    RoundHundredths(bytes as real / BytesPerGiB as real)
  }

  /** Converting more bytes never gives fewer hundredths. */
  lemma BytesToCentiGiBMonotone(a: nat, b: nat)
    requires a <= b
    ensures BytesToCentiGiB(a) <= BytesToCentiGiB(b)
  {
    var x, y := a as real / BytesPerGiB as real, b as real / BytesPerGiB as real;
    assert x <= y;
    assert 100.0 * x + 0.5 <= 100.0 * y + 0.5;
  }
}
