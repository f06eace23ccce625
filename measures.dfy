/** The reduction ratio both the prompt optimizer and the context
    compressor report. */
module Measures {

  /** `ratio` of `originalLength` is the number of characters removed. */
  predicate Removed(ratio: real, originalLength: nat, newLength: nat)
  {
    ratio * originalLength as real == (originalLength - newLength) as real
  }

  /** `1 - new_length / original_length`, exactly; Python divides the two
      ints as floats. */
  function Reduction(originalLength: nat, newLength: nat): (r: real)
    requires originalLength > 0
    ensures Removed(r, originalLength, newLength)
    ensures newLength <= originalLength ==> 0.0 <= r <= 1.0
    ensures newLength > originalLength ==> r < 0.0
  {
    var q := newLength as real / originalLength as real;
    assert q * originalLength as real == newLength as real;
    1.0 - q
  }
}
