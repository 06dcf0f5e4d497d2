/** Types and small facts shared by several components. */
module Basics {

  const TWO_31: nat := 0x8000_0000
  const TWO_32: nat := 0x1_0000_0000

  type u32 = x: nat | x < TWO_32

  datatype Option<T> = None | Some(value: T)

  lemma RatioNonNegative(a: real, b: real)
    requires a >= 0.0 && b > 0.0
    ensures a / b >= 0.0
  {
    var q := a / b;
    assert q * b == a;
    assert q < 0.0 ==> q * b < 0.0;
  }
}
