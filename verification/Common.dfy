/** What several modules share: optional values, fixed-width integers, and the
    operators whose meaning differs from Dafny's. */
module Common {

  datatype Option<+T> = None | Some(value: T)

  type byte = x: int | 0 <= x < 0x100
  type u16 = x: int | 0 <= x < 0x1_0000
  type u32 = x: int | 0 <= x < U32
  type u64 = x: int | 0 <= x < 0x1_0000_0000_0000_0000
  type i64 = x: int | -0x8000_0000_0000_0000 <= x < 0x8000_0000_0000_0000

  /** The number of 32-bit values. */
  const U32 := 0x1_0000_0000

  function Min(a: int, b: int): int {
    if a < b then a else b
  }

  /** Division of C: the quotient is truncated towards zero. */
  function Div(a: int, b: int): int
    requires b > 0
  {
    if a >= 0 then a / b else -((-a) / b)
  }

  predicate Blank(c: char) {
    c == ' ' || c == '\t'
  }

  lemma NotNegative(a: nat, b: nat)
    ensures a * b >= 0
  {
  }

  lemma MulMono(a: int, b: int, d: nat)
    requires a <= b
    ensures a * d <= b * d
  {
    NotNegative(b - a, d);
    assert (b - a) * d == b * d - a * d;
  }
}
