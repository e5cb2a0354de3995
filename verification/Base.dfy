/** Shared vocabulary: optional values, results, and Go's 64-bit integers. */
module Base {
  datatype Option<+T> = None | Some(value: T)

  datatype Result<+T, +E> = Ok(value: T) | Err(error: E)

  const TWO_TO_THE_64: int := 0x1_0000_0000_0000_0000

  type u64 = x: int | 0 <= x < 0x1_0000_0000_0000_0000
  type i64 = x: int | -0x8000_0000_0000_0000 <= x < 0x8000_0000_0000_0000

  /** Conversion to uint64: the residue modulo 2^64 (see WrapIsResidue). */
  function Wrap(x: int): u64
    decreases if x < 0 then TWO_TO_THE_64 - x else x
  {
    if x < 0 then Wrap(x + TWO_TO_THE_64)
    else if x >= TWO_TO_THE_64 then Wrap(x - TWO_TO_THE_64)
    else x
  }

  /** uint64 addition and subtraction, with Go's wrap-around. */
  function Add64(a: u64, b: u64): u64 { Wrap(a + b) }

  function Sub64(a: u64, b: u64): u64 { Wrap(a - b) }

  lemma {:induction false} WrapIsResidue(x: int)
    ensures Wrap(x) == x % TWO_TO_THE_64
    decreases if x < 0 then TWO_TO_THE_64 - x else x
  {
    if x < 0 { WrapIsResidue(x + TWO_TO_THE_64); } else if x >= TWO_TO_THE_64 { WrapIsResidue(x - TWO_TO_THE_64); }
  }

  lemma {:induction false} WrapAdd(a: int, b: int)
    ensures Wrap(Wrap(a) + b) == Wrap(a + b)
    decreases if a < 0 then TWO_TO_THE_64 - a else a
  {
    if a < 0 {
      WrapAdd(a + TWO_TO_THE_64, b);
      WrapPeriod(a + b);
    } else if a >= TWO_TO_THE_64 {
      WrapAdd(a - TWO_TO_THE_64, b);
      WrapPeriod(a + b - TWO_TO_THE_64);
    }
  }

  lemma WrapSame(a: int, b: int, c: int)
    requires Wrap(a) == Wrap(b)
    ensures Wrap(a + c) == Wrap(b + c)
  {
    WrapAdd(a, c);
    WrapAdd(b, c);
  }

  lemma WrapPeriod(x: int)
    ensures Wrap(x + TWO_TO_THE_64) == Wrap(x)
  {
  }

  function Abs(x: int): nat { if x < 0 then -x else x }

  /** Go's integer division truncates toward zero. */
  function TruncDiv(a: int, b: int): int
    requires b > 0
  {
    if a >= 0 then a / b else -((-a) / b)
  }
}
