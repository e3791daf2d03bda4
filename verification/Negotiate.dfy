/** The length that the example client asks for (simple_commit.c), given the size that open
    reported. */
module Negotiate {
  import opened Wire
  import PoolModel

  /** C's int division truncates toward zero. */
  function CDiv(a: int, b: int): (q: int)
    requires b > 0
  {
    if a >= 0 then a / b else -((-a) / b)
  }

  const UNIT: S32 := 1024

  function ChosenLen(size: S32): (len: int)
  {
    if CDiv(size, UNIT) > 1 then UNIT * (CDiv(size, UNIT) - 1) else UNIT
  }

  /** For every int the server may report, the length is the largest positive multiple of
      1024 that leaves at least 1024 bytes, or 1024 when there is none, and no intermediate
      value leaves the range of int; and a pool whose one resource has the reported size
      grants it, under the server's strict comparison, exactly when that size exceeds 1024. */
  lemma LengthIsGranted(size: S32)
    ensures 0 < ChosenLen(size) < TWO31 && ChosenLen(size) % UNIT == 0
    ensures size >= 2048 ==> size - 2048 < ChosenLen(size) <= size - 1024
    ensures size < 2048 ==> ChosenLen(size) == 1024
    ensures -TWO31 <= CDiv(size, UNIT) - 1 && UNIT * CDiv(size, UNIT) < TWO31
    ensures PoolModel.FirstFit([size], ChosenLen(size)) == 0 <==> size > UNIT
  {
    var q := CDiv(size, UNIT);
    if size >= 0 {
      assert size == UNIT * q + size % UNIT;
    }
    if q > 1 {
      assert (UNIT * (q - 1)) % UNIT == 0;
    }
    if ChosenLen(size) >= size {
      assert [size][1..] == [];
    }
  }
}
