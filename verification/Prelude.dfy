/** Small value types shared by the keeper's components. */
module Prelude {

  datatype Option<+T> = None | Some(value: T)

  /** A JavaScript number that is either a finite integer or one of NaN / +-Infinity. */
  datatype Num = Finite(v: int) | NonFinite

  function Max(a: int, b: int): int {
    if a < b then b else a
  }

  function Min(a: int, b: int): int {
    if a < b then a else b
  }

  function Abs(x: int): nat {
    if x < 0 then -x else x
  }

  /** `(a + b - 1) / b`: the least q with q * b >= a. */
  function CeilDiv(a: int, b: int): (q: int)
    requires b > 0
    ensures (q - 1) * b < a <= q * b
    ensures a > 0 ==> q > 0
    ensures a == 0 ==> q == 0
  {
    var q := (a + b - 1) / b;
    assert q * b + (a + b - 1) % b == a + b - 1;
    assert (q - 1) * b == q * b - b;
    q
  }

  lemma Product(a: nat, b: nat)
    ensures a * b >= 0
    ensures a > 0 && b > 0 ==> a * b > 0
  {
    if a > 0 && b > 0 { assert a * b == (a - 1) * b + b; Product(a - 1, b); }
  }
}
