/** Small value types shared by every module of the model. */
module Base {

  /** std::optional */
  datatype Option<+T> = None | Some(value: T) {
    function GetOr(default: T): T {
      match this
      case Some(v) => v
      case None => default
    }
  }

  /** A computation that either yields a value or fails with an error (a thrown exception in C++). */
  datatype Result<+T, +E> = Ok(value: T) | Err(error: E)

  /** uint8_t */
  newtype byte = x: int | 0 <= x < 256

  function Min(a: int, b: int): int {
    if a <= b then a else b
  }
}

/** Arithmetic facts about the frame/channel/byte offset formula used by the transcoder. */
module Arith {

  lemma MulPos(a: nat, b: nat)
    requires a > 0 && b > 0
    ensures a * b > 0
  {
  }

  lemma MulAssoc(a: int, b: int, c: int)
    ensures (a * b) * c == a * (b * c)
  {
  }

  lemma MulLe(a: nat, b: nat, s: nat)
    requires a <= b
    ensures a * s <= b * s
  {
    assert b * s == a * s + (b - a) * s;
  }

  /** One factor fewer. */
  lemma MulPred(r: nat, s: nat)
    requires r > 0
    ensures (r - 1) * s + s == r * s && 0 <= (r - 1) * s
  {
  }

  /** Dividing a multiple of d by d. */
  lemma DivMulExact(q: nat, d: nat)
    requires d > 0
    ensures (q * d) / d == q && (q * d) % d == 0
  {
    var a := q * d;
    var k := a / d;
    var r := a % d;
    assert a == k * d + r && 0 <= r < d;
    if k < q {
      MulPred(k + 1, d);
      MulLe(k + 1, q, d);
    } else if k > q {
      MulPred(q + 1, d);
      MulLe(q + 1, k, d);
    }
  }

  /** An exact multiple of d is its quotient times d. */
  lemma DivExact(a: nat, d: nat)
    requires d > 0 && a % d == 0
    ensures a == (a / d) * d
  {
  }
}
