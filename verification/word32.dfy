/** Unsigned 32-bit arithmetic, as performed on the `unsigned long` values of
    the ESP8266 (millis() and the millisecond settings derived from it). */
module Word32 {

  const Modulus: int := 0x1_0000_0000

  /** The values of a 32-bit `unsigned long`. */
  type U32 = x: int | 0 <= x < Modulus

  /** Conversion of a mathematical integer to `unsigned long` (C's modular rule). */
  function Wrap32(x: int): (r: U32)
    ensures 0 <= x < Modulus ==> r == x
    ensures (x - r) % Modulus == 0
  {
    x % Modulus
  }

  /** `a + b` on `unsigned long`. */
  function Add32(a: U32, b: U32): (r: U32)
    ensures a + b < Modulus ==> r == a + b
    ensures a + b >= Modulus ==> r == a + b - Modulus
  {
    (a + b) % Modulus
  }

  /** `a - b` on `unsigned long`: the time elapsed from `b` to `a`, across a wrap. */
  function Sub32(a: U32, b: U32): (d: U32)
    ensures Add32(b, d) == a
    ensures b <= a ==> d == a - b
  {
    (a - b) % Modulus
  }

  /** Elapsed time measured by unsigned subtraction is exact for any delay
      shorter than one full period of the counter, wherever the counter wraps. */
  lemma ElapsedAfterAdd(t: U32, d: U32)
    ensures Sub32(Add32(t, d), t) == d
  {
    if t + d >= Modulus {
      assert Add32(t, d) == t + d - Modulus;
      assert Add32(t, d) - t == d - Modulus;
    }
  }
}
