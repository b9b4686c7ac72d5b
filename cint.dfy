/** The C `int` of the driver (32-bit two's complement) and the wrap-around of its arithmetic. */
module CInt {

  const Modulus: int := 0x1_0000_0000

  type Int32 = x: int | -0x8000_0000 <= x < 0x8000_0000

  /** The 32-bit value that an `int` computation on mathematical result `x` leaves behind. */
  function Wrap32(x: int): (r: Int32)
    ensures (x - r) % Modulus == 0
    ensures -0x8000_0000 <= x < 0x8000_0000 ==> r == x
  {
    var m := x % Modulus;
    assert x == Modulus * (x / Modulus) + m;
    if m >= 0x8000_0000 then m - Modulus else m
  }
}
