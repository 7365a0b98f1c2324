/** Fixed-width integer types of the ATmega2560 target (avr-gcc): `int` and
    `unsigned int` are 16 bits wide, `unsigned long` is 32 bits wide. */
module MachineInts {

  const Two8: int := 0x100
  const Two16: int := 0x1_0000
  const Two32: int := 0x1_0000_0000

  /** C's UINT32_MAX. */
  const Uint32Max: int := 0xFFFF_FFFF

  type uint8 = x: int | 0 <= x < 0x100
  type uint16 = x: int | 0 <= x < 0x1_0000
  type uint32 = x: int | 0 <= x < 0x1_0000_0000
  /** `int` on the target. */
  type int16 = x: int | -0x8000 <= x < 0x8000

  /** Conversion of any integer to `uint8_t` (reduction modulo 2^8). */
  function ToUint8(x: int): (r: uint8)
    ensures (r - x) % Two8 == 0
  {
    x % Two8
  }

  /** Conversion of any integer to `unsigned int` (reduction modulo 2^16). */
  function ToUint16(x: int): (r: uint16)
    ensures (r - x) % Two16 == 0
  {
    x % Two16
  }

  /** Conversion of any integer to `unsigned long` (reduction modulo 2^32). */
  function ToUint32(x: int): (r: uint32)
    ensures (r - x) % Two32 == 0
  {
    x % Two32
  }
}
