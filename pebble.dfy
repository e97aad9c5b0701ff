/** Values and services of the Pebble platform that the watch face relies on.
    The platform's own code is not part of this model: each foreign call
    becomes a field of `Platform`, a function whose only stated property is
    its type. */
module Pebble {

  /** An unsigned 8-bit value. */
  type Byte = x: int | 0 <= x < 0x100

  /** A signed 32-bit value, as carried by a message tuple and by persistent storage. */
  type Int32 = x: int | -0x8000_0000 <= x < 0x8000_0000

  /** A battery charge in percent (`BatteryChargeState.charge_percent`). */
  type Percent = x: int | 0 <= x <= 100

  /** Text that fits an 8-byte buffer together with its terminating NUL. */
  type ShortText = s: string | |s| <= 7

  /** `GColor8`: one byte holding two bits each of alpha, red, green and blue (0bAARRGGBB). */
  datatype Color = Color(argb: Byte) {
    /** Both alpha bits are set. */
    predicate IsOpaque() { argb / 0x40 == 3 }
  }

  /** The value of a zero-initialised `GColor`. */
  const ColorClear := Color(0x00)
  /** `GColorBlue`. */
  const ColorBlue := Color(0xC3)
  /** `GColorWhite`. */
  const ColorWhite := Color(0xFF)

  datatype Option<T> = None | Some(value: T)

  /** The fields of `struct tm` (from `localtime`) that the face reads. */
  datatype Tm = Tm(hour: int, minute: int, monthDay: int, weekDay: int) {
    /** The ranges `localtime` guarantees. */
    predicate Valid() {
      0 <= hour < 24 && 0 <= minute < 60 && 1 <= monthDay <= 31 && 0 <= weekDay < 7
    }
  }

  /** The library calls the face makes, as functions:
      - `rand(g)`: what `rand()` returns when the generator is in state `g`;
      - `next(g)`: the generator's state after that call;
      - `legibleOver`: `gcolor_legible_over`;
      - `fromHex`: `GColorFromHEX`;
      - `weekdayAbbrev`: what `strftime` writes for `%a` given `tm_wday`. */
  datatype Platform = Platform(
    rand: nat -> nat,
    next: nat -> nat,
    legibleOver: Color -> Color,
    fromHex: Int32 -> Color,
    weekdayAbbrev: int -> ShortText)
}
