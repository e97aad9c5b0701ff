/** Random colour generation (`random_color`). */
module Colors {
  import opened Pebble

  /** `random_color`: a draw `r` of `rand()` becomes `(r % 0b00111111) + 0b11000000`.
      The result is always opaque and never `0xFF`, because the modulus is 63. */
  function RandomColor(r: nat): (c: Color)
    ensures c.IsOpaque()
    ensures 0xC0 <= c.argb <= 0xFE
  {
    Color(r % 0x3F + 0xC0)
  }

  /** The colours `random_color` can produce are exactly `0xC0` to `0xFE`:
      63 of the 64 opaque colours, all but white. */
  lemma RandomColorImage(c: Color)
    ensures (exists r: nat :: RandomColor(r) == c) <==> 0xC0 <= c.argb <= 0xFE
    ensures c == ColorWhite ==> forall r: nat :: RandomColor(r) != c
  {
    if 0xC0 <= c.argb <= 0xFE {
      var r: nat := c.argb - 0xC0;
      assert RandomColor(r) == c;
    }
  }
}
