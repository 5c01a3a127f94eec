/**
 * The two position scales. Home Assistant reports a cover's position as the
 * percentage it is open (100 = fully open); the blind reports and accepts its
 * native position, which runs the other way (0 = fully open). The same
 * inversion converts in both directions.
 */
module Scale {

  /** Converts a percentage to the native scale, or a native reading to a percentage. */
  function Invert(v: int): (w: int)
    ensures 0 <= v <= 100 <==> 0 <= w <= 100
  {
    100 - v
  }

  /** Inverting twice gives back the value: a move sent as `Invert(p)` reads back as `p`. */
  lemma InvertRoundTrip(v: int)
    ensures Invert(Invert(v)) == v
  {
  }
}
