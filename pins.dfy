/**
 * The pin colour an earthquake annotation is drawn with
 * (`EarthquakeAnotation.pinTintColor`), as a six-way bucket rule over magnitude.
 */
module Pins {

  /** The six `UIColor`s the annotation can return. */
  datatype PinColour = Green | Blue | Yellow | Magenta | Orange | Red

  /** Position of a colour in the scale from weakest to strongest bucket. */
  function Rank(c: PinColour): nat {
    match c
    case Green => 0
    case Blue => 1
    case Yellow => 2
    case Magenta => 3
    case Orange => 4
    case Red => 5
  }

  /**
   * The `switch` over magnitude: the first half-open range that holds `mag`
   * decides, and anything outside [0, 3) falls to the `default` case.
   */
  function PinTintColor(mag: real): (c: PinColour)
    ensures c == Green <==> 0.0 <= mag < 0.5
    ensures c == Blue <==> 0.5 <= mag < 1.0
    ensures c == Yellow <==> 1.0 <= mag < 1.5
    ensures c == Magenta <==> 1.5 <= mag < 2.0
    ensures c == Orange <==> 2.0 <= mag < 3.0
    ensures c == Red <==> mag < 0.0 || 3.0 <= mag
  {
    if 0.0 <= mag < 0.5 then Green
    else if 0.5 <= mag < 1.0 then Blue
    else if 1.0 <= mag < 1.5 then Yellow
    else if 1.5 <= mag < 2.0 then Magenta
    else if 2.0 <= mag < 3.0 then Orange
    else Red
  }

  /** On non-negative magnitudes a stronger quake never gets a weaker colour. */
  lemma PinTintColorMonotone(m1: real, m2: real)
    requires 0.0 <= m1 <= m2
    ensures Rank(PinTintColor(m1)) <= Rank(PinTintColor(m2))
  {
  }

  /** Below zero the rule is not monotone: a negative magnitude is drawn red. */
  lemma NegativeMagnitudeIsRed(mag: real)
    requires mag < 0.0
    ensures PinTintColor(mag) == Red
    ensures Rank(PinTintColor(mag)) > Rank(PinTintColor(0.0))
  {
  }
}
