/** Number types shared by the models. */
module Numbers {
  type byte = x: int | 0 <= x < 256

  /** A float64 as an exact real, beside the values that are none. */
  datatype Float = Finite(value: real) | NaN | PositiveInfinity | NegativeInfinity
}
