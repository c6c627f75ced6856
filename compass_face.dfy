/** What the three compass faces share: points around the dial centre. */
module CompassFace {

  /**
   * A point on the dial: its angle in degrees and its distance from the
   * centre `(cX, cY)`. It stands for the cos/sin coordinates the views compute.
   */
  datatype Polar = Polar(angle: real, radius: real)
}
