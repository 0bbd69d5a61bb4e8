/** Unit conversion between yards on the field and vertical screen coordinates. */
module Field {

  /** The default offset: the ten yards taken by the top end zone. */
  const EndZoneYards: int := 10

  /** `yard_to_pixel`: the screen y coordinate of `yard`, with 120 yards spanning `height`. */
  function YardToPixel(yard: int, height: real, offset: int := EndZoneYards): real
  {
    (yard + offset) as real * (height / 120.0)
  }

  /** An offset is the same as shifting the yard and converting without offset. */
  lemma OffsetIsShift(yard: int, height: real, k: int)
    ensures YardToPixel(yard, height, k) == YardToPixel(yard + k, height, 0)
  {
  }

  /** The conversion is linear in the yard. */
  lemma Linear(y1: int, y2: int, height: real, offset: int)
    ensures YardToPixel(y2, height, offset) - YardToPixel(y1, height, offset)
         == (y2 - y1) as real * (height / 120.0)
  {
  }

  /** On a screen of positive height, the conversion is strictly increasing. */
  lemma StrictlyIncreasing(y1: int, y2: int, height: real, offset: int)
    requires height > 0.0 && y1 < y2
    ensures YardToPixel(y1, height, offset) < YardToPixel(y2, height, offset)
  {
    Linear(y1, y2, height, offset);
    var d := (y2 - y1) as real;
    assert d >= 1.0;
    assert d * (height / 120.0) > 0.0;
  }

  /** The top of the field is pixel 0, the bottom is pixel `height`. */
  lemma Ends(yard: int, height: real, offset: int)
    ensures yard + offset == 0 ==> YardToPixel(yard, height, offset) == 0.0
    ensures yard + offset == 120 ==> YardToPixel(yard, height, offset) == height
  {
  }

  /**
   * The lines the game derives from the screen height, in screen order from
   * the top: score line (yard 10, no offset), defense line (yard 20), line of
   * scrimmage (yard 70), offense line (yard 80), safety line (yard 110, no offset).
   */
  lemma FieldLinesOrdered(height: real)
    requires height > 0.0
    ensures 0.0 < YardToPixel(10, height, 0) < YardToPixel(20, height)
    ensures YardToPixel(20, height) < YardToPixel(70, height) < YardToPixel(80, height)
    ensures YardToPixel(80, height) < YardToPixel(110, height, 0) < height
  {
    OffsetIsShift(20, height, EndZoneYards);
    OffsetIsShift(70, height, EndZoneYards);
    OffsetIsShift(80, height, EndZoneYards);
    StrictlyIncreasing(0, 10, height, 0);
    StrictlyIncreasing(10, 30, height, 0);
    StrictlyIncreasing(30, 80, height, 0);
    StrictlyIncreasing(80, 90, height, 0);
    StrictlyIncreasing(90, 110, height, 0);
    StrictlyIncreasing(110, 120, height, 0);
  }
}
