/**
 * The tick-mark compass face of view/SimpleTwoCompassView.kt: a table of 12
 * ticks every 30°, keyed by angle. The ticks at 90°, 180° and 270° are long,
 * the others short, and the 0° tick is replaced by the two strokes of the
 * north arrowhead.
 */
module SimpleTwoCompass {
  import opened Wrappers
  import opened KotlinRuntime
  import opened LinkedMaps
  import opened CompassFace

  /** `Arrow(start, left, right)`: the tip, with two strokes of length `side` towards 225° and 135°. */
  datatype Arrow = Arrow(start: Polar, side: real)

  /** `AngledLine`: a tick from `start` on the rim inwards to `end`. */
  datatype AngledLine = AngledLine(angle: real, start: Polar, end: Polar, isAnchor: bool)

  /** A `drawLine` of the rotated pass of `onDraw`. */
  datatype Stroke = Segment(from: Polar, to: Polar) | ArrowLeft(arrow: Arrow) | ArrowRight(arrow: Arrow)

  function LineKeys(): (keys: seq<real>)
    ensures |keys| == 12 && forall k :: 0 <= k < 12 ==> keys[k] == k as real * 30.0
  {
    seq(12, k => k as real * 30.0)
  }

  /**
   * The tick length of `lineCoordinates` for the rounded angle: long when its
   * truncation is a multiple of 90, except that the 0° tick is forced short.
   */
  function TickLength(roundAngle: real, longLength: real, shortLength: real): (r: real)
    ensures r == longLength || r == shortLength
    ensures roundAngle == 0.0 ==> r == shortLength
    ensures roundAngle != 0.0 && longLength != shortLength ==> (r == longLength <==> Trunc(roundAngle) % 90 == 0)
  {
    var length := if Trunc(roundAngle) % 90 == 0 then longLength else shortLength;
    if roundAngle == 0.0 then shortLength else length
  }

  /** On the 30° grid the long ticks are exactly those at 90°, 180° and 270°. */
  lemma GridTickLength(k: int, longLength: real, shortLength: real)
    requires 0 <= k < 12 && longLength != shortLength
    ensures TickLength(RoundHundredths(k as real * 30.0), longLength, shortLength) == longLength
            <==> k == 3 || k == 6 || k == 9
  {
    RoundHundredthsIntegral(30 * k);
    TruncOfIntegral(30 * k);
    assert k as real * 30.0 == (30 * k) as real;
    assert (30 * k) % 90 == 0 <==> k % 3 == 0;
  }

  function ArrowAt(angle: real, radius: real, shortLength: real): Arrow
  {
    Arrow(Polar(angle, radius), shortLength)
  }

  /** The tick `lineCoordinates` returns; it is the anchor exactly when the angle rounds to 0. */
  function Line(angle: real, radius: real, longLength: real, shortLength: real): (l: AngledLine)
    ensures l.angle == angle && l.start == Polar(angle, radius)
    ensures l.end == Polar(angle, radius - TickLength(RoundHundredths(angle), longLength, shortLength))
    ensures l.isAnchor <==> -0.005 < angle < 0.005
  {
    var roundAngle := RoundHundredths(angle);
    RoundHundredthsZero(angle);
    AngledLine(angle, Polar(angle, radius),
               Polar(angle, radius - TickLength(roundAngle, longLength, shortLength)), roundAngle == 0.0)
  }

  function LineAt(radius: real, longLength: real, shortLength: real): real -> AngledLine
  {
    a => Line(a, radius, longLength, shortLength)
  }

  /** The table `calculateLines(radius)` leaves in `angleMap`. */
  function LineTable(radius: real, longLength: real, shortLength: real): LinkedMap<real, AngledLine>
  {
    FromKeys(LineKeys(), LineAt(radius, longLength, shortLength))
  }

  /** No key is put twice. */
  lemma LineKeysDistinct()
    ensures Distinct(LineKeys())
  {
  }

  /** The table holds exactly the 12 keys 0, 30, …, 330 in that order, and the k-th entry is the tick of k·30°. */
  lemma LineTableShape(radius: real, longLength: real, shortLength: real)
    ensures Valid(LineTable(radius, longLength, shortLength))
    ensures LineTable(radius, longLength, shortLength).keys == LineKeys()
    ensures forall a :: a in LineTable(radius, longLength, shortLength).entries <==> a in LineKeys()
    ensures forall k :: 0 <= k < 12 ==>
              Values(LineTable(radius, longLength, shortLength))[k] == Line(k as real * 30.0, radius, longLength, shortLength)
  {
    var f := LineAt(radius, longLength, shortLength);
    LineKeysDistinct();
    FromKeysEntries(LineKeys(), f);
    LineTableValues(radius, longLength, shortLength);
  }

  lemma LineTableValues(radius: real, longLength: real, shortLength: real)
    ensures forall k :: 0 <= k < 12 ==>
              Values(LineTable(radius, longLength, shortLength))[k] == Line(k as real * 30.0, radius, longLength, shortLength)
  {
    forall k | 0 <= k < 12
      ensures Values(LineTable(radius, longLength, shortLength))[k] == Line(k as real * 30.0, radius, longLength, shortLength)
    {
      LineTableValue(radius, longLength, shortLength, k);
    }
  }

  lemma LineTableValue(radius: real, longLength: real, shortLength: real, k: int)
    requires 0 <= k < 12
    ensures Values(LineTable(radius, longLength, shortLength))[k] == Line(k as real * 30.0, radius, longLength, shortLength)
  {
    TableEntry(radius, longLength, shortLength, k);
    LineAtKey(radius, longLength, shortLength, k);
  }

  lemma LineAtKey(radius: real, longLength: real, shortLength: real, k: int)
    requires 0 <= k < 12
    ensures LineAt(radius, longLength, shortLength)(LineKeys()[k]) == Line(k as real * 30.0, radius, longLength, shortLength)
  {
  }

  lemma TableEntry(radius: real, longLength: real, shortLength: real, k: int)
    requires 0 <= k < 12
    ensures Values(LineTable(radius, longLength, shortLength))[k] == LineAt(radius, longLength, shortLength)(LineKeys()[k])
  {
    LineKeysDistinct();
    FromKeysValues(LineKeys(), LineAt(radius, longLength, shortLength));
  }

  /**
   * Only the 0° entry is the anchor, and the long ticks are exactly those at
   * 90°, 180° and 270°.
   */
  lemma LineTableTicks(radius: real, longLength: real, shortLength: real, k: int)
    requires 0 <= k < 12 && longLength != shortLength
    ensures Values(LineTable(radius, longLength, shortLength))[k].isAnchor <==> k == 0
    ensures Values(LineTable(radius, longLength, shortLength))[k].end.radius == radius - longLength
            <==> k == 3 || k == 6 || k == 9
  {
    LineTableShape(radius, longLength, shortLength);
    var l := Line(k as real * 30.0, radius, longLength, shortLength);
    assert Values(LineTable(radius, longLength, shortLength))[k] == l;
    assert l.isAnchor <==> -0.005 < k as real * 30.0 < 0.005;
    GridTickLength(k, longLength, shortLength);
  }

  /** The rotated pass for one entry: the two arrow strokes for the anchor, one segment otherwise. */
  function StrokesOf(l: AngledLine, arrow: Option<Arrow>): seq<Stroke>
  {
    if l.isAnchor then (if arrow.Some? then [ArrowLeft(arrow.value), ArrowRight(arrow.value)] else [])
    else [Segment(l.start, l.end)]
  }

  function Strokes(ls: seq<AngledLine>, arrow: Option<Arrow>): seq<Stroke>
  {
    if ls == [] then []
    else Strokes(ls[..|ls| - 1], arrow) + StrokesOf(ls[|ls| - 1], arrow)
  }

  /**
   * Every tick that is not the anchor is drawn as its own segment, every
   * segment is such a tick, and arrow strokes appear only for an anchor when
   * an arrow exists.
   */
  lemma {:induction false} StrokesExactly(ls: seq<AngledLine>, arrow: Option<Arrow>)
    ensures forall l :: l in ls && !l.isAnchor ==> Segment(l.start, l.end) in Strokes(ls, arrow)
    ensures forall s :: s in Strokes(ls, arrow) && s.Segment? ==>
              exists l :: l in ls && !l.isAnchor && s == Segment(l.start, l.end)
    ensures forall s :: s in Strokes(ls, arrow) && !s.Segment? ==>
              arrow == Some(s.arrow) && exists l :: l in ls && l.isAnchor
  {
    if ls != [] {
      var init, l := ls[..|ls| - 1], ls[|ls| - 1];
      StrokesExactly(init, arrow);
      assert ls == init + [l];
      assert forall x :: x in init ==> x in ls;
    }
  }

  /** Once the loop has run 12 times, the keys put so far are all of them. */
  lemma AllKeys(k: int)
    requires k == 12
    ensures LineKeys()[..k] == LineKeys()
  {
  }

  /** One turn of the `calculateLines` loop puts the k-th key and its tick. */
  lemma KeyStep(radius: real, longLength: real, shortLength: real, k: int, angle: real, line: AngledLine)
    requires 0 <= k < 12 && angle == k as real * 30.0 && line == Line(angle, radius, longLength, shortLength)
    ensures LineKeys()[k] == angle && LineAt(radius, longLength, shortLength)(LineKeys()[k]) == line
  {
  }

  class SimpleTwoCompassView {
    var angleMap: LinkedMap<real, AngledLine>
    var arrow: Option<Arrow>
    /** `dp2px(…)` lengths of the short and long ticks, given at construction. */
    var shortLineLength: real
    var longLineLength: real

    constructor (shortLineLength: real, longLineLength: real)
      ensures angleMap == Empty() && arrow == None
      ensures this.shortLineLength == shortLineLength && this.longLineLength == longLineLength
    {
      angleMap := Empty();
      arrow := None;
      this.shortLineLength := shortLineLength;
      this.longLineLength := longLineLength;
    }

    /** `lineCoordinates`: the tick of `angle`, setting the arrow when the angle rounds to 0. */
    method LineCoordinates(angle: real, radius: real) returns (line: AngledLine)
      modifies this
      ensures line == Line(angle, radius, longLineLength, shortLineLength)
      ensures arrow == if -0.005 < angle < 0.005 then Some(ArrowAt(angle, radius, shortLineLength)) else old(arrow)
      ensures angleMap == old(angleMap)
      ensures shortLineLength == old(shortLineLength) && longLineLength == old(longLineLength)
    {
      var roundAngle := RoundHundredths(angle);
      RoundHundredthsZero(angle);
      var length := if Trunc(roundAngle) % 90 == 0 then longLineLength else shortLineLength;
      if roundAngle == 0.0 {
        length := shortLineLength;
        arrow := Some(Arrow(Polar(angle, radius), length));
      }
      line := AngledLine(angle, Polar(angle, radius), Polar(angle, radius - length), roundAngle == 0.0);
    }

    /** `calculateLines`: clears the table and fills it every 30° from 0 while below 360. */
    method CalculateLines(minRadius: real)
      modifies this
      ensures angleMap == LineTable(minRadius, longLineLength, shortLineLength)
      ensures arrow == Some(ArrowAt(0.0, minRadius, shortLineLength))
      ensures shortLineLength == old(shortLineLength) && longLineLength == old(longLineLength)
    {
      angleMap := Empty();
      var angle := 0.0;
      ghost var k := 0;
      while angle < 360.0
        invariant 0 <= k <= 12 && angle == k as real * 30.0
        invariant angleMap == FromKeys(LineKeys()[..k], LineAt(minRadius, longLineLength, shortLineLength))
        invariant k > 0 ==> arrow == Some(ArrowAt(0.0, minRadius, shortLineLength))
        invariant shortLineLength == old(shortLineLength) && longLineLength == old(longLineLength)
        decreases 12 - k
      {
        var line := LineCoordinates(angle, minRadius);
        FromKeysSnoc(LineKeys(), k, LineAt(minRadius, longLineLength, shortLineLength));
        KeyStep(minRadius, longLineLength, shortLineLength, k, angle, line);
        angleMap := Put(angleMap, angle, line);
        angle := angle + 30.0;
        k := k + 1;
      }
      AllKeys(k);
    }

    /** The rotated pass of `onDraw` over the table in order. */
    method OnDraw() returns (strokes: seq<Stroke>)
      requires Valid(angleMap)
      ensures strokes == Strokes(Values(angleMap), arrow)
    {
      var values := Values(angleMap);
      strokes := [];
      for i := 0 to |values|
        invariant strokes == Strokes(values[..i], arrow)
      {
        var al := values[i];
        assert values[..i + 1][..i] == values[..i];
        if al.isAnchor {
          if arrow.Some? {
            strokes := strokes + [ArrowLeft(arrow.value)];
            strokes := strokes + [ArrowRight(arrow.value)];
          }
        } else {
          strokes := strokes + [Segment(al.start, al.end)];
        }
      }
      assert values[..|values|] == values;
    }
  }
}
