/**
 * The labelled compass face of view/LabeledCompassView.kt: a table of 24
 * marks every 15°, keyed by angle. Marks at multiples of 30° carry a text
 * (the cardinal letters at 0°, 90°, 180°, 270°, the number of degrees
 * elsewhere); the others are drawn as small dots, and the 0° mark also
 * carries the north arrowhead.
 */
module LabeledCompass {
  import opened Wrappers
  import opened KotlinRuntime
  import opened LinkedMaps
  import opened CompassFace

  /**
   * `Arrow(path)`: the north arrowhead, a triangle with its tip at `tip` and
   * its two other corners `side` away from the tip towards 225° and 135°.
   */
  datatype Arrow = Arrow(tip: Polar, side: real)

  /** `AngledDot`: a mark of the table, its point on the dial, its text and whether it is the north anchor. */
  datatype AngledDot = AngledDot(angle: real, start: Polar, text: string, isAnchor: bool)

  /** What the first pass of `onDraw` draws on the rotated canvas. */
  datatype Mark = ArrowPath(arrow: Arrow) | Circle(center: Polar, radius: real)

  /** The keys `calculateLines` puts: 0, 15, …, 345 (whole numbers, so the float steps are exact). */
  function LineKeys(): (keys: seq<real>)
    ensures |keys| == 24 && forall k :: 0 <= k < 24 ==> keys[k] == k as real * 15.0
  {
    seq(24, k => k as real * 15.0)
  }

  /**
   * `newLabel`: the cardinal letters come first, so 0 never reads "0"; any
   * other angle whose truncation is a multiple of 10 reads as that number,
   * and everything else has no text.
   */
  function NewLabel(angle: real): (s: string)
    ensures angle == 0.0 ==> s == "N"
    ensures angle == 90.0 ==> s == "E"
    ensures angle == 180.0 ==> s == "S"
    ensures angle == 270.0 ==> s == "W"
    ensures angle != 0.0 && angle != 90.0 && angle != 180.0 && angle != 270.0 ==>
              && (s == "" <==> Trunc(angle) % 10 != 0)
              && (s != "" ==> ParseInt(s) == Trunc(angle))
  {
    if angle == 0.0 then "N"
    else if angle == 90.0 then "E"
    else if angle == 180.0 then "S"
    else if angle == 270.0 then "W"
    else if Trunc(angle) % 10 == 0 then
      IntToStringRoundTrip(Trunc(angle));
      IntToString(Trunc(angle))
    else ""
  }

  /**
   * On the 15° grid: cardinal letters at 0°, 90°, 180° and 270°, the number at
   * the other multiples of 30°, and no text at the odd multiples of 15°.
   */
  lemma GridLabel(k: int)
    requires 0 <= k < 24
    ensures NewLabel(RoundHundredths(k as real * 15.0)) ==
      if k == 0 then "N" else if k == 6 then "E" else if k == 12 then "S" else if k == 18 then "W"
      else if k % 2 == 0 then IntToString(15 * k) else ""
  {
    RoundHundredthsIntegral(15 * k);
    TruncOfIntegral(15 * k);
    assert k as real * 15.0 == (15 * k) as real;
    assert (15 * k) % 10 == 0 <==> k % 2 == 0;
  }

  /** The north arrowhead `lineCoordinates` builds: its tip two short lines inside the radius. */
  function ArrowAt(angle: real, radius: real, shortLineLength: real): Arrow
  {
    Arrow(Polar(angle, radius - shortLineLength * 2.0), shortLineLength)
  }

  /**
   * The mark `lineCoordinates` returns: its text is the label of the angle
   * rounded to hundredths, and it is the anchor exactly when that rounding is 0.
   */
  function Dot(angle: real, radius: real): (d: AngledDot)
    ensures d.angle == angle && d.start == Polar(angle, radius)
    ensures d.isAnchor <==> -0.005 < angle < 0.005
    ensures d.text == NewLabel(RoundHundredths(angle))
  {
    var roundAngle := RoundHundredths(angle);
    RoundHundredthsZero(angle);
    AngledDot(angle, Polar(angle, radius), NewLabel(roundAngle), roundAngle == 0.0)
  }

  function DotAt(radius: real): real -> AngledDot
  {
    a => Dot(a, radius)
  }

  /** The table `calculateLines(radius)` leaves in `angleMap`. */
  function LineTable(radius: real): LinkedMap<real, AngledDot>
  {
    FromKeys(LineKeys(), DotAt(radius))
  }

  lemma LineKeysDistinct()
    ensures Distinct(LineKeys())
  {
  }

  /**
   * The table holds exactly the 24 keys 0, 15, …, 345 in that order, and the
   * k-th entry is the mark of k·15°.
   */
  lemma LineTableShape(radius: real)
    ensures Valid(LineTable(radius)) && LineTable(radius).keys == LineKeys()
    ensures forall a :: a in LineTable(radius).entries <==> a in LineKeys()
    ensures forall k :: 0 <= k < 24 ==> Values(LineTable(radius))[k] == Dot(k as real * 15.0, radius)
  {
    LineKeysDistinct();
    FromKeysEntries(LineKeys(), DotAt(radius));
    forall k | 0 <= k < 24
      ensures Values(LineTable(radius))[k] == Dot(k as real * 15.0, radius)
    {
      LineTableValue(radius, k);
    }
  }

  lemma LineTableValue(radius: real, k: int)
    requires 0 <= k < 24
    ensures Values(LineTable(radius))[k] == Dot(k as real * 15.0, radius)
  {
    TableEntry(radius, k);
    DotAtKey(radius, k);
  }

  lemma DotAtKey(radius: real, k: int)
    requires 0 <= k < 24
    ensures DotAt(radius)(LineKeys()[k]) == Dot(k as real * 15.0, radius)
  {
  }

  lemma TableEntry(radius: real, k: int)
    requires 0 <= k < 24
    ensures Values(LineTable(radius))[k] == DotAt(radius)(LineKeys()[k])
  {
    LineKeysDistinct();
    FromKeysValues(LineKeys(), DotAt(radius));
  }

  /** Only the 0° entry of the table is the anchor. */
  lemma LineTableAnchor(radius: real, k: int)
    requires 0 <= k < 24
    ensures Values(LineTable(radius))[k].isAnchor <==> k == 0
  {
    LineTableValue(radius, k);
  }

  /** Word for word by index: the texts of the table's entries. */
  lemma LineTableLabels(radius: real, k: int)
    requires 0 <= k < 24
    ensures Values(LineTable(radius))[k].text ==
      if k == 0 then "N" else if k == 6 then "E" else if k == 12 then "S" else if k == 18 then "W"
      else if k % 2 == 0 then IntToString(15 * k) else ""
  {
    LineTableValue(radius, k);
    GridLabel(k);
  }

  /** An entry that `onDraw` writes as text: the anchor, or any entry with a text. */
  predicate Labelled(d: AngledDot)
  {
    d.isAnchor || d.text != ""
  }

  /** The texts `onDraw` collects, in table order. */
  function Texts(ds: seq<AngledDot>): seq<AngledDot>
  {
    if ds == [] then []
    else
      var d := ds[|ds| - 1];
      Texts(ds[..|ds| - 1]) + (if Labelled(d) then [d] else [])
  }

  /** What the first pass draws for one entry: the arrowhead for the anchor, a dot for an entry without text. */
  function MarkOf(d: AngledDot, arrow: Option<Arrow>, northRadius: real): seq<Mark>
  {
    if d.isAnchor then (if arrow.Some? then [ArrowPath(arrow.value)] else [])
    else if d.text == "" then [Circle(d.start, northRadius)]
    else []
  }

  function Marks(ds: seq<AngledDot>, arrow: Option<Arrow>, northRadius: real): seq<Mark>
  {
    if ds == [] then []
    else Marks(ds[..|ds| - 1], arrow, northRadius) + MarkOf(ds[|ds| - 1], arrow, northRadius)
  }

  /** The text list holds exactly the labelled entries. */
  lemma {:induction false} TextsExactly(ds: seq<AngledDot>)
    ensures forall d :: d in Texts(ds) <==> d in ds && Labelled(d)
  {
    if ds != [] {
      var init, d := ds[..|ds| - 1], ds[|ds| - 1];
      TextsExactly(init);
      assert ds == init + [d];
    }
  }

  /**
   * A dot is drawn exactly at the start of each entry that is neither the
   * anchor nor labelled, and the arrowhead only for an anchor when an arrow
   * exists.
   */
  lemma {:induction false} MarksExactly(ds: seq<AngledDot>, arrow: Option<Arrow>, northRadius: real)
    ensures forall d :: d in ds && !Labelled(d) ==> Circle(d.start, northRadius) in Marks(ds, arrow, northRadius)
    ensures forall m :: m in Marks(ds, arrow, northRadius) && m.Circle? ==>
              m.radius == northRadius && exists d :: d in ds && !Labelled(d) && d.start == m.center
    ensures forall m :: m in Marks(ds, arrow, northRadius) && m.ArrowPath? ==>
              arrow == Some(m.arrow) && exists d :: d in ds && d.isAnchor
  {
    if ds != [] {
      var init, d := ds[..|ds| - 1], ds[|ds| - 1];
      MarksExactly(init, arrow, northRadius);
      assert ds == init + [d];
      assert forall x :: x in init ==> x in ds;
    }
  }

  /** The mark of k·15° is labelled exactly at the multiples of 30°. */
  lemma GridMarkLabelled(radius: real, k: int)
    requires 0 <= k < 24
    ensures Labelled(Dot(k as real * 15.0, radius)) <==> k % 2 == 0
  {
    var d := Dot(k as real * 15.0, radius);
    GridLabel(k);
    if k % 2 == 1 {
      assert d.text == "";
      assert !d.isAnchor;
    } else if k != 0 && k != 6 && k != 12 && k != 18 {
      var s := IntToString(15 * k);
      assert d.text == s && |s| >= 1;
    }
  }

  /** On the full table, exactly the entries at multiples of 30° are written as text. */
  lemma LineTableTexts(radius: real, k: int)
    requires 0 <= k < 24
    ensures Values(LineTable(radius))[k] in Texts(Values(LineTable(radius))) <==> k % 2 == 0
  {
    var ds := Values(LineTable(radius));
    LineTableValue(radius, k);
    GridMarkLabelled(radius, k);
    TextsExactly(ds);
    assert ds[k] in ds;
  }

  /** Once the loop has run 24 times, the keys put so far are all of them. */
  lemma AllKeys(k: int)
    requires k == 24
    ensures LineKeys()[..k] == LineKeys()
  {
  }

  /** One turn of the `calculateLines` loop puts the k-th key and its mark. */
  lemma KeyStep(radius: real, k: int, angle: real, dot: AngledDot)
    requires 0 <= k < 24 && angle == k as real * 15.0 && dot == Dot(angle, radius)
    ensures LineKeys()[k] == angle && DotAt(radius)(LineKeys()[k]) == dot
  {
  }

  class LabeledCompassView {
    var angleMap: LinkedMap<real, AngledDot>
    var arrow: Option<Arrow>
    /** `dp2px(15)` and `dp2px(4)`: display-dependent lengths, given at construction. */
    var shortLineLength: real
    var northRadius: real

    constructor (shortLineLength: real, northRadius: real)
      ensures angleMap == Empty() && arrow == None
      ensures this.shortLineLength == shortLineLength && this.northRadius == northRadius
    {
      angleMap := Empty();
      arrow := None;
      this.shortLineLength := shortLineLength;
      this.northRadius := northRadius;
    }

    /** `lineCoordinates`: the mark of `angle`, setting the arrowhead when the angle rounds to 0. */
    method LineCoordinates(angle: real, radius: real) returns (dot: AngledDot)
      modifies this
      ensures dot == Dot(angle, radius)
      ensures arrow == if -0.005 < angle < 0.005 then Some(ArrowAt(angle, radius, shortLineLength)) else old(arrow)
      ensures angleMap == old(angleMap)
      ensures shortLineLength == old(shortLineLength) && northRadius == old(northRadius)
    {
      var roundAngle := RoundHundredths(angle);
      RoundHundredthsZero(angle);
      if roundAngle == 0.0 {
        arrow := Some(Arrow(Polar(angle, radius - shortLineLength * 2.0), shortLineLength));
      }
      dot := AngledDot(angle, Polar(angle, radius), NewLabel(roundAngle), roundAngle == 0.0);
    }

    /** `calculateLines`: clears the table and fills it every 15° from 0 while below 360. */
    method CalculateLines(minRadius: real)
      modifies this
      ensures angleMap == LineTable(minRadius)
      ensures arrow == Some(ArrowAt(0.0, minRadius, shortLineLength))
      ensures shortLineLength == old(shortLineLength) && northRadius == old(northRadius)
    {
      angleMap := Empty();
      var angle := 0.0;
      ghost var k := 0;
      while angle < 360.0
        invariant 0 <= k <= 24 && angle == k as real * 15.0
        invariant angleMap == FromKeys(LineKeys()[..k], DotAt(minRadius))
        invariant k > 0 ==> arrow == Some(ArrowAt(0.0, minRadius, shortLineLength))
        invariant shortLineLength == old(shortLineLength) && northRadius == old(northRadius)
        decreases 24 - k
      {
        var dot := LineCoordinates(angle, minRadius);
        FromKeysSnoc(LineKeys(), k, DotAt(minRadius));
        KeyStep(minRadius, k, angle, dot);
        angleMap := Put(angleMap, angle, dot);
        angle := angle + 15.0;
        k := k + 1;
      }
      AllKeys(k);
    }

    /**
     * The first pass of `onDraw` over the table in order: what it draws on the
     * rotated canvas, and the entries it keeps for the text pass.
     */
    method OnDraw() returns (marks: seq<Mark>, texts: seq<AngledDot>)
      requires Valid(angleMap)
      ensures marks == Marks(Values(angleMap), arrow, northRadius)
      ensures texts == Texts(Values(angleMap))
    {
      var values := Values(angleMap);
      marks, texts := [], [];
      for i := 0 to |values|
        invariant marks == Marks(values[..i], arrow, northRadius)
        invariant texts == Texts(values[..i])
      {
        var al := values[i];
        assert values[..i + 1][..i] == values[..i];
        if al.isAnchor {
          if arrow.Some? {
            marks := marks + [ArrowPath(arrow.value)];
          }
          texts := texts + [al];
        } else {
          if al.text == "" {
            marks := marks + [Circle(al.start, northRadius)];
          } else {
            texts := texts + [al];
          }
        }
      }
      assert values[..|values|] == values;
    }
  }
}
