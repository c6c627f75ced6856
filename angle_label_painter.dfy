/**
 * The degree readout of view/AngleLabelPainter.kt: the label box is split
 * into a top part (59% of the height) showing the heading in whole degrees
 * and a bottom part showing the compass sector ("N", "NE", …) the heading
 * falls in.
 */
module AngleLabel {
  import opened KotlinRuntime

  /** `android.graphics.Rect`, by value. */
  datatype Rect = Rect(left: int, top: int, right: int, bottom: int)

  function Width(r: Rect): int { r.right - r.left }

  function Height(r: Rect): int { r.bottom - r.top }

  /** `Rect.centerX()`: `(left + right) shr 1`, which rounds toward minus infinity like `/ 2` here. */
  function CenterX(r: Rect): int { (r.left + r.right) / 2 }

  /** The colours of a theme (theming/Palette.kt). */
  datatype Palette = Palette(
    colorPrimary: int, colorOnPrimary: int, colorSecondary: int, colorSecondarySolid: int, isDark: bool)

  /** An entry of `RANGES`: a closed range of degrees and its sector label. */
  datatype Sector = Sector(lo: real, hi: real, name: string)

  predicate Contains(s: Sector, degree: real)
  {
    s.lo <= degree <= s.hi
  }

  const RANGES: seq<Sector> := [
    Sector(22.5, 67.5, "NE"),
    Sector(67.5, 112.5, "E"),
    Sector(112.5, 157.5, "SE"),
    Sector(157.5, 202.5, "S"),
    Sector(202.5, 247.5, "SW"),
    Sector(247.5, 292.5, "W"),
    Sector(292.5, 337.5, "NW")
  ]

  const LABELS: set<string> := {"N", "NE", "E", "SE", "S", "SW", "W", "NW"}

  const TOP_HALF_SIZE: real := 0.59

  /** `Color.BLUE` (0xFF0000FF) as a signed 32-bit colour int. */
  const COLOR_BLUE: int := -16776961

  /** The scan of `findSub`: the label of the first range containing `degree`, else "N". */
  function FirstMatch(ranges: seq<Sector>, degree: real): (r: string)
    ensures r == "N" || exists i :: 0 <= i < |ranges| && ranges[i].name == r
  {
    if ranges == [] then "N"
    else if Contains(ranges[0], degree) then ranges[0].name
    else FirstMatch(ranges[1..], degree)
  }

  /** `FirstMatch` is the first-match rule: the earliest containing range wins, and "N" when none contains it. */
  lemma {:induction false} FirstMatchIsFirst(ranges: seq<Sector>, degree: real)
    ensures (forall i :: 0 <= i < |ranges| ==> !Contains(ranges[i], degree)) ==> FirstMatch(ranges, degree) == "N"
    ensures forall i :: 0 <= i < |ranges| && Contains(ranges[i], degree)
               && (forall j :: 0 <= j < i ==> !Contains(ranges[j], degree))
               ==> FirstMatch(ranges, degree) == ranges[i].name
  {
    if ranges != [] {
      FirstMatchIsFirst(ranges[1..], degree);
      if !Contains(ranges[0], degree) {
        forall i | 0 < i < |ranges| && Contains(ranges[i], degree)
                   && (forall j :: 0 <= j < i ==> !Contains(ranges[j], degree))
          ensures FirstMatch(ranges[1..], degree) == ranges[i].name
        {
          assert ranges[1..][i - 1] == ranges[i];
          forall j | 0 <= j < i - 1 ensures !Contains(ranges[1..][j], degree) {
            assert ranges[1..][j] == ranges[j + 1];
          }
        }
        if forall i :: 0 <= i < |ranges| ==> !Contains(ranges[i], degree) {
          forall i | 0 <= i < |ranges[1..]| ensures !Contains(ranges[1..][i], degree) {
            assert ranges[1..][i] == ranges[i + 1];
          }
        }
      }
    }
  }

  /** `findSub`: the sector of a heading. */
  function FindSub(degree: real): (r: string)
    ensures r in LABELS
  {
    FirstMatch(RANGES, degree)
  }

  /**
   * The sectors as intervals: each range is closed, so a shared boundary goes to
   * the earlier sector, and everything below 22.5 or above 337.5 (negative
   * degrees included) is "N".
   */
  lemma FindSubSectors(degree: real)
    ensures 22.5 <= degree <= 67.5 ==> FindSub(degree) == "NE"
    ensures 67.5 < degree <= 112.5 ==> FindSub(degree) == "E"
    ensures 112.5 < degree <= 157.5 ==> FindSub(degree) == "SE"
    ensures 157.5 < degree <= 202.5 ==> FindSub(degree) == "S"
    ensures 202.5 < degree <= 247.5 ==> FindSub(degree) == "SW"
    ensures 247.5 < degree <= 292.5 ==> FindSub(degree) == "W"
    ensures 292.5 < degree <= 337.5 ==> FindSub(degree) == "NW"
  {
    if degree < 22.5 || degree > 337.5 {
    } else if degree <= 67.5 {
      SectorSelected(degree, 0);
    } else if degree <= 112.5 {
      SectorSelected(degree, 1);
    } else if degree <= 157.5 {
      SectorSelected(degree, 2);
    } else if degree <= 202.5 {
      SectorSelected(degree, 3);
    } else if degree <= 247.5 {
      SectorSelected(degree, 4);
    } else if degree <= 292.5 {
      SectorSelected(degree, 5);
    } else {
      SectorSelected(degree, 6);
    }
  }

  /** Outside [22.5, 337.5] no sector matches, and the label is "N". */
  lemma FindSubNorth(degree: real)
    ensures degree < 22.5 || degree > 337.5 ==> FindSub(degree) == "N"
  {
    if degree < 22.5 || degree > 337.5 {
      assert forall i :: 0 <= i < |RANGES| ==> 22.5 <= RANGES[i].lo && RANGES[i].hi <= 337.5;
      FirstMatchIsFirst(RANGES, degree);
    }
  }

  /** Sector `k` is chosen when it contains the degree and every earlier sector ends below it. */
  lemma SectorSelected(degree: real, k: int)
    requires 0 <= k < |RANGES| && Contains(RANGES[k], degree)
    requires forall j :: 0 <= j < k ==> RANGES[j].hi < degree
    ensures FindSub(degree) == RANGES[k].name
  {
    FirstMatchIsFirst(RANGES, degree);
  }

  /** The boundary shared by "NE" and "E" goes to "NE". */
  lemma SharedBoundaryExample()
    ensures FindSub(67.5) == "NE"
  {
  }

  /** `(height · 0.59).toInt()`: the height of the top part. */
  function TopHeight(height: int): (r: int)
    ensures height >= 0 ==> 0 <= r <= height
    ensures height > 0 ==> r < height
    ensures height < 0 ==> height < r <= 0
  {
    Trunc(height as real * TOP_HALF_SIZE)
  }

  /** `top` and `bottom` stack on each other and cover `bounds` exactly. */
  predicate Tiles(bounds: Rect, top: Rect, bottom: Rect)
  {
    && top.left == bottom.left == bounds.left
    && top.right == bottom.right == bounds.right
    && top.top == bounds.top
    && top.bottom == bottom.top
    && bottom.bottom == bounds.bottom
  }

  /** The two halves `updateBounds` cuts from `bounds`: the top one is 59% of the height, rounded toward zero. */
  function Halves(bounds: Rect): (r: (Rect, Rect))
    ensures Tiles(bounds, r.0, r.1)
    ensures Height(r.0) == TopHeight(Height(bounds)) && Height(r.0) + Height(r.1) == Height(bounds)
    ensures Height(bounds) > 0 ==> 0 <= Height(r.0) && 0 < Height(r.1)
    ensures Width(r.0) == Width(r.1) == Width(bounds)
  {
    var split := bounds.top + TopHeight(Height(bounds));
    (Rect(bounds.left, bounds.top, bounds.right, split), Rect(bounds.left, split, bounds.right, bounds.bottom))
  }

  /** A text `drawText` places: its colour and size, and the baseline point. */
  datatype TextDraw = TextDraw(text: string, color: int, size: real, x: real, y: real)

  /** `Gravity.TOP` and `Gravity.BOTTOM`. */
  datatype VerticalGravity = Top | Bottom

  /**
   * `drawText`: centred horizontally; with `Top` the baseline sits one text
   * height below the top edge, with `Bottom` half a text height (an `Int`
   * division) above the bottom edge. `textHeight` stands for `getTextBounds`.
   */
  function PlaceText(text: string, color: int, size: real, gravity: VerticalGravity, rect: Rect,
                     textHeight: (string, real) -> nat): (d: TextDraw)
    ensures d.text == text && d.color == color && d.size == size && d.x == CenterX(rect) as real
    ensures gravity == Top ==> d.y >= rect.top as real
    ensures gravity == Bottom ==> d.y <= rect.bottom as real
  {
    var h := textHeight(text, size);
    TextDraw(text, color, size, CenterX(rect) as real,
             if gravity == Top then rect.top as real + h as real else rect.bottom as real - (h / 2) as real)
  }

  /** The heading text: the degree truncated toward zero, then "°". */
  function DegreeText(degree: real): (s: string)
    ensures |s| >= 2 && s[|s| - 1] == '°'
  {
    IntToString(Trunc(degree)) + "°"
  }

  /** The heading text gives back the truncated degree, so different whole degrees show differently. */
  lemma DegreeTextReadsBack(degree: real)
    ensures ParseInt(DegreeText(degree)[..|DegreeText(degree)| - 1]) == Trunc(degree)
    ensures -1.0 < degree < 1.0 ==> DegreeText(degree) == "0°"
  {
    assert DegreeText(degree)[..|DegreeText(degree)| - 1] == IntToString(Trunc(degree));
    IntToStringRoundTrip(Trunc(degree));
  }

  class AngleLabelPainter {
    var secondaryColor: int
    var secondarySolidColor: int
    var topRect: Rect
    var bottomRect: Rect
    var textSizeDegree: real
    var textSize: real
    var bounds: Rect
    var degree: real

    constructor ()
      ensures secondaryColor == COLOR_BLUE && secondarySolidColor == COLOR_BLUE
      ensures topRect == bottomRect == bounds == Rect(0, 0, 0, 0)
      ensures textSizeDegree == 25.0 && textSize == 15.0 && degree == 0.0
    {
      secondaryColor := COLOR_BLUE;
      secondarySolidColor := COLOR_BLUE;
      topRect := Rect(0, 0, 0, 0);
      bottomRect := Rect(0, 0, 0, 0);
      textSizeDegree := 25.0;
      textSize := 15.0;
      bounds := Rect(0, 0, 0, 0);
      degree := 0.0;
    }

    /** Splits `bounds` into the two halves; a box of zero width or height leaves them as they were. */
    method UpdateBounds()
      modifies this
      ensures Width(bounds) == 0 || Height(bounds) == 0 ==>
                topRect == old(topRect) && bottomRect == old(bottomRect)
      ensures Width(bounds) != 0 && Height(bounds) != 0 ==> (topRect, bottomRect) == Halves(bounds)
      ensures bounds == old(bounds) && degree == old(degree)
      ensures secondaryColor == old(secondaryColor) && secondarySolidColor == old(secondarySolidColor)
      ensures textSizeDegree == old(textSizeDegree) && textSize == old(textSize)
    {
      if Width(bounds) == 0 || Height(bounds) == 0 {
        return;
      }
      var topHeight := Trunc(Height(bounds) as real * TOP_HALF_SIZE);
      topRect := topRect.(left := bounds.left);
      topRect := topRect.(top := bounds.top);
      topRect := topRect.(right := bounds.right);
      topRect := topRect.(bottom := bounds.top + topHeight);

      bottomRect := bottomRect.(left := bounds.left);
      bottomRect := bottomRect.(top := bounds.top + topHeight);
      bottomRect := bottomRect.(right := bounds.right);
      bottomRect := bottomRect.(bottom := bounds.bottom);
    }

    /** Takes the two text colours from the palette and changes nothing else. */
    method SetPalette(palette: Palette)
      modifies this
      ensures secondaryColor == palette.colorSecondary && secondarySolidColor == palette.colorSecondarySolid
      ensures topRect == old(topRect) && bottomRect == old(bottomRect) && bounds == old(bounds)
      ensures textSizeDegree == old(textSizeDegree) && textSize == old(textSize) && degree == old(degree)
    {
      secondaryColor := palette.colorSecondary;
      secondarySolidColor := palette.colorSecondarySolid;
    }

    /**
     * `draw`: the whole-degree text at the bottom of the top half in the
     * secondary colour, then the sector label at the top of the bottom half in
     * the solid secondary colour.
     */
    method Draw(textHeight: (string, real) -> nat) returns (texts: seq<TextDraw>)
      ensures |texts| == 2
      ensures texts[0] == PlaceText(DegreeText(degree), secondaryColor, textSizeDegree, Bottom, topRect, textHeight)
      ensures texts[1] == PlaceText(FindSub(degree), secondarySolidColor, textSize, Top, bottomRect, textHeight)
    {
      var degreeText := PlaceText(IntToString(Trunc(degree)) + "°", secondaryColor, textSizeDegree, Bottom, topRect, textHeight);
      var sectorText := PlaceText(FindSub(degree), secondarySolidColor, textSize, Top, bottomRect, textHeight);
      texts := [degreeText, sectorText];
    }
  }
}
