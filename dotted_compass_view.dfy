/**
 * The dotted compass face of view/DottedCompassView.kt: 15 rings of 26 dots.
 * Even rings start at 0°, odd rings half a step further round; every dot is
 * also filed under its exact angle in `angleMap`, so that the dots nearest to
 * the current heading can be drawn highlighted.
 */
module DottedCompass {
  import opened Wrappers
  import opened KotlinRuntime
  import opened LinkedMaps
  import opened CompassFace
  import AngleLabel

  const NUM_OF_CIRCLES: int := 15
  const NUM_OF_DOTS_IN_CIRCLE: int := 26

  /** `360f / NUM_OF_DOTS_IN_CIRCLE`: the angle between neighbouring dots of a ring. */
  const APB: real := 360.0 / 26.0

  /** `Color.RED`, `Color.WHITE` and `Color.MAGENTA` as signed colour ints: the colours without a palette. */
  const COLOR_RED: int := -65536
  const COLOR_WHITE: int := -1
  const COLOR_MAGENTA: int := -65281

  /** `AngledPoint`: a dot, with its ring, its angle rounded to hundredths, its point and whether it is the anchor. */
  datatype AngledPoint = AngledPoint(ring: int, angle: real, point: Polar, isAnchor: bool)

  /** `AnglePoints`: the dots filed under one exact angle. */
  datatype AnglePoints = AnglePoints(angle: real, points: seq<AngledPoint>)

  /** A `drawCircle` of `onDraw`, with the paint's colour and alpha at that moment. */
  datatype Circle = Circle(center: Polar, radius: real, color: int, alpha: int)

  // ---------------------------------------------------------------------------
  // The grid

  /** The angle of dot `j` of ring `i`: `j·apb`, plus half a step on the odd rings. */
  function DotAngle(i: int, j: int): real
  {
    j as real * APB + (if i % 2 == 0 then 0.0 else APB / 2.0)
  }

  /**
   * Two dots share an angle exactly when they have the same index and their
   * rings have the same parity: the odd rings sit between the even ones.
   */
  lemma DotAngleInjective(i: int, j: int, i2: int, j2: int)
    requires 0 <= j < NUM_OF_DOTS_IN_CIRCLE && 0 <= j2 < NUM_OF_DOTS_IN_CIRCLE
    ensures DotAngle(i, j) == DotAngle(i2, j2) <==> i % 2 == i2 % 2 && j == j2
  {
    var d := (j - j2) as real;
    assert DotAngle(i, j) - DotAngle(i2, j2) == d * APB
      + (if i % 2 == 0 then 0.0 else APB / 2.0) - (if i2 % 2 == 0 then 0.0 else APB / 2.0);
  }

  /** The angles of a ring increase from its offset and stay below a full turn. */
  lemma DotAngleRange(i: int, j: int)
    requires 0 <= j < NUM_OF_DOTS_IN_CIRCLE
    ensures 0.0 <= DotAngle(i, j) < 360.0
    ensures i % 2 == 1 ==> DotAngle(i, j) >= APB / 2.0
  {
  }

  /**
   * `dotCoordinates`: the dot of `ring` at `angle`. Its angle is `angle` rounded
   * to hundredths, and it is the anchor exactly when that rounding gives 0
   * and the ring is ring 4.
   */
  function DotCoordinates(radius: real, angle: real, ring: int): (p: AngledPoint)
    ensures p.ring == ring && p.point == Polar(angle, radius)
    ensures -0.005 <= p.angle - angle <= 0.005
    ensures p.isAnchor <==> ring == 4 && -0.005 < angle < 0.005
  {
    var roundAngle := RoundHundredths(angle);
    RoundHundredthsZero(angle);
    AngledPoint(ring, roundAngle, Polar(angle, radius), roundAngle == 0.0 && ring == 4)
  }

  /** The radius of ring `i`: `minRadius + i·step`. */
  function RingRadius(minRadius: real, step: real, i: int): real
  {
    minRadius + i as real * step
  }

  /** The dot `calculateDots(minRadius, step)` makes for ring `i`, index `j`. */
  function Dot(minRadius: real, step: real, i: int, j: int): AngledPoint
  {
    DotCoordinates(RingRadius(minRadius, step, i), DotAngle(i, j), i)
  }

  function Ring(minRadius: real, step: real, i: int): (ring: seq<AngledPoint>)
    ensures |ring| == NUM_OF_DOTS_IN_CIRCLE
    ensures forall j :: 0 <= j < NUM_OF_DOTS_IN_CIRCLE ==> ring[j] == Dot(minRadius, step, i, j)
  {
    seq(NUM_OF_DOTS_IN_CIRCLE, j => Dot(minRadius, step, i, j))
  }

  /** The `dots` array `calculateDots` builds: ring by ring, dot by dot. */
  function Grid(minRadius: real, step: real): (dots: seq<seq<AngledPoint>>)
    ensures |dots| == NUM_OF_CIRCLES
    ensures forall i :: 0 <= i < NUM_OF_CIRCLES ==> dots[i] == Ring(minRadius, step, i)
  {
    seq(NUM_OF_CIRCLES, i => Ring(minRadius, step, i))
  }

  /** The grid has exactly one anchor: dot 0 of ring 4. */
  lemma GridAnchor(minRadius: real, step: real, i: int, j: int)
    requires 0 <= i < NUM_OF_CIRCLES && 0 <= j < NUM_OF_DOTS_IN_CIRCLE
    ensures Grid(minRadius, step)[i][j].isAnchor <==> i == 4 && j == 0
  {
    assert Grid(minRadius, step)[i][j] == Dot(minRadius, step, i, j);
    if i == 4 && j > 0 {
      assert DotAngle(i, j) >= APB;
    }
  }

  /** The dots of ring `i` with the angle each is filed under, in generation order. */
  function RingPairs(minRadius: real, step: real, i: int): (ps: seq<(real, AngledPoint)>)
    ensures |ps| == NUM_OF_DOTS_IN_CIRCLE
    ensures forall j :: 0 <= j < NUM_OF_DOTS_IN_CIRCLE ==> ps[j] == (DotAngle(i, j), Dot(minRadius, step, i, j))
  {
    seq(NUM_OF_DOTS_IN_CIRCLE, j => (DotAngle(i, j), Dot(minRadius, step, i, j)))
  }

  /** The filings of the first `n` rings. */
  function Pairs(minRadius: real, step: real, n: nat): (ps: seq<(real, AngledPoint)>)
    ensures |ps| == 26 * n
  {
    if n == 0 then [] else Pairs(minRadius, step, n - 1) + RingPairs(minRadius, step, n - 1)
  }

  // ---------------------------------------------------------------------------
  // Filing dots by angle

  /** One filing of `calculateDots`: the dot goes to the end of the list kept under its angle. */
  function AddPoint(m: LinkedMap<real, AnglePoints>, angle: real, p: AngledPoint): (r: LinkedMap<real, AnglePoints>)
    requires Valid(m)
    ensures Valid(r)
  {
    var existing := if angle in m.entries then m.entries[angle] else AnglePoints(0.0, []);
    Put(m, angle, AnglePoints(angle, existing.points + [p]))
  }

  /** The map that filing `pairs` one after another into an empty map gives. */
  function Group(pairs: seq<(real, AngledPoint)>): (m: LinkedMap<real, AnglePoints>)
    ensures Valid(m)
  {
    if pairs == [] then Empty()
    else AddPoint(Group(pairs[..|pairs| - 1]), pairs[|pairs| - 1].0, pairs[|pairs| - 1].1)
  }

  /** The dots filed under `a`, in filing order. */
  function PointsAt(pairs: seq<(real, AngledPoint)>, a: real): seq<AngledPoint>
  {
    if pairs == [] then []
    else
      var x := pairs[|pairs| - 1];
      PointsAt(pairs[..|pairs| - 1], a) + (if x.0 == a then [x.1] else [])
  }

  lemma {:induction false} PointsAtNone(pairs: seq<(real, AngledPoint)>, a: real)
    requires forall n :: 0 <= n < |pairs| ==> pairs[n].0 != a
    ensures PointsAt(pairs, a) == []
  {
    if pairs != [] {
      PointsAtNone(pairs[..|pairs| - 1], a);
    }
  }

  /** Filing builds a map whose keys are exactly the angles filed. */
  lemma {:induction false} GroupKeys(pairs: seq<(real, AngledPoint)>)
    ensures forall a :: a in Group(pairs).entries <==> exists n :: 0 <= n < |pairs| && pairs[n].0 == a
  {
    if pairs != [] {
      var init, x := pairs[..|pairs| - 1], pairs[|pairs| - 1];
      GroupKeys(init);
      assert Group(pairs).entries == Group(init).entries[x.0 := Group(pairs).entries[x.0]];
      forall a
        ensures a in Group(pairs).entries <==> exists n :: 0 <= n < |pairs| && pairs[n].0 == a
      {
        if a == x.0 {
          assert pairs[|pairs| - 1].0 == a;
        } else if a in Group(init).entries {
          var n :| 0 <= n < |init| && init[n].0 == a;
          assert pairs[n] == init[n];
        } else {
          forall n | 0 <= n < |pairs| ensures pairs[n].0 != a {
            if n < |init| { assert pairs[n] == init[n]; }
          }
        }
      }
    }
  }

  /**
   * Each entry of the filed map has its key as its `angle` and lists exactly
   * the dots filed under that angle, in filing order.
   */
  lemma {:induction false} GroupValues(pairs: seq<(real, AngledPoint)>)
    ensures forall a :: a in Group(pairs).entries ==> Group(pairs).entries[a] == AnglePoints(a, PointsAt(pairs, a))
  {
    if pairs != [] {
      var init, x := pairs[..|pairs| - 1], pairs[|pairs| - 1];
      GroupValues(init);
      var prev := Group(init);
      if x.0 !in prev.entries {
        GroupKeys(init);
        PointsAtNone(init, x.0);
      }
      assert Group(pairs).entries[x.0] == AnglePoints(x.0, PointsAt(init, x.0) + [x.1]);
      assert Group(pairs).entries == prev.entries[x.0 := Group(pairs).entries[x.0]];
    }
  }

  /** The dots of a filing sequence, in order. */
  function PairPoints(pairs: seq<(real, AngledPoint)>): (ps: seq<AngledPoint>)
    ensures |ps| == |pairs| && forall n :: 0 <= n < |pairs| ==> ps[n] == pairs[n].1
  {
    seq(|pairs|, n requires 0 <= n < |pairs| => pairs[n].1)
  }

  /** All dots of the map's entries, in iteration order. */
  function Flatten(keys: seq<real>, entries: map<real, AnglePoints>): seq<AngledPoint>
    requires forall k :: k in keys ==> k in entries
  {
    if keys == [] then []
    else
      var last := keys[|keys| - 1];
      assert last in keys;
      Flatten(keys[..|keys| - 1], entries) + entries[last].points
  }

  lemma {:induction false} FlattenIgnores(keys: seq<real>, e: map<real, AnglePoints>, e2: map<real, AnglePoints>)
    requires forall k :: k in keys ==> k in e && k in e2 && e[k] == e2[k]
    ensures Flatten(keys, e) == Flatten(keys, e2)
  {
    if keys != [] {
      var init, last := keys[..|keys| - 1], keys[|keys| - 1];
      assert keys == init + [last];
      FlattenIgnores(init, e, e2);
    }
  }

  /** Replacing one entry's list swaps that list's dots in the flattening. */
  lemma {:induction false} FlattenUpdate(keys: seq<real>, e: map<real, AnglePoints>, a: real, v: AnglePoints)
    requires Distinct(keys) && a in keys
    requires forall k :: k in keys ==> k in e
    ensures multiset(Flatten(keys, e[a := v])) + multiset(e[a].points)
            == multiset(Flatten(keys, e)) + multiset(v.points)
  {
    var init, last := keys[..|keys| - 1], keys[|keys| - 1];
    assert keys == init + [last];
    var e2 := e[a := v];
    assert Flatten(keys, e2) == Flatten(init, e2) + e2[last].points;
    assert Flatten(keys, e) == Flatten(init, e) + e[last].points;
    var old2, old1 := multiset(Flatten(init, e2)), multiset(Flatten(init, e));
    if last == a {
      assert a !in init;
      FlattenIgnores(init, e, e2);
      assert old2 == old1;
    } else {
      assert a in init;
      assert Distinct(init) by {
        forall i, j | 0 <= i < j < |init| ensures init[i] != init[j] {
          assert init[i] == keys[i] && init[j] == keys[j];
        }
      }
      FlattenUpdate(init, e, a, v);
      var ma, mv, ml := multiset(e[a].points), multiset(v.points), multiset(e[last].points);
      assert old2 + ma == old1 + mv;
      assert e2[last] == e[last];
      assert multiset(Flatten(keys, e2)) == old2 + ml;
      assert multiset(Flatten(keys, e)) == old1 + ml;
      assert (old2 + ml) + ma == (old2 + ma) + ml;
    }
  }

  /** Filing one dot under a known angle adds exactly that dot to the flattening. */
  lemma AddPointToKnown(m: LinkedMap<real, AnglePoints>, a: real, p: AngledPoint)
    requires Valid(m) && a in m.entries
    ensures var r := AddPoint(m, a, p);
      multiset(Flatten(r.keys, r.entries)) == multiset(Flatten(m.keys, m.entries)) + multiset{p}
  {
    var v := AnglePoints(a, m.entries[a].points + [p]);
    var r := LinkedMap(m.keys, m.entries[a := v]);
    assert AddPoint(m, a, p) == r;
    FlattenUpdate(m.keys, m.entries, a, v);
    assert multiset(v.points) == multiset(m.entries[a].points) + multiset{p};
    CancelCommon(multiset(Flatten(r.keys, r.entries)), multiset(Flatten(m.keys, m.entries)),
                 multiset(m.entries[a].points), multiset{p});
  }

  lemma CancelCommon<T>(x: multiset<T>, y: multiset<T>, common: multiset<T>, extra: multiset<T>)
    requires x + common == y + (common + extra)
    ensures x == y + extra
  {
    forall z
      ensures x[z] == (y + extra)[z]
    {
      assert (x + common)[z] == (y + (common + extra))[z];
    }
  }

  /** Filing one dot under a new angle appends exactly that dot to the flattening. */
  lemma AddPointToNew(m: LinkedMap<real, AnglePoints>, a: real, p: AngledPoint)
    requires Valid(m) && a !in m.entries
    ensures var r := AddPoint(m, a, p);
      Flatten(r.keys, r.entries) == Flatten(m.keys, m.entries) + [p]
  {
    var v := AnglePoints(a, [p]);
    assert [] + [p] == [p];
    var r := LinkedMap(m.keys + [a], m.entries[a := v]);
    assert AddPoint(m, a, p) == r;
    assert r.keys[..|r.keys| - 1] == m.keys;
    FlattenIgnores(m.keys, m.entries, r.entries);
  }

  /** Filing one dot adds exactly that dot to the flattening. */
  lemma AddPointKeepsPoints(m: LinkedMap<real, AnglePoints>, a: real, p: AngledPoint)
    requires Valid(m)
    ensures var r := AddPoint(m, a, p);
      multiset(Flatten(r.keys, r.entries)) == multiset(Flatten(m.keys, m.entries)) + multiset{p}
  {
    if a in m.entries {
      AddPointToKnown(m, a, p);
    } else {
      AddPointToNew(m, a, p);
    }
  }

  /** Filing loses no dot and duplicates none: the entries hold exactly the dots filed. */
  lemma {:induction false} GroupKeepsPoints(pairs: seq<(real, AngledPoint)>)
    ensures multiset(Flatten(Group(pairs).keys, Group(pairs).entries)) == multiset(PairPoints(pairs))
  {
    if pairs != [] {
      var init, x := pairs[..|pairs| - 1], pairs[|pairs| - 1];
      GroupKeepsPoints(init);
      AddPointKeepsPoints(Group(init), x.0, x.1);
      PairPointsSnoc(pairs);
    }
  }

  /** One more filing adds its dot to the dots filed. */
  lemma PairPointsSnoc(pairs: seq<(real, AngledPoint)>)
    requires pairs != []
    ensures multiset(PairPoints(pairs)) == multiset(PairPoints(pairs[..|pairs| - 1])) + multiset{pairs[|pairs| - 1].1}
  {
    assert PairPoints(pairs) == PairPoints(pairs[..|pairs| - 1]) + [pairs[|pairs| - 1].1];
  }

  /** Filing one more dot is one more `AddPoint`. */
  lemma GroupSnoc(pairs: seq<(real, AngledPoint)>, x: (real, AngledPoint))
    ensures Group(pairs + [x]) == AddPoint(Group(pairs), x.0, x.1)
  {
    assert (pairs + [x])[..|pairs|] == pairs;
  }

  /** The dots of the first `n` rings, ring after ring. */
  function Concat(rings: seq<seq<AngledPoint>>): seq<AngledPoint>
  {
    if rings == [] then [] else Concat(rings[..|rings| - 1]) + rings[|rings| - 1]
  }

  lemma {:induction false} PairsFollowGrid(minRadius: real, step: real, n: nat)
    requires n <= NUM_OF_CIRCLES
    ensures PairPoints(Pairs(minRadius, step, n)) == Concat(Grid(minRadius, step)[..n])
  {
    if n > 0 {
      PairsFollowGrid(minRadius, step, n - 1);
      var g := Grid(minRadius, step);
      assert g[..n][..n - 1] == g[..n - 1];
      assert PairPoints(RingPairs(minRadius, step, n - 1)) == Ring(minRadius, step, n - 1);
      assert PairPoints(Pairs(minRadius, step, n))
          == PairPoints(Pairs(minRadius, step, n - 1)) + PairPoints(RingPairs(minRadius, step, n - 1));
    }
  }

  /**
   * After `calculateDots` the map's entries hold exactly the dots of the
   * grid, each once: their flattening is a permutation of the rings' dots.
   * (`rings` is the number of rings, 15; a literal there would make the
   * solver unfold the whole construction.)
   */
  lemma AngleMapHoldsGrid(minRadius: real, step: real, rings: nat)
    requires rings == |Grid(minRadius, step)|
    ensures var m := Group(Pairs(minRadius, step, rings));
      multiset(Flatten(m.keys, m.entries)) == multiset(Concat(Grid(minRadius, step)))
  {
    GroupKeepsPoints(Pairs(minRadius, step, rings));
    PairsAreGrid(minRadius, step);
  }

  /** The filings of all the rings list the grid's dots ring after ring. */
  lemma PairsAreGrid(minRadius: real, step: real)
    ensures PairPoints(Pairs(minRadius, step, |Grid(minRadius, step)|)) == Concat(Grid(minRadius, step))
  {
    var g := Grid(minRadius, step);
    PairsFollowGrid(minRadius, step, |g|);
    assert g[..|g|] == g;
  }

  /** The entries hold 390 dots in all: 15 rings of 26. */
  lemma AngleMapSize(minRadius: real, step: real)
    ensures var m := Group(Pairs(minRadius, step, NUM_OF_CIRCLES));
      |Flatten(m.keys, m.entries)| == NUM_OF_CIRCLES * NUM_OF_DOTS_IN_CIRCLE
  {
    var pairs := Pairs(minRadius, step, NUM_OF_CIRCLES);
    var m := Group(pairs);
    GroupKeepsPoints(pairs);
    var flat := Flatten(m.keys, m.entries);
    assert |multiset(flat)| == |multiset(PairPoints(pairs))| == |pairs|;
  }

  /**
   * After `calculateDots` the keys are exactly the dot angles, each entry's
   * `angle` is its key, and the entry lists the dots filed under it.
   */
  lemma AngleMapEntries(minRadius: real, step: real)
    ensures var pairs := Pairs(minRadius, step, NUM_OF_CIRCLES);
      && (forall a :: a in Group(pairs).entries <==> exists n :: 0 <= n < |pairs| && pairs[n].0 == a)
      && (forall a :: a in Group(pairs).entries ==> Group(pairs).entries[a] == AnglePoints(a, PointsAt(pairs, a)))
  {
    GroupKeys(Pairs(minRadius, step, NUM_OF_CIRCLES));
    GroupValues(Pairs(minRadius, step, NUM_OF_CIRCLES));
  }

  // ---------------------------------------------------------------------------
  // The nearest angle

  /** The scan of `findNearestDegree` over `keys`, from (0, 100): the nearest angle so far and its distance. */
  function Scan(keys: seq<real>, target: real): (res: (real, real))
    ensures res.1 <= 100.0
  {
    if keys == [] then (0.0, 100.0)
    else
      var prev := Scan(keys[..|keys| - 1], target);
      var diff := Abs(keys[|keys| - 1] - target);
      if diff < prev.1 then (keys[|keys| - 1], diff) else prev
  }

  /** No key is nearer to the target than the distance the scan ends on. */
  lemma {:induction false} ScanBound(keys: seq<real>, target: real)
    ensures forall j :: 0 <= j < |keys| ==> Abs(keys[j] - target) >= Scan(keys, target).1
  {
    if keys != [] {
      var init := keys[..|keys| - 1];
      ScanBound(init, target);
      assert forall j :: 0 <= j < |init| ==> keys[j] == init[j];
    }
  }

  /** While no key is nearer than 100, the scan keeps its starting angle 0. */
  lemma {:induction false} ScanDefault(keys: seq<real>, target: real)
    ensures Scan(keys, target).1 == 100.0 ==> Scan(keys, target).0 == 0.0
  {
    if keys != [] {
      ScanDefault(keys[..|keys| - 1], target);
    }
  }

  /** Key `i` is at distance `d` from the target, and every earlier key is farther. */
  predicate FirstAt(keys: seq<real>, target: real, i: int, a: real, d: real)
  {
    0 <= i < |keys| && keys[i] == a && Abs(keys[i] - target) == d
    && forall j :: 0 <= j < i ==> Abs(keys[j] - target) > d
  }

  /** A distance below 100 belongs to a key, and to the first key that near. */
  lemma {:induction false} ScanWitness(keys: seq<real>, target: real)
    ensures var res := Scan(keys, target);
      res.1 < 100.0 ==> exists i :: FirstAt(keys, target, i, res.0, res.1)
  {
    if keys != [] {
      var init := keys[..|keys| - 1];
      ScanWitness(init, target);
      var prev := Scan(init, target);
      var diff := Abs(keys[|keys| - 1] - target);
      if diff >= prev.1 && prev.1 < 100.0 {
        var i :| FirstAt(init, target, i, prev.0, prev.1);
        assert forall j :: 0 <= j <= i ==> keys[j] == init[j];
        assert FirstAt(keys, target, i, prev.0, prev.1);
      } else if diff < prev.1 {
        ScanBound(init, target);
        var i := |keys| - 1;
        assert forall j :: 0 <= j < i ==> keys[j] == init[j];
        assert FirstAt(keys, target, i, keys[i], diff);
      }
    }
  }

  /**
   * The scan ends on the first key of least distance when that distance is
   * below 100, and on (0, 100) when no key is that near.
   */
  lemma ScanNearest(keys: seq<real>, target: real)
    ensures var res := Scan(keys, target);
      && (forall j :: 0 <= j < |keys| ==> Abs(keys[j] - target) >= res.1)
      && (res.1 < 100.0 ==> exists i :: 0 <= i < |keys| && keys[i] == res.0 && Abs(keys[i] - target) == res.1
                              && forall j :: 0 <= j < i ==> Abs(keys[j] - target) > res.1)
      && (res.1 == 100.0 ==> res.0 == 0.0)
  {
    ScanBound(keys, target);
    ScanWitness(keys, target);
    ScanDefault(keys, target);
  }

  /** One more key of the scan: it takes over only when strictly nearer. */
  lemma ScanSnoc(keys: seq<real>, n: int, target: real)
    requires 0 <= n < |keys|
    ensures var prev, diff := Scan(keys[..n], target), Abs(keys[n] - target);
      Scan(keys[..n + 1], target) == if diff < prev.1 then (keys[n], diff) else prev
  {
    assert keys[..n + 1][..n] == keys[..n];
  }

  /** `findNearestDegree`: 0 for an empty map, otherwise the scan against |degree|. */
  function FindNearest(keys: seq<real>, degree: real): real
  {
    if |keys| == 0 then 0.0 else Scan(keys, Abs(degree)).0
  }

  /**
   * The nearest angle is 0, or a key less than 100° from |degree| that no key
   * beats and that comes first among the keys as near; it is 0 exactly when
   * no key is that close (or when that key is itself 0).
   */
  lemma NearestDegree(keys: seq<real>, degree: real)
    ensures keys == [] ==> FindNearest(keys, degree) == 0.0
    ensures var r, t := FindNearest(keys, degree), Abs(degree);
      (exists i :: 0 <= i < |keys| && Abs(keys[i] - t) < 100.0) ==>
        exists i :: 0 <= i < |keys| && keys[i] == r && Abs(r - t) < 100.0
          && (forall j :: 0 <= j < |keys| ==> Abs(keys[j] - t) >= Abs(r - t))
          && (forall j :: 0 <= j < i ==> Abs(keys[j] - t) > Abs(r - t))
    ensures var t := Abs(degree);
      (forall i :: 0 <= i < |keys| ==> Abs(keys[i] - t) >= 100.0) ==> FindNearest(keys, degree) == 0.0
  {
    ScanNearest(keys, Abs(degree));
  }

  /** The degree enters only through its absolute value. */
  lemma NearestIgnoresSign(keys: seq<real>, degree: real)
    ensures FindNearest(keys, -degree) == FindNearest(keys, degree)
  {
  }

  // ---------------------------------------------------------------------------
  // Drawing

  /** The alpha of ring `i`: 255 for the innermost, 15 less per ring. */
  function RingAlpha(i: int): (alpha: int)
    ensures 0 <= i < NUM_OF_CIRCLES ==> 45 <= alpha <= 255
    ensures alpha == 255 - 15 * i
  {
    255 - (i * 15)
  }

  /** The circle the ring pass draws for a dot: the anchor is bigger, a dot rounded to 0° takes the north colour. */
  function DotCircle(ap: AngledPoint, alpha: int, northColor: int, dotColor: int): Circle
  {
    Circle(ap.point, if ap.isAnchor then 10.0 else 5.0, if ap.angle == 0.0 then northColor else dotColor, alpha)
  }

  function RingCircles(dots: seq<AngledPoint>, alpha: int, northColor: int, dotColor: int): (cs: seq<Circle>)
    ensures |cs| == |dots|
    ensures forall j :: 0 <= j < |dots| ==> cs[j] == DotCircle(dots[j], alpha, northColor, dotColor)
  {
    seq(|dots|, j requires 0 <= j < |dots| => DotCircle(dots[j], alpha, northColor, dotColor))
  }

  /** The ring pass of `onDraw`: ring by ring, each with its alpha. */
  function GridCircles(dots: seq<seq<AngledPoint>>, northColor: int, dotColor: int): seq<Circle>
  {
    if dots == [] then []
    else
      GridCircles(dots[..|dots| - 1], northColor, dotColor)
        + RingCircles(dots[|dots| - 1], RingAlpha(|dots| - 1), northColor, dotColor)
  }

  /** The highlight pass of `onDraw`: the dots filed under the nearest angle, in the current colour. */
  function Highlight(angleMap: LinkedMap<real, AnglePoints>, nearAngle: real, currentColor: int): seq<Circle>
  {
    if nearAngle != 0.0 && nearAngle in angleMap.entries then
      HighlightCircles(angleMap.entries[nearAngle].points, currentColor)
    else []
  }

  /** A highlighted dot: the small circle in the current colour, with its ring's alpha. */
  function HighlightCircles(ps: seq<AngledPoint>, currentColor: int): (cs: seq<Circle>)
    ensures |cs| == |ps|
    ensures forall k :: 0 <= k < |ps| ==> cs[k] == Circle(ps[k].point, 5.0, currentColor, RingAlpha(ps[k].ring))
  {
    seq(|ps|, k requires 0 <= k < |ps| => Circle(ps[k].point, 5.0, currentColor, RingAlpha(ps[k].ring)))
  }

  lemma GridCirclesStep(dots: seq<seq<AngledPoint>>, i: int, northColor: int, dotColor: int)
    requires 0 <= i < |dots|
    ensures GridCircles(dots[..i + 1], northColor, dotColor)
            == GridCircles(dots[..i], northColor, dotColor) + RingCircles(dots[i], RingAlpha(i), northColor, dotColor)
  {
    assert dots[..i + 1][..i] == dots[..i];
  }

  lemma RingCirclesStep(ring: seq<AngledPoint>, j: int, alpha: int, northColor: int, dotColor: int)
    requires 0 <= j < |ring|
    ensures RingCircles(ring[..j + 1], alpha, northColor, dotColor)
            == RingCircles(ring[..j], alpha, northColor, dotColor) + [DotCircle(ring[j], alpha, northColor, dotColor)]
  {
  }

  lemma HighlightStep(ps: seq<AngledPoint>, k: int, currentColor: int)
    requires 0 <= k < |ps|
    ensures HighlightCircles(ps[..k + 1], currentColor)
            == HighlightCircles(ps[..k], currentColor) + [Circle(ps[k].point, 5.0, currentColor, RingAlpha(ps[k].ring))]
  {
  }

  /** With at most 15 rings every circle of the ring pass has an alpha in [45, 255]. */
  lemma {:induction false} GridCirclesAlpha(dots: seq<seq<AngledPoint>>, northColor: int, dotColor: int)
    requires |dots| <= NUM_OF_CIRCLES
    ensures forall c :: c in GridCircles(dots, northColor, dotColor) ==> 45 <= c.alpha <= 255
  {
    if dots != [] {
      GridCirclesAlpha(dots[..|dots| - 1], northColor, dotColor);
    }
  }

  /** Every dot of the first `n` rings' filings belongs to one of those rings. */
  lemma {:induction false} PairsRings(minRadius: real, step: real, n: nat)
    ensures forall m :: 0 <= m < |Pairs(minRadius, step, n)| ==> 0 <= Pairs(minRadius, step, n)[m].1.ring < n
  {
    if n > 0 {
      PairsRings(minRadius, step, n - 1);
      var prev: seq<(real, AngledPoint)> := Pairs(minRadius, step, n - 1);
      var ring: seq<(real, AngledPoint)> := RingPairs(minRadius, step, n - 1);
      assert Pairs(minRadius, step, n) == prev + ring;
      forall m | 0 <= m < |prev + ring| ensures 0 <= (prev + ring)[m].1.ring < n {
        if m >= |prev| {
          assert (prev + ring)[m] == ring[m - |prev|];
        }
      }
    }
  }

  lemma {:induction false} PointsAtFrom(pairs: seq<(real, AngledPoint)>, a: real, p: AngledPoint)
    requires p in PointsAt(pairs, a)
    ensures exists n :: 0 <= n < |pairs| && pairs[n] == (a, p)
  {
    var init := pairs[..|pairs| - 1];
    if p in PointsAt(init, a) {
      PointsAtFrom(init, a, p);
      var n :| 0 <= n < |init| && init[n] == (a, p);
      assert pairs[n] == init[n];
    } else {
      assert pairs[|pairs| - 1] == (a, p);
    }
  }

  /** After `calculateDots` every highlighted circle has an alpha in [45, 255]. */
  lemma HighlightAlpha(minRadius: real, step: real, nearAngle: real, currentColor: int)
    ensures var m := Group(Pairs(minRadius, step, NUM_OF_CIRCLES));
      forall c :: c in Highlight(m, nearAngle, currentColor) ==> 45 <= c.alpha <= 255
  {
    var pairs := Pairs(minRadius, step, NUM_OF_CIRCLES);
    var m := Group(pairs);
    if nearAngle != 0.0 && nearAngle in m.entries {
      GroupValues(pairs);
      PairsRings(minRadius, step, NUM_OF_CIRCLES);
      var ps := m.entries[nearAngle].points;
      forall k | 0 <= k < |ps| ensures 0 <= ps[k].ring < NUM_OF_CIRCLES {
        PointsAtFrom(pairs, nearAngle, ps[k]);
      }
    }
  }

  /** What `calculateDots` has filed once it is at dot `j` of ring `i`. */
  function Filed(minRadius: real, step: real, i: nat, j: nat): seq<(real, AngledPoint)>
    requires j <= NUM_OF_DOTS_IN_CIRCLE
  {
    Pairs(minRadius, step, i) + RingPairs(minRadius, step, i)[..j]
  }

  /** One turn of the inner loop of `calculateDots`: the dot it makes and files. */
  lemma FileStep(minRadius: real, step: real, i: nat, j: nat)
    requires j < NUM_OF_DOTS_IN_CIRCLE
    ensures Ring(minRadius, step, i)[..j + 1] == Ring(minRadius, step, i)[..j] + [Dot(minRadius, step, i, j)]
    ensures Filed(minRadius, step, i, j + 1) == Filed(minRadius, step, i, j) + [(DotAngle(i, j), Dot(minRadius, step, i, j))]
  {
    var ring := RingPairs(minRadius, step, i);
    assert ring[..j + 1] == ring[..j] + [(DotAngle(i, j), Dot(minRadius, step, i, j))];
  }

  /** The end of the inner loop: the ring is complete and so is its filing. */
  lemma RingStep(minRadius: real, step: real, i: nat, list: seq<AngledPoint>)
    requires i < NUM_OF_CIRCLES
    requires list == Ring(minRadius, step, i)[..NUM_OF_DOTS_IN_CIRCLE]
    ensures Grid(minRadius, step)[..i + 1] == Grid(minRadius, step)[..i] + [list]
    ensures Filed(minRadius, step, i, NUM_OF_DOTS_IN_CIRCLE) == Pairs(minRadius, step, i + 1)
  {
    assert RingPairs(minRadius, step, i)[..NUM_OF_DOTS_IN_CIRCLE] == RingPairs(minRadius, step, i);
    assert list == Ring(minRadius, step, i);
  }

  class DottedCompassView {
    var dots: seq<seq<AngledPoint>>
    var angleMap: LinkedMap<real, AnglePoints>
    var nearAngle: real
    var degrees: real
    var dotColor: int
    var northColor: int
    var currentColor: int
    const angleLabelPainter: AngleLabel.AngleLabelPainter

    constructor ()
      ensures dots == [] && angleMap == Empty() && nearAngle == 270.0 && degrees == 0.0
      ensures dotColor == COLOR_WHITE && northColor == COLOR_RED && currentColor == COLOR_MAGENTA
      ensures fresh(angleLabelPainter)
      ensures angleLabelPainter.secondaryColor == AngleLabel.COLOR_BLUE && angleLabelPainter.secondarySolidColor == AngleLabel.COLOR_BLUE
      ensures angleLabelPainter.topRect == angleLabelPainter.bottomRect == angleLabelPainter.bounds == AngleLabel.Rect(0, 0, 0, 0)
      ensures angleLabelPainter.textSizeDegree == 25.0 && angleLabelPainter.textSize == 15.0 && angleLabelPainter.degree == 0.0
    {
      dots := [];
      angleMap := Empty();
      nearAngle := 270.0;
      degrees := 0.0;
      dotColor := COLOR_WHITE;
      northColor := COLOR_RED;
      currentColor := COLOR_MAGENTA;
      angleLabelPainter := new AngleLabel.AngleLabelPainter();
    }

    /** `updateColors`: the palette's colours for the dots, and the label painter's. */
    method UpdateColors(palette: AngleLabel.Palette)
      modifies this, angleLabelPainter
      ensures dotColor == palette.colorOnPrimary && northColor == palette.colorSecondary
      ensures currentColor == palette.colorSecondarySolid
      ensures angleLabelPainter.secondaryColor == palette.colorSecondary
      ensures angleLabelPainter.secondarySolidColor == palette.colorSecondarySolid
      ensures dots == old(dots) && angleMap == old(angleMap) && nearAngle == old(nearAngle) && degrees == old(degrees)
      ensures angleLabelPainter.degree == old(angleLabelPainter.degree)
      ensures angleLabelPainter.topRect == old(angleLabelPainter.topRect)
      ensures angleLabelPainter.bottomRect == old(angleLabelPainter.bottomRect)
      ensures angleLabelPainter.bounds == old(angleLabelPainter.bounds)
      ensures angleLabelPainter.textSizeDegree == old(angleLabelPainter.textSizeDegree)
      ensures angleLabelPainter.textSize == old(angleLabelPainter.textSize)
    {
      dotColor := palette.colorOnPrimary;
      northColor := palette.colorSecondary;
      currentColor := palette.colorSecondarySolid;
      angleLabelPainter.SetPalette(palette);
    }

    /** `findNearestDegree`: the scan over the map's keys in iteration order. */
    method FindNearestDegree(degree: real) returns (nearestAngle: real)
      requires Valid(angleMap)
      ensures nearestAngle == FindNearest(angleMap.keys, degree)
    {
      var keys := angleMap.keys;
      if |keys| == 0 {
        return 0.0;
      }
      var abs := Abs(degree);
      nearestAngle := 0.0;
      var min := 100.0;
      for n := 0 to |keys|
        invariant (nearestAngle, min) == Scan(keys[..n], abs)
      {
        var it := keys[n];
        ScanSnoc(keys, n, abs);
        var diff := Abs(it - abs);
        if diff < min {
          min := diff;
          nearestAngle := it;
        }
      }
      assert keys[..|keys|] == keys;
    }

    /** The `degrees` setter: remembers the nearest angle and hands the degree to the label painter. */
    method SetDegrees(value: real)
      requires Valid(angleMap)
      modifies this, angleLabelPainter
      ensures degrees == value && nearAngle == FindNearest(angleMap.keys, value)
      ensures angleLabelPainter.degree == value
      ensures dots == old(dots) && angleMap == old(angleMap)
      ensures dotColor == old(dotColor) && northColor == old(northColor) && currentColor == old(currentColor)
      ensures angleLabelPainter.secondaryColor == old(angleLabelPainter.secondaryColor)
      ensures angleLabelPainter.secondarySolidColor == old(angleLabelPainter.secondarySolidColor)
      ensures angleLabelPainter.topRect == old(angleLabelPainter.topRect)
      ensures angleLabelPainter.bottomRect == old(angleLabelPainter.bottomRect)
      ensures angleLabelPainter.bounds == old(angleLabelPainter.bounds)
      ensures angleLabelPainter.textSizeDegree == old(angleLabelPainter.textSizeDegree)
      ensures angleLabelPainter.textSize == old(angleLabelPainter.textSize)
    {
      degrees := value;
      nearAngle := FindNearestDegree(value);
      angleLabelPainter.degree := value;
    }

    /** `calculateDots`: clears the map, then makes the rings and files every dot under its angle. */
    method CalculateDots(minRadius: real, step: real)
      modifies this
      ensures dots == Grid(minRadius, step)
      ensures angleMap == Group(Pairs(minRadius, step, NUM_OF_CIRCLES))
      ensures nearAngle == old(nearAngle) && degrees == old(degrees)
      ensures dotColor == old(dotColor) && northColor == old(northColor) && currentColor == old(currentColor)
    {
      var rings: seq<seq<AngledPoint>> := [];
      angleMap := Empty();
      for i := 0 to NUM_OF_CIRCLES
        invariant rings == Grid(minRadius, step)[..i]
        invariant angleMap == Group(Pairs(minRadius, step, i))
        invariant nearAngle == old(nearAngle) && degrees == old(degrees)
        invariant dotColor == old(dotColor) && northColor == old(northColor) && currentColor == old(currentColor)
      {
        var radius := RingRadius(minRadius, step, i);
        var list: seq<AngledPoint> := [];
        assert Filed(minRadius, step, i, 0) == Pairs(minRadius, step, i);
        for j := 0 to NUM_OF_DOTS_IN_CIRCLE
          invariant list == Ring(minRadius, step, i)[..j]
          invariant angleMap == Group(Filed(minRadius, step, i, j))
          invariant nearAngle == old(nearAngle) && degrees == old(degrees)
          invariant dotColor == old(dotColor) && northColor == old(northColor) && currentColor == old(currentColor)
        {
          var angle := DotAngle(i, j);
          var angledPoint := DotCoordinates(radius, angle, i);
          FileStep(minRadius, step, i, j);
          GroupSnoc(Filed(minRadius, step, i, j), (angle, angledPoint));
          list := list + [angledPoint];
          var anglePoints := if angle in angleMap.entries then angleMap.entries[angle] else AnglePoints(0.0, []);
          anglePoints := anglePoints.(angle := angle);
          anglePoints := anglePoints.(points := anglePoints.points + [angledPoint]);
          angleMap := Put(angleMap, angle, anglePoints);
        }
        RingStep(minRadius, step, i, list);
        rings := rings + [list];
      }
      dots := rings;
    }

    /**
     * `onDraw`: on the rotated canvas every dot of every ring, then the
     * highlight; after that the label painter's two texts. `textHeight`
     * stands for the text measurement of the label paint.
     */
    method OnDraw(textHeight: (string, real) -> nat) returns (circles: seq<Circle>, texts: seq<AngleLabel.TextDraw>)
      ensures circles == GridCircles(dots, northColor, dotColor) + Highlight(angleMap, nearAngle, currentColor)
      ensures texts == [
        AngleLabel.PlaceText(AngleLabel.DegreeText(angleLabelPainter.degree), angleLabelPainter.secondaryColor,
                             angleLabelPainter.textSizeDegree, AngleLabel.Bottom, angleLabelPainter.topRect, textHeight),
        AngleLabel.PlaceText(AngleLabel.FindSub(angleLabelPainter.degree), angleLabelPainter.secondarySolidColor,
                             angleLabelPainter.textSize, AngleLabel.Top, angleLabelPainter.bottomRect, textHeight)]
    {
      var ringCircles := GridPass();
      var highlighted := HighlightPass();
      circles := ringCircles + highlighted;
      texts := angleLabelPainter.Draw(textHeight);
    }

    /** The ring pass of `onDraw`: each ring with its alpha, the anchor bigger, the dots at 0° in the north colour. */
    method GridPass() returns (circles: seq<Circle>)
      ensures circles == GridCircles(dots, northColor, dotColor)
    {
      circles := [];
      for i := 0 to |dots|
        invariant circles == GridCircles(dots[..i], northColor, dotColor)
      {
        var dotArray := dots[i];
        var alpha := 255 - (i * 15);
        GridCirclesStep(dots, i, northColor, dotColor);
        ghost var before := circles;
        for j := 0 to |dotArray|
          invariant circles == before + RingCircles(dotArray[..j], alpha, northColor, dotColor)
        {
          var ap := dotArray[j];
          var color := if ap.angle == 0.0 then northColor else dotColor;
          RingCirclesStep(dotArray, j, alpha, northColor, dotColor);
          circles := circles + [Circle(ap.point, if ap.isAnchor then 10.0 else 5.0, color, alpha)];
        }
        assert dotArray[..|dotArray|] == dotArray;
      }
      assert dots[..|dots|] == dots;
    }

    /** The highlight pass of `onDraw`: nothing for the angle 0 or an angle without an entry. */
    method HighlightPass() returns (circles: seq<Circle>)
      ensures circles == Highlight(angleMap, nearAngle, currentColor)
    {
      circles := [];
      if nearAngle != 0.0 {
        if nearAngle in angleMap.entries {
          var points := angleMap.entries[nearAngle].points;
          for k := 0 to |points|
            invariant circles == HighlightCircles(points[..k], currentColor)
          {
            var alpha := 255 - (points[k].ring * 15);
            HighlightStep(points, k, currentColor);
            circles := circles + [Circle(points[k].point, 5.0, currentColor, alpha)];
          }
          assert points[..|points|] == points;
        }
      }
    }
  }
}
