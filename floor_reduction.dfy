/**
 * The floor search: every point of the scene is rotated by the negated floor
 * angle about the x axis, and the scene keeps the lowest rotated height seen so
 * far, the (unrotated) point that first reached it, and the running range of z
 * used for depth of field.
 */
module FloorReduction {
  import opened Wrappers

  datatype Point = Point(x: real, y: real, z: real)

  /**
   * Cosine and sine of an angle given in degrees. The model does not fix
   * them; results that need particular values say so in their requires.
   */
  datatype Trig = Trig(cosDeg: real -> real, sinDeg: real -> real)

  /** Rotation about the x axis by `-angle` degrees. */
  function Rotate(p: Point, angle: real, t: Trig): (q: Point)
    ensures q.x == p.x
  {
    var c := t.cosDeg(-angle);
    var s := t.sinDeg(-angle);
    Point(p.x, p.y * c + (-1.0) * p.z * s, p.y * s + p.z * c)
  }

  /** The height of a point once the floor angle has been taken out. */
  function Height(p: Point, angle: real, t: Trig): (h: real)
    ensures t.cosDeg(-angle) == 1.0 && t.sinDeg(-angle) == 0.0 ==> h == p.y
    ensures t.cosDeg(-angle) == 0.0 && t.sinDeg(-angle) == -1.0 ==> h == p.z
  {
    Rotate(p, angle, t).y
  }

  /** With a floor angle of 0 the rotation leaves every point where it is. */
  lemma RotateZero(p: Point, t: Trig)
    requires t.cosDeg(0.0) == 1.0 && t.sinDeg(0.0) == 0.0
    ensures Rotate(p, 0.0, t) == p
  {
    assert -0.0 == 0.0;
  }

  /**
   * With the default floor angle of 90 degrees the rotated height is the
   * point's z coordinate, and the rotated z is its negated y.
   */
  lemma RotateNinety(p: Point, t: Trig)
    requires t.cosDeg(-90.0) == 0.0 && t.sinDeg(-90.0) == -1.0
    ensures Rotate(p, 90.0, t) == Point(p.x, p.z, -p.y)
  {
  }

  /** What the scene has gathered so far; a height of None stands for +infinity. */
  datatype Floor = Floor(height: Option<real>, lowest: Point, maxz: real, minz: real)

  /** The state before any point: infinite height, the origin, and the z range seeds -200 and 200. */
  function InitialFloor(): (g: Floor)
    ensures forall h: real :: Below(h, g.height)
    ensures g.lowest == Point(0.0, 0.0, 0.0) && g.maxz == -200.0 && g.minz == 200.0
  {
    Floor(None, Point(0.0, 0.0, 0.0), -200.0, 200.0)
  }

  /** `h` is strictly below `bound`, every real being below +infinity. */
  predicate Below(h: real, bound: Option<real>) {
    bound.None? || h < bound.value
  }

  /** One point looked at: a strictly lower height replaces the lowest point. */
  function Observe(f: Floor, p: Point, angle: real, t: Trig): (g: Floor)
    ensures g.height.Some? && g.height.value <= Height(p, angle, t)
    ensures f.height.Some? ==> g.height.value <= f.height.value
    ensures g.height == f.height || g.height == Some(Height(p, angle, t))
    ensures g.lowest == (if Below(Height(p, angle, t), f.height) then p else f.lowest)
    ensures f.maxz <= g.maxz && p.z <= g.maxz && (g.maxz == f.maxz || g.maxz == p.z)
    ensures g.minz <= f.minz && g.minz <= p.z && (g.minz == f.minz || g.minz == p.z)
  {
    var h := Height(p, angle, t);
    var low := if Below(h, f.height) then Floor(Some(h), p, f.maxz, f.minz) else f;
    Floor(low.height, low.lowest, if p.z > f.maxz then p.z else f.maxz, if p.z < f.minz then p.z else f.minz)
  }

  /**
   * The points looked at in order, at one floor angle: once a point is seen
   * the height is set, it never rises, and the z range only widens.
   */
  function ObserveAll(f: Floor, ps: seq<Point>, angle: real, t: Trig): (g: Floor)
    ensures ps != [] ==> g.height.Some?
    ensures f.height.Some? ==> g.height.Some? && g.height.value <= f.height.value
    ensures f.maxz <= g.maxz && g.minz <= f.minz
    decreases |ps|
  {
    if ps == [] then f else Observe(ObserveAll(f, ps[..|ps| - 1], angle, t), ps[|ps| - 1], angle, t)
  }

  lemma ObserveAllSnoc(f: Floor, ps: seq<Point>, p: Point, angle: real, t: Trig)
    ensures ObserveAll(f, ps + [p], angle, t) == Observe(ObserveAll(f, ps, angle, t), p, angle, t)
  {
    assert (ps + [p])[..|ps|] == ps;
  }

  /**
   * From the initial state, the height is +infinity exactly when no point was
   * seen, and otherwise the least rotated height; the lowest point is the
   * first point that reaches it, ties going to the earlier point.
   */
  lemma {:induction false} ObserveAllLowest(ps: seq<Point>, angle: real, t: Trig)
    ensures var g := ObserveAll(InitialFloor(), ps, angle, t);
            && (g.height.None? <==> ps == [])
            && (g.height.None? ==> g.lowest == Point(0.0, 0.0, 0.0))
            && (forall j :: 0 <= j < |ps| ==> g.height.value <= Height(ps[j], angle, t))
            && (ps != [] ==> exists i :: 0 <= i < |ps| && g.lowest == ps[i] && g.height.value == Height(ps[i], angle, t)
                                         && forall j :: 0 <= j < i ==> Height(ps[j], angle, t) > g.height.value)
    decreases |ps|
  {
    if ps != [] {
      var qs, p := ps[..|ps| - 1], ps[|ps| - 1];
      assert ps == qs + [p];
      ObserveAllLowest(qs, angle, t);
      ObserveAllSnoc(InitialFloor(), qs, p, angle, t);
      var f := ObserveAll(InitialFloor(), qs, angle, t);
      var g := ObserveAll(InitialFloor(), ps, angle, t);
      var h := Height(p, angle, t);
      if Below(h, f.height) {
        assert g.lowest == ps[|ps| - 1] && g.height.value == h;
        assert forall j :: 0 <= j < |qs| ==> Height(ps[j], angle, t) > h by {
          forall j | 0 <= j < |qs|
            ensures Height(ps[j], angle, t) > h
          {
            assert ps[j] == qs[j];
          }
        }
      } else {
        assert f.height.Some?;
        var i :| 0 <= i < |qs| && f.lowest == qs[i] && f.height.value == Height(qs[i], angle, t)
                 && forall j :: 0 <= j < i ==> Height(qs[j], angle, t) > f.height.value;
        assert g == Floor(f.height, f.lowest, g.maxz, g.minz);
        assert ps[i] == qs[i];
        assert forall j :: 0 <= j < i ==> ps[j] == qs[j];
      }
      assert forall j :: 0 <= j < |qs| ==> ps[j] == qs[j];
    }
  }

  /**
   * From any start, maxz is the largest of its seed and the z coordinates
   * seen, and minz the least.
   */
  lemma {:induction false} ObserveAllDepthRange(f: Floor, ps: seq<Point>, angle: real, t: Trig)
    ensures var g := ObserveAll(f, ps, angle, t);
            && f.maxz <= g.maxz && (forall j :: 0 <= j < |ps| ==> ps[j].z <= g.maxz)
            && (g.maxz == f.maxz || exists i :: 0 <= i < |ps| && g.maxz == ps[i].z)
            && g.minz <= f.minz && (forall j :: 0 <= j < |ps| ==> g.minz <= ps[j].z)
            && (g.minz == f.minz || exists i :: 0 <= i < |ps| && g.minz == ps[i].z)
    decreases |ps|
  {
    if ps != [] {
      var qs, p := ps[..|ps| - 1], ps[|ps| - 1];
      assert ps == qs + [p];
      ObserveAllDepthRange(f, qs, angle, t);
      ObserveAllSnoc(f, qs, p, angle, t);
      assert forall j :: 0 <= j < |qs| ==> ps[j] == qs[j];
      var g0 := ObserveAll(f, qs, angle, t);
      var g := ObserveAll(f, ps, angle, t);
      if g.maxz != f.maxz && g.maxz != p.z {
        assert g.maxz == g0.maxz;
        var i :| 0 <= i < |qs| && g0.maxz == qs[i].z;
        assert g.maxz == ps[i].z;
      }
      if g.minz != f.minz && g.minz != p.z {
        assert g.minz == g0.minz;
        var i :| 0 <= i < |qs| && g0.minz == qs[i].z;
        assert g.minz == ps[i].z;
      }
    }
  }

  /**
   * The floor height does not depend on the order in which the points come:
   * any rearrangement of the same points gives the same height.
   */
  lemma ObserveAllHeightOrderFree(ps: seq<Point>, qs: seq<Point>, angle: real, t: Trig)
    requires multiset(ps) == multiset(qs)
    ensures ObserveAll(InitialFloor(), ps, angle, t).height == ObserveAll(InitialFloor(), qs, angle, t).height
  {
    ObserveAllLowest(ps, angle, t);
    ObserveAllLowest(qs, angle, t);
    var g1 := ObserveAll(InitialFloor(), ps, angle, t);
    var g2 := ObserveAll(InitialFloor(), qs, angle, t);
    if ps == [] {
      assert |qs| == |multiset(qs)| == 0;
    } else {
      assert qs != [] by {
        assert |qs| == |multiset(qs)| == |multiset(ps)| == |ps|;
      }
      var i :| 0 <= i < |ps| && g1.height.value == Height(ps[i], angle, t);
      var k :| 0 <= k < |qs| && g2.height.value == Height(qs[k], angle, t);
      assert ps[i] in multiset(qs);
      var j :| 0 <= j < |qs| && qs[j] == ps[i];
      assert qs[k] in multiset(ps);
      var l :| 0 <= l < |ps| && ps[l] == qs[k];
      assert g2.height.value <= g1.height.value;
      assert g1.height.value <= g2.height.value;
    }
  }

  /**
   * When no two different points share a rotated height, the lowest point
   * does not depend on the order either.
   */
  lemma ObserveAllLowestOrderFree(ps: seq<Point>, qs: seq<Point>, angle: real, t: Trig)
    requires multiset(ps) == multiset(qs)
    requires forall i, j :: 0 <= i < |ps| && 0 <= j < |ps| && Height(ps[i], angle, t) == Height(ps[j], angle, t)
                            ==> ps[i] == ps[j]
    ensures ObserveAll(InitialFloor(), ps, angle, t).lowest == ObserveAll(InitialFloor(), qs, angle, t).lowest
  {
    ObserveAllLowest(ps, angle, t);
    ObserveAllLowest(qs, angle, t);
    ObserveAllHeightOrderFree(ps, qs, angle, t);
    var g1 := ObserveAll(InitialFloor(), ps, angle, t);
    var g2 := ObserveAll(InitialFloor(), qs, angle, t);
    if ps == [] {
      assert |qs| == |multiset(qs)| == 0;
    } else {
      assert qs != [] by {
        assert |qs| == |multiset(qs)| == |multiset(ps)| == |ps|;
      }
      var i :| 0 <= i < |ps| && g1.lowest == ps[i] && g1.height.value == Height(ps[i], angle, t);
      var k :| 0 <= k < |qs| && g2.lowest == qs[k] && g2.height.value == Height(qs[k], angle, t);
      assert qs[k] in multiset(ps);
      var l :| 0 <= l < |ps| && ps[l] == qs[k];
      assert Height(ps[l], angle, t) == Height(ps[i], angle, t);
    }
  }

  /**
   * The lowest point, on the other hand, depends on the order when two points
   * share the least height: the one that comes first is kept.
   */
  lemma LowestPointPrefersEarlier(angle: real, t: Trig)
    ensures var a, b := Point(1.0, 0.0, 0.0), Point(2.0, 0.0, 0.0);
            && Height(a, angle, t) == Height(b, angle, t)
            && ObserveAll(InitialFloor(), [a, b], angle, t).lowest == a
            && ObserveAll(InitialFloor(), [b, a], angle, t).lowest == b
  {
    var a, b := Point(1.0, 0.0, 0.0), Point(2.0, 0.0, 0.0);
    var h := Height(a, angle, t);
    assert h == 0.0 && Height(b, angle, t) == 0.0;
    var fa, fb := Floor(Some(h), a, 0.0, 0.0), Floor(Some(h), b, 0.0, 0.0);
    ObserveAllSnoc(InitialFloor(), [], a, angle, t);
    assert ObserveAll(InitialFloor(), [a], angle, t) == fa by {
      assert [] + [a] == [a];
    }
    ObserveAllSnoc(InitialFloor(), [a], b, angle, t);
    assert [a] + [b] == [a, b];
    assert Observe(fa, b, angle, t) == fa;
    ObserveAllSnoc(InitialFloor(), [], b, angle, t);
    assert ObserveAll(InitialFloor(), [b], angle, t) == fb by {
      assert [] + [b] == [b];
    }
    ObserveAllSnoc(InitialFloor(), [b], a, angle, t);
    assert [b] + [a] == [b, a];
    assert Observe(fb, a, angle, t) == fb;
  }

  /**
   * With a floor angle of 0 the points (0, 5, 0), (0, 2, 0), (0, 8, 0) give
   * the lowest point (0, 2, 0) at height 2, and a z range narrowed from its
   * seeds to the single value 0.
   */
  lemma ThreePointFloor(t: Trig)
    requires t.cosDeg(0.0) == 1.0 && t.sinDeg(0.0) == 0.0
    ensures var g := ObserveAll(InitialFloor(), [Point(0.0, 5.0, 0.0), Point(0.0, 2.0, 0.0), Point(0.0, 8.0, 0.0)], 0.0, t);
            g == Floor(Some(2.0), Point(0.0, 2.0, 0.0), 0.0, 0.0)
  {
    var a, b, c := Point(0.0, 5.0, 0.0), Point(0.0, 2.0, 0.0), Point(0.0, 8.0, 0.0);
    RotateZero(a, t);
    RotateZero(b, t);
    RotateZero(c, t);
    var f1 := Floor(Some(5.0), a, 0.0, 0.0);
    var f2 := Floor(Some(2.0), b, 0.0, 0.0);
    ObserveAllSnoc(InitialFloor(), [], a, 0.0, t);
    assert ObserveAll(InitialFloor(), [a], 0.0, t) == f1 by {
      assert [] + [a] == [a];
    }
    ObserveAllSnoc(InitialFloor(), [a], b, 0.0, t);
    assert ObserveAll(InitialFloor(), [a, b], 0.0, t) == f2 by {
      assert [a] + [b] == [a, b];
    }
    ObserveAllSnoc(InitialFloor(), [a, b], c, 0.0, t);
    assert [a, b] + [c] == [a, b, c];
    assert Observe(f2, c, 0.0, t) == f2;
  }
}
