/** The path-deviation view (PathAnalysis.tsx:20-58): the speed colour ramp
    and the scan for the sample farthest from the ideal line A-B, with its
    projection onto that line. */
module PathAnalysis {
  import opened Geometry
  import opened Capture
  import Placement

  datatype Rgb = Rgb(red: int, green: int, blue: int)

  /** `maxV || 1`: a peak of 0 is falsy and is replaced by 1. */
  function PeakScale(maxV: real): (s: real)
    ensures maxV == 0.0 ==> s == 1.0
    ensures s != 0.0
    ensures maxV >= 0.0 ==> s > 0.0
  {
    if maxV == 0.0 then 1.0 else maxV
  }

  /** `getVelocityColor`: blue for slow, red at or above the peak speed.
      Red and blue stay within a byte and always sum to 254 or 255. */
  function VelocityColor(v: real, maxV: real): (c: Rgb)
    ensures c.green == 0
    ensures v >= 0.0 && maxV >= 0.0 ==>
              0 <= c.red <= 255 && 0 <= c.blue <= 255 && 254 <= c.red + c.blue <= 255
    ensures maxV >= 0.0 && v >= PeakScale(maxV) ==> c == Rgb(255, 0, 0)
    ensures v == 0.0 ==> c == Rgb(0, 0, 255)
  {
    var scale := PeakScale(maxV);
    var ratio := Min(v / scale, 1.0);
    QuotientFacts(v, scale);
    Rgb((ratio * 255.0).Floor, 0, ((1.0 - ratio) * 255.0).Floor)
  }

  lemma QuotientFacts(v: real, s: real)
    requires s != 0.0
    ensures s > 0.0 && v >= 0.0 ==> v / s >= 0.0
    ensures s > 0.0 && v >= s ==> v / s >= 1.0
    ensures v == 0.0 ==> v / s == 0.0
  {
  }

  /** The ideal line A x + B y + C = 0 through the two anchors. */
  datatype Line = Line(a: real, b: real, c: real)

  function IdealLine(anchors: Placement.Anchors): Line
  {
    var p, q := anchors.a, anchors.b;
    Line(p.y - q.y, q.x - p.x, p.x * q.y - q.x * p.y)
  }

  function LineValue(l: Line, p: Vec2): real
  {
    l.a * p.x + l.b * p.y + l.c
  }

  function LenSq(l: Line): real
  {
    l.a * l.a + l.b * l.b
  }

  /** Both anchors lie on the ideal line, so both have deviation 0. */
  lemma AnchorsOnLine(anchors: Placement.Anchors)
    ensures LineValue(IdealLine(anchors), anchors.a) == 0.0
    ensures LineValue(IdealLine(anchors), anchors.b) == 0.0
  {
  }

  function Abs(x: real): real { if x < 0.0 then -x else x }

  /** Perpendicular distance of p from the line: `|A x + B y + C| / sqrt(lenSq)`. */
  function Deviation(l: Line, p: Vec2, sqrt: real -> real): (d: real)
    requires IsSqrt(sqrt) && LenSq(l) > 0.0
    ensures d >= 0.0
  {
    Square(l.a);
    Square(l.b);
    var s := sqrt(LenSq(l));
    assert s * s == LenSq(l);
    Abs(LineValue(l, p)) / s
  }

  /** The foot of the perpendicular from p onto the line through the anchors. */
  function Projection(anchors: Placement.Anchors, p: Vec2): Vec2
    requires LenSq(IdealLine(anchors)) > 0.0
  {
    var x1, y1 := anchors.a.x, anchors.a.y;
    var x2, y2 := anchors.b.x, anchors.b.y;
    var u := ((p.x - x1) * (x2 - x1) + (p.y - y1) * (y2 - y1)) / LenSq(IdealLine(anchors));
    Vec2(x1 + u * (x2 - x1), y1 + u * (y2 - y1))
  }

  /** The projection lies on the ideal line and p minus it is perpendicular
      to B - A. */
  lemma ProjectionIsFoot(anchors: Placement.Anchors, p: Vec2)
    requires LenSq(IdealLine(anchors)) > 0.0
    ensures LineValue(IdealLine(anchors), Projection(anchors, p)) == 0.0
    ensures var c := Projection(anchors, p);
            (p.x - c.x) * (anchors.b.x - anchors.a.x) + (p.y - c.y) * (anchors.b.y - anchors.a.y) == 0.0
  {
    var a, b := anchors.a, anchors.b;
    var len := LenSq(IdealLine(anchors));
    var dot := (p.x - a.x) * (b.x - a.x) + (p.y - a.y) * (b.y - a.y);
    var u := dot / len;
    var c := Projection(anchors, p);
    assert c == Vec2(a.x + u * (b.x - a.x), a.y + u * (b.y - a.y));
    FootOnLine(IdealLine(anchors), a, b, u, c);
    LenSqIsSquaredLength(IdealLine(anchors), a, b);
    QuotientTimesDivisor(dot, len);
    FootPerpendicular(a, b, p, u, c);
  }

  lemma LenSqIsSquaredLength(l: Line, a: Vec2, b: Vec2)
    requires l.a == a.y - b.y && l.b == b.x - a.x
    ensures LenSq(l) == (b.x - a.x) * (b.x - a.x) + (b.y - a.y) * (b.y - a.y)
  {
  }

  lemma QuotientTimesDivisor(n: real, d: real)
    requires d != 0.0
    ensures (n / d) * d == n
  {
  }

  /** a + u (b - a) satisfies the equation of the line through a and b. */
  lemma FootOnLine(l: Line, a: Vec2, b: Vec2, u: real, c: Vec2)
    requires l == Line(a.y - b.y, b.x - a.x, a.x * b.y - b.x * a.y)
    requires c == Vec2(a.x + u * (b.x - a.x), a.y + u * (b.y - a.y))
    ensures LineValue(l, c) == 0.0
  {
    assert LineValue(l, c) == (a.y - b.y) * (a.x + u * (b.x - a.x)) + (b.x - a.x) * (a.y + u * (b.y - a.y))
                              + (a.x * b.y - b.x * a.y);
  }

  /** When u scales B - A to the projection of p - A onto it, the rest of
      p - A is perpendicular to B - A. */
  lemma FootPerpendicular(a: Vec2, b: Vec2, p: Vec2, u: real, c: Vec2)
    requires u * ((b.x - a.x) * (b.x - a.x) + (b.y - a.y) * (b.y - a.y))
             == (p.x - a.x) * (b.x - a.x) + (p.y - a.y) * (b.y - a.y)
    requires c == Vec2(a.x + u * (b.x - a.x), a.y + u * (b.y - a.y))
    ensures (p.x - c.x) * (b.x - a.x) + (p.y - c.y) * (b.y - a.y) == 0.0
  {
  }

  /** Sample k is the first to attain deviation m. */
  ghost predicate FirstAttains(path: seq<Sample>, l: Line, k: nat, m: real, sqrt: real -> real)
    requires IsSqrt(sqrt) && LenSq(l) > 0.0
  {
    k < |path| && Deviation(l, Position(path[k]), sqrt) == m &&
    forall j :: 0 <= j < k ==> Deviation(l, Position(path[j]), sqrt) < m
  }

  /** The deviation scan of PathAnalysis.tsx:29-58. A strict `>` keeps the
      first sample that attains the maximum. */
  method MaxDeviation(path: seq<Sample>, anchors: Placement.Anchors, sqrt: real -> real)
    returns (maxDev: real, maxDevPoint: Vec2, closestPointOnLine: Vec2)
    requires IsSqrt(sqrt)
    ensures maxDev >= 0.0
    ensures |path| == 0 || LenSq(IdealLine(anchors)) == 0.0 ==> maxDev == 0.0
    ensures maxDev == 0.0 ==> maxDevPoint == Vec2(0.0, 0.0) && closestPointOnLine == Vec2(0.0, 0.0)
    ensures LenSq(IdealLine(anchors)) > 0.0 ==>
              forall i :: 0 <= i < |path| ==> Deviation(IdealLine(anchors), Position(path[i]), sqrt) <= maxDev
    ensures maxDev > 0.0 ==>
              (LenSq(IdealLine(anchors)) > 0.0 &&
               exists k: nat :: FirstAttains(path, IdealLine(anchors), k, maxDev, sqrt) &&
                                maxDevPoint == Position(path[k]) &&
                                closestPointOnLine == Projection(anchors, Position(path[k])))
  {
    maxDev := 0.0;
    maxDevPoint := Vec2(0.0, 0.0);
    closestPointOnLine := Vec2(0.0, 0.0);
    var l := IdealLine(anchors);
    var lenSq := LenSq(l);
    Square(l.a);
    Square(l.b);
    if |path| > 0 && lenSq > 0.0 {
      ghost var best: nat := 0;
      var i := 0;
      while i < |path|
        invariant 0 <= i <= |path|
        invariant maxDev >= 0.0
        invariant forall j :: 0 <= j < i ==> Deviation(l, Position(path[j]), sqrt) <= maxDev
        invariant maxDev == 0.0 ==> maxDevPoint == Vec2(0.0, 0.0) && closestPointOnLine == Vec2(0.0, 0.0)
        invariant maxDev > 0.0 ==>
                    (best < i && FirstAttains(path, l, best, maxDev, sqrt) &&
                     maxDevPoint == Position(path[best]) &&
                     closestPointOnLine == Projection(anchors, Position(path[best])))
      {
        var p := path[i];
        var dist := Deviation(l, Position(p), sqrt);
        if dist > maxDev {
          maxDev := dist;
          maxDevPoint := Vec2(p.x, p.y);
          closestPointOnLine := Projection(anchors, maxDevPoint);
          best := i;
        }
        i := i + 1;
      }
    }
  }
}
