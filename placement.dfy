/** Anchor placement (`generatePoints`, App.tsx:95-132): start point A at a
    padded, horizontally centred position and target B at a fixed physical
    radius from A. `Math.random()`/`Math.cos`/`Math.sin` are replaced by the
    unit vectors of the ten drawn angles, and `Math.atan2` followed by
    `cos`/`sin` by the unit vector pointing from A to the viewport centre. */
module Placement {
  import opened Geometry
  import opened Options

  datatype Anchors = Anchors(a: Vec2, b: Vec2)

  /** Padding that keeps A away from the viewport edge (px). */
  const Padding: real := 80.0
  /** Margin that an accepted B keeps from the viewport edge (px). */
  const Margin: real := 30.0
  /** Physical distance from A to B (m). */
  const RadiusMeters: real := 0.02
  /** Number of random angles tried. */
  const Attempts: nat := 10

  /** A: `max(80, min(w - 80, w / 2))`, `max(80, min(h - 80, 0.6 h))`. */
  function AnchorStart(width: real, height: real): (a: Vec2)
    ensures a.x >= Padding && a.y >= Padding
    ensures width >= 2.0 * Padding ==> a.x == width / 2.0 && a.x <= width - Padding
    ensures height >= 200.0 ==> a.y == 0.6 * height && a.y <= height - Padding
    ensures 2.0 * Padding <= height < 200.0 ==> a.y == height - Padding
    ensures height < 2.0 * Padding ==> a.y == Padding
    ensures width < 2.0 * Padding ==> a.x == Padding
  {
    Vec2(Max(Padding, Min(width - Padding, width / 2.0)),
         Max(Padding, Min(height - Padding, height * 0.6)))
  }

  predicate IsUnit(d: Vec2)
  {
    d.x * d.x + d.y * d.y == 1.0
  }

  /** The point at `radius` from `a` in direction `dir`. */
  function Toward(a: Vec2, dir: Vec2, radius: real): Vec2
  {
    Vec2(a.x + dir.x * radius, a.y + dir.y * radius)
  }

  /** The acceptance test of App.tsx:116. */
  predicate InBounds(p: Vec2, width: real, height: real)
  {
    Margin < p.x < width - Margin && Margin < p.y < height - Margin
  }

  /** The first candidate direction whose point lies in bounds, if any. */
  function FirstFit(a: Vec2, dirs: seq<Vec2>, radius: real, width: real, height: real): (r: Option<nat>)
    ensures r.Some? ==> r.value < |dirs| && InBounds(Toward(a, dirs[r.value], radius), width, height)
    ensures r.Some? ==> forall j :: 0 <= j < r.value ==> !InBounds(Toward(a, dirs[j], radius), width, height)
    ensures r.None? ==> forall j :: 0 <= j < |dirs| ==> !InBounds(Toward(a, dirs[j], radius), width, height)
  {
    if dirs == [] then None
    else if InBounds(Toward(a, dirs[0], radius), width, height) then Some(0)
    else match FirstFit(a, dirs[1..], radius, width, height)
      case None => None
      case Some(k) => Some(k + 1)
  }

  /** An in-bounds candidate with none before it is the first fit. */
  lemma FirstFitAt(a: Vec2, dirs: seq<Vec2>, radius: real, width: real, height: real, i: nat)
    requires i < |dirs| && InBounds(Toward(a, dirs[i], radius), width, height)
    requires forall j :: 0 <= j < i ==> !InBounds(Toward(a, dirs[j], radius), width, height)
    ensures FirstFit(a, dirs, radius, width, height) == Some(i)
  {
  }

  /** With no candidate in bounds there is no fit. */
  lemma FirstFitNone(a: Vec2, dirs: seq<Vec2>, radius: real, width: real, height: real)
    requires forall j :: 0 <= j < |dirs| ==> !InBounds(Toward(a, dirs[j], radius), width, height)
    ensures FirstFit(a, dirs, radius, width, height) == None
  {
  }

  /** The target: the first accepted candidate, else the step toward the
      viewport centre. */
  function Target(a: Vec2, dirs: seq<Vec2>, toCenter: Vec2, radius: real, width: real, height: real): (b: Vec2)
    ensures FirstFit(a, dirs, radius, width, height).Some? ==> InBounds(b, width, height)
  {
    match FirstFit(a, dirs, radius, width, height)
    case Some(k) => Toward(a, dirs[k], radius)
    case None => Toward(a, toCenter, radius)
  }

  /** The viewport centre. */
  function Centre(width: real, height: real): Vec2
  {
    Vec2(width / 2.0, height / 2.0)
  }

  /** `(cos θ, sin θ)` for `θ = atan2(c.y - a.y, c.x - a.x)`: the unit vector
      pointing from `a` to `c`, or (1, 0) when they coincide and the angle
      is 0. */
  predicate TowardCentre(d: Vec2, a: Vec2, c: Vec2)
  {
    IsUnit(d) &&
    if a == c then d == Vec2(1.0, 0.0)
    else d.x * (c.y - a.y) == d.y * (c.x - a.x) && d.x * (c.x - a.x) + d.y * (c.y - a.y) >= 0.0
  }

  /** `b` lies on the ray that starts at `a` and passes through `c`. */
  predicate OnRay(a: Vec2, b: Vec2, c: Vec2)
  {
    (b.x - a.x) * (c.y - a.y) == (b.y - a.y) * (c.x - a.x) &&
    (b.x - a.x) * (c.x - a.x) + (b.y - a.y) * (c.y - a.y) >= 0.0
  }

  /** When no candidate fits, B steps from A toward the viewport centre,
      or to the right of A when A is the centre. */
  lemma FallbackTowardCentre(a: Vec2, dirs: seq<Vec2>, toCenter: Vec2, radius: real, width: real, height: real)
    requires FirstFit(a, dirs, radius, width, height).None?
    requires radius >= 0.0
    requires TowardCentre(toCenter, a, Centre(width, height))
    ensures OnRay(a, Target(a, dirs, toCenter, radius, width, height), Centre(width, height))
    ensures a == Centre(width, height) ==> Target(a, dirs, toCenter, radius, width, height) == Vec2(a.x + radius, a.y)
  {
    var c := Centre(width, height);
    var d := toCenter;
    var vx, vy := c.x - a.x, c.y - a.y;
    assert Target(a, dirs, toCenter, radius, width, height) == Toward(a, d, radius);
    assert (d.x * radius) * vy == radius * (d.x * vy);
    assert (d.y * radius) * vx == radius * (d.y * vx);
    assert (d.x * radius) * vx + (d.y * radius) * vy == radius * (d.x * vx + d.y * vy);
    if a != c {
      ProductNonNegative(radius, d.x * vx + d.y * vy);
    }
  }

  lemma TowardAtRadius(a: Vec2, dir: Vec2, radius: real)
    requires IsUnit(dir)
    ensures SqDist(a, Toward(a, dir, radius)) == radius * radius
  {
    var p := Toward(a, dir, radius);
    assert a.x - p.x == -(dir.x * radius);
    assert a.y - p.y == -(dir.y * radius);
    assert (dir.x * radius) * (dir.x * radius) + (dir.y * radius) * (dir.y * radius)
        == (dir.x * dir.x + dir.y * dir.y) * (radius * radius);
  }

  /** Whichever path is taken, B lies exactly `radius` from A. */
  lemma TargetAtRadius(a: Vec2, dirs: seq<Vec2>, toCenter: Vec2, radius: real, width: real, height: real)
    requires forall i :: 0 <= i < |dirs| ==> IsUnit(dirs[i])
    requires IsUnit(toCenter)
    ensures SqDist(a, Target(a, dirs, toCenter, radius, width, height)) == radius * radius
  {
    match FirstFit(a, dirs, radius, width, height)
    case Some(k) => TowardAtRadius(a, dirs[k], radius);
    case None => TowardAtRadius(a, toCenter, radius);
  }

  /** The loop of App.tsx:110-120: tries the candidate directions in order
      and stops at the first accepted one. */
  method SearchFit(a: Vec2, dirs: seq<Vec2>, radius: real, width: real, height: real)
    returns (fit: Option<nat>)
    ensures fit == FirstFit(a, dirs, radius, width, height)
  {
    fit := None;
    var i := 0;
    while i < |dirs|
      invariant 0 <= i <= |dirs|
      invariant forall j :: 0 <= j < i ==> !InBounds(Toward(a, dirs[j], radius), width, height)
    {
      if InBounds(Toward(a, dirs[i], radius), width, height) {
        fit := Some(i);
        FirstFitAt(a, dirs, radius, width, height, i);
        return;
      }
      i := i + 1;
    }
    FirstFitNone(a, dirs, radius, width, height);
  }

  /** App.tsx:108-129 for a given A: the first accepted candidate, else one
      radius toward the viewport centre. */
  method PlaceTarget(a: Vec2, dirs: seq<Vec2>, toCenter: Vec2, radius: real, width: real, height: real)
    returns (b: Vec2, found: bool)
    ensures b == Target(a, dirs, toCenter, radius, width, height)
    ensures found <==> exists i :: 0 <= i < |dirs| && InBounds(Toward(a, dirs[i], radius), width, height)
    ensures found ==> InBounds(b, width, height)
    ensures !found && radius >= 0.0 && TowardCentre(toCenter, a, Centre(width, height)) ==>
              OnRay(a, b, Centre(width, height))
  {
    var fit := SearchFit(a, dirs, radius, width, height);
    match fit {
      case Some(k) =>
        b := Toward(a, dirs[k], radius);
        found := true;
      case None =>
        b := Toward(a, toCenter, radius);
        found := false;
        if radius >= 0.0 && TowardCentre(toCenter, a, Centre(width, height)) {
          FallbackTowardCentre(a, dirs, toCenter, radius, width, height);
        }
    }
  }

  /** `generatePoints`: A from the viewport, then B placed from A. */
  method GeneratePoints(width: real, height: real, ppm: real, dirs: seq<Vec2>, toCenter: Vec2)
    returns (anchors: Anchors, found: bool)
    requires |dirs| == Attempts
    ensures anchors.a == AnchorStart(width, height)
    ensures anchors.b == Target(anchors.a, dirs, toCenter, RadiusMeters * ppm, width, height)
    ensures found <==> exists i :: 0 <= i < |dirs| && InBounds(Toward(anchors.a, dirs[i], RadiusMeters * ppm), width, height)
    ensures found ==> InBounds(anchors.b, width, height)
    ensures (forall i :: 0 <= i < |dirs| ==> IsUnit(dirs[i])) && IsUnit(toCenter) ==>
              SqDist(anchors.a, anchors.b) == (RadiusMeters * ppm) * (RadiusMeters * ppm)
    ensures !found && ppm >= 0.0 && TowardCentre(toCenter, anchors.a, Centre(width, height)) ==>
              OnRay(anchors.a, anchors.b, Centre(width, height))
  {
    var a := AnchorStart(width, height);
    var radiusPixels := RadiusMeters * ppm;
    if ppm >= 0.0 {
      ProductNonNegative(RadiusMeters, ppm);
    }
    var b;
    b, found := PlaceTarget(a, dirs, toCenter, radiusPixels, width, height);
    anchors := Anchors(a, b);
    if (forall j :: 0 <= j < |dirs| ==> IsUnit(dirs[j])) && IsUnit(toCenter) {
      TargetAtRadius(a, dirs, toCenter, radiusPixels, width, height);
    }
  }
}
