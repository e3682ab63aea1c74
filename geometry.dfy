/** The geometry engine of the sun loading view: the constants of the widget,
    the values derived from the view's size, the sun's bounding box, the arc
    angles, the eye placement and the rays. Everything here is a pure function
    of its arguments; the class in SunBaby holds the fields these are read from. */
module SunGeometry {

  datatype Option<T> = None | Some(value: T)

  // The widget's constants, under the source's names.
  const RATIO_LINE_START_X: real := 5.0 / 6.0
  const RATIO_LINE_START_Y: real := 3.0 / 4.0
  const RATIO_ARC_START_X: real := 2.0 / 5.0
  const SUNSHINE_SEPARATIO_ANGLE: int := 45
  const SPACE_SUNSHINE: real := 12.0
  const SUNSHINE_LINE_LENGTH: real := 15.0
  const SUNSHINE_RISE_HEIGHT: real := 12.0
  const SUN_EYES_RADIUS: real := 6.0
  const DEFAULT_OFFSET_Y: real := 20.0
  /** Stroke width of the sun's pen; the rays and the eye spacing depend on it. */
  const SUN_STROKE_WIDTH: real := 10.0
  /** Stroke width of the horizon's pen; only the ground fill, which is not modelled, reads it. */
  const LINE_STROKE_WIDTH: real := 5.0

  /** The trigonometry the view calls, in degrees: asinDeg(x) is asin(x) * 180 / pi,
      sinDeg(a) and cosDeg(a) are sin and cos of toRadians(a). Nothing is assumed
      about them except where a lemma says so. */
  datatype Trig = Trig(asinDeg: real -> real, sinDeg: real -> real, cosDeg: real -> real)

  /** An axis-aligned rectangle, as android.graphics.RectF: y grows downwards. */
  datatype Rect = Rect(left: real, top: real, right: real, bottom: real)

  function Width(r: Rect): real { r.right - r.left }
  function Height(r: Rect): real { r.bottom - r.top }
  function CentreX(r: Rect): real { (r.left + r.right) / 2.0 }
  function CentreY(r: Rect): real { (r.top + r.bottom) / 2.0 }

  /** The values onLayout derives from the view's width and height. */
  datatype Geometry = Geometry(
    lineStartX: real, lineStartY: real, lineLength: real,
    textX: real, sunRadius: real, maxEyesTurn: real)

  /** The layout derivation: a horizon line of 5/6 of the width, centred,
      at 3/4 of the height; a sun whose radius is 3/10 of the line; eyes that
      may turn by half the sun's outer radius. */
  function Layout(width: nat, height: nat): (g: Geometry)
    ensures g.lineLength == width as real * 5.0 / 6.0
    ensures g.lineStartX + g.lineLength / 2.0 == width as real / 2.0
    ensures 2.0 * g.lineStartX == width as real - g.lineLength
    ensures g.lineStartY == height as real * 3.0 / 4.0
    ensures g.textX == width as real / 2.0
    ensures g.sunRadius == g.lineLength * 3.0 / 10.0 == width as real / 4.0
    ensures g.maxEyesTurn == (g.sunRadius + SUN_STROKE_WIDTH / 2.0) / 2.0
    ensures 0.0 <= g.sunRadius && 0.0 < g.maxEyesTurn
  {
    var lineLength := width as real * RATIO_LINE_START_X;
    var lineStartX := (width as real - lineLength) * 0.5;
    var lineStartY := height as real * RATIO_LINE_START_Y;
    var textX := width as real * 0.5;
    var sunRadius := (lineLength - lineLength * RATIO_ARC_START_X) * 0.5;
    var maxEyesTurn := (sunRadius + SUN_STROKE_WIDTH * 0.5) * 0.5;
    Geometry(lineStartX, lineStartY, lineLength, textX, sunRadius, maxEyesTurn)
  }

  /** The box the sun's arc is drawn in, for a vertical offset: a square of side
      twice the radius, centred on the middle of the horizon line, offsetY below it. */
  function CleanRect(g: Geometry, offsetY: real): (r: Rect)
    ensures Width(r) == 2.0 * g.sunRadius && Height(r) == 2.0 * g.sunRadius
    ensures CentreX(r) == g.lineStartX + g.lineLength / 2.0
    ensures CentreY(r) == g.lineStartY + offsetY
  {
    var rectLeft := g.lineStartX + g.lineLength * 0.5 - g.sunRadius;
    var rectTop := g.lineStartY - g.sunRadius + offsetY;
    var rectRight := g.lineLength - rectLeft + 2.0 * g.lineStartX;
    var rectBottom := rectTop + 2.0 * g.sunRadius;
    Rect(rectLeft, rectTop, rectRight, rectBottom)
  }

  /** A float angle in degrees, or the NaN that Java's arithmetic yields when the
      ratio given to asin is undefined or outside [-1, 1]. */
  datatype Angle = Degrees(deg: real) | NaN

  /** The angle by which the sun's vertical offset cuts its arc:
      asin(offsetY / sunRadius) in degrees. */
  function OffsetAngle(offsetY: real, sunRadius: real, asinDeg: real -> real): (r: Angle)
    ensures sunRadius == 0.0 ==> r == NaN
    ensures sunRadius > 0.0 ==> (r.Degrees? <==> -sunRadius <= offsetY <= sunRadius)
    ensures r.Degrees? ==> sunRadius != 0.0 && r.deg == asinDeg(offsetY / sunRadius)
  {
    if sunRadius == 0.0 then
      NaN  // x / 0 is an infinity or NaN, and asin of either is NaN
    else
      var ratio := offsetY / sunRadius;
      RatioBounds(offsetY, sunRadius);
      if ratio < -1.0 || ratio > 1.0 then NaN else Degrees(asinDeg(ratio))
  }

  lemma RatioBounds(y: real, r: real)
    requires r != 0.0
    ensures r > 0.0 ==> (y / r <= 1.0 <==> y <= r)
    ensures r > 0.0 ==> (-1.0 <= y / r <==> -r <= y)
  {
    assert y / r * r == y;
  }

  /** The start angle and sweep the sun's arc is drawn with (degrees, clockwise
      from east, so -90 points straight up). */
  datatype Arc = Arc(startAngle: real, sweepAngle: real)

  function ArcSpan(offsetAngle: Angle): (r: Option<Arc>)
    ensures r.Some? <==> offsetAngle.Degrees?
    ensures r.Some? ==> r.value.startAngle + r.value.sweepAngle / 2.0 == -90.0
    ensures r.Some? ==> (r.value.sweepAngle == 180.0 <==> offsetAngle.deg == 0.0)
    ensures r.Some? ==> r.value.sweepAngle + 2.0 * offsetAngle.deg == 180.0
  {
    match offsetAngle
    case NaN => None
    case Degrees(a) => Some(Arc(-180.0 + a, 180.0 - a * 2.0))
  }

  /** With the sun sitting on the horizon the arc is exactly the upper half circle. */
  lemma ArcOnHorizonIsHalfCircle(sunRadius: real, asinDeg: real -> real)
    requires sunRadius > 0.0 && asinDeg(0.0) == 0.0
    ensures ArcSpan(OffsetAngle(0.0, sunRadius, asinDeg)) == Some(Arc(-180.0, 180.0))
  {
  }

  /** Centres of the two eyes. */
  datatype Eyes = Eyes(leftX: real, leftY: real, rightX: real, rightY: real)

  /** Where drawSunEyes puts the eyes, or None where it returns without drawing:
      the eyes are shown only while the sun's centre is above the horizon. */
  function SunEyes(width: nat, g: Geometry, offsetY: real, turnOffsetX: real): (r: Option<Eyes>)
    ensures r.Some? <==> offsetY < 0.0
    ensures r.Some? ==> r.value.leftY == r.value.rightY == g.lineStartY + offsetY - SUN_EYES_RADIUS
    ensures r.Some? ==> r.value.rightX - r.value.leftX == (g.sunRadius + SUN_STROKE_WIDTH / 2.0) / 2.0
    ensures r.Some? ==> r.value.rightX == width as real / 2.0 + turnOffsetX
  {
    var lcx := width as real * 0.5 - (g.sunRadius + SUN_STROKE_WIDTH * 0.5) * 0.5 + turnOffsetX;
    var lcy := g.lineStartY + offsetY - SUN_EYES_RADIUS;
    if lcy + SUN_EYES_RADIUS >= g.lineStartY then None
    else
      var rcx := width as real * 0.5 + turnOffsetX;
      var rcy := lcy;
      Some(Eyes(lcx, lcy, rcx, rcy))
  }

  /** What a frame's rays depend on. */
  datatype Scene = Scene(width: nat, g: Geometry, offsetY: real, offsetSpin: real, trig: Trig)

  /** One ray, from its inner to its outer end. */
  datatype Ray = Ray(startX: real, startY: real, stopX: real, stopY: real)

  /** The angles the ray loop visits: 0, 45, ..., 360, both ends included. */
  function RayAngles(): (r: seq<int>)
    ensures |r| == 9 && r[0] == 0 && r[8] == 360
    ensures forall k :: 0 <= k < |r| ==> r[k] == k * SUNSHINE_SEPARATIO_ANGLE
  {
    seq(9, k => k * SUNSHINE_SEPARATIO_ANGLE)
  }

  /** The ray at angle a: on the line from the sun's centre (the middle of the
      view, offsetY below the horizon) at angle a + offsetSpin, from radius
      sunRadius + 22 out to radius sunRadius + 37. */
  function RayAt(sc: Scene, a: int): (r: Ray)
    ensures var c := sc.trig.cosDeg(a as real + sc.offsetSpin);
            var s := sc.trig.sinDeg(a as real + sc.offsetSpin);
            var cx := sc.width as real / 2.0;
            var cy := sc.g.lineStartY + sc.offsetY;
            r.startX == cx + c * (sc.g.sunRadius + 22.0) && r.startY == cy + s * (sc.g.sunRadius + 22.0) &&
            r.stopX == cx + c * (sc.g.sunRadius + 37.0) && r.stopY == cy + s * (sc.g.sunRadius + 37.0)
  {
    var c := sc.trig.cosDeg(a as real + sc.offsetSpin);
    var s := sc.trig.sinDeg(a as real + sc.offsetSpin);
    var inner := sc.g.sunRadius + SPACE_SUNSHINE + SUN_STROKE_WIDTH;
    var outer := sc.g.sunRadius + SPACE_SUNSHINE + SUNSHINE_LINE_LENGTH + SUN_STROKE_WIDTH;
    Ray(c * inner + sc.width as real * 0.5, s * inner + sc.offsetY + sc.g.lineStartY,
        c * outer + sc.width as real * 0.5, s * outer + sc.offsetY + sc.g.lineStartY)
  }

  /** The culling test: a ray is drawn only when both of its ends are on or
      above the horizon, that is when its lower end (the larger y) is. */
  function RayDrawn(r: Ray, lineStartY: real): (b: bool)
    ensures b <==> (if r.startY <= r.stopY then r.stopY else r.startY) <= lineStartY
  {
    r.startY <= lineStartY && r.stopY <= lineStartY
  }

  /** The rays drawn for the given angles, in loop order. */
  function DrawnRays(sc: Scene, angles: seq<int>): (rays: seq<Ray>)
    ensures |rays| <= |angles|
  {
    if angles == [] then []
    else
      var ray := RayAt(sc, angles[|angles| - 1]);
      DrawnRays(sc, angles[..|angles| - 1]) + (if RayDrawn(ray, sc.g.lineStartY) then [ray] else [])
  }

  /** Every drawn ray is one of the computed rays, unclipped, and passes the culling test. */
  lemma {:induction false} DrawnRaysSound(sc: Scene, angles: seq<int>)
    ensures forall r :: r in DrawnRays(sc, angles) ==>
              RayDrawn(r, sc.g.lineStartY) && exists a :: a in angles && r == RayAt(sc, a)
  {
    if angles != [] {
      var init := angles[..|angles| - 1];
      DrawnRaysSound(sc, init);
      forall r | r in DrawnRays(sc, angles)
        ensures RayDrawn(r, sc.g.lineStartY) && exists a :: a in angles && r == RayAt(sc, a)
      {
        if r in DrawnRays(sc, init) {
          var a :| a in init && r == RayAt(sc, a);
          assert a in angles;
        } else {
          assert r == RayAt(sc, angles[|angles| - 1]);
        }
      }
    }
  }

  /** Every ray that passes the culling test at a visited angle is drawn. */
  lemma {:induction false} DrawnRaysComplete(sc: Scene, angles: seq<int>, a: int)
    requires a in angles && RayDrawn(RayAt(sc, a), sc.g.lineStartY)
    ensures RayAt(sc, a) in DrawnRays(sc, angles)
  {
    var init := angles[..|angles| - 1];
    if a != angles[|angles| - 1] {
      assert angles == init + [angles[|angles| - 1]];
      assert a in init;
      DrawnRaysComplete(sc, init, a);
    }
  }

  /** A ray is never cut at the horizon: whether it is drawn is decided by its
      lower end alone (the inner end when it points up, the outer when it points down). */
  lemma RayDecidedByLowerEnd(sc: Scene, a: int)
    ensures var r := RayAt(sc, a);
            var s := sc.trig.sinDeg(a as real + sc.offsetSpin);
            RayDrawn(r, sc.g.lineStartY) <==>
              (if s <= 0.0 then r.startY <= sc.g.lineStartY else r.stopY <= sc.g.lineStartY)
  {
    var r := RayAt(sc, a);
    var s := sc.trig.sinDeg(a as real + sc.offsetSpin);
    assert r.stopY - r.startY == s * SUNSHINE_LINE_LENGTH;
  }

  // The squash and stretch of the sun's box during the two fast phases.

  /** RiseFast, first half: wider by d on each side, shorter by d at top and bottom. */
  function Squashed(o: Rect, d: real): (r: Rect)
    ensures CentreX(r) == CentreX(o) && CentreY(r) == CentreY(o)
    ensures Width(r) == Width(o) + 2.0 * d && Height(r) == Height(o) - 2.0 * d
  {
    Rect(o.left - d, o.top + d, o.right + d, o.bottom - d)
  }

  /** RiseFast, second half: narrower by d on each side, taller by d at top and bottom. */
  function Stretched(o: Rect, d: real): (r: Rect)
    ensures CentreX(r) == CentreX(o) && CentreY(r) == CentreY(o)
    ensures Width(r) == Width(o) - 2.0 * d && Height(r) == Height(o) + 2.0 * d
  {
    Rect(o.left + d, o.top - d, o.right - d, o.bottom + d)
  }

  /** Stretching undoes squashing by the same amount, and the reverse. */
  lemma StretchUndoesSquash(o: Rect, d: real)
    ensures Stretched(Squashed(o, d), d) == o
    ensures Squashed(Stretched(o, d), d) == o
  {
  }

  /** Sink, first half: moved down by v and narrower by v / 2 on each side. */
  function SinkNarrowed(o: Rect, v: real): (r: Rect)
    ensures CentreX(r) == CentreX(o) && CentreY(r) == CentreY(o) + v
    ensures Width(r) == Width(o) - v && Height(r) == Height(o)
  {
    var ratioValue := v * 0.5;
    Rect(o.left + ratioValue, o.top + v, o.right - ratioValue, o.bottom + v)
  }

  /** Sink, second half: moved down by v and wider by (v - middle) / 2 on each side. */
  function SinkWidened(o: Rect, v: real, middle: real): (r: Rect)
    ensures CentreX(r) == CentreX(o) && CentreY(r) == CentreY(o) + v
    ensures Width(r) == Width(o) + (v - middle) && Height(r) == Height(o)
  {
    var ratioValue := (v - middle) * 0.5;
    Rect(o.left - ratioValue, o.top + v, o.right + ratioValue, o.bottom + v)
  }

  /** The derivation at a 360 x 360 view. */
  lemma LayoutOfSquare360()
    ensures Layout(360, 360) == Geometry(30.0, 270.0, 300.0, 180.0, 90.0, 47.5)
  {
  }
}
