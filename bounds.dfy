/**
 * The viewport geometry of the map viewer: the pan clamp, the minimum-fit
 * scale, the zoom clamp, the anchored re-translation, the centring formula
 * and the zoom label. Everything the page layout supplies is a `Layout`.
 */
module Bounds {
  import opened Wrappers

  /** Declared by the viewer and never read: no scale is ever bounded by it. */
  const MIN_SCALE: real := 0.5
  const MAX_SCALE: real := 4.0
  /** Declared by the viewer and never read. */
  const ZOOM_STEP: real := 0.25
  /** Used only inside Math.pow for the pinch, which is not modelled. */
  const PINCH_EXPONENT: real := 0.2

  /** Zoom factors of the buttons, the wheel notches and the double tap. */
  const BUTTON_FACTOR: real := 1.2
  const WHEEL_IN: real := 1.2
  const WHEEL_OUT: real := 0.8
  const TAP_FACTOR: real := 1.4

  datatype Point = Point(x: real, y: real)

  /** The viewport's bounding rectangle and the image's natural size. */
  datatype Layout = Layout(width: real, height: real, left: real, top: real,
                           naturalWidth: real, naturalHeight: real)
  {
    predicate Valid() {
      width >= 0.0 && height >= 0.0 && naturalWidth > 0.0 && naturalHeight > 0.0
    }
  }

  /** The CSS transform of the map layer: `translate(x, y) scale(scale)`. */
  datatype Transform = Transform(scale: real, x: real, y: real)

  function Min(a: real, b: real): real { if a <= b then a else b }
  function Max(a: real, b: real): real { if a >= b then a else b }

  /**
   * One axis is clamped when it is not right of the origin and, if the
   * scaled content is at least as long as the view, its far edge is not
   * inside the view. Content shorter than the view is pinned at 0.
   */
  predicate AxisClamped(view: real, extent: real, t: real) {
    t <= 0.0 &&
    (view <= extent ==> view - extent <= t) &&
    (view > extent ==> t == 0.0)
  }

  /** `Math.min(0, Math.max(view - extent, t))`. */
  function ClampAxis(view: real, extent: real, t: real): (r: real)
    ensures AxisClamped(view, extent, r)
    ensures AxisClamped(view, extent, t) ==> r == t
    ensures t > 0.0 ==> r == 0.0
    ensures view <= extent && t < view - extent ==> r == view - extent
  {
    Min(0.0, Max(view - extent, t))
  }

  lemma ClampAxisIdempotent(view: real, extent: real, t: real)
    ensures ClampAxis(view, extent, ClampAxis(view, extent, t)) == ClampAxis(view, extent, t)
  {
  }

  predicate InBounds(L: Layout, t: Transform) {
    AxisClamped(L.width, L.naturalWidth * t.scale, t.x) &&
    AxisClamped(L.height, L.naturalHeight * t.scale, t.y)
  }

  /** `clampPan`: both axes clamped against the content scaled by `t.scale`. */
  function ClampPan(L: Layout, t: Transform): (r: Transform)
    ensures r.scale == t.scale
    ensures InBounds(L, r)
    ensures InBounds(L, t) ==> r == t
  {
    Transform(t.scale,
              ClampAxis(L.width, L.naturalWidth * t.scale, t.x),
              ClampAxis(L.height, L.naturalHeight * t.scale, t.y))
  }

  /** The one-axis case: a clamped position moved by d and clamped again does not move against d. */
  lemma ClampAxisMoves(view: real, extent: real, t: real, d: real)
    requires AxisClamped(view, extent, t)
    ensures d >= 0.0 ==> t <= ClampAxis(view, extent, t + d)
    ensures d <= 0.0 ==> ClampAxis(view, extent, t + d) <= t
  {
  }

  /**
   * Moving an in-bounds transform by (dx, dy) and clamping it again moves
   * each axis no further back than where it was, in the direction of the move.
   */
  lemma ClampPanMoves(L: Layout, p: Transform, dx: real, dy: real)
    requires InBounds(L, p)
    ensures var q := ClampPan(L, Transform(p.scale, p.x + dx, p.y + dy));
            (dx >= 0.0 ==> p.x <= q.x) && (dx <= 0.0 ==> q.x <= p.x) &&
            (dy >= 0.0 ==> p.y <= q.y) && (dy <= 0.0 ==> q.y <= p.y)
  {
    ClampAxisMoves(L.width, L.naturalWidth * p.scale, p.x, dx);
    ClampAxisMoves(L.height, L.naturalHeight * p.scale, p.y, dy);
  }

  lemma ClampPanIdempotent(L: Layout, t: Transform)
    ensures ClampPan(L, ClampPan(L, t)) == ClampPan(L, t)
  {
  }

  /** A pan of (0, 0) is always in bounds, whatever the scale. */
  lemma ClampOrigin(L: Layout, s: real)
    ensures ClampPan(L, Transform(s, 0.0, 0.0)) == Transform(s, 0.0, 0.0)
  {
  }

  /**
   * The minimum-fit scale: at it the image fits inside the viewport and
   * fills it exactly along the tighter axis.
   */
  function MinFit(L: Layout): (r: real)
    requires L.Valid()
    ensures 0.0 <= r
    ensures L.naturalWidth * r <= L.width && L.naturalHeight * r <= L.height
    ensures L.naturalWidth * r == L.width || L.naturalHeight * r == L.height
  {
    Min(L.width / L.naturalWidth, L.height / L.naturalHeight)
  }

  /**
   * The scale `zoomTo` stores for a requested one: raised to the minimum-fit
   * scale, then lowered to MAX_SCALE. MIN_SCALE plays no part.
   */
  function ZoomScale(L: Layout, requested: real): (r: real)
    requires L.Valid()
    ensures r <= MAX_SCALE
    ensures requested > 0.0 ==> r > 0.0
    ensures MinFit(L) <= MAX_SCALE ==> MinFit(L) <= r
    ensures MinFit(L) <= requested <= MAX_SCALE ==> r == requested
    ensures requested < MinFit(L) ==> r == Min(MinFit(L), MAX_SCALE)
    ensures MAX_SCALE < requested ==> r == MAX_SCALE
  {
    Min(Max(requested, MinFit(L)), MAX_SCALE)
  }

  lemma ZoomScaleMonotone(L: Layout, a: real, b: real)
    requires L.Valid() && a <= b
    ensures ZoomScale(L, a) <= ZoomScale(L, b)
  {
  }

  /** The minimum-scale constant is not enforced: a scale below it is kept. */
  lemma MinScaleNotEnforced()
    ensures var L := Layout(100.0, 100.0, 0.0, 0.0, 1000.0, 1000.0);
            ZoomScale(L, 0.2) == 0.2 < MIN_SCALE
  {
  }

  /**
   * Re-translation of one axis for a scale change anchored at `c` (screen
   * coordinate relative to the viewport): the content point under `c`
   * stays under `c`.
   */
  function AnchorAxis(c: real, t: real, oldScale: real, newScale: real): (r: real)
    requires oldScale > 0.0 && newScale > 0.0
    ensures (c - r) / newScale == (c - t) / oldScale
    ensures newScale == oldScale ==> r == t
  {
    c - (c - t) * (newScale / oldScale)
  }

  /** The pre-clamp transform of an anchored zoom to scale `s` at page point `p`. */
  function Anchored(L: Layout, cur: Transform, s: real, p: Point): (r: Transform)
    requires cur.scale > 0.0 && s > 0.0
    ensures r.scale == s
    ensures (p.x - L.left - r.x) / s == (p.x - L.left - cur.x) / cur.scale
    ensures (p.y - L.top - r.y) / s == (p.y - L.top - cur.y) / cur.scale
  {
    Transform(s, AnchorAxis(p.x - L.left, cur.x, cur.scale, s),
                 AnchorAxis(p.y - L.top, cur.y, cur.scale, s))
  }

  /** `zoomTo(requested, center)`: clamp the scale, re-anchor, clamp the pan. */
  function Zoom(L: Layout, cur: Transform, requested: real, center: Option<Point>): (r: Transform)
    requires L.Valid() && cur.scale > 0.0 && requested > 0.0
    ensures r.scale == ZoomScale(L, requested)
    ensures InBounds(L, r)
    ensures center.None? ==> r == ClampPan(L, Transform(r.scale, cur.x, cur.y))
    ensures center.Some? ==> r == ClampPan(L, Anchored(L, cur, r.scale, center.value))
  {
    var s := ZoomScale(L, requested);
    match center
    case None => ClampPan(L, Transform(s, cur.x, cur.y))
    case Some(p) => ClampPan(L, Anchored(L, cur, s, p))
  }

  /**
   * When the anchored translate needs no clamping, the content point under
   * the anchor is exactly where it was.
   */
  lemma ZoomKeepsAnchor(L: Layout, cur: Transform, requested: real, p: Point)
    requires L.Valid() && cur.scale > 0.0 && requested > 0.0
    requires InBounds(L, Anchored(L, cur, ZoomScale(L, requested), p))
    ensures var r := Zoom(L, cur, requested, Some(p));
            (p.x - L.left - r.x) / r.scale == (p.x - L.left - cur.x) / cur.scale &&
            (p.y - L.top - r.y) / r.scale == (p.y - L.top - cur.y) / cur.scale
  {
  }

  /** Without an anchor, the pan survives a zoom whenever it is in bounds at the new scale. */
  lemma ZoomWithoutCenterKeepsPan(L: Layout, cur: Transform, requested: real)
    requires L.Valid() && cur.scale > 0.0 && requested > 0.0
    requires InBounds(L, Transform(ZoomScale(L, requested), cur.x, cur.y))
    ensures var r := Zoom(L, cur, requested, None);
            r.x == cur.x && r.y == cur.y
  {
  }

  /** A 400x400 view on 800x800 content, zoomed from 1 to 2 at (200, 200). */
  lemma ZoomExample()
    ensures Zoom(Layout(400.0, 400.0, 0.0, 0.0, 800.0, 800.0), Transform(1.0, 0.0, 0.0),
                 2.0, Some(Point(200.0, 200.0))) == Transform(2.0, -200.0, -200.0)
  {
  }

  /** The zoom buttons use reciprocal factors: in then out restores the scale. */
  lemma ButtonZoomRoundTrip(L: Layout, s: real)
    requires L.Valid() && MinFit(L) <= s && s * BUTTON_FACTOR <= MAX_SCALE
    ensures ZoomScale(L, ZoomScale(L, s * BUTTON_FACTOR) / BUTTON_FACTOR) == s
  {
  }

  /** `deltaY > 0` zooms out by 0.8; any other delta, zero included, zooms in by 1.2. */
  function WheelFactor(deltaY: real): (f: real)
    ensures f == WHEEL_IN || f == WHEEL_OUT
    ensures f < 1.0 <==> deltaY > 0.0
  {
    var direction := if deltaY > 0.0 then -1 else 1;
    if direction > 0 then WHEEL_IN else WHEEL_OUT
  }

  /**
   * The wheel factors are not reciprocal: one notch in and one notch out
   * leaves 96% of the scale when neither zoom is clamped.
   */
  lemma WheelRoundTripDrifts(L: Layout, s: real)
    requires L.Valid() && MinFit(L) <= s * 0.96 && s * WHEEL_IN <= MAX_SCALE
    ensures ZoomScale(L, ZoomScale(L, s * WheelFactor(-1.0)) * WheelFactor(1.0)) == s * 0.96
  {
  }

  /**
   * `centerMap` on one axis: the centring translate, then the clamp of
   * `applyTransform`. Content at least as long as the view overhangs both
   * edges equally; shorter content is pinned at 0 instead of centred.
   */
  function CenterAxis(view: real, extent: real): (r: real)
    ensures extent >= view ==> -r == r + extent - view
    ensures extent < view ==> r == 0.0
  {
    ClampAxis(view, extent, (view - extent) / 2.0)
  }

  /** `Math.round(s * 100)`: the nearest integer, halves rounded up. */
  function ZoomPercent(s: real): (r: int)
    ensures r as real - 0.5 <= s * 100.0 < r as real + 0.5
  {
    (s * 100.0 + 0.5).Floor
  }
}
