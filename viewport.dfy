/**
 * The viewport-transform engine: the map's scale and pan, the gesture
 * state of mouse and touch input, the pan velocity and the inertia flag,
 * with one method per handler of the viewer. Geometry the page supplies
 * comes in as a `Layout`, pointer positions as `Point`s, clocks as
 * timestamps in milliseconds.
 */
module Viewer {
  import opened Wrappers
  import opened Bounds
  import opened Inertia

  /** Two finger lifts closer than this (in ms) zoom by TAP_FACTOR. */
  const DOUBLE_TAP_MS: int := 250

  /** `d` is `Math.hypot` of the two points, taken exactly. */
  predicate IsDistance(a: Point, b: Point, d: real) {
    d >= 0.0 && d * d == (b.x - a.x) * (b.x - a.x) + (b.y - a.y) * (b.y - a.y)
  }

  /**
   * What the model keeps of `Math.pow(dist / startDist, PINCH_EXPONENT)`:
   * a positive factor above 1 exactly when the fingers spread and below 1
   * exactly when they close.
   */
  predicate PinchFactorFits(dist: real, startDist: real, factor: real) {
    factor > 0.0 && (factor > 1.0 <==> dist > startDist) && (factor < 1.0 <==> dist < startDist)
  }

  /** Arithmetic step: a factor above 1 does not shrink a positive scale. */
  lemma ScaleUp(s: real, f: real)
    requires s > 0.0 && f > 1.0
    ensures s <= s * f
  {
  }

  /** Arithmetic step: a factor below 1 does not grow a positive scale. */
  lemma ScaleDown(s: real, f: real)
    requires s > 0.0 && f < 1.0
    ensures s * f <= s
  {
  }

  /**
   * Spreading the fingers never zooms out, closing them never zooms in:
   * `requested` is the scale `touchmove` asks for, the start scale times
   * the pinch factor.
   */
  lemma PinchMonotone(L: Layout, startScale: real, dist: real, startDist: real, factor: real, requested: real)
    requires L.Valid() && startScale > 0.0 && PinchFactorFits(dist, startDist, factor)
    requires requested == startScale * factor
    ensures dist > startDist ==> ZoomScale(L, startScale) <= ZoomScale(L, requested)
    ensures dist < startDist ==> ZoomScale(L, requested) <= ZoomScale(L, startScale)
    ensures dist == startDist ==> ZoomScale(L, requested) == ZoomScale(L, startScale)
  {
    if dist > startDist {
      ScaleUp(startScale, factor);
      ZoomScaleMonotone(L, startScale, requested);
    } else if dist < startDist {
      ScaleDown(startScale, factor);
      ZoomScaleMonotone(L, requested, startScale);
    } else {
      assert factor == 1.0;
    }
  }

  class Viewport {
    var scale: real
    var translateX: real
    var translateY: real
    /** The percentage shown by the zoom label. */
    var zoomLabel: int

    var isPanning: bool
    var isPinching: bool

    var startPanX: real
    var startPanY: real
    var startTranslateX: real
    var startTranslateY: real

    var startPinchDistance: real
    var startPinchScale: real
    var pinchCenter: Point

    var velocityX: real
    var velocityY: real
    var lastPanX: real
    var lastPanY: real
    var lastPanTime: real
    var inertiaActive: bool

    var lastTap: int

    ghost predicate Valid()
      reads this
    {
      scale > 0.0 && startPinchScale > 0.0 && (isPinching ==> startPinchDistance > 0.0)
    }

    function Current(): Transform
      reads this
    {
      Transform(scale, translateX, translateY)
    }

    constructor ()
      ensures Valid()
      ensures Current() == Transform(1.0, 0.0, 0.0) && zoomLabel == 100
      ensures !isPanning && !isPinching && !inertiaActive
      ensures startPanX == startPanY == startTranslateX == startTranslateY == 0.0
      ensures startPinchDistance == 0.0 && startPinchScale == 1.0 && pinchCenter == Point(0.0, 0.0)
      ensures velocityX == velocityY == lastPanX == lastPanY == lastPanTime == 0.0
      ensures lastTap == 0
    {
      scale, translateX, translateY, zoomLabel := 1.0, 0.0, 0.0, 100;
      isPanning, isPinching := false, false;
      startPanX, startPanY, startTranslateX, startTranslateY := 0.0, 0.0, 0.0, 0.0;
      startPinchDistance, startPinchScale, pinchCenter := 0.0, 1.0, Point(0.0, 0.0);
      velocityX, velocityY, lastPanX, lastPanY, lastPanTime := 0.0, 0.0, 0.0, 0.0, 0.0;
      inertiaActive := false;
      lastTap := 0;
    }

    /** `applyTransform`: clamp the pan and refresh the zoom label. */
    method ApplyTransform(L: Layout)
      modifies this`translateX, this`translateY, this`zoomLabel
      ensures Current() == ClampPan(L, old(Current()))
      ensures InBounds(L, Current())
      ensures zoomLabel == ZoomPercent(scale)
    {
      translateX := ClampAxis(L.width, L.naturalWidth * scale, translateX);
      translateY := ClampAxis(L.height, L.naturalHeight * scale, translateY);
      zoomLabel := ZoomPercent(scale);
    }

    /** `zoomTo(requested, center)`. */
    method ZoomTo(L: Layout, requested: real, center: Option<Point>)
      requires Valid() && L.Valid() && requested > 0.0
      modifies this`scale, this`translateX, this`translateY, this`zoomLabel
      ensures Valid()
      ensures Current() == Zoom(L, old(Current()), requested, center)
      ensures zoomLabel == ZoomPercent(scale)
    {
      var newScale := ZoomScale(L, requested);
      if center.Some? {
        var anchored := Anchored(L, Current(), newScale, center.value);
        translateX := anchored.x;
        translateY := anchored.y;
      }
      scale := newScale;
      ApplyTransform(L);
    }

    /** The zoom-in button. */
    method ZoomIn(L: Layout)
      requires Valid() && L.Valid()
      modifies this`scale, this`translateX, this`translateY, this`zoomLabel
      ensures Valid()
      ensures Current() == Zoom(L, old(Current()), old(scale) * BUTTON_FACTOR, None)
      ensures zoomLabel == ZoomPercent(scale)
    {
      ZoomTo(L, scale * BUTTON_FACTOR, None);
    }

    /** The zoom-out button. */
    method ZoomOut(L: Layout)
      requires Valid() && L.Valid()
      modifies this`scale, this`translateX, this`translateY, this`zoomLabel
      ensures Valid()
      ensures Current() == Zoom(L, old(Current()), old(scale) / BUTTON_FACTOR, None)
      ensures zoomLabel == ZoomPercent(scale)
    {
      ZoomTo(L, scale / BUTTON_FACTOR, None);
    }

    /** One wheel event at page point `p`, anchored there. */
    method Wheel(L: Layout, deltaY: real, p: Point)
      requires Valid() && L.Valid()
      modifies this`scale, this`translateX, this`translateY, this`zoomLabel
      ensures Valid()
      ensures Current() == Zoom(L, old(Current()), old(scale) * WheelFactor(deltaY), Some(p))
      ensures zoomLabel == ZoomPercent(scale)
    {
      ZoomTo(L, scale * WheelFactor(deltaY), Some(p));
    }

    /**
     * `resetView`: scale 1 and pan (0, 0), which the clamp always keeps,
     * even where 1 is below the minimum-fit scale.
     */
    method ResetView(L: Layout)
      requires Valid()
      modifies this`scale, this`translateX, this`translateY, this`zoomLabel
      ensures Valid()
      ensures Current() == Transform(1.0, 0.0, 0.0) && zoomLabel == 100
    {
      scale := 1.0;
      translateX := 0.0;
      translateY := 0.0;
      ClampOrigin(L, 1.0);
      ApplyTransform(L);
    }

    /**
     * `centerMap`: centre the image (drawn at `naturalWidth * scale`), then
     * clamp. Narrow content ends up pinned at 0, not centred.
     */
    method CenterMap(L: Layout)
      modifies this`translateX, this`translateY, this`zoomLabel
      ensures translateX == CenterAxis(L.width, L.naturalWidth * scale)
      ensures translateY == CenterAxis(L.height, L.naturalHeight * scale)
      ensures zoomLabel == ZoomPercent(scale)
    {
      translateX := (L.width - L.naturalWidth * scale) / 2.0;
      translateY := (L.height - L.naturalHeight * scale) / 2.0;
      ApplyTransform(L);
    }

    /**
     * `startInertia`'s guard: a run already flagged active is not started
     * again. `scheduled` says that a new frame chain (`RunInertia`) begins.
     */
    method StartInertia() returns (scheduled: bool)
      modifies this`inertiaActive
      ensures scheduled == !old(inertiaActive)
      ensures inertiaActive
    {
      if inertiaActive {
        scheduled := false;
        return;
      }
      inertiaActive := true;
      scheduled := true;
    }

    /**
     * One inertia frame (`step`): decay the velocity; stop when settled,
     * otherwise move by 16 times the velocity and clamp. The inertia flag is
     * only written, never read.
     */
    method Step(L: Layout) returns (more: bool)
      modifies this`velocityX, this`velocityY, this`inertiaActive
      modifies this`translateX, this`translateY, this`zoomLabel
      ensures velocityX == old(velocityX) * 0.92 && velocityY == old(velocityY) * 0.92
      ensures more == !Settled(velocityX, velocityY)
      ensures !more ==> !inertiaActive && translateX == old(translateX) &&
                        translateY == old(translateY) && zoomLabel == old(zoomLabel)
      ensures more ==> inertiaActive == old(inertiaActive) && zoomLabel == ZoomPercent(scale) &&
                       Current() == ClampPan(L, Transform(scale, old(translateX) + 16.0 * velocityX,
                                                                 old(translateY) + 16.0 * velocityY))
    {
      velocityX := velocityX * 0.92;
      velocityY := velocityY * 0.92;
      if Settled(velocityX, velocityY) {
        inertiaActive := false;
        more := false;
        return;
      }
      translateX := translateX + 16.0 * velocityX;
      translateY := translateY + 16.0 * velocityY;
      ApplyTransform(L);
      more := true;
    }

    /**
     * The frame chain of one inertia run: frames until the first settled
     * one. It always ends, after at most FrameBound frames; the transform
     * follows `Coast` for the frames that moved and stays in bounds.
     */
    method RunInertia(L: Layout) returns (frames: nat)
      modifies this`velocityX, this`velocityY, this`inertiaActive
      modifies this`translateX, this`translateY, this`zoomLabel
      ensures 1 <= frames <= FrameBound(old(velocityX), old(velocityY))
      ensures velocityX == Velocity(old(velocityX), frames) && velocityY == Velocity(old(velocityY), frames)
      ensures Settled(velocityX, velocityY) && !inertiaActive
      ensures forall j :: 1 <= j < frames ==> !Settled(Velocity(old(velocityX), j), Velocity(old(velocityY), j))
      ensures Current() == Coast(L, old(Current()), old(velocityX), old(velocityY), frames - 1)
      ensures frames > 1 ==> InBounds(L, Current()) && zoomLabel == ZoomPercent(scale)
      ensures frames == 1 ==> zoomLabel == old(zoomLabel)
    {
      ghost var vx0, vy0 := velocityX, velocityY;
      ghost var t0 := Transform(scale, translateX, translateY);
      ghost var label0 := zoomLabel;
      frames := 0;
      var more := true;
      while more
        invariant Chain(L, t0, vx0, vy0, frames, more, Transform(scale, translateX, translateY), velocityX, velocityY)
        invariant !more ==> !inertiaActive
        invariant (more && frames == 0) || (!more && frames == 1) ==> zoomLabel == label0
        invariant (more && frames >= 1) || (!more && frames >= 2) ==> zoomLabel == ZoomPercent(scale)
        decreases FrameBound(vx0, vy0) - frames
      {
        ghost var cur, ux, uy := Transform(scale, translateX, translateY), velocityX, velocityY;
        more := Step(L);
        ChainStep(L, t0, vx0, vy0, frames, cur, ux, uy, more, Transform(scale, translateX, translateY),
                  velocityX, velocityY);
        frames := frames + 1;
      }
    }

    /** `mousedown`: start a pan from `p`; the inertia flag is cleared but a running chain is not stopped. */
    method MouseDown(p: Point)
      requires Valid()
      modifies this`isPanning, this`startPanX, this`startPanY
      modifies this`startTranslateX, this`startTranslateY, this`inertiaActive
      ensures Valid()
      ensures isPanning && !inertiaActive
      ensures startPanX == p.x && startPanY == p.y
      ensures startTranslateX == translateX && startTranslateY == translateY
    {
      isPanning := true;
      startPanX := p.x;
      startPanY := p.y;
      startTranslateX := translateX;
      startTranslateY := translateY;
      inertiaActive := false;
    }

    /**
     * A pan sample at page point `p` and time `now` (shared by the mouse and
     * the one-finger move). The pan is absolute from the press point; the
     * velocity is measured on the unclamped pan, and only when time advanced.
     */
    method PanTo(L: Layout, p: Point, now: real)
      modifies this`translateX, this`translateY, this`zoomLabel
      modifies this`velocityX, this`velocityY, this`lastPanX, this`lastPanY, this`lastPanTime
      ensures lastPanX == startTranslateX + (p.x - startPanX)
      ensures lastPanY == startTranslateY + (p.y - startPanY)
      ensures lastPanTime == now
      ensures Current() == ClampPan(L, Transform(scale, lastPanX, lastPanY))
      ensures zoomLabel == ZoomPercent(scale)
      ensures now - old(lastPanTime) > 0.0 ==>
                velocityX == (lastPanX - old(lastPanX)) / (now - old(lastPanTime)) &&
                velocityY == (lastPanY - old(lastPanY)) / (now - old(lastPanTime))
      ensures now - old(lastPanTime) <= 0.0 ==>
                velocityX == old(velocityX) && velocityY == old(velocityY)
    {
      translateX := startTranslateX + (p.x - startPanX);
      translateY := startTranslateY + (p.y - startPanY);
      var dt := now - lastPanTime;
      if dt > 0.0 {
        velocityX := (translateX - lastPanX) / dt;
        velocityY := (translateY - lastPanY) / dt;
      }
      lastPanX := translateX;
      lastPanY := translateY;
      lastPanTime := now;
      ApplyTransform(L);
    }

    /** `mousemove`: pans only while a pan is on and no pinch is. */
    method MouseMove(L: Layout, p: Point, now: real)
      modifies this`translateX, this`translateY, this`zoomLabel
      modifies this`velocityX, this`velocityY, this`lastPanX, this`lastPanY, this`lastPanTime
      ensures !old(isPanning) || old(isPinching) ==>
                Current() == old(Current()) && zoomLabel == old(zoomLabel) &&
                velocityX == old(velocityX) && velocityY == old(velocityY) &&
                lastPanX == old(lastPanX) && lastPanY == old(lastPanY) && lastPanTime == old(lastPanTime)
      ensures isPanning && !isPinching ==>
                lastPanX == startTranslateX + (p.x - startPanX) &&
                lastPanY == startTranslateY + (p.y - startPanY) &&
                lastPanTime == now &&
                Current() == ClampPan(L, Transform(scale, lastPanX, lastPanY)) &&
                zoomLabel == ZoomPercent(scale)
      ensures isPanning && !isPinching && now - old(lastPanTime) > 0.0 ==>
                velocityX == (lastPanX - old(lastPanX)) / (now - old(lastPanTime)) &&
                velocityY == (lastPanY - old(lastPanY)) / (now - old(lastPanTime))
      ensures isPanning && !isPinching && now - old(lastPanTime) <= 0.0 ==>
                velocityX == old(velocityX) && velocityY == old(velocityY)
    {
      if !isPanning || isPinching {
        return;
      }
      PanTo(L, p, now);
    }

    /** `mouseup` (anywhere in the window): end the pan and start inertia. */
    method MouseUp() returns (scheduled: bool)
      modifies this`isPanning, this`inertiaActive
      ensures !isPanning && inertiaActive
      ensures scheduled == !old(inertiaActive)
    {
      isPanning := false;
      scheduled := StartInertia();
    }

    /**
     * `touchstart` with the current touch points: one touch starts a pan,
     * two start a pinch around their midpoint, any other count changes
     * nothing. `distance` is the distance of the first two touches.
     */
    method TouchStart(touches: seq<Point>, distance: real)
      requires Valid()
      requires |touches| == 2 ==> IsDistance(touches[0], touches[1], distance) && distance > 0.0
      modifies this`isPanning, this`isPinching, this`startPanX, this`startPanY
      modifies this`startTranslateX, this`startTranslateY, this`inertiaActive
      modifies this`startPinchDistance, this`startPinchScale, this`pinchCenter
      ensures Valid()
      ensures |touches| == 1 ==>
                isPanning && !isPinching && !inertiaActive &&
                startPanX == touches[0].x && startPanY == touches[0].y &&
                startTranslateX == translateX && startTranslateY == translateY &&
                startPinchDistance == old(startPinchDistance) && startPinchScale == old(startPinchScale) &&
                pinchCenter == old(pinchCenter)
      ensures |touches| == 2 ==>
                isPinching && !isPanning && inertiaActive == old(inertiaActive) &&
                startPinchDistance == distance && startPinchScale == scale &&
                pinchCenter == Point((touches[0].x + touches[1].x) / 2.0, (touches[0].y + touches[1].y) / 2.0) &&
                startPanX == old(startPanX) && startPanY == old(startPanY) &&
                startTranslateX == old(startTranslateX) && startTranslateY == old(startTranslateY)
      ensures |touches| != 1 && |touches| != 2 ==>
                isPanning == old(isPanning) && isPinching == old(isPinching) &&
                inertiaActive == old(inertiaActive) &&
                startPanX == old(startPanX) && startPanY == old(startPanY) &&
                startTranslateX == old(startTranslateX) && startTranslateY == old(startTranslateY) &&
                startPinchDistance == old(startPinchDistance) && startPinchScale == old(startPinchScale) &&
                pinchCenter == old(pinchCenter)
    {
      if |touches| == 1 {
        isPanning := true;
        isPinching := false;
        startPanX := touches[0].x;
        startPanY := touches[0].y;
        startTranslateX := translateX;
        startTranslateY := translateY;
        inertiaActive := false;
      } else if |touches| == 2 {
        isPinching := true;
        isPanning := false;
        startPinchDistance := distance;
        startPinchScale := scale;
        pinchCenter := Point((touches[0].x + touches[1].x) / 2.0, (touches[0].y + touches[1].y) / 2.0);
      }
    }

    /**
     * `touchmove`: with two touches during a pinch, zoom to
     * `startPinchScale * factor` anchored at the fixed pinch centre; with one
     * touch during a pan, pan. Anything else (one finger left of a pinch,
     * say) changes nothing.
     */
    method TouchMove(L: Layout, touches: seq<Point>, dist: real, factor: real, now: real)
      requires Valid() && L.Valid()
      requires isPinching && |touches| == 2 ==>
                 IsDistance(touches[0], touches[1], dist) && PinchFactorFits(dist, startPinchDistance, factor)
      modifies this`scale, this`translateX, this`translateY, this`zoomLabel
      modifies this`velocityX, this`velocityY, this`lastPanX, this`lastPanY, this`lastPanTime
      ensures Valid()
      ensures isPinching && |touches| == 2 ==>
                Current() == Zoom(L, old(Current()), old(startPinchScale) * factor, Some(pinchCenter)) &&
                zoomLabel == ZoomPercent(scale) &&
                velocityX == old(velocityX) && velocityY == old(velocityY) &&
                lastPanX == old(lastPanX) && lastPanY == old(lastPanY) && lastPanTime == old(lastPanTime)
      ensures isPanning && |touches| == 1 ==>
                lastPanX == startTranslateX + (touches[0].x - startPanX) &&
                lastPanY == startTranslateY + (touches[0].y - startPanY) &&
                lastPanTime == now &&
                Current() == ClampPan(L, Transform(scale, lastPanX, lastPanY)) &&
                zoomLabel == ZoomPercent(scale)
      ensures isPanning && |touches| == 1 && now - old(lastPanTime) > 0.0 ==>
                velocityX == (lastPanX - old(lastPanX)) / (now - old(lastPanTime)) &&
                velocityY == (lastPanY - old(lastPanY)) / (now - old(lastPanTime))
      ensures isPanning && |touches| == 1 && now - old(lastPanTime) <= 0.0 ==>
                velocityX == old(velocityX) && velocityY == old(velocityY)
      ensures !(isPinching && |touches| == 2) && !(isPanning && |touches| == 1) ==>
                Current() == old(Current()) && zoomLabel == old(zoomLabel) &&
                velocityX == old(velocityX) && velocityY == old(velocityY) &&
                lastPanX == old(lastPanX) && lastPanY == old(lastPanY) && lastPanTime == old(lastPanTime)
    {
      if isPinching && |touches| == 2 {
        ZoomTo(L, startPinchScale * factor, Some(pinchCenter));
      } else if isPanning && |touches| == 1 {
        PanTo(L, touches[0], now);
      }
    }

    /**
     * The first `touchend` handler: once no touch is left, both gestures end
     * and inertia starts, after a pinch too. With touches left, nothing changes.
     */
    method TouchEnd(remaining: nat) returns (scheduled: bool)
      requires Valid()
      modifies this`isPanning, this`isPinching, this`inertiaActive
      ensures Valid()
      ensures remaining == 0 ==> !isPanning && !isPinching && inertiaActive && scheduled == !old(inertiaActive)
      ensures remaining != 0 ==>
                !scheduled && isPanning == old(isPanning) && isPinching == old(isPinching) &&
                inertiaActive == old(inertiaActive)
    {
      scheduled := false;
      if remaining == 0 {
        isPinching := false;
        isPanning := false;
        scheduled := StartInertia();
      }
    }

    /**
     * The second `touchend` handler: a touch end within DOUBLE_TAP_MS of the
     * previous one, lifting exactly one touch, zooms by TAP_FACTOR at that
     * touch. Every touch end becomes the new previous one.
     */
    method DoubleTap(L: Layout, changed: seq<Point>, now: int)
      requires Valid() && L.Valid()
      modifies this`scale, this`translateX, this`translateY, this`zoomLabel, this`lastTap
      ensures Valid()
      ensures lastTap == now
      ensures now - old(lastTap) < DOUBLE_TAP_MS && |changed| == 1 ==>
                Current() == Zoom(L, old(Current()), old(scale) * TAP_FACTOR, Some(changed[0])) &&
                zoomLabel == ZoomPercent(scale)
      ensures !(now - old(lastTap) < DOUBLE_TAP_MS && |changed| == 1) ==>
                Current() == old(Current()) && zoomLabel == old(zoomLabel)
    {
      if now - lastTap < DOUBLE_TAP_MS && |changed| == 1 {
        ZoomTo(L, scale * TAP_FACTOR, Some(changed[0]));
      }
      lastTap := now;
    }

    /**
     * A whole `touchend` event: both handlers in the order they were
     * registered. The inertia frames, when scheduled, come after it.
     */
    method TouchEndEvent(L: Layout, remaining: nat, changed: seq<Point>, now: int) returns (scheduled: bool)
      requires Valid() && L.Valid()
      modifies this`isPanning, this`isPinching, this`inertiaActive
      modifies this`scale, this`translateX, this`translateY, this`zoomLabel, this`lastTap
      ensures Valid()
      ensures remaining == 0 ==> !isPanning && !isPinching && inertiaActive && scheduled == !old(inertiaActive)
      ensures remaining != 0 ==>
                !scheduled && isPanning == old(isPanning) && isPinching == old(isPinching) &&
                inertiaActive == old(inertiaActive)
      ensures lastTap == now
      ensures now - old(lastTap) < DOUBLE_TAP_MS && |changed| == 1 ==>
                Current() == Zoom(L, old(Current()), old(scale) * TAP_FACTOR, Some(changed[0])) &&
                zoomLabel == ZoomPercent(scale)
      ensures !(now - old(lastTap) < DOUBLE_TAP_MS && |changed| == 1) ==>
                Current() == old(Current()) && zoomLabel == old(zoomLabel)
    {
      scheduled := TouchEnd(remaining);
      DoubleTap(L, changed, now);
    }
  }
}
