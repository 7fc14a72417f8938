# Map viewer viewport engine in Dafny

This project models the interactive floor-plan viewer of `map.js`, a Telegram mini app. The viewer shows one floor image inside a viewport. The user can pan it with the mouse or one finger, and zoom it with the buttons, the wheel, a pinch or a double tap. A released pan coasts on with decaying momentum. The floors cycle with prev/next buttons, and clicking a room marker marks that room completed.

The modules follow the program's parts:

- `Wrappers` holds `Option`.
- `Bounds` holds the geometry, as pure functions over a `Layout` and a `Transform`. The `Layout` is the viewport rectangle and the image's natural size. The `Transform` is the map layer's `translate(x, y) scale(s)`. The geometry covers the pan clamp, the minimum-fit scale, the zoom clamp, the anchored re-translation, centring, the wheel factor and the zoom label.
- `Inertia` holds the velocity decay, the stop condition, a bound on the number of frames, `Coast` (the transform after m inertia frames) and `Chain` (the state of an inertia run after n frames).
- `Viewer` holds the class `Viewport`. Its fields are the viewer's module-level state, and it has one method per handler. All geometry is exact `real` arithmetic. Page layout, pointer positions and timestamps are parameters.
- `Floors` holds the floor list `FLOORS` (map.js:11-14), two floors with ids 3 and 4, and the index cycling. The source's floor field `label` is called `title` in the model, because `label` is a reserved word in Dafny.
- `Rooms` holds the completed-room set update and the marker drawing rule.
- `App` holds the class `MapApp`: the current floor, the completed set, and the marker views as an array the methods redraw.

## Model

| member | source | states |
|---|---|---|
| Bounds.ClampAxis | map.js:204-216 | the clamped axis is at most 0; it is at least `view - extent` when the content is at least as long as the view, and exactly 0 when it is shorter; an in-range value is kept; a positive one becomes 0 and one left of the far edge becomes `view - extent` |
| Bounds.ClampAxisIdempotent | map.js:204-216 | clamping an axis twice equals clamping it once |
| Bounds.ClampPan | map.js:204-216 | `clampPan` keeps the scale, gives an in-bounds transform, and leaves an in-bounds transform unchanged |
| Bounds.ClampPanIdempotent | map.js:204-216 | clamping the pan twice equals clamping it once |
| Bounds.ClampAxisMoves | map.js:214-215 | a clamped axis moved by d and clamped again never moves against the sign of d |
| Bounds.ClampPanMoves | map.js:204-216 | moving an in-bounds pan by (dx, dy) and clamping never moves an axis against the sign of its move |
| Bounds.ClampOrigin | map.js:204-216 | the pan (0, 0) is in bounds at every scale, so the clamp keeps it |
| Bounds.MinFit | map.js:227-230 | the minimum-fit scale makes the image fit both axes and fill the tighter one exactly |
| Bounds.ZoomScale | map.js:226-232 | the stored scale is never above MAX_SCALE; it is positive for a positive request; it is at least the minimum-fit scale whenever that is at most MAX_SCALE; an in-range request is kept; a low one gives `min(minFit, MAX_SCALE)` and a high one MAX_SCALE |
| Bounds.ZoomScaleMonotone | map.js:231-232 | a larger request never gives a smaller stored scale |
| Bounds.MinScaleNotEnforced | map.js:45 | a scale below MIN_SCALE survives the zoom clamp: the constant is not a bound |
| Bounds.AnchorAxis | map.js:234-241 | the content coordinate under the anchor `c` is the same before and after the re-translation, `(c - t')/s' == (c - t)/s`; equal scales leave the translate unchanged |
| Bounds.Anchored | map.js:234-241 | the anchor is taken relative to the viewport's left/top, the transform gets the new scale, and the content point under the anchor stays put on both axes |
| Bounds.Zoom | map.js:225-245 | `zoomTo` stores `ZoomScale` and an in-bounds pan; without a centre only the clamp changes the translate; with one the result is the clamp of the anchored transform |
| Bounds.ZoomKeepsAnchor | map.js:234-244 | when the anchored pan needs no clamping, the content point under the zoom centre after the zoom is the one before it |
| Bounds.ZoomWithoutCenterKeepsPan | map.js:233-244 | without a centre, a translate that is in bounds at the new scale survives the zoom unchanged |
| Bounds.ZoomExample | map.js:225-245 | zooming a 400x400 view of 800x800 content from scale 1 to 2 at (200, 200) gives the translate (-200, -200) |
| Bounds.ButtonZoomRoundTrip | map.js:247-253 | zoom-in then zoom-out restores any scale that neither step clamps |
| Bounds.WheelFactor | map.js:339-340 | the wheel factor is 1.2 or 0.8, and below 1 exactly when `deltaY > 0` |
| Bounds.WheelRoundTripDrifts | map.js:339-340 | one wheel notch in and one out leaves 96% of the scale when neither step clamps |
| Bounds.CenterAxis | map.js:190-198 | content at least as long as the view overhangs both edges equally; shorter content is pinned at 0 |
| Bounds.ZoomPercent | map.js:222 | the label is the percentage rounded to the nearest integer, within one half either way |
| Inertia.Abs | map.js:279 | the absolute value is non-negative and is the value or its negation |
| Inertia.Speed | map.js:279 | the larger of the two absolute velocities bounds both of them |
| Inertia.Settled | map.js:279 | `step` stops exactly when the larger absolute velocity is below 0.001 |
| Inertia.Decay | map.js:276-277 | 0.92 to the power n lies in (0, 1] |
| Inertia.VelocityIsDecayed | map.js:276-277 | after n frames the velocity is the release velocity times `0.92^n` |
| Inertia.VelocityShrinks | map.js:276-277 | after any number of frames neither velocity component is larger in magnitude than at release |
| Inertia.DecayBound | map.js:276-277 | Bernoulli's bound `0.92^n * (1 + 0.08 n) <= 1` |
| Inertia.FrameBound | map.js:276-287 | the frame bound is positive and exceeds `12500 * speed` |
| Inertia.SettledFrom | map.js:276-287 | from frame FrameBound on, both velocities are below 0.001, so `step` stops |
| Inertia.Settles | map.js:271-292 | every release velocity settles after finitely many frames |
| Inertia.Coast | map.js:276-289 | the coasting transform keeps the scale and, after at least one moving frame, is in bounds |
| Inertia.CoastStep | map.js:275-287 | one frame of `step` on the (m-1)-th velocity and transform yields the m-th velocity and `Coast` of m frames |
| Inertia.ChainStep | map.js:275-290 | one `step` on a run that goes on gives the run one frame longer: settling stops it where it is, otherwise it has moved in every frame and is still under FrameBound |
| Inertia.VelocitySign | map.js:276-277 | the decay never changes the sign of a velocity |
| Inertia.CoastKeepsDirection | map.js:284-287 | from an in-bounds start, each coasting frame moves each axis only in the direction of its release velocity |
| Viewer.PinchMonotone | map.js:389-399 | for the requested scale `startPinchScale * factor`, spreading the fingers never zooms out, closing them never zooms in, and an unchanged distance keeps the scale |
| Viewer.Viewport.constructor | map.js:41-72 | the initial scale 1, pan (0, 0), cleared flags and zero baselines; the label 100% is the page's own initial text, which the code does not set before its first transform |
| Viewer.Viewport.ApplyTransform | map.js:218-223 | the transform becomes its own clamp, which is in bounds, and the label shows the rounded percentage |
| Viewer.Viewport.ZoomTo | map.js:225-245 | the transform becomes `Zoom` of the old one for the request and optional centre |
| Viewer.Viewport.ZoomIn | map.js:247-249 | the zoom-in button is `Zoom` at `scale * 1.2` without a centre, and the label shows the new scale |
| Viewer.Viewport.ZoomOut | map.js:251-253 | the zoom-out button is `Zoom` at `scale / 1.2` without a centre, and the label shows the new scale |
| Viewer.Viewport.Wheel | map.js:335-346 | a wheel event is `Zoom` at `scale * WheelFactor(deltaY)` anchored at the pointer, and the label shows the new scale |
| Viewer.Viewport.ResetView | map.js:255-265 | the result is always scale 1, pan (0, 0) and label 100%, whatever the state before, so a second reset changes nothing |
| Viewer.Viewport.CenterMap | map.js:190-198 | each axis is `CenterAxis` of the view and the scaled natural size |
| Viewer.Viewport.StartInertia | map.js:271-273 | a new frame chain starts exactly when inertia was not already flagged active; the flag is set afterwards |
| Viewer.Viewport.Step | map.js:275-289 | both velocities are multiplied by 0.92; the frame stops, clearing the flag and moving nothing, exactly when both are below 0.001; otherwise the pan moves by `16 * v` and is clamped |
| Viewer.Viewport.RunInertia | map.js:271-292 | the frame chain ends after at most FrameBound frames, at the first settled velocity, with the flag cleared; the transform is `Coast` of the moving frames and in bounds after any move |
| Viewer.Viewport.MouseDown | map.js:298-305 | a press starts a pan at the pointer from the current translate and clears the inertia flag |
| Viewer.Viewport.PanTo | map.js:310-326 | the pan is absolute from the press point and then clamped; the velocity is measured on the unclamped pan, and only when time advanced |
| Viewer.Viewport.MouseMove | map.js:307-327 | while panning and not pinching, a move is `PanTo`: the absolute pan from the press point, clamped, with the baseline, time, velocity (only when time advanced) and label updated; otherwise nothing changes |
| Viewer.Viewport.MouseUp | map.js:329-332 | a release ends the pan and starts inertia unless it is already flagged active |
| Viewer.Viewport.TouchStart | map.js:352-382 | one touch starts a pan at that touch and clears pinching; two start a pinch at their midpoint with the current scale and distance, clearing panning; any other count changes nothing |
| Viewer.Viewport.TouchMove | map.js:384-425 | two touches during a pinch zoom to `startPinchScale * factor` at the fixed pinch centre, refresh the label and leave the pan bookkeeping alone; one touch during a pan is `PanTo` at that touch, with baseline, time, velocity and label as there; anything else changes nothing |
| Viewer.Viewport.TouchEnd | map.js:427-433 | with no touch left both gestures end and inertia starts, after a pinch too; with touches left nothing changes |
| Viewer.Viewport.DoubleTap | map.js:436-444 | a touch end lifting one touch within 250 ms of the previous one zooms by 1.4 at that touch and refreshes the label, and otherwise changes neither transform nor label; every touch end becomes the new previous one |
| Viewer.Viewport.TouchEndEvent | map.js:427-444 | both `touchend` handlers in registration order: with no touch left the gestures end and inertia starts, with touches left flags and inertia are unchanged; the double-tap zoom, label and tap time as in `DoubleTap` |
| Floors.NextIndex | map.js:181-184 | the next index is in range, is `i + 1` below the last floor, and wraps to 0 after it |
| Floors.PrevIndex | map.js:176-179 | the previous index is in range, is `i - 1` above the first floor, and wraps to the last before it |
| Floors.PrevUndoesNext | map.js:176-184 | the previous floor of the next floor is the floor itself |
| Floors.NextUndoesPrev | map.js:176-184 | the next floor of the previous floor is the floor itself |
| Floors.ForwardAdd | map.js:181-184 | a + b next-floor steps are a steps followed by b steps |
| Floors.ForwardClimbs | map.js:181-184 | below the last floor, k next-floor steps go k floors up |
| Floors.FullCycle | map.js:181-184 | going forward through all floors returns to the starting floor |
| Rooms.AddCompleted | map.js:121-124 | an empty or already completed id leaves the set alone; otherwise exactly that id is added |
| Rooms.Reports | map.js:122-123 | when `completeRoom` goes on, the id is newly added by `AddCompleted`; when it returns early, the set is unchanged |
| Rooms.ReportsExactlyOnNewRooms | map.js:121-141 | the completion is reported exactly when the set changes, and then it grows by one |
| Rooms.CompleteIdempotent | map.js:121-124 | completing a room twice equals completing it once, and the second time reports nothing |
| Rooms.ViewOf | map.js:148-155 | a marker is shown iff its floor is the current floor's id, and drawn completed iff its room id is in the set |
| Rooms.CompletionMarksOnlyThatRoom | map.js:121-156 | completing a room turns on `completed` for exactly the markers of that room, and changes no marker's visibility |
| App.MapApp.constructor | map.js:11-16 | the page starts on floor index 0 with no completed rooms and the markers as the page drew them |
| App.MapApp.UpdateRoomMarkers | map.js:144-156 | every marker is redrawn by `ViewOf` for the current floor and the completed set |
| App.MapApp.SetFloor | map.js:162-174 | the index becomes the requested floor; once its image has loaded, the view is reset to scale 1 and centred, and the markers are redrawn |
| App.MapApp.Init | map.js:471-478 | on first load, init only centres the image at the current scale on floor 0 and refreshes the label, because its own `onload` replaces the one from `setFloor(0)` |
| App.MapApp.PrevFloor | map.js:176-179 | switches to `PrevIndex` of the current floor, then as `SetFloor`: scale 1, centred, label 100%, markers redrawn, completed set unchanged |
| App.MapApp.NextFloor | map.js:181-184 | switches to `NextIndex` of the current floor, then as `SetFloor`: scale 1, centred, label 100%, markers redrawn, completed set unchanged |
| App.MapApp.CompleteRoom | map.js:121-126 | the set becomes `AddCompleted`; the markers are redrawn and the room is reported exactly when it was new and non-empty, and otherwise no marker changes |
| App.MapApp.ClickMarker | map.js:450-455 | clicking a marker completes its room; it is reported exactly when `Reports` holds for the old set and its room id, and then that marker is drawn completed; otherwise no marker changes |

Where the design and the code disagree, the model follows the code:

- MIN_SCALE and ZOOM_STEP are declared but never read. The only lower bound on the scale is the minimum-fit scale.
- Content narrower than the viewport is pinned at translate 0, not centred, because the clamp overrides the centring.
- The pan is absolute from the press point.
- Pressing clears the inertia flag, but the frame loop never reads that flag, so a running chain goes on.
- Releasing a pinch starts inertia with the velocity the last pan left behind.
- Lifting one of two fingers leaves the viewer pinching, so later one-finger moves do nothing.
- `resetView` goes to scale 1 even where that is below the minimum-fit scale.
- The wheel factors 1.2 and 0.8 are not reciprocal.
- The first image load only centres the image and does not redraw the markers.

## Left out

- The DOM, CSS, listener registration and the 0.2 s transition of the animated `resetView` (map.js:260-263). These are rendering only. `resetView(true)` and `resetView(false)` give the same state.
- Telegram SDK access (`initTelegram`), `loadProgress` and the POST in `completeRoom`. These are foreign APIs and network I/O; `CompleteRoom` only says whether a report is posted.
- `Math.hypot` and `Math.pow(factor, 0.2)` in the pinch. The distance comes in as an exact root (`IsDistance`). The pow result comes in as a factor that is above 1 exactly when the fingers spread and below 1 exactly when they close (`PinchFactorFits`).
- Viewer.Viewport.ZoomTo: stated for a loaded image only (`Layout.Valid` demands a positive natural size). Before the image has loaded, `naturalWidth` is 0, the minimum-fit scale is Infinity, so the source jumps to MAX_SCALE and pins the pan at 0; this is not modelled.
- Viewer.Viewport.TouchMove: a factor of 0 is outside `PinchFactorFits`. With both fingers on one point the source computes `Math.pow(0, 0.2) == 0` and zooms to `min(minFit, MAX_SCALE)`; a zero-width viewport would then also give scale 0, which the model's `Valid` excludes.
- Viewer.Viewport.CenterMap: the image's on-screen size is taken as its natural size times the scale (map.js:192-195 read it from the bounding rectangle). This holds for an untransformed `<img>` under a `scale()` transform only.
- Bounds.Anchored: "the content point under the anchor stays put" assumes the map layer's CSS `transform-origin` is its top-left corner, which the stylesheet (not part of this model) has to set.
- A zero pinch start distance. It would divide by zero in the source, so it is a precondition of `TouchStart`.
- Viewer.Viewport.TouchMove: stated for the factor as an input, not for `Math.pow(dist / startPinchDistance, 0.2)` itself, because real powers are not modelled.
- Floating point. All arithmetic is exact reals. `Math.round` is modelled as `Floor(x + 0.5)`, which is its definition on exact reals.
- The `requestAnimationFrame` scheduler and the clocks `performance.now` and `Date.now`. An inertia run is a loop of frames (`RunInertia`) with the layout fixed during the run, and timestamps are parameters.
- Events between two inertia frames, including a second frame chain that a press and a release could start while one is running.
- The asynchrony of image loading in `setFloor`. `SetFloor` takes the layout of the loaded image, and does the index update, reset, centring and redraw in one step.
- `Number()` of a missing or malformed `data-floor`, which may give NaN. Marker floors are integers, and a missing room id is the empty string.
