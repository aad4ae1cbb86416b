/** The arithmetic of the pan/zoom viewport, as pure functions over `real`:
    the scale clamp, the anchor-preserving zoom law, drag panning measured from
    the grab point, the double-click toggle and the zoom-percentage label.
    Both the per-module viewport and the lightbox viewer use these; the class
    in module Viewports applies them to its fields. */
module ViewMath {
  import opened Wrappers

  /** A position in the coordinate space of pointer events (client pixels). */
  datatype Point = Point(x: real, y: real)

  /** Where a zoom is anchored: the pointer position and the centre of the
      frame the event happened in.  The zoom law works on the pointer's offset
      from that centre. */
  datatype Anchor = Anchor(pointer: Point, frameCentre: Point) {
    function Offset(): Point {
      Point(pointer.x - frameCentre.x, pointer.y - frameCentre.y)
    }
  }

  /** The view transform: zoom factor, and translation of the image centre from
      the frame centre in unscaled frame pixels. */
  datatype ViewState = ViewState(scale: real, tx: real, ty: real)

  /** The pan gesture: whether one is in progress, the pointer position where it
      began, and the translation at that moment. */
  datatype DragSession = DragSession(active: bool, x: real, y: real, startTx: real, startTy: real)

  /** The "fit" pose every viewport starts in and returns to on reset. */
  const FitPose := ViewState(1.0, 0.0, 0.0)
  const NoDrag := DragSession(false, 0.0, 0.0, 0.0, 0.0)

  const MinScale: real := 0.2
  const ModuleMaxScale: real := 6.0
  const ViewerMaxScale: real := 8.0
  /** Factor of one press of a zoom button. */
  const ButtonStep: real := 1.2
  /** Factor of one wheel notch. */
  const WheelStep: real := 1.12
  /** Factor of one press of a zoom key in the viewer. */
  const KeyStep: real := 1.15
  /** The scale a double-click near 100% zooms to. */
  const ToggleScale: real := 2.0
  /** How close to 1 the scale must be for a double-click to zoom in. */
  const ToggleBand: real := 0.05

  function Min(a: real, b: real): real { if a <= b then a else b }
  function Max(a: real, b: real): real { if a <= b then b else a }
  function Abs(x: real): real { if x < 0.0 then -x else x }

  /** `clamp(n, lo, hi)`, written as the source writes it: max(lo, min(hi, n)). */
  function Clamp(n: real, lo: real, hi: real): (r: real)
    ensures lo <= hi ==> lo <= r <= hi
    ensures lo <= n <= hi ==> r == n
    ensures lo <= hi && n < lo ==> r == lo
    ensures lo <= hi && hi < n ==> r == hi
  {
    Max(lo, Min(hi, n))
  }

  /** The image coordinate, on one axis, shown at offset `a` from the frame
      centre: relative to the image centre, in the image's natural pixels. */
  function ImageCoord(a: real, t: real, s: real): real
    requires s != 0.0
  {
    (a - t) / s
  }

  /** Where image coordinate `p` is drawn, as an offset from the frame centre:
      the render transform translates by `t` and then scales by `s` about the
      image centre, so panning is 1:1 with the pointer at every zoom level. */
  function ScreenCoord(p: real, t: real, s: real): real {
    t + s * p
  }

  /** ImageCoord is exactly the inverse of the render transform. */
  lemma RenderInverse(a: real, p: real, t: real, s: real)
    requires s != 0.0
    ensures ImageCoord(a, t, s) == p <==> ScreenCoord(p, t, s) == a
  {
    if ImageCoord(a, t, s) == p {
      assert a - t == s * p;
    }
    if ScreenCoord(p, t, s) == a {
      assert (a - t) / s == (s * p) / s;
    }
  }

  /** The anchor-preserving zoom law on one axis: new translation after zooming
      by `ratio` about frame offset `a`. */
  function Rezoom(t: real, a: real, ratio: real): (r: real)
    ensures a - r == ratio * (a - t)
    ensures ratio == 1.0 ==> r == t
  {
    t * ratio + a * (1.0 - ratio)
  }

  /** The zoom law keeps the image point under the anchor where it is, and it
      is the only translation that does so. */
  lemma AnchorLaw(a: real, t: real, s: real, s2: real, t2: real)
    requires 0.0 < s && 0.0 < s2
    ensures ImageCoord(a, t2, s2) == ImageCoord(a, t, s) <==> t2 == Rezoom(t, a, s2 / s)
  {
    var ratio := s2 / s;
    assert ratio * s == s2;
    assert a - Rezoom(t, a, ratio) == ratio * (a - t);
    calc {
      ImageCoord(a, t2, s2) == ImageCoord(a, t, s);
    <==> (a - t2) / s2 == (a - t) / s;
    <==> { assert (a - t) / s * s2 == ratio * (a - t); }
         a - t2 == ratio * (a - t);
    <==> t2 == Rezoom(t, a, ratio);
    }
  }

  /** Two zooms about the same anchor compose into one zoom by the product of
      their ratios. */
  lemma RezoomCompose(t: real, a: real, r1: real, r2: real)
    ensures Rezoom(Rezoom(t, a, r1), a, r2) == Rezoom(t, a, r1 * r2)
  {
    calc {
      Rezoom(Rezoom(t, a, r1), a, r2);
    ==  (t * r1 + a * (1.0 - r1)) * r2 + a * (1.0 - r2);
    ==  t * (r1 * r2) + a * (r2 - r1 * r2) + a * (1.0 - r2);
    ==  Rezoom(t, a, r1 * r2);
    }
  }

  /** `setScale(next, anchor)`: clamp the request into [lo, hi]; if that is the
      current scale nothing changes; otherwise adopt it and, with an anchor,
      move the translation by the zoom law. */
  function Zoomed(v: ViewState, lo: real, hi: real, next: real, anchor: Option<Anchor>): (r: ViewState)
    requires 0.0 < lo <= hi && 0.0 < v.scale
    ensures lo <= r.scale <= hi
    ensures lo <= next <= hi ==> r.scale == next
    ensures next < lo ==> r.scale == lo
    ensures hi < next ==> r.scale == hi
    ensures Clamp(next, lo, hi) == v.scale ==> r == v
    ensures anchor.None? ==> r.tx == v.tx && r.ty == v.ty
    ensures anchor.Some? ==>
      ImageCoord(anchor.value.Offset().x, r.tx, r.scale) == ImageCoord(anchor.value.Offset().x, v.tx, v.scale) &&
      ImageCoord(anchor.value.Offset().y, r.ty, r.scale) == ImageCoord(anchor.value.Offset().y, v.ty, v.scale)
  {
    var target := Clamp(next, lo, hi);
    if target == v.scale then v
    else match anchor
      case None => v.(scale := target)
      case Some(a) =>
        var o := a.Offset();
        var ratio := target / v.scale;
        AnchorLaw(o.x, v.tx, v.scale, target, Rezoom(v.tx, o.x, ratio));
        AnchorLaw(o.y, v.ty, v.scale, target, Rezoom(v.ty, o.y, ratio));
        ViewState(target, Rezoom(v.tx, o.x, ratio), Rezoom(v.ty, o.y, ratio))
  }

  /** Asking for the scale already in effect changes nothing, so a second
      identical request after a first one is a no-op. */
  lemma ZoomedIdempotent(v: ViewState, lo: real, hi: real, next: real, anchor: Option<Anchor>, anchor2: Option<Anchor>)
    requires 0.0 < lo <= hi && lo <= v.scale <= hi
    ensures Zoomed(v, lo, hi, v.scale, anchor) == v
    ensures Zoomed(Zoomed(v, lo, hi, next, anchor), lo, hi, next, anchor2) == Zoomed(v, lo, hi, next, anchor)
  {
    var w := Zoomed(v, lo, hi, next, anchor);
    assert w.scale == Clamp(next, lo, hi);
  }

  /** Zooming by a factor and back by the same factor about the same anchor
      restores the view exactly, when neither step is clamped. */
  lemma ZoomRoundTrip(v: ViewState, lo: real, hi: real, f: real, anchor: Option<Anchor>)
    requires 0.0 < lo <= hi && lo <= v.scale <= hi && 0.0 < f
    requires lo <= v.scale * f <= hi
    ensures var w := Zoomed(v, lo, hi, v.scale * f, anchor);
            Zoomed(w, lo, hi, w.scale / f, anchor) == v
  {
    var w := Zoomed(v, lo, hi, v.scale * f, anchor);
    assert w.scale == v.scale * f;
    assert w.scale / f == v.scale;
    if f != 1.0 {
      var g := 1.0 / f;
      assert f * g == 1.0;
      assert v.scale / (v.scale * f) == g by {
        assert (v.scale * f) * g == v.scale * (f * g);
      }
      assert (v.scale * f) / v.scale == f by {
        assert v.scale * f == f * v.scale;
      }
      match anchor
      case None =>
      case Some(a) =>
        var o := a.Offset();
        assert w == ViewState(v.scale * f, Rezoom(v.tx, o.x, f), Rezoom(v.ty, o.y, f));
        RezoomCompose(v.tx, o.x, f, 1.0 / f);
        RezoomCompose(v.ty, o.y, f, 1.0 / f);
        assert Zoomed(w, lo, hi, v.scale, anchor)
            == ViewState(v.scale, Rezoom(w.tx, o.x, 1.0 / f), Rezoom(w.ty, o.y, 1.0 / f));
    }
  }

  /** The wheel factor: zoom in by one step for a negative delta, out by one
      step otherwise. */
  function WheelFactor(deltaY: real): (f: real)
    ensures deltaY < 0.0 ==> 1.0 < f
    ensures 0.0 <= deltaY ==> 0.0 < f < 1.0
    ensures f == WheelStep || f * WheelStep == 1.0
  {
    if deltaY < 0.0 then WheelStep else 1.0 / WheelStep
  }

  /** One wheel notch in, then one notch out at the same pointer, restores the
      view exactly when the scale stays inside the bounds. */
  lemma WheelRoundTrip(v: ViewState, lo: real, hi: real, a: Anchor, deltaIn: real, deltaOut: real)
    requires 0.0 < lo <= hi && lo <= v.scale <= hi && lo <= v.scale * WheelStep <= hi
    requires deltaIn < 0.0 <= deltaOut
    ensures var w := Zoomed(v, lo, hi, v.scale * WheelFactor(deltaIn), Some(a));
            Zoomed(w, lo, hi, w.scale * WheelFactor(deltaOut), Some(a)) == v
  {
    var w := Zoomed(v, lo, hi, v.scale * WheelStep, Some(a));
    assert w.scale * (1.0 / WheelStep) == w.scale / WheelStep;
    ZoomRoundTrip(v, lo, hi, WheelStep, Some(a));
  }

  /** Start a pan: remember the pointer and the current translation. */
  function Grab(v: ViewState, p: Point): (d: DragSession)
    ensures d.active
    ensures Dragged(v, d, p) == v
  {
    DragSession(true, p.x, p.y, v.tx, v.ty)
  }

  /** A pointer move: while a pan is active the translation is the one at grab
      time plus the pointer's displacement since the grab; otherwise nothing. */
  function Dragged(v: ViewState, d: DragSession, p: Point): (r: ViewState)
    ensures r.scale == v.scale
    ensures !d.active ==> r == v
  {
    if !d.active then v
    else v.(tx := d.startTx + (p.x - d.x), ty := d.startTy + (p.y - d.y))
  }

  /** A sequence of pointer moves applied one after another. */
  function DraggedAlong(v: ViewState, d: DragSession, path: seq<Point>): ViewState
    decreases |path|
  {
    if path == [] then v else DraggedAlong(Dragged(v, d, path[0]), d, path[1..])
  }

  /** Panning follows the pointer 1:1 from the grab point: after grabbing at
      `p0` and moving to `p`, the image has moved by exactly `p - p0`, at
      whatever scale; moving back to `p0` restores the translation. */
  lemma PanFollowsPointer(v: ViewState, w: ViewState, p0: Point, p: Point)
    ensures Dragged(w, Grab(v, p0), p).tx - v.tx == p.x - p0.x
    ensures Dragged(w, Grab(v, p0), p).ty - v.ty == p.y - p0.y
    ensures Dragged(w, Grab(v, p0), p0) == w.(tx := v.tx, ty := v.ty)
  {
  }

  /** No drift: after any number of moves the view depends only on the last
      pointer position, not on the path the pointer took. */
  lemma {:induction false} NoDrift(v: ViewState, d: DragSession, path: seq<Point>)
    requires path != []
    ensures DraggedAlong(v, d, path) == Dragged(v, d, path[|path| - 1])
    decreases |path|
  {
    var w := Dragged(v, d, path[0]);
    if |path| == 1 {
      assert DraggedAlong(w, d, path[1..]) == w;
    } else {
      NoDrift(w, d, path[1..]);
      assert path[1..][|path[1..]| - 1] == path[|path| - 1];
    }
  }

  /** The double-click rule: within the band around 100% zoom to exactly 2,
      anchored at the pointer; anywhere else go back to the fit pose. */
  function DoubleClicked(v: ViewState, lo: real, hi: real, a: Anchor): (r: ViewState)
    requires 0.0 < lo <= hi && 0.0 < v.scale
    ensures ToggleBand <= Abs(v.scale - 1.0) ==> r == FitPose
    ensures Abs(v.scale - 1.0) < ToggleBand && lo <= ToggleScale <= hi ==>
      r.scale == ToggleScale &&
      ImageCoord(a.Offset().x, r.tx, r.scale) == ImageCoord(a.Offset().x, v.tx, v.scale) &&
      ImageCoord(a.Offset().y, r.ty, r.scale) == ImageCoord(a.Offset().y, v.ty, v.scale)
  {
    if Abs(v.scale - 1.0) < ToggleBand then Zoomed(v, lo, hi, ToggleScale, Some(a)) else FitPose
  }

  /** Double-click toggles: from the fit pose it zooms to 2 keeping the clicked
      point still, from 2 it returns to the fit pose, so two double-clicks from
      the fit pose land back on it wherever they happen. */
  lemma DoubleClickToggles(v: ViewState, lo: real, hi: real, a: Anchor, b: Anchor)
    requires 0.0 < lo <= ToggleScale <= hi && 0.0 < v.scale
    ensures v.scale == 1.0 ==> DoubleClicked(v, lo, hi, a).scale == ToggleScale
    ensures v.scale == ToggleScale ==> DoubleClicked(v, lo, hi, a) == FitPose
    ensures DoubleClicked(DoubleClicked(FitPose, lo, hi, a), lo, hi, b) == FitPose
  {
    var w := DoubleClicked(FitPose, lo, hi, a);
    assert w.scale == ToggleScale;
  }

  /** The zoom-percentage label, `Math.round(scale * 100)`. */
  function ZoomPercent(s: real): (percent: int)
    ensures percent as real <= s * 100.0 + 0.5 < percent as real + 1.0
  {
    (s * 100.0 + 0.5).Floor
  }
}
