/** The pan/zoom viewport as a mutable object.  The source keeps two copies of
    this state and its handlers, one per module frame and one for the lightbox
    viewer; here one class serves both, told apart by its host: the host fixes
    the largest scale and whether pointer-down and wheel events need the viewer
    to be open.  Handlers take plain coordinates; the centre of the frame comes
    in with each anchor instead of being read from the page. */
module Viewports {
  import opened Wrappers
  import opened ViewMath

  datatype Host = ModuleFrame | Viewer

  /** The zoom buttons: in, out and the reset (percentage) button. */
  datatype ZoomButton = ZoomIn | ZoomOut | ZoomReset

  function MaxScaleFor(host: Host): real {
    if host == ModuleFrame then ModuleMaxScale else ViewerMaxScale
  }

  class Viewport {
    const host: Host
    const minScale: real
    const maxScale: real
    /** Whether the viewer is showing (always false on a module frame). */
    var open: bool
    var scale: real
    var tx: real
    var ty: real
    var drag: DragSession

    /** The bounds belong to the host and the scale stays inside them. */
    predicate Valid()
      reads this
    {
      minScale == MinScale && maxScale == MaxScaleFor(host) && minScale <= scale <= maxScale
    }

    function View(): ViewState
      reads this
    {
      ViewState(scale, tx, ty)
    }

    /** Whether pointer-down and wheel events act: always on a module frame,
        only while open in the viewer. */
    predicate Accepting()
      reads this
    {
      host == ModuleFrame || open
    }

    /** The number shown on the reset button, as a percentage. */
    function Label(): (percent: int)
      reads this
      requires Valid()
      ensures percent as real <= scale * 100.0 + 0.5 < percent as real + 1.0
      ensures 20 <= percent <= if host == ModuleFrame then 600 else 800
    {
      ZoomPercent(scale)
    }

    constructor (host: Host)
      ensures Valid() && this.host == host
      ensures View() == FitPose && drag == NoDrag && !open
    {
      this.host := host;
      minScale := MinScale;
      maxScale := MaxScaleFor(host);
      open := false;
      scale, tx, ty := 1.0, 0.0, 0.0;
      drag := NoDrag;
    }

    /** `fit` / `vReset`: back to the fit pose; the pan gesture is untouched. */
    method Fit()
      requires Valid()
      modifies this
      ensures Valid() && View() == FitPose
      ensures drag == old(drag) && open == old(open)
    {
      scale := 1.0;
      tx := 0.0;
      ty := 0.0;
    }

    /** `setScale` / `vSetScale`. */
    method SetScale(next: real, anchor: Option<Anchor>)
      requires Valid()
      modifies this
      ensures Valid() && View() == Zoomed(old(View()), minScale, maxScale, next, anchor)
      ensures drag == old(drag) && open == old(open)
    {
      var prev := scale;
      var target := Clamp(next, minScale, maxScale);
      if target == prev {
        return;
      }
      if anchor.Some? {
        var o := anchor.value.Offset();
        var ratio := target / prev;
        tx := tx * ratio + o.x * (1.0 - ratio);
        ty := ty * ratio + o.y * (1.0 - ratio);
      }
      scale := target;
    }

    /** The zoom buttons: in and out by one button step about the frame
        centre, or reset to the fit pose. */
    method Press(button: ZoomButton)
      requires Valid()
      modifies this
      ensures Valid() && drag == old(drag) && open == old(open)
      ensures button == ZoomIn ==>
        View() == Zoomed(old(View()), minScale, maxScale, old(scale) * ButtonStep, None)
      ensures button == ZoomOut ==>
        View() == Zoomed(old(View()), minScale, maxScale, old(scale) / ButtonStep, None)
      ensures button == ZoomReset ==> View() == FitPose
    {
      match button
      case ZoomIn => SetScale(scale * ButtonStep, None);
      case ZoomOut => SetScale(scale / ButtonStep, None);
      case ZoomReset => Fit();
    }

    /** Pointer down: start a pan from `p`. */
    method PointerDown(p: Point)
      requires Valid()
      modifies this
      ensures Valid() && View() == old(View()) && open == old(open)
      ensures drag == if old(Accepting()) then Grab(old(View()), p) else old(drag)
    {
      if !Accepting() {
        return;
      }
      drag := drag.(active := true, x := p.x, y := p.y, startTx := tx, startTy := ty);
    }

    /** Pointer move: pan by the displacement since the grab, if a pan is on. */
    method PointerMove(p: Point)
      requires Valid()
      modifies this
      ensures Valid() && View() == Dragged(old(View()), drag, p)
      ensures drag == old(drag) && open == old(open)
    {
      if !drag.active {
        return;
      }
      var dx := p.x - drag.x;
      var dy := p.y - drag.y;
      tx := drag.startTx + dx;
      ty := drag.startTy + dy;
    }

    /** Pointer up and pointer cancel alike: the pan ends. */
    method EndDrag()
      requires Valid()
      modifies this
      ensures Valid() && View() == old(View()) && open == old(open)
      ensures drag == old(drag).(active := false)
    {
      drag := drag.(active := false);
    }

    /** A wheel notch at anchor `a`. */
    method Wheel(deltaY: real, a: Anchor)
      requires Valid()
      modifies this
      ensures Valid() && drag == old(drag) && open == old(open)
      ensures View() == if old(Accepting())
                        then Zoomed(old(View()), minScale, maxScale, old(scale) * WheelFactor(deltaY), Some(a))
                        else old(View())
    {
      if !Accepting() {
        return;
      }
      SetScale(scale * WheelFactor(deltaY), Some(a));
    }

    /** A double-click at anchor `a`. */
    method DoubleClick(a: Anchor)
      requires Valid()
      modifies this
      ensures Valid() && drag == old(drag) && open == old(open)
      ensures View() == DoubleClicked(old(View()), minScale, maxScale, a)
    {
      if Abs(scale - 1.0) < ToggleBand {
        SetScale(ToggleScale, Some(a));
      } else {
        Fit();
      }
    }

    /** `openViewer`: show the viewer with its view reset. */
    method Open()
      requires Valid() && host == Viewer
      modifies this
      ensures Valid() && open && View() == FitPose && drag == old(drag)
    {
      open := true;
      Fit();
    }

    /** `closeViewer`: hide the viewer; the view and any pan in progress stay. */
    method Close()
      requires Valid() && host == Viewer
      modifies this
      ensures Valid() && !open && View() == old(View()) && drag == old(drag)
    {
      open := false;
    }

    /** A key press in the viewer: Escape closes, "+"/"=" and "-"/"_" zoom by one
        key step about the frame centre, "0" resets; nothing acts while closed. */
    method KeyDown(key: string)
      requires Valid() && host == Viewer
      modifies this
      ensures Valid() && drag == old(drag)
      ensures !old(open) ==> open == old(open) && View() == old(View())
      ensures old(open) ==> open == (key != "Escape")
      ensures old(open) && (key == "+" || key == "=") ==>
        View() == Zoomed(old(View()), minScale, maxScale, old(scale) * KeyStep, None)
      ensures old(open) && (key == "-" || key == "_") ==>
        View() == Zoomed(old(View()), minScale, maxScale, old(scale) / KeyStep, None)
      ensures old(open) && key == "0" ==> View() == FitPose
      ensures key !in {"+", "=", "-", "_", "0"} ==> View() == old(View())
    {
      if !open {
        return;
      }
      if key == "Escape" {
        Close();
      }
      if key == "+" || key == "=" {
        SetScale(scale * KeyStep, None);
      }
      if key == "-" || key == "_" {
        SetScale(scale / KeyStep, None);
      }
      if key == "0" {
        Fit();
      }
    }
  }

  /** Worked examples for a module viewport, derived from the contracts above
      alone: requests outside the bounds are clamped. */
  method ClampExamples() {
    var vp := new Viewport(ModuleFrame);
    vp.SetScale(100.0, None);
    assert vp.scale == 6.0;
    vp.SetScale(0.0001, None);
    assert vp.scale == 0.2;
  }

  /** Zooming to 1.2 about a pointer 50 pixels right of the frame centre moves
      the image 10 pixels left. */
  method AnchorExample() {
    var vp := new Viewport(ModuleFrame);
    vp.SetScale(1.2, Some(Anchor(Point(50.0, 0.0), Point(0.0, 0.0))));
    assert vp.scale == 1.2;
    assert (50.0 - vp.tx) / 1.2 == 50.0;
    assert vp.tx == -10.0;
  }

  /** A pan follows the pointer from the grab point and stops at pointer up. */
  method DragExample() {
    var vp := new Viewport(ModuleFrame);
    vp.PointerDown(Point(10.0, 10.0));
    vp.PointerMove(Point(40.0, 25.0));
    assert vp.tx == 30.0 && vp.ty == 15.0;
    vp.EndDrag();
    vp.PointerMove(Point(90.0, 90.0));
    assert vp.tx == 30.0 && vp.ty == 15.0;
  }

  /** Two double-clicks from the fit pose zoom to 2 and back. */
  method DoubleClickExample() {
    var vp := new Viewport(ModuleFrame);
    vp.DoubleClick(Anchor(Point(5.0, 5.0), Point(0.0, 0.0)));
    assert vp.scale == 2.0;
    vp.DoubleClick(Anchor(Point(7.0, 3.0), Point(0.0, 0.0)));
    assert vp.View() == FitPose;
  }

  /** The viewer ignores wheel and pointer-down while closed and its key
      handler closes it on Escape. */
  method ViewerExamples() {
    var vp := new Viewport(Viewer);
    vp.Wheel(-1.0, Anchor(Point(0.0, 0.0), Point(0.0, 0.0)));
    assert vp.View() == FitPose;
    vp.Open();
    vp.SetScale(100.0, None);
    assert vp.scale == 8.0;
    vp.KeyDown("0");
    assert vp.View() == FitPose && vp.open;
    vp.KeyDown("Escape");
    assert !vp.open;
  }
}
