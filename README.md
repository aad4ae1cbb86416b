# Pan/zoom viewport and module filter of the image gallery

This project models, in Dafny, the interactive core of a browser image gallery
(`app.js`). Each gallery module shows an image in a frame that the user can
zoom and pan. A lightbox viewer shows one image full screen with the same
controls. A search box and a row of tag buttons decide which modules are shown.

The source has two near-identical copies of the viewport logic: one per module
frame (state `st`) and one for the viewer (state `vState`). The model has ONE
class, `Viewports.Viewport`, used for both. Its `host` (`ModuleFrame` or
`Viewer`) fixes the largest scale: 6 for a module frame, 8 for the viewer. It
also decides whether pointer-down and wheel events need the viewer to be open.
The smallest scale is 0.2 for both.

- `wrappers.dfy`: `Option`.
- `view_math.dfy` (module `ViewMath`): the arithmetic as pure functions over
  `real`. It holds the clamp, the anchor-preserving zoom law
  `tx' = tx*ratio + ax*(1-ratio)` (`Rezoom`), and `setScale` as a function of
  the view (`Zoomed`). It also holds drag panning from the grab point
  (`Grab`, `Dragged`), the double-click rule (`DoubleClicked`) and the
  percentage label. Around these sit the lemmas: the image point under the
  anchor stays fixed, no drift, the round trips and the toggle.
- `viewport.dfy` (module `Viewports`): the mutable viewport. Each handler is a
  method that updates `scale`, `tx`, `ty`, `drag` and `open`. Its `ensures`
  ties the new state to the functions of `ViewMath`. A few client methods
  (`ClampExamples`, `AnchorExample`, `DragExample`, `DoubleClickExample`,
  `ViewerExamples`) derive worked examples (clamping to the bounds, an
  anchored zoom to 1.2, a pan from (10,10) to (40,25), the double-click
  toggle, the viewer's open gating) from those contracts alone.
- `visibility.dfy` (module `Visibility`): the filter rule of `applyVisibility`
  and the loop that applies it to every module.

The frame centre comes in as part of each `Anchor`, instead of being read from
the page. A zoom with no anchor, or with no frame, gets `None`. Coordinates and
scales are `real`.

Some behaviours of the code worth knowing:
- Pointer-up and pointer-cancel only clear `drag.active`. The grab point and the
  start translation are kept, not discarded.
- Closing the viewer does not end a pan in progress.
- In the viewer, pointer-move, pointer-up, double-click and the zoom buttons
  are not gated by `open`. Only pointer-down, the wheel and the keyboard are.

## Model

| member | source | states |
|---|---|---|
| `ViewMath.Clamp` | app.js:4 | The result lies in [lo, hi]. It is the request itself when the request is inside, lo when below, and hi when above. |
| `ViewMath.Zoomed` | app.js:41-56 | `setScale`: the new scale is the request clamped into [lo, hi]. When the clamped value equals the current scale, nothing changes. Without an anchor the translation is kept. With an anchor, the image coordinate under the anchor is the same before and after, on both axes. |
| `ViewMath.AnchorLaw` | app.js:46-53 | The translation `tx*ratio + ax*(1-ratio)`, with `ratio = next/prev`, is exactly the translation that keeps the image point under the anchor fixed (both directions of the iff). |
| `ViewMath.RenderInverse` | app.js:11-13 | The image coordinate under a frame offset is the exact inverse of the render transform "translate by t, then scale by s about the image centre". |
| `ViewMath.Rezoom` | app.js:51-52 | The anchored translation update (also app.js:195-196): the anchor's offset from the translation is scaled by the ratio, and a ratio of 1 leaves the translation alone. `AnchorLaw` shows it is the unique translation keeping the point under the anchor fixed. |
| `ViewMath.RezoomCompose` | app.js:50-52 | Two anchored zooms about the same point compose into one zoom by the product of their ratios. |
| `ViewMath.ZoomedIdempotent` | app.js:42-44 | Requesting the current scale changes nothing. Repeating a request right after it is a no-op. |
| `ViewMath.ZoomRoundTrip` | app.js:66-67 | Zooming by a factor and then dividing by it, with the same anchor or none, restores scale and translation exactly, when neither step is clamped. |
| `ViewMath.WheelFactor` | app.js:97 | A negative wheel delta zooms in (factor above 1). Any other delta zooms out (factor in (0, 1)). The factor is 1.12 or its reciprocal. |
| `ViewMath.WheelRoundTrip` | app.js:95-99 | One wheel notch in and one notch out at the same pointer give back the original view, when the scale stays in bounds. |
| `ViewMath.Grab` | app.js:76-80 | Pointer-down state (also app.js:243-247): the pan becomes active, and a move to the grab point itself leaves the view unchanged. `PanFollowsPointer` characterises every later move. |
| `ViewMath.Dragged` | app.js:83-90 | A pointer move never changes the scale. It is a no-op when no pan is active. |
| `ViewMath.PanFollowsPointer` | app.js:75-90 | After a grab at p0 and a move to p, the translation is the translation at grab time plus (p - p0), whatever the scale. Moving back to p0 restores the grab-time translation. |
| `ViewMath.NoDrift` | app.js:83-90 | After any sequence of moves, the view equals the result of the last move alone. The path taken does not matter. |
| `ViewMath.DoubleClicked` | app.js:103-104 | The double-click rule (also app.js:263-264): outside the 0.05 band around scale 1 the result is the fit pose. Inside it, when 2 is within bounds, the scale becomes exactly 2 and the point under the pointer stays fixed. `DoubleClickToggles` gives the toggle. |
| `ViewMath.DoubleClickToggles` | app.js:102-105 | From scale 1 a double-click gives scale 2. From scale 2 it gives the fit pose (1, 0, 0). Two double-clicks from the fit pose return to it. |
| `ViewMath.ZoomPercent` | app.js:59 | The label number is `scale*100` rounded half up. |
| `Viewports.Viewport.Label` | app.js:175-178 | The viewer's label is the rounded percentage of the current scale. It lies in [20, 800] for the viewer and in [20, 600] for a module. |
| `Viewports.Viewport.constructor` | app.js:167-173 | A new viewport starts in the fit pose, with no active pan, closed, and with its host's bounds. |
| `Viewports.Viewport.Fit` | app.js:31-39 | `fit`/`vReset` sets (scale, tx, ty) to (1, 0, 0) whatever the prior state. It leaves the pan gesture and `open` unchanged. |
| `Viewports.Viewport.SetScale` | app.js:185-201 | `setScale`/`vSetScale`: the new view is `Zoomed` of the old one within the host's bounds (0.2 to 6 or 0.2 to 8). The scale stays in those bounds. The pan gesture and `open` are unchanged. |
| `Viewports.Viewport.Press` | app.js:62-72 | The zoom-in and zoom-out buttons request scale ×1.2 and ÷1.2 without an anchor. The reset button returns to the fit pose. |
| `Viewports.Viewport.Accepting` | app.js:234 | The `open` gating of the viewer's wheel handler, and of its pointer-down handler at app.js:242: a module frame always accepts, the viewer only while open. The contracts of `Wheel` and `PointerDown` state its effect. |
| `Viewports.Viewport.PointerDown` | app.js:241-249 | Starts a pan: records the pointer and the current translation, and leaves the view unchanged. In the viewer it does nothing while closed. |
| `Viewports.Viewport.PointerMove` | app.js:250-257 | The new view is `Dragged` of the old one: start translation plus the displacement since the grab while a pan is active, otherwise unchanged. |
| `Viewports.Viewport.EndDrag` | app.js:91-92 | Pointer-up and pointer-cancel both clear `active` and change nothing else. |
| `Viewports.Viewport.Wheel` | app.js:233-238 | Zooms by the wheel factor, anchored at the pointer. In the viewer it does nothing while closed. |
| `Viewports.Viewport.DoubleClick` | app.js:262-265 | The new view is `DoubleClicked` of the old one: zoom to exactly 2 anchored at the pointer when `|scale - 1| < 0.05`, otherwise the fit pose. |
| `Viewports.Viewport.Open` | app.js:203-212 | Opening the viewer sets `open` and resets the view to the fit pose. |
| `Viewports.Viewport.Close` | app.js:214-221 | Closing the viewer clears `open`. It leaves the view and any pan in progress as they were. |
| `Viewports.Viewport.KeyDown` | app.js:277-284 | While the viewer is open: Escape closes it, "+"/"=" zoom ×1.15 and "-"/"_" zoom ÷1.15 (both about the centre), "0" resets, and other keys leave the view alone. While it is closed, nothing changes. |
| `Visibility.ActiveTag` | app.js:132-133 | The active tag is never empty. It is the active button's tag when that tag is present and non-empty, otherwise "alla". |
| `Visibility.Contains` | app.js:139 | `text.includes(q)`: a query at the start of the text is contained, and a contained query is no longer than the text. `ContainsAt` characterises it exactly. |
| `Visibility.ContainsAt` | app.js:139 | `text.includes(q)` holds exactly when q occurs starting at some position of the text. |
| `Visibility.ContainsPrefix` | app.js:139 | A text that contains a query also contains every prefix of that query. |
| `Visibility.TagMatches` | app.js:138 | `tagOk`: the active tag is "alla" or in the module's tags. `VisibleIff` states it as an index search. |
| `Visibility.QueryMatches` | app.js:139 | `qOk`: the query is empty or contained in the text. `VisibleIff` states it through `ContainsAt`. |
| `Visibility.Visible` | app.js:138-140 | `tagOk && qOk`. `VisibleIff` characterises it, and `NarrowingHides` shows that longer queries only hide. |
| `Visibility.VisibleIff` | app.js:135-141 | A module is visible exactly when (the active tag is "alla" or one of the module's tags) and (the query is empty or occurs in the module's text). |
| `Visibility.NarrowingHides` | app.js:139 | For the same module text, extending the query can only hide modules, never reveal one. |
| `Visibility.ApplyVisibility` | app.js:130-142 | Returns one flag per module, in order, and each flag is exactly that module's visibility under the query and the active tag. |

## Left out

- Page plumbing has no behaviour of its own to state, so it is left out. This covers element lookup, event registration, `preventDefault`, `setPointerCapture`, pointer ids, `style.display`, `classList` and `aria-hidden`. Handlers take plain coordinates, and the display writes of `applyVisibility` become the returned flags.
- `getBoundingClientRect` is a call into the page. The frame centre is a parameter inside `Anchor`, and a missing frame is a `None` anchor.
- The CSS transform string and the "%" suffix of the label are presentation formatting. The model keeps only the label's number (`ZoomPercent`) and the render transform's meaning (`ScreenCoord`).
- Fullscreen (`toggleFs`, the "f" key, `exitFullscreen` on close) and the page's `overflow` style are left out. They are asynchronous platform side effects. The "f" key therefore leaves the model's state unchanged.
- The viewer's image source, alt text and title (`openViewer`, `closeViewer`) are page content with no effect on the view state.
- The "reset all" button (app.js:120-122) only calls `fit` on every module viewport. It is not modelled as its own member.
- The tag-bar click handler (app.js:146-152) only moves the active class and re-runs the filter. The active button's tag is a parameter of `ApplyVisibility`.
- `trim`, `toLowerCase`, `innerText` and the whitespace split of the tag attribute are given inputs: an already-trimmed, lower-cased query, a lower-cased text and a split tag list. The source re-reads `innerText` on every call, and that text depends on whether the module is currently shown (a hidden element yields its raw text content) and on the module's own zoom label. The model takes one fixed text per call, so `NarrowingHides` holds only for an unchanged module text.
- Arithmetic is over `real`, not IEEE doubles. The anchor law's invariance, the round trips and the exact `next === prev` test hold exactly here, but only approximately in the browser. NaN and infinite requests are not represented.
