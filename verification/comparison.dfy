/**
 The image-comparison widget's own interaction state and how it responds to
 events: the reveal slider, the zoom buttons, and the mouse handlers that
 drive the magnifier. `Render` derives what the widget displays from it.
 */
module Comparison {
  import opened Basics
  import Magnifier

  /** The magnifier's zoom multipliers, selected by index. */
  const ZoomLevels: seq<int> := [2, 4, 8, 16, 32]

  /** The highest zoom index. */
  const MaxZoom: int := |ZoomLevels| - 1

  /** Per-instance state: slider position, zoom index, pointer anchor, drag flag. */
  datatype State = State(slider: int, zoomIndex: int, anchor: Magnifier.Point, dragging: bool)

  /** The state a freshly mounted widget starts in. */
  const Initial: State := State(50, 0, Magnifier.Point(0.0, 0.0), false)

  /** The slider is within its range and the zoom index selects a level. */
  predicate Valid(s: State) {
    0 <= s.slider <= 100 && 0 <= s.zoomIndex <= MaxZoom
  }

  /** 2 to the power `k`. */
  function Pow2(k: nat): (p: int)
    ensures p >= 1
    ensures k >= 1 ==> p % 2 == 0
  {
    if k == 0 then 1 else 2 * Pow2(k - 1)
  }

  /** The current magnification factor. */
  function Multiplier(s: State): (m: int)
    requires Valid(s)
    ensures m == Pow2(s.zoomIndex + 1)
    ensures 2 <= m <= 32
  {
    ZoomLevels[s.zoomIndex]
  }

  /** The zoom-out button is disabled at the lowest level. */
  predicate ZoomOutDisabled(s: State) {
    s.zoomIndex == 0
  }

  /** The zoom-in button is disabled at the highest level. */
  predicate ZoomInDisabled(s: State) {
    s.zoomIndex == MaxZoom
  }

  /** One step up the zoom list, saturating at the top. */
  function ZoomIn(s: State): (r: State)
    ensures r == s.(zoomIndex := r.zoomIndex)
    ensures Valid(s) ==> Valid(r)
    ensures Valid(s) ==> (!ZoomInDisabled(s) <==> r.zoomIndex == s.zoomIndex + 1)
    ensures Valid(s) && ZoomInDisabled(s) ==> r == s
  {
    s.(zoomIndex := if s.zoomIndex + 1 < MaxZoom then s.zoomIndex + 1 else MaxZoom)
  }

  /** One step down the zoom list, saturating at the bottom. */
  function ZoomOut(s: State): (r: State)
    ensures r == s.(zoomIndex := r.zoomIndex)
    ensures Valid(s) ==> Valid(r)
    ensures Valid(s) ==> (!ZoomOutDisabled(s) <==> r.zoomIndex == s.zoomIndex - 1)
    ensures Valid(s) && ZoomOutDisabled(s) ==> r == s
  {
    s.(zoomIndex := if s.zoomIndex - 1 > 0 then s.zoomIndex - 1 else 0)
  }

  /** An enabled zoom-in is undone by a zoom-out, and vice versa. */
  lemma ZoomRoundTrip(s: State)
    requires Valid(s)
    ensures !ZoomInDisabled(s) ==> ZoomOut(ZoomIn(s)) == s
    ensures !ZoomOutDisabled(s) ==> ZoomIn(ZoomOut(s)) == s
  {
  }

  /** An enabled zoom-in doubles the magnification; an enabled zoom-out halves it. */
  lemma ZoomScalesByTwo(s: State)
    requires Valid(s)
    ensures !ZoomInDisabled(s) ==> Multiplier(ZoomIn(s)) == 2 * Multiplier(s)
    ensures !ZoomOutDisabled(s) ==> 2 * Multiplier(ZoomOut(s)) == Multiplier(s)
  {
    if !ZoomOutDisabled(s) {
      assert Pow2(s.zoomIndex + 1) == 2 * Pow2(s.zoomIndex);
    }
  }

  /** Applies `ZoomIn` `k` times. */
  function ZoomInTimes(s: State, k: nat): State {
    if k == 0 then s else ZoomIn(ZoomInTimes(s, k - 1))
  }

  /** Pressing zoom-in `k` times climbs `k` levels but never past the top. */
  lemma {:induction false} ZoomInSaturates(s: State, k: nat)
    requires Valid(s)
    ensures ZoomInTimes(s, k).zoomIndex == if s.zoomIndex + k < MaxZoom then s.zoomIndex + k else MaxZoom
    ensures Valid(ZoomInTimes(s, k))
  {
    if k > 0 {
      ZoomInSaturates(s, k - 1);
    }
  }

  /** The events the widget handles. Pointer positions are container-local. */
  datatype Event =
    | SliderChanged(value: Percent)
    | ZoomInClicked
    | ZoomOutClicked
    | MouseDown
    | MouseUp
    | MouseLeave
    | MouseMove(local: Magnifier.Point)

  /**
   The widget's response to one event. A pointer move records the anchor
   whether or not a drag is in progress; only showing the magnifier depends
   on the drag flag.
   */
  function Step(s: State, e: Event): (r: State)
    ensures Valid(s) ==> Valid(r)
    ensures e.SliderChanged? ==> r == s.(slider := e.value)
    ensures e.MouseDown? ==> r.dragging && r == s.(dragging := true)
    ensures (e.MouseUp? || e.MouseLeave?) ==> !r.dragging && r == s.(dragging := false)
    ensures e.MouseMove? ==> r.anchor == e.local && r == s.(anchor := e.local)
    ensures (e.ZoomInClicked? || e.ZoomOutClicked?) ==> r == s.(zoomIndex := r.zoomIndex)
    ensures e.ZoomInClicked? ==> r == ZoomIn(s)
    ensures e.ZoomOutClicked? ==> r == ZoomOut(s)
  {
    match e
    case SliderChanged(v) => s.(slider := v)
    case ZoomInClicked => ZoomIn(s)
    case ZoomOutClicked => ZoomOut(s)
    case MouseDown => s.(dragging := true)
    case MouseUp => s.(dragging := false)
    case MouseLeave => s.(dragging := false)
    case MouseMove(p) => s.(anchor := p)
  }

  /** The state after a sequence of events, in order. */
  function Run(s: State, es: seq<Event>): (r: State)
    ensures Valid(s) ==> Valid(r)
    decreases |es|
  {
    if es == [] then s else Run(Step(s, es[0]), es[1..])
  }

  /** Every state the widget can reach from mounting is valid. */
  lemma ReachableValid(es: seq<Event>)
    ensures Valid(Run(Initial, es))
  {
  }

  /** Moving the pointer never changes the slider, the zoom or the drag flag, however often. */
  lemma {:induction false} MovesOnlyMoveAnchor(s: State, es: seq<Event>)
    requires forall i :: 0 <= i < |es| ==> es[i].MouseMove?
    ensures Run(s, es) == s.(anchor := Run(s, es).anchor)
    ensures es != [] ==> Run(s, es).anchor == es[|es| - 1].local
    decreases |es|
  {
    if es != [] {
      MovesOnlyMoveAnchor(Step(s, es[0]), es[1..]);
      if |es| > 1 {
        assert es[1..][|es[1..]| - 1] == es[|es| - 1];
      }
    }
  }

  /** The overlay's CSS clip rectangle, as insets in percent from each side. */
  datatype Inset = Inset(top: int, right: int, bottom: int, left: int)

  /** The clip applied to the upscaled overlay for slider position `v`: only the right side is cut. */
  function ClipOf(v: Percent): (c: Inset)
    ensures c.top == 0 && c.bottom == 0 && c.left == 0
    ensures 0 <= c.right <= 100
    ensures c.right + v == 100
  {
    Inset(0, 100 - v, 0, 0)
  }

  /** Whether horizontal position `x` (percent of the width) lies inside the clip. */
  predicate Visible(c: Inset, x: real) {
    c.left as real <= x <= 100.0 - c.right as real
  }

  /** The upscaled overlay shows exactly the part of the width left of the slider. */
  lemma RevealIsLeftOfSlider(v: Percent, x: real)
    requires 0.0 <= x <= 100.0
    ensures Visible(ClipOf(v), x) <==> x <= v as real
  {
  }

  /** What the widget displays for a state. */
  datatype View = View(clip: Inset, zoomOutDisabled: bool, zoomInDisabled: bool,
                       magnifier: Option<Magnifier.Placement>)

  /**
   The widget's display. The magnifier is placed as the widget computes it,
   `Magnifier.AsWritten`: its copy of the image is one viewport in size.
   */
  function Render(s: State): (v: View)
    requires Valid(s)
    ensures v.clip == ClipOf(s.slider)
    ensures v.clip.right + s.slider == 100 && 0 <= v.clip.right <= 100
    ensures v.zoomOutDisabled <==> s.zoomIndex == 0
    ensures v.zoomInDisabled <==> s.zoomIndex == MaxZoom
    ensures v.magnifier.Some? <==> s.dragging
    ensures v.magnifier.Some? ==>
              && v.magnifier.value.left + Magnifier.Half == s.anchor.x
              && v.magnifier.value.top + Magnifier.Half == s.anchor.y
              && v.magnifier.value.contentLeft + s.anchor.x * Multiplier(s) as real == Magnifier.Half
              && v.magnifier.value.contentTop + s.anchor.y * Multiplier(s) as real == Magnifier.Half
              && v.magnifier.value.scale == Multiplier(s)
              && v.magnifier.value.box == Magnifier.Size(Magnifier.Diameter, Magnifier.Diameter)
  {
    View(ClipOf(s.slider), ZoomOutDisabled(s), ZoomInDisabled(s),
         if s.dragging then Some(Magnifier.AsWritten(s.anchor, Multiplier(s))) else None)
  }

  /**
   What the rendered magnifier's centre shows: the content under the pointer
   (horizontally) exactly when the container is one viewport wide.
   */
  lemma RenderedMagnifierCentre(s: State, container: Magnifier.Size)
    requires Valid(s) && s.dragging && Magnifier.NonEmpty(container) && s.anchor.x != 0.0
    ensures Magnifier.ShownAt(Render(s).magnifier.value, Magnifier.Centre).x
              == Magnifier.PointedAt(s.anchor, container).x
            <==> container.width == Magnifier.Diameter
  {
    Magnifier.AsWrittenCentredIffViewportWide(s.anchor, Multiplier(s), container);
  }

  /** Every enabled zoom button changes what the magnifier would show: its scale. */
  lemma EnabledZoomChangesScale(s: State)
    requires Valid(s) && s.dragging
    ensures !Render(s).zoomInDisabled ==>
              Render(ZoomIn(s)).magnifier.value.scale != Render(s).magnifier.value.scale
    ensures !Render(s).zoomOutDisabled ==>
              Render(ZoomOut(s)).magnifier.value.scale != Render(s).magnifier.value.scale
  {
    ZoomScalesByTwo(s);
  }
}
