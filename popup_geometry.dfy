/**
 * Popup placement: the padded two-stage unconstraining of a popup against a
 * target rectangle (`unconstrain_with_padding`), the target rectangles for
 * window and layer-shell popups, reactive recomputation and the initial
 * configure of xdg popups on commit.
 */
module PopupGeometry {
  import opened Base

  /** A logical rectangle: location `(x, y)` and size `(w, h)`. */
  datatype Rect = Rect(x: int, y: int, w: int, h: int)

  /** `Rectangle::contains_rect`: `inner` lies entirely within `outer`. */
  predicate ContainsRect(outer: Rect, inner: Rect)
  {
    outer.x <= inner.x && outer.y <= inner.y &&
    inner.x + inner.w <= outer.x + outer.w &&
    inner.y + inner.h <= outer.y + outer.h
  }

  /** `rect` moved by `delta`. */
  function Translate(rect: Rect, delta: Point): Rect
  {
    rect.(x := rect.x + delta.x, y := rect.y + delta.y)
  }

  /** The xdg_positioner constraint adjustments. */
  datatype Adjustment = SlideX | SlideY | FlipX | FlipY | ResizeX | ResizeY

  /**
   * The state of an xdg_positioner. Anchor and gravity are kept as their
   * protocol enum values: nothing in this model inspects them.
   */
  datatype Positioner = Positioner(
    rectSize: Size,
    anchorRect: Rect,
    anchor: nat,
    gravity: nat,
    offset: Point,
    adjustments: set<Adjustment>,
    reactive: bool)

  /**
   * The xdg_positioner constraint solver (`get_unconstrained_geometry`) is
   * foreign; the model takes it as a parameter and assumes nothing about it.
   */
  type Solver = (Positioner, Rect) -> Rect

  /** The inset tried first on each side of the target. */
  const PADDING: int := 8

  /**
   * The target shrunk by `PADDING` on both sides of every axis whose size is
   * more than twice the padding. It stays inside the target, is centred in it,
   * and equals it exactly when neither axis exceeds twice the padding.
   */
  function Padded(target: Rect): (r: Rect)
    ensures ContainsRect(target, r)
    ensures r.w == target.w || r.w == target.w - 2 * PADDING
    ensures r.h == target.h || r.h == target.h - 2 * PADDING
    ensures 2 * (r.x - target.x) == target.w - r.w && 2 * (r.y - target.y) == target.h - r.h
    ensures r.w == target.w <==> target.w <= 2 * PADDING
    ensures r.h == target.h <==> target.h <= 2 * PADDING
    ensures r == target <==> target.w <= 2 * PADDING && target.h <= 2 * PADDING
    ensures target.w > 0 && target.h > 0 ==> r.w > 0 && r.h > 0
  {
    var horizontal := if PADDING * 2 < target.w then target.(x := target.x + PADDING, w := target.w - PADDING * 2) else target;
    if PADDING * 2 < horizontal.h then horizontal.(y := horizontal.y + PADDING, h := horizontal.h - PADDING * 2) else horizontal
  }

  /** The positioner with the resize adjustments removed and everything else kept. */
  function NoResize(p: Positioner): (r: Positioner)
    ensures ResizeX !in r.adjustments && ResizeY !in r.adjustments
    ensures forall a :: a in r.adjustments <==> a in p.adjustments && a != ResizeX && a != ResizeY
    ensures r.(adjustments := p.adjustments) == p
  {
    p.(adjustments := p.adjustments - {ResizeX, ResizeY})
  }

  /**
   * The geometry chosen for a popup: the solver on the whole target when the
   * padding changes nothing; otherwise the solver's answer for the padded target
   * without resizing when that answer fits the padded target, and the solver on
   * the whole target with the original positioner when it does not.
   */
  function Unconstrained(p: Positioner, target: Rect, solve: Solver): (r: Rect)
    ensures Padded(target) == target ==> r == solve(p, target)
    ensures Padded(target) != target && ContainsRect(Padded(target), solve(NoResize(p), Padded(target))) ==>
      r == solve(NoResize(p), Padded(target))
    ensures r == solve(p, target) ||
      (Padded(target) != target && r == solve(NoResize(p), Padded(target)) && ContainsRect(Padded(target), r))
    ensures ContainsRect(target, solve(p, target)) ==> ContainsRect(target, r)
  {
    var padded := Padded(target);
    if padded == target then solve(p, target)
    else
      var geo := solve(NoResize(p), padded);
      if ContainsRect(padded, geo) then geo else solve(p, target)
  }

  /** `unconstrain_with_padding`, updating the padded rectangle and the positioner step by step. */
  method UnconstrainWithPadding(positioner: Positioner, target: Rect, solve: Solver) returns (geo: Rect)
    ensures geo == Unconstrained(positioner, target, solve)
  {
    var padded := target;
    if PADDING * 2 < padded.w {
      padded := padded.(x := padded.x + PADDING);
      padded := padded.(w := padded.w - PADDING * 2);
    }
    if PADDING * 2 < padded.h {
      padded := padded.(y := padded.y + PADDING);
      padded := padded.(h := padded.h - PADDING * 2);
    }

    if padded == target {
      geo := solve(positioner, target);
      return;
    }

    var noResize := positioner;
    noResize := noResize.(adjustments := noResize.adjustments - {ResizeX});
    noResize := noResize.(adjustments := noResize.adjustments - {ResizeY});
    assert padded == Padded(target) && noResize == NoResize(positioner);

    geo := solve(noResize, padded);
    if ContainsRect(padded, geo) {
      return;
    }

    geo := solve(positioner, target);
  }

  /**
   * Target of a popup whose root is a mapped window, relative to the popup's
   * parent: moved back by the popup's offset from its toplevel, it spans the
   * window's width and the output's whole height, starting at the output's top
   * edge (`windowY` above the window).
   */
  function WindowPopupTarget(windowWidth: int, outputHeight: int, windowY: int, toplevelOffset: Point): (r: Rect)
    ensures Translate(r, toplevelOffset) == Rect(0, -windowY, windowWidth, outputHeight)
  {
    Rect(0 - toplevelOffset.x, 0 - windowY - toplevelOffset.y, windowWidth, outputHeight)
  }

  /**
   * Target of a popup whose root is a layer surface: moved back by the layer
   * surface's location and the popup's offset from it, it is the whole output.
   */
  function LayerPopupTarget(outputSize: Size, layerLoc: Point, toplevelOffset: Point): (r: Rect)
    ensures Translate(Translate(r, toplevelOffset), layerLoc) == Rect(0, 0, outputSize.w, outputSize.h)
  {
    Rect(0 - layerLoc.x - toplevelOffset.x, 0 - layerLoc.y - toplevelOffset.y, outputSize.w, outputSize.h)
  }

  /** Popup roles the popup manager tracks. */
  datatype PopupKind = Xdg | InputMethod

  /** An output transform, as the wl_output protocol enumerates them. */
  datatype Transform = Normal | Rotate90 | Rotate180 | Rotate270 | Flipped | Flipped90 | Flipped180 | Flipped270

  /** Scale and transform of the output a popup is shown on. */
  datatype OutputState = OutputState(scale: int, transform: Transform)

  /** What the compositor sends to a popup's client. */
  datatype PopupEvent =
    | SurfaceState(scale: int, transform: Transform)
    | Configure(geometry: Rect)

  /** A popup surface and its pending protocol state. */
  class Popup {
    const kind: PopupKind
    var positioner: Positioner
    /** The pending geometry. */
    var geometry: Rect
    /** The popup's offset from its toplevel (`get_popup_toplevel_coords`). */
    var toplevelOffset: Point
    var initialConfigureSent: bool
    /** Everything sent to the client so far, in order. */
    var events: seq<PopupEvent>

    constructor (kind: PopupKind, positioner: Positioner, geometry: Rect, toplevelOffset: Point)
      ensures this.kind == kind && this.positioner == positioner && this.toplevelOffset == toplevelOffset
      ensures this.geometry == geometry && !initialConfigureSent && events == []
    {
      this.kind := kind;
      this.positioner := positioner;
      this.geometry := geometry;
      this.toplevelOffset := toplevelOffset;
      this.initialConfigureSent := false;
      this.events := [];
    }

    /** `unconstrain_window_popup`: place the popup against its window's target. */
    method UnconstrainWindowPopup(windowWidth: int, outputHeight: int, windowY: int, solve: Solver)
      modifies this`geometry
      ensures geometry == Unconstrained(positioner, WindowPopupTarget(windowWidth, outputHeight, windowY, toplevelOffset), solve)
    {
      var target := Rect(0, 0, windowWidth, outputHeight);
      target := target.(y := target.y - windowY);
      target := Translate(target, Point(-toplevelOffset.x, -toplevelOffset.y));
      geometry := UnconstrainWithPadding(positioner, target, solve);
    }

    /**
     * `unconstrain_layer_shell_popup`: place the popup against the whole output;
     * nothing changes when the layer surface has no geometry in the layer map.
     */
    method UnconstrainLayerShellPopup(outputSize: Size, layerGeometry: Option<Rect>, solve: Solver)
      modifies this`geometry
      ensures layerGeometry.None? ==> geometry == old(geometry)
      ensures layerGeometry.Some? ==>
        geometry == Unconstrained(positioner,
          LayerPopupTarget(outputSize, Point(layerGeometry.value.x, layerGeometry.value.y), toplevelOffset), solve)
    {
      if layerGeometry.None? {
        return;
      }
      var layerGeo := layerGeometry.value;
      var target := Rect(0, 0, outputSize.w, outputSize.h);
      target := Translate(target, Point(-layerGeo.x, -layerGeo.y));
      target := Translate(target, Point(-toplevelOffset.x, -toplevelOffset.y));
      geometry := UnconstrainWithPadding(positioner, target, solve);
    }

    /** Send a configure carrying the pending geometry; it marks the initial configure as sent. */
    method SendConfigure()
      modifies this`events, this`initialConfigureSent
      ensures events == old(events) + [Configure(geometry)] && initialConfigureSent
    {
      events := events + [Configure(geometry)];
      initialConfigureSent := true;
    }
  }

  /** Whether `update_reactive_popups` recomputes `p`: reactive xdg popups only. */
  predicate IsReactiveXdg(p: Popup)
    reads p
  {
    p.kind == Xdg && p.positioner.reactive
  }

  /**
   * `update_reactive_popups`: every reactive xdg popup of a window that moved
   * is placed again against the window's target and sent its pending configure;
   * every other popup is left as it was.
   */
  method UpdateReactivePopups(popups: seq<Popup>, windowWidth: int, outputHeight: int, windowY: int, solve: Solver)
    requires forall i, j :: 0 <= i < j < |popups| ==> popups[i] != popups[j]
    modifies set p | p in popups
    ensures forall p :: p in popups ==>
      p.positioner == old(p.positioner) && p.toplevelOffset == old(p.toplevelOffset)
    ensures forall p :: p in popups && old(IsReactiveXdg(p)) ==>
      p.geometry == Unconstrained(p.positioner, WindowPopupTarget(windowWidth, outputHeight, windowY, p.toplevelOffset), solve) &&
      p.events == old(p.events) + [Configure(p.geometry)] && p.initialConfigureSent
    ensures forall p :: p in popups && !old(IsReactiveXdg(p)) ==>
      p.geometry == old(p.geometry) && p.events == old(p.events) &&
      p.initialConfigureSent == old(p.initialConfigureSent)
  {
    for i := 0 to |popups|
      invariant forall k :: 0 <= k < |popups| ==>
        popups[k].positioner == old(popups[k].positioner) && popups[k].toplevelOffset == old(popups[k].toplevelOffset)
      invariant forall k :: 0 <= k < i && old(IsReactiveXdg(popups[k])) ==>
        popups[k].geometry == Unconstrained(popups[k].positioner,
          WindowPopupTarget(windowWidth, outputHeight, windowY, popups[k].toplevelOffset), solve) &&
        popups[k].events == old(popups[k].events) + [Configure(popups[k].geometry)] && popups[k].initialConfigureSent
      invariant forall k :: (i <= k < |popups| || (0 <= k < i && !old(IsReactiveXdg(popups[k])))) ==>
        popups[k].geometry == old(popups[k].geometry) && popups[k].events == old(popups[k].events) &&
        popups[k].initialConfigureSent == old(popups[k].initialConfigureSent)
    {
      var popup := popups[i];
      if popup.kind == Xdg && popup.positioner.reactive {
        popup.UnconstrainWindowPopup(windowWidth, outputHeight, windowY, solve);
        popup.SendConfigure();
      }
    }
  }

  /**
   * `popups_handle_commit` for the popup found for the committed surface: an
   * xdg popup whose initial configure is still due first gets the output's
   * scale and transform (when an output is known) and then its configure;
   * input-method popups and already configured popups get nothing.
   */
  method PopupsHandleCommit(found: Option<Popup>, output: Option<OutputState>)
    modifies (if found.Some? then {found.value} else {})`events
    modifies (if found.Some? then {found.value} else {})`initialConfigureSent
    ensures found.Some? ==> found.value.geometry == old(found.value.geometry)
    ensures found.Some? && (found.value.kind == InputMethod || old(found.value.initialConfigureSent)) ==>
      found.value.events == old(found.value.events) &&
      found.value.initialConfigureSent == old(found.value.initialConfigureSent)
    ensures found.Some? && found.value.kind == Xdg && !old(found.value.initialConfigureSent) ==>
      found.value.initialConfigureSent &&
      found.value.events == old(found.value.events) +
        (if output.Some? then [SurfaceState(output.value.scale, output.value.transform)] else []) +
        [Configure(found.value.geometry)]
  {
    if found.None? {
      return;
    }
    var popup := found.value;
    match popup.kind {
      case Xdg =>
        if !popup.initialConfigureSent {
          if output.Some? {
            popup.events := popup.events + [SurfaceState(output.value.scale, output.value.transform)];
          }
          popup.SendConfigure();
        }
      case InputMethod =>
    }
  }
}
