/**
 * Popup-grab arbitration (`grab`): whether a popup may take the keyboard and
 * pointer grab, checked against the compositor's current notion of focus and
 * the seat's existing grabs, and the single active popup-grab slot.
 */
module PopupGrab {
  import opened Base

  /** Identity of a popup surface. */
  type PopupId = nat

  /** The wlr-layer-shell stacking tiers. */
  datatype Layer = Background | Bottom | Top | Overlay

  /** What `grab` asks of a layer surface: its tier and whether it can take keyboard focus now. */
  datatype LayerSurface = LayerSurface(layer: Layer, canReceiveKeyboardFocus: bool)

  /**
   * The active output as `grab` sees it: its layer map, keyed by each layer
   * surface's own surface, and whether its monitor renders above the Top layer.
   */
  datatype ActiveOutput = ActiveOutput(layers: map<SurfaceId, LayerSurface>, renderAboveTopLayer: bool)

  /** The focus collaborators `grab` consults: session lock, screenshot UI, layers, layout focus. */
  datatype FocusState = FocusState(
    locked: bool,
    lockSurfaceFocus: Option<SurfaceId>,
    screenshotUiOpen: bool,
    activeOutput: Option<ActiveOutput>,
    layoutFocus: Option<SurfaceId>)

  /** Whether some layer surface on tier `layer` can receive keyboard focus (`layers_on(layer).any(..)`). */
  predicate FocusableOn(out: ActiveOutput, layer: Layer)
  {
    exists s :: s in out.layers && out.layers[s].layer == layer && out.layers[s].canReceiveKeyboardFocus
  }

  /** Outcome of the focus-consistency checks for a popup root. */
  datatype FocusVerdict = Consistent | Dismiss

  /**
   * The focus-consistency checks of `grab`, in their priority order: lock,
   * screenshot UI, the active output's layers, the layout focus.
   */
  function FocusCheck(f: FocusState, root: SurfaceId): (v: FocusVerdict)
    ensures f.locked ==> (v == Consistent <==> f.lockSurfaceFocus == Some(root))
    ensures !f.locked && f.screenshotUiOpen ==> v == Dismiss
    ensures !f.locked && f.activeOutput.None? ==> v == Dismiss
    ensures !f.locked && !f.screenshotUiOpen && f.activeOutput.Some? && root in f.activeOutput.value.layers ==>
      (v == Consistent <==> f.activeOutput.value.layers[root].layer in {Overlay, Top})
    ensures !f.locked && !f.screenshotUiOpen && f.activeOutput.Some? && root !in f.activeOutput.value.layers ==>
      (v == Consistent <==>
        !FocusableOn(f.activeOutput.value, Overlay) &&
        (f.activeOutput.value.renderAboveTopLayer || !FocusableOn(f.activeOutput.value, Top)) &&
        f.layoutFocus == Some(root))
  {
    if f.locked then
      if f.lockSurfaceFocus != Some(root) then Dismiss else Consistent
    else if f.screenshotUiOpen then
      Dismiss
    else if f.activeOutput.Some? then
      var out := f.activeOutput.value;
      if root in out.layers then
        if !(out.layers[root].layer == Overlay || out.layers[root].layer == Top) then Dismiss else Consistent
      else if FocusableOn(out, Overlay) then
        Dismiss
      else if !out.renderAboveTopLayer && FocusableOn(out, Top) then
        Dismiss
      else if f.layoutFocus != Some(root) then
        Dismiss
      else
        Consistent
    else
      Dismiss
  }

  /** One row of the focus table: it accepts the root, rejects it, or defers to the next row. */
  datatype Step = Accept | Reject | Next

  /** The focus table as an ordered list of independent checks, highest priority first. */
  function FocusTable(f: FocusState, root: SurfaceId): seq<Step>
  {
    var out := f.activeOutput;
    [
      // session lock: only the lock surface's focus
      if !f.locked then Next else if f.lockSurfaceFocus == Some(root) then Accept else Reject,
      // the screenshot UI owns all focus
      if f.screenshotUiOpen then Reject else Next,
      // no active output
      if out.None? then Reject else Next,
      // a layer-surface root must be on Overlay or Top
      if out.None? || root !in out.value.layers then Next
      else if out.value.layers[root].layer in {Overlay, Top} then Accept else Reject,
      // a focusable Overlay layer outranks everything
      if out.Some? && FocusableOn(out.value, Overlay) then Reject else Next,
      // a focusable Top layer outranks windows unless the monitor renders above it
      if out.Some? && !out.value.renderAboveTopLayer && FocusableOn(out.value, Top) then Reject else Next,
      // otherwise the root must be the layout's focused window
      if f.layoutFocus == Some(root) then Accept else Reject
    ]
  }

  /** The verdict of a row, or `otherwise` when the row defers. */
  function StepVerdict(step: Step, otherwise: FocusVerdict): FocusVerdict
  {
    match step
    case Accept => Consistent
    case Reject => Dismiss
    case Next => otherwise
  }

  /** The verdict of the first row that decides; a table where no row decides dismisses. */
  function FirstDecisive(steps: seq<Step>): (v: FocusVerdict)
    ensures v == Consistent ==> Accept in steps
  {
    if steps == [] then Dismiss else StepVerdict(steps[0], FirstDecisive(steps[1..]))
  }

  /** The nested checks of `grab` decide exactly as the ordered focus table does. */
  lemma FocusCheckFollowsTable(f: FocusState, root: SurfaceId)
    ensures FocusCheck(f, root) == FirstDecisive(FocusTable(f, root))
  {
    var t := FocusTable(f, root);
    var t1 := t[1..];
    var t2 := t1[1..];
    var t3 := t2[1..];
    var t4 := t3[1..];
    var t5 := t4[1..];
    var t6 := t5[1..];
    assert t6 == [t[6]] && t5[0] == t[5] && t4[0] == t[4] && t3[0] == t[3] && t2[0] == t[2] && t1[0] == t[1];
    assert FirstDecisive(t6) == (if t[6] == Accept then Consistent else Dismiss);
    assert FirstDecisive(t5) == StepVerdict(t[5], FirstDecisive(t6));
    assert FirstDecisive(t4) == StepVerdict(t[4], FirstDecisive(t5));
    assert FirstDecisive(t3) == StepVerdict(t[3], FirstDecisive(t4));
    assert FirstDecisive(t2) == StepVerdict(t[2], FirstDecisive(t3));
    assert FirstDecisive(t1) == StepVerdict(t[1], FirstDecisive(t2));
    assert FirstDecisive(t) == StepVerdict(t[0], FirstDecisive(t1));
  }

  /** Who holds a keyboard or pointer grab. */
  datatype GrabOwner = PopupSession(session: nat) | OtherGrab(id: nat)

  /** The grab state of one input device: none, or active since `serial`. */
  datatype DeviceGrab = NoGrab | Grabbed(serial: Serial, owner: GrabOwner)

  /** `is_grabbed`. */
  predicate IsGrabbed(d: DeviceGrab)
  {
    d.Grabbed?
  }

  /** `has_grab(serial)`: the device's active grab was started with `serial`. */
  predicate HasGrab(d: DeviceGrab, serial: Serial)
  {
    d.Grabbed? && d.serial == serial
  }

  /** A popup grab session handed out by the popup manager (`grab_popup`). */
  datatype GrabSession = GrabSession(id: nat, previousSerial: Option<Serial>, currentFocus: Option<SurfaceId>)

  /**
   * The serial-freshness test for one device. A missing previous serial counts
   * as matching, so a device mismatches exactly when it is grabbed, the request's
   * serial is not its grab's, and there is a previous serial that is not its grab's either.
   */
  function GrabMismatches(d: DeviceGrab, serial: Serial, previousSerial: Option<Serial>): (r: bool)
    ensures r <==> d.Grabbed? && d.serial != serial && previousSerial.Some? && d.serial != previousSerial.value
    ensures !IsGrabbed(d) ==> !r
    ensures previousSerial.None? ==> !r
  {
    IsGrabbed(d) &&
    !(HasGrab(d, serial) || match previousSerial { case None => true case Some(s) => HasGrab(d, s) })
  }

  /** How a grab request ends. */
  datatype GrabOutcome =
    | Ignored    // returned without dismissing the popup
    | Dismissed  // the popup was dismissed
    | Ungrabbed  // the new session was ended because a serial was stale
    | Granted    // the grab was installed

  /**
   * The decision `grab` takes: `imeGrabbed` is whether the input method holds
   * the keyboard grab, `root` the popup's resolved root, `session` what
   * `grab_popup` returns.
   */
  function GrabDecision(
    imeGrabbed: bool, root: Option<SurfaceId>, focus: FocusState, session: Option<GrabSession>,
    keyboard: DeviceGrab, pointer: DeviceGrab, serial: Serial): (o: GrabOutcome)
    ensures imeGrabbed || root.None? ==> o == Ignored
    ensures o == Dismissed <==> !imeGrabbed && root.Some? && FocusCheck(focus, root.value) == Dismiss
    ensures o == Ungrabbed <==>
      !imeGrabbed && root.Some? && FocusCheck(focus, root.value) == Consistent && session.Some? &&
      (GrabMismatches(keyboard, serial, session.value.previousSerial) ||
       GrabMismatches(pointer, serial, session.value.previousSerial))
    ensures o == Granted <==>
      !imeGrabbed && root.Some? && FocusCheck(focus, root.value) == Consistent && session.Some? &&
      !GrabMismatches(keyboard, serial, session.value.previousSerial) &&
      !GrabMismatches(pointer, serial, session.value.previousSerial)
  {
    if imeGrabbed then Ignored
    else if root.None? then Ignored
    else if FocusCheck(focus, root.value) == Dismiss then Dismissed
    else if session.None? then Ignored
    else
      var previous := session.value.previousSerial;
      if GrabMismatches(keyboard, serial, previous) || GrabMismatches(pointer, serial, previous) then Ungrabbed
      else Granted
  }

  /** The single active popup grab: its root surface and its session. */
  datatype PopupGrabState = PopupGrabState(root: SurfaceId, session: GrabSession)

  /** The compositor state `grab` reads and writes. */
  class PopupGrabArbiter {
    /** The process-wide popup grab slot (`popup_grab`). */
    var popupGrab: Option<PopupGrabState>
    var keyboard: DeviceGrab
    var pointer: DeviceGrab
    var keyboardFocus: Option<SurfaceId>
    /** Popups dismissed so far, with their roots (`PopupManager::dismiss_popup` calls). */
    var dismissed: seq<(SurfaceId, PopupId)>
    /** Sessions ended with `PopupUngrabStrategy::All`. */
    var ungrabbed: seq<nat>

    /** While a popup grab is recorded, both devices are grabbed by its session. */
    ghost predicate Valid()
      reads this
    {
      popupGrab.Some? ==>
        keyboard.Grabbed? && keyboard.owner == PopupSession(popupGrab.value.session.id) &&
        pointer.Grabbed? && pointer.owner == PopupSession(popupGrab.value.session.id)
    }

    constructor ()
      ensures Valid() && popupGrab.None? && keyboard == NoGrab && pointer == NoGrab
      ensures keyboardFocus.None? && dismissed == [] && ungrabbed == []
    {
      popupGrab := None;
      keyboard := NoGrab;
      pointer := NoGrab;
      keyboardFocus := None;
      dismissed := [];
      ungrabbed := [];
    }

    /**
     * `grab` for `popup` with `serial`; the collaborators' answers are
     * parameters (see `GrabDecision`). Only a granted request changes the
     * grab slot and the devices.
     */
    method Grab(
      popup: PopupId, serial: Serial, imeGrabbed: bool, root: Option<SurfaceId>,
      focus: FocusState, session: Option<GrabSession>)
      modifies this
      ensures var o := GrabDecision(imeGrabbed, root, focus, session, old(keyboard), old(pointer), serial);
        && dismissed == old(dismissed) + (if o == Dismissed then [(root.value, popup)] else [])
        && ungrabbed == old(ungrabbed) + (if o == Ungrabbed then [session.value.id] else [])
        && (o == Granted ==>
              popupGrab == Some(PopupGrabState(root.value, session.value)) &&
              keyboardFocus == session.value.currentFocus &&
              keyboard == Grabbed(serial, PopupSession(session.value.id)) &&
              pointer == Grabbed(serial, PopupSession(session.value.id)))
        && (o != Granted ==>
              popupGrab == old(popupGrab) && keyboardFocus == old(keyboardFocus) &&
              keyboard == old(keyboard) && pointer == old(pointer))
      ensures old(Valid()) ==> Valid()
    {
      if imeGrabbed {
        return;
      }
      if root.None? {
        return;
      }
      var r := root.value;

      if focus.locked {
        if focus.lockSurfaceFocus != Some(r) {
          dismissed := dismissed + [(r, popup)];
          return;
        }
      } else if focus.screenshotUiOpen {
        dismissed := dismissed + [(r, popup)];
        return;
      } else if focus.activeOutput.Some? {
        var layers := focus.activeOutput.value.layers;
        if r in layers {
          if !(layers[r].layer == Overlay || layers[r].layer == Top) {
            dismissed := dismissed + [(r, popup)];
            return;
          }
        } else {
          if FocusableOn(focus.activeOutput.value, Overlay) {
            dismissed := dismissed + [(r, popup)];
            return;
          }
          if !focus.activeOutput.value.renderAboveTopLayer && FocusableOn(focus.activeOutput.value, Top) {
            dismissed := dismissed + [(r, popup)];
            return;
          }
          if focus.layoutFocus != Some(r) {
            dismissed := dismissed + [(r, popup)];
            return;
          }
        }
      } else {
        dismissed := dismissed + [(r, popup)];
        return;
      }

      if session.None? {
        return;
      }
      var grab := session.value;

      var keyboardMismatches := GrabMismatches(keyboard, serial, grab.previousSerial);
      var pointerMismatches := GrabMismatches(pointer, serial, grab.previousSerial);
      if keyboardMismatches || pointerMismatches {
        ungrabbed := ungrabbed + [grab.id];
        return;
      }

      keyboardFocus := grab.currentFocus;
      keyboard := Grabbed(serial, PopupSession(grab.id));
      pointer := Grabbed(serial, PopupSession(grab.id));
      popupGrab := Some(PopupGrabState(r, grab));
    }
  }

  /** Under a lock, a popup rooted at the lock surface's focus is granted a fresh grab. */
  lemma LockedGrabOfLockFocusIsGranted(
    lockFocus: SurfaceId, focus: FocusState, session: GrabSession, serial: Serial)
    requires focus.locked && focus.lockSurfaceFocus == Some(lockFocus)
    ensures GrabDecision(false, Some(lockFocus), focus, Some(session), NoGrab, NoGrab, serial) == Granted
  {
  }

  /** Under a lock, a popup rooted anywhere but the lock surface's focus is dismissed. */
  lemma LockedGrabElsewhereIsDismissed(
    root: SurfaceId, focus: FocusState, session: Option<GrabSession>,
    keyboard: DeviceGrab, pointer: DeviceGrab, serial: Serial)
    requires focus.locked && focus.lockSurfaceFocus != Some(root)
    ensures GrabDecision(false, Some(root), focus, session, keyboard, pointer, serial) == Dismissed
  {
  }

  /**
   * A request whose serial is stale for a device grabbed by an unrelated
   * session (neither its serial nor the session's previous serial) is never granted.
   */
  lemma StaleSerialIsNeverGranted(
    imeGrabbed: bool, root: Option<SurfaceId>, focus: FocusState, session: Option<GrabSession>,
    keyboard: DeviceGrab, pointer: DeviceGrab, serial: Serial)
    requires session.Some? && session.value.previousSerial.Some?
    requires
      (keyboard.Grabbed? && keyboard.serial != serial && keyboard.serial != session.value.previousSerial.value) ||
      (pointer.Grabbed? && pointer.serial != serial && pointer.serial != session.value.previousSerial.value)
    ensures GrabDecision(imeGrabbed, root, focus, session, keyboard, pointer, serial) != Granted
  {
  }
}
