# niri xdg-shell handler, modelled in Dafny

This project models the decision and bookkeeping logic of niri's handler for the
xdg-shell and xdg-decoration Wayland protocols (`src/handlers/xdg_shell.rs`). It covers
five parts:

- **Window rules** (`window_rules.dfy`, module `WindowRules`). A match entry holds
  when each pattern it has matches the window's app id or title. A rule applies when its
  match list is empty or one entry matches, and no exclude entry matches. The method
  `ResolveWindowRules` folds the rules in order. It is proved equal to a reference
  definition: each field takes its value from the last applicable rule that sets it.
- **Popup geometry** (`popup_geometry.dfy`, module `PopupGeometry`). This covers the
  8-unit padded first attempt and the unpadded fallback of `unconstrain_with_padding`,
  the target rectangles for window popups and layer-shell popups, recomputing reactive
  popups, and the initial configure of an xdg popup on commit.
- **Popup-grab arbitration** (`popup_grab.dfy`, module `PopupGrab`). The focus checks
  run in priority order: lock, screenshot UI, the active output's layers, layout focus.
  Then comes the serial-freshness test on keyboard and pointer. The one popup-grab slot
  changes only when the grab is granted.
- **Toplevel lifecycle, fullscreen and decorations** (`xdg_shell.dfy`, module
  `XdgShell`). The class `Niri` holds the unmapped windows and the layout's windows. Every
  handler keeps the two disjoint when they start disjoint, provided `new_toplevel` is
  not given a surface the layout already holds. The class `Toplevel` holds a toplevel's pending state and a
  log of the configures sent to it.
- `base.dfy` (module `Base`) holds the shared `Option`, handles, points and sizes.

The code calls other libraries in several places. Each one becomes a parameter that the
model assumes nothing about:

- regex evaluation is the `Matcher` parameter;
- the xdg_positioner constraint solver (`get_unconstrained_geometry`) is the `Solver`
  parameter;
- popup-root resolution, `grab_popup`, and the input method's keyboard grab are inputs
  to `Grab`;
- the layout's workspace queries (`view_size`, `new_window_size`) are fields of `Niri`
  that hold functions.

Calls into the layout engine (`move_window_to_output`, `set_fullscreen`,
`configure_new_window`) are recorded in `Niri.layoutCalls`. Finding and removing
windows acts on the map `Niri.layout`.

Choices that come from smithay, the library this code calls:

- A toplevel's or a popup's `send_configure` marks the initial configure as sent.
- A device `has_grab(serial)` when its active grab was started with `serial`.
- `is_grabbed` means the device has an active grab.

Padding is decided per axis: an axis longer than 16 is inset by 8 on each side. So the
padded rectangle equals the target exactly when neither axis is longer than 16.

## Model

| member | source | states |
|---|---|---|
| `WindowRules.WindowMatches` | src/handlers/xdg_shell.rs:44-64 | A match entry holds iff each pattern it has matches the window's app id or title. A pattern fails when the window lacks that attribute. An entry with no patterns matches every window. |
| `WindowRules.AnyMatches` | src/handlers/xdg_shell.rs:83-87 | Holds iff some entry of the list matches the window. |
| `WindowRules.RuleApplies` | src/handlers/xdg_shell.rs:82-89 | A rule applies iff (its match list is empty or some entry matches) and no exclude entry matches. |
| `WindowRules.ResolveWindowRules` | src/handlers/xdg_shell.rs:66-106 | The fold over the rules computes the reference resolution: each field comes from its last applicable setter. |
| `WindowRules.LastSetIsLastSetter` | src/handlers/xdg_shell.rs:91-101 | For any field, the last applicable rule that sets it decides its value. Later applicable rules that lack the field leave that value intact. |
| `WindowRules.LastSetNoneIff` | src/handlers/xdg_shell.rs:72-101 | A field stays unset iff no applicable rule sets it. |
| `WindowRules.LastSetSkips` | src/handlers/xdg_shell.rs:82-89 | Removing a rule that does not apply, wherever it stands, leaves any field unchanged. |
| `WindowRules.ResolvedWidthIsLastSetter` | src/handlers/xdg_shell.rs:91-97 | `default_width` is the first width of the last applicable rule that has a width list. An empty list gives `Some(None)`. |
| `WindowRules.ResolvedOutputIsLastSetter` | src/handlers/xdg_shell.rs:99-101 | `open_on_output` is the output name of the last applicable rule that names one, independently of the width. |
| `WindowRules.ResolvedUnsetIff` | src/handlers/xdg_shell.rs:31-42 | Each resolved field is `None` iff no applicable rule sets it. |
| `WindowRules.SkippedRuleChangesNothing` | src/handlers/xdg_shell.rs:82-89 | A skipped rule changes nothing in the resolved result. |
| `PopupGeometry.Padded` | src/handlers/xdg_shell.rs:605-615 | The padded rectangle lies inside the target and is centred in it. Each axis shrinks by 16 or not at all, and shrinks iff it is longer than 16. It equals the target iff neither axis is longer than 16. |
| `PopupGeometry.NoResize` | src/handlers/xdg_shell.rs:622-629 | The no-resize positioner has no ResizeX or ResizeY. It keeps every other adjustment and every other field. |
| `PopupGeometry.Unconstrained` | src/handlers/xdg_shell.rs:617-637 | If padding changes nothing, the result is the solver on the target. If the no-resize solve on the padded rectangle fits inside it, that solve is the result. Otherwise the result is the solver on the original positioner and target. When the fallback solve fits the target, so does the result. |
| `PopupGeometry.UnconstrainWithPadding` | src/handlers/xdg_shell.rs:599-638 | The step-by-step computation returns exactly `Unconstrained`. |
| `PopupGeometry.WindowPopupTarget` | src/handlers/xdg_shell.rs:547-550 | Moved back by the popup's offset from its toplevel, the target is the window's width over the whole output height. It starts at the output's top edge. |
| `PopupGeometry.LayerPopupTarget` | src/handlers/xdg_shell.rs:571-573 | Moved back by the popup's offset and the layer surface's location, the target is the whole output. |
| `PopupGeometry.Popup.UnconstrainWindowPopup` | src/handlers/xdg_shell.rs:537-555 | The pending geometry becomes the unconstrained placement against the window target. |
| `PopupGeometry.Popup.UnconstrainLayerShellPopup` | src/handlers/xdg_shell.rs:557-578 | Without a layer geometry nothing changes. Otherwise the pending geometry becomes the unconstrained placement against the layer target. |
| `PopupGeometry.Popup.SendConfigure` | src/handlers/xdg_shell.rs:502 | Sends one configure carrying the pending geometry and marks the initial configure as sent. |
| `PopupGeometry.UpdateReactivePopups` | src/handlers/xdg_shell.rs:580-596 | Only reactive xdg popups are placed again and sent a configure. All other popups keep their geometry, events and configure flag. No positioner changes. |
| `PopupGeometry.PopupsHandleCommit` | src/handlers/xdg_shell.rs:478-509 | An xdg popup still owed its initial configure first gets the output's scale and transform, when an output is known, and then exactly one configure. Input-method popups and already-configured popups get nothing. Only the popup's event log and configure flag may change; its positioner, geometry and offset stay as they were. |
| `PopupGrab.FocusCheck` | src/handlers/xdg_shell.rs:174-223 | The ordered focus table. Under a lock, only the lock focus is accepted. A screenshot UI or no active output always dismisses. A layer root must be on Overlay or Top. Any other root needs no focusable Overlay layer, no focusable Top layer unless the monitor renders above Top, and must be the layout focus. |
| `PopupGrab.FirstDecisive` | src/handlers/xdg_shell.rs:177-223 | The table's verdict is that of its first deciding row. A table decides Consistent only if some row accepts. |
| `PopupGrab.FocusCheckFollowsTable` | src/handlers/xdg_shell.rs:177-223 | The nested checks decide exactly as the table does. The rows are checked in order: lock, screenshot UI, no active output, layer root, focusable Overlay layer, focusable Top layer, layout focus. |
| `PopupGrab.GrabMismatches` | src/handlers/xdg_shell.rs:237-244 | A device mismatches iff it is grabbed, its grab is not from the request's serial, and a previous serial exists that is not its grab's either. A missing previous serial never mismatches. |
| `PopupGrab.GrabDecision` | src/handlers/xdg_shell.rs:159-248 | An IME grab or an unresolvable root is ignored. A popup is dismissed iff the focus table says so. A stale serial on either device ends the new session. The grab is granted iff every check passes. |
| `PopupGrab.PopupGrabArbiter.Grab` | src/handlers/xdg_shell.rs:159-255 | Dismissals and ungrabs are logged as `GrabDecision` says. Only a granted grab replaces the slot, the keyboard focus and both device grabs, all tied to the new session. Ownership of both devices by the slot's session is preserved. |
| `PopupGrab.LockedGrabOfLockFocusIsGranted` | src/handlers/xdg_shell.rs:177-181 | Under a lock, a fresh grab for a popup rooted at the lock focus is granted. |
| `PopupGrab.LockedGrabElsewhereIsDismissed` | src/handlers/xdg_shell.rs:177-181 | Under a lock, a popup rooted elsewhere is dismissed. |
| `PopupGrab.StaleSerialIsNeverGranted` | src/handlers/xdg_shell.rs:237-248 | A request whose serial and previous serial both differ from an existing device grab is never granted. |
| `XdgShell.Niri.UnmappedWindowsAreTracked` | src/handlers/xdg_shell.rs:295-318 | While every unmapped window is stored under its own surface, looking up a stored window's surface finds that window, so the fullscreen handlers' `Tracks` precondition holds for it. |
| `XdgShell.Niri.TargetWorkspace` | src/handlers/xdg_shell.rs:450-456 | The workspace is the named output's monitor workspace when the name is known. Otherwise it is the layout's active workspace. |
| `XdgShell.Niri.NewToplevel` | src/handlers/xdg_shell.rs:113-120 | The caller must pass an untracked surface, which is inserted as unmapped. The unmapped and layout sets stay disjoint iff the layout does not hold the surface. |
| `XdgShell.Niri.ToplevelDestroyed` | src/handlers/xdg_shell.rs:339-364 | An unmapped toplevel is removed with the layout untouched. Otherwise a layout window is removed and its output queued for redraw. A surface in neither changes nothing. When the two sets were disjoint, the surface is afterwards in neither. |
| `XdgShell.Niri.PopupDestroyed` | src/handlers/xdg_shell.rs:366-370 | A redraw is queued for the popup's output iff one is known. |
| `XdgShell.Niri.MaximizeRequest` | src/handlers/xdg_shell.rs:257-263 | Exactly one configure is sent, and the pending state is unchanged. |
| `XdgShell.Niri.FullscreenRequest` | src/handlers/xdg_shell.rs:269-308 | Exactly one configure is always sent. Without the capability nothing else changes. A mapped window moves when another output is requested and is set fullscreen. An unmapped one gets the active workspace's view size and the Fullscreen state. |
| `XdgShell.Niri.UnfullscreenRequest` | src/handlers/xdg_shell.rs:310-337 | A mapped window is un-fullscreened by the layout. An unmapped one gets the re-resolved new-window size and loses Fullscreen. No configure is sent. |
| `XdgShell.Niri.SendInitialConfigureIfNeeded` | src/handlers/xdg_shell.rs:439-475 | Once sent, nothing changes. Otherwise the rule-chosen workspace configures the window and `prefer_no_csd` adds all four tiled states. Exactly one configure is sent. |
| `XdgShell.Niri.NewDecoration` | src/handlers/xdg_shell.rs:376-381 | The pending mode becomes ServerSide, and nothing else changes. |
| `XdgShell.Niri.RequestMode` | src/handlers/xdg_shell.rs:383-401 | The pending mode becomes exactly the client's. A configure is sent iff the initial configure was already sent. |
| `XdgShell.Niri.UnsetMode` | src/handlers/xdg_shell.rs:403-414 | The pending mode becomes ServerSide. A configure is sent iff the initial configure was already sent. |
| `XdgShell.Toplevel.SendConfigure` | src/handlers/xdg_shell.rs:474 | Sends one configure carrying the pending state and marks the initial configure as sent. |
| `XdgShell.DecorationModeRidesInitialConfigure` | src/handlers/xdg_shell.rs:396-399 | A mode requested before the initial configure causes no configure of its own. The initial configure that follows carries it. |

## Left out

- `new_popup` places the new popup through `unconstrain_popup` and then registers it with
  `track_popup`; the registration and its logged failure are not modelled.
- `reposition_request` replaces the popup's pending positioner and geometry with the new
  positioner and its unadjusted geometry (`get_geometry`), places the popup again through
  `unconstrain_popup`, and sends `repositioned(token)`. None of this is modelled as an
  operation of its own.
- `unconstrain_popup` and `output_for_popup` find the popup's root, the window or layer
  surface that owns it, and its output through smithay; that lookup is not modelled. The
  placements they lead to are `UnconstrainWindowPopup` and `UnconstrainLayerShellPopup`.
- `move_request`, `resize_request`, `unmaximize_request`: these are empty stubs in the
  code.
- `initial_configure_sent` is the field `initialConfigureSent` of `Toplevel`.
- `send_surface_state` is recorded as a `SurfaceState(scale, transform)` event; its
  effect on the surface is not modelled. The `with_states` locking and the lookups of
  the output's scale and transform are left out; they are inputs. The KDE decoration handler, the `delegate_*` macros, tracing
  spans and logging are left out too.
- Smithay internals are not modelled: the positioner solver, the popup-root walk,
  `grab_popup`, the popup keyboard and pointer grab implementations, `dismiss_popup`,
  `PopupUngrabStrategy::All`, and `popups.commit`. Calls to them are parameters or are
  recorded.
- `move_window_to_output` is modelled as moving the window to the requested output in
  `layout`, with the call recorded. `set_fullscreen` and `configure_new_window` are only
  recorded: the layout is opaque here, so their changes to the window's pending size and
  states are not modelled.
- `FullscreenRequest`: for a mapped window the configure sent carries the pending state
  as it was. In the code, `set_fullscreen` first changes the pending size and states, so
  the real configure carries those changes.
- `UnfullscreenRequest`: for a mapped window the model keeps the pending state; the
  layout's un-fullscreen changes to the pending size and states are not modelled.
- `SendInitialConfigureIfNeeded`: the configure sent carries the tiled states but not the
  size and states that `configure_new_window` sets in the code.
- `TargetWorkspace`: `monitor_for_output(..).unwrap()` becomes the precondition
  `OutputsHaveMonitors` (every named output has a monitor workspace). The panic when an
  output has no monitor is not modelled.
- `FocusCheck`: the monitor's `render_above_top_layer` answer is the input
  `renderAboveTopLayer`. The `monitor_for_output(..).unwrap()` that obtains it, and its
  panic, are not modelled.
- `UpdateReactivePopups` always sends a configure to each reactive xdg popup. It does
  not model `send_pending_configure` skipping an unchanged state, or its logged failure.
- `PopupsHandleCommit` does not model the panic when the initial popup configure fails.
- `UnconstrainWindowPopup` takes the window's y offset and the output geometry as
  present values. The code unwraps them.
- `Padded`: the arithmetic is on unbounded integers. Wrap-around of the code's `i32`
  for rectangles within 16 of the `i32` limits is not modelled.
- `WindowPopupTarget`: `i32` wrap-around of the negated offsets is not modelled.
- `LayerPopupTarget`: `i32` wrap-around of the negated offsets is not modelled.
- `Unconstrained`: the result fits the target only when the solver's fallback answer
  does. The solver is foreign, so the model cannot promise more.
- `Grab`: the pointer's focus (kept by `Focus::Keep`) is not part of the state.
- `Grab`: the seat's keyboard and pointer are taken as present. The panics of
  `seat.get_keyboard().unwrap()` and `seat.get_pointer().unwrap()` are not modelled.
- `UnconstrainLayerShellPopup` takes the output's size as present. The panic of
  `output_geometry(output).unwrap()` is not modelled.
- `ColumnWidth::from`, which turns a configured width preset into a column width, is
  modelled as the identity. The configuration types are not part of this model.
- Nothing here is concurrent: each handler runs to completion.
