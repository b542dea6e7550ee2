/**
 * The xdg-shell and xdg-decoration request handlers for toplevels: lifecycle
 * (creation, destruction), the initial configure, fullscreen, maximize and
 * decoration-mode negotiation, and the redraw owed to a destroyed popup.
 */
module XdgShell {
  import opened Base
  import opened WindowRules

  /** The xdg_toplevel states the compositor sets. */
  datatype ToplevelState = Maximized | Fullscreen | Resizing | Activated | TiledLeft | TiledRight | TiledTop | TiledBottom

  /** The four tiled-edge states. */
  const TiledEdges: set<ToplevelState> := {TiledLeft, TiledRight, TiledTop, TiledBottom}

  /** The xdg_toplevel window-manager capabilities the client was told about. */
  datatype WmCapability = WindowMenuCapability | MaximizeCapability | FullscreenCapability | MinimizeCapability

  /** The zxdg_toplevel_decoration_v1 modes. */
  datatype DecorationMode = ClientSide | ServerSide

  /** The pending (not yet configured) protocol state of a toplevel. */
  datatype PendingState = PendingState(
    size: Option<Size>,
    states: set<ToplevelState>,
    decorationMode: Option<DecorationMode>)

  /** An xdg toplevel surface and its pending protocol state. */
  class Toplevel {
    const surface: SurfaceId
    var role: Role
    /** The capabilities in the toplevel's current state. */
    var capabilities: set<WmCapability>
    var pending: PendingState
    var initialConfigureSent: bool
    /** Every configure sent so far, each carrying the pending state it sent. */
    var configures: seq<PendingState>

    constructor (surface: SurfaceId, role: Role, capabilities: set<WmCapability>)
      ensures this.surface == surface && this.role == role && this.capabilities == capabilities
      ensures pending == PendingState(None, {}, None) && !initialConfigureSent && configures == []
    {
      this.surface := surface;
      this.role := role;
      this.capabilities := capabilities;
      this.pending := PendingState(None, {}, None);
      this.initialConfigureSent := false;
      this.configures := [];
    }

    /** `send_configure`: the pending state goes to the client; the initial configure is then sent. */
    method SendConfigure()
      modifies this`configures, this`initialConfigureSent
      ensures configures == old(configures) + [pending] && initialConfigureSent
    {
      configures := configures + [pending];
      initialConfigureSent := true;
    }
  }

  /** Calls into the layout engine, recorded in order; their effects are the layout's business. */
  datatype LayoutCall =
    | MoveWindowToOutput(window: SurfaceId, output: OutputId)
    | SetFullscreen(window: SurfaceId, fullscreen: bool)
    | ConfigureNewWindow(workspace: WorkspaceId, window: SurfaceId, defaultWidth: Option<Option<ColumnWidth>>)

  /**
   * The compositor state the toplevel handlers read and write. The configuration
   * and the layout's workspace queries are fixed for the object's lifetime.
   */
  class Niri {
    /** Toplevels created but not yet taken over by the layout, keyed by surface. */
    var unmappedWindows: map<SurfaceId, Toplevel>
    /** Windows owned by the layout, with the output each one is on. */
    var layout: map<SurfaceId, OutputId>
    var layoutCalls: seq<LayoutCall>
    var redrawQueue: seq<OutputId>

    const windowRules: seq<WindowRule>
    const isMatch: Matcher
    const preferNoCsd: bool
    const outputByName: map<string, OutputId>
    /** The active workspace of the monitor of each output. */
    const monitorWorkspace: map<OutputId, WorkspaceId>
    /** The layout's active workspace, if any. */
    const activeWorkspace: Option<WorkspaceId>
    /** A workspace's full view size (`view_size`). */
    const viewSize: WorkspaceId -> Size
    /** A workspace's size for a new window of a given default width (`new_window_size`). */
    const newWindowSize: (WorkspaceId, Option<Option<ColumnWidth>>) -> Size

    /** Every named output has a monitor (`monitor_for_output(..).unwrap()` succeeds). */
    predicate OutputsHaveMonitors()
    {
      forall name :: name in outputByName ==> outputByName[name] in monitorWorkspace
    }

    /** Every unmapped window is stored under its own surface. */
    ghost predicate Keyed()
      reads this, unmappedWindows.Values
    {
      forall s :: s in unmappedWindows ==> unmappedWindows[s].surface == s
    }

    /** No toplevel is both unmapped and in the layout. */
    ghost predicate Partitioned()
      reads this
    {
      unmappedWindows.Keys !! layout.Keys
    }

    /** A handler given `t` finds `t` itself when it looks `t`'s surface up among the unmapped windows. */
    ghost predicate Tracks(t: Toplevel)
      reads this
    {
      t.surface in unmappedWindows ==> unmappedWindows[t.surface] == t
    }

    /**
     * A window taken from the unmapped windows is the one its surface looks
     * up, so the handlers that require `Tracks` may be given it.
     */
    lemma UnmappedWindowsAreTracked(w: Toplevel)
      requires Keyed() && w in unmappedWindows.Values
      ensures Tracks(w)
    {
      var s :| s in unmappedWindows && unmappedWindows[s] == w;
      assert w.surface == s;
    }

    constructor (
      windowRules: seq<WindowRule>, isMatch: Matcher, preferNoCsd: bool,
      outputByName: map<string, OutputId>, monitorWorkspace: map<OutputId, WorkspaceId>,
      activeWorkspace: Option<WorkspaceId>,
      viewSize: WorkspaceId -> Size, newWindowSize: (WorkspaceId, Option<Option<ColumnWidth>>) -> Size)
      requires forall name :: name in outputByName ==> outputByName[name] in monitorWorkspace
      ensures OutputsHaveMonitors() && Keyed() && Partitioned()
      ensures unmappedWindows == map[] && layout == map[] && layoutCalls == [] && redrawQueue == []
      ensures this.windowRules == windowRules && this.isMatch == isMatch && this.preferNoCsd == preferNoCsd
      ensures this.outputByName == outputByName && this.monitorWorkspace == monitorWorkspace
      ensures this.activeWorkspace == activeWorkspace
      ensures this.viewSize == viewSize && this.newWindowSize == newWindowSize
    {
      this.windowRules := windowRules;
      this.isMatch := isMatch;
      this.preferNoCsd := preferNoCsd;
      this.outputByName := outputByName;
      this.monitorWorkspace := monitorWorkspace;
      this.activeWorkspace := activeWorkspace;
      this.viewSize := viewSize;
      this.newWindowSize := newWindowSize;
      this.unmappedWindows := map[];
      this.layout := map[];
      this.layoutCalls := [];
      this.redrawQueue := [];
    }

    /**
     * The workspace a new window goes to: the active workspace of the monitor
     * of the output named by the rules, or the layout's active workspace when
     * no output is named or the name is unknown.
     */
    function TargetWorkspace(openOnOutput: Option<string>): (ws: Option<WorkspaceId>)
      requires OutputsHaveMonitors()
      ensures openOnOutput.Some? && openOnOutput.value in outputByName ==>
        ws == Some(monitorWorkspace[outputByName[openOnOutput.value]])
      ensures openOnOutput.None? || openOnOutput.value !in outputByName ==> ws == activeWorkspace
      ensures ws.Some? ==> ws == activeWorkspace || ws.value in monitorWorkspace.Values
    {
      match openOnOutput
      case Some(name) =>
        if name in outputByName then Some(monitorWorkspace[outputByName[name]]) else activeWorkspace
      case None => activeWorkspace
    }

    /** `new_toplevel`: a new toplevel starts unmapped; its surface must not be tracked yet. */
    method NewToplevel(t: Toplevel)
      requires t.surface !in unmappedWindows
      modifies this`unmappedWindows
      ensures unmappedWindows == old(unmappedWindows)[t.surface := t]
      ensures old(Keyed()) ==> Keyed()
      ensures Partitioned() <==> old(Partitioned()) && t.surface !in layout
    {
      unmappedWindows := unmappedWindows[t.surface := t];
    }

    /**
     * `toplevel_destroyed`: an unmapped toplevel is simply forgotten; otherwise a
     * window the layout owns is removed from it and its output redrawn; a
     * surface found in neither changes nothing.
     */
    method ToplevelDestroyed(surface: SurfaceId)
      modifies this`unmappedWindows, this`layout, this`redrawQueue
      ensures surface in old(unmappedWindows) ==>
        unmappedWindows == old(unmappedWindows) - {surface} &&
        layout == old(layout) && redrawQueue == old(redrawQueue)
      ensures surface !in old(unmappedWindows) && surface in old(layout) ==>
        unmappedWindows == old(unmappedWindows) &&
        layout == old(layout) - {surface} && redrawQueue == old(redrawQueue) + [old(layout)[surface]]
      ensures surface !in old(unmappedWindows) && surface !in old(layout) ==>
        unmappedWindows == old(unmappedWindows) && layout == old(layout) && redrawQueue == old(redrawQueue)
      ensures old(Partitioned()) ==> Partitioned() && surface !in unmappedWindows && surface !in layout
      ensures old(Keyed()) ==> Keyed()
    {
      if surface in unmappedWindows {
        unmappedWindows := unmappedWindows - {surface};
        return;
      }
      if surface !in layout {
        return;
      }
      var output := layout[surface];
      layout := layout - {surface};
      redrawQueue := redrawQueue + [output];
    }

    /** `popup_destroyed`: the output the popup was on, if one is known, is redrawn. */
    method PopupDestroyed(outputForPopup: Option<OutputId>)
      modifies this`redrawQueue
      ensures redrawQueue == old(redrawQueue) + (if outputForPopup.Some? then [outputForPopup.value] else [])
    {
      if outputForPopup.Some? {
        redrawQueue := redrawQueue + [outputForPopup.value];
      }
    }

    /** `maximize_request`: not fulfilled, but always answered with exactly one configure. */
    method MaximizeRequest(t: Toplevel)
      modifies t`configures, t`initialConfigureSent
      ensures t.configures == old(t.configures) + [t.pending]
      ensures t.initialConfigureSent
    {
      t.SendConfigure();
    }

    /**
     * `fullscreen_request`. Honoured only for a toplevel advertising the
     * fullscreen capability: a mapped window is moved to the requested output
     * when that differs from its own and then made fullscreen by the layout; an
     * unmapped one gets the active workspace's view size and the Fullscreen
     * state. Exactly one configure is sent in every case.
     */
    method FullscreenRequest(t: Toplevel, requestedOutput: Option<OutputId>)
      requires Tracks(t)
      modifies this`layout, this`layoutCalls, t`pending, t`configures, t`initialConfigureSent
      ensures t.configures == old(t.configures) + [t.pending] && t.initialConfigureSent
      ensures FullscreenCapability !in t.capabilities ==>
        layout == old(layout) && layoutCalls == old(layoutCalls) && t.pending == old(t.pending)
      ensures FullscreenCapability in t.capabilities && t.surface in old(layout) ==>
        var moves := requestedOutput.Some? && requestedOutput.value != old(layout)[t.surface];
        && t.pending == old(t.pending)
        && layout == (if moves then old(layout)[t.surface := requestedOutput.value] else old(layout))
        && layoutCalls == old(layoutCalls) +
             (if moves then [MoveWindowToOutput(t.surface, requestedOutput.value)] else []) +
             [SetFullscreen(t.surface, true)]
      ensures FullscreenCapability in t.capabilities && t.surface !in old(layout) ==>
        && layout == old(layout) && layoutCalls == old(layoutCalls)
        && t.pending == (if t.surface in unmappedWindows && activeWorkspace.Some? then
              old(t.pending).(size := Some(viewSize(activeWorkspace.value)),
                              states := old(t.pending).states + {Fullscreen})
            else old(t.pending))
    {
      if FullscreenCapability in t.capabilities {
        if t.surface in layout {
          var currentOutput := layout[t.surface];
          if requestedOutput.Some? {
            if requestedOutput.value != currentOutput {
              layoutCalls := layoutCalls + [MoveWindowToOutput(t.surface, requestedOutput.value)];
              layout := layout[t.surface := requestedOutput.value];
            }
          }
          layoutCalls := layoutCalls + [SetFullscreen(t.surface, true)];
        } else if t.surface in unmappedWindows {
          var window := unmappedWindows[t.surface];
          if activeWorkspace.Some? {
            window.pending := window.pending.(size := Some(viewSize(activeWorkspace.value)));
            window.pending := window.pending.(states := window.pending.states + {Fullscreen});
          }
        }
      }
      t.SendConfigure();
    }

    /**
     * `unfullscreen_request`. A mapped window is un-fullscreened by the layout;
     * an unmapped one gets, from the rules resolved again, its target
     * workspace's size for a new window and loses the Fullscreen state. No
     * configure is sent.
     */
    method UnfullscreenRequest(t: Toplevel)
      requires OutputsHaveMonitors() && Tracks(t)
      modifies this`layoutCalls, t`pending
      ensures t.surface in layout ==>
        layoutCalls == old(layoutCalls) + [SetFullscreen(t.surface, false)] && t.pending == old(t.pending)
      ensures t.surface !in layout ==>
        var rules := Resolved(windowRules, t.role, isMatch);
        var ws := TargetWorkspace(rules.openOnOutput);
        && layoutCalls == old(layoutCalls)
        && t.pending == (if t.surface in unmappedWindows && ws.Some? then
              old(t.pending).(size := Some(newWindowSize(ws.value, rules.defaultWidth)),
                              states := old(t.pending).states - {Fullscreen})
            else old(t.pending))
    {
      if t.surface in layout {
        layoutCalls := layoutCalls + [SetFullscreen(t.surface, false)];
      } else if t.surface in unmappedWindows {
        var window := unmappedWindows[t.surface];
        var rules := ResolveWindowRules(windowRules, window.role, isMatch);
        var ws := TargetWorkspace(rules.openOnOutput);
        if ws.Some? {
          window.pending := window.pending.(size := Some(newWindowSize(ws.value, rules.defaultWidth)));
          window.pending := window.pending.(states := window.pending.states - {Fullscreen});
        }
      }
    }

    /**
     * `send_initial_configure_if_needed`. Does nothing once the initial
     * configure was sent. Otherwise the target workspace from the resolved
     * rules configures the window for its default width, the tiled states are
     * all set when the configuration prefers no client-side decorations, and
     * the initial configure is sent.
     */
    method SendInitialConfigureIfNeeded(t: Toplevel)
      requires OutputsHaveMonitors()
      modifies this`layoutCalls, t`pending, t`configures, t`initialConfigureSent
      ensures old(t.initialConfigureSent) ==>
        layoutCalls == old(layoutCalls) && t.pending == old(t.pending) &&
        t.configures == old(t.configures) && t.initialConfigureSent
      ensures !old(t.initialConfigureSent) ==>
        var rules := Resolved(windowRules, t.role, isMatch);
        var ws := TargetWorkspace(rules.openOnOutput);
        && layoutCalls == old(layoutCalls) +
             (if ws.Some? then [ConfigureNewWindow(ws.value, t.surface, rules.defaultWidth)] else [])
        && t.pending == (if preferNoCsd then old(t.pending).(states := old(t.pending).states + TiledEdges)
                         else old(t.pending))
        && t.configures == old(t.configures) + [t.pending]
        && t.initialConfigureSent
    {
      if t.initialConfigureSent {
        return;
      }
      var rules := ResolveWindowRules(windowRules, t.role, isMatch);
      var ws := TargetWorkspace(rules.openOnOutput);
      if ws.Some? {
        layoutCalls := layoutCalls + [ConfigureNewWindow(ws.value, t.surface, rules.defaultWidth)];
      }
      if preferNoCsd {
        t.pending := t.pending.(states := t.pending.states + {TiledLeft});
        t.pending := t.pending.(states := t.pending.states + {TiledRight});
        t.pending := t.pending.(states := t.pending.states + {TiledTop});
        t.pending := t.pending.(states := t.pending.states + {TiledBottom});
      }
      t.SendConfigure();
    }

    /** `new_decoration`: the pending decoration mode becomes server-side; nothing is sent. */
    method NewDecoration(t: Toplevel)
      modifies t`pending
      ensures t.pending == old(t.pending).(decorationMode := Some(ServerSide))
    {
      t.pending := t.pending.(decorationMode := Some(ServerSide));
    }

    /**
     * `request_mode`: the pending decoration mode becomes exactly the client's;
     * a configure answers at once when the initial configure was already sent,
     * and otherwise the mode rides along with the initial configure.
     */
    method RequestMode(t: Toplevel, mode: DecorationMode)
      modifies t`pending, t`configures, t`initialConfigureSent
      ensures t.pending == old(t.pending).(decorationMode := Some(mode))
      ensures t.configures == old(t.configures) + (if t.initialConfigureSent then [t.pending] else [])
      ensures t.initialConfigureSent == old(t.initialConfigureSent)
    {
      t.pending := t.pending.(decorationMode := Some(mode));
      if t.initialConfigureSent {
        t.SendConfigure();
      }
    }

    /** `unset_mode`: the pending decoration mode reverts to server-side, with the same configure rule. */
    method UnsetMode(t: Toplevel)
      modifies t`pending, t`configures, t`initialConfigureSent
      ensures t.pending == old(t.pending).(decorationMode := Some(ServerSide))
      ensures t.configures == old(t.configures) + (if t.initialConfigureSent then [t.pending] else [])
      ensures t.initialConfigureSent == old(t.initialConfigureSent)
    {
      t.pending := t.pending.(decorationMode := Some(ServerSide));
      if t.initialConfigureSent {
        t.SendConfigure();
      }
    }
  }

  /**
   * A decoration mode requested before the initial configure causes no
   * configure of its own and is carried by the initial configure.
   */
  method DecorationModeRidesInitialConfigure(niri: Niri, t: Toplevel, mode: DecorationMode)
    requires niri.OutputsHaveMonitors() && !t.initialConfigureSent
    modifies niri`layoutCalls, t`pending, t`configures, t`initialConfigureSent
    ensures |t.configures| == |old(t.configures)| + 1
    ensures t.configures[|t.configures| - 1].decorationMode == Some(mode)
  {
    niri.RequestMode(t, mode);
    assert t.configures == old(t.configures);
    niri.SendInitialConfigureIfNeeded(t);
  }
}
