/**
 * The native side's event loop state (`LotusApp`): the window table keyed
 * by window id, the map from the windowing system's ids to window ids, the
 * per-window root metadata, and what the loop hands back to JavaScript
 * (`callbacks`, the buffers given to the JS callback, in order) or does to
 * native windows (`effects`).  Servo, winit and the GPU context are left
 * abstract: what they report is a parameter (`CreationOutcome`, `Geometry`,
 * `inside`), what they are asked to do is an `Op`.
 */
module Engine {
  import opened Wrappers
  import opened Values
  import opened HitTest
  import opened WindowStates
  import opened DragRegions

  /** The windowing system's own window id. */
  type WinitId = nat

  /** The `WindowOptions` object `createWindow` receives. */
  datatype WindowOptions = WindowOptions(
    width: nat, height: nat, maximized: bool, fullscreen: bool, title: string,
    resizable: bool, frameless: bool, alwaysOnTop: bool, initialUrl: Option<string>,
    restoreState: bool, root: Option<string>, transparent: bool, visible: bool,
    id: Option<string>, wmClass: Option<string>)

  /**
   * A buffer for the JavaScript callback: a value that rmp_serde encodes
   * (the byte encoding itself is not modelled), or bytes passed through
   * unchanged from a renderer's request body.
   */
  datatype Payload = Packed(value: Value) | Raw(bytes: seq<Byte>)

  /** `EngineCommand`: what JavaScript and the IPC server send to the event loop. */
  datatype Command =
    | Wake
    | CreateWindow(options: WindowOptions, windowId: string)
    | Quit
    | LoadUrl(windowId: string, url: string)
    | SendToRenderer(windowId: string, channel: string, data: Value)
    | IpcMessage(windowId: string, payload: Payload)
    | Resize(windowId: string, width: nat, height: nat)
    | SetPosition(windowId: string, x: int, y: int)
    | SetAlwaysOnTop(windowId: string, flag: bool)
    | RequestAttention(windowId: string)
    | SetTitle(windowId: string, title: string)
    | CloseWindow(windowId: string)
    | SetDecorations(windowId: string, flag: bool)
    | ExecuteScript(windowId: string, script: string)
    | ShowWindow(windowId: string)
    | HideWindow(windowId: string)
    | UpdateDragRegions(windowId: string, drag: seq<Rect>, noDrag: seq<Rect>)
    | MinimizeWindow(windowId: string)
    | UnminimizeWindow(windowId: string)
    | MaximizeWindow(windowId: string)
    | UnmaximizeWindow(windowId: string)
    | FocusWindow(windowId: string)

  /** `create_window`: the handle's id is the requested id, or else a fresh UUID. */
  function WindowIdFor(requested: Option<string>, freshUuid: string): (id: string)
    ensures requested.Some? ==> id == requested.value
    ensures requested.None? ==> id == freshUuid
  {
    if requested.Some? then requested.value else freshUuid
  }

  /** The command `create_window` posts carries the options and the same id as the handle it returns. */
  function CreateWindowCommand(options: WindowOptions, freshUuid: string): (cmd: Command)
    ensures cmd.CreateWindow? && cmd.options == options
    ensures cmd.windowId == WindowIdFor(options.id, freshUuid)
  {
    CreateWindow(options, WindowIdFor(options.id, freshUuid))
  }

  /** The region update a drag-region report turns into, from the handle or from a `/batch` entry alike. */
  function DragRegionsCommand(windowId: string, data: Value): Command {
    UpdateDragRegions(windowId, Rects(Entries(data, "drag")), Rects(Entries(data, "noDrag")))
  }

  /**
   * The handle's `update_drag_regions(json)`: `parsed` is the JSON text
   * parsed, when it parses.  A report that parses posts one region update
   * for the handle's window; one that does not posts nothing.
   */
  method UpdateDragRegionsCall(windowId: string, parsed: Option<Value>) returns (cmds: seq<Command>)
    ensures parsed.None? <==> cmds == []
    ensures parsed.Some? ==> cmds == [DragRegionsCommand(windowId, parsed.value)]
  {
    cmds := [];
    if parsed.Some? {
      var drag, noDrag := ParseDragRegions(parsed.value);
      cmds := [UpdateDragRegions(windowId, drag, noDrag)];
    }
  }

  datatype ButtonAction = Down | Up

  datatype MouseButton = LeftButton | RightButton | MiddleButton | BackButton | ForwardButton | OtherButton(code: nat)

  /** Input events handed to the web view. */
  datatype Input =
    | MouseMove(at: Point)
    | MouseButtonInput(action: ButtonAction, button: MouseButton, at: Point)
    | WheelInput(at: Point)

  /** What the loop asks of one native window or its web view. */
  datatype Op =
    | Navigate(url: string)
    | EmitToRenderer(channel: string, data: Value)
    | ResizeWebView(width: nat, height: nat)
    | MoveWindow(x: int, y: int)
    | AlwaysOnTop(on: bool)
    | Attention
    | Title(title: string)
    | Decorations(on: bool)
    | RunScript(script: string)
    | Visible(on: bool)
    | Minimized(on: bool)
    | Maximized(on: bool)
    | Focus
    | ThemeScript(dark: bool)
    | RequestRedraw
    | Paint
    | SurfaceResized(width: nat, height: nat)
    | SetCursor(icon: CursorIcon)
    | Deliver(input: Input)
    | StartResize(direction: Direction)
    | StartDrag

  /** The attributes a native window is opened with. */
  datatype Attrs = Attrs(title: string, width: nat, height: nat, position: Option<(int, int)>,
                         decorations: bool, visible: bool, transparent: bool, wmClass: Option<string>)

  datatype NativeEffect =
    | OpenWindow(windowId: string, attrs: Attrs)
    | WebViewCreated(windowId: string, startUrl: Option<string>)
    | WindowOp(windowId: string, op: Op)

  /** The per-window input state of `WindowInstance`. */
  datatype Instance = Instance(frameless: bool, lastMousePos: Point, isMouseDown: bool,
                               dragRegions: seq<Rect>, noDragRegions: seq<Rect>, inResizeBorder: bool)

  function NewInstance(frameless: bool): Instance {
    Instance(frameless, Point(0.0, 0.0), false, [], [], false)
  }

  /** How the attempt to open a native window ends. */
  datatype CreationOutcome =
    | WindowFailed              // event_loop.create_window fails
    | ContextFailed             // the rendering context cannot be made
    | Created(winitId: WinitId)

  /** What the windowing system reports about a window when asked. */
  datatype Geometry = Geometry(position: Option<(int, int)>, width: nat, height: nat, maximized: bool)

  /** The window events the loop reacts to. */
  datatype WinEvent =
    | CloseRequested
    | RedrawRequested
    | Resized(width: nat, height: nat)
    | Moved(x: int, y: int)
    | Focused(focused: bool)
    | CursorMoved(at: Point)
    | MouseInput(pressed: bool, button: MouseButton)
    | MouseWheel
    | ThemeChanged(dark: bool)
    | OtherEvent

  datatype LoadStatus = Started | HeadParsed | Complete

  function StatusName(s: LoadStatus): (name: string)
    ensures name in {"started", "head-parsed", "complete"}
  {
    match s
    case Started => "started"
    case HeadParsed => "head-parsed"
    case Complete => "complete"
  }

  /** The JavaScript side can tell the three load states apart. */
  lemma StatusNamesDistinct(a: LoadStatus, b: LoadStatus)
    ensures StatusName(a) == StatusName(b) <==> a == b
  {
  }

  /** `{"event": event, "window_id": id}`. */
  function WindowMessage(event: string, id: string): (m: Value)
    ensures Get(m, "event") == Str(event) && Get(m, "window_id") == Str(id)
  {
    Obj(map["event" := Str(event), "window_id" := Str(id)])
  }

  function ReadyMessage(id: string): Value {
    WindowMessage("ready", id)
  }

  function ClosedMessage(id: string): Value {
    WindowMessage("window-closed", id)
  }

  function FrameReadyMessage(id: string): Value {
    WindowMessage("frame-ready", id)
  }

  function FocusMessage(id: string, focused: bool): Value {
    WindowMessage(if focused then "focused" else "unfocused", id)
  }

  function ResizedMessage(id: string, width: nat, height: nat): (m: Value)
    ensures Get(m, "event") == Str("resized") && Get(m, "window_id") == Str(id)
    ensures Get(m, "width") == Num(width) && Get(m, "height") == Num(height)
  {
    Obj(map["event" := Str("resized"), "window_id" := Str(id), "width" := Num(width), "height" := Num(height)])
  }

  function MovedMessage(id: string, x: int, y: int): (m: Value)
    ensures Get(m, "event") == Str("moved") && Get(m, "window_id") == Str(id)
    ensures Get(m, "x") == Num(x) && Get(m, "y") == Num(y)
  {
    Obj(map["event" := Str("moved"), "window_id" := Str(id), "x" := Num(x), "y" := Num(y)])
  }

  function LoadStatusMessage(id: string, status: LoadStatus): (m: Value)
    ensures Get(m, "event") == Str("load-status") && Get(m, "window_id") == Str(id)
    ensures Get(m, "status") == Str(StatusName(status))
  {
    Obj(map["event" := Str("load-status"), "window_id" := Str(id), "status" := Str(StatusName(status))])
  }

  /** The message the native side sends once its IPC server is up. */
  function AppReadyMessage(port: nat, token: string): (m: Value)
    ensures Get(m, "event") == Str("app-ready")
    ensures Get(m, "ipc_port") == Num(port) && Get(m, "ipc_token") == Str(token)
  {
    Obj(map["event" := Str("app-ready"), "ipc_port" := Num(port), "ipc_token" := Str(token)])
  }

  /** The web view delegate reports a load-status change through the loop, as an `IpcMessage`. */
  function LoadStatusCommand(id: string, status: LoadStatus): (cmd: Command)
    ensures cmd.IpcMessage? && cmd.windowId == id
    ensures cmd.payload == Packed(LoadStatusMessage(id, status))
  {
    IpcMessage(id, Packed(LoadStatusMessage(id, status)))
  }

  /** A new frame makes the delegate request a redraw and post a frame-ready message. */
  function FrameReadyCommand(id: string): (cmd: Command)
    ensures cmd.IpcMessage? && cmd.windowId == id && cmd.payload == Packed(FrameReadyMessage(id))
  {
    IpcMessage(id, Packed(FrameReadyMessage(id)))
  }

  /** The stored geometry of `id`, if any. */
  function SavedFor(states: StateTable, id: string): Option<WindowState> {
    if id in states then Some(states[id]) else None
  }

  /**
   * The window attributes of a new window: hidden, decorated unless
   * frameless; with `restoreState` and a stored state, the stored size and
   * position replace the requested size.
   */
  function AttrsFor(options: WindowOptions, saved: Option<WindowState>): (a: Attrs)
    ensures !a.visible && a.decorations == !options.frameless
    ensures a.title == options.title && a.transparent == options.transparent && a.wmClass == options.wmClass
    ensures options.restoreState && saved.Some? ==>
              a.width == saved.value.width && a.height == saved.value.height
              && a.position == Some((saved.value.x, saved.value.y))
    ensures !(options.restoreState && saved.Some?) ==>
              a.width == options.width && a.height == options.height && a.position.None?
  {
    var base := Attrs(options.title, options.width, options.height, None, !options.frameless, false,
                      options.transparent, options.wmClass);
    if options.restoreState && saved.Some? then
      base.(width := saved.value.width, height := saved.value.height,
            position := Some((saved.value.x, saved.value.y)))
    else base
  }

  /** The page a new web view starts on: `initialUrl`, when it parses as a URL. */
  function StartUrl(options: WindowOptions, urlParses: string -> bool): (u: Option<string>)
    ensures u.Some? <==> options.initialUrl.Some? && urlParses(options.initialUrl.value)
    ensures u.Some? ==> u == options.initialUrl
  {
    if options.initialUrl.Some? && urlParses(options.initialUrl.value) then options.initialUrl else None
  }

  /** Everything a successful `CreateWindow` does to native windows, in order. */
  function CreatedEffects(id: string, attrs: Attrs, options: WindowOptions, urlParses: string -> bool): seq<NativeEffect> {
    [OpenWindow(id, attrs), WebViewCreated(id, StartUrl(options, urlParses))]
    + (if options.visible then [WindowOp(id, Visible(true))] else [])
    + [WindowOp(id, RequestRedraw)]
  }

  /** The commands that perform one operation on an existing window and change no table. */
  predicate SimpleWindowCommand(cmd: Command) {
    cmd.LoadUrl? || cmd.SendToRenderer? || cmd.Resize? || cmd.SetPosition? || cmd.SetAlwaysOnTop?
    || cmd.RequestAttention? || cmd.SetTitle? || cmd.SetDecorations? || cmd.ExecuteScript?
    || cmd.ShowWindow? || cmd.HideWindow? || cmd.MinimizeWindow? || cmd.UnminimizeWindow?
    || cmd.MaximizeWindow? || cmd.UnmaximizeWindow? || cmd.FocusWindow?
  }

  /** The operation a simple window command performs; a URL that does not parse loads nothing. */
  function OpOf(cmd: Command, urlParses: string -> bool): (op: Option<Op>)
    requires SimpleWindowCommand(cmd)
    ensures op.None? <==> cmd.LoadUrl? && !urlParses(cmd.url)
  {
    match cmd
    case LoadUrl(_, url) => if urlParses(url) then Some(Navigate(url)) else None
    case SendToRenderer(_, channel, data) => Some(EmitToRenderer(channel, data))
    case Resize(_, w, h) => Some(ResizeWebView(w, h))
    case SetPosition(_, x, y) => Some(MoveWindow(x, y))
    case SetAlwaysOnTop(_, flag) => Some(AlwaysOnTop(flag))
    case RequestAttention(_) => Some(Attention)
    case SetTitle(_, title) => Some(Title(title))
    case SetDecorations(_, flag) => Some(Decorations(flag))
    case ExecuteScript(_, script) => Some(RunScript(script))
    case ShowWindow(_) => Some(Visible(true))
    case HideWindow(_) => Some(Visible(false))
    case MinimizeWindow(_) => Some(Minimized(true))
    case UnminimizeWindow(_) => Some(Minimized(false))
    case MaximizeWindow(_) => Some(Maximized(true))
    case UnmaximizeWindow(_) => Some(Maximized(false))
    case FocusWindow(_) => Some(Focus)
  }

  /** The geometry recorded when a window is closed; fullscreen is always stored as false. */
  function ClosingState(geom: Geometry): (s: WindowState)
    ensures s.width == geom.width && s.height == geom.height && s.maximized == geom.maximized && !s.fullscreen
    ensures geom.position.Some? ==> (s.x, s.y) == geom.position.value
    ensures geom.position.None? ==> s.x == 0 && s.y == 0
  {
    match geom.position
    case Some(p) => WindowState(p.0, p.1, geom.width, geom.height, geom.maximized, false)
    case None => WindowState(0, 0, geom.width, geom.height, geom.maximized, false)
  }

  /**
   * A window reopened under the id it was closed with, asking to restore
   * its state, gets the size it was closed at and the position it had
   * (the origin when none was reported); the maximized flag is stored but
   * not applied.
   */
  lemma ClosedGeometryIsRestored(states: StateTable, id: string, geom: Geometry, options: WindowOptions)
    requires options.restoreState
    ensures var a := AttrsFor(options, SavedFor(states[id := ClosingState(geom)], id));
            a.width == geom.width && a.height == geom.height
            && a.position == Some(if geom.position.Some? then geom.position.value else (0, 0))
            && a.decorations == !options.frameless && !a.visible
  {
  }

  /**
   * CursorMoved on a window of `w` by `h`: the pointer position is
   * recorded and always forwarded to the page; on a frameless window the
   * cursor shows the resize direction inside the border, and is reset to
   * the default only when leaving the border (or entering a no-drag region
   * from it).
   */
  function AfterCursorMoved(inst: Instance, p: Point, w: real, h: real, inside: (Rect, Point) -> bool)
    : (r: (Instance, seq<Op>))
    ensures r.0 == inst.(lastMousePos := p, inResizeBorder := r.0.inResizeBorder)
    ensures inst.frameless ==>
              (r.0.inResizeBorder <==> !AnyContains(inst.noDragRegions, p, inside) && InBorderZone(p.x, p.y, w, h))
    ensures !inst.frameless ==> r.0.inResizeBorder == inst.inResizeBorder && r.1 == [Deliver(MouseMove(p))]
    ensures |r.1| >= 1 && r.1[|r.1| - 1] == Deliver(MouseMove(p))
    ensures SetCursor(DefaultCursor) in r.1 <==> inst.frameless && inst.inResizeBorder && !r.0.inResizeBorder
    ensures forall icon :: SetCursor(icon) in r.1 && icon != DefaultCursor ==>
              r.0.inResizeBorder && Some(icon) == ResizeCursor(p.x, p.y, w, h)
    ensures inst.frameless && r.0.inResizeBorder ==>
              ResizeCursor(p.x, p.y, w, h).Some? && SetCursor(ResizeCursor(p.x, p.y, w, h).value) in r.1
    ensures |r.1| <= 2
  {
    var moved := inst.(lastMousePos := p);
    var reset := if inst.inResizeBorder then [SetCursor(DefaultCursor)] else [];
    if !inst.frameless then (moved, [Deliver(MouseMove(p))])
    else if AnyContains(inst.noDragRegions, p, inside) then
      (moved.(inResizeBorder := false), reset + [Deliver(MouseMove(p))])
    else
      match ResizeCursor(p.x, p.y, w, h)
      case Some(icon) => (moved.(inResizeBorder := true), [SetCursor(icon), Deliver(MouseMove(p))])
      case None => (moved.(inResizeBorder := false), reset + [Deliver(MouseMove(p))])
  }

  /** A left press on a frameless window outside every no-drag region. */
  predicate FramelessPress(inst: Instance, pressed: bool, button: MouseButton, inside: (Rect, Point) -> bool) {
    pressed && button == LeftButton && inst.frameless
    && !AnyContains(inst.noDragRegions, inst.lastMousePos, inside)
  }

  /**
   * MouseInput on a window of `w` by `h`, at the last pointer position.  A
   * left press on a frameless window outside the no-drag regions starts an
   * OS resize inside the border, else an OS move inside a drag region; in
   * both cases the page receives a button release instead of the press.
   * Every other press or release is forwarded as it is.
   */
  function AfterMouseInput(inst: Instance, pressed: bool, button: MouseButton, w: real, h: real,
                           inside: (Rect, Point) -> bool): (r: (Instance, seq<Op>))
    ensures r.0 == inst.(isMouseDown := r.0.isMouseDown)
    ensures var pos := inst.lastMousePos;
            (exists d :: StartResize(d) in r.1) <==> FramelessPress(inst, pressed, button, inside)
                                                       && InBorderZone(pos.x, pos.y, w, h)
    ensures forall d :: StartResize(d) in r.1 ==> Some(d) == ResizeDirection(inst.lastMousePos.x, inst.lastMousePos.y, w, h)
    ensures var pos := inst.lastMousePos;
            StartDrag in r.1 <==> FramelessPress(inst, pressed, button, inside) && !InBorderZone(pos.x, pos.y, w, h)
                                  && AnyContains(inst.dragRegions, pos, inside)
    ensures |r.1| >= 1 && r.1[0].Deliver? && r.1[0].input.MouseButtonInput?
    ensures r.1[0].input.button == button && r.1[0].input.at == inst.lastMousePos
    ensures r.0.isMouseDown <==> |r.1| == 1 && pressed
    ensures |r.1| == 1 ==> r.1[0].input.action == (if pressed then Down else Up)
    ensures |r.1| > 1 ==> r.1[0].input.action == Up
    ensures |r.1| > 1 ==> |r.1| == 2 && (r.1[1] == StartDrag || r.1[1].StartResize?)
  {
    var pos := inst.lastMousePos;
    var deliver := Deliver(MouseButtonInput(if pressed then Down else Up, button, pos));
    var released := Deliver(MouseButtonInput(Up, button, pos));
    if pressed && button == LeftButton && inst.frameless then
      var noDrag := AnyContains(inst.noDragRegions, pos, inside);
      var dir := if noDrag then None else ResizeDirection(pos.x, pos.y, w, h);
      if dir.Some? then (inst.(isMouseDown := false), [released, StartResize(dir.value)])
      else if AnyContains(inst.dragRegions, pos, inside) && !noDrag then
        (inst.(isMouseDown := false), [released, StartDrag])
      else (inst.(isMouseDown := true), [deliver])
    else (inst.(isMouseDown := pressed), [deliver])
  }

  /** A press inside a no-drag region is always the page's: no OS gesture starts. */
  lemma NoDragRegionKeepsPressInPage(inst: Instance, pressed: bool, button: MouseButton, w: real, h: real,
                                     inside: (Rect, Point) -> bool)
    requires AnyContains(inst.noDragRegions, inst.lastMousePos, inside)
    ensures AfterMouseInput(inst, pressed, button, w, h, inside).1
            == [Deliver(MouseButtonInput(if pressed then Down else Up, button, inst.lastMousePos))]
  {
  }

  /** The effects of a list of operations on one window. */
  function OpsOn(id: string, ops: seq<Op>): (es: seq<NativeEffect>)
    ensures |es| == |ops|
    ensures forall i :: 0 <= i < |ops| ==> es[i] == WindowOp(id, ops[i])
  {
    seq(|ops|, i requires 0 <= i < |ops| => WindowOp(id, ops[i]))
  }

  /** The windowing system id `w` belongs to a window the loop still tracks. */
  predicate Tracked(ids: map<WinitId, string>, windows: map<string, Instance>, w: WinitId) {
    w in ids && ids[w] in windows
  }

  /** A fresh windowing-system id adds exactly its window id to the mapped ids. */
  lemma ValuesAfterInsert(m: map<WinitId, string>, w: WinitId, id: string)
    requires w !in m
    ensures m[w := id].Values == m.Values + {id}
  {
    forall u | u in m.Values + {id}
      ensures u in m[w := id].Values
    {
      if u != id {
        var v :| v in m && m[v] == u;
        assert m[w := id][v] == u;
      } else {
        assert m[w := id][w] == id;
      }
    }
  }

  /** Forgetting one windowing-system id keeps every other window id mapped. */
  lemma ValuesAfterRemove(m: map<WinitId, string>, w: WinitId)
    requires w in m
    ensures m.Values - {m[w]} <= (m - {w}).Values
  {
    forall u | u in m.Values - {m[w]}
      ensures u in (m - {w}).Values
    {
      var v :| v in m && m[v] == u;
      assert (m - {w})[v] == u;
    }
  }

  class LotusApp {
    var windows: map<string, Instance>
    var winitToUuid: map<WinitId, string>
    /** `window_metadata`: the resource root of each created window. */
    var metadata: map<string, Option<string>>
    var callbacks: seq<Payload>
    var effects: seq<NativeEffect>
    var exitRequested: bool
    const store: WindowStateManager

    /** Every tracked window can still receive window events, so it can be closed. */
    ghost predicate Valid()
      reads this
    {
      forall u :: u in windows ==> u in winitToUuid.Values
    }

    constructor (store: WindowStateManager)
      ensures Valid()
      ensures windows == map[] && winitToUuid == map[] && metadata == map[]
      ensures callbacks == [] && effects == [] && !exitRequested && this.store == store
    {
      windows := map[];
      winitToUuid := map[];
      metadata := map[];
      callbacks := [];
      effects := [];
      exitRequested := false;
      this.store := store;
    }

    /**
     * The `CreateWindow` arm of `user_event`.  winit gives every window it
     * creates a new `WindowId`, so the id map never already holds it; were
     * it to, the source's `insert` would overwrite that entry.
     */
    method CreateWindowCmd(options: WindowOptions, id: string, outcome: CreationOutcome, urlParses: string -> bool)
      requires Valid()
      requires outcome.Created? ==> outcome.winitId !in winitToUuid
      modifies this
      ensures Valid()
      ensures exitRequested == old(exitRequested)
      ensures var attrs := AttrsFor(options, if options.restoreState then SavedFor(store.states, id) else None);
              if outcome.Created? then
                windows == old(windows)[id := NewInstance(options.frameless)]
                && winitToUuid == old(winitToUuid)[outcome.winitId := id]
                && metadata == old(metadata)[id := options.root]
                && callbacks == old(callbacks) + [Packed(ReadyMessage(id))]
                && effects == old(effects) + CreatedEffects(id, attrs, options, urlParses)
              else
                windows == old(windows) && winitToUuid == old(winitToUuid) && metadata == old(metadata)
                && callbacks == old(callbacks) && effects == old(effects) + [OpenWindow(id, attrs)]
    {
      var saved := None;
      if options.restoreState {
        saved := store.GetWindowState(id);
      }
      var attrs := AttrsFor(options, saved);
      if !outcome.Created? {
        effects := effects + [OpenWindow(id, attrs)];
        return;
      }
      ValuesAfterInsert(winitToUuid, outcome.winitId, id);
      windows := windows[id := NewInstance(options.frameless)];
      winitToUuid := winitToUuid[outcome.winitId := id];
      metadata := metadata[id := options.root];
      effects := effects + CreatedEffects(id, attrs, options, urlParses);
      callbacks := callbacks + [Packed(ReadyMessage(id))];
    }

    /**
     * `user_event`: one command from JavaScript or the IPC server.  A
     * created window's winit id is new, as in `CreateWindowCmd`.
     */
    method UserEvent(cmd: Command, outcome: CreationOutcome, urlParses: string -> bool)
      requires Valid()
      requires cmd.CreateWindow? && outcome.Created? ==> outcome.winitId !in winitToUuid
      modifies this
      ensures Valid()
      ensures !cmd.CreateWindow? ==> winitToUuid == old(winitToUuid) && metadata == old(metadata)
      ensures cmd.Wake? ==> windows == old(windows) && callbacks == old(callbacks) && effects == old(effects)
                            && exitRequested == old(exitRequested)
      ensures cmd.Quit? ==> exitRequested && windows == old(windows) && callbacks == old(callbacks)
                            && effects == old(effects)
      ensures cmd.IpcMessage? ==> callbacks == old(callbacks) + [cmd.payload] && windows == old(windows)
                                  && effects == old(effects) && exitRequested == old(exitRequested)
      ensures cmd.CloseWindow? ==> windows == old(windows) - {cmd.windowId} && callbacks == old(callbacks)
                                   && effects == old(effects) && exitRequested == old(exitRequested)
      ensures cmd.UpdateDragRegions? ==>
                callbacks == old(callbacks) && effects == old(effects) && exitRequested == old(exitRequested)
                && windows == if cmd.windowId in old(windows)
                              then old(windows)[cmd.windowId := old(windows)[cmd.windowId].(
                                     dragRegions := cmd.drag, noDragRegions := cmd.noDrag)]
                              else old(windows)
      ensures SimpleWindowCommand(cmd) ==>
                windows == old(windows) && callbacks == old(callbacks) && exitRequested == old(exitRequested)
                && effects == old(effects) + (if cmd.windowId in old(windows) && OpOf(cmd, urlParses).Some?
                                              then [WindowOp(cmd.windowId, OpOf(cmd, urlParses).value)] else [])
      ensures cmd.CreateWindow? ==>
                exitRequested == old(exitRequested)
                && var attrs := AttrsFor(cmd.options, if cmd.options.restoreState
                                                      then SavedFor(store.states, cmd.windowId) else None);
                if outcome.Created? then
                  windows == old(windows)[cmd.windowId := NewInstance(cmd.options.frameless)]
                  && winitToUuid == old(winitToUuid)[outcome.winitId := cmd.windowId]
                  && metadata == old(metadata)[cmd.windowId := cmd.options.root]
                  && callbacks == old(callbacks) + [Packed(ReadyMessage(cmd.windowId))]
                  && effects == old(effects) + CreatedEffects(cmd.windowId, attrs, cmd.options, urlParses)
                else
                  windows == old(windows) && winitToUuid == old(winitToUuid) && metadata == old(metadata)
                  && callbacks == old(callbacks) && effects == old(effects) + [OpenWindow(cmd.windowId, attrs)]
    {
      if cmd.CreateWindow? {
        CreateWindowCmd(cmd.options, cmd.windowId, outcome, urlParses);
      } else if cmd.Quit? {
        exitRequested := true;
      } else if cmd.IpcMessage? {
        callbacks := callbacks + [cmd.payload];
      } else if cmd.CloseWindow? {
        windows := windows - {cmd.windowId};
      } else if cmd.UpdateDragRegions? {
        var id := cmd.windowId;
        if id in windows {
          windows := windows[id := windows[id].(dragRegions := cmd.drag, noDragRegions := cmd.noDrag)];
        }
      } else if SimpleWindowCommand(cmd) {
        WindowCommand(cmd, urlParses);
      }
    }

    /** The arms of `user_event` that act on one existing window and are ignored for an unknown id. */
    method WindowCommand(cmd: Command, urlParses: string -> bool)
      requires SimpleWindowCommand(cmd)
      modifies this`effects
      ensures effects == old(effects) + (if cmd.windowId in windows && OpOf(cmd, urlParses).Some?
                                         then [WindowOp(cmd.windowId, OpOf(cmd, urlParses).value)] else [])
    {
      var op := OpOf(cmd, urlParses);
      if cmd.windowId in windows && op.Some? {
        effects := effects + [WindowOp(cmd.windowId, op.value)];
      }
    }

    /** The CursorMoved arm, on the tracked window `uuid`. */
    method OnCursorMoved(uuid: string, p: Point, geom: Geometry, inside: (Rect, Point) -> bool)
      requires uuid in windows
      modifies this`windows, this`effects
      ensures var r := AfterCursorMoved(old(windows)[uuid], p, geom.width as real, geom.height as real, inside);
              windows == old(windows)[uuid := r.0] && effects == old(effects) + OpsOn(uuid, r.1)
    {
      var inst := windows[uuid].(lastMousePos := p);
      var ops: seq<Op> := [];
      if inst.frameless {
        var hitNoDrag := HitsAny(inst.noDragRegions, p, inside);
        if hitNoDrag {
          if inst.inResizeBorder {
            ops := [SetCursor(DefaultCursor)];
            inst := inst.(inResizeBorder := false);
          }
        } else {
          var cursor := ResizeCursor(p.x, p.y, geom.width as real, geom.height as real);
          if cursor.Some? {
            ops := [SetCursor(cursor.value)];
            inst := inst.(inResizeBorder := true);
          } else {
            if inst.inResizeBorder {
              ops := [SetCursor(DefaultCursor)];
            }
            inst := inst.(inResizeBorder := false);
          }
        }
      }
      ops := ops + [Deliver(MouseMove(p))];
      windows := windows[uuid := inst];
      effects := effects + OpsOn(uuid, ops);
    }

    /** The MouseInput arm, on the tracked window `uuid`. */
    method OnMouseInput(uuid: string, pressed: bool, button: MouseButton, geom: Geometry,
                        inside: (Rect, Point) -> bool)
      requires uuid in windows
      modifies this`windows, this`effects
      ensures var r := AfterMouseInput(old(windows)[uuid], pressed, button, geom.width as real,
                                       geom.height as real, inside);
              windows == old(windows)[uuid := r.0] && effects == old(effects) + OpsOn(uuid, r.1)
    {
      var inst := windows[uuid].(isMouseDown := pressed);
      var pos := inst.lastMousePos;
      var ops: seq<Op> := [];
      if pressed && button == LeftButton && inst.frameless {
        var hitNoDrag := HitsAny(inst.noDragRegions, pos, inside);
        if !hitNoDrag {
          var dir := ResizeDirection(pos.x, pos.y, geom.width as real, geom.height as real);
          if dir.Some? {
            windows := windows[uuid := inst.(isMouseDown := false)];
            effects := effects + OpsOn(uuid, [Deliver(MouseButtonInput(Up, button, pos)), StartResize(dir.value)]);
            return;
          }
        }
        var hitDrag := DragHit(inst.dragRegions, inst.noDragRegions, pos, inside);
        if hitDrag {
          windows := windows[uuid := inst.(isMouseDown := false)];
          effects := effects + OpsOn(uuid, [Deliver(MouseButtonInput(Up, button, pos)), StartDrag]);
          return;
        }
      }
      windows := windows[uuid := inst];
      effects := effects + OpsOn(uuid, [Deliver(MouseButtonInput(if pressed then Down else Up, button, pos))]);
    }

    /**
     * `window_event`.  `geom` is what the windowing system reports about
     * the window, `inside` is `Rect::contains`, `write` how writing the
     * state file ends.
     */
    method WindowEvent(w: WinitId, ev: WinEvent, geom: Geometry, inside: (Rect, Point) -> bool, write: WriteResult)
      requires Valid()
      modifies this, store
      ensures Valid()
      ensures metadata == old(metadata)
      ensures !(Tracked(old(winitToUuid), old(windows), w) && ev.CloseRequested?) ==>
                winitToUuid == old(winitToUuid) && exitRequested == old(exitRequested)
                && store.states == old(store.states) && store.disk == old(store.disk)
      ensures !Tracked(old(winitToUuid), old(windows), w) ==>
                windows == old(windows) && callbacks == old(callbacks) && effects == old(effects)
      ensures Tracked(old(winitToUuid), old(windows), w) ==>
                var uuid := old(winitToUuid)[w];
                var inst := old(windows)[uuid];
                var (wd, ht) := (geom.width as real, geom.height as real);
                match ev
                case CloseRequested =>
                  store.states == old(store.states)[uuid := ClosingState(geom)]
                  && store.disk == AfterWrite(old(store.disk), store.states, write)
                  && callbacks == old(callbacks) + [Packed(ClosedMessage(uuid))]
                  && windows == old(windows) - {uuid}
                  && winitToUuid == old(winitToUuid) - {w}
                  && effects == old(effects)
                  && exitRequested == (old(exitRequested) || windows == map[])
                case RedrawRequested =>
                  windows == old(windows) && callbacks == old(callbacks) && effects == old(effects) + [WindowOp(uuid, Paint)]
                case Resized(width, height) =>
                  windows == old(windows) && callbacks == old(callbacks) + [Packed(ResizedMessage(uuid, width, height))]
                  && effects == old(effects) + OpsOn(uuid, [ResizeWebView(width, height), SurfaceResized(width, height)])
                case Moved(x, y) =>
                  windows == old(windows) && callbacks == old(callbacks) + [Packed(MovedMessage(uuid, x, y))]
                  && effects == old(effects)
                case Focused(focused) =>
                  windows == old(windows) && callbacks == old(callbacks) + [Packed(FocusMessage(uuid, focused))]
                  && effects == old(effects)
                case CursorMoved(p) =>
                  var r := AfterCursorMoved(inst, p, wd, ht, inside);
                  windows == old(windows)[uuid := r.0] && callbacks == old(callbacks)
                  && effects == old(effects) + OpsOn(uuid, r.1)
                case MouseInput(pressed, button) =>
                  var r := AfterMouseInput(inst, pressed, button, wd, ht, inside);
                  windows == old(windows)[uuid := r.0] && callbacks == old(callbacks)
                  && effects == old(effects) + OpsOn(uuid, r.1)
                case MouseWheel =>
                  windows == old(windows) && callbacks == old(callbacks)
                  && effects == old(effects) + [WindowOp(uuid, Deliver(WheelInput(inst.lastMousePos)))]
                case ThemeChanged(dark) =>
                  windows == old(windows) && callbacks == old(callbacks)
                  && effects == old(effects) + [WindowOp(uuid, ThemeScript(dark))]
                case OtherEvent =>
                  windows == old(windows) && callbacks == old(callbacks) && effects == old(effects)
    {
      if !(w in winitToUuid && winitToUuid[w] in windows) {
        return;
      }
      var uuid := winitToUuid[w];
      var inst := windows[uuid];
      match ev {
        case CloseRequested =>
          store.SaveWindowState(uuid, ClosingState(geom), write);
          callbacks := callbacks + [Packed(ClosedMessage(uuid))];
          ValuesAfterRemove(winitToUuid, w);
          windows := windows - {uuid};
          winitToUuid := winitToUuid - {w};
          if windows == map[] {
            exitRequested := true;
          }
        case RedrawRequested =>
          effects := effects + [WindowOp(uuid, Paint)];
        case Resized(width, height) =>
          effects := effects + OpsOn(uuid, [ResizeWebView(width, height), SurfaceResized(width, height)]);
          callbacks := callbacks + [Packed(ResizedMessage(uuid, width, height))];
        case Moved(x, y) =>
          callbacks := callbacks + [Packed(MovedMessage(uuid, x, y))];
        case Focused(focused) =>
          callbacks := callbacks + [Packed(FocusMessage(uuid, focused))];
        case CursorMoved(p) =>
          OnCursorMoved(uuid, p, geom, inside);
        case MouseInput(pressed, button) =>
          OnMouseInput(uuid, pressed, button, geom, inside);
        case MouseWheel =>
          effects := effects + [WindowOp(uuid, Deliver(WheelInput(inst.lastMousePos)))];
        case ThemeChanged(dark) =>
          effects := effects + [WindowOp(uuid, ThemeScript(dark))];
        case OtherEvent =>
      }
    }
  }
}
