# Lotus message router and window registry, in Dafny

Lotus runs web pages in native windows driven from Node.js. There are two halves:

- **The host (JavaScript).** There are two near-identical entry modules: `lotus.js` at the repository root and the published `packages/lotus-core/lotus.js`.
  - Each keeps a registry (a `Map`) from window id to `ServoWindow` object and an `ipcMain` event emitter.
  - Each lazily creates one native `App`.
  - Each decodes every buffer the native side posts to its callback. It then routes the buffer:
    - to `ipcMain` (app readiness and renderer IPC);
    - to one window object (`ready`, `load-status`, `frame-ready`, `window-closed`);
    - or nowhere.
- **The engine (Rust, `packages/lotus-core/src/lib.rs`).** An event loop that keeps its own window table.
  - `user_event` applies the commands posted by JavaScript and by the IPC server.
  - `window_event` reacts to window-system events: close, resize, move, focus, pointer moves and presses. For frameless windows it hit-tests the resize border and the drag regions.
  - A small HTTP server turns renderer requests into event-loop commands.
  - `window_state.rs` persists window geometry between runs.

The Dafny modules follow that split:

| file | module | what it holds |
|---|---|---|
| `wrappers.dfy` | `Wrappers` | `Option`, `Result` |
| `values.dfy` | `Values` | decoded JavaScript values, truthiness, property reads, template-literal strings |
| `host_config.dfy` | `HostConfig` | option defaults and merge, the `root` rewrite, the application identifier, the renderer codec source |
| `host_router.dfy` | `HostRouter` | what the callback does with one decoded message: the reference definition `Route` and its properties |
| `host_runtime.dfy` | `HostRuntime` | class `Host`: the registry with its iteration order, the listener tables, `ensureApp`, `new ServoWindow`, the callback, `ipcMain.send`, the window methods |
| `hit_test.dfy` | `HitTest` | the 8-pixel border cascades and the region loops |
| `drag_regions.dfy` | `DragRegions` | parsing of drag-region reports |
| `window_state.dfy` | `WindowStates` | class `WindowStateManager` |
| `engine.dfy` | `Engine` | class `LotusApp`: `user_event`, `window_event`, the messages posted to JavaScript |
| `ipc_server.dfy` | `IpcServer` | one iteration of the request loop |
| `integration.dfy` | `Integration` | what the host does with each message the engine builds |

The two host variants are one model with a `Variant` parameter. They differ in four places:

- the option defaults;
- the fourth `App` argument;
- `frame-ready` routing;
- whether a bare `[string, x]` array is one message or a batch.

Listener calls are traced one by one. A listener is known only by whether it throws, given by the parameter `throws` (see "## Left out"); the throw ends the callback's `try`, which logs it. The callback is proved against `Route`, and the batch loop against `BatchRun`.

The engine's window table, id map and callbacks are fields of `LotusApp`. Its methods state the new state exactly. Whatever winit, Servo and the file system report is a parameter. Whatever they are asked to do is recorded as an effect.

Behaviours of the code worth knowing, each stated by the model:

- **Bare `[string, x]` array.** The root module emits it once on `ipcMain`. The published package treats it as a batch, so it emits only when `x` is itself a two-element array, and then `x` is the pair (`BarePairByVariant`).
- **`frame-ready`.** The root module never routes it (`FrameReadyByVariant`).
- **Throwing `closed` listener.** A window is removed from the registry only when its `closed` listeners all return. A throwing listener leaves it registered (`ThrowingClosedListenerKeepsWindow`).
- **Reused ids.** A window created with an explicit `id` that is already registered replaces the registered object (`HostRuntime.Host.NewWindow`). Ids are not guaranteed fresh.
- **`load-status`.** The host forwards the status name as it arrives. It keeps no per-window load state.
- **Drag-region entries in `/batch`.** The server applies them and also forwards them to JavaScript with the rest of the raw batch, whatever the comment at `lib.rs:1669` says (`DragRegionReportReachesBothSides`).
- **`close()`.** A window closed from JavaScript (`CloseWindow`) is dropped from the engine's window table without any `window-closed` message. The JavaScript registry therefore keeps it, and the loop does not exit when it was the last window (`Engine.LotusApp.UserEvent`).
- **Saving window state.** `fs::write` truncates before writing, so a write that fails part-way leaves a file that no longer parses, and the next start loses every stored state (`WindowStates.ReloadAfterWrite`).

## Model

| member | source | states |
|---|---|---|
| HostConfig.Defaults | lotus.js:157-171 | the defaults contain `root: undefined` and `index: 'index.html'`, and no `initialUrl` |
| HostConfig.PackageDefaultsExtendRoot | packages/lotus-core/lotus.js:186-202 | the package's defaults are the root module's plus `transparent: false` and `visible: true` |
| HostConfig.EffectiveOptions | packages/lotus-core/lotus.js:182-217 | a URL string becomes `{initialUrl}`; supplied keys override defaults key by key; a truthy `root` is made absolute and forces `initialUrl` to `lotus-resource://localhost/<index>`; a truthy non-string root is an error; the root module does the same over its own defaults |
| HostConfig.UrlArgumentKeepsDefaults | packages/lotus-core/lotus.js:182-204 | a bare URL yields exactly the defaults plus that `initialUrl` |
| HostConfig.RootOverridesInitialUrl | packages/lotus-core/lotus.js:206-217 | with a string root, an explicit `initialUrl` is overridden by the resource URL of `index`, and the root becomes absolute |
| HostConfig.AppIdentifier | packages/lotus-core/lotus.js:67-81 | `appId`, else `name`, else `'lotus'`, the last also for a missing, unreadable or null manifest; the result is always truthy |
| HostConfig.CodecSource | packages/lotus-core/lotus.js:83-107 | the minified codec text when found, otherwise the stub comment |
| HostRouter.CallAll | packages/lotus-core/lotus.js:118 | `emit` calls listeners in registration order with the same arguments; a throw ends it after the throwing listener; without a throw every listener runs once |
| HostRouter.AppReadyIgnoresRegistry | packages/lotus-core/lotus.js:116-120 | `app-ready` goes to `ipcMain`'s `ready` listeners with the whole message, whatever the registry holds |
| HostRouter.UnknownWindowIsSilent | packages/lotus-core/lotus.js:122-158 | a window event for an unregistered id runs nothing, removes nothing and does not throw |
| HostRouter.WindowEventStaysOnItsWindow | packages/lotus-core/lotus.js:122-158 | a window event for a registered id runs only that window's listeners, and removes an entry only for `window-closed` without a throw |
| HostRouter.LoadStatusForwardsStatus | packages/lotus-core/lotus.js:135-145 | `load-status` passes `msg.status` unchanged to the registered window |
| HostRouter.ClosedWindowIsForgotten | packages/lotus-core/lotus.js:152-158 | after a `window-closed` removed X, any later window event for X is dropped |
| HostRouter.ThrowingClosedListenerKeepsWindow | lotus.js:118-125 | a throwing `closed` listener skips `windows.delete`, so the window stays registered |
| HostRouter.FrameReadyByVariant | packages/lotus-core/lotus.js:147-150 | the package emits `frame-ready` on the window; the root module drops it |
| HostRouter.BarePairByVariant | packages/lotus-core/lotus.js:160-168 | `[channel, x]` is one `ipcMain` emit in the root module (`lotus.js:128-138`), for any `x`; the package treats it as a batch, which runs exactly `x` as a pair, so nothing when `x` is not a two-element array |
| HostRouter.OtherMessagesDropped | packages/lotus-core/lotus.js:160-168 | any other non-array message runs nothing |
| HostRouter.CodecFailuresAreContained | packages/lotus-core/lotus.js:110-113 | without msgpackr every buffer is a no-op; an undecodable buffer is only logged |
| HostRouter.ExceptionIsLoggedLast | packages/lotus-core/lotus.js:169-171 | a caught exception is logged once, after everything that ran before it |
| HostRouter.BatchConcat | packages/lotus-core/lotus.js:163-167 | a batch runs as its two halves one after the other |
| HostRouter.BatchAbortsAfterThrow | packages/lotus-core/lotus.js:163-171 | once an emit in a batch throws, the rest of the batch is skipped |
| HostRouter.BatchEndsAtThrow | packages/lotus-core/lotus.js:163-171 | a batch whose element i throws ends with the effects up to and including element i |
| HostRouter.BatchSkipsNonPairs | packages/lotus-core/lotus.js:163-167 | elements that are not two-element arrays contribute nothing |
| HostRouter.BatchInvokesOncePerPair | packages/lotus-core/lotus.js:163-167 | with one listener per channel and no throw, a batch makes exactly one call per pair, in order, with that pair's channel and payload |
| HostRouter.Pairs | packages/lotus-core/lotus.js:164 | the pairs kept from a batch are two-element arrays taken from it |
| HostRouter.PairsAppend | packages/lotus-core/lotus.js:163-167 | keeping the pairs commutes with concatenation, so the pairs keep the batch's order |
| HostRouter.EveryPairKept | packages/lotus-core/lotus.js:163-167 | every two-element array of a batch is kept |
| HostRuntime.CodecArgument | packages/lotus-core/lotus.js:172 | only the package passes a codec source to `App`, and it is the looked-up source |
| HostRuntime.RequestedId | packages/lotus-core/src/lib.rs:1747 | the native side uses `options.id` exactly when it is a string |
| HostRuntime.SendEffects | packages/lotus-core/lotus.js:44-49 | one `sendToRenderer(channel, data)` per registered window, in registry order |
| HostRuntime.SendReachesEachWindowOnce | packages/lotus-core/lotus.js:44-49 | `ipcMain.send` reaches every registered window exactly once and nothing else |
| HostRuntime.Host.constructor | packages/lotus-core/lotus.js:59-61 | a loaded module has no app, no windows and no listeners |
| HostRuntime.Host.On | packages/lotus-core/lotus.js:39-42 | a new listener goes last in its event's list on its emitter; every other list is unchanged |
| HostRuntime.Host.EnsureApp | packages/lotus-core/lotus.js:63-175 | the `App` is constructed once, with the app identifier and the variant's codec argument; later calls return the same app and do nothing |
| HostRuntime.Host.NewWindow | packages/lotus-core/lotus.js:178-222 | ensures the app, then either fails on a bad root, or requests a window with the effective options and registers the new object under the handle id (new ids go last in the order, an existing id keeps its place and is overwritten); the registry invariant is kept; the root module's constructor is the same |
| HostRuntime.Host.Forget | packages/lotus-core/lotus.js:155 | `windows.delete(id)` removes exactly that key from the registry and its order |
| HostRuntime.Host.OnBuffer | packages/lotus-core/lotus.js:109-172 | the callback's trace and registry change are exactly those of `Receive` on the decoded buffer, in either variant |
| HostRuntime.Host.Dispatch | packages/lotus-core/lotus.js:115-168 | a decoded non-null message has exactly the effects and registry change `Route` gives it |
| HostRuntime.Host.DispatchBatch | packages/lotus-core/lotus.js:161-168 | the `forEach` loop appends exactly the effects of `BatchRun`, then the log line if an emit threw |
| HostRuntime.Host.Send | packages/lotus-core/lotus.js:44-49 | the loop over `windows.values()` appends `SendEffects` of the registry order |
| HostRuntime.Host.CallHandle | packages/lotus-core/lotus.js:224-259 | each window method forwards its call to the handle of that window; `show`/`hide` throw on the root module's windows, which lack them |
| HostRuntime.Host.Quit | packages/lotus-core/lotus.js:265-267 | `app.quit()` asks for quit only when an app exists |
| HitTest.ResizeDirection | packages/lotus-core/src/lib.rs:1349-1366 | a direction is chosen exactly inside the border zone, and the chosen zone holds |
| HitTest.CascadeFollowsPriority | packages/lotus-core/src/lib.rs:1349-1366 | the cascade picks the first zone in the order NW, NE, SW, SE, W, E, N, S |
| HitTest.ResizeCursor | packages/lotus-core/src/lib.rs:1277-1295 | a resize cursor is chosen exactly inside the border zone, and never the default cursor |
| HitTest.CursorAgreesWithDirection | packages/lotus-core/src/lib.rs:1277-1366 | at every point the hover cursor is the cursor of the direction a press would resize in |
| HitTest.HitsAny | packages/lotus-core/src/lib.rs:1254-1260 | the loop with `break` is true exactly when some region contains the point |
| HitTest.DragHit | packages/lotus-core/src/lib.rs:1383-1400 | the nested loop is true exactly when some drag region contains the point and no no-drag region does |
| DragRegions.RectOf | packages/lotus-core/src/lib.rs:453-462 | an entry yields a rectangle exactly when x, y, width and height are all numbers, built from those four |
| DragRegions.Entries | packages/lotus-core/src/lib.rs:451 | an absent or non-array key gives no entries |
| DragRegions.RectsAppend | packages/lotus-core/src/lib.rs:452-464 | parsing is compositional over concatenation |
| DragRegions.RectsComeFromEntries | packages/lotus-core/src/lib.rs:452-464 | at most one rectangle per entry, each from some entry |
| DragRegions.WellFormedEntriesAllKept | packages/lotus-core/src/lib.rs:452-464 | with all entries well formed, rectangle i is entry i's |
| DragRegions.CollectRects | packages/lotus-core/src/lib.rs:452-464 | the push loop computes `Rects` |
| DragRegions.ParseDragRegions | packages/lotus-core/src/lib.rs:447-481 | the two lists are the rectangles of `drag` and of `noDrag` |
| WindowStates.LoadFromDisk | packages/lotus-core/src/window_state.rs:50-59 | a parsed file's table, and an empty table on any failure |
| WindowStates.NoConfigDirUsesWorkingDirectory | packages/lotus-core/src/window_state.rs:23-26 | without a config directory the file is `./<app id>/window-state.json` |
| WindowStates.AbsoluteAppIdReplacesConfigDir | packages/lotus-core/src/window_state.rs:23-26 | an absolute app identifier replaces the config directory |
| WindowStates.WindowStateManager.constructor | packages/lotus-core/src/window_state.rs:22-39 | the path is built from the config dir and app id; the file is as found and the states are what it held |
| WindowStates.WindowStateManager.SaveWindowState | packages/lotus-core/src/window_state.rs:41-44 | the key is set to the state and every other key is kept; the file afterwards is the whole table after a complete write, unchanged when it could not be created, and unparsable when the write failed after truncating; after a complete write, reloading gives the table back |
| WindowStates.ReloadAfterWrite | packages/lotus-core/src/window_state.rs:50-65 | reloading after a save gives the table written, nothing at all after a write cut short, and the old contents after a failed create |
| WindowStates.WindowStateManager.GetWindowState | packages/lotus-core/src/window_state.rs:46-48 | a state is returned exactly for a stored key, and it is the stored one |
| Engine.WindowIdFor | packages/lotus-core/src/lib.rs:1747 | the handle id is the requested id, else a fresh UUID |
| Engine.CreateWindowCommand | packages/lotus-core/src/lib.rs:1746-1756 | the posted command carries the options and the same id as the returned handle |
| Engine.UpdateDragRegionsCall | packages/lotus-core/src/lib.rs:444-487 | a report that parses posts exactly one region update for the handle's window; one that does not parse posts nothing |
| Engine.StatusName | packages/lotus-core/src/lib.rs:609-613 | every load status has one of the three names |
| Engine.StatusNamesDistinct | packages/lotus-core/src/lib.rs:609-613 | JavaScript can tell the three load states apart |
| Engine.ResizedMessage | packages/lotus-core/src/lib.rs:1238-1246 | the message carries `resized`, the window id and the new size |
| Engine.MovedMessage | packages/lotus-core/src/lib.rs:1438-1448 | the message carries `moved`, the window id and the position |
| Engine.LoadStatusMessage | packages/lotus-core/src/lib.rs:615-619 | the message carries `load-status`, the window id and the status name |
| Engine.AppReadyMessage | packages/lotus-core/src/lib.rs:1720-1727 | the message carries `app-ready`, the server port and the token |
| Engine.LoadStatusCommand | packages/lotus-core/src/lib.rs:615-623 | a load-status change is posted to the loop as an `IpcMessage` for that window |
| Engine.FrameReadyCommand | packages/lotus-core/src/lib.rs:626-638 | a new frame posts a frame-ready `IpcMessage` for that window |
| Engine.AttrsFor | packages/lotus-core/src/lib.rs:863-894 | new windows open hidden, decorated unless frameless; with `restoreState` and a stored state, the stored size and position win |
| Engine.ClosedGeometryIsRestored | packages/lotus-core/src/lib.rs:884-894 | a window reopened under the id it closed with gets the size and position saved at close |
| Engine.StartUrl | packages/lotus-core/src/lib.rs:991-998 | the web view starts on `initialUrl` exactly when it parses |
| Engine.OpOf | packages/lotus-core/src/lib.rs:1053-1146 | every simple window command has an operation, except `LoadUrl` with an unparsable URL |
| Engine.ClosingState | packages/lotus-core/src/lib.rs:1192-1201 | the saved state is the current size and maximized flag, the position or the origin, and never fullscreen |
| Engine.AfterCursorMoved | packages/lotus-core/src/lib.rs:1248-1314 | records the position; the move always reaches the page last; on frameless windows the border flag holds exactly outside no-drag regions inside the border, resize cursors follow `ResizeCursor`, whenever the pointer ends in the border a resize cursor is set; the default cursor is set only when leaving the border; nothing else happens |
| Engine.AfterMouseInput | packages/lotus-core/src/lib.rs:1315-1420 | a resize starts exactly on a frameless left press outside no-drag regions in the border, in the `ResizeDirection` direction; a drag starts exactly on one in a drag region off the border; either way the page gets a release instead of the press and the gesture is the last thing done; every other input is forwarded as it is |
| Engine.NoDragRegionKeepsPressInPage | packages/lotus-core/src/lib.rs:1332-1341 | a press inside a no-drag region is always delivered to the page |
| Engine.LotusApp.constructor | packages/lotus-core/src/lib.rs:784-797 | the loop starts with empty tables |
| Engine.LotusApp.CreateWindowCmd | packages/lotus-core/src/lib.rs:830-1046 | on success, registers the window under its id and windowing id, records the root, opens and shows it as requested, and posts `ready`; on failure, changes no table and posts nothing |
| Engine.LotusApp.UserEvent | packages/lotus-core/src/lib.rs:822-1152 | each command's effect on the tables, the callbacks and the native windows; commands for unknown windows do nothing; `Quit` requests exit |
| Engine.LotusApp.WindowCommand | packages/lotus-core/src/lib.rs:1053-1146 | a simple command acts on its window only when the window exists |
| Engine.LotusApp.OnCursorMoved | packages/lotus-core/src/lib.rs:1248-1314 | the arm computes exactly `AfterCursorMoved` |
| Engine.LotusApp.OnMouseInput | packages/lotus-core/src/lib.rs:1315-1420 | the arm computes exactly `AfterMouseInput` |
| Engine.LotusApp.WindowEvent | packages/lotus-core/src/lib.rs:1154-1463 | events for untracked windows change nothing; a close request saves the geometry, posts `window-closed`, forgets the window in both maps and requests exit when none remain; resize, move and focus are posted; pointer input follows the hit-test functions; every tracked window stays closable |
| IpcServer.HeaderValue | packages/lotus-core/src/lib.rs:1593-1595 | the value of the first header whose name matches ignoring ASCII case, and none when no name matches |
| IpcServer.TrimPrefixAll | packages/lotus-core/src/lib.rs:1610 | `trim_start_matches` leaves a suffix of the input that no longer starts with the prefix |
| IpcServer.ChannelOf | packages/lotus-core/src/lib.rs:1610-1611 | the channel is the percent-decoded rest of the URL, or the raw rest when decoding fails |
| IpcServer.SingleMessage | packages/lotus-core/src/lib.rs:1616-1620 | one message is wrapped as a one-element batch `[[channel, bytes]]` |
| IpcServer.InterceptedMatchesDragEntries | packages/lotus-core/src/lib.rs:1628-1672 | exactly the drag-region entries of a batch become region updates, in order, for the request's window |
| IpcServer.NoDragEntriesNoUpdates | packages/lotus-core/src/lib.rs:1628-1674 | a batch without drag-region entries causes no region update |
| IpcServer.InterceptDragRegions | packages/lotus-core/src/lib.rs:1629-1672 | the interception loop computes `Intercepted` |
| IpcServer.ResourceResponse | packages/lotus-core/src/lib.rs:1679-1694 | 200 with the file exactly when it is a file that opens; 404 when it is not a file |
| IpcServer.ResourcePathKeepsParentSegments | packages/lotus-core/src/lib.rs:1680-1682 | `..` segments reach the file system unchanged |
| IpcServer.HandleRequest | packages/lotus-core/src/lib.rs:1580-1698 | preflight answered without a token check; no token means 401 and nothing posted; `/ipc/` posts one wrapped message; `/batch` posts the region updates, then the raw body; anything else posts nothing |
| Integration.IpcPostReachesChannelListeners | packages/lotus-core/src/lib.rs:1609-1621 | a POST to `/ipc/<channel>` reaches exactly that channel's `ipcMain` listeners with the body bytes, in both variants |
| Integration.BatchPostDispatchesEachPair | packages/lotus-core/src/lib.rs:1676-1677 | a `/batch` body of pairs is dispatched pair by pair in both variants |
| Integration.DragRegionReportReachesBothSides | packages/lotus-core/src/lib.rs:1626-1677 | a drag-region report in a batch updates the engine and is also emitted on `ipcMain` |
| Integration.ReadyReachesItsWindow | packages/lotus-core/src/lib.rs:1038-1043 | the `ready` posted after creation reaches that window's `ready` listeners |
| Integration.LoadStatusReachesItsWindow | packages/lotus-core/src/lib.rs:615-623 | a load-status change reaches the window's listeners with the status name |
| Integration.FrameReadyReachesWindowOnlyInPackage | packages/lotus-core/src/lib.rs:630-637 | frame-ready reaches the window in the package and nothing in the root module |
| Integration.CloseRequestForgetsWindow | packages/lotus-core/src/lib.rs:1206-1209 | the close message runs `closed` and then unregisters the window unless a listener threw |
| Integration.GeometryReportsAreDropped | packages/lotus-core/src/lib.rs:1238-1246 | resize, move and focus reports are posted but routed nowhere |
| Integration.AppReadyCarriesPortAndToken | packages/lotus-core/src/lib.rs:1720-1727 | app-ready reaches `ipcMain`'s `ready` listeners carrying the port and token |

## Left out

- Conversions at the native boundary. This covers napi's argument type checks and the conversion of the options object into `WindowOptions`. The engine receives typed options.
- The root module calls `new App(cb, isProfiling, appIdentifier)` with three arguments, while `App::new` in `lib.rs` takes a fourth `msgpackr_source`. Which native build the root module loads (`index.js`) is not part of this model.
- EventEmitter details. This covers the special `'error'` event, listeners added or removed during an `emit`, `once`, and JavaScript property-key coercion of channel names (channels are compared as values).
- Floating point. Drag-region numbers are integers in `Values`. Coordinates are reals. f32/f64 rounding and the wheel multiplier and delta are not modelled: a wheel event carries only its position.
- Threads and locks. This covers `APP_STATE` being absent or its lock poisoned, the Servo spin and `Wake`, the 100-try wait for the server port, and the ordering between the server thread and the loop.
- Encodings and I/O:
  - the byte encodings of msgpack and JSON (`Payload` carries values; msgpackr's `unpack` is a parameter);
  - reading `package.json` and the codec file;
  - the file writes of the state store, modelled by a flag.
- Injected scripts. This covers the page scripts (IPC bootstrap, drag-region script, port/token/theme scripts) and the text of the script `SendToRenderer` evaluates. Notably, that text does not escape the channel name.
- Platform work:
  - the GLIBC re-exec;
  - theme detection and the Linux gsettings probe;
  - vibrancy and blur effects;
  - the winit `WindowAttributes` beyond title, size, position, decorations, visibility, transparency and WM class;
  - the cursor enum mapping to winit.
- Profiling output and timing, including every `[PROFILE]` log line.
- Template strings in the root module's and the package's log lines. Only the `initialUrl` template is modelled.
- `JSON.stringify` throwing or returning `undefined` in `sendToRenderer`. The call is recorded with the data value.
- HostRuntime.Host.NewWindow: a constructor argument that is neither a string nor an object (e.g. a number spread into the options) is not modelled.
- HostRuntime.Host.OnBuffer, HostRuntime.Host.Dispatch, HostRuntime.Host.DispatchBatch: listener bodies are opaque apart from whether they throw. They cannot touch the registry, send or create windows during a dispatch. The model therefore does not capture a `closed` listener that re-creates a window under the same id, which `windows.delete` (`packages/lotus-core/lotus.js:155`) then removes at once. Nor does it capture a `closed` listener that calls `ipcMain.send`, which still reaches the closing window.
- The `i32`/`u32` bounds of a stored window state are not enforced: positions and sizes are unbounded integers.
- `WindowOptions::default` in `lib.rs` is not used by the modelled paths.
- `WindowHandle`'s other methods (`loadUrl` to `focus`, `lib.rs:355-530`). Each only posts the matching command, which `Engine.Command` names. The JavaScript-to-command conversion is left out.
