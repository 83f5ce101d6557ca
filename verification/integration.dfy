/**
 * The two halves joined: what the native engine and its IPC server post
 * to the JavaScript callback, and what the host modules then do with it.
 * Each lemma takes a message exactly as the engine builds it and states
 * the host's reaction, in both host variants unless the variants differ.
 */
module Integration {
  import opened Wrappers
  import opened Values
  import opened HostConfig
  import opened HostRouter
  import Engine
  import IpcServer
  import HostRuntime

  /** The host's reaction to a payload the engine posted, once msgpackr is loaded. */
  function Handled(variant: Variant, payload: Engine.Payload, unpack: seq<Byte> -> Option<Value>,
                   windows: map<string, ServoWindow>, table: map<Target, Listeners>,
                   throws: Effect -> bool): Outcome
  {
    Receive(variant, true, HostRuntime.Decoded(payload, unpack), windows, table, throws)
  }

  /** A batch of one element runs that element. */
  lemma SingletonBatch(table: map<Target, Listeners>, item: Value, throws: Effect -> bool)
    ensures BatchRun(table, [item], throws) == PairRun(table, item, throws)
  {
    assert [item][..0] == [];
  }

  /**
   * A POST to `/ipc/<channel>` reaches exactly the `ipcMain` listeners of
   * that channel, with the body as an array of bytes, in both variants;
   * the registry is not consulted.
   */
  lemma IpcPostReachesChannelListeners(variant: Variant, channel: string, body: seq<Byte>,
                                       unpack: seq<Byte> -> Option<Value>, windows: map<string, ServoWindow>,
                                       table: map<Target, Listeners>, throws: Effect -> bool)
    ensures Handled(variant, Engine.Packed(IpcServer.SingleMessage(channel, body)), unpack, windows, table, throws)
            == Outcome(Emit(table, IpcMain, Str(channel), [Arr(IpcServer.ByteValues(body))], throws), None)
  {
    var m := IpcServer.SingleMessage(channel, body);
    SingletonBatch(table, m.items[0], throws);
  }

  /**
   * A `/batch` body that unpacks to an array of `[channel, data]` pairs is
   * dispatched pair by pair in both variants: the root module's special
   * case for a bare pair does not apply, because a batch's first element is
   * itself an array.
   */
  lemma BatchPostDispatchesEachPair(variant: Variant, body: seq<Byte>, items: seq<Value>,
                                    unpack: seq<Byte> -> Option<Value>, windows: map<string, ServoWindow>,
                                    table: map<Target, Listeners>, throws: Effect -> bool)
    requires unpack(body) == Some(Arr(items))
    requires forall i :: 0 <= i < |items| ==> IsPair(items[i])
    ensures Handled(variant, Engine.Raw(body), unpack, windows, table, throws) == Outcome(BatchRun(table, items, throws), None)
  {
    var msg := Arr(items);
    assert Get(msg, "event") == Undefined;
    assert |items| == 2 ==> !items[0].Str? by {
      if |items| == 2 {
        assert IsPair(items[0]);
      }
    }
    assert ArrayRun(variant, table, items, throws) == BatchRun(table, items, throws);
    assert Route(variant, windows, table, msg, throws) == Outcome(ArrayRun(variant, table, items, throws), None);
  }

  /**
   * A drag-region report sent through `/batch` is applied by the server
   * and still forwarded: the engine gets the region update, and the host
   * emits the report on `ipcMain` under the drag-region channel.
   */
  lemma DragRegionReportReachesBothSides(variant: Variant, windowId: string, data: Value, body: seq<Byte>,
                                         unpack: seq<Byte> -> Option<Value>, windows: map<string, ServoWindow>,
                                         table: map<Target, Listeners>, throws: Effect -> bool)
    requires unpack(body) == Some(Arr([Arr([Str(IpcServer.DragRegionsChannel), data])]))
    ensures IpcServer.Intercepted(windowId, [(IpcServer.DragRegionsChannel, data)])
            == [Engine.DragRegionsCommand(windowId, data)]
    ensures Handled(variant, Engine.Raw(body), unpack, windows, table, throws)
            == Outcome(Emit(table, IpcMain, Str(IpcServer.DragRegionsChannel), [data], throws), None)
  {
    var batch := [(IpcServer.DragRegionsChannel, data)];
    assert batch[..0] == [];
    SingletonBatch(table, Arr([Str(IpcServer.DragRegionsChannel), data]), throws);
  }

  /** The ready message posted after a window is created reaches that window's `ready` listeners. */
  lemma ReadyReachesItsWindow(variant: Variant, id: string, unpack: seq<Byte> -> Option<Value>,
                              windows: map<string, ServoWindow>, table: map<Target, Listeners>,
                              throws: Effect -> bool)
    requires id in windows
    ensures Handled(variant, Engine.Packed(Engine.ReadyMessage(id)), unpack, windows, table, throws)
            == Outcome(Emit(table, WindowObject(windows[id].ref), Str("ready"), [], throws), None)
  {
  }

  /** A load-status change reaches the window's `load-status` listeners with the status name. */
  lemma LoadStatusReachesItsWindow(variant: Variant, id: string, status: Engine.LoadStatus,
                                   unpack: seq<Byte> -> Option<Value>, windows: map<string, ServoWindow>,
                                   table: map<Target, Listeners>, throws: Effect -> bool)
    requires id in windows
    ensures var cmd := Engine.LoadStatusCommand(id, status);
            Handled(variant, cmd.payload, unpack, windows, table, throws)
            == Outcome(Emit(table, WindowObject(windows[id].ref), Str("load-status"),
                            [Str(Engine.StatusName(status))], throws), None)
  {
  }

  /** Frame-ready messages are emitted on the window by the published package and ignored by the root module. */
  lemma FrameReadyReachesWindowOnlyInPackage(id: string, unpack: seq<Byte> -> Option<Value>,
                                             windows: map<string, ServoWindow>, table: map<Target, Listeners>,
                                             throws: Effect -> bool)
    requires id in windows
    ensures var p := Engine.FrameReadyCommand(id).payload;
            Handled(CorePackage, p, unpack, windows, table, throws)
            == Outcome(Emit(table, WindowObject(windows[id].ref), Str("frame-ready"), [], throws), None)
            && Handled(RootModule, p, unpack, windows, table, throws) == Dropped
  {
  }

  /**
   * The window-closed message of a close request runs the window's `closed`
   * listeners and then deletes it from the registry, unless a listener threw.
   */
  lemma CloseRequestForgetsWindow(variant: Variant, id: string, unpack: seq<Byte> -> Option<Value>,
                                  windows: map<string, ServoWindow>, table: map<Target, Listeners>,
                                  throws: Effect -> bool)
    requires id in windows
    ensures var o := Handled(variant, Engine.Packed(Engine.ClosedMessage(id)), unpack, windows, table, throws);
            o.run == Emit(table, WindowObject(windows[id].ref), Str("closed"), [], throws)
            && o.removes == (if o.run.threw then None else Some(id))
  {
  }

  /**
   * Resize, move and focus reports are posted by the engine but neither
   * host module routes them: nothing runs and the registry is unchanged.
   */
  lemma GeometryReportsAreDropped(variant: Variant, id: string, width: nat, height: nat, x: int, y: int,
                                  focused: bool, unpack: seq<Byte> -> Option<Value>,
                                  windows: map<string, ServoWindow>, table: map<Target, Listeners>,
                                  throws: Effect -> bool)
    ensures Handled(variant, Engine.Packed(Engine.ResizedMessage(id, width, height)), unpack, windows, table, throws) == Dropped
    ensures Handled(variant, Engine.Packed(Engine.MovedMessage(id, x, y)), unpack, windows, table, throws) == Dropped
    ensures Handled(variant, Engine.Packed(Engine.FocusMessage(id, focused)), unpack, windows, table, throws) == Dropped
  {
  }

  /** The app-ready message reaches `ipcMain`'s `ready` listeners with the port and token in it. */
  lemma AppReadyCarriesPortAndToken(variant: Variant, port: nat, token: string, unpack: seq<Byte> -> Option<Value>,
                                    windows: map<string, ServoWindow>, table: map<Target, Listeners>,
                                    throws: Effect -> bool)
    ensures var m := Engine.AppReadyMessage(port, token);
            Handled(variant, Engine.Packed(m), unpack, windows, table, throws)
            == Outcome(Emit(table, IpcMain, Str("ready"), [m], throws), None)
            && Get(m, "ipc_port") == Num(port) && Get(m, "ipc_token") == Str(token)
  {
  }
}
