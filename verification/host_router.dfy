/**
 * What the `App` callback of the host modules does with one decoded
 * message: which listeners run, in which order, whether an exception ends
 * the dispatch, and which registry entry is deleted.  Node's EventEmitter
 * is modelled as per-event ordered listener lists; a listener that throws
 * ends the `emit` (and the callback's `try`) with that exception.
 */
module HostRouter {
  import opened Wrappers
  import opened Values
  import opened HostConfig

  type ListenerId = nat

  /** Who an `emit` is called on: the `ipcMain` emitter or a `ServoWindow` object. */
  datatype Target = IpcMain | WindowObject(ref: nat)

  /** One EventEmitter's table: event name to listeners in registration order. */
  type Listeners = map<Value, seq<ListenerId>>

  /** A `ServoWindow` object: its identity, the id of its native handle and the options it was created with. */
  datatype ServoWindow = ServoWindow(ref: nat, id: string, options: Options)

  /** A `ServoWindow` method's call on its native handle. */
  datatype HandleCall =
    | LoadUrlCall(url: Value)
    | SendCall(channel: Value, data: Value)  // the handle receives `JSON.stringify(data)`
    | ScriptCall(script: Value)
    | CloseCall
    | TitleCall(title: Value)
    | SizeCall(width: Value, height: Value)
    | PositionCall(x: Value, y: Value)
    | ShowCall
    | HideCall

  /** What the host does that can be observed from outside. */
  datatype Effect =
    | Invoked(target: Target, event: Value, listener: ListenerId, args: seq<Value>)
    | ErrorLogged
    | HandleCalled(windowId: string, call: HandleCall)
    | QuitRequested
    | WindowRequested(windowId: string, options: Options)
    | AppConstructed(appId: Value, codecSource: Option<string>)

  /** Effects of a piece of dispatch, and whether it ended by throwing. */
  datatype Run = Run(effects: seq<Effect>, threw: bool)

  const Quiet: Run := Run([], false)

  function ListenersOf(table: map<Target, Listeners>, target: Target, event: Value): seq<ListenerId> {
    if target in table && event in table[target] then table[target][event] else []
  }

  /**
   * The listener loop of `emitter.emit(event, ...args)`: listeners run in
   * registration order, and the first one that throws is the last to run.
   */
  function CallAll(target: Target, event: Value, args: seq<Value>, ls: seq<ListenerId>,
                   throws: Effect -> bool): (r: Run)
    ensures |r.effects| <= |ls|
    ensures forall i :: 0 <= i < |r.effects| ==> r.effects[i] == Invoked(target, event, ls[i], args)
    ensures forall i :: 0 <= i < |r.effects| - 1 ==> !throws(r.effects[i])
    ensures r.threw ==> |r.effects| > 0 && throws(r.effects[|r.effects| - 1])
    ensures !r.threw ==> |r.effects| == |ls| && forall i :: 0 <= i < |ls| ==> !throws(r.effects[i])
    decreases |ls|
  {
    if ls == [] then Quiet
    else
      var first := Invoked(target, event, ls[0], args);
      if throws(first) then Run([first], true)
      else
        var rest := CallAll(target, event, args, ls[1..], throws);
        Run([first] + rest.effects, rest.threw)
  }

  function Emit(table: map<Target, Listeners>, target: Target, event: Value, args: seq<Value>,
                throws: Effect -> bool): Run
  {
    CallAll(target, event, args, ListenersOf(table, target, event), throws)
  }

  /** Statement sequencing inside one `try`: after a throw nothing else runs. */
  function Then(first: Run, next: Run): Run {
    if first.threw then first else Run(first.effects + next.effects, next.threw)
  }

  /** One element of a batch: a two-element array is emitted on `ipcMain`, anything else is skipped. */
  function PairRun(table: map<Target, Listeners>, item: Value, throws: Effect -> bool): Run {
    if IsPair(item) then Emit(table, IpcMain, item.items[0], [item.items[1]], throws) else Quiet
  }

  /** `msg.forEach(m => ...)` over a batch, element by element. */
  function BatchRun(table: map<Target, Listeners>, items: seq<Value>, throws: Effect -> bool): Run
    decreases |items|
  {
    if items == [] then Quiet
    else Then(BatchRun(table, items[..|items| - 1], throws), PairRun(table, items[|items| - 1], throws))
  }

  /** The elements of a batch that are two-element arrays, in order. */
  function Pairs(items: seq<Value>): (ps: seq<Value>)
    ensures forall i :: 0 <= i < |ps| ==> IsPair(ps[i])
    ensures forall p :: p in ps ==> p in items
    decreases |items|
  {
    if items == [] then []
    else
      var last := items[|items| - 1];
      Pairs(items[..|items| - 1]) + (if IsPair(last) then [last] else [])
  }

  /** Filtering is compositional over concatenation. */
  lemma {:induction false} PairsAppend(a: seq<Value>, b: seq<Value>)
    ensures Pairs(a + b) == Pairs(a) + Pairs(b)
    decreases |b|
  {
    if b == [] {
      assert a + b == a;
    } else {
      var b' := b[..|b| - 1];
      var last := b[|b| - 1];
      assert (a + b)[..|a + b| - 1] == a + b';
      assert (a + b)[|a + b| - 1] == last;
      PairsAppend(a, b');
    }
  }

  /**
   * Every two-element array of a batch is kept; with `PairsAppend`, the
   * pairs before a split come before the pairs after it.
   */
  lemma {:induction false} EveryPairKept(items: seq<Value>)
    ensures forall i :: 0 <= i < |items| && IsPair(items[i]) ==> items[i] in Pairs(items)
  {
    forall i | 0 <= i < |items| && IsPair(items[i])
      ensures items[i] in Pairs(items)
    {
      var front := items[..i + 1];
      assert front[..|front| - 1] == items[..i] && front[|front| - 1] == items[i];
      assert Pairs(front) == Pairs(items[..i]) + [items[i]];
      PairsAppend(front, items[i + 1..]);
      assert front + items[i + 1..] == items;
    }
  }

  /** What handling one message does: its run, and the key `windows.delete` removed. */
  datatype Outcome = Outcome(run: Run, removes: Option<string>)

  const Dropped: Outcome := Outcome(Quiet, None)

  /** `windows.get(id)`: the registry's keys are strings, so only a string finds an entry. */
  function Lookup(windows: map<string, ServoWindow>, id: Value): Option<ServoWindow> {
    if id.Str? && id.s in windows then Some(windows[id.s]) else None
  }

  /** The event names routed to a window; only the published package routes `frame-ready`. */
  predicate IsWindowEvent(variant: Variant, event: Value) {
    || event == Str("ready")
    || event == Str("load-status")
    || event == Str("window-closed")
    || (variant == CorePackage && event == Str("frame-ready"))
  }

  /** `win.emit(name, ...args)` if the window is registered, otherwise nothing. */
  function ToWindow(win: Option<ServoWindow>, table: map<Target, Listeners>, name: string, args: seq<Value>,
                    throws: Effect -> bool): Run
  {
    if win.Some? then Emit(table, WindowObject(win.value.ref), Str(name), args, throws) else Quiet
  }

  /** The array branch: the root module treats `[string, x]` as one pair, the package never does. */
  function ArrayRun(variant: Variant, table: map<Target, Listeners>, items: seq<Value>,
                    throws: Effect -> bool): Run
  {
    if variant == RootModule && |items| == 2 && items[0].Str? then
      Emit(table, IpcMain, items[0], [items[1]], throws)
    else BatchRun(table, items, throws)
  }

  /** The classification and dispatch of one decoded message. */
  function Route(variant: Variant, windows: map<string, ServoWindow>, table: map<Target, Listeners>,
                 msg: Value, throws: Effect -> bool): Outcome
  {
    if Nullish(msg) then Outcome(Run([], true), None)  // `msg.event` throws a TypeError
    else
      var event := Get(msg, "event");
      if event == Str("app-ready") then Outcome(Emit(table, IpcMain, Str("ready"), [msg], throws), None)
      else
        var id := Get(msg, "window_id");
        var win := Lookup(windows, id);
        if event == Str("ready") then Outcome(ToWindow(win, table, "ready", [], throws), None)
        else if event == Str("load-status") then
          Outcome(ToWindow(win, table, "load-status", [Get(msg, "status")], throws), None)
        else if variant == CorePackage && event == Str("frame-ready") then
          Outcome(ToWindow(win, table, "frame-ready", [], throws), None)
        else if event == Str("window-closed") then
          var r := ToWindow(win, table, "closed", [], throws);
          Outcome(r, if win.Some? && !r.threw then Some(id.s) else None)
        else if msg.Arr? then Outcome(ArrayRun(variant, table, msg.items, throws), None)
        else Dropped
  }

  /**
   * The whole callback for one buffer: without msgpackr it returns at once;
   * an unpack failure is an exception like any other.
   */
  function Receive(variant: Variant, codecLoaded: bool, decoded: Option<Value>,
                   windows: map<string, ServoWindow>, table: map<Target, Listeners>,
                   throws: Effect -> bool): Outcome
  {
    if !codecLoaded then Dropped
    else if decoded.None? then Outcome(Run([], true), None)
    else Route(variant, windows, table, decoded.value, throws)
  }

  /** The trace a handled buffer appends: its effects, then the log line of a caught exception. */
  function Observed(o: Outcome): seq<Effect> {
    o.run.effects + (if o.run.threw then [ErrorLogged] else [])
  }

  // ---------------------------------------------------------------------
  // Properties of the router
  // ---------------------------------------------------------------------

  /** `app-ready` goes to `ipcMain`'s `ready` listeners with the whole message, whatever the registry holds. */
  lemma AppReadyIgnoresRegistry(variant: Variant, windows: map<string, ServoWindow>, table: map<Target, Listeners>,
                                msg: Value, throws: Effect -> bool)
    requires msg.Obj? && Get(msg, "event") == Str("app-ready")
    ensures Route(variant, windows, table, msg, throws) == Outcome(Emit(table, IpcMain, Str("ready"), [msg], throws), None)
    ensures Route(variant, windows, table, msg, throws) == Route(variant, map[], table, msg, throws)
  {
  }

  /** A window event for an id that is not registered runs nothing, removes nothing and does not throw. */
  lemma UnknownWindowIsSilent(variant: Variant, windows: map<string, ServoWindow>, table: map<Target, Listeners>,
                              msg: Value, throws: Effect -> bool)
    requires !Nullish(msg) && IsWindowEvent(variant, Get(msg, "event"))
    requires Lookup(windows, Get(msg, "window_id")).None?
    ensures Route(variant, windows, table, msg, throws) == Dropped
  {
  }

  /**
   * A window event for a registered id runs listeners of that window object
   * only, and the only registry change is the removal of that id after a
   * `window-closed` whose `closed` listeners all returned.
   */
  lemma WindowEventStaysOnItsWindow(variant: Variant, windows: map<string, ServoWindow>,
                                    table: map<Target, Listeners>, msg: Value, throws: Effect -> bool)
    requires !Nullish(msg) && IsWindowEvent(variant, Get(msg, "event"))
    requires Lookup(windows, Get(msg, "window_id")).Some?
    ensures var o := Route(variant, windows, table, msg, throws);
            var w := windows[Get(msg, "window_id").s];
            && (forall e :: e in o.run.effects ==> e.Invoked? && e.target == WindowObject(w.ref))
            && (o.removes.Some? <==> Get(msg, "event") == Str("window-closed") && !o.run.threw)
            && (o.removes.Some? ==> o.removes.value == Get(msg, "window_id").s)
  {
    var o := Route(variant, windows, table, msg, throws);
    var w := windows[Get(msg, "window_id").s];
    var event := Get(msg, "event");
    var name := if event == Str("window-closed") then "closed" else event.s;
    var args := if event == Str("load-status") then [Get(msg, "status")] else [];
    assert o.run == Emit(table, WindowObject(w.ref), Str(name), args, throws);
    forall e | e in o.run.effects
      ensures e.Invoked? && e.target == WindowObject(w.ref)
    {
      var i :| 0 <= i < |o.run.effects| && o.run.effects[i] == e;
    }
  }

  /** `load-status` hands `msg.status` unchanged to the one registered window. */
  lemma LoadStatusForwardsStatus(variant: Variant, windows: map<string, ServoWindow>, table: map<Target, Listeners>,
                                 msg: Value, throws: Effect -> bool)
    requires msg.Obj? && Get(msg, "event") == Str("load-status")
    requires Lookup(windows, Get(msg, "window_id")).Some?
    ensures var w := windows[Get(msg, "window_id").s];
            Route(variant, windows, table, msg, throws)
              == Outcome(Emit(table, WindowObject(w.ref), Str("load-status"), [Get(msg, "status")], throws), None)
  {
  }

  /**
   * After a `window-closed` that removed id X, any later window event for X
   * is dropped: the registry without X no longer finds it.
   */
  lemma ClosedWindowIsForgotten(variant: Variant, windows: map<string, ServoWindow>, table: map<Target, Listeners>,
                                closing: Value, later: Value, throws: Effect -> bool)
    requires closing.Obj? && Get(closing, "event") == Str("window-closed")
    requires Lookup(windows, Get(closing, "window_id")).Some?
    requires !Route(variant, windows, table, closing, throws).run.threw
    requires !Nullish(later) && IsWindowEvent(variant, Get(later, "event"))
    requires Get(later, "window_id") == Get(closing, "window_id")
    ensures var o := Route(variant, windows, table, closing, throws);
            o.removes.Some? && Route(variant, windows - {o.removes.value}, table, later, throws) == Dropped
  {
    var o := Route(variant, windows, table, closing, throws);
    assert o.removes == Some(Get(closing, "window_id").s);
    UnknownWindowIsSilent(variant, windows - {o.removes.value}, table, later, throws);
  }

  /** A throwing `closed` listener aborts the callback before `windows.delete`: the window stays registered. */
  lemma ThrowingClosedListenerKeepsWindow(variant: Variant, windows: map<string, ServoWindow>,
                                          table: map<Target, Listeners>, msg: Value, throws: Effect -> bool)
    requires msg.Obj? && Get(msg, "event") == Str("window-closed")
    requires Lookup(windows, Get(msg, "window_id")).Some?
    requires var w := windows[Get(msg, "window_id").s];
             exists l :: l in ListenersOf(table, WindowObject(w.ref), Str("closed"))
                         && throws(Invoked(WindowObject(w.ref), Str("closed"), l, []))
    ensures Route(variant, windows, table, msg, throws).run.threw
    ensures Route(variant, windows, table, msg, throws).removes == None
  {
    var w := windows[Get(msg, "window_id").s];
    var ls := ListenersOf(table, WindowObject(w.ref), Str("closed"));
    var l :| l in ls && throws(Invoked(WindowObject(w.ref), Str("closed"), l, []));
    var r := CallAll(WindowObject(w.ref), Str("closed"), [], ls, throws);
    var k :| 0 <= k < |ls| && ls[k] == l;
  }

  /** `frame-ready` is routed by the published package only; the root module drops it. */
  lemma FrameReadyByVariant(windows: map<string, ServoWindow>, table: map<Target, Listeners>,
                            msg: Value, throws: Effect -> bool)
    requires msg.Obj? && Get(msg, "event") == Str("frame-ready")
    ensures Route(RootModule, windows, table, msg, throws) == Dropped
    ensures Route(CorePackage, windows, table, msg, throws)
              == Outcome(ToWindow(Lookup(windows, Get(msg, "window_id")), table, "frame-ready", [], throws), None)
  {
  }

  /**
   * A bare `[channel, x]` is one emit in the root module; the package reads
   * it as a batch, whose only possible pair is `x` itself, so it emits
   * nothing unless `x` is a two-element array.
   */
  lemma BarePairByVariant(windows: map<string, ServoWindow>, table: map<Target, Listeners>,
                          channel: string, x: Value, throws: Effect -> bool)
    ensures Route(RootModule, windows, table, Arr([Str(channel), x]), throws)
              == Outcome(Emit(table, IpcMain, Str(channel), [x], throws), None)
    ensures Route(CorePackage, windows, table, Arr([Str(channel), x]), throws)
              == Outcome(PairRun(table, x, throws), None)
    ensures !IsPair(x) ==> Route(CorePackage, windows, table, Arr([Str(channel), x]), throws) == Dropped
  {
    var items := [Str(channel), x];
    assert items[..|items| - 1] == [Str(channel)];
    assert [Str(channel)][..0] == [];
    assert BatchRun(table, [Str(channel)], throws) == Quiet;
    ThenQuiet(PairRun(table, x, throws));
  }

  /** Messages with any other event name, and other non-array values, are dropped. */
  lemma OtherMessagesDropped(variant: Variant, windows: map<string, ServoWindow>, table: map<Target, Listeners>,
                             msg: Value, throws: Effect -> bool)
    requires !Nullish(msg) && !msg.Arr?
    requires Get(msg, "event") != Str("app-ready") && !IsWindowEvent(variant, Get(msg, "event"))
    ensures Route(variant, windows, table, msg, throws) == Dropped
  {
  }

  /** Without msgpackr every buffer is a no-op; an undecodable buffer only logs. */
  lemma CodecFailuresAreContained(variant: Variant, decoded: Option<Value>, windows: map<string, ServoWindow>,
                                  table: map<Target, Listeners>, throws: Effect -> bool)
    ensures Observed(Receive(variant, false, decoded, windows, table, throws)) == []
    ensures Receive(variant, false, decoded, windows, table, throws).removes == None
    ensures decoded.None? ==> Observed(Receive(variant, true, decoded, windows, table, throws)) == [ErrorLogged]
    ensures decoded.None? ==> Receive(variant, true, decoded, windows, table, throws).removes == None
  {
  }

  /** A caught exception is logged exactly once, as the last thing the callback does. */
  lemma ExceptionIsLoggedLast(o: Outcome)
    requires o.run.threw
    ensures |Observed(o)| > 0 && Observed(o)[|Observed(o)| - 1] == ErrorLogged
    ensures forall i :: 0 <= i < |Observed(o)| - 1 ==> Observed(o)[i] == o.run.effects[i]
  {
  }

  // ---------------------------------------------------------------------
  // Batches
  // ---------------------------------------------------------------------

  lemma ThenAssociates(x: Run, y: Run, z: Run)
    ensures Then(Then(x, y), z) == Then(x, Then(y, z))
  {
    if !x.threw && !y.threw {
      assert (x.effects + y.effects) + z.effects == x.effects + (y.effects + z.effects);
    }
  }

  lemma ThenQuiet(x: Run)
    ensures Then(x, Quiet) == x && Then(Quiet, x) == x
  {
    assert x.effects + [] == x.effects;
    assert [] + x.effects == x.effects;
  }

  /** Two consecutive stretches of a batch run as one after the other. */
  lemma {:induction false} BatchConcat(table: map<Target, Listeners>, a: seq<Value>, b: seq<Value>,
                                       throws: Effect -> bool)
    ensures BatchRun(table, a + b, throws) == Then(BatchRun(table, a, throws), BatchRun(table, b, throws))
    decreases |b|
  {
    if b == [] {
      assert a + b == a;
      ThenQuiet(BatchRun(table, a, throws));
    } else {
      var b' := b[..|b| - 1];
      var last := b[|b| - 1];
      assert (a + b)[..|a + b| - 1] == a + b';
      assert (a + b)[|a + b| - 1] == last;
      var p := PairRun(table, last, throws);
      calc {
        BatchRun(table, a + b, throws);
        Then(BatchRun(table, a + b', throws), p);
        { BatchConcat(table, a, b', throws); }
        Then(Then(BatchRun(table, a, throws), BatchRun(table, b', throws)), p);
        { ThenAssociates(BatchRun(table, a, throws), BatchRun(table, b', throws), p); }
        Then(BatchRun(table, a, throws), Then(BatchRun(table, b', throws), p));
      }
    }
  }

  /** One more element of a batch runs after the ones before it. */
  lemma BatchStep(table: map<Target, Listeners>, items: seq<Value>, i: nat, throws: Effect -> bool)
    requires i < |items|
    ensures BatchRun(table, items[..i + 1], throws)
            == Then(BatchRun(table, items[..i], throws), PairRun(table, items[i], throws))
  {
    assert items[..i + 1][..i] == items[..i];
  }

  /** A batch whose element `i` throws ends there, with the effects up to and including it. */
  lemma BatchEndsAtThrow(table: map<Target, Listeners>, items: seq<Value>, i: nat, throws: Effect -> bool)
    requires i < |items|
    requires !BatchRun(table, items[..i], throws).threw && PairRun(table, items[i], throws).threw
    ensures BatchRun(table, items, throws)
            == Run(BatchRun(table, items[..i], throws).effects + PairRun(table, items[i], throws).effects, true)
  {
    var a, b := items[..i + 1], items[i + 1..];
    assert a + b == items;
    BatchStep(table, items, i, throws);
    BatchAbortsAfterThrow(table, a, b, throws);
  }

  /** Once an emit in a batch throws, the rest of the batch is skipped. */
  lemma BatchAbortsAfterThrow(table: map<Target, Listeners>, a: seq<Value>, b: seq<Value>, throws: Effect -> bool)
    requires BatchRun(table, a, throws).threw
    ensures BatchRun(table, a + b, throws) == BatchRun(table, a, throws)
  {
    BatchConcat(table, a, b, throws);
  }

  /** Elements that are not two-element arrays contribute nothing to a batch. */
  lemma {:induction false} BatchSkipsNonPairs(table: map<Target, Listeners>, items: seq<Value>, throws: Effect -> bool)
    ensures BatchRun(table, items, throws) == BatchRun(table, Pairs(items), throws)
    decreases |items|
  {
    if items != [] {
      var init := items[..|items| - 1];
      var last := items[|items| - 1];
      BatchSkipsNonPairs(table, init, throws);
      if IsPair(last) {
        BatchConcat(table, Pairs(init), [last], throws);
        assert [last][..0] == [];
      } else {
        assert PairRun(table, last, throws) == Quiet;
        assert Pairs(items) == Pairs(init) + [] == Pairs(init);
        ThenQuiet(BatchRun(table, init, throws));
        assert BatchRun(table, items, throws) == Then(BatchRun(table, init, throws), Quiet);
      }
    }
  }

  /**
   * With one listener per channel and no listener throwing, a batch invokes
   * exactly one listener per two-element element, in batch order, with that
   * element's channel and payload.
   */
  lemma {:induction false} BatchInvokesOncePerPair(table: map<Target, Listeners>, items: seq<Value>,
                                                   throws: Effect -> bool)
    requires forall e :: !throws(e)
    requires forall p :: p in items && IsPair(p) ==> |ListenersOf(table, IpcMain, p.items[0])| == 1
    ensures var r := BatchRun(table, items, throws);
            var ps := Pairs(items);
            && !r.threw && |r.effects| == |ps|
            && forall i :: 0 <= i < |ps| ==>
                 r.effects[i] == Invoked(IpcMain, ps[i].items[0], ListenersOf(table, IpcMain, ps[i].items[0])[0],
                                         [ps[i].items[1]])
    decreases |items|
  {
    if items != [] {
      var init := items[..|items| - 1];
      var last := items[|items| - 1];
      assert forall p :: p in init ==> p in items;
      BatchInvokesOncePerPair(table, init, throws);
      if IsPair(last) {
        assert last == items[|items| - 1];
      }
    }
  }
}
