/**
 * The module-level state of a host module and the operations that change
 * it: the lazily created `App`, the `windows` registry (a `Map` from
 * window id to `ServoWindow`, with its insertion order), the listener
 * tables of `ipcMain` and of every window object, and the trace of what
 * the host did.
 */
module HostRuntime {
  import opened Wrappers
  import opened Values
  import opened HostConfig
  import opened HostRouter
  import Engine

  /** The `App` object `ensureApp` constructs, by its constructor arguments. */
  datatype AppInstance = AppInstance(appId: Value, codecSource: Option<string>)

  /** What `ensureApp` and the `ServoWindow` constructor read from the process's surroundings. */
  datatype Environment = Environment(manifest: Manifest, codec: CodecLookup, paths: PathOps)

  /** The fourth `App` argument: only the published package passes the renderer codec source. */
  function CodecArgument(variant: Variant, lookup: CodecLookup): (c: Option<string>)
    ensures c.None? <==> variant == RootModule
    ensures c.Some? ==> c.value == CodecSource(lookup)
  {
    match variant
    case RootModule => None
    case CorePackage => Some(CodecSource(lookup))
  }

  /** `options.id` as the native side reads it: a string, or no id. */
  function RequestedId(opts: Options): (r: Option<string>)
    ensures r.Some? <==> "id" in opts && opts["id"].Str?
    ensures r.Some? ==> opts["id"] == Str(r.value)
  {
    if "id" in opts && opts["id"].Str? then Some(opts["id"].s) else None
  }

  /** The decoded message the callback sees for a buffer. */
  function Decoded(payload: Engine.Payload, unpack: seq<Byte> -> Option<Value>): Option<Value> {
    match payload
    case Packed(v) => Some(v)
    case Raw(bytes) => unpack(bytes)
  }

  predicate Distinct(s: seq<string>) {
    forall i, j :: 0 <= i < j < |s| ==> s[i] != s[j]
  }

  /** The insertion order after `windows.set(k, ...)`: a new key goes last, an existing key keeps its place. */
  function OrderAfterSet(order: seq<string>, k: string): (r: seq<string>)
    ensures forall x :: x in r <==> x in order || x == k
    ensures Distinct(order) ==> Distinct(r)
    ensures k in order ==> r == order
    ensures k !in order ==> |r| == |order| + 1 && r[..|order|] == order && r[|order|] == k
  {
    if k in order then order else order + [k]
  }

  /** The insertion order after `windows.delete(k)`: the other keys in their order. */
  function Without(s: seq<string>, k: string): (r: seq<string>)
    ensures forall x :: x in r <==> x in s && x != k
    ensures Distinct(s) ==> Distinct(r)
    decreases |s|
  {
    if s == [] then []
    else
      var last := s[|s| - 1];
      var init := s[..|s| - 1];
      var rest := Without(init, k);
      assert Distinct(s) ==> Distinct(init);
      assert Distinct(s) ==> last !in init;
      rest + (if last == k then [] else [last])
  }

  lemma AppendAssoc<X>(a: seq<X>, b: seq<X>, c: seq<X>)
    ensures (a + b) + c == a + (b + c)
  {
  }

  /** A sequence without repeats has as many distinct elements as positions. */
  lemma {:induction false} DistinctCardinality(s: seq<string>)
    requires Distinct(s)
    ensures |set x | x in s| == |s|
    decreases |s|
  {
    if s != [] {
      var init := s[..|s| - 1];
      var last := s[|s| - 1];
      assert Distinct(init);
      DistinctCardinality(init);
      assert last !in init;
      assert (set x | x in s) == (set x | x in init) + {last};
    }
  }

  /** `ipcMain.send`: one `sendToRenderer` per registered window, in registry order. */
  function SendEffects(order: seq<string>, channel: Value, data: Value): (es: seq<Effect>)
    ensures |es| == |order|
    ensures forall i :: 0 <= i < |order| ==> es[i] == HandleCalled(order[i], SendCall(channel, data))
  {
    seq(|order|, i requires 0 <= i < |order| => HandleCalled(order[i], SendCall(channel, data)))
  }

  /** Whether a window method exists on the variant's `ServoWindow`: `show` and `hide` are package-only. */
  predicate HasMethod(variant: Variant, call: HandleCall) {
    variant == CorePackage || !(call.ShowCall? || call.HideCall?)
  }

  class Host {
    const variant: Variant
    /** Whether `require('msgpackr')` succeeded when the module loaded. */
    const codecLoaded: bool
    /** `globalApp`. */
    var app: Option<AppInstance>
    var windows: map<string, ServoWindow>
    /** The registry's iteration order. */
    var order: seq<string>
    /** The identity the next `ServoWindow` object gets. */
    var nextRef: nat
    var listeners: map<Target, Listeners>
    var trace: seq<Effect>

    /**
     * The registry's order lists each key once; every entry is stored
     * under its own handle id; distinct keys hold distinct objects.
     */
    ghost predicate Valid()
      reads this
    {
      && Distinct(order)
      && (forall k :: k in windows <==> k in order)
      && (forall k :: k in windows ==> windows[k].id == k && windows[k].ref < nextRef)
      && (forall k1, k2 :: k1 in windows && k2 in windows && k1 != k2 ==> windows[k1].ref != windows[k2].ref)
    }

    /** Loading the module: no app, no windows, no listeners. */
    constructor (variant: Variant, codecLoaded: bool)
      ensures Valid()
      ensures this.variant == variant && this.codecLoaded == codecLoaded
      ensures app == None && windows == map[] && order == [] && listeners == map[] && trace == []
    {
      this.variant := variant;
      this.codecLoaded := codecLoaded;
      app := None;
      windows := map[];
      order := [];
      nextRef := 0;
      listeners := map[];
      trace := [];
    }

    /** `emitter.on(event, listener)`: the listener goes last in that event's list. */
    method On(target: Target, event: Value, l: ListenerId)
      modifies this`listeners
      ensures forall t, e :: ListenersOf(listeners, t, e)
                             == if t == target && e == event then ListenersOf(old(listeners), t, e) + [l]
                                else ListenersOf(old(listeners), t, e)
    {
      var table := if target in listeners then listeners[target] else map[];
      listeners := listeners[target := table[event := ListenersOf(listeners, target, event) + [l]]];
    }

    /** `ensureApp`: constructs the `App` once and returns the same one afterwards. */
    method EnsureApp(env: Environment) returns (a: AppInstance)
      modifies this`app, this`trace
      ensures app == Some(a)
      ensures old(app).Some? ==> a == old(app).value && trace == old(trace)
      ensures old(app).None? ==>
                a == AppInstance(AppIdentifier(env.manifest), CodecArgument(variant, env.codec))
                && trace == old(trace) + [AppConstructed(a.appId, a.codecSource)]
    {
      if app.Some? {
        return app.value;
      }
      a := AppInstance(AppIdentifier(env.manifest), CodecArgument(variant, env.codec));
      trace := trace + [AppConstructed(a.appId, a.codecSource)];
      app := Some(a);
    }

    /**
     * `new ServoWindow(arg)`: ensures the app, computes the options, asks
     * the native side for a window and registers the new object under the
     * handle's id, replacing any object already registered under it.
     */
    method NewWindow(arg: WindowArg, env: Environment, freshUuid: string) returns (r: Result<ServoWindow, OptionsError>)
      requires Valid()
      modifies this`app, this`trace, this`windows, this`order, this`nextRef
      ensures Valid()
      ensures app.Some? && (old(app).Some? ==> app == old(app))
      ensures var appEffects := if old(app).None?
                                then [AppConstructed(AppIdentifier(env.manifest), CodecArgument(variant, env.codec))]
                                else [];
              var opts := EffectiveOptions(variant, arg, env.paths);
              if opts.Err? then
                r == Err(opts.error) && windows == old(windows) && order == old(order)
                && trace == old(trace) + appEffects
              else
                var id := Engine.WindowIdFor(RequestedId(opts.value), freshUuid);
                r == Ok(ServoWindow(old(nextRef), id, opts.value))
                && windows == old(windows)[id := r.value]
                && order == OrderAfterSet(old(order), id)
                && trace == old(trace) + appEffects + [WindowRequested(id, opts.value)]
    {
      var _ := EnsureApp(env);
      var opts := EffectiveOptions(variant, arg, env.paths);
      if opts.Err? {
        return Err(opts.error);
      }
      var id := Engine.WindowIdFor(RequestedId(opts.value), freshUuid);
      trace := trace + [WindowRequested(id, opts.value)];
      var w := ServoWindow(nextRef, id, opts.value);
      Register(w);
      r := Ok(w);
    }

    /** `windows.set(w.id, w)` for a newly made object. */
    method Register(w: ServoWindow)
      requires Valid() && w.ref == nextRef
      modifies this`windows, this`order, this`nextRef
      ensures Valid()
      ensures windows == old(windows)[w.id := w] && order == OrderAfterSet(old(order), w.id)
    {
      nextRef := nextRef + 1;
      windows := windows[w.id := w];
      order := OrderAfterSet(order, w.id);
    }

    /** Appends what a run did, and the log line when it threw. */
    method Record(run: Run)
      modifies this`trace
      ensures trace == old(trace) + Observed(Outcome(run, None))
    {
      trace := trace + run.effects;
      if run.threw {
        trace := trace + [ErrorLogged];
      }
    }

    /** `windows.delete(id)`. */
    method Forget(id: string)
      requires Valid()
      modifies this`windows, this`order
      ensures Valid()
      ensures windows == old(windows) - {id} && order == Without(old(order), id)
    {
      windows := windows - {id};
      order := Without(order, id);
    }

    /**
     * The `App` callback for one buffer.  `unpack` is msgpackr's decoder
     * (a failure is an exception), `throws` tells which listener calls
     * throw.
     */
    method OnBuffer(payload: Engine.Payload, unpack: seq<Byte> -> Option<Value>, throws: Effect -> bool)
      requires Valid()
      modifies this`windows, this`order, this`trace
      ensures Valid()
      ensures var o := Receive(variant, codecLoaded, Decoded(payload, unpack), old(windows), listeners, throws);
              trace == old(trace) + Observed(o)
              && windows == (if o.removes.Some? then old(windows) - {o.removes.value} else old(windows))
              && order == (if o.removes.Some? then Without(old(order), o.removes.value) else old(order))
    {
      if !codecLoaded {
        return;
      }
      var decoded := Decoded(payload, unpack);
      if decoded.None? || Nullish(decoded.value) {
        trace := trace + [ErrorLogged];
        return;
      }
      Dispatch(decoded.value, throws);
    }

    /** The body of the callback's `try` for a decoded message that is not null or undefined. */
    method Dispatch(msg: Value, throws: Effect -> bool)
      requires Valid() && !Nullish(msg)
      modifies this`windows, this`order, this`trace
      ensures Valid()
      ensures var o := Route(variant, old(windows), listeners, msg, throws);
              trace == old(trace) + Observed(o)
              && windows == (if o.removes.Some? then old(windows) - {o.removes.value} else old(windows))
              && order == (if o.removes.Some? then Without(old(order), o.removes.value) else old(order))
    {
      ghost var o := Route(variant, windows, listeners, msg, throws);
      var event := Get(msg, "event");
      if event == Str("app-ready") {
        var run := Emit(listeners, IpcMain, Str("ready"), [msg], throws);
        assert o == Outcome(run, None);
        Record(run);
        return;
      }
      var id := Get(msg, "window_id");
      var win := Lookup(windows, id);
      if event == Str("ready") {
        var run := ToWindow(win, listeners, "ready", [], throws);
        assert o == Outcome(run, None);
        Record(run);
      } else if event == Str("load-status") {
        var run := ToWindow(win, listeners, "load-status", [Get(msg, "status")], throws);
        assert o == Outcome(run, None);
        Record(run);
      } else if variant == CorePackage && event == Str("frame-ready") {
        var run := ToWindow(win, listeners, "frame-ready", [], throws);
        assert o == Outcome(run, None);
        Record(run);
      } else if event == Str("window-closed") {
        var run := ToWindow(win, listeners, "closed", [], throws);
        assert o.run == run;
        Record(run);
        if win.Some? && !run.threw {
          assert o.removes == Some(id.s);
          Forget(id.s);
        } else {
          assert o.removes == None;
        }
      } else if msg.Arr? {
        var items := msg.items;
        assert o == Outcome(ArrayRun(variant, listeners, items, throws), None);
        if variant == RootModule && |items| == 2 && items[0].Str? {
          Record(Emit(listeners, IpcMain, items[0], [items[1]], throws));
        } else {
          DispatchBatch(items, throws);
        }
      } else {
        assert o == Dropped;
      }
    }

    /** `msg.forEach(...)`: each two-element entry is emitted on `ipcMain`; an exception ends the loop. */
    method DispatchBatch(items: seq<Value>, throws: Effect -> bool)
      modifies this`trace
      ensures trace == old(trace) + Observed(Outcome(BatchRun(listeners, items, throws), None))
    {
      var table := listeners;
      var i := 0;
      ghost var done := Quiet;
      while i < |items|
        invariant 0 <= i <= |items|
        invariant done == BatchRun(table, items[..i], throws) && !done.threw
        invariant trace == old(trace) + done.effects
      {
        var r := PairRun(table, items[i], throws);
        AppendAssoc(old(trace), done.effects, r.effects);
        trace := trace + r.effects;
        if r.threw {
          trace := trace + [ErrorLogged];
          BatchEndsAtThrow(table, items, i, throws);
          return;
        }
        BatchStep(table, items, i, throws);
        done := Then(done, r);
        i := i + 1;
      }
      assert items[..i] == items;
    }

    /** `ipcMain.send(channel, data)`. */
    method Send(channel: Value, data: Value)
      requires Valid()
      modifies this`trace
      ensures trace == old(trace) + SendEffects(order, channel, data)
    {
      var i := 0;
      while i < |order|
        invariant 0 <= i <= |order|
        invariant trace == old(trace) + SendEffects(order[..i], channel, data)
      {
        var win := windows[order[i]];
        trace := trace + [HandleCalled(win.id, SendCall(channel, data))];
        assert SendEffects(order[..i + 1], channel, data) == SendEffects(order[..i], channel, data)
                                                            + [HandleCalled(order[i], SendCall(channel, data))];
        i := i + 1;
      }
      assert order[..i] == order;
    }

    /**
     * A `ServoWindow` method that forwards to the native handle; calling
     * `show` or `hide` on the root module's windows throws, as those
     * methods do not exist there.
     */
    method CallHandle(w: ServoWindow, call: HandleCall) returns (threw: bool)
      modifies this`trace
      ensures threw <==> !HasMethod(variant, call)
      ensures trace == old(trace) + (if threw then [] else [HandleCalled(w.id, call)])
    {
      threw := !HasMethod(variant, call);
      if !threw {
        trace := trace + [HandleCalled(w.id, call)];
      }
    }

    /** `app.quit()`: asks the app to quit when one exists. */
    method Quit()
      modifies this`trace
      ensures trace == old(trace) + (if app.Some? then [QuitRequested] else [])
    {
      if app.Some? {
        trace := trace + [QuitRequested];
      }
    }
  }

  /** `ipcMain.send` reaches every registered window exactly once, and nothing else. */
  lemma SendReachesEachWindowOnce(windows: map<string, ServoWindow>, order: seq<string>, channel: Value, data: Value)
    requires Distinct(order)
    requires forall k :: k in windows <==> k in order
    ensures var es := SendEffects(order, channel, data);
            |es| == |windows|
            && (forall e :: e in es ==> e.HandleCalled? && e.windowId in windows && e.call == SendCall(channel, data))
            && (forall k :: k in windows ==> exists i :: 0 <= i < |es| && es[i].windowId == k
                                                 && forall j :: 0 <= j < |es| && es[j].windowId == k ==> j == i)
  {
    DistinctCardinality(order);
    assert windows.Keys == set x | x in order;
    var es := SendEffects(order, channel, data);
    forall k | k in windows
      ensures exists i :: 0 <= i < |es| && es[i].windowId == k
                          && forall j :: 0 <= j < |es| && es[j].windowId == k ==> j == i
    {
      var i :| 0 <= i < |order| && order[i] == k;
      assert es[i].windowId == k;
    }
  }
}
