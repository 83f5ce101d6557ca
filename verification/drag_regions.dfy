/**
 * Parsing of the renderer's drag-region report, `{"drag": [...],
 * "noDrag": [...]}`, into two lists of rectangles.  Used by the
 * `update_drag_regions` handle method and by the `/batch` interception of
 * the IPC server.
 */
module DragRegions {
  import opened Wrappers
  import opened Values
  import opened HitTest

  /** `r.get(key).and_then(|v| v.as_f64())`: a numeric field of an object. */
  function NumberField(r: Value, key: string): Option<real> {
    if r.Obj? && key in r.fields && r.fields[key].Num? then Some(r.fields[key].n as real) else None
  }

  /** One entry becomes a rectangle only when x, y, width and height are all numbers. */
  function RectOf(entry: Value): (r: Option<Rect>)
    ensures r.Some? <==> NumberField(entry, "x").Some? && NumberField(entry, "y").Some?
                         && NumberField(entry, "width").Some? && NumberField(entry, "height").Some?
    ensures r.Some? ==> r.value == Rect(NumberField(entry, "x").value, NumberField(entry, "y").value,
                                        NumberField(entry, "width").value, NumberField(entry, "height").value)
  {
    match (NumberField(entry, "x"), NumberField(entry, "y"), NumberField(entry, "width"), NumberField(entry, "height"))
    case (Some(x), Some(y), Some(w), Some(h)) => Some(Rect(x, y, w, h))
    case _ => None
  }

  /** `data.get(key).and_then(|v| v.as_array())`, with an absent or non-array entry read as no entries. */
  function Entries(data: Value, key: string): (es: seq<Value>)
    ensures !(data.Obj? && key in data.fields && data.fields[key].Arr?) ==> es == []
    ensures data.Obj? && key in data.fields && data.fields[key].Arr? ==> es == data.fields[key].items
  {
    if data.Obj? && key in data.fields && data.fields[key].Arr? then data.fields[key].items else []
  }

  /** The rectangles of the well-formed entries, in order; malformed entries are skipped. */
  function Rects(entries: seq<Value>): seq<Rect> {
    if entries == [] then []
    else
      var last := entries[|entries| - 1];
      Rects(entries[..|entries| - 1]) + (if RectOf(last).Some? then [RectOf(last).value] else [])
  }

  /** Parsing two reports one after the other is parsing their concatenation. */
  lemma {:induction false} RectsAppend(a: seq<Value>, b: seq<Value>)
    ensures Rects(a + b) == Rects(a) + Rects(b)
    decreases |b|
  {
    if b == [] {
      assert a + b == a;
    } else {
      var init := b[..|b| - 1];
      assert (a + b)[..|a + b| - 1] == a + init;
      RectsAppend(a, init);
    }
  }

  /** No rectangle is invented: at most one per entry, each from some entry. */
  lemma {:induction false} RectsComeFromEntries(entries: seq<Value>)
    ensures |Rects(entries)| <= |entries|
    ensures forall r :: r in Rects(entries) ==> exists e :: e in entries && RectOf(e) == Some(r)
    decreases |entries|
  {
    if entries != [] {
      var init := entries[..|entries| - 1];
      RectsComeFromEntries(init);
      forall r | r in Rects(entries)
        ensures exists e :: e in entries && RectOf(e) == Some(r)
      {
        if r in Rects(init) {
          var e :| e in init && RectOf(e) == Some(r);
          assert e in entries;
        } else {
          assert entries[|entries| - 1] in entries;
        }
      }
    }
  }

  /** When every entry is well formed, each one yields its rectangle at the same position. */
  lemma {:induction false} WellFormedEntriesAllKept(entries: seq<Value>)
    requires forall i :: 0 <= i < |entries| ==> RectOf(entries[i]).Some?
    ensures |Rects(entries)| == |entries|
    ensures forall i :: 0 <= i < |entries| ==> Rects(entries)[i] == RectOf(entries[i]).value
    decreases |entries|
  {
    if entries != [] {
      var init := entries[..|entries| - 1];
      WellFormedEntriesAllKept(init);
    }
  }

  /** The `for r in arr { if let (Some(x), ...) = ... { regions.push(...) } }` loop. */
  method CollectRects(entries: seq<Value>) returns (regions: seq<Rect>)
    ensures regions == Rects(entries)
  {
    regions := [];
    for i := 0 to |entries|
      invariant regions == Rects(entries[..i])
    {
      assert entries[..i + 1][..i] == entries[..i];
      var r := RectOf(entries[i]);
      if r.Some? {
        regions := regions + [r.value];
      }
    }
    assert entries[..|entries|] == entries;
  }

  /** Both region lists of a parsed report. */
  method ParseDragRegions(data: Value) returns (drag: seq<Rect>, noDrag: seq<Rect>)
    ensures drag == Rects(Entries(data, "drag"))
    ensures noDrag == Rects(Entries(data, "noDrag"))
  {
    drag := CollectRects(Entries(data, "drag"));
    noDrag := CollectRects(Entries(data, "noDrag"));
  }
}
