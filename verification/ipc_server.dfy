/**
 * The renderer-facing HTTP server: one request at a time, it answers CORS
 * preflights, rejects requests without the session token, and turns
 * `/ipc/<channel>` and `/batch` bodies into messages for the event loop;
 * `/resource/<path>` serves files under the working directory.  The
 * socket, the msgpack decoder, percent-decoding and the file system are
 * parameters.
 */
module IpcServer {
  import opened Wrappers
  import opened Values
  import opened DragRegions
  import opened Engine
  import opened WindowStates

  datatype HttpMethod = OptionsMethod | GetMethod | PostMethod | OtherMethod(name: string)

  type Header = (string, string)

  datatype Request = Request(verb: HttpMethod, url: string, headers: seq<Header>, body: seq<Byte>)

  datatype ResponseBody = Text(text: string) | FileContents(path: string)

  datatype Response = Response(status: nat, body: ResponseBody, headers: seq<Header>)

  const AllowOrigin: Header := ("Access-Control-Allow-Origin", "*")

  const Preflight: Response :=
    Response(200, Text("OK"), [AllowOrigin,
                               ("Access-Control-Allow-Methods", "GET, POST, OPTIONS"),
                               ("Access-Control-Allow-Headers", "Content-Type, X-Lotus-Auth, X-Lotus-Window-Id")])

  const Unauthorized: Response := Response(401, Text("Unauthorized"), [])

  const Accepted: Response := Response(200, Text("ok"), [AllowOrigin])

  const NotFound: Response := Response(404, Text("Not Found"), [])

  const AuthHeader: string := "x-lotus-auth"
  const WindowIdHeader: string := "x-lotus-window-id"
  const UnknownWindow: string := "unknown"
  const IpcPrefix: string := "/ipc/"
  const BatchPath: string := "/batch"
  const ResourcePrefixPath: string := "/resource/"
  const DragRegionsChannel: string := "lotus:set-drag-regions"

  /** What the server's thread can observe of its surroundings. */
  datatype Environment = Environment(
    cwd: string,
    isFile: string -> bool,                                // exists() && is_file()
    opens: string -> bool,                                 // File::open succeeds
    urlDecode: string -> Option<string>,                   // urlencoding::decode
    decodeBatch: seq<Byte> -> Option<seq<(string, Value)>>)  // rmp_serde as Vec<(String, Value)>

  function LowerChar(c: char): char {
    if 'A' <= c <= 'Z' then (c as int + 32) as char else c
  }

  /** `to_ascii_lowercase`. */
  function AsciiLower(s: string): (r: string)
    ensures |r| == |s|
    ensures forall i :: 0 <= i < |s| ==> r[i] == LowerChar(s[i])
  {
    seq(|s|, i requires 0 <= i < |s| => LowerChar(s[i]))
  }

  /** The value of the first header whose name matches `name` ignoring ASCII case. */
  function HeaderValue(headers: seq<Header>, name: string): (r: Option<string>)
    ensures r.None? <==> forall i :: 0 <= i < |headers| ==> AsciiLower(headers[i].0) != name
    ensures r.Some? ==> exists i :: 0 <= i < |headers| && AsciiLower(headers[i].0) == name
                                    && headers[i].1 == r.value
                                    && forall j :: 0 <= j < i ==> AsciiLower(headers[j].0) != name
  {
    if headers == [] then None
    else if AsciiLower(headers[0].0) == name then Some(headers[0].1)
    else
      var r := HeaderValue(headers[1..], name);
      assert forall i :: 1 <= i < |headers| ==> headers[i] == headers[1..][i - 1];
      if r.Some? then
        var k :| 0 <= k < |headers[1..]| && AsciiLower(headers[1..][k].0) == name && headers[1..][k].1 == r.value
                 && forall j :: 0 <= j < k ==> AsciiLower(headers[1..][j].0) != name;
        assert AsciiLower(headers[k + 1].0) == name && headers[k + 1].1 == r.value;
        assert forall j :: 0 <= j < k + 1 ==> AsciiLower(headers[j].0) != name by {
          forall j | 0 <= j < k + 1 ensures AsciiLower(headers[j].0) != name {
            if j > 0 {
              assert headers[j] == headers[1..][j - 1];
            }
          }
        }
        r
      else r
  }

  predicate StartsWith(s: string, prefix: string) {
    |prefix| <= |s| && s[..|prefix|] == prefix
  }

  /** `trim_start_matches`: remove `prefix` from the front as many times as it occurs there. */
  function TrimPrefixAll(s: string, prefix: string): (r: string)
    requires prefix != ""
    ensures !StartsWith(r, prefix)
    ensures |r| <= |s| && r == s[|s| - |r|..]
    decreases |s|
  {
    if StartsWith(s, prefix) then TrimPrefixAll(s[|prefix|..], prefix) else s
  }

  /** The session token is checked on every request except a preflight. */
  predicate Authorized(req: Request, token: string) {
    !req.verb.OptionsMethod? && HeaderValue(req.headers, AuthHeader) == Some(token)
  }

  /** The window a request speaks for: its window-id header, or "unknown". */
  function WindowIdOf(req: Request): string {
    var h := HeaderValue(req.headers, WindowIdHeader);
    if h.Some? then h.value else UnknownWindow
  }

  /** The channel of `/ipc/<channel>`: percent-decoded when that succeeds, raw otherwise. */
  function ChannelOf(url: string, urlDecode: string -> Option<string>): (c: string)
    ensures var raw := TrimPrefixAll(url, IpcPrefix);
            c == (if urlDecode(raw).Some? then urlDecode(raw).value else raw)
  {
    var raw := TrimPrefixAll(url, IpcPrefix);
    match urlDecode(raw)
    case Some(decoded) => decoded
    case None => raw
  }

  /** The bytes of a body as rmp_serde writes a `Vec<u8>`: an array of small integers. */
  function ByteValues(bytes: seq<Byte>): (vs: seq<Value>)
    ensures |vs| == |bytes|
    ensures forall i :: 0 <= i < |bytes| ==> vs[i] == Num(bytes[i])
  {
    seq(|bytes|, i requires 0 <= i < |bytes| => Num(bytes[i]))
  }

  /** `vec![(channel, content)]`: one message wrapped in the batch shape `[[channel, content]]`. */
  function SingleMessage(channel: string, content: seq<Byte>): (m: Value)
    ensures m.Arr? && |m.items| == 1 && IsPair(m.items[0])
    ensures m.items[0].items == [Str(channel), Arr(ByteValues(content))]
  {
    Arr([Arr([Str(channel), Arr(ByteValues(content))])])
  }

  /** The region updates the server applies itself, one per drag-region entry of a batch, in order. */
  function Intercepted(windowId: string, batch: seq<(string, Value)>): seq<Command> {
    if batch == [] then []
    else
      var last := batch[|batch| - 1];
      Intercepted(windowId, batch[..|batch| - 1])
      + (if last.0 == DragRegionsChannel then [DragRegionsCommand(windowId, last.1)] else [])
  }

  /** The entries of a batch on the drag-region channel. */
  function DragEntries(batch: seq<(string, Value)>): seq<Value> {
    if batch == [] then []
    else
      var last := batch[|batch| - 1];
      DragEntries(batch[..|batch| - 1]) + (if last.0 == DragRegionsChannel then [last.1] else [])
  }

  /** Exactly the drag-region entries are intercepted, each once and in order, for the request's window. */
  lemma {:induction false} InterceptedMatchesDragEntries(windowId: string, batch: seq<(string, Value)>)
    ensures var cmds := Intercepted(windowId, batch);
            var es := DragEntries(batch);
            |cmds| == |es| && forall i :: 0 <= i < |es| ==> cmds[i] == DragRegionsCommand(windowId, es[i])
    decreases |batch|
  {
    if batch != [] {
      InterceptedMatchesDragEntries(windowId, batch[..|batch| - 1]);
    }
  }

  /** A batch without drag-region entries is forwarded without any region update. */
  lemma {:induction false} NoDragEntriesNoUpdates(windowId: string, batch: seq<(string, Value)>)
    requires forall i :: 0 <= i < |batch| ==> batch[i].0 != DragRegionsChannel
    ensures Intercepted(windowId, batch) == []
    decreases |batch|
  {
    if batch != [] {
      NoDragEntriesNoUpdates(windowId, batch[..|batch| - 1]);
    }
  }

  /** The `for (channel, data) in &batch` interception loop. */
  method InterceptDragRegions(windowId: string, batch: seq<(string, Value)>) returns (cmds: seq<Command>)
    ensures cmds == Intercepted(windowId, batch)
  {
    cmds := [];
    for i := 0 to |batch|
      invariant cmds == Intercepted(windowId, batch[..i])
    {
      assert batch[..i + 1][..i] == batch[..i];
      var (channel, data) := batch[i];
      if channel == DragRegionsChannel {
        var drag, noDrag := ParseDragRegions(data);
        cmds := cmds + [UpdateDragRegions(windowId, drag, noDrag)];
      }
    }
    assert batch[..|batch|] == batch;
  }

  /** The file a `/resource/` request names: the rest of the URL, leading slashes dropped, under the working directory. */
  function ResourcePath(cwd: string, url: string): string {
    JoinPath(cwd, TrimPrefixAll(TrimPrefixAll(url, ResourcePrefixPath), "/"))
  }

  /** The answer to a `/resource/` request. */
  function ResourceResponse(env: Environment, url: string): (r: Response)
    ensures r.status == 200 <==> env.isFile(ResourcePath(env.cwd, url)) && env.opens(ResourcePath(env.cwd, url))
    ensures r.status == 200 ==> r == Response(200, FileContents(ResourcePath(env.cwd, url)), [AllowOrigin])
    ensures !env.isFile(ResourcePath(env.cwd, url)) ==> r == NotFound
  {
    var full := ResourcePath(env.cwd, url);
    if !env.isFile(full) then NotFound
    else if env.opens(full) then Response(200, FileContents(full), [AllowOrigin])
    else Response(500, Text("Error reading file"), [])
  }

  /** Parent-directory segments reach the file system untouched: nothing confines a resource path to the working directory. */
  lemma ResourcePathKeepsParentSegments(cwd: string)
    requires cwd != "" && cwd[|cwd| - 1] != '/'
    ensures ResourcePath(cwd, "/resource/../secret") == cwd + "/../secret"
  {
    assert StartsWith("/resource/../secret", ResourcePrefixPath);
    assert "/resource/../secret"[|ResourcePrefixPath|..] == "../secret";
    assert !StartsWith("../secret", ResourcePrefixPath);
    assert "../secret"[..1] == ".";
  }

  /**
   * One iteration of the server loop: the commands posted to the event
   * loop, in order, and the response.
   */
  method HandleRequest(req: Request, token: string, env: Environment) returns (sent: seq<Command>, resp: Response)
    ensures req.verb.OptionsMethod? ==> sent == [] && resp == Preflight
    ensures !req.verb.OptionsMethod? && !Authorized(req, token) ==> sent == [] && resp == Unauthorized
    ensures Authorized(req, token) && StartsWith(req.url, IpcPrefix) ==>
              sent == [IpcMessage(WindowIdOf(req), Packed(SingleMessage(ChannelOf(req.url, env.urlDecode), req.body)))]
              && resp == Accepted
    ensures Authorized(req, token) && !StartsWith(req.url, IpcPrefix) && req.url == BatchPath ==>
              var batch := env.decodeBatch(req.body);
              sent == (if batch.Some? then Intercepted(WindowIdOf(req), batch.value) else [])
                      + [IpcMessage(WindowIdOf(req), Raw(req.body))]
              && resp == Accepted
    ensures Authorized(req, token) && !StartsWith(req.url, IpcPrefix) && req.url != BatchPath ==>
              sent == []
              && resp == if StartsWith(req.url, ResourcePrefixPath) then ResourceResponse(env, req.url) else NotFound
  {
    sent := [];
    if req.verb.OptionsMethod? {
      resp := Preflight;
      return;
    }
    if HeaderValue(req.headers, AuthHeader) != Some(token) {
      resp := Unauthorized;
      return;
    }
    var windowId := WindowIdOf(req);
    if StartsWith(req.url, IpcPrefix) {
      var channel := ChannelOf(req.url, env.urlDecode);
      sent := [IpcMessage(windowId, Packed(SingleMessage(channel, req.body)))];
      resp := Accepted;
    } else if req.url == BatchPath {
      var batch := env.decodeBatch(req.body);
      if batch.Some? {
        sent := InterceptDragRegions(windowId, batch.value);
      }
      sent := sent + [IpcMessage(windowId, Raw(req.body))];
      resp := Accepted;
    } else if StartsWith(req.url, ResourcePrefixPath) {
      resp := ResourceResponse(env, req.url);
    } else {
      resp := NotFound;
    }
  }
}
