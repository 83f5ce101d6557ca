/**
 * The pure parts of the two JavaScript entry points (`lotus.js` at the
 * repository root and `packages/lotus-core/lotus.js`): the window option
 * defaults and their merge, the `root` to `initialUrl` rewrite, the
 * application identifier fallback chain and the renderer codec source.
 */
module HostConfig {
  import opened Wrappers
  import opened Values

  /** Which of the two near-identical host modules is meant. */
  datatype Variant =
    | RootModule   // lotus.js
    | CorePackage  // packages/lotus-core/lotus.js

  type Options = map<string, Value>

  const ResourcePrefix: string := "lotus-resource://localhost/"
  const DefaultAppIdentifier: string := "lotus"
  const CodecNotFound: string := "// msgpackr not found"

  /** The `defaultOptions` object literal of the `ServoWindow` constructor. */
  function Defaults(variant: Variant): (d: Options)
    ensures "root" in d && d["root"] == Undefined
    ensures "index" in d && d["index"] == Str("index.html")
    ensures "initialUrl" !in d
  {
    var common := map[
      "width" := Num(1024), "height" := Num(768),
      "maximized" := Bool(false), "fullscreen" := Bool(false),
      "title" := Str("Lotus"), "resizable" := Bool(true),
      "frameless" := Bool(false), "alwaysOnTop" := Bool(false),
      "restoreState" := Bool(true), "root" := Undefined,
      "index" := Str("index.html")];
    match variant
    case RootModule => common
    case CorePackage => common["transparent" := Bool(false)]["visible" := Bool(true)]
  }

  /** The published package's defaults are the root module's plus two keys. */
  lemma PackageDefaultsExtendRoot()
    ensures Defaults(CorePackage) == Defaults(RootModule)["transparent" := Bool(false)]["visible" := Bool(true)]
    ensures "transparent" !in Defaults(RootModule) && "visible" !in Defaults(RootModule)
  {
  }

  /** The constructor argument: a bare URL string or an options object. */
  datatype WindowArg =
    | UrlArg(url: string)
    | OptionsArg(props: Options)

  /** `typeof options === 'string'` turns a URL into `{ initialUrl: url }`. */
  function Supplied(arg: WindowArg): Options {
    match arg
    case UrlArg(url) => map["initialUrl" := Str(url)]
    case OptionsArg(props) => props
  }

  /** Node's `path.isAbsolute` and `path.resolve`, left uninterpreted. */
  datatype PathOps = PathOps(isAbsolute: string -> bool, resolve: string -> string)

  /** `path.isAbsolute` throws when handed a root that is not a string. */
  datatype OptionsError = RootNotAString

  /** `lotus-resource://localhost/${index}`. */
  function ResourceUrl(index: Value): string {
    ResourcePrefix + TemplateString(index)
  }

  /** `{ ...defaultOptions, ...options }`: supplied keys override defaults. */
  function Merged(variant: Variant, arg: WindowArg): Options {
    Defaults(variant) + Supplied(arg)
  }

  /** Whether the merged `root` is truthy, which triggers the rewrite. */
  predicate HasRoot(variant: Variant, arg: WindowArg) {
    var merged := Merged(variant, arg);
    assert "root" in merged;
    Truthy(merged["root"])
  }

  /**
   * The options object handed to `createWindow`: the defaults overridden
   * key by key by the supplied keys; a truthy `root` is made absolute and
   * forces `initialUrl` to the resource URL of `index`.
   */
  function EffectiveOptions(variant: Variant, arg: WindowArg, paths: PathOps): (r: Result<Options, OptionsError>)
    ensures r.Err? <==> HasRoot(variant, arg) && !Merged(variant, arg)["root"].Str?
    ensures r.Ok? ==> r.value.Keys == Defaults(variant).Keys + Supplied(arg).Keys
                                      + (if HasRoot(variant, arg) then {"initialUrl"} else {})
    ensures r.Ok? ==> forall k :: k in Defaults(variant) && k !in Supplied(arg) && k != "root" ==>
                                    r.value[k] == Defaults(variant)[k]
    ensures r.Ok? ==> forall k :: k in Supplied(arg) && k != "root" && k != "initialUrl" ==>
                                    r.value[k] == Supplied(arg)[k]
    ensures r.Ok? && HasRoot(variant, arg) ==>
              r.value["initialUrl"] == Str(ResourceUrl(Merged(variant, arg)["index"]))
    ensures r.Ok? && !HasRoot(variant, arg) ==> r.value == Merged(variant, arg)
  {
    var merged := Merged(variant, arg);
    var root := merged["root"];
    if !Truthy(root) then Ok(merged)
    else if !root.Str? then Err(RootNotAString)
    else
      var absolute := if paths.isAbsolute(root.s) then root.s else paths.resolve(root.s);
      Ok(merged["root" := Str(absolute)]["initialUrl" := Str(ResourceUrl(merged["index"]))])
  }

  /** A bare URL argument opens that URL and keeps every default. */
  lemma UrlArgumentKeepsDefaults(variant: Variant, url: string, paths: PathOps)
    ensures var r := EffectiveOptions(variant, UrlArg(url), paths);
            r.Ok? && r.value == Defaults(variant)["initialUrl" := Str(url)]
  {
    var merged := Defaults(variant) + Supplied(UrlArg(url));
    assert merged == Defaults(variant)["initialUrl" := Str(url)];
    assert !Truthy(merged["root"]);
  }

  /** A truthy string root always wins over an explicit `initialUrl`. */
  lemma RootOverridesInitialUrl(variant: Variant, props: Options, paths: PathOps)
    requires "root" in props && props["root"].Str? && props["root"].s != ""
    ensures var r := EffectiveOptions(variant, OptionsArg(props), paths);
            var index := if "index" in props then props["index"] else Str("index.html");
            r.Ok? && r.value["initialUrl"] == Str(ResourcePrefix + TemplateString(index))
            && r.value["root"] == Str(if paths.isAbsolute(props["root"].s) then props["root"].s
                                      else paths.resolve(props["root"].s))
  {
    var merged := Defaults(variant) + props;
    assert merged["root"] == props["root"];
    assert merged["index"] == if "index" in props then props["index"] else Str("index.html");
  }

  /** Where `package.json` reading ends up. */
  datatype Manifest =
    | NoManifest          // fs.existsSync is false
    | Unreadable          // readFileSync or JSON.parse throws
    | Parsed(pkg: Value)  // JSON.parse result

  /**
   * `pkg.appId || pkg.name || 'lotus'`, with the `'lotus'` fallback also
   * when the manifest is missing or unreadable, or parses to null (where
   * the property read throws and the catch keeps the default).
   */
  function AppIdentifier(m: Manifest): (id: Value)
    ensures Truthy(id)
    ensures id == Str(DefaultAppIdentifier)
            || (m.Parsed? && !Nullish(m.pkg) && (id == Get(m.pkg, "appId") || id == Get(m.pkg, "name")))
    ensures m.Parsed? && !Nullish(m.pkg) && Truthy(Get(m.pkg, "appId")) ==> id == Get(m.pkg, "appId")
    ensures m.Parsed? && !Nullish(m.pkg) && !Truthy(Get(m.pkg, "appId")) && Truthy(Get(m.pkg, "name")) ==>
              id == Get(m.pkg, "name")
  {
    match m
    case NoManifest => Str(DefaultAppIdentifier)
    case Unreadable => Str(DefaultAppIdentifier)
    case Parsed(pkg) =>
      if Nullish(pkg) then Str(DefaultAppIdentifier)
      else if Truthy(Get(pkg, "appId")) then Get(pkg, "appId")
      else if Truthy(Get(pkg, "name")) then Get(pkg, "name")
      else Str(DefaultAppIdentifier)
  }

  /** The outcome of looking for msgpackr's minified browser build. */
  datatype CodecLookup =
    | CodecFound(text: string)  // the file exists and was read
    | CodecMissing              // resolved, but no file at that path
    | CodecUnresolvable         // require.resolve or the read threw

  /** The codec source handed to `App`: the file text, or a stub comment. */
  function CodecSource(lookup: CodecLookup): (src: string)
    ensures lookup.CodecFound? ==> src == lookup.text
    ensures !lookup.CodecFound? ==> src == CodecNotFound
  {
    if lookup.CodecFound? then lookup.text else CodecNotFound
  }
}
