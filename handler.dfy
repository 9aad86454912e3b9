/**
 * The request handler `ConnectFS` returns, with `detectMainFolderName` and the
 * configuration it reads. A request path is resolved against an embedded,
 * read-only filesystem under a root prefix taken from the filesystem's first
 * top-level entry; a miss either falls back to the configured main document
 * (client-side routing) or ends in an empty 404.
 */
module Handler {
  import opened Wrappers
  import opened GoStrings
  import opened MimeTypes
  import opened Http

  /** `Config`: whether unmatched paths fall back to the main document, and that document's path. */
  datatype Config = Config(useClientSideRouter: bool, mainPath: string)

  /**
   * The embedded filesystem as the handler uses it: `ReadFile` hits or misses
   * in `files`, and `ReadDir(".")` yields the top-level entry names in
   * enumeration order, or fails (`None`).
   */
  datatype FileSystem = FileSystem(files: map<string, seq<byte>>, topLevel: Option<seq<string>>)

  /** `ReadFile(key)`: the stored bytes, or `None` when no file has that key. */
  function ReadFile(fs: FileSystem, key: string): (r: Option<seq<byte>>)
    ensures r.Some? <==> key in fs.files
    ensures r.Some? ==> r.value == fs.files[key]
  {
    if key in fs.files then Some(fs.files[key]) else None
  }

  /**
   * `detectMainFolderName`: the text before the first `/` of the first
   * top-level entry, or "" when the listing fails or is empty.
   */
  function DetectMainFolderName(fs: FileSystem): (r: string)
    ensures fs.topLevel.None? || fs.topLevel.value == [] ==> r == ""
    ensures fs.topLevel.Some? && fs.topLevel.value != [] ==>
      var first := fs.topLevel.value[0];
      r <= first && '/' !in r && (|r| < |first| ==> first[|r|] == '/')
  {
    match fs.topLevel
    case None => ""
    case Some(entries) => if entries == [] then "" else FirstSegment(entries[0])
  }

  /** The path looked up under the root prefix: a directory request names its "index.html". */
  function EffectivePath(urlPath: string): (r: string)
    // the request path is only ever extended ...
    ensures urlPath <= r
    // ... exactly when it names a directory, and then by "index.html" ...
    ensures r == urlPath <==> !HasSuffix(urlPath, "/")
    ensures HasSuffix(urlPath, "/") ==> r == urlPath + "index.html"
    // ... and what is looked up never names a directory
    ensures !HasSuffix(r, "/")
  {
    if HasSuffix(urlPath, "/") then
      var r := urlPath + "index.html";
      assert r[|r| - 1] == 'l';
      r
    else
      urlPath
  }

  /**
   * The extension that picks the content type: ".html" for a directory request,
   * else `path.Ext` of the request path. Either way it is the extension of the
   * path that is looked up.
   */
  function EffectiveExt(urlPath: string): (r: string)
    ensures r == Ext(EffectivePath(urlPath))
  {
    if HasSuffix(urlPath, "/") then ExtOfIndexFile(urlPath); ".html" else Ext(urlPath)
  }

  /** The lookup key a request is tried under first. */
  function DirectKey(fs: FileSystem, urlPath: string): string
  {
    DetectMainFolderName(fs) + EffectivePath(urlPath)
  }

  /** The lookup key of the main document. */
  function FallbackKey(fs: FileSystem, config: Config): string
  {
    DetectMainFolderName(fs) + config.mainPath
  }

  /** The three ways a request can end. */
  datatype Outcome =
    | ServeDirect(key: string, ext: string)
    | ServeFallback(key: string)
    | NotFound

  /** Which file, if any, answers `urlPath`, and under which extension. */
  function Resolve(fs: FileSystem, config: Config, urlPath: string): (o: Outcome)
    // only stored files are ever served ...
    ensures !o.NotFound? ==> o.key in fs.files
    // ... a direct hit under the request's own key and extension, the fallback under the main document's key
    ensures o.ServeDirect? ==> o.key == DirectKey(fs, urlPath) && o.ext == EffectiveExt(urlPath)
    ensures o.ServeFallback? ==> o.key == FallbackKey(fs, config)
  {
    if DirectKey(fs, urlPath) in fs.files then ServeDirect(DirectKey(fs, urlPath), EffectiveExt(urlPath))
    else if config.useClientSideRouter && FallbackKey(fs, config) in fs.files then ServeFallback(FallbackKey(fs, config))
    else NotFound
  }

  /** What the handler writes: a status, the Content-Type it sets (if any) and the body. */
  datatype Response = Response(status: int, contentType: Option<string>, body: seq<byte>)

  /** The response an outcome produces. */
  function Render(fs: FileSystem, o: Outcome): (r: Response)
    requires !o.NotFound? ==> o.key in fs.files
    // a file is served whole with status 200, the fallback always as "text/html" ...
    ensures !o.NotFound? ==> r.status == StatusOK && r.contentType.Some? && r.body == fs.files[o.key]
    ensures o.ServeDirect? ==> r.contentType == Some(GetMimeType(o.ext))
    ensures o.ServeFallback? ==> r.contentType == Some("text/html")
    // ... and not found is a 404 with no Content-Type and no body
    ensures o.NotFound? ==> r.status == StatusNotFound && r.contentType.None? && r.body == []
  {
    match o
    case ServeDirect(key, ext) => Response(StatusOK, Some(GetMimeType(ext)), fs.files[key])
    case ServeFallback(key) => HtmlAliases(); Response(StatusOK, Some(GetMimeType(".html")), fs.files[key])
    case NotFound => Response(StatusNotFound, None, [])
  }

  /** The response to a request for `urlPath`. */
  function Respond(fs: FileSystem, config: Config, urlPath: string): (r: Response)
    // a 200 always names its content type and carries a whole stored file ...
    ensures r.status == StatusOK ==> r.contentType.Some? && r.body in fs.files.Values
    // ... and anything else is an empty 404 that sets no header
    ensures r.status != StatusOK ==> r == Response(StatusNotFound, None, [])
  {
    Render(fs, Resolve(fs, config, urlPath))
  }

  /**
   * The function `ConnectFS` returns, applied to one request: it computes the
   * effective extension and path, reads the file under the root prefix and on a
   * miss either tries the main document once or answers 404 with an empty body.
   */
  method Serve(fs: FileSystem, config: Config, urlPath: string, res: ResponseWriter)
    requires res.Valid() && res.status.None?
    modifies res
    ensures res.Valid()
    ensures var r := Respond(fs, config, urlPath);
      && res.status == Some(r.status)
      && res.body == r.body
      && res.sentHeader == res.header
      && res.header == (if r.contentType.Some? then old(res.header)[ContentTypeHeader := r.contentType.value] else old(res.header))
  {
    var ext := Ext(urlPath);
    var requestPath := urlPath;
    if HasSuffix(requestPath, "/") {
      ext := ".html";
      requestPath := requestPath + "index.html";
    }
    var filePath := DetectMainFolderName(fs) + requestPath;
    var content := ReadFile(fs, filePath);
    if content.None? {
      if config.useClientSideRouter {
        ext := ".html";
        var fallbackPath := DetectMainFolderName(fs) + config.mainPath;
        var fallback := ReadFile(fs, fallbackPath);
        if fallback.None? {
          res.WriteHeader(StatusNotFound);
          res.Write([]);
          return;
        }
        res.SetHeader(ContentTypeHeader, GetMimeType(ext));
        res.WriteHeader(StatusOK);
        res.Write(fallback.value);
        return;
      }
      res.WriteHeader(StatusNotFound);
      res.Write([]);
      return;
    }
    res.SetHeader(ContentTypeHeader, GetMimeType(ext));
    res.WriteHeader(StatusOK);
    res.Write(content.value);
  }

  /** A request ending in `/` serves that directory's "index.html" as "text/html". */
  lemma DirectoryRequestServesIndex(fs: FileSystem, config: Config, dir: string)
    requires HasSuffix(dir, "/")
    requires DetectMainFolderName(fs) + dir + "index.html" in fs.files
    ensures Respond(fs, config, dir)
      == Response(StatusOK, Some("text/html"), fs.files[DetectMainFolderName(fs) + dir + "index.html"])
  {
    HtmlAliases();
    assert DirectKey(fs, dir) == DetectMainFolderName(fs) + dir + "index.html";
  }

  /** Any other request is looked up verbatim under the prefix and typed by its own extension. */
  lemma FileRequestServesFile(fs: FileSystem, config: Config, urlPath: string)
    requires !HasSuffix(urlPath, "/")
    requires DetectMainFolderName(fs) + urlPath in fs.files
    ensures Respond(fs, config, urlPath)
      == Response(StatusOK, Some(GetMimeType(Ext(urlPath))), fs.files[DetectMainFolderName(fs) + urlPath])
  {
  }

  /** A path whose final element has no dot, such as "/about", is served as "text/plain". */
  lemma {:induction false} ExtensionlessRequestIsPlainText(fs: FileSystem, config: Config, dir: string, name: string)
    requires name != [] && '/' !in name && '.' !in name
    requires DetectMainFolderName(fs) + dir + "/" + name in fs.files
    ensures Respond(fs, config, dir + "/" + name).contentType == Some(DefaultMimeType)
  {
    var p := dir + "/" + name;
    ExtOfUndottedName(dir, name);
    assert !HasSuffix(p, "/") by {
      assert p[|p| - 1] == name[|name| - 1];
      assert name[|name| - 1] in name;
    }
    assert DirectKey(fs, p) == DetectMainFolderName(fs) + dir + "/" + name;
    assert Resolve(fs, config, p) == ServeDirect(DirectKey(fs, p), "");
    UnlistedSpellings();
  }

  /** Without client-side routing a miss is an empty 404 with no Content-Type. */
  lemma MissWithoutRouterIsNotFound(fs: FileSystem, config: Config, urlPath: string)
    requires !config.useClientSideRouter
    requires DirectKey(fs, urlPath) !in fs.files
    ensures Respond(fs, config, urlPath) == Response(StatusNotFound, None, [])
  {
  }

  /** With client-side routing a miss serves the main document as "text/html" when it exists ... */
  lemma MissWithRouterServesMain(fs: FileSystem, config: Config, urlPath: string)
    requires config.useClientSideRouter
    requires DirectKey(fs, urlPath) !in fs.files
    requires FallbackKey(fs, config) in fs.files
    ensures Respond(fs, config, urlPath)
      == Response(StatusOK, Some("text/html"), fs.files[FallbackKey(fs, config)])
  {
    HtmlAliases();
  }

  /** ... and is an empty 404 when the main document is missing too. */
  lemma MissWithRouterWithoutMainIsNotFound(fs: FileSystem, config: Config, urlPath: string)
    requires config.useClientSideRouter
    requires DirectKey(fs, urlPath) !in fs.files
    requires FallbackKey(fs, config) !in fs.files
    ensures Respond(fs, config, urlPath) == Response(StatusNotFound, None, [])
  {
  }

  /** With client-side routing and a main document present, no request ends in 404. */
  lemma RouterWithMainNeverNotFound(fs: FileSystem, config: Config, urlPath: string)
    requires config.useClientSideRouter && FallbackKey(fs, config) in fs.files
    ensures Respond(fs, config, urlPath).status == StatusOK
  {
  }

  /** Every request ends in exactly one of the three outcomes, each fixed by which lookups hit. */
  lemma ExactlyOneOutcome(fs: FileSystem, config: Config, urlPath: string)
    ensures Resolve(fs, config, urlPath).ServeDirect? <==> DirectKey(fs, urlPath) in fs.files
    ensures Resolve(fs, config, urlPath).ServeFallback? <==>
      DirectKey(fs, urlPath) !in fs.files && config.useClientSideRouter && FallbackKey(fs, config) in fs.files
    ensures Resolve(fs, config, urlPath).NotFound? <==>
      DirectKey(fs, urlPath) !in fs.files && (!config.useClientSideRouter || FallbackKey(fs, config) !in fs.files)
  {
  }

  /** The configuration only matters on a miss: a stored file is served the same under any `Config`. */
  lemma ConfigIgnoredOnHit(fs: FileSystem, config: Config, config': Config, urlPath: string)
    requires DirectKey(fs, urlPath) in fs.files
    ensures Respond(fs, config, urlPath) == Respond(fs, config', urlPath)
  {
  }

  /** Without client-side routing `MainPath` is never read. */
  lemma MainPathIgnoredWithoutRouter(fs: FileSystem, mainPath: string, mainPath': string, urlPath: string)
    ensures Respond(fs, Config(false, mainPath), urlPath) == Respond(fs, Config(false, mainPath'), urlPath)
  {
  }

  /** A directory request and a request for its "index.html" get the same response. */
  lemma DirectoryRequestAliasesIndex(fs: FileSystem, config: Config, dir: string)
    requires HasSuffix(dir, "/")
    ensures Respond(fs, config, dir) == Respond(fs, config, dir + "index.html")
  {
    var file := dir + "index.html";
    assert EffectivePath(file) == file == EffectivePath(dir);
  }

  /** Only the first top-level entry decides the root prefix; later entries never matter. */
  lemma OnlyFirstEntryDecidesPrefix(files: map<string, seq<byte>>, first: string, rest: seq<string>, rest': seq<string>,
                                     config: Config, urlPath: string)
    ensures Respond(FileSystem(files, Some([first] + rest)), config, urlPath)
         == Respond(FileSystem(files, Some([first] + rest')), config, urlPath)
  {
  }

  /** A bundle whose single top-level folder is "root" and whose only file is "root/index.html". */
  function SingleIndexBundle(page: seq<byte>): FileSystem
  {
    FileSystem(map["root/index.html" := page], Some(["root"]))
  }

  /** That bundle's root prefix is "root", and its one key is "root" + "/index.html". */
  lemma SingleIndexBundleLayout(page: seq<byte>)
    ensures DetectMainFolderName(SingleIndexBundle(page)) == "root"
    ensures SingleIndexBundle(page).files == map["root" + "/index.html" := page]
  {
    FirstSegmentOfPlainName("root");
    assert "root" + "/index.html" == "root/index.html";
  }

  /** Requesting "/" from that bundle serves the page as "text/html". */
  lemma RootRequestScenario(page: seq<byte>, config: Config)
    ensures Respond(SingleIndexBundle(page), config, "/") == Response(StatusOK, Some("text/html"), page)
  {
    SingleIndexBundleLayout(page);
    assert "root" + "/" + "index.html" == "root" + "/index.html";
    DirectoryRequestServesIndex(SingleIndexBundle(page), config, "/");
  }

  /** A deep client-side route falls back to the page when routing is on, and is a 404 when it is off. */
  lemma DeepRouteScenario(page: seq<byte>)
    ensures Respond(SingleIndexBundle(page), Config(true, "/index.html"), "/deep/route")
         == Response(StatusOK, Some("text/html"), page)
    ensures Respond(SingleIndexBundle(page), Config(false, "/index.html"), "/deep/route")
         == Response(StatusNotFound, None, [])
  {
    var fs, route := SingleIndexBundle(page), "/deep/route";
    SingleIndexBundleLayout(page);
    assert !HasSuffix(route, "/") by { assert route[|route| - 1] == 'e'; }
    assert "root" + route != "root" + "/index.html" by {
      assert ("root" + route)[5] != ("root" + "/index.html")[5];
    }
    MissWithRouterServesMain(fs, Config(true, "/index.html"), route);
    MissWithoutRouterIsNotFound(fs, Config(false, "/index.html"), route);
  }
}
