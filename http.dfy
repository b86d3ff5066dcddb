/**
 * The HTTP server of the preview (server.mjs, `createServer`): which route a
 * request takes, the response each route gives, and the broadcast the two
 * API routes make. `Respond` is the reference definition; `Server.Handle`
 * runs the handler step by step (the body read chunk by chunk, `reload`,
 * the send loop) and is proved to agree with it.
 */
module Http {
  import opened Wrappers
  import opened Json
  import opened Files
  import opened Preview

  datatype Request = Request(url: string, verb: string, chunks: seq<string>)

  /** A response body; `Payload(v)` is sent as `JSON.stringify(v)`. */
  datatype Body = Text(text: string) | Document(page: PageDoc) | Payload(value: Json) | FileContent(content: string)

  datatype Response = Response(status: nat, contentType: Option<string>, body: Body)

  datatype Route = PageRoute | ScriptRoute | ReloadRoute | CommandRoute | AssetRoute

  /** The order of the handler's tests: `/`, `/client.js`, the two POST endpoints, then assets. */
  function RouteOf(url: string, verb: string): Route
  {
    if url == "/" then PageRoute
    else if url == "/client.js" then ScriptRoute
    else if url == "/api/reload" && verb == "POST" then ReloadRoute
    else if url == "/api/command" && verb == "POST" then CommandRoute
    else AssetRoute
  }

  /** `body += chunk.toString()` over the chunks in arrival order. */
  function Concat(chunks: seq<string>): string
  {
    if chunks == [] then "" else Concat(chunks[..|chunks| - 1]) + chunks[|chunks| - 1]
  }

  const MimeTypes: map<string, string> := map[
    ".html" := "text/html",
    ".js" := "text/javascript",
    ".css" := "text/css",
    ".json" := "application/json",
    ".png" := "image/png",
    ".jpg" := "image/jpeg",
    ".gif" := "image/gif",
    ".svg" := "image/svg+xml",
    ".wav" := "audio/wav",
    ".mp4" := "video/mp4",
    ".woff" := "application/font-woff",
    ".ttf" := "application/font-ttf",
    ".eot" := "application/vnd.ms-fontobject",
    ".otf" := "application/font-otf",
    ".wasm" := "application/wasm"
  ]

  /** `mimeTypes[ext] || 'application/octet-stream'`. */
  function ContentType(ext: string): string
  {
    if ext in MimeTypes then MimeTypes[ext] else "application/octet-stream"
  }

  /** `path.join(dir, rel)`, without the normalisation of `.`, `..` and repeated separators. */
  function JoinPath(dir: string, rel: string): string
  {
    dir + "/" + rel
  }

  function StripTrailingSlashes(p: string): string
  {
    if p != "" && p[|p| - 1] == '/' then StripTrailingSlashes(p[..|p| - 1]) else p
  }

  /** The part of `p` after its last `/`. */
  function LastSegment(p: string): (base: string)
    ensures '/' !in base
    ensures |base| <= |p| && base == p[|p| - |base|..]
  {
    if p == "" || p[|p| - 1] == '/' then "" else LastSegment(p[..|p| - 1]) + [p[|p| - 1]]
  }

  /** The index of the last `.` in `s`, if any. */
  function LastDot(s: string): (d: Option<nat>)
    ensures d.Some? ==> d.value < |s| && s[d.value] == '.' && '.' !in s[d.value + 1..]
    ensures d.None? ==> '.' !in s
  {
    if s == "" then None
    else if s[|s| - 1] == '.' then Some(|s| - 1)
    else LastDot(s[..|s| - 1])
  }

  /**
   * `path.extname(p)`: from the last `.` of the last segment (trailing
   * slashes ignored) to its end; empty when there is no dot, when the dot
   * starts the segment, and for `..`.
   */
  function ExtName(p: string): string
  {
    ExtOf(LastSegment(StripTrailingSlashes(p)))
  }

  function ExtOf(base: string): string
  {
    match LastDot(base)
    case None => ""
    case Some(d) => if d == 0 || base == ".." then "" else base[d..]
  }

  /** Everything `createServer` is given, with `renderMarp` and `reload` unfolded into what they use. */
  datatype Config = Config(
    port: int,
    markdownFile: string,
    markdownDir: string,
    scriptDir: string,
    fs: FileSystem,
    render: Renderer,
    parse: string -> Option<Json>,
    stringify: Json -> string)

  const InternalError := Response(500, None, Text("Internal Server Error"))
  const NotFound := Response(404, None, Text("Not Found"))

  function JsonResponse(status: nat, value: Json): Response
  {
    Response(status, Some("application/json"), Payload(value))
  }

  function Status(s: string): map<string, Json> { map["status" := JStr(s)] }

  const ReloadFailed := JObj(Status("error")["message" := JStr("Failed to render markdown")])
  const InvalidJson := JObj(Status("error")["message" := JStr("Invalid JSON")])

  /** The response to a request, and the message broadcast to every client while answering it, if any. */
  function Respond(cfg: Config, req: Request): (Response, Option<string>)
  {
    match RouteOf(req.url, req.verb)
    case PageRoute =>
      (match RenderPage(cfg.fs, cfg.markdownFile, cfg.render, cfg.port)
       case Some(doc) => (Response(200, Some("text/html; charset=utf-8"), Document(doc)), None)
       case None => (InternalError, None))
    case ScriptRoute =>
      (match cfg.fs(JoinPath(cfg.scriptDir, "client.js"))
       case Found(js) => (Response(200, Some("text/javascript"), Text(js)), None)
       case _ => (InternalError, None))
    case ReloadRoute =>
      (match cfg.render(Concat(req.chunks))
       case Some(r) => (JsonResponse(200, JObj(Status("ok"))), Some(cfg.stringify(UpdateMessage(r))))
       case None => (JsonResponse(500, ReloadFailed), None))
    case CommandRoute =>
      (match cfg.parse(Concat(req.chunks))
       case Some(command) =>
         (JsonResponse(200, JObj(Status("ok")["command" := command])), Some(cfg.stringify(command)))
       case None => (JsonResponse(400, InvalidJson), None))
    case AssetRoute =>
      var assetPath := JoinPath(cfg.markdownDir, req.url);
      (match cfg.fs(assetPath)
       case Found(content) => (Response(200, Some(ContentType(ExtName(assetPath))), FileContent(content)), None)
       case NoEntry => (NotFound, None)
       case Unreadable => (InternalError, None))
  }

  /** The `data` listener: the body is the chunks concatenated in arrival order. */
  method ReadBody(chunks: seq<string>) returns (body: string)
    ensures body == Concat(chunks)
  {
    body := "";
    var i := 0;
    while i < |chunks|
      invariant 0 <= i <= |chunks|
      invariant body == Concat(chunks[..i])
    {
      assert chunks[..i + 1][..i] == chunks[..i];
      body := body + chunks[i];
      i := i + 1;
    }
    assert chunks[..i] == chunks;
  }

  /** The server `createServer` returns: its configuration and the WebSocket server's clients. */
  class Server {
    const cfg: Config
    const clients: array<seq<string>>

    constructor (cfg: Config, clients: array<seq<string>>)
      ensures this.cfg == cfg && this.clients == clients
    {
      this.cfg := cfg;
      this.clients := clients;
    }

    /** The request listener. */
    method Handle(req: Request) returns (resp: Response)
      modifies clients
      ensures resp == Respond(cfg, req).0
      ensures Respond(cfg, req).1.Some? ==>
        forall i :: 0 <= i < clients.Length ==> clients[i] == old(clients[i]) + [Respond(cfg, req).1.value]
      ensures Respond(cfg, req).1.None? ==> clients[..] == old(clients[..])
    {
      var route := RouteOf(req.url, req.verb);
      if route == PageRoute {
        var page := RenderPage(cfg.fs, cfg.markdownFile, cfg.render, cfg.port);
        if page.None? {
          resp := InternalError;
        } else {
          resp := Response(200, Some("text/html; charset=utf-8"), Document(page.value));
        }
      } else if route == ScriptRoute {
        var read := cfg.fs(JoinPath(cfg.scriptDir, "client.js"));
        if read.Found? {
          resp := Response(200, Some("text/javascript"), Text(read.content));
        } else {
          resp := InternalError;
        }
      } else if route == ReloadRoute {
        var body := ReadBody(req.chunks);
        var success := Reload(body, cfg.render, cfg.stringify, clients);
        if success {
          resp := JsonResponse(200, JObj(Status("ok")));
        } else {
          resp := JsonResponse(500, ReloadFailed);
        }
      } else if route == CommandRoute {
        var body := ReadBody(req.chunks);
        var command := cfg.parse(body);
        if command.None? {
          resp := JsonResponse(400, InvalidJson);
        } else {
          Broadcast(clients, cfg.stringify(command.value));
          resp := JsonResponse(200, JObj(Status("ok")["command" := command.value]));
        }
      } else {
        var assetPath := JoinPath(cfg.markdownDir, req.url);
        var contentType := ContentType(ExtName(assetPath));
        var read := cfg.fs(assetPath);
        if read.Found? {
          resp := Response(200, Some(contentType), FileContent(read.content));
        } else if read.NoEntry? {
          resp := NotFound;
        } else {
          resp := InternalError;
        }
      }
    }
  }

  // ---------------------------------------------------------------------
  // Properties of the handler
  // ---------------------------------------------------------------------

  /** How the body arrives in chunks does not matter: concatenation distributes over splitting. */
  lemma {:induction false} ConcatSplit(a: seq<string>, b: seq<string>)
    ensures Concat(a + b) == Concat(a) + Concat(b)
    decreases |b|
  {
    if b == [] {
      assert a + b == a;
    } else {
      var b' := b[..|b| - 1];
      assert (a + b)[..|a + b| - 1] == a + b';
      ConcatSplit(a, b');
    }
  }

  /** Route priority: `/` and `/client.js` win for every method; the API routes need POST; the rest are assets. */
  lemma RoutePriority(url: string, verb: string)
    ensures url == "/" ==> RouteOf(url, verb) == PageRoute
    ensures url == "/client.js" ==> RouteOf(url, verb) == ScriptRoute
    ensures RouteOf(url, verb) == ReloadRoute <==> url == "/api/reload" && verb == "POST"
    ensures RouteOf(url, verb) == CommandRoute <==> url == "/api/command" && verb == "POST"
    ensures RouteOf(url, verb) == AssetRoute <==>
      url !in {"/", "/client.js"} && !(url in {"/api/reload", "/api/command"} && verb == "POST")
  {
  }

  /**
   * `/api/reload`: 200 `{status:'ok'}` with the update broadcast when the
   * concatenated body renders, 500 with the error message and no broadcast
   * when it does not.
   */
  lemma ReloadEndpoint(cfg: Config, req: Request)
    requires req.url == "/api/reload" && req.verb == "POST"
    ensures var (resp, sent) := Respond(cfg, req);
      var r := cfg.render(Concat(req.chunks));
      && (resp.status == 200 <==> r.Some?)
      && (r.Some? ==> resp.body == Payload(JObj(map["status" := JStr("ok")]))
                      && sent == Some(cfg.stringify(UpdateMessage(r.value))))
      && (r.None? ==> resp == Response(500, Some("application/json"),
                        Payload(JObj(map["status" := JStr("error"), "message" := JStr("Failed to render markdown")])))
                      && sent.None?)
  {
  }

  /**
   * `/api/command`: a body that does not parse gets 400 with `Invalid JSON`
   * and nothing is broadcast; a parsed command is broadcast as
   * `JSON.stringify(command)` and echoed in a 200 response.
   */
  lemma CommandEndpoint(cfg: Config, req: Request)
    requires req.url == "/api/command" && req.verb == "POST"
    ensures var (resp, sent) := Respond(cfg, req);
      var command := cfg.parse(Concat(req.chunks));
      && (command.None? ==> resp == Response(400, Some("application/json"),
                              Payload(JObj(map["status" := JStr("error"), "message" := JStr("Invalid JSON")])))
                            && sent.None?)
      && (command.Some? ==> resp == Response(200, Some("application/json"),
                              Payload(JObj(map["status" := JStr("ok"), "command" := command.value])))
                            && sent == Some(cfg.stringify(command.value)))
  {
  }

  /** Assets: the listed type for a listed extension, `application/octet-stream` otherwise; 404 for a missing file. */
  lemma AssetEndpoint(cfg: Config, req: Request)
    requires RouteOf(req.url, req.verb) == AssetRoute
    ensures var (resp, sent) := Respond(cfg, req);
      var assetPath := JoinPath(cfg.markdownDir, req.url);
      var ext := ExtName(assetPath);
      && sent.None?
      && (cfg.fs(assetPath).Found? ==>
            (&& resp.status == 200
             && resp.body == FileContent(cfg.fs(assetPath).content)
             && resp.contentType == Some(if ext in MimeTypes then MimeTypes[ext] else "application/octet-stream")))
      && (cfg.fs(assetPath).NoEntry? ==> resp.status == 404 && resp.body == Text("Not Found"))
      && (cfg.fs(assetPath).Unreadable? ==> resp.status == 500)
  {
  }

  /** The extension of a file name with a dot inside it is the part from its last dot. */
  lemma ExtNameOfFile(dir: string, name: string, ext: string)
    requires '/' !in name && '/' !in ext && '.' !in ext && name != "" && name != "."
    ensures ExtName(JoinPath(dir, name + "." + ext)) == "." + ext
  {
    var file := name + "." + ext;
    SegmentOfJoin(dir, file);
    ExtOfName(name, ext);
  }

  lemma SegmentOfJoin(dir: string, file: string)
    requires '/' !in file && file != ""
    ensures LastSegment(StripTrailingSlashes(JoinPath(dir, file))) == file
  {
    var p := (dir + "/") + file;
    assert JoinPath(dir, file) == p;
    assert p[|p| - 1] == file[|file| - 1];
    assert StripTrailingSlashes(p) == p;
    LastSegmentOfJoin(dir + "/", file);
  }

  lemma ExtOfName(name: string, ext: string)
    requires '.' !in ext && name != "" && name != "."
    ensures ExtOf(name + "." + ext) == "." + ext
  {
    var file := name + "." + ext;
    LastDotAfter(name, ext);
    assert file[|name|..] == "." + ext;
    assert file != ".." by {
      assert |file| == 2 ==> name == [file[0]] && ext == [];
    }
  }

  lemma {:induction false} LastSegmentOfJoin(prefix: string, file: string)
    requires prefix != "" && prefix[|prefix| - 1] == '/' && '/' !in file
    ensures LastSegment(prefix + file) == file
    decreases |file|
  {
    var p := prefix + file;
    if file == "" {
      assert p == prefix;
    } else {
      var init, c := file[..|file| - 1], file[|file| - 1];
      assert file == init + [c];
      assert c != '/' && '/' !in init;
      assert p[..|p| - 1] == prefix + init;
      assert p[|p| - 1] == c;
      LastSegmentOfJoin(prefix, init);
    }
  }

  lemma LastDotAfter(name: string, ext: string)
    requires '.' !in ext
    ensures LastDot(name + "." + ext) == Some(|name|)
  {
    var s := name + "." + ext;
    assert s[|name|] == '.';
    assert s[|name| + 1..] == ext;
    LastDotSuffix(s, |name|);
  }

  lemma {:induction false} LastDotSuffix(s: string, d: nat)
    requires d < |s| && s[d] == '.' && '.' !in s[d + 1..]
    ensures LastDot(s) == Some(d)
    decreases |s|
  {
    if d < |s| - 1 {
      assert s[|s| - 1] in s[d + 1..];
      var t := s[..|s| - 1];
      assert t[d + 1..] == s[d + 1..|s| - 1];
      assert t[d + 1..] == s[d + 1..][..|s| - d - 2];
      LastDotSuffix(t, d);
    }
  }
}
