/**
 * The render-and-broadcast side of the preview (src/marp-dev-preview.mjs):
 * `reload(markdown)`, the file watcher that feeds it, and the page template.
 * The renderer is a parameter that may fail; the connected WebSocket clients
 * are an array of inboxes, one sequence of received messages per client.
 */
module Preview {
  import opened Wrappers
  import opened Json
  import opened Files

  datatype Rendered = Rendered(html: string, css: string)

  /** `renderMarp(markdown)`; `None` when the engine throws. */
  type Renderer = string -> Option<Rendered>

  /** The object `reload` serialises: `{type: 'update', html, css}`. */
  function UpdateMessage(r: Rendered): Json
  {
    JObj(map["type" := JStr("update"), "html" := JStr(r.html), "css" := JStr(r.css)])
  }

  /** `for (const ws of wss.clients) ws.send(message)`: every client receives this one message. */
  method Broadcast(clients: array<seq<string>>, message: string)
    modifies clients
    ensures forall i :: 0 <= i < clients.Length ==> clients[i] == old(clients[i]) + [message]
  {
    for i := 0 to clients.Length
      invariant forall k :: 0 <= k < i ==> clients[k] == old(clients[k]) + [message]
      invariant forall k :: i <= k < clients.Length ==> clients[k] == old(clients[k])
    {
      clients[i] := clients[i] + [message];
    }
  }

  /**
   * `reload(markdown)`: render, serialise once, send to every client and
   * answer true; when the renderer throws nothing is sent and the answer is
   * false.
   */
  method Reload(markdown: string, render: Renderer, stringify: Json -> string, clients: array<seq<string>>)
    returns (ok: bool)
    modifies clients
    ensures ok <==> render(markdown).Some?
    ensures ok ==> forall i :: 0 <= i < clients.Length ==>
      clients[i] == old(clients[i]) + [stringify(UpdateMessage(render(markdown).value))]
    ensures !ok ==> clients[..] == old(clients[..])
  {
    var rendered := render(markdown);
    if rendered.None? {
      return false;
    }
    var message := stringify(UpdateMessage(rendered.value));
    Broadcast(clients, message);
    return true;
  }

  /**
   * What a change event came to: `reload` ran with its answer; or the
   * listener's promise was rejected, which nothing handles, so the server
   * process ends; or (only with the guarded listener) the change was skipped.
   */
  datatype ChangeOutcome = Reloaded(ok: bool) | Crashed | Skipped

  /**
   * The `change` listener as written: the read is awaited without a
   * `try`, so a failed read rejects the listener and ends the server.
   */
  function ChangeOutcomeAsWritten(read: FileRead, render: Renderer): ChangeOutcome
  {
    match read
    case Found(md) => Reloaded(render(md).Some?)
    case _ => Crashed
  }

  /** The listener with the read guarded: a failed read skips this change and the watcher goes on. */
  function GuardedChangeOutcome(read: FileRead, render: Renderer): ChangeOutcome
  {
    match read
    case Found(md) => Reloaded(render(md).Some?)
    case _ => Skipped
  }

  /** As written, a file that cannot be read when the change arrives (removed, renamed away) ends the server. */
  lemma FailedReadEndsServer(fs: FileSystem, markdownFile: string, render: Renderer)
    requires !fs(markdownFile).Found?
    ensures ChangeOutcomeAsWritten(fs(markdownFile), render) == Crashed
    ensures GuardedChangeOutcome(fs(markdownFile), render) == Skipped
  {
  }

  /**
   * The guarded listener never ends the server, and on every readable file
   * it does exactly what the one as written does.
   */
  lemma GuardedWatcherSurvives(read: FileRead, render: Renderer)
    ensures GuardedChangeOutcome(read, render) != Crashed
    ensures read.Found? ==> GuardedChangeOutcome(read, render) == ChangeOutcomeAsWritten(read, render)
    ensures !read.Found? <==> GuardedChangeOutcome(read, render) == Skipped
  {
  }

  /**
   * The watcher's `change` handler: read the whole file and `reload` exactly
   * its contents; a failed read ends the server with nothing sent.
   */
  method OnFileChange(fs: FileSystem, markdownFile: string, render: Renderer, stringify: Json -> string,
                      clients: array<seq<string>>)
    returns (outcome: ChangeOutcome)
    modifies clients
    ensures outcome == ChangeOutcomeAsWritten(fs(markdownFile), render)
    ensures fs(markdownFile).Found? && render(fs(markdownFile).content).Some? ==>
      forall i :: 0 <= i < clients.Length ==>
        clients[i] == old(clients[i]) + [stringify(UpdateMessage(render(fs(markdownFile).content).value))]
    ensures !(fs(markdownFile).Found? && render(fs(markdownFile).content).Some?) ==> clients[..] == old(clients[..])
  {
    var read := fs(markdownFile);
    if !read.Found? {
      return Crashed;
    }
    var ok := Reload(read.content, render, stringify, clients);
    return Reloaded(ok);
  }

  /**
   * The document `renderMarp()` serves, reduced to what the client reads:
   * the advertised WebSocket port, the text of `#marp-style` and the
   * contents of `#marp-container`.
   */
  datatype PageDoc = PageDoc(wsPort: int, marpStyle: string, container: string)

  /** The port the WebSocket server listens on, for the HTTP port. */
  function ChannelPort(port: int): int
  {
    port + 1
  }

  /**
   * The template advertises the channel's port in `ws-port`, puts `css`
   * alone inside `#marp-style` and `html`, indented, inside `#marp-container`.
   */
  function PageFor(r: Rendered, port: int): PageDoc
  {
    PageDoc(ChannelPort(port), r.css, Indented(r.html))
  }

  /** The white space the template writes around the markup in the container. */
  function Indented(html: string): string
  {
    "\n        " + html + "\n      "
  }

  /** `renderMarp()`: read the file and render it; `None` when either throws. */
  function RenderPage(fs: FileSystem, markdownFile: string, render: Renderer, port: int): (page: Option<PageDoc>)
    ensures page.Some? <==> fs(markdownFile).Found? && render(fs(markdownFile).content).Some?
    ensures page.Some? ==>
      (page.value.marpStyle == render(fs(markdownFile).content).value.css
       && page.value.container == Indented(render(fs(markdownFile).content).value.html)
       && page.value.wsPort == ChannelPort(port))
  {
    match fs(markdownFile)
    case Found(md) =>
      (match render(md)
       case Some(r) => Some(PageFor(r, port))
       case None => None)
    case _ => None
  }
}
