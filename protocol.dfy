/**
 * The live-reload protocol end to end: what the server broadcasts and what
 * a tab does on receiving it. The serialiser and parser are parameters;
 * the only thing required of them is `RoundTrips`, that parsing a serialised
 * value gives the value back. Also here: the two places where the page and
 * the client script do not fit together, each as written and as corrected.
 */
module Protocol {
  import opened Wrappers
  import opened Text
  import opened Json
  import opened Files
  import opened Preview
  import opened Http
  import M = ClientModel

  /** `JSON.parse(JSON.stringify(v))` is `v` for every value. */
  ghost predicate RoundTrips(parse: string -> Option<Json>, stringify: Json -> string)
  {
    forall j :: parse(stringify(j)) == Some(j)
  }

  /** A tab receiving the broadcast of `reload` applies the rendered markup and style unchanged. */
  lemma UpdateArrivesUntransformed(t: M.State, r: Rendered, parse: string -> Option<Json>,
                                   stringify: Json -> string, sections: M.SectionQuery)
    requires RoundTrips(parse, stringify)
    ensures M.OnMessage(t, stringify(UpdateMessage(r)), parse, sections)
            == M.ApplyUpdate(t, Some(JStr(r.html)), Some(JStr(r.css)), sections)
  {
    assert parse(stringify(UpdateMessage(r))) == Some(UpdateMessage(r));
    assert Field(UpdateMessage(r), "type") == Some(JStr("update"));
  }

  /**
   * Reloading the markdown the page was served from: the tab opened on `/`
   * and then sent the update of `/api/reload` with that same markdown ends
   * up with the rendered markup in its container, the style untouched (no
   * write, so no flicker) and its slides re-indexed.
   */
  lemma ReloadOfServedMarkdownKeepsStyle(cfg: Config, page: Request, post: Request, sections: M.SectionQuery)
    requires RoundTrips(cfg.parse, cfg.stringify)
    requires page.url == "/" && post.url == "/api/reload" && post.verb == "POST"
    requires cfg.fs(cfg.markdownFile) == Found(Concat(post.chunks))
    requires cfg.render(Concat(post.chunks)).Some?
    ensures Respond(cfg, page).0.body.Document?
    ensures Respond(cfg, post).1.Some?
    ensures var doc := Respond(cfg, page).0.body.page;
      var t := M.Loaded(Some(doc.container), Some(doc.marpStyle), sections);
      var t' := M.OnMessage(t, Respond(cfg, post).1.value, cfg.parse, sections);
      && t'.container == Some(cfg.render(Concat(post.chunks)).value.html)
      && t'.style == t.style && t'.styleWrites == 0
      && t'.slides == sections(t'.container.value)
      && M.KeyPart(t') == M.KeyPart(t) && t'.scrolls == []
  {
    var r := cfg.render(Concat(post.chunks)).value;
    var doc := Respond(cfg, page).0.body.page;
    assert doc == PageFor(r, cfg.port);
    var t := M.Loaded(Some(doc.container), Some(doc.marpStyle), sections);
    UpdateArrivesUntransformed(t, r, cfg.parse, cfg.stringify, sections);
    M.UpdateSpec(t, r.html, r.css, sections);
  }

  /**
   * `/api/command` relays a command unchanged: a tab reacts to the
   * broadcast exactly as it would to the posted body itself.
   */
  lemma PostedCommandReachesTab(cfg: Config, req: Request, t: M.State, sections: M.SectionQuery)
    requires RoundTrips(cfg.parse, cfg.stringify)
    requires req.url == "/api/command" && req.verb == "POST"
    requires cfg.parse(Concat(req.chunks)).Some?
    ensures Respond(cfg, req).0.status == 200 && Respond(cfg, req).1.Some?
    ensures M.OnMessage(t, Respond(cfg, req).1.value, cfg.parse, sections)
            == M.OnMessage(t, Concat(req.chunks), cfg.parse, sections)
  {
    var command := cfg.parse(Concat(req.chunks)).value;
    assert cfg.parse(cfg.stringify(command)) == Some(command);
  }

  /**
   * Posting `{"command":"goto","slide":3}`, or the same with `"3"` as a
   * string, to a tab showing five slides scrolls it to the third.
   */
  lemma PostedGotoScrolls(cfg: Config, req: Request, slide: Json, t: M.State, sections: M.SectionQuery)
    requires RoundTrips(cfg.parse, cfg.stringify)
    requires req.url == "/api/command" && req.verb == "POST"
    requires slide == JNum(3) || slide == JStr("3")
    requires cfg.parse(Concat(req.chunks)) == Some(JObj(map["command" := JStr("goto"), "slide" := slide]))
    requires |t.slides| == 5
    ensures Respond(cfg, req).1.Some?
    ensures M.OnMessage(t, Respond(cfg, req).1.value, cfg.parse, sections)
            == t.(scrolls := t.scrolls + [M.ToSlide(2)])
  {
    var data := JObj(map["command" := JStr("goto"), "slide" := slide]);
    PostedCommandReachesTab(cfg, req, t, sections);
    assert Field(data, "type") == None && Field(data, "command") == Some(JStr("goto"));
    assert Field(data, "slide") == Some(slide);
    assert M.OnMessage(t, Concat(req.chunks), cfg.parse, sections) == M.GoToSlide(t, M.ParseSlide(Some(slide))).0;
    if slide == JNum(3) {
      M.NumericGoto(t, 3);
    } else {
      assert ToJsString(Some(slide)) == Some("3");
      ParseDigits("3");
      assert DigitsValue("3") == 3;
    }
  }

  // ---------------------------------------------------------------------
  // The WebSocket address
  // ---------------------------------------------------------------------

  /** As written: the tab connects to `window.location.host`, the HTTP server's own port. */
  function SocketPortAsWritten(pagePort: int): int
  {
    pagePort
  }

  /** As corrected: the tab connects to the port the page advertises in its `ws-port` meta tag. */
  function SocketPort(doc: PageDoc): int
  {
    doc.wsPort
  }

  /**
   * The served page advertises the channel's port, and the tab as written
   * connects elsewhere, so it never receives an update or command.
   */
  lemma TabMissesChannel(cfg: Config, req: Request)
    requires req.url == "/" && Respond(cfg, req).0.status == 200
    ensures Respond(cfg, req).0.body.Document?
    ensures var doc := Respond(cfg, req).0.body.page;
      doc.wsPort == ChannelPort(cfg.port) && SocketPortAsWritten(cfg.port) != doc.wsPort
  {
  }

  /** With the corrected address the tab reaches the channel for every page served. */
  lemma TabReachesChannel(cfg: Config, req: Request)
    requires req.url == "/"
    ensures Respond(cfg, req).0.status == 200 <==>
      RenderPage(cfg.fs, cfg.markdownFile, cfg.render, cfg.port).Some?
    ensures Respond(cfg, req).0.status == 200 ==>
      Respond(cfg, req).0.body.Document? && SocketPort(Respond(cfg, req).0.body.page) == ChannelPort(cfg.port)
  {
  }

  // ---------------------------------------------------------------------
  // The help toggle
  // ---------------------------------------------------------------------

  /**
   * The inline display starts empty and the page's stylesheet hides the
   * box, so as written the first `?` writes `none` and nothing appears;
   * only the second press shows the box. The corrected toggle shows it at
   * the first press.
   */
  lemma FirstHelpPressShowsNothing(container: Option<string>, style: Option<string>, sections: M.SectionQuery)
    ensures var t := M.Loaded(container, style, sections);
      && !M.Shown(t.helpDisplay)
      && var once := M.OnKey(t, M.Press("?"));
      && once.helpDisplay == "none" && !M.Shown(once.helpDisplay)
      && M.Shown(M.OnKey(once, M.Press("?")).helpDisplay)
      && M.Shown(M.ToggleHelp(t.helpDisplay))
  {
  }

  /** The corrected toggle flips visibility at every press, from any inline value. */
  lemma ToggleHelpFlips(display: string)
    ensures M.Shown(M.ToggleHelp(display)) <==> !M.Shown(display)
    ensures M.ToggleHelp(M.ToggleHelp(display)) == (if M.Shown(display) then display else "none")
  {
  }

  /** As written, a press leaves the box hidden exactly when the inline value was anything but `none`. */
  lemma ToggleHelpAsWrittenShows(display: string)
    ensures M.Shown(M.ToggleHelpAsWritten(display)) <==> display == "none"
  {
  }
}
