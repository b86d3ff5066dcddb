/**
 * The browser client (src/client.js) as the script runs it: the closure
 * variables and the page elements it touches are fields, each listener and
 * timer callback is a method, and every method is proved to perform exactly
 * the transition ClientModel defines for that event.
 */
module ClientPage {
  import opened Wrappers
  import opened Text
  import opened Json
  import M = ClientModel

  class Tab {
    var slides: seq<string>
    var lastKey: string
    var command: string
    var commandMode: bool
    var container: Option<string>
    var style: Option<string>
    var styleWrites: nat
    var helpDisplay: string
    var prompt: M.Prompt
    var scrolls: seq<M.Scroll>
    var closed: bool
    var chordTimers: nat
    var errorTimers: nat

    /** How the page's markup yields its `section[id]` texts, and `JSON.parse`. */
    const sections: M.SectionQuery
    const parse: string -> Option<Json>

    ghost function Snapshot(): M.State
      reads this
    {
      M.State(slides, lastKey, command, commandMode, container, style, styleWrites,
              helpDisplay, prompt, scrolls, closed, chordTimers, errorTimers)
    }

    ghost predicate Valid()
      reads this
    {
      M.Valid(Snapshot())
    }

    /** The `DOMContentLoaded` handler: index the slides and start with empty chord and buffer in normal mode. */
    constructor (container0: Option<string>, style0: Option<string>, sections: M.SectionQuery, parse: string -> Option<Json>)
      ensures Snapshot() == M.Loaded(container0, style0, sections) && Valid()
      ensures this.sections == sections && this.parse == parse
    {
      this.sections := sections;
      this.parse := parse;
      container, style := container0, style0;
      slides := M.SlidesOf(container0, sections);
      lastKey, command, commandMode := "", "", false;
      styleWrites := 0;
      helpDisplay := "";
      prompt := M.Prompt("", "", "");
      scrolls, closed := [], false;
      chordTimers, errorTimers := 0, 0;
    }

    method GoToSlide(n: Option<int>) returns (ok: bool)
      modifies this
      ensures (Snapshot(), ok) == M.GoToSlide(old(Snapshot()), n)
    {
      if n.None? {
        return false;
      }
      if n.value <= 0 {
        return false;
      }
      if n.value > |slides| {
        return false;
      }
      scrolls := scrolls + [M.ToSlide(n.value - 1)];
      return true;
    }

    /** The search loop with its `found` flag: it scrolls at the first match and stops. */
    method FindSlideByString(needle: string) returns (found: bool)
      modifies this
      ensures (Snapshot(), found) == M.FindSlideByString(old(Snapshot()), needle)
    {
      var lower := Lower(needle);
      found := false;
      var i := 0;
      while i < |slides| && !found
        invariant 0 <= i <= |slides|
        invariant slides == old(slides) && Snapshot() == old(Snapshot()).(scrolls := scrolls)
        invariant !found ==> scrolls == old(scrolls)
        invariant !found ==> forall k :: 0 <= k < i ==> !M.Matches(slides[k], needle)
        invariant found ==> 0 < i && M.FirstMatch(slides, needle) == Some(i - 1)
                            && scrolls == old(scrolls) + [M.ToSlide(i - 1)]
      {
        if Contains(Lower(slides[i]), lower) {
          scrolls := scrolls + [M.ToSlide(i)];
          found := true;
        }
        i := i + 1;
      }
    }

    method UpdatePrompt(text: string, isError: bool)
      modifies this
      ensures Snapshot() == M.UpdatePrompt(old(Snapshot()), text, isError)
    {
      if commandMode {
        prompt := M.Prompt("block", text, if isError then "red" else "white");
      } else {
        prompt := prompt.(display := "none", color := "white");
      }
    }

    /** The `keydown` listener. */
    method HandleKey(e: M.KeyEvent)
      requires Valid()
      modifies this
      ensures Snapshot() == M.OnKey(old(Snapshot()), e) && Valid()
    {
      if commandMode {
        CommandKey(e);
      } else {
        NormalKey(e);
      }
      M.OnKeyKeepsValid(old(Snapshot()), e);
    }

    method CommandKey(e: M.KeyEvent)
      requires commandMode
      modifies this
      ensures Snapshot() == M.CommandKey(old(Snapshot()), e)
    {
      if e.key == "Enter" {
        var slideNumber := ParseInt(command);
        var ok := GoToSlide(slideNumber);
        if ok {
          commandMode := false;
          command := "";
          UpdatePrompt(":" + command, false);
        } else {
          UpdatePrompt(M.ErrorText, true);
          errorTimers := errorTimers + 1;
        }
      } else if e.key == "Backspace" {
        command := M.DropLast(command);
        UpdatePrompt(":" + command, false);
      } else if M.IsDigitKey(e.key) {
        command := command + e.key;
        UpdatePrompt(":" + command, false);
      } else if e.key == "Escape" {
        commandMode := false;
        command := "";
        UpdatePrompt(":" + command, false);
      }
    }

    method NormalKey(e: M.KeyEvent)
      requires !commandMode
      modifies this
      ensures Snapshot() == M.NormalKey(old(Snapshot()), e)
    {
      if e.key == "g" {
        if lastKey == "g" {
          if |slides| > 0 {
            scrolls := scrolls + [M.ToSlide(0)];
          }
          lastKey := "";
        } else {
          lastKey := "g";
          chordTimers := chordTimers + 1;
        }
      } else if e.key == "G" {
        if |slides| > 0 {
          scrolls := scrolls + [M.ToSlide(|slides| - 1)];
        }
        lastKey := "";
      } else if e.key == ":" {
        commandMode := true;
        command := "";
        lastKey := "";
        UpdatePrompt(":" + command, false);
      } else if e.key == "j" {
        ScrollBy(M.TenthDown);
      } else if e.key == "k" {
        ScrollBy(M.TenthUp);
      } else if e.key == "u" && e.ctrlKey {
        ScrollBy(M.HalfUp);
      } else if e.key == "d" && e.ctrlKey {
        ScrollBy(M.HalfDown);
      } else if (e.key == "f" || e.key == "n") && e.ctrlKey {
        ScrollBy(M.PageDown);
      } else if (e.key == "b" || e.key == "p") && e.ctrlKey {
        ScrollBy(M.PageUp);
      } else if e.key == "?" {
        helpDisplay := M.ToggleHelpAsWritten(helpDisplay);
        lastKey := "";
      } else {
        lastKey := "";
      }
    }

    method ScrollBy(step: M.ScrollStep)
      modifies this
      ensures Snapshot() == M.ScrollAndReset(old(Snapshot()), M.By(step))
    {
      scrolls := scrolls + [M.By(step)];
      lastKey := "";
    }

    /** The 500 ms chord reset. */
    method ChordTimerFires()
      requires Valid() && chordTimers > 0
      modifies this
      ensures Snapshot() == M.ChordTimerFires(old(Snapshot())) && Valid()
    {
      lastKey := "";
      chordTimers := chordTimers - 1;
      M.ChordTimerKeepsValid(old(Snapshot()));
    }

    /** The 2000 ms reset after a failed Enter. */
    method ErrorTimerFires()
      requires Valid() && errorTimers > 0
      modifies this
      ensures Snapshot() == M.ErrorTimerFires(old(Snapshot())) && Valid()
    {
      errorTimers := errorTimers - 1;
      commandMode := false;
      command := "";
      UpdatePrompt(":" + command, false);
      M.ErrorTimerKeepsValid(old(Snapshot()));
    }

    /** `ws.onmessage`: route a raw push message. */
    method HandleMessage(raw: string)
      requires Valid()
      modifies this
      ensures Snapshot() == M.OnMessage(old(Snapshot()), raw, parse, sections) && Valid()
    {
      var parsed := parse(raw);
      M.OnMessageKeepsKeys(old(Snapshot()), raw, parse, sections);
      if parsed.None? {
        return;
      }
      var data := parsed.value;
      if Field(data, "type") == Some(JStr("update")) {
        ApplyUpdate(Field(data, "html"), Field(data, "css"));
      } else if Field(data, "command") == Some(JStr("goto")) && Truthy(Field(data, "slide")) {
        var ok := GoToSlide(M.ParseSlide(Field(data, "slide")));
      } else if Field(data, "command") == Some(JStr("find")) && Truthy(Field(data, "string")) {
        var s := Field(data, "string").value;
        if s.JStr? {
          var ok := FindSlideByString(s.s);
        }
      } else if Field(data, "command") == Some(JStr("close_preview")) {
        closed := true;
      }
    }

    /** The `update` branch: morph, restyle on change, re-index; a conversion that throws ends it there. */
    method ApplyUpdate(html: Option<Json>, css: Option<Json>)
      modifies this
      ensures Snapshot() == M.ApplyUpdate(old(Snapshot()), html, css, sections)
    {
      if container.Some? {
        var markup := ToJsString(html);
        if markup.None? {
          return;
        }
        container := Some(markup.value);
      }
      if style.None? {
        return;
      }
      if css != Some(JStr(style.value)) {
        var text := M.InnerHtmlText(css);
        if text.None? {
          return;
        }
        style := Some(text.value);
        styleWrites := styleWrites + 1;
      }
      slides := M.SlidesOf(container, sections);
    }
  }
}
