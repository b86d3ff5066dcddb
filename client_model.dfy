/**
 * The browser client of the preview (src/client.js) as a state machine on
 * values: the tab's state, one transition function per event (a key press,
 * a push message, each of the two timers), and the properties the client
 * promises, proved about those functions. The class in ClientPage runs the
 * same machine imperatively and is proved equal to these functions.
 */
module ClientModel {
  import opened Wrappers
  import opened Text
  import opened Json

  /** The fractions of the viewport height `window.scrollBy` moves by: 0.1, 0.5 and 0.9, down or up. */
  datatype ScrollStep = TenthDown | TenthUp | HalfDown | HalfUp | PageDown | PageUp

  /** A scroll effect: smoothly to a slide (0-based index into the slide list) or by a step. */
  datatype Scroll = ToSlide(index: nat) | By(step: ScrollStep)

  /** The inline style and text of `#command-prompt`. */
  datatype Prompt = Prompt(display: string, text: string, color: string)

  datatype KeyEvent = KeyEvent(key: string, ctrlKey: bool)

  /** What `document.querySelectorAll('section[id]')` yields, as text contents, for a container's markup. */
  type SectionQuery = string -> seq<string>

  /**
   * One browser tab. `slides`, `lastKey`, `command` and `commandMode` are the
   * script's own variables; `container` and `style` are the contents of
   * `#marp-container` and `#marp-style` (`None` when the element is absent);
   * `helpDisplay` is the inline `style.display` of `#help-box`. The rest
   * records effects: the scrolls issued, the writes to the style element,
   * whether `window.close()` was called, and the timers still pending.
   */
  datatype State = State(
    slides: seq<string>,
    lastKey: string,
    command: string,
    commandMode: bool,
    container: Option<string>,
    style: Option<string>,
    styleWrites: nat,
    helpDisplay: string,
    prompt: Prompt,
    scrolls: seq<Scroll>,
    closed: bool,
    chordTimers: nat,
    errorTimers: nat)

  const ErrorText := "Error: Slide not found."

  /** The page's stylesheet hides both boxes; only an inline `block` shows them. */
  predicate Shown(display: string) { display == "block" }

  function SlidesOf(container: Option<string>, sections: SectionQuery): seq<string>
  {
    match container
    case Some(html) => sections(html)
    case None => []
  }

  /**
   * The invariant of the key machine: the buffer holds digits only and is
   * empty outside command mode; the prompt is shown exactly in command mode,
   * where it reads `:` and the buffer in white, or the error text in red
   * while the error timer that will clear it is pending; a pending chord
   * always has its reset timer.
   */
  predicate Valid(t: State)
  {
    && AllDigits(t.command)
    && (!t.commandMode ==> t.command == "")
    && (t.lastKey == "" || t.lastKey == "g")
    && (t.lastKey == "g" ==> t.chordTimers > 0)
    && (Shown(t.prompt.display) <==> t.commandMode)
    && (t.commandMode ==>
          (t.prompt.text == ":" + t.command && t.prompt.color == "white")
          || (t.prompt.text == ErrorText && t.prompt.color == "red" && t.errorTimers > 0))
  }

  /** The state right after `DOMContentLoaded`, for the page's container and style contents. */
  function Loaded(container: Option<string>, style: Option<string>, sections: SectionQuery): (t: State)
    ensures Valid(t) && !t.commandMode && t.lastKey == "" && t.scrolls == [] && !t.closed
    ensures !Shown(t.prompt.display) && !Shown(t.helpDisplay)
    ensures t.slides == SlidesOf(container, sections)
  {
    State(SlidesOf(container, sections), "", "", false, container, style, 0, "", Prompt("", "", ""), [], false, 0, 0)
  }

  // ---------------------------------------------------------------------
  // Navigation primitives
  // ---------------------------------------------------------------------

  /** The slide numbers `goToSlide` accepts: a number (not `NaN`) from 1 to the slide count. */
  predicate ValidSlideNumber(n: Option<int>, count: nat)
  {
    n.Some? && 1 <= n.value <= count
  }

  /** `goToSlide(n)`: its result, and a scroll to `slides[n - 1]` only when it is true. */
  function GoToSlide(t: State, n: Option<int>): (State, bool)
  {
    if n.None? then (t, false)
    else if n.value <= 0 then (t, false)
    else if n.value > |t.slides| then (t, false)
    else (t.(scrolls := t.scrolls + [ToSlide(n.value - 1)]), true)
  }

  /** A slide matches a search string when its lower-cased text contains the lower-cased string. */
  predicate Matches(text: string, needle: string)
  {
    Contains(Lower(text), Lower(needle))
  }

  /** The reference definition of the search: the first matching slide, in document order. */
  function FirstMatch(slides: seq<string>, needle: string): (r: Option<nat>)
    ensures r.Some? ==> r.value < |slides| && Matches(slides[r.value], needle)
    ensures r.Some? ==> forall k :: 0 <= k < r.value ==> !Matches(slides[k], needle)
    ensures r.None? <==> forall k :: 0 <= k < |slides| ==> !Matches(slides[k], needle)
  {
    if slides == [] then None
    else if Matches(slides[0], needle) then Some(0)
    else match FirstMatch(slides[1..], needle)
      case None => None
      case Some(i) => Some(i + 1)
  }

  /** `findSlideByString(s)`: scrolls to the first matching slide and reports whether one exists. */
  function FindSlideByString(t: State, needle: string): (State, bool)
  {
    match FirstMatch(t.slides, needle)
    case Some(i) => (t.(scrolls := t.scrolls + [ToSlide(i)]), true)
    case None => (t, false)
  }

  /** `updatePrompt(text, isError)`: outside command mode it hides the prompt and keeps its text. */
  function UpdatePrompt(t: State, text: string, isError: bool): State
  {
    if t.commandMode then t.(prompt := Prompt("block", text, if isError then "red" else "white"))
    else t.(prompt := t.prompt.(display := "none", color := "white"))
  }

  /** `command.slice(0, -1)`. */
  function DropLast(s: string): string
  {
    if s == "" then "" else s[..|s| - 1]
  }

  /**
   * The toggle of `?` as the script writes it: it tests the inline value
   * only, so from the initial empty value it writes `none` (see Protocol).
   */
  function ToggleHelpAsWritten(display: string): string
  {
    if display == "none" then "block" else "none"
  }

  /** The toggle of `?` as corrected: it flips what is shown, whatever the inline value. */
  function ToggleHelp(display: string): string
  {
    if Shown(display) then "none" else "block"
  }

  // ---------------------------------------------------------------------
  // The key machine
  // ---------------------------------------------------------------------

  /**
   * The test `e.key.length === 1 && !isNaN(parseInt(e.key, 10))`; by
   * DigitKeyIsParsedKey it holds exactly for a single ASCII digit.
   */
  predicate IsDigitKey(key: string)
  {
    |key| == 1 && IsDigit(key[0])
  }

  lemma DigitKeyIsParsedKey(key: string)
    ensures IsDigitKey(key) <==> |key| == 1 && ParseInt(key).Some?
  {
    if |key| == 1 {
      ParseSingleChar(key[0]);
      assert [key[0]] == key;
    }
  }

  /** A key press in command mode. */
  function CommandKey(t: State, e: KeyEvent): State
    requires t.commandMode
  {
    if e.key == "Enter" then
      var (t1, ok) := GoToSlide(t, ParseInt(t.command));
      if ok then UpdatePrompt(t1.(commandMode := false, command := ""), ":", false)
      else UpdatePrompt(t1, ErrorText, true).(errorTimers := t.errorTimers + 1)
    else if e.key == "Backspace" then
      var c := DropLast(t.command);
      UpdatePrompt(t.(command := c), ":" + c, false)
    else if IsDigitKey(e.key) then
      var c := t.command + e.key;
      UpdatePrompt(t.(command := c), ":" + c, false)
    else if e.key == "Escape" then
      UpdatePrompt(t.(commandMode := false, command := ""), ":", false)
    else t
  }

  function ScrollAndReset(t: State, s: Scroll): State
  {
    t.(scrolls := t.scrolls + [s], lastKey := "")
  }

  /** A key press in normal mode. */
  function NormalKey(t: State, e: KeyEvent): State
    requires !t.commandMode
  {
    if e.key == "g" then
      if t.lastKey == "g" then
        (if |t.slides| > 0 then t.(scrolls := t.scrolls + [ToSlide(0)]) else t).(lastKey := "")
      else t.(lastKey := "g", chordTimers := t.chordTimers + 1)
    else if e.key == "G" then
      (if |t.slides| > 0 then t.(scrolls := t.scrolls + [ToSlide(|t.slides| - 1)]) else t).(lastKey := "")
    else if e.key == ":" then
      UpdatePrompt(t.(commandMode := true, command := "", lastKey := ""), ":", false)
    else if e.key == "j" then ScrollAndReset(t, By(TenthDown))
    else if e.key == "k" then ScrollAndReset(t, By(TenthUp))
    else if e.key == "u" && e.ctrlKey then ScrollAndReset(t, By(HalfUp))
    else if e.key == "d" && e.ctrlKey then ScrollAndReset(t, By(HalfDown))
    else if (e.key == "f" || e.key == "n") && e.ctrlKey then ScrollAndReset(t, By(PageDown))
    else if (e.key == "b" || e.key == "p") && e.ctrlKey then ScrollAndReset(t, By(PageUp))
    else if e.key == "?" then t.(helpDisplay := ToggleHelpAsWritten(t.helpDisplay), lastKey := "")
    else t.(lastKey := "")
  }

  /** The `keydown` listener. */
  function OnKey(t: State, e: KeyEvent): State
  {
    if t.commandMode then CommandKey(t, e) else NormalKey(t, e)
  }

  /** The 500 ms callback of a `g` press: it clears the chord whatever happened since. */
  function ChordTimerFires(t: State): State
    requires t.chordTimers > 0
  {
    t.(lastKey := "", chordTimers := t.chordTimers - 1)
  }

  /** The 2000 ms callback of a failed Enter: it leaves command mode without checking the state. */
  function ErrorTimerFires(t: State): State
    requires t.errorTimers > 0
  {
    UpdatePrompt(t.(commandMode := false, command := "", errorTimers := t.errorTimers - 1), ":", false)
  }

  // ---------------------------------------------------------------------
  // Push messages
  // ---------------------------------------------------------------------

  /**
   * An `update` message: morph the container (if present) to the new markup,
   * rewrite the style only when its text differs, then re-index the slides.
   * Each step that throws ends the handler there, and the throw is caught:
   * the markup's conversion (only evaluated when the container exists)
   * before anything changed; reading `innerHTML` of an absent `#marp-style`,
   * or the setter's conversion of `css`, after the container was patched.
   */
  function ApplyUpdate(t: State, html: Option<Json>, css: Option<Json>, sections: SectionQuery): State
  {
    if t.container.Some? && ToJsString(html).None? then t
    else
      var t1 := if t.container.Some? then t.(container := Some(ToJsString(html).value)) else t;
      match t1.style
      case None => t1
      case Some(current) =>
        if css == Some(JStr(current)) then t1.(slides := SlidesOf(t1.container, sections))
        else
          match InnerHtmlText(css)
          case None => t1
          case Some(text) => t1.(style := Some(text), styleWrites := t1.styleWrites + 1, slides := SlidesOf(t1.container, sections))
  }

  /** The text the `innerHTML` setter stores: `null` becomes empty, any other value `String(v)`; `None` when that throws. */
  function InnerHtmlText(v: Option<Json>): (r: Option<string>)
    ensures r.None? <==> v.Some? && StringThrows(v.value)
    ensures v == Some(JNull) ==> r == Some("")
  {
    if v == Some(JNull) then Some("") else ToJsString(v)
  }

  /**
   * `parseInt(data.slide, 10)`. A conversion that throws is caught, and so
   * does nothing, exactly as a `NaN` does in `goToSlide`; both are `None`.
   */
  function ParseSlide(v: Option<Json>): Option<int>
  {
    match ToJsString(v)
    case None => None
    case Some(s) => ParseInt(s)
  }

  /**
   * `ws.onmessage`. A parse failure is caught; `null` throws at the first
   * property access and a non-string search string throws at `toLowerCase`,
   * both caught; any other shape falls through every test.
   */
  function OnMessage(t: State, raw: string, parse: string -> Option<Json>, sections: SectionQuery): State
  {
    match parse(raw)
    case None => t
    case Some(data) =>
      if Field(data, "type") == Some(JStr("update")) then
        ApplyUpdate(t, Field(data, "html"), Field(data, "css"), sections)
      else if Field(data, "command") == Some(JStr("goto")) && Truthy(Field(data, "slide")) then
        GoToSlide(t, ParseSlide(Field(data, "slide"))).0
      else if Field(data, "command") == Some(JStr("find")) && Truthy(Field(data, "string")) then
        match Field(data, "string")
        case Some(JStr(s)) => FindSlideByString(t, s).0
        case _ => t
      else if Field(data, "command") == Some(JStr("close_preview")) then
        t.(closed := true)
      else t
  }

  /** Feeds a sequence of key presses, with no timer firing in between. */
  function Run(t: State, keys: seq<KeyEvent>): State
    decreases |keys|
  {
    if keys == [] then t else Run(OnKey(t, keys[0]), keys[1..])
  }

  function Press(key: string): KeyEvent { KeyEvent(key, false) }

  function DigitKeys(digits: string): seq<KeyEvent>
  {
    if digits == "" then [] else [Press([digits[0]])] + DigitKeys(digits[1..])
  }

  // ---------------------------------------------------------------------
  // The invariant is kept by every event
  // ---------------------------------------------------------------------

  lemma OnKeyKeepsValid(t: State, e: KeyEvent)
    requires Valid(t)
    ensures Valid(OnKey(t, e))
  {
    if t.commandMode {
      CommandKeyKeepsValid(t, e);
    } else {
      NormalKeyKeepsValid(t, e);
    }
  }

  lemma CommandKeyKeepsValid(t: State, e: KeyEvent)
    requires Valid(t) && t.commandMode
    ensures Valid(CommandKey(t, e))
  {
    if e.key == "Enter" {
      if ValidSlideNumber(ParseInt(t.command), |t.slides|) {
        assert CommandKey(t, e).prompt == Prompt("none", t.prompt.text, "white");
      } else {
        assert CommandKey(t, e) == t.(prompt := Prompt("block", ErrorText, "red"), errorTimers := t.errorTimers + 1);
      }
    } else if e.key == "Backspace" {
      var c := DropLast(t.command);
      assert AllDigits(c);
      assert CommandKey(t, e) == t.(command := c, prompt := Prompt("block", ":" + c, "white"));
    } else if IsDigitKey(e.key) {
      var c := t.command + e.key;
      assert AllDigits(c);
      assert CommandKey(t, e) == t.(command := c, prompt := Prompt("block", ":" + c, "white"));
    } else if e.key == "Escape" {
      assert CommandKey(t, e) == t.(commandMode := false, command := "", prompt := t.prompt.(display := "none", color := "white"));
    } else {
      assert CommandKey(t, e) == t;
    }
  }

  lemma NormalKeyKeepsValid(t: State, e: KeyEvent)
    requires Valid(t) && !t.commandMode
    ensures Valid(NormalKey(t, e))
  {
    if e.key == ":" {
      assert NormalKey(t, e) == t.(commandMode := true, command := "", lastKey := "", prompt := Prompt("block", ":", "white"));
    }
  }

  /** The chord reset keeps the invariant and clears the chord, whatever is pending. */
  lemma ChordTimerKeepsValid(t: State)
    requires Valid(t) && t.chordTimers > 0
    ensures Valid(ChordTimerFires(t)) && ChordTimerFires(t).lastKey == ""
    ensures ChordTimerFires(t).command == t.command && ChordTimerFires(t).commandMode == t.commandMode
  {
  }

  /** The error reset keeps the invariant and always ends in normal mode with an empty buffer and the prompt hidden. */
  lemma ErrorTimerKeepsValid(t: State)
    requires Valid(t) && t.errorTimers > 0
    ensures Valid(ErrorTimerFires(t))
    ensures var t' := ErrorTimerFires(t);
      !t'.commandMode && t'.command == "" && !Shown(t'.prompt.display)
      && t'.lastKey == t.lastKey && t'.scrolls == t.scrolls
  {
  }

  /** The part of the state only keys and timers change. */
  function KeyPart(t: State): (string, string, bool, Prompt, string, nat, nat)
  {
    (t.lastKey, t.command, t.commandMode, t.prompt, t.helpDisplay, t.chordTimers, t.errorTimers)
  }

  /** Messages never touch the key machine's variables, the prompt, the help box or the timers. */
  lemma OnMessageKeepsKeys(t: State, raw: string, parse: string -> Option<Json>, sections: SectionQuery)
    ensures KeyPart(OnMessage(t, raw, parse, sections)) == KeyPart(t)
    ensures Valid(t) ==> Valid(OnMessage(t, raw, parse, sections))
  {
    match parse(raw)
    case None =>
    case Some(data) =>
      if Field(data, "type") == Some(JStr("update")) {
        assert KeyPart(ApplyUpdate(t, Field(data, "html"), Field(data, "css"), sections)) == KeyPart(t);
      } else if Field(data, "command") == Some(JStr("goto")) && Truthy(Field(data, "slide")) {
        assert KeyPart(GoToSlide(t, ParseSlide(Field(data, "slide"))).0) == KeyPart(t);
      } else if Field(data, "command") == Some(JStr("find")) && Truthy(Field(data, "string")) {
        match Field(data, "string")
        case Some(JStr(s)) =>
          assert KeyPart(FindSlideByString(t, s).0) == KeyPart(t);
        case _ =>
      }
  }

  // ---------------------------------------------------------------------
  // Navigation
  // ---------------------------------------------------------------------

  /** `goToSlide(n)` is true exactly for 1 <= n <= |slides|; then it scrolls to `slides[n-1]`, otherwise nothing changes. */
  lemma GoToSlideSpec(t: State, n: Option<int>)
    ensures GoToSlide(t, n).1 <==> (n.Some? && 1 <= n.value <= |t.slides|)
    ensures GoToSlide(t, n).1 ==>
      (GoToSlide(t, n).0 == t.(scrolls := t.scrolls + [ToSlide(n.value - 1)]) && n.value - 1 < |t.slides|)
    ensures !GoToSlide(t, n).1 ==> GoToSlide(t, n).0 == t
  {
  }

  /**
   * `findSlideByString(s)` is true exactly when some slide matches; it then
   * scrolls once, to the first match, and no later slide is visited.
   */
  lemma {:induction false} FindSlideByStringSpec(t: State, needle: string)
    ensures FindSlideByString(t, needle).1 <==> exists k :: 0 <= k < |t.slides| && Matches(t.slides[k], needle)
    ensures FindSlideByString(t, needle).1 ==>
      exists i :: 0 <= i < |t.slides| && Matches(t.slides[i], needle)
        && (forall k :: 0 <= k < i ==> !Matches(t.slides[k], needle))
        && FindSlideByString(t, needle).0 == t.(scrolls := t.scrolls + [ToSlide(i)])
    ensures !FindSlideByString(t, needle).1 ==> FindSlideByString(t, needle).0 == t
  {
    match FirstMatch(t.slides, needle)
    case Some(i) =>
      assert Matches(t.slides[i], needle);
    case None =>
  }

  // ---------------------------------------------------------------------
  // Command mode
  // ---------------------------------------------------------------------

  /**
   * Editing the buffer in command mode: a digit is appended, Backspace drops
   * the last character (an empty buffer stays empty), Escape leaves command
   * mode with an empty buffer, any other key but Enter changes nothing; no
   * key in command mode touches the chord or scrolls, except Enter.
   */
  lemma CommandModeEditing(t: State, e: KeyEvent)
    requires Valid(t) && t.commandMode && e.key != "Enter"
    ensures var t' := OnKey(t, e);
      && t'.lastKey == t.lastKey && t'.scrolls == t.scrolls && t'.slides == t.slides
      && (|e.key| == 1 && IsDigit(e.key[0]) ==> t'.command == t.command + e.key && t'.commandMode)
      && (e.key == "Backspace" ==> t'.command == DropLast(t.command) && t'.commandMode)
      && (e.key == "Backspace" && t.command == "" ==> t'.command == "")
      && (e.key == "Escape" ==> !t'.commandMode && t'.command == "" && !Shown(t'.prompt.display))
      && (e.key != "Backspace" && e.key != "Escape" && !(|e.key| == 1 && IsDigit(e.key[0])) ==> t' == t)
  {
    if |e.key| == 1 {
      ParseSingleChar(e.key[0]);
      assert [e.key[0]] == e.key;
    }
  }

  /**
   * Enter in command mode: a buffer naming an existing slide scrolls there
   * and leaves command mode with an empty buffer; any other buffer (the
   * empty one is `NaN`) keeps command mode, shows the error in red and
   * schedules the reset timer.
   */
  lemma CommandEnter(t: State)
    requires Valid(t) && t.commandMode
    ensures var t' := OnKey(t, Press("Enter"));
      var valid := t.command != "" && 1 <= DigitsValue(t.command) <= |t.slides|;
      && (valid ==> !t'.commandMode && t'.command == "" && !Shown(t'.prompt.display)
                    && t'.scrolls == t.scrolls + [ToSlide(DigitsValue(t.command) - 1)])
      && (!valid ==> t'.commandMode && t'.command == t.command && t'.scrolls == t.scrolls
                     && t'.prompt == Prompt("block", ErrorText, "red") && t'.errorTimers == t.errorTimers + 1)
      && t'.lastKey == t.lastKey
  {
    ParseDigits(t.command);
    var n := ParseInt(t.command);
    if t.command != "" && 1 <= DigitsValue(t.command) <= |t.slides| {
      assert n == Some(DigitsValue(t.command));
      assert OnKey(t, Press("Enter")) == t.(scrolls := t.scrolls + [ToSlide(n.value - 1)], commandMode := false,
                                             command := "", prompt := t.prompt.(display := "none", color := "white"));
    } else {
      assert !ValidSlideNumber(n, |t.slides|);
      assert OnKey(t, Press("Enter")) == t.(prompt := Prompt("block", ErrorText, "red"), errorTimers := t.errorTimers + 1);
    }
  }

  /** One digit key in command mode appends the digit and shows the buffer in white. */
  lemma TypeDigit(t: State, c: char)
    requires Valid(t) && t.commandMode && IsDigit(c)
    ensures OnKey(t, Press([c])) == t.(command := t.command + [c], prompt := Prompt("block", ":" + (t.command + [c]), "white"))
    ensures Valid(OnKey(t, Press([c])))
  {
    CommandKeyKeepsValid(t, Press([c]));
  }

  /** The first of several digit keys: one step of Run. */
  lemma RunFirstDigit(t: State, digits: string)
    requires Valid(t) && t.commandMode && AllDigits(digits) && digits != ""
    ensures var t1 := t.(command := t.command + [digits[0]], prompt := Prompt("block", ":" + (t.command + [digits[0]]), "white"));
      && Run(t, DigitKeys(digits)) == Run(t1, DigitKeys(digits[1..]))
      && Valid(t1) && t1.commandMode && AllDigits(digits[1..])
  {
    var keys := DigitKeys(digits);
    assert keys[0] == Press([digits[0]]) && keys[1..] == DigitKeys(digits[1..]);
    TypeDigit(t, digits[0]);
  }

  /**
   * Typing digits in command mode appends them to the buffer, shown live in
   * the prompt, even while the red error of a failed Enter is showing: the
   * first digit puts `:` and the buffer back in white.
   */
  lemma {:induction false} TypingDigits(t: State, digits: string)
    requires Valid(t) && t.commandMode && AllDigits(digits)
    requires digits != "" || t.prompt == Prompt("block", ":" + t.command, "white")
    ensures Run(t, DigitKeys(digits)) == t.(command := t.command + digits, prompt := Prompt("block", ":" + (t.command + digits), "white"))
    decreases |digits|
  {
    if digits == "" {
      assert t.command + digits == t.command;
    } else {
      var c, rest := digits[0], digits[1..];
      RunFirstDigit(t, digits);
      var t1 := t.(command := t.command + [c], prompt := Prompt("block", ":" + (t.command + [c]), "white"));
      TypingDigits(t1, rest);
      assert t1.command + rest == t.command + digits;
    }
  }

  /** The state after `:` and the digits of `digits`, typed from normal mode. */
  function Typed(t: State, digits: string): State
  {
    t.(commandMode := true, command := digits, lastKey := "", prompt := Prompt("block", ":" + digits, "white"))
  }

  lemma TypedRun(t: State, digits: string)
    requires Valid(t) && !t.commandMode && AllDigits(digits)
    ensures Run(t, [Press(":")] + DigitKeys(digits) + [Press("Enter")]) == OnKey(Typed(t, digits), Press("Enter"))
    ensures Valid(Typed(t, digits))
  {
    var typed := DigitKeys(digits);
    var t1 := t.(commandMode := true, command := "", lastKey := "", prompt := Prompt("block", ":", "white"));
    assert Run(t, [Press(":")] + typed + [Press("Enter")]) == Run(t1, typed + [Press("Enter")]) by {
      assert [Press(":")] + typed + [Press("Enter")] == [Press(":")] + (typed + [Press("Enter")]);
      RunCons(t, Press(":"), typed + [Press("Enter")]);
    }
    assert Run(t1, typed) == Typed(t, digits) by {
      TypingDigits(t1, digits);
      assert "" + digits == digits;
    }
    RunConcat(t1, typed, [Press("Enter")]);
    RunCons(Typed(t, digits), Press("Enter"), []);
    assert [Press("Enter")] + [] == [Press("Enter")];
  }

  /**
   * The `:<number>` jump: from normal mode, `:` then the digits of a number
   * naming a slide then Enter scrolls to that slide and ends in normal mode
   * with an empty buffer.
   */
  lemma JumpByNumber(t: State, digits: string)
    requires Valid(t) && !t.commandMode && AllDigits(digits)
    requires digits != "" && 1 <= DigitsValue(digits) <= |t.slides|
    ensures var t' := Run(t, [Press(":")] + DigitKeys(digits) + [Press("Enter")]);
      && !t'.commandMode && t'.command == "" && t'.lastKey == ""
      && t'.scrolls == t.scrolls + [ToSlide(DigitsValue(digits) - 1)]
  {
    TypedRun(t, digits);
    CommandEnter(Typed(t, digits));
  }

  /** A number naming no slide (or no digits at all) leaves the tab in command mode with the error shown, and no scroll. */
  lemma JumpByBadNumber(t: State, digits: string)
    requires Valid(t) && !t.commandMode && AllDigits(digits)
    requires !(digits != "" && 1 <= DigitsValue(digits) <= |t.slides|)
    ensures var t' := Run(t, [Press(":")] + DigitKeys(digits) + [Press("Enter")]);
      && t'.commandMode && t'.command == digits && t'.scrolls == t.scrolls
      && t'.prompt == Prompt("block", ErrorText, "red") && t'.errorTimers == t.errorTimers + 1
  {
    TypedRun(t, digits);
    CommandEnter(Typed(t, digits));
  }

  lemma RunCons(t: State, e: KeyEvent, rest: seq<KeyEvent>)
    ensures Run(t, [e] + rest) == Run(OnKey(t, e), rest)
  {
    assert ([e] + rest)[0] == e && ([e] + rest)[1..] == rest;
  }

  lemma {:induction false} RunConcat(t: State, a: seq<KeyEvent>, b: seq<KeyEvent>)
    ensures Run(t, a + b) == Run(Run(t, a), b)
    decreases |a|
  {
    if a == [] {
      assert a + b == b;
    } else {
      assert (a + b)[0] == a[0];
      assert (a + b)[1..] == a[1..] + b;
      RunConcat(OnKey(t, a[0]), a[1..], b);
    }
  }

  /**
   * The error timer does not check the state: a command typed after a
   * failed Enter, an Escape and a new `:` is wiped when the first timer
   * fires.
   */
  lemma ErrorTimerDiscardsLaterCommand(t: State, digits: string)
    requires Valid(t) && t.commandMode && t.command != "" && |t.slides| < DigitsValue(t.command)
    requires AllDigits(digits) && digits != ""
    ensures var t1 := Run(t, [Press("Enter"), Press("Escape"), Press(":")] + DigitKeys(digits));
      && t1.commandMode && t1.command == digits && t1.errorTimers > 0
      && var t2 := ErrorTimerFires(t1); !t2.commandMode && t2.command == ""
  {
    var a := [Press("Enter"), Press("Escape"), Press(":")];
    CommandEnter(t);
    var s1 := OnKey(t, Press("Enter"));
    OnKeyKeepsValid(t, Press("Enter"));
    var s2 := OnKey(s1, Press("Escape"));
    OnKeyKeepsValid(s1, Press("Escape"));
    var s3 := OnKey(s2, Press(":"));
    OnKeyKeepsValid(s2, Press(":"));
    assert Run(t, a) == s3 by {
      assert a[1..] == [Press("Escape"), Press(":")];
      assert a[1..][1..] == [Press(":")];
    }
    RunConcat(t, a, DigitKeys(digits));
    TypingDigits(s3, digits);
  }

  // ---------------------------------------------------------------------
  // Normal mode
  // ---------------------------------------------------------------------

  /** `gg`: two presses with no chord timer in between scroll to the first slide (if any) and clear the chord. */
  lemma DoubleG(t: State)
    requires Valid(t) && !t.commandMode && t.lastKey == ""
    ensures var t' := Run(t, [Press("g"), Press("g")]);
      && t'.lastKey == "" && !t'.commandMode
      && t'.scrolls == (if |t.slides| > 0 then t.scrolls + [ToSlide(0)] else t.scrolls)
      && t'.chordTimers == t.chordTimers + 1
  {
    var keys := [Press("g"), Press("g")];
    assert keys[1..] == [Press("g")];
    assert keys[1..][1..] == [];
  }

  /** The chord timer breaks the chord: after `g`, the timer, and `g`, nothing scrolled and a new chord is pending. */
  lemma ChordExpires(t: State)
    requires Valid(t) && !t.commandMode && t.lastKey == ""
    ensures var t1 := OnKey(t, Press("g"));
      t1.chordTimers > 0 &&
      var t2 := OnKey(ChordTimerFires(t1), Press("g"));
      t2.lastKey == "g" && t2.scrolls == t.scrolls
  {
  }

  /**
   * The other normal-mode keys: `G` scrolls to the last slide if any, `:`
   * enters command mode with an empty buffer, `?` flips the help box; every
   * key but a first `g` leaves `lastKey` empty.
   */
  lemma NormalKeys(t: State, e: KeyEvent)
    requires Valid(t) && !t.commandMode
    ensures var t' := OnKey(t, e);
      && (e.key == "G" ==> t'.scrolls == (if |t.slides| > 0 then t.scrolls + [ToSlide(|t.slides| - 1)] else t.scrolls))
      && (e.key == ":" ==> t'.commandMode && t'.command == "" && Shown(t'.prompt.display) && t'.prompt.text == ":")
      && (e.key == "?" ==> t'.helpDisplay == ToggleHelpAsWritten(t.helpDisplay)
                           && (Shown(t'.helpDisplay) <==> t.helpDisplay == "none"))
      && (e.key != ":" ==> !t'.commandMode)
      && (e.key != "?" ==> t'.helpDisplay == t.helpDisplay)
      && (!(e.key == "g" && t.lastKey == "") ==> t'.lastKey == "")
      && (e.key == "g" && t.lastKey == "" ==> t'.lastKey == "g" && t'.scrolls == t.scrolls)
  {
  }

  /**
   * The scrolling keys: `j` and `k` whatever the modifiers, `u`, `d`, `f`,
   * `n`, `b`, `p` only with Ctrl, each issuing one scroll; without Ctrl those
   * six only clear the chord.
   */
  lemma ScrollKeys(t: State, e: KeyEvent)
    requires Valid(t) && !t.commandMode
    ensures var t' := OnKey(t, e);
      && (e.key == "j" ==> t'.scrolls == t.scrolls + [By(TenthDown)])
      && (e.key == "k" ==> t'.scrolls == t.scrolls + [By(TenthUp)])
      && (e.ctrlKey && e.key == "d" ==> t'.scrolls == t.scrolls + [By(HalfDown)])
      && (e.ctrlKey && e.key == "u" ==> t'.scrolls == t.scrolls + [By(HalfUp)])
      && (e.ctrlKey && e.key in {"f", "n"} ==> t'.scrolls == t.scrolls + [By(PageDown)])
      && (e.ctrlKey && e.key in {"b", "p"} ==> t'.scrolls == t.scrolls + [By(PageUp)])
      && (!e.ctrlKey && e.key in {"u", "d", "f", "n", "b", "p"} ==> t' == t.(lastKey := ""))
  {
  }

  // ---------------------------------------------------------------------
  // Updates
  // ---------------------------------------------------------------------

  /** An `update` with string fields: the container (if present) holds `html`, the style holds `css`, slides are re-indexed. */
  lemma UpdateSpec(t: State, html: string, css: string, sections: SectionQuery)
    requires t.style.Some?
    ensures var t' := ApplyUpdate(t, Some(JStr(html)), Some(JStr(css)), sections);
      && t'.container == (if t.container.Some? then Some(html) else None)
      && t'.style == Some(css)
      && t'.styleWrites == (if t.style == Some(css) then t.styleWrites else t.styleWrites + 1)
      && t'.slides == SlidesOf(t'.container, sections)
      && t'.scrolls == t.scrolls && t'.commandMode == t.commandMode && t'.command == t.command
  {
  }

  /** Applying the same string update twice is the same as applying it once; in particular the second writes no style. */
  lemma UpdateIdempotent(t: State, html: string, css: string, sections: SectionQuery)
    ensures var once := ApplyUpdate(t, Some(JStr(html)), Some(JStr(css)), sections);
      ApplyUpdate(once, Some(JStr(html)), Some(JStr(css)), sections) == once
  {
  }

  /**
   * Without `#marp-style` the container is still patched (unless its markup
   * throws on conversion) but the slide list is left as it was.
   */
  lemma UpdateWithoutStyle(t: State, html: Option<Json>, css: Option<Json>, sections: SectionQuery)
    requires t.style.None?
    ensures var t' := ApplyUpdate(t, html, css, sections);
      && t'.slides == t.slides && t'.styleWrites == t.styleWrites && t'.style == None
      && t'.container == (if t.container.Some? && ToJsString(html).Some? then Some(ToJsString(html).value) else t.container)
  {
  }

  /**
   * An update whose `css` is not a string never equals the style text under
   * `!==`, so it is written every time: unless its conversion throws, or
   * the markup's conversion threw first, and then nothing is written.
   */
  lemma NonStringCssAlwaysWritten(t: State, html: Option<Json>, css: Option<Json>, sections: SectionQuery)
    requires t.style.Some? && !(css.Some? && css.value.JStr?)
    ensures var t' := ApplyUpdate(t, html, css, sections);
      var blocked := (t.container.Some? && ToJsString(html).None?) || InnerHtmlText(css).None?;
      && (!blocked ==> t'.styleWrites == t.styleWrites + 1 && t'.style == InnerHtmlText(css))
      && (blocked ==> t'.styleWrites == t.styleWrites && t'.style == t.style)
  {
  }

  /**
   * A value whose `String(v)` throws drops the update where it is met: as
   * markup (with a container) it leaves the tab exactly as it was; as the
   * style it leaves the container patched, nothing written and the slides
   * not re-indexed.
   */
  lemma ThrowingUpdateDropped(t: State, html: Option<Json>, css: Option<Json>, sections: SectionQuery)
    ensures t.container.Some? && html.Some? && StringThrows(html.value) ==>
      ApplyUpdate(t, html, css, sections) == t
    ensures !(t.container.Some? && html.Some? && StringThrows(html.value)) && t.style.Some?
            && css.Some? && StringThrows(css.value) ==>
      ApplyUpdate(t, html, css, sections)
        == (if t.container.Some? then t.(container := Some(ToJsString(html).value)) else t)
  {
    if css.Some? && StringThrows(css.value) {
      assert !css.value.JStr?;
    }
  }

  /** Applies a sequence of rendered updates in arrival order. */
  function UpdateAll(t: State, updates: seq<(string, string)>, sections: SectionQuery): State
    decreases |updates|
  {
    if updates == [] then t
    else UpdateAll(ApplyUpdate(t, Some(JStr(updates[0].0)), Some(JStr(updates[0].1)), sections), updates[1..], sections)
  }

  /** The last update wins: after any non-empty sequence of updates the tab shows the last one's markup and style. */
  lemma {:induction false} LastUpdateWins(t: State, updates: seq<(string, string)>, sections: SectionQuery)
    requires t.style.Some? && updates != []
    ensures var t' := UpdateAll(t, updates, sections);
      && t'.container == (if t.container.Some? then Some(updates[|updates| - 1].0) else None)
      && t'.style == Some(updates[|updates| - 1].1)
      && t'.slides == SlidesOf(t'.container, sections)
    decreases |updates|
  {
    var t1 := ApplyUpdate(t, Some(JStr(updates[0].0)), Some(JStr(updates[0].1)), sections);
    if |updates| > 1 {
      LastUpdateWins(t1, updates[1..], sections);
    } else {
      assert updates[1..] == [];
    }
  }

  // ---------------------------------------------------------------------
  // Message routing
  // ---------------------------------------------------------------------

  /**
   * A message that does not parse, or parses to a value with no recognised
   * `type` or `command`, leaves the tab exactly as it was.
   */
  lemma UnrecognisedMessageIgnored(t: State, raw: string, parse: string -> Option<Json>, sections: SectionQuery)
    requires parse(raw).None? ||
      (Field(parse(raw).value, "type") != Some(JStr("update"))
       && Field(parse(raw).value, "command") !in {Some(JStr("goto")), Some(JStr("find")), Some(JStr("close_preview"))})
    ensures OnMessage(t, raw, parse, sections) == t
  {
  }

  /** `close_preview` closes the window and changes nothing else. */
  lemma CloseMessage(t: State, raw: string, parse: string -> Option<Json>, sections: SectionQuery)
    requires parse(raw).Some? && Field(parse(raw).value, "type") != Some(JStr("update"))
    requires Field(parse(raw).value, "command") == Some(JStr("close_preview"))
    ensures OnMessage(t, raw, parse, sections) == t.(closed := true)
  {
  }

  /** A `goto` is acted on only when `slide` is truthy; it then jumps exactly as `goToSlide(parseInt(String(slide)))`. */
  lemma GotoMessage(t: State, raw: string, parse: string -> Option<Json>, sections: SectionQuery)
    requires parse(raw).Some? && Field(parse(raw).value, "type") != Some(JStr("update"))
    requires Field(parse(raw).value, "command") == Some(JStr("goto"))
    ensures var slide := Field(parse(raw).value, "slide");
      && (!Truthy(slide) ==> OnMessage(t, raw, parse, sections) == t)
      && (Truthy(slide) ==> OnMessage(t, raw, parse, sections) == GoToSlide(t, ParseSlide(slide)).0)
      && (Truthy(slide) && StringThrows(slide.value) ==> OnMessage(t, raw, parse, sections) == t)
  {
  }

  /** A numeric `slide` jumps to that slide number: `parseInt(String(n))` is `n`. */
  lemma NumericGoto(t: State, n: int)
    ensures ParseSlide(Some(JNum(n))) == Some(n)
  {
    ParseIntToString(n);
  }

  /** A `find` is acted on only when `string` is a non-empty string; otherwise nothing changes. */
  lemma FindMessage(t: State, raw: string, parse: string -> Option<Json>, sections: SectionQuery)
    requires parse(raw).Some? && Field(parse(raw).value, "type") != Some(JStr("update"))
    requires Field(parse(raw).value, "command") == Some(JStr("find"))
    ensures var s := Field(parse(raw).value, "string");
      && (s.Some? && s.value.JStr? && s.value.s != "" ==> OnMessage(t, raw, parse, sections) == FindSlideByString(t, s.value.s).0)
      && (!(s.Some? && s.value.JStr? && s.value.s != "") ==> OnMessage(t, raw, parse, sections) == t)
  {
  }
}
