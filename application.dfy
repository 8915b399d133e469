/** rice/application.py: the prompt session of the embedded R console — prompt
    modes and their messages, the settings snapshot, output routing, the
    inputhook that lets R process events while the terminal waits, and the
    read-console bridge that prompts until it has a line. */
module Application {
  import opened Wrappers

  // ---------------------------------------------------------------------
  // Values crossing from R and into prompt_toolkit
  // ---------------------------------------------------------------------

  /** A value of an R option as it arrives in Python. */
  datatype RValue = Str(s: string) | Int(i: int) | Logical(b: bool) | Double(x: real) | Null

  /** R's option table, name to value; a name that is absent yields the default. */
  type ROptions = map<string, RValue>

  /** An exception raised out of the prompt session. */
  datatype Error =
    | KeyError(key: string)      // a prompt mode missing from the prompt table
    | Exception(name: string)    // any other exception, re-raised as it is

  function GetOption(options: ROptions, name: string, default: RValue): RValue
  {
    if name in options then options[name] else default
  }

  /** Python's `v == 1`: True and 1.0 compare equal to 1. */
  predicate EqualsOne(v: RValue)
  {
    v == Int(1) || v == Logical(true) || v == Double(1.0)
  }

  // ---------------------------------------------------------------------
  // rice_settings
  // ---------------------------------------------------------------------

  datatype Settings = Settings(colorScheme: RValue, editingMode: RValue, showStatusbar: bool)

  const ColorSchemeOption := "rice.color_scheme"
  const EditingModeOption := "rice.editing_mode"
  const StatusbarOption := "rice.show_statusbar"

  /** rice_settings: the three rice.* options, each with its default. */
  function RiceSettings(options: ROptions): (s: Settings)
    ensures ColorSchemeOption !in options ==> s.colorScheme == Str("native")
    ensures ColorSchemeOption in options ==> s.colorScheme == options[ColorSchemeOption]
    ensures EditingModeOption !in options ==> s.editingMode == Str("emacs")
    ensures EditingModeOption in options ==> s.editingMode == options[EditingModeOption]
    ensures s.showStatusbar <==> StatusbarOption !in options || EqualsOne(options[StatusbarOption])
  {
    Settings(
      GetOption(options, ColorSchemeOption, Str("native")),
      GetOption(options, EditingModeOption, Str("emacs")),
      EqualsOne(GetOption(options, StatusbarOption, Int(1))))
  }

  // ---------------------------------------------------------------------
  // MultiPrompt
  // ---------------------------------------------------------------------

  /** A prompt message: a string with ANSI colour escapes, or a plain string. */
  datatype Message = Ansi(text: string) | Plain(text: string)

  const DefaultPromptMode := "r"

  const Prompts: map<string, Message> := map[
    "r" := Ansi("\U{1B}[34mr$>\U{1B}[0m "),
    "help" := Ansi("\U{1B}[33mhelp?>\U{1B}[0m "),
    "help_search" := Ansi("\U{1B}[33mhelp??>\U{1B}[0m "),
    "debug" := Plain("debug%> ")
  ]

  datatype EditingMode = Vi | Emacs

  /** The editing mode chosen from the mode setting. */
  function EditingModeFor(mode: RValue): (m: EditingMode)
    ensures m == Vi <==> mode == Str("vi") || mode == Str("vim")
  {
    if mode == Str("vi") || mode == Str("vim") then Vi else Emacs
  }

  /** prompt_toolkit's default style merged with the Pygments scheme it names. */
  datatype Style = MergedStyle(colorScheme: RValue)

  /** Keyword arguments passed through to prompt_toolkit on top of the session's own. */
  datatype Overrides =
    | NoOverrides
    | SingleLine   // multiline=False, lexer=None, completer=None, history=None, extra_key_bindings=None

  /** The arguments of one MultiPrompt.prompt call. */
  datatype PromptCall = PromptCall(
    message: Option<Message>,
    colorScheme: RValue,
    mode: RValue,
    showStatusbar: bool,
    overrides: Overrides)

  /** What MultiPrompt.prompt hands on to prompt_toolkit's prompt. */
  datatype PromptRequest = PromptRequest(
    message: Message,
    editingMode: EditingMode,
    style: Style,
    bottomToolbar: bool,
    overrides: Overrides)

  /** Python's `not message`: no message, or the empty str. */
  predicate NoMessage(message: Option<Message>)
  {
    message == None || message == Some(Plain(""))
  }

  /** The message shown: the one given, or the current mode's prompt. */
  function MessageFor(message: Option<Message>, promptMode: string): (r: Result<Message, Error>)
    ensures !NoMessage(message) ==> r == Ok(message.value)
    ensures NoMessage(message) && promptMode in Prompts ==> r == Ok(Prompts[promptMode])
    ensures NoMessage(message) && promptMode !in Prompts ==> r == Err(KeyError(promptMode))
  {
    if !NoMessage(message) then Ok(message.value)
    else if promptMode in Prompts then Ok(Prompts[promptMode])
    else Err(KeyError(promptMode))
  }

  /** The style after a prompt call: built from that call's colour scheme the
      first time, kept as it is afterwards. */
  function CachedStyle(style: Option<Style>, colorScheme: RValue): (s: Style)
    ensures style.Some? ==> s == style.value
    ensures style.None? ==> s == MergedStyle(colorScheme)
  {
    if style.Some? then style.value else MergedStyle(colorScheme)
  }

  /** get_style_by_name finds the scheme: it is the name of an installed
      Pygments style. `styles` holds those names. */
  predicate KnownScheme(colorScheme: RValue, styles: set<string>)
  {
    colorScheme.Str? && colorScheme.s in styles
  }

  /** The name of pygments' exception for an unknown style. */
  const ClassNotFound := "ClassNotFound"

  /** The request a prompt call makes in a given mode with a given cached style.
      The KeyError of the message lookup comes first. Next, while no style is
      cached, an unknown colour scheme raises ClassNotFound and nothing is cached. */
  function RequestFor(call: PromptCall, promptMode: string, style: Option<Style>, styles: set<string>)
    : (r: Result<PromptRequest, Error>)
    ensures MessageFor(call.message, promptMode).Err? ==> r == Err(KeyError(promptMode))
    ensures MessageFor(call.message, promptMode).Ok? && style.None? && !KnownScheme(call.colorScheme, styles)
      ==> r == Err(Exception(ClassNotFound))
    ensures r.Ok? <==> MessageFor(call.message, promptMode).Ok? && (style.Some? || KnownScheme(call.colorScheme, styles))
    ensures r.Ok? ==>
      && r.value.message == MessageFor(call.message, promptMode).value
      && r.value.editingMode == EditingModeFor(call.mode)
      && r.value.style == CachedStyle(style, call.colorScheme)
      && r.value.bottomToolbar == call.showStatusbar
      && r.value.overrides == call.overrides
  {
    match MessageFor(call.message, promptMode)
    case Err(e) => Err(e)
    case Ok(m) =>
      if style.None? && !KnownScheme(call.colorScheme, styles) then
        Err(Exception(ClassNotFound))
      else
        Ok(PromptRequest(m, EditingModeFor(call.mode), CachedStyle(style, call.colorScheme),
                         call.showStatusbar, call.overrides))
  }

  /** Once a style is cached, every later request in the same mode is the
      request the first call made: the colour scheme of later calls is ignored. */
  lemma StyleFixedAfterFirstCall(call: PromptCall, later: PromptCall, promptMode: string, style: Option<Style>,
                                  styles: set<string>)
    requires RequestFor(call, promptMode, style, styles).Ok?
    requires later == call.(colorScheme := later.colorScheme)
    ensures RequestFor(later, promptMode, Some(CachedStyle(style, call.colorScheme)), styles)
         == RequestFor(call, promptMode, style, styles)
  {
  }

  class MultiPrompt {
    /** The cached style; None until the first prompt call. */
    var style: Option<Style>
    /** app.prompt_mode, written by the key bindings. */
    var promptMode: string
    /** The names of the installed Pygments styles. */
    const pygmentsStyles: set<string>

    constructor (pygmentsStyles: set<string>)
      ensures style == None && promptMode == DefaultPromptMode
      ensures this.pygmentsStyles == pygmentsStyles
    {
      this.pygmentsStyles := pygmentsStyles;
      style := None;
      promptMode := DefaultPromptMode;
    }

    /** prompt: look up the message, choose the editing mode, build the style on
        the first call, and hand the request to prompt_toolkit. */
    method Prompt(call: PromptCall) returns (r: Result<PromptRequest, Error>)
      modifies this`style
      ensures r == RequestFor(call, promptMode, old(style), pygmentsStyles)
      ensures style == if r.Ok? then Some(CachedStyle(old(style), call.colorScheme)) else old(style)
    {
      var message := MessageFor(call.message, promptMode);
      if message.Err? {
        return Err(message.error);
      }
      var editingMode := EditingModeFor(call.mode);
      if style.None? {
        if !KnownScheme(call.colorScheme, pygmentsStyles) {
          return Err(Exception(ClassNotFound));
        }
        style := Some(MergedStyle(call.colorScheme));
      }
      r := Ok(PromptRequest(message.value, editingMode, style.value, call.showStatusbar, call.overrides));
    }
  }

  // ---------------------------------------------------------------------
  // printer and on_render
  // ---------------------------------------------------------------------

  datatype Stream = Stdout | Stderr

  /** One write to a host stream. */
  datatype Write = Write(stream: Stream, text: string)

  /** printer(text, otype): R's output type 0 is normal output, any other is errors. */
  function Printer(text: string, otype: int): (w: Write)
    ensures w.text == text
    ensures w.stream == Stdout <==> otype == 0
    ensures w.stream == Stderr <==> otype != 0
  {
    Write(if otype == 0 then Stdout else Stderr, text)
  }

  /** Everything a sequence of writes put on one stream, in order. */
  function StreamText(ws: seq<Write>, st: Stream): string
  {
    if ws == [] then "" else (if ws[0].stream == st then ws[0].text else "") + StreamText(ws[1..], st)
  }

  /** One more write adds its text to its own stream and nothing to the other. */
  lemma {:induction false} StreamTextAppend(ws: seq<Write>, w: Write, st: Stream)
    ensures StreamText(ws + [w], st) == StreamText(ws, st) + (if st == w.stream then w.text else "")
  {
    if ws == [] {
      assert ws + [w] == [w];
    } else {
      assert (ws + [w])[1..] == ws[1..] + [w];
      StreamTextAppend(ws[1..], w, st);
    }
  }

  /** After printer, the routed stream has gained exactly the text and the other
      stream nothing. */
  lemma PrinterReachesOneStream(ws: seq<Write>, text: string, otype: int)
    ensures StreamText(ws + [Printer(text, otype)], if otype == 0 then Stdout else Stderr)
         == StreamText(ws, if otype == 0 then Stdout else Stderr) + text
    ensures StreamText(ws + [Printer(text, otype)], if otype == 0 then Stderr else Stdout)
         == StreamText(ws, if otype == 0 then Stderr else Stdout)
  {
    StreamTextAppend(ws, Printer(text, otype), Stdout);
    StreamTextAppend(ws, Printer(text, otype), Stderr);
  }

  /** on_render: a newline on standard output while the prompt is aborting, nothing otherwise. */
  function OnRender(isAborting: bool): (ws: seq<Write>)
    ensures ws != [] <==> isAborting
    ensures forall w :: w in ws ==> w == Write(Stdout, "\n")
    ensures |ws| <= 1
  {
    if isAborting then [Printer("\n", 0)] else []
  }

  // ---------------------------------------------------------------------
  // process_events: the inputhook
  // ---------------------------------------------------------------------

  predicate IsReady(b: bool) { b }

  /** The inputhook. `ready[k]` is the answer of the k-th input_is_ready check;
      each not-ready check is followed by one api.process_events() step (and a
      sleep, not modelled). Returns the number of process_events steps. */
  method ProcessEvents(ready: seq<bool>) returns (calls: nat)
    requires true in ready
    ensures calls < |ready| && ready[calls]
    ensures forall j :: 0 <= j < calls ==> !ready[j]
    ensures calls == FirstIndex(ready, IsReady)
  {
    ghost var first := FirstIndex(ready, IsReady);
    calls := 0;
    while true
      invariant calls <= first
      invariant forall j :: 0 <= j < calls ==> !ready[j]
      decreases first - calls
    {
      if ready[calls] {
        break;
      }
      calls := calls + 1;
    }
  }

  /** No process_events step happens when input is ready at the first check,
      and otherwise a not-ready check adds exactly one step. */
  lemma {:induction false} InputhookSteps(ready: seq<bool>)
    requires true in ready
    ensures ready[0] ==> FirstIndex(ready, IsReady) == 0
    ensures !ready[0] ==> FirstIndex(ready, IsReady) == 1 + FirstIndex(ready[1..], IsReady)
  {
  }

  // ---------------------------------------------------------------------
  // result_from_prompt: the read-console bridge
  // ---------------------------------------------------------------------

  /** What one prompt_toolkit prompt call did. */
  datatype PromptOutcome =
    | Line(text: string)          // returned a line (possibly empty)
    | NoLine                      // returned None
    | Interrupt                   // raised KeyboardInterrupt
    | Eof                         // raised EOFError
    | OtherError(name: string)    // raised any other exception

  /** What result_from_prompt gives back to R. */
  datatype ReadResult = Text(text: string) | NoInput | Failed(error: Error)

  /** An outcome that ends the `while text is None` loop. */
  predicate EndsLoop(o: PromptOutcome)
  {
    !(o.NoLine? || o.Interrupt?)
  }

  /** The script of outcomes eventually holds one that ends the loop. */
  predicate Finishes(outcomes: seq<PromptOutcome>)
  {
    exists i :: 0 <= i < |outcomes| && EndsLoop(outcomes[i])
  }

  /** The result an ending outcome gives. */
  function Decision(o: PromptOutcome): (r: ReadResult)
    requires EndsLoop(o)
    ensures r.Text? <==> o.Line?
    ensures o.Line? ==> r.text == o.text
    ensures r == NoInput <==> o == Eof
    ensures r.Failed? <==> o.OtherError?
    ensures o.OtherError? ==> r.error == Exception(o.name)
  {
    match o
    case Line(s) => Text(s)
    case Eof => NoInput
    case OtherError(n) => Failed(Exception(n))
  }

  /** The prompt call for R's prompt string `p`: "> " is the main prompt with
      the settings snapshot; any other prompt is handled as a readline() query with message
      p + " ", the default colour scheme and status bar, and single-line overrides. */
  function CallFor(p: string, settings: Settings): (c: PromptCall)
    ensures p == "> " ==>
      && c.message == None && c.colorScheme == settings.colorScheme
      && c.showStatusbar == settings.showStatusbar && c.overrides == NoOverrides
    ensures p != "> " ==>
      && c.message == Some(Plain(p + " ")) && c.overrides == SingleLine
      && c.colorScheme == Str("vim") && c.showStatusbar
    ensures c.mode == settings.editingMode
  {
    if p == "> " then
      PromptCall(None, settings.colorScheme, settings.editingMode, settings.showStatusbar, NoOverrides)
    else
      PromptCall(Some(Plain(p + " ")), Str("vim"), settings.editingMode, true, SingleLine)
  }

  /** The outcome of a whole read: the error of the first prompt call (a
      KeyError for the mode, or ClassNotFound for the colour scheme), or the
      decision of the first outcome that ends the loop. */
  function ReadSpec(call: PromptCall, promptMode: string, style: Option<Style>, styles: set<string>,
                    outcomes: seq<PromptOutcome>): ReadResult
    requires Finishes(outcomes)
  {
    match RequestFor(call, promptMode, style, styles)
    case Err(e) => Failed(e)
    case Ok(_) => Decision(outcomes[FirstIndex(outcomes, EndsLoop)])
  }

  /** The first line returned is the result: interrupts and None results
      before it are retried and what follows it is never asked for. */
  lemma ReturnsFirstLine(call: PromptCall, promptMode: string, style: Option<Style>, styles: set<string>,
                         retries: seq<PromptOutcome>, text: string, rest: seq<PromptOutcome>)
    requires RequestFor(call, promptMode, style, styles).Ok?
    requires forall j :: 0 <= j < |retries| ==> !EndsLoop(retries[j])
    ensures Finishes(retries + [Line(text)] + rest)
    ensures ReadSpec(call, promptMode, style, styles, retries + [Line(text)] + rest) == Text(text)
  {
    var s := retries + [Line(text)] + rest;
    assert s[|retries|] == Line(text);
    FirstIndexUnique(s, EndsLoop, |retries|);
  }

  /** A leading interrupt or None result changes nothing but the number of prompts. */
  lemma RetryIsTransparent(call: PromptCall, promptMode: string, style: Option<Style>, styles: set<string>,
                           o: PromptOutcome, outcomes: seq<PromptOutcome>)
    requires o == Interrupt || o == NoLine
    requires Finishes(outcomes)
    ensures Finishes([o] + outcomes)
    ensures ReadSpec(call, promptMode, style, styles, [o] + outcomes)
         == ReadSpec(call, promptMode, style, styles, outcomes)
  {
    var i :| 0 <= i < |outcomes| && EndsLoop(outcomes[i]);
    assert ([o] + outcomes)[i + 1] == outcomes[i];
    assert ([o] + outcomes)[1..] == outcomes;
  }

  /** The `while text is None` loop of result_from_prompt: prompt with the same
      call until an outcome ends the loop. Interrupts and None results are
      retried; EOFError gives NoInput; any other exception propagates, among
      them an error raised by the prompt call itself, which can only happen on
      the first call (afterwards the style is cached). */
  method PromptLoop(mp: MultiPrompt, call: PromptCall, outcomes: seq<PromptOutcome>)
    returns (r: ReadResult, requests: seq<PromptRequest>)
    requires Finishes(outcomes)
    modifies mp`style
    ensures r == ReadSpec(call, mp.promptMode, old(mp.style), mp.pygmentsStyles, outcomes)
    ensures var req := RequestFor(call, mp.promptMode, old(mp.style), mp.pygmentsStyles);
      && (req.Err? ==> requests == [] && mp.style == old(mp.style))
      && (req.Ok? ==> |requests| == FirstIndex(outcomes, EndsLoop) + 1
                      && (forall k :: 0 <= k < |requests| ==> requests[k] == req.value)
                      && mp.style == Some(req.value.style))
  {
    ghost var req := RequestFor(call, mp.promptMode, mp.style, mp.pygmentsStyles);
    ghost var first := FirstIndex(outcomes, EndsLoop);
    var i := 0;
    requests := [];
    while true
      modifies mp`style
      invariant i <= first
      invariant i > 0 ==> req.Ok?
      invariant forall j :: 0 <= j < i ==> !EndsLoop(outcomes[j])
      invariant |requests| == i && forall k :: 0 <= k < i ==> requests[k] == req.value
      invariant mp.style == if i == 0 then old(mp.style) else Some(req.value.style)
      decreases first - i
    {
      if i > 0 {
        StyleFixedAfterFirstCall(call, call, mp.promptMode, old(mp.style), mp.pygmentsStyles);
      }
      var request := mp.Prompt(call);
      if request.Err? {
        return Failed(request.error), requests;
      }
      requests := requests + [request.value];
      match outcomes[i] {
        case Line(s) =>
          return Text(s), requests;
        case Eof =>
          return NoInput, requests;
        case OtherError(n) =>
          return Failed(Exception(n)), requests;
        case NoLine =>
        case Interrupt =>
      }
      i := i + 1;
    }
  }

  /** The closure state of RiceApplication.run around result_from_prompt:
      the `_first_time` and `_settings` cells, the prompt session, and the
      writes printer made. */
  class ReadConsoleBridge {
    const mp: MultiPrompt
    var firstTime: bool
    var settings: Option<Settings>
    var output: seq<Write>

    ghost predicate Valid()
      reads this
    {
      !firstTime ==> settings.Some?
    }

    constructor (mp: MultiPrompt)
      ensures this.mp == mp && firstTime && settings == None && output == []
      ensures Valid()
    {
      this.mp := mp;
      firstTime := true;
      settings := None;
      output := [];
    }

    /** result_from_prompt(p). `options` and `rVersion` answer R's getOption
        and R.version.string; `outcomes` scripts what each prompt call does.
        Returns the result and the requests made, one per prompt call. */
    method ResultFromPrompt(p: string, options: ROptions, rVersion: string, outcomes: seq<PromptOutcome>)
      returns (r: ReadResult, requests: seq<PromptRequest>)
      requires Valid()
      requires Finishes(outcomes)
      modifies this, mp`style
      ensures Valid() && !firstTime
      ensures settings == if old(firstTime) then Some(RiceSettings(options)) else old(settings)
      ensures output == old(output) + (if old(firstTime) then [Printer(rVersion, 0)] else []) + [Printer("\n", 0)]
      ensures r == ReadSpec(CallFor(p, settings.value), mp.promptMode, old(mp.style), mp.pygmentsStyles, outcomes)
      ensures var req := RequestFor(CallFor(p, settings.value), mp.promptMode, old(mp.style), mp.pygmentsStyles);
        && (req.Err? ==> requests == [] && mp.style == old(mp.style))
        && (req.Ok? ==> |requests| == FirstIndex(outcomes, EndsLoop) + 1
                        && (forall k :: 0 <= k < |requests| ==> requests[k] == req.value)
                        && mp.style == Some(req.value.style))
    {
      if firstTime {
        settings := Some(RiceSettings(options));
        output := output + [Printer(rVersion, 0)];
        firstTime := false;
      }
      output := output + [Printer("\n", 0)];
      r, requests := PromptLoop(mp, CallFor(p, settings.value), outcomes);
    }
  }
}
