# rice / role console bridge — a Dafny model

This project models the host-side decision and state logic of rice, a
terminal front end that runs R in-process, and of the role package in the
same repository.
The prompt_toolkit session and the ctypes calls into libR stay outside the
model. What it covers:

- **Prompt modes.** Both `MultiPrompt` classes hold a prompt mode. The mode
  starts at `"r"` and is looked up in a four-entry prompt table (`r`, `help`,
  `help_search`, `debug`). In rice (`Application.MultiPrompt`) a call without
  a message shows the current mode's prompt. The editing mode is Vi only for
  the settings `"vi"` and `"vim"`. The style is built on the first call and
  then reused. In role (`Repl.MultiPrompt`) the mode picks the prompt token,
  and the accept handler acts only in mode `"r"`. Modes are strings, because
  the source never validates them. An unknown mode makes the lookup raise a
  KeyError, which the model returns as an error value. A colour scheme that
  names no installed Pygments style makes the first prompt raise
  ClassNotFound, and nothing is cached.
- **The read-console bridge.** `result_from_prompt` becomes
  `Application.ReadConsoleBridge.ResultFromPrompt`. On its first call it
  snapshots the settings and prints R's version; every call prints a
  newline. It then runs `Application.PromptLoop`, which prompts again after
  a keyboard interrupt or a `None` result. It returns the first line, gives
  no input on EOF, and passes on every other exception. R's prompt `"> "`
  selects the main prompt. Any other prompt string (among them R's
  continuation prompt `"+ "` and the browser prompt `"Browse[1]> "`) is
  handled as a `readline()` query: single-line, with no lexer, completer,
  history or extra key bindings.
- **The inputhook.** `Application.ProcessEvents` makes exactly one R
  event-processing step per check that finds no input ready. It stops at
  the first check that finds input ready.
- **Output routing.** `Application.Printer` sends R output type 0 to
  stdout and every other type to stderr.
- **Runtime setup as data.** `Runtime` derives R_HOME and the doc, include
  and share directories, and the per-platform library path. It fails when
  the library file is missing, or when the platform matches no branch. It
  builds the fixed argv. `Runtime.Rinstance` treats libR's callback slots as
  a map, written by `_setup_callbacks_unix` before the main loop starts.
- **`is_ascii`** (`Util.IsAscii`).

Outside inputs are parameters:
- R options, R's version string and the output of `R RHOME`;
- the set of files that exist, `sys.platform` and `sys.maxsize`;
- terminal readiness, as a sequence of check results;
- what each prompt_toolkit prompt call did (`Application.PromptOutcome`).

Notes on the code:
- the win32 callback setup does nothing; it does not fail;
- the inputhook's sleep interval is a fixed 1/30 s;
- the single-line features of a prompt depend on R's prompt string, not on
  the prompt mode.

## Model

| member | source | states |
|---|---|---|
| `Util.IsAscii` | rice/util.py:21-22 | true exactly when every character of the string has a code point below 128 |
| `Util.EmptyIsAscii` | rice/util.py:22 | the empty string is ASCII |
| `Util.NonAsciiCharRejects` | rice/util.py:22 | one character with code 128 or more anywhere makes the string non-ASCII |
| `Util.ConcatAscii` | rice/util.py:22 | a concatenation is ASCII exactly when both parts are |
| `Application.RiceSettings` | rice/application.py:29-35 | each setting is its R option when set, else "native", "emacs" and a shown status bar; the status bar is shown exactly when the option is unset or equals 1 |
| `Application.EditingModeFor` | rice/application.py:60 | Vi exactly for the settings "vi" and "vim"; every other value gives Emacs |
| `Application.MessageFor` | rice/application.py:56-58 | a given non-empty message is used; otherwise the current mode's prompt, or a KeyError naming the mode when it has none |
| `Application.CachedStyle` | rice/application.py:61-64 | an existing style is kept; only a missing one is built from the call's colour scheme |
| `Application.RequestFor` | rice/application.py:56-71 | a prompt call fails with a KeyError when the message lookup does, then with ClassNotFound when no style is cached and the colour scheme names no installed style; otherwise it passes the message, editing mode, cached style, status-bar choice and overrides |
| `Application.StyleFixedAfterFirstCall` | rice/application.py:61-64 | once a style is cached, a later call with another colour scheme makes the same request |
| `Application.MultiPrompt.constructor` | rice/application.py:45-50 | starts with no style and in mode "r" |
| `Application.MultiPrompt.Prompt` | rice/application.py:56-71 | returns the request for the current mode; the style is set on the first successful call and left unset on a KeyError or an unknown colour scheme, so a later call tries again |
| `Application.Printer` | rice/application.py:83-87 | the text goes to stdout exactly when the output type is 0, to stderr otherwise |
| `Application.StreamTextAppend` | rice/application.py:83-87 | one more write adds its text to its own stream and nothing to the other |
| `Application.PrinterReachesOneStream` | rice/application.py:83-87 | after printer the routed stream has gained exactly the text and the other stream nothing |
| `Application.OnRender` | rice/application.py:119-121 | writes one newline to stdout exactly when the application is aborting, nothing otherwise |
| `Application.ProcessEvents` | rice/application.py:96-101 | the number of process-events steps is the index of the first ready check: none if input is ready at once, one per not-ready check before it |
| `Application.InputhookSteps` | rice/application.py:96-101 | no step when the first check is ready; a not-ready first check adds exactly one step to the rest |
| `Application.Decision` | rice/application.py:171-178 | a line is returned as text, EOFError gives no input, any other exception is raised again |
| `Application.CallFor` | rice/application.py:156-170 | prompt "> " gives the main prompt with the settings snapshot; any other prompt is handled as a readline() query with message p + " " with single-line overrides and the default colour scheme and status bar |
| `Application.ReturnsFirstLine` | rice/application.py:153-180 | after any run of interrupts and None results, the first line is the result and later outcomes are never consulted |
| `Application.RetryIsTransparent` | rice/application.py:171-178 | a leading keyboard interrupt or None result does not change the result |
| `Application.PromptLoop` | rice/application.py:153-180 | the result is the decision of the first outcome that ends the loop; one identical request is made per prompt call; an error of the first prompt call (KeyError or ClassNotFound) ends the loop before any outcome is read |
| `Application.ReadConsoleBridge.constructor` | rice/application.py:143-144 | starts with the first-time flag set and no settings |
| `Application.ReadConsoleBridge.ResultFromPrompt` | rice/application.py:146-180 | settings are loaded and R's version printed only on the first call; every call prints a newline; the result and requests are those of the prompt loop |
| `Repl.MultiPrompt.constructor` | role/client/repl.py:21-28 | starts in mode "r" with prompt "r$> " |
| `Repl.MultiPrompt.Prompt` | role/client/repl.py:30-32 | the current mode's prompt when the mode is one of the four, a KeyError otherwise |
| `Repl.MultiPrompt.Mode` | role/client/repl.py:34-36 | the `mode` getter gives the stored mode |
| `Repl.MultiPrompt.SetMode` | role/client/repl.py:34-40 | reading the mode afterwards gives exactly the value set; the prompt is then defined only if that value is one of the four modes |
| `Repl.GetPromptTokens` | role/client/repl.py:85-91 | RPrompt for "r", HelpPrompt for help-prefixed modes, DebugPrompt for "debug", one token whose text is the prompt; a KeyError for an unknown help-prefixed mode; None for any other mode |
| `Repl.HelpModesShareToken` | role/client/repl.py:22-27 | "help" and "help_search" share the HelpPrompt token but show different prompts |
| `Repl.PromptsDistinct` | role/client/repl.py:22-27 | the four prompts are pairwise distinct |
| `Repl.AcceptActionHandler` | role/client/repl.py:95-114 | nothing happens outside mode "r"; in mode "r" a result of 0 redraws and stays, any other result leaves the session |
| `Runtime.InitEnviron` | role/server/runtime.py:15-22 | an existing R_HOME is kept, a missing one is set from discovery; the doc, include and share directories are R_HOME joined with "doc", "include" and "share"; no other variable changes |
| `Runtime.InitEnvironIdempotent` | role/server/runtime.py:15-22 | setting up the environment a second time changes nothing |
| `Runtime.LibRPath` | role/server/runtime.py:23-28 | R_HOME/bin/(x64 or i386)/R.dll on win32, R_HOME/lib/libR.dylib on darwin, R_HOME/lib/libR.so on linux; no path on any other platform |
| `Runtime.LibRPathUnderRHome` | role/server/runtime.py:23-28 | the library path lies strictly under R_HOME |
| `Runtime.LibraryToLoad` | role/server/runtime.py:23-31 | the library is loaded exactly when its path exists; a missing file gives "Cannot locate R share library."; an unmatched platform gives the unbound-variable error |
| `Runtime.EncodeAscii` | role/server/runtime.py:37-43 | UTF-8 encoding of an ASCII string gives one byte per character, equal to its code |
| `Runtime.ArgvIsAscii` | role/server/runtime.py:37 | every argument of the fixed argv is ASCII |
| `Runtime.BuildArgv` | role/server/runtime.py:37-43 | argc is 3 and argv holds "role", "--no-save", "--quiet", encoded byte for character |
| `Runtime.SetupUnix` | role/server/runtime.py:61-75 | the read-console slot is set only when a read callback exists; a write callback clears WriteConsole and sets WriteConsoleEx; no other slot changes |
| `Runtime.SetupCallbacks` | role/server/runtime.py:45-52 | the win32 setup leaves every slot as it was; every other platform gets the unix setup's slots |
| `Runtime.SetupUnixRetains` | role/server/runtime.py:61-75 | every installed callback stays referenced by the instance; a replaced reference is in no slot any more |
| `Runtime.Rinstance.Loaded` | role/server/runtime.py:14-43 | a new instance holds the library path, the argv and the native slots, with no callbacks |
| `Runtime.Rinstance.SetupCallbacksWin32` | role/server/runtime.py:58-59 | changes no slot |
| `Runtime.Rinstance.SetupCallbacksUnix` | role/server/runtime.py:61-75 | the slots become those of the unix setup; the kept wrappers are updated so that every installed callback stays referenced |
| `Runtime.Rinstance.Run` | role/server/runtime.py:45-52 | callbacks are registered first, and the main loop starts with the slots already in place; the kept wrappers are unchanged on win32 and updated as by the unix setup elsewhere |
| `Runtime.SetREnviron` | role/server/runtime.py:15-22 | writes the environment step by step into the state the environment function describes, and returns R_HOME |
| `Runtime.NewRinstance` | role/server/runtime.py:14-43 | the environment is always updated; construction fails with the library error before any load, and otherwise gives a fresh instance with the fixed argv, the native slots, and no callbacks or kept wrappers |

## Left out

- ctypes plumbing is not modelled:
  - `ccall` and `cglobal` (rice/util.py:6-18);
  - `CDLL` loading and `CFUNCTYPE`/`cast` pointer conversion;
  - the `R_running_as_main_program` write;
  - the effect of `Rf_initialize_R`, beyond the argv it receives.
- Callbacks are opaque identities, and slots are a map from slot name to value.
- `post_setup` is not modelled. Its offset depends on R's native memory layout.
- The `R RHOME` subprocess is an input string. Its failures and the `strip()` of its output are not modelled.
- File existence is a set of paths.
- The installed Pygments styles are a set of names; a non-string colour scheme is treated as unknown.
- Runtime.Join: follows posixpath, and ntpath on win32 (both `\` and `/` count as separators there); ntpath's rule for a drive-only left part (`C:` joined with `doc`) is not modelled.
- Rf_mainloop itself is not modelled. The model records only the slot table it finds when it starts.
- Application.ProcessEvents: requires that some check finds input ready. A terminal that never becomes ready would loop forever, and that is not modelled. The 1/30 s sleep and real terminal readiness are left out.
- Application.PromptLoop: requires that the scripted outcomes contain one that ends the loop. Endless prompting is not modelled. The requirement holds even when an error of the first prompt call ends the loop before any outcome is read.
- Application.ReadConsoleBridge.ResultFromPrompt: has the same requirement on the scripted outcomes, for the same reason.
- Key bindings that change the prompt mode during a prompt call are not modelled. The mode is fixed for one read.
- The model records the arguments passed to prompt_toolkit's `prompt`. It does not model how prompt_toolkit applies them, or rendering, redraw, cursor handling or the bottom toolbar's content.
- `interface.get_option` and `interface.r_version` are not shown. Their answers are inputs. An R value compares equal to 1 as a Python value would (1, True, 1.0).
- `create_multi_prompt` (history file, completer, lexer, key bindings, `CustomVt100Input`) is not modelled: the session's own settings are external collaborators.
- `clean_up` (a no-op), `show_message` (UTF-8 decoding) and the wiring in `RiceApplication.run` are not modelled.
- role's `RCommandlineInterface.abort`, the `create_style` colours, the renderer calls and the `cli.output.write("\n")` inside `accept_action_handler` (role/client/repl.py:97-114), and the `create_r_repl` wiring are not modelled.
- rice/callbacks.py is not part of this model. It holds the read-console buffer truncation and the write-console decoding.
