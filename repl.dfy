/** role/client/repl.py: the prompt-mode holder of the role client, the
    mode-to-token mapping of its prompt, and the accept handler that only
    acts in R mode. */
module Repl {
  import opened Wrappers

  const DefaultMode := "r"

  const Prompts: map<string, string> := map[
    "r" := "r$> ",
    "help" := "help?> ",
    "help_search" := "help??> ",
    "debug" := "debug%> "
  ]

  class MultiPrompt {
    /** _prompt_mode: any string the setter was given. */
    var promptMode: string

    constructor ()
      ensures promptMode == DefaultMode
      ensures Prompt() == Ok("r$> ")
    {
      promptMode := DefaultMode;
    }

    /** The `prompt` property: the current mode's prompt, or a KeyError naming
        the mode when the mode is none of the four. */
    function Prompt(): (r: Result<string, string>)
      reads this
      ensures r.Ok? <==> promptMode in Prompts
      ensures r.Ok? ==> r.value == Prompts[promptMode]
      ensures r.Err? ==> r.error == promptMode
    {
      if promptMode in Prompts then Ok(Prompts[promptMode]) else Err(promptMode)
    }

    /** The `mode` property. */
    function Mode(): (r: string)
      reads this
      ensures r == promptMode
    {
      promptMode
    }

    /** The `mode` setter: no validation. */
    method SetMode(m: string)
      modifies this
      ensures Mode() == m
      ensures Prompt().Ok? <==> m in Prompts
    {
      promptMode := m;
    }
  }

  /** Style classes of the prompt text. */
  datatype Token = RPrompt | HelpPrompt | DebugPrompt

  /** A get_prompt_tokens result of exactly one token, of style `t`. */
  predicate OneToken(r: Result<Option<seq<(Token, string)>>, string>, t: Token)
  {
    r.Ok? && r.value.Some? && |r.value.value| == 1 && r.value.value[0].0 == t
  }

  /** get_prompt_tokens: the prompt text tagged by mode. Ok(None) is the
      implicit None for a mode that matches no branch; Err is the KeyError of
      reading `prompt` in a help-prefixed mode with no prompt. */
  function GetPromptTokens(mp: MultiPrompt): (r: Result<Option<seq<(Token, string)>>, string>)
    reads mp
    ensures mp.Mode() == "r" ==> OneToken(r, RPrompt)
    ensures mp.Mode() != "r" && "help" <= mp.Mode() && r.Ok? ==> OneToken(r, HelpPrompt)
    ensures mp.Mode() == "debug" ==> OneToken(r, DebugPrompt)
    ensures r.Ok? && r.value.Some? ==> |r.value.value| == 1 && mp.Prompt() == Ok(r.value.value[0].1)
    ensures r.Err? <==> mp.Prompt().Err? && "help" <= mp.Mode()
    ensures r == Ok(None) <==> mp.Mode() !in Prompts && !("help" <= mp.Mode())
  {
    if mp.Mode() == "r" then
      Ok(Some([(RPrompt, mp.Prompt().value)]))
    else if "help" <= mp.Mode() then
      assert mp.Mode()[0] == 'h';
      match mp.Prompt()
      case Ok(text) => Ok(Some([(HelpPrompt, text)]))
      case Err(key) => Err(key)
    else if mp.Mode() == "debug" then
      Ok(Some([(DebugPrompt, mp.Prompt().value)]))
    else
      Ok(None)
  }

  /** "help" and "help_search" share the HelpPrompt token yet show different
      prompts; every mode has its own prompt text. */
  lemma HelpModesShareToken(a: MultiPrompt, b: MultiPrompt)
    requires a.promptMode == "help" && b.promptMode == "help_search"
    ensures GetPromptTokens(a).Ok? && GetPromptTokens(a).value.Some?
    ensures GetPromptTokens(b).Ok? && GetPromptTokens(b).value.Some?
    ensures GetPromptTokens(a).value.value[0].0 == GetPromptTokens(b).value.value[0].0 == HelpPrompt
    ensures GetPromptTokens(a).value.value[0].1 != GetPromptTokens(b).value.value[0].1
  {
    assert "help" <= "help_search";
  }

  /** The four prompts are pairwise distinct. */
  lemma PromptsDistinct(m: string, n: string)
    requires m in Prompts && n in Prompts && m != n
    ensures Prompts[m] != Prompts[n]
  {
  }

  /** What accept_action_handler did with a submitted buffer. */
  datatype AcceptEffect =
    | Ignored     // not in R mode: nothing happens
    | Redrawn     // accept_action gave 0: redraw and stay in the session
    | Returned    // any other result: erase and set the return value

  /** accept_action_handler; `actionResult` is what the accept_action callback
      returns when it is called. It is called only in R mode. */
  function AcceptActionHandler(mp: MultiPrompt, actionResult: int): (e: AcceptEffect)
    reads mp
    ensures e == Ignored <==> mp.Mode() != "r"
    ensures e == Redrawn <==> mp.Mode() == "r" && actionResult == 0
    ensures e == Returned <==> mp.Mode() == "r" && actionResult != 0
  {
    if mp.Mode() == "r" then
      if actionResult == 0 then Redrawn else Returned
    else
      Ignored
  }
}
