/** `main`: dispatch on the arguments, then either the usage text, the shell
    hook, or the failed-command path: print the error text and a placeholder,
    fork, and in the child fetch a suggestion, rewrite the placeholder line and
    hand the command off. Each run is seen from one process: `fork` tells which
    side of the fork (or its failure) this run is. */
module App {
  import opened Wrappers
  import opened Json
  import Ai
  import Cli
  import Hooks
  import opened Render
  import Suggestion
  import Handoff

  const Loading := Robot + " loading..."
  const MissingKeyWarning := "OPENAI_API_KEY environment variable is not set."
  const ForkFailedPrefix := "fork failed: "

  /** The side of the fork a run continues on. */
  datatype ForkResult = Child | Parent | ForkFailed(error: string)

  /** Everything one run does: what it writes to standard output and standard
      error, and the command it hands off (nothing when the slot is untouched). */
  datatype Effect = Effect(stdout: seq<Token>, stderr: string, handoff: Option<string>)

  /** The effect of `main` with the given arguments, environment, fork outcome,
      provider exchange and content parser. */
  function Effects(args: seq<string>, env: Option<Ai.OsValue>, fork: ForkResult,
                   transport: Ai.Request -> Result<Ai.AiResponse, string>,
                   parse: string -> Option<Value>): Effect
  {
    match Cli.Dispatch(args)
    case ShowUsage => Effect([], Cli.UsageText + "\n", None)
    case ShowInitUsage => Effect([], Cli.InitUsageText + "\n", None)
    case Init(shell) => InitEffect(shell, env)
    case Suggest(command, errorText) => SuggestEffect(command, errorText, env, fork, transport, parse)
  }

  /** "init <shell>": the hook, then the warning when the key variable is unset. */
  function InitEffect(shell: string, env: Option<Ai.OsValue>): Effect
  {
    var hook := Hooks.InitShell(shell);
    Effect(if hook.stdout == "" then [] else [Text(hook.stdout)],
           hook.stderr + (if env.None? then MissingKeyWarning + "\n" else ""),
           None)
  }

  /** The failed-command path, on the given side of the fork. */
  function SuggestEffect(command: string, errorText: string, env: Option<Ai.OsValue>, fork: ForkResult,
                         transport: Ai.Request -> Result<Ai.AiResponse, string>,
                         parse: string -> Option<Value>): Effect
  {
    var shown := [Text(Cli.Unescape(errorText) + "\n"), Text(Loading)];
    match fork
    case Child =>
      var fix := Suggestion.GetAiSuggestion(Ai.GetAiResponse(command, errorText, env, transport, parse));
      Effect(shown + Notification(fix), "", fix)
    case Parent => Effect(shown, "", None)
    case ForkFailed(e) => Effect(shown, ForkFailedPrefix + e + "\n", None)
  }

  /** The process's two output streams. */
  class Console {
    var stdout: seq<Token>
    var stderr: string

    constructor ()
      ensures stdout == [] && stderr == ""
    {
      stdout, stderr := [], "";
    }

    method Print(ts: seq<Token>)
      modifies this
      ensures stdout == old(stdout) + ts && stderr == old(stderr)
    {
      stdout := stdout + ts;
    }

    method EPrint(s: string)
      modifies this
      ensures stderr == old(stderr) + s && stdout == old(stdout)
    {
      stderr := stderr + s;
    }
  }

  /** `main`, step by step. Its outputs and the hand-off slot end up as `Effects`
      describes. */
  method Run(args: seq<string>, env: Option<Ai.OsValue>, fork: ForkResult,
             transport: Ai.Request -> Result<Ai.AiResponse, string>,
             parse: string -> Option<Value>,
             console: Console, file: Handoff.SuggestionFile)
    modifies console, file
    ensures var e := Effects(args, env, fork, transport, parse);
            && console.stdout == old(console.stdout) + e.stdout
            && console.stderr == old(console.stderr) + e.stderr
            && file.content == if e.handoff.Some? then Some(e.handoff.value + "\n") else old(file.content)
  {
    match Cli.Dispatch(args)
    case ShowUsage =>
      console.EPrint(Cli.UsageText + "\n");
    case ShowInitUsage =>
      console.EPrint(Cli.InitUsageText + "\n");
    case Init(shell) =>
      RunInit(shell, env, console);
    case Suggest(command, errorText) =>
      RunSuggest(command, errorText, env, fork, transport, parse, console, file);
  }

  /** `init_shell(shell)` followed by the key-variable check. */
  method RunInit(shell: string, env: Option<Ai.OsValue>, console: Console)
    modifies console
    ensures console.stdout == old(console.stdout) + InitEffect(shell, env).stdout
    ensures console.stderr == old(console.stderr) + InitEffect(shell, env).stderr
  {
    var hook := Hooks.InitShell(shell);
    if hook.stdout != "" {
      console.Print([Text(hook.stdout)]);
    } else {
      console.EPrint(hook.stderr);
    }
    if env.None? {
      console.EPrint(MissingKeyWarning + "\n");
    }
  }

  /** The failed-command path: print the error text and the placeholder; then,
      on the child's side, fetch, rewrite the placeholder line and hand off. */
  method RunSuggest(command: string, errorText: string, env: Option<Ai.OsValue>, fork: ForkResult,
                    transport: Ai.Request -> Result<Ai.AiResponse, string>,
                    parse: string -> Option<Value>,
                    console: Console, file: Handoff.SuggestionFile)
    modifies console, file
    ensures var e := SuggestEffect(command, errorText, env, fork, transport, parse);
            && console.stdout == old(console.stdout) + e.stdout
            && console.stderr == old(console.stderr) + e.stderr
            && file.content == if e.handoff.Some? then Some(e.handoff.value + "\n") else old(file.content)
  {
    console.Print([Text(Cli.Unescape(errorText) + "\n")]);
    console.Print([Text(Loading)]);
    ghost var shown := [Text(Cli.Unescape(errorText) + "\n"), Text(Loading)];
    assert console.stdout == old(console.stdout) + shown;
    match fork
    case Child =>
      var fix := Suggestion.GetAiSuggestion(Ai.GetAiResponse(command, errorText, env, transport, parse));
      RenderAndHandOff(fix, console, file);
    case Parent =>
    case ForkFailed(e) =>
      console.EPrint(ForkFailedPrefix + e + "\n");
  }

  /** The child's last step: rewrite the placeholder line with the outcome and,
      when there is a command, write it to the slot. */
  method RenderAndHandOff(fix: Option<string>, console: Console, file: Handoff.SuggestionFile)
    modifies console, file
    ensures console.stdout == old(console.stdout) + Notification(fix)
    ensures console.stderr == old(console.stderr)
    ensures file.content == if fix.Some? then Some(fix.value + "\n") else old(file.content)
  {
    console.Print([SaveCursor]);
    console.Print([PrevLine, PrevLine, ClearLine]);
    console.Print(ResultLine(fix));
    if fix.Some? {
      file.InsertIntoHistory(fix.value);
    }
    console.Print([RestoreCursor]);
  }

  /** With no argument only the usage text is written: nothing on standard
      output, no fork, no hand-off. */
  lemma NoArgumentsOnlyUsage(env: Option<Ai.OsValue>, fork: ForkResult,
                             transport: Ai.Request -> Result<Ai.AiResponse, string>,
                             parse: string -> Option<Value>)
    ensures Effects([], env, fork, transport, parse)
              == Effect([], "Usage: aishell <failed_command> <error_output>\n", None)
  {
  }

  /** "init" without a dialect writes only the init usage text; no hook is printed. */
  lemma InitWithoutShell(env: Option<Ai.OsValue>, fork: ForkResult,
                         transport: Ai.Request -> Result<Ai.AiResponse, string>,
                         parse: string -> Option<Value>)
    ensures Effects(["init"], env, fork, transport, parse)
              == Effect([], "Usage: aishell init <shell>\n", None)
  {
  }

  /** "init <shell>" prints the dialect's hook (or the not-supported line) and
      warns when the key variable is unset; it never forks or hands off. */
  lemma InitPrintsHook(args: seq<string>, env: Option<Ai.OsValue>, fork: ForkResult,
                       transport: Ai.Request -> Result<Ai.AiResponse, string>,
                       parse: string -> Option<Value>)
    requires |args| >= 2 && args[0] == "init"
    ensures var e := Effects(args, env, fork, transport, parse);
            && Encode(e.stdout) == Hooks.InitShell(args[1]).stdout
            && e.stderr == Hooks.InitShell(args[1]).stderr
                           + (if env.None? then MissingKeyWarning + "\n" else "")
            && e.handoff == None
  {
    var hook := Hooks.InitShell(args[1]);
    if hook.stdout != "" {
      EncodeOne(Text(hook.stdout));
    }
  }

  /** The init warning checks only that the variable is set: a value that is
      not Unicode draws no warning, yet the request then carries the placeholder
      key. */
  lemma InitWarningMissesInvalidKey(shell: string, fork: ForkResult,
                                    transport: Ai.Request -> Result<Ai.AiResponse, string>,
                                    parse: string -> Option<Value>)
    ensures Effects(["init", shell], Some(Ai.NotUnicode), fork, transport, parse).stderr
              == Hooks.InitShell(shell).stderr
    ensures Ai.ApiKey(Some(Ai.NotUnicode)) == Ai.DefaultKey
  {
  }

  /** On the failed-command path the error text is printed with escaped
      newlines restored, followed by the placeholder; the command is the first
      argument and the error text the others joined by single spaces. */
  lemma FailedCommandPrinted(args: seq<string>, env: Option<Ai.OsValue>, fork: ForkResult,
                             transport: Ai.Request -> Result<Ai.AiResponse, string>,
                             parse: string -> Option<Value>)
    requires |args| >= 1 && args[0] != "init"
    ensures var e := Effects(args, env, fork, transport, parse);
            && |e.stdout| >= 2
            && e.stdout[..2] == [Text(Cli.Unescape(Cli.Join(args[1..])) + "\n"), Text(Loading)]
            && (|args| == 1 ==> e.stdout[0] == Text("\n"))
  {
  }

  /** The parent returns at once: after the placeholder it writes nothing more
      and leaves the slot alone. A failed fork is reported on standard error
      and nothing is fetched. */
  lemma ParentAndForkFailure(args: seq<string>, env: Option<Ai.OsValue>, error: string,
                             transport: Ai.Request -> Result<Ai.AiResponse, string>,
                             parse: string -> Option<Value>)
    requires |args| >= 1 && args[0] != "init"
    ensures var e := Effects(args, env, Parent, transport, parse);
            |e.stdout| == 2 && e.stderr == "" && e.handoff == None
    ensures var e := Effects(args, env, ForkFailed(error), transport, parse);
            |e.stdout| == 2 && e.stderr == "fork failed: " + error + "\n" && e.handoff == None
  {
  }

  /** The child rewrites the placeholder line with the outcome of the fetch and
      hands off the command exactly when there is one. The fetch is given the
      joined error text as it came, not the unescaped text that was printed. */
  lemma ChildRendersAndHandsOff(args: seq<string>, env: Option<Ai.OsValue>,
                                transport: Ai.Request -> Result<Ai.AiResponse, string>,
                                parse: string -> Option<Value>)
    requires |args| >= 1 && args[0] != "init"
    ensures var fix := Suggestion.GetAiSuggestion(
                         Ai.GetAiResponse(args[0], Cli.Join(args[1..]), env, transport, parse));
            var e := Effects(args, env, Child, transport, parse);
            && e.stdout[2..] == Notification(fix)
            && e.handoff == fix
            && e.stderr == ""
  {
  }

  /** The slot is written only by a child that obtained a suggestion. */
  lemma HandoffOnlyWithSuggestion(args: seq<string>, env: Option<Ai.OsValue>, fork: ForkResult,
                                  transport: Ai.Request -> Result<Ai.AiResponse, string>,
                                  parse: string -> Option<Value>)
    ensures Effects(args, env, fork, transport, parse).handoff.Some? <==>
              && |args| >= 1 && args[0] != "init"
              && fork == Child
              && Suggestion.GetAiSuggestion(
                   Ai.GetAiResponse(args[0], Cli.Join(args[1..]), env, transport, parse)).Some?
  {
  }

  /** End to end: a failed command and its error text as one argument, with a provider
      whose content parses to an answer of the response schema, leave the
      answer's command in the slot and on the screen. */
  lemma AnswerReachesSlotAndScreen(command: string, error: string, env: Option<Ai.OsValue>,
                                   content: string, suggested: string, explanation: string,
                                   transport: Ai.Request -> Result<Ai.AiResponse, string>,
                                   parse: string -> Option<Value>)
    requires command != "init"
    requires transport(Ai.BuildRequest(command, error, env))
               == Ok(Ai.AiResponse([Ai.Choice(Ai.MessageResponse(Some(content), None))]))
    requires parse(content)
               == Some(Object(map["suggested_exact_command" := Str(suggested),
                                  "command_explanation" := Str(explanation)]))
    ensures var e := Effects([command, error], env, Child, transport, parse);
            && e.handoff == Some(suggested)
            && Displayed(e.stdout[2..]) == Robot + " " + suggested + " " + KeyHint
  {
    var args := [command, error];
    assert args[1..] == [error];
    assert Cli.Dispatch(args) == Cli.Suggest(command, error);
    var answer := Object(map["suggested_exact_command" := Str(suggested),
                             "command_explanation" := Str(explanation)]);
    assert Ai.GetAiResponse(command, error, env, transport, parse) == Ok(answer);
    assert Suggestion.GetAiSuggestion(Ok(answer)) == Some(suggested);
    DisplayedNotification(Some(suggested));
  }
}
