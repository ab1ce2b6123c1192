# aishell: the suggestion pipeline, modelled in Dafny

aishell is hooked into an interactive shell. The program takes a failed command
and an error text as `aishell <failed_command> <error_output>`. The hooks it
installs fill these in differently:

- The bash/zsh trap passes `"$BASH_COMMAND"` and the exit status `"$?"`, so the
  "error text" is the status number.
- The fish hook passes only `"$argv"`, so the error text is empty.

The program prints the error text and a "loading" placeholder, then forks. The parent returns to the shell at once. The
child asks a language-model provider for a corrected command and rewrites the
placeholder line with the answer. When there is a command, the child also writes
it to `/tmp/aishell_suggestion`, where a key binding (Ctrl+T) picks it up.
`aishell init <shell>` prints the hook for a shell dialect instead.

This project models the deterministic rules underneath that plumbing:

- `Cli` (cli.dfy) covers argument dispatch. It joins the trailing arguments into
  the error text and turns literal backslash-n pairs into newlines for printing.
- `Hooks` (hooks.dfy) covers `init_shell`: the hook text for bash/zsh, for fish,
  and the "Shell not supported" line for any other dialect.
- `Json` (json.dfy) and `Schema` (schema.dfy) cover JSON values and
  `response_schema`, with a conformance predicate for the part of JSON Schema
  that the schema uses.
- `Ai` (ai.dfy) covers `get_ai_response` as a function:
  - the API-key fallback, the Authorization header and the payload;
  - the classification of the provider's reply (refusal, then content, then
    unexpected shape).
- `Suggestion` (suggestion.dfy) covers `get_ai_suggestion`, the step from a reply
  value to an optional command.
- `Render` (render.dfy) covers the child's rewrite of the placeholder line, as a
  sequence of terminal tokens. Each token encodes to the exact bytes the program
  prints.
- `Handoff` (handoff.dfy) covers the suggestion file, as a class with one
  `Option<string>` field that `InsertIntoHistory` overwrites.
- `App` (app.dfy) covers `main`:
  - the method `Run`, which goes step by step over a `Console` and the
    suggestion file;
  - `Effects`, the function that specifies what one run does.

Each run is seen from one process. The fork outcome is an input (`Child`,
`Parent` or `ForkFailed`). The environment variable `OPENAI_API_KEY` is an input
of type `Option<OsValue>`, where the value is either Unicode text or not valid
Unicode. The HTTP exchange is a function parameter `transport`. It stands for
sending the request, reading the body and decoding the reply envelope; any of
these failing is an `Err`. `serde_json::from_str` applied to the message content
is a function parameter `parse: string -> Option<Value>`.

In these places the code behaves in ways a reader may not expect; the model
follows the code:

- The response schema does not require its strings to be non-empty. A
  conforming answer may carry an empty command (`Schema.ConformsExactly`).
- The refusal text is computed but never reaches the user. `get_ai_suggestion`
  gives nothing for the refusal object, so the terminal shows the no-suggestion
  line (`Suggestion.RefusalGivesNothing`).
- The `init` mode warns only when the key variable is unset. A value that is not
  valid Unicode draws no warning, yet the placeholder key is sent
  (`App.InitWarningMissesInvalidKey`).
- A failed command whose first argument is literally `init` is dispatched as
  init mode (`Cli.Dispatch`).
- The fetch is given the joined error text as it came. Only the printed copy has
  its backslash-n pairs replaced (`App.ChildRendersAndHandsOff`).

## Model

| member | source | states |
|---|---|---|
| Cli.Dispatch | src/main.rs:14-33 | No arguments gives usage. "init" alone gives init usage. "init" with a dialect gives that dialect. Anything else is a failed command: the command is `args[0]` and the error text is `args[1..]` joined by single spaces, empty when there is only one argument. Every case is stated in both directions. |
| Cli.SplitJoin | src/main.rs:33 | When no argument contains a space, splitting the joined text at spaces gives the arguments back, so the join puts exactly one space between them. |
| Cli.FailedCommandArguments | src/main.rs:32-33 | On the failed-command path the command is the first argument, spaces included. When the remaining arguments hold no spaces, the error text splits back into them. |
| Cli.Unescape | src/main.rs:35 | Replacing backslash-n pairs with newlines, scanning left to right, leaves no backslash-n pair in the result. Text without such a pair is printed unchanged, and the result is never longer. |
| Cli.UnescapeEscape | src/main.rs:35 | Text whose newlines were escaped as backslash-n prints with its newlines restored, provided it held no literal backslash-n itself. |
| Hooks.InitShell | src/main.rs:118-134 | A dialect writes to stdout exactly when it is bash, zsh or fish, and then writes nothing to stderr. Any other dialect writes nothing to stdout and "Shell not supported" to stderr. fish gets the `fish_postexec` function. |
| Hooks.BashZshShareHook | src/main.rs:120-126 | bash and zsh print the identical trap line. |
| Schema.ResponseSchemaShape | src/ai.rs:105-117 | The schema requires exactly `suggested_exact_command` and `command_explanation`, declares exactly those two, types both as string, and forbids additional properties. |
| Schema.ConformsExactly | src/ai.rs:105-117 | A value satisfies the schema exactly when it is an object whose members are the two named ones, both strings. |
| Ai.ApiKey | src/ai.rs:54-57 | The key is the variable's text when the variable is set and valid Unicode. Otherwise it is "default_key". |
| Ai.Authorization | src/ai.rs:83 | The header value is "Bearer " followed by exactly the key. |
| Ai.BearerRoundTrip | src/ai.rs:83 | Reading the bearer token back from the header gives the key that was put in. |
| Ai.RequestCredential | src/ai.rs:80-83 | The request goes to the chat-completions URL with Content-Type application/json and Authorization "Bearer " + the chosen key. |
| Ai.PayloadOrder | src/ai.rs:63-78 | The messages are, in order, (system, instruction), (user, command) and (user, error text). The model is gpt-4o, and the response format carries the response schema in strict mode. |
| Ai.Classify | src/ai.rs:93-102 | A value is produced exactly when the exchange succeeded and the first choice either refuses or has content that parses. A transport failure gives a `Transport` error carrying its message. |
| Ai.RefusalWins | src/ai.rs:93-95 | A refusal in the first choice gives `{"error": "Refused request", "message": refusal}`, even when content is also present, and the result does not depend on the content parser. |
| Ai.ContentIsParsed | src/ai.rs:97-100 | Without a refusal, the first choice's content gives the parsed value when it parses and `InvalidContent` when it does not. |
| Ai.UnexpectedWhenEmpty | src/ai.rs:93-102 | No choice, or a first choice with neither refusal nor content, gives the "Unexpected API response format" error. |
| Ai.OnlyFirstChoiceCounts | src/ai.rs:93-97 | In a decoded reply, choices after the first never change the result. |
| Ai.NoSchemaCheck | src/ai.rs:97-99 | A parsed value is returned even when it does not satisfy the response schema, as for an empty object. |
| Suggestion.GetAiSuggestion | src/main.rs:106-115 | Gives a command exactly when the response is a value whose `suggested_exact_command` member is a string, and the command is that string. |
| Suggestion.RefusalGivesNothing | src/main.rs:109-114 | The refusal object yields no command. |
| Suggestion.ConformingAnswerGivesCommand | src/main.rs:109-112 | Every answer that satisfies the response schema yields its `suggested_exact_command`. |
| Suggestion.TransportFailureGivesNothing | src/main.rs:107-114 | A failed exchange yields no command. |
| Suggestion.GerpScenario | src/main.rs:106-115 | For "gerp foo" / "command not found", with a provider answering "grep foo", the suggestion is "grep foo". |
| Render.NotificationShape | src/main.rs:50-63 | Whatever the outcome, the rewrite starts with save-cursor, then up, up and clear-line, and ends with restore-cursor. No other save or restore comes in between. |
| Render.DisplayedNotification | src/main.rs:53-59 | On screen, a suggestion shows as the robot, the command and "(Ctrl+T)". No suggestion shows the "No suggestion available." line ending in a newline. |
| Render.EncodedSuggestion | src/main.rs:50-63 | With a suggestion, the bytes written are the program's escape sequences and result line, in order. |
| Render.EncodedNoSuggestion | src/main.rs:50-63 | Without a suggestion, the bytes written are the program's escape sequences and the no-suggestion line, in order. |
| Handoff.StripWrittenLine | src/main.rs:102 | The line written for a command, without its terminator, is the command. |
| Handoff.SuggestionFile.InsertIntoHistory | src/main.rs:96-102 | Afterwards the slot holds exactly the command plus a newline and offers exactly that command, whatever it held before. |
| Handoff.LastWriterWins | src/main.rs:96-102 | Two writes A then B leave exactly B. |
| App.Run | src/main.rs:13-74 | Stdout, stderr and the slot end up as `Effects` describes: outputs are appended, and the slot is overwritten only when there is a hand-off. |
| App.RunInit | src/main.rs:25-28 | Prints the hook, then the warning when the key variable is unset. |
| App.RunSuggest | src/main.rs:32-72 | Prints the unescaped error text and the placeholder. Then, by fork outcome: the child fetches, renders and hands off; the parent does nothing; a failed fork is reported. |
| App.RenderAndHandOff | src/main.rs:50-64 | Appends the whole notification to stdout. Writes the slot exactly when there is a command, and otherwise leaves it untouched. |
| App.NoArgumentsOnlyUsage | src/main.rs:15-18 | With no arguments there is only the usage line on stderr: nothing on stdout and no hand-off, whatever the fork or provider would do. |
| App.InitWithoutShell | src/main.rs:20-24 | "init" alone writes only the init usage line. No hook is printed and nothing is handed off. |
| App.InitPrintsHook | src/main.rs:20-29 | "init shell" writes the dialect's hook output, adds the key warning exactly when the variable is unset, and hands nothing off. |
| App.InitWarningMissesInvalidKey | src/main.rs:26-28 | A key that is not valid Unicode draws no warning, yet "default_key" is what gets sent. |
| App.FailedCommandPrinted | src/main.rs:32-38 | The failed-command path first prints the unescaped joined error text with a newline, then the placeholder. With one argument the first line is empty. |
| App.ParentAndForkFailure | src/main.rs:68-71 | The parent writes nothing after the placeholder and leaves the slot alone. A failed fork prints "fork failed: " and the error on stderr, and nothing is fetched. |
| App.ChildRendersAndHandsOff | src/main.rs:42-66 | The child's output after the placeholder is the notification for the suggestion fetched with the raw joined error text. The hand-off is exactly that suggestion. |
| App.HandoffOnlyWithSuggestion | src/main.rs:53-59 | The slot is written exactly when the run is a failed-command child whose fetch gave a command. |
| App.AnswerReachesSlotAndScreen | src/main.rs:46-59 | A provider answer that parses to the schema's object puts its command in the slot and on the screen next to the key hint. |

## Left out

- Process detachment (`fork`, `setsid`) and the race between the two halves are left out. A run is one side of the fork, chosen by an input. Concurrency across invocations is not modelled beyond last-writer-wins on the slot.
- The tokio runtime and `async`/`.await` are left out. Calls are sequential.
- The HTTP client, TLS, `response.text()` and the decoding of the reply envelope are left out. Together they are the `transport` parameter, and a failure of any of them is an `Err` message.
- Ai.OnlyFirstChoiceCounts: holds only for a reply whose envelope decoded. `serde_json` decodes every choice, so a later choice that does not decode fails the whole reply. `transport` absorbs that failure as an `Err`.
- Cli.Dispatch: arguments are Unicode text. `env::args` panics on an argument that is not valid Unicode, before anything is dispatched or printed.
- `serde_json` parsing and serialisation are left out. Parsing the content is the `parse` parameter, and the payload is a JSON value rather than the bytes it serialises to.
- Ai.Classify: when the content does not parse, the error carries no message, because the parser's own error text belongs to the foreign library.
- JSON numbers are integers. The program never inspects a number.
- `unwrap` panics on stdout flushes and on opening or writing the suggestion file are left out, as are the flushes themselves.
- The terminal's response to the escape sequences (cursor geometry, scrolling) is left out. Only the emitted tokens and their bytes are modelled.
- The key binding that reads and clears the slot, and the `add-to-shell` rc-file editing, are not part of this model. Neither appears in the modelled files.
- The commented-out alternatives in both files are dead code and are not modelled.
