# Option resolution of the Twitch API command line

A model of how the `twitch-cli` front end turns its command line into the
options record it hands to the request executor (`src/cli.js`). An invocation
goes through three stages:

1. **Defaulting** (`Cli.ParseArguments`). The flags `--dump`, `--host`,
   `--client-id`, `--token-type` and `--method` arrive as the `arg` library
   parsed them (`Cli.Args`, one `Option` per flag plus the positional
   arguments). JavaScript `||` replaces every absent or falsy value by its
   default: `false`, `"https://api.twitch.tv/"`, `""`, `""`, `"GET"`. An
   explicitly empty string also falls back. `command` is the first
   positional argument, undefined (`None`) when there is none.
2. **Question selection** (`Cli.BuildQuestions`, specified by
   `Cli.QuestionsFor`). The command picks the questions. `authorize` asks for
   the client ID when it is empty. It then asks for the token type when that
   is neither `"app"` nor `"user"`. `accounts`, `alias`, any other command and
   a missing command ask nothing. The client-ID question carries a validator
   (`Cli.Check`) that rejects the blank answer with
   `"Client ID must not be blank."`. The token-type question offers the values
   `"app"` and `"user"`, in that order.
3. **Merge** (`Cli.Merge`). The record is copied. `client_id` and
   `token_type` take the prompt's answer only when they were empty. All other
   fields pass through.

`Cli.PromptForMissingOptions` and `Cli.Run` compose the stages as the
source's `promptForMissingOptions` and `cli` do. The prompt library is a
function parameter from questions to answers. `Cli.Conforms` states what it
guarantees of its answers: one per question asked, keyed by the question's
name, accepted by the validator or among the offered values. The `arg`
tokeniser is a function parameter from tokens to `Cli.Args`.

Two behaviours of the code are easy to miss. The model states both.

- The token-type question offers only `app` and `user`
  (src/cli.js:63-74). But the merge writes `options.token_type ||
  answers.token_type` (src/cli.js:97), which keeps a non-empty invalid
  value. So `--token-type foo` triggers the question, and whatever the
  answer, `foo` survives (`Cli.InvalidTokenTypeSurvives`,
  `Cli.AuthorizeMayKeepInvalidTokenType`, `Cli.AuthorizeTokenTypeValidIff`).
- The `accounts` branch is marked as having no further argument
  requirements (src/cli.js:46). Yet the merge writes `options.client_id ||
  answers.client_id` (src/cli.js:96). For every command that asks nothing,
  that makes an empty client ID `"" || undefined`, that is undefined, and
  the token type likewise. So `Cli.Resolved` holds these two fields as
  `Option<string>` (`Cli.OtherCommandsPassThrough`).

## Model

| member | source | states |
|---|---|---|
| `Cli.Argv` | src/cli.js:27 | the tokens given to the parser are the process arguments with the first two dropped, and none when there are at most two |
| `Cli.ParseArguments` | src/cli.js:31-38 | each falsy or absent flag takes its default and each truthy one is kept verbatim; `dump` is true exactly when the flag was set; `command` is the first positional argument or undefined; host and method are never empty |
| `Cli.FlagsRoundTrip` | src/cli.js:31-38 | passing a record's fields back as flags reproduces it exactly when its host and method are non-empty, which characterises the records defaulting can produce |
| `Cli.ParseIdempotent` | src/cli.js:31-38 | defaulting a record's own flags again changes nothing |
| `Cli.Check` | src/cli.js:56-59 | the validator accepts exactly the non-empty answers and otherwise rejects with its message |
| `Cli.ClientIdValidation` | src/cli.js:56-59 | the client-ID question rejects `""` with "Client ID must not be blank." and accepts every other input |
| `Cli.BuildQuestions` | src/cli.js:42-90 | the switch with its pushes yields exactly the decision table `QuestionsFor` |
| `Cli.OnlyAuthorizeAsks` | src/cli.js:44-90 | `accounts`, `alias`, any other command and a missing command produce no questions |
| `Cli.ClientIdAskedIff` | src/cli.js:51-61 | the client-ID question is queued if and only if the command is `authorize` and `client_id` is empty |
| `Cli.TokenTypeAskedIff` | src/cli.js:63-74 | the token-type question is queued if and only if the command is `authorize` and `token_type` is neither `app` nor `user` |
| `Cli.QuestionOrder` | src/cli.js:51-74 | at most two questions, each one of the two known questions, and the client ID before the token type when both are asked |
| `Cli.TokenTypeChoices` | src/cli.js:69-72 | the token-type question is a list offering exactly the values `app` then `user` |
| `Cli.Merge` | src/cli.js:94-98 | a non-empty client ID or token type is never overwritten; an empty one takes the answer, or becomes undefined without one; dump, command, host and method are unchanged |
| `Cli.AuthorizeSetsClientId` | src/cli.js:49-98 | for `authorize`, with answers the prompt accepts, the resolved client ID is set and non-blank |
| `Cli.AuthorizeTokenTypeValidIff` | src/cli.js:63-98 | for `authorize`, with answers the prompt accepts, the resolved token type is `app` or `user` if and only if the flag was empty or already valid |
| `Cli.InvalidTokenTypeSurvives` | src/cli.js:63-98 | a non-empty invalid token type triggers the token-type question and still survives the merge, whatever the answer |
| `Cli.AuthorizeMayKeepInvalidTokenType` | src/cli.js:63-98 | there is an `authorize` invocation with answers the prompt accepts whose resolved token type is invalid |
| `Cli.OtherCommandsPassThrough` | src/cli.js:44-98 | for any command but `authorize` the prompt returns no answers, and an empty client ID or token type resolves to undefined while a non-empty one is kept |
| `Cli.PromptForMissingOptions` | src/cli.js:41-99 | the result is the merge of the record with the prompt's answers to exactly the selected questions; for `authorize` with conforming answers the client ID is non-blank |
| `Cli.Run` | src/cli.js:101-105 | an invocation defaults the parsed flags of the sliced arguments, then resolves them; host and method of the result are never empty |
| `Cli.AuthorizeExample` | src/cli.js:31-98 | `authorize --client-id abc123` defaults to host `https://api.twitch.tv/`, method `GET` and an empty token type, asks only for the token type; picking "User Access Token" is the answer `user`, which the prompt accepts, and gives token type `user` with every other field unchanged |

## Left out

- The `arg` library's tokenisation: aliases (`-c` for `--client-id`), type coercion and the error for unknown flags. It is foreign code; the model starts from its result, `Cli.Args`, and `Cli.Run` takes it as a parameter.
- `inquirer.prompt`: interactive terminal I/O, including re-asking after a rejected answer. It is a parameter of `Cli.PromptForMissingOptions`; `Cli.Conforms` states what it is assumed to return.
- `console.log(options)` in `cli`: output only. `Cli.Run` returns the record instead, and it is synchronous where the source is `async`.
- The URL question for `alias` is commented out in the source; only the no-op branch is modelled.
- The `dump` flag is modelled as an optional boolean; the parser library only ever yields `true` for it, and the model also admits an explicit `false`.
