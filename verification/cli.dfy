/**
 * Option resolution of the Twitch API command-line front end.
 *
 * Three stages, run in sequence for every invocation:
 *   1. defaulting of the flags the `arg` library parsed (ParseArguments);
 *   2. the per-command decision table that picks which questions to ask
 *      (QuestionsFor, built step by step by BuildQuestions);
 *   3. the merge of the prompt's answers into the record (Merge).
 * The `arg` tokeniser and the `inquirer` prompt are foreign code: the first is
 * replaced by its result (Args), the second by a parameter of type
 * `seq<Question> -> map<string, string>`.
 */
module Cli {
  import opened Wrappers

  const DefaultHost := "https://api.twitch.tv/"
  const DefaultMethod := "GET"
  const ClientIdBlankMessage := "Client ID must not be blank."

  /** What the `arg` library hands back: each flag absent (None) or with its
      value, and the positional arguments in order (`args._`). */
  datatype Args = Args(
    dump: Option<bool>,
    host: Option<string>,
    clientId: Option<string>,
    tokenType: Option<string>,
    httpMethod: Option<string>,
    positional: seq<string>)

  /** The options record built by parseArguments; `command` is None when no
      positional argument was given (`args._[0]` is undefined). */
  datatype Options = Options(
    dump: bool,
    command: Option<string>,
    host: string,
    clientId: string,
    tokenType: string,
    httpMethod: string)

  /** The record after the merge. `client_id` and `token_type` are written as
      `options.x || answers.x`, which is undefined (None) when the flag value
      was empty and no answer was collected for it. */
  datatype Resolved = Resolved(
    dump: bool,
    command: Option<string>,
    host: string,
    clientId: Option<string>,
    tokenType: Option<string>,
    httpMethod: string)

  /** JavaScript truthiness of a string that may be undefined. */
  predicate Truthy(v: Option<string>) {
    v.Some? && v.value != ""
  }

  /** `v || fallback` for a possibly undefined string and a string fallback. */
  function OrDefault(v: Option<string>, fallback: string): string {
    if Truthy(v) then v.value else fallback
  }

  /** `s || alt` for a string and a possibly undefined alternative. */
  function OrAnswer(s: string, alt: Option<string>): Option<string> {
    if s != "" then Some(s) else alt
  }

  // ---------------------------------------------------------------------------
  // Stage 1: defaulting of the parsed flags
  // ---------------------------------------------------------------------------

  /** The tokens given to `arg`: the process arguments without the runtime
      and script paths (`rawArgs.slice(2)`). */
  function Argv(rawArgs: seq<string>): (argv: seq<string>)
    ensures |argv| == if |rawArgs| <= 2 then 0 else |rawArgs| - 2
    ensures forall i :: 0 <= i < |argv| ==> argv[i] == rawArgs[i + 2]
  {
    if |rawArgs| <= 2 then [] else rawArgs[2..]
  }

  /** Every falsy flag takes its default; a truthy one is kept verbatim;
      `command` is the first positional argument. */
  function ParseArguments(args: Args): (o: Options)
    ensures o.dump <==> args.dump == Some(true)
    ensures |args.positional| > 0 ==> o.command == Some(args.positional[0])
    ensures |args.positional| == 0 ==> o.command == None
    ensures Truthy(args.host) ==> o.host == args.host.value
    ensures !Truthy(args.host) ==> o.host == DefaultHost
    ensures Truthy(args.clientId) ==> o.clientId == args.clientId.value
    ensures !Truthy(args.clientId) ==> o.clientId == ""
    ensures Truthy(args.tokenType) ==> o.tokenType == args.tokenType.value
    ensures !Truthy(args.tokenType) ==> o.tokenType == ""
    ensures Truthy(args.httpMethod) ==> o.httpMethod == args.httpMethod.value
    ensures !Truthy(args.httpMethod) ==> o.httpMethod == DefaultMethod
    ensures o.host != "" && o.httpMethod != ""
  {
    Options(
      dump := args.dump == Some(true),
      command := if |args.positional| > 0 then Some(args.positional[0]) else None,
      host := OrDefault(args.host, DefaultHost),
      clientId := OrDefault(args.clientId, ""),
      tokenType := OrDefault(args.tokenType, ""),
      httpMethod := OrDefault(args.httpMethod, DefaultMethod))
  }

  /** The flags that reproduce a record: each field passed back explicitly. */
  function FlagsOf(o: Options): Args {
    Args(
      dump := if o.dump then Some(true) else None,
      host := Some(o.host),
      clientId := Some(o.clientId),
      tokenType := Some(o.tokenType),
      httpMethod := Some(o.httpMethod),
      positional := if o.command.Some? then [o.command.value] else [])
  }

  /** Passing a record's fields back as flags yields the same record exactly
      when host and method are non-empty, that is, exactly for the records
      parseArguments can produce. */
  lemma FlagsRoundTrip(o: Options)
    ensures ParseArguments(FlagsOf(o)) == o <==> o.host != "" && o.httpMethod != ""
  {
  }

  /** Defaulting is idempotent: parsing the flags of a parsed record changes nothing. */
  lemma ParseIdempotent(args: Args)
    ensures ParseArguments(FlagsOf(ParseArguments(args))) == ParseArguments(args)
  {
    FlagsRoundTrip(ParseArguments(args));
  }

  // ---------------------------------------------------------------------------
  // Stage 2: the questions to ask
  // ---------------------------------------------------------------------------

  /** The validator's outcome: `true`, or the message to show. */
  datatype Verdict = Accept | Reject(message: string)

  /** The validator attached to a text question: rejects the blank answer. */
  datatype Validator = NonBlank(message: string)

  datatype Choice = Choice(display: string, value: string)

  /** An inquirer question: free text with a validator, or a pick from a list. */
  datatype Question =
    | Input(name: string, message: string, validate: Validator)
    | List(name: string, message: string, choices: seq<Choice>)

  const ClientIdQuestion: Question :=
    Input("client_id", "Enter the Client ID of an application to authorize:",
          NonBlank(ClientIdBlankMessage))

  const TokenTypeQuestion: Question :=
    List("token_type", "What type of token should be created?:",
         [Choice("Application Access Token", "app"), Choice("User Access Token", "user")])

  /** Runs a validator on an answer. */
  function Check(v: Validator, input: string): (r: Verdict)
    ensures r == Accept <==> input != ""
    ensures r != Accept ==> r == Reject(v.message)
  {
    match v
    case NonBlank(msg) => if input == "" then Reject(msg) else Accept
  }

  /** A token type the authorization flow knows. */
  predicate IsTokenType(s: string) {
    s == "app" || s == "user"
  }

  /** The decision table: only `authorize` asks anything; it asks for what
      is missing, client ID first. */
  function QuestionsFor(o: Options): seq<Question> {
    if o.command == Some("authorize") then
      (if o.clientId == "" then [ClientIdQuestion] else [])
      + (if IsTokenType(o.tokenType) then [] else [TokenTypeQuestion])
    else
      []
  }

  /** The switch of promptForMissingOptions, pushing onto a question list. */
  method BuildQuestions(o: Options) returns (questions: seq<Question>)
    ensures questions == QuestionsFor(o)
  {
    questions := [];
    match o.command {
      case Some("accounts") =>
        // no further argument requirements
      case Some("authorize") =>
        if o.clientId == "" {
          questions := questions + [ClientIdQuestion];
        }
        if o.tokenType == "" || (o.tokenType != "app" && o.tokenType != "user") {
          questions := questions + [TokenTypeQuestion];
        }
      case Some("alias") =>
        // the URL question is not implemented
      case _ =>
        // any other command is taken to be an API URL
    }
  }

  /** Commands other than `authorize` (`accounts`, `alias`, a URL, none) ask nothing. */
  lemma OnlyAuthorizeAsks(o: Options)
    ensures QuestionsFor(o) != [] ==> o.command == Some("authorize")
  {
  }

  /** The client-ID question is asked exactly when `authorize` has no client ID. */
  lemma ClientIdAskedIff(o: Options)
    ensures ClientIdQuestion in QuestionsFor(o) <==> o.command == Some("authorize") && o.clientId == ""
  {
  }

  /** The token-type question is asked exactly when `authorize` has no valid token type. */
  lemma TokenTypeAskedIff(o: Options)
    ensures TokenTypeQuestion in QuestionsFor(o) <==> o.command == Some("authorize") && !IsTokenType(o.tokenType)
  {
  }

  /** At most two questions, no repetition, and the client ID comes first. */
  lemma QuestionOrder(o: Options)
    ensures |QuestionsFor(o)| <= 2
    ensures forall q :: q in QuestionsFor(o) ==> q == ClientIdQuestion || q == TokenTypeQuestion
    ensures |QuestionsFor(o)| == 2 ==> QuestionsFor(o) == [ClientIdQuestion, TokenTypeQuestion]
    ensures ClientIdQuestion in QuestionsFor(o) && TokenTypeQuestion in QuestionsFor(o)
            ==> QuestionsFor(o) == [ClientIdQuestion, TokenTypeQuestion]
  {
  }

  /** The token-type question offers `app` then `user`, and nothing else. */
  lemma TokenTypeChoices()
    ensures TokenTypeQuestion.List?
    ensures |TokenTypeQuestion.choices| == 2
    ensures TokenTypeQuestion.choices[0].value == "app" && TokenTypeQuestion.choices[1].value == "user"
  {
  }

  /** The client-ID question rejects the blank answer with its message and
      accepts every other answer. */
  lemma ClientIdValidation(input: string)
    ensures ClientIdQuestion.Input?
    ensures input == "" ==> Check(ClientIdQuestion.validate, input) == Reject("Client ID must not be blank.")
    ensures input != "" ==> Check(ClientIdQuestion.validate, input) == Accept
  {
  }

  // ---------------------------------------------------------------------------
  // Stage 3: merging the answers
  // ---------------------------------------------------------------------------

  /** `answers[name]`, undefined when the prompt collected no such answer. */
  function AnswerFor(answers: map<string, string>, name: string): Option<string> {
    if name in answers then Some(answers[name]) else None
  }

  /** A copy of the record in which an empty client ID or token type takes the
      answer; a non-empty one is never overwritten, other fields pass through. */
  function Merge(o: Options, answers: map<string, string>): (r: Resolved)
    ensures r.dump == o.dump && r.command == o.command && r.host == o.host && r.httpMethod == o.httpMethod
    ensures o.clientId != "" ==> r.clientId == Some(o.clientId)
    ensures o.clientId == "" ==> r.clientId == AnswerFor(answers, "client_id")
    ensures o.tokenType != "" ==> r.tokenType == Some(o.tokenType)
    ensures o.tokenType == "" ==> r.tokenType == AnswerFor(answers, "token_type")
  {
    Resolved(
      dump := o.dump,
      command := o.command,
      host := o.host,
      clientId := OrAnswer(o.clientId, AnswerFor(answers, "client_id")),
      tokenType := OrAnswer(o.tokenType, AnswerFor(answers, "token_type")),
      httpMethod := o.httpMethod)
  }

  /** An answer the prompt can return for a question: one its validator
      accepts, or the value of one of its choices. */
  ghost predicate Answers(q: Question, a: string) {
    match q
    case Input(_, _, v) => Check(v, a) == Accept
    case List(_, _, cs) => exists i :: 0 <= i < |cs| && cs[i].value == a
  }

  /** What the prompt guarantees of its result: an acceptable answer for every
      question asked, keyed by the question's name, and nothing else. */
  ghost predicate Conforms(qs: seq<Question>, answers: map<string, string>) {
    && (forall q :: q in qs ==> q.name in answers && Answers(q, answers[q.name]))
    && (forall k :: k in answers ==> exists q :: q in qs && q.name == k)
  }

  /** After `authorize`, the client ID is always set and non-blank. */
  lemma AuthorizeSetsClientId(o: Options, answers: map<string, string>)
    requires o.command == Some("authorize")
    requires Conforms(QuestionsFor(o), answers)
    ensures Merge(o, answers).clientId.Some?
    ensures Merge(o, answers).clientId.value != ""
  {
  }

  /** After `authorize`, the token type is `app` or `user` exactly when the flag
      was empty or already one of them: a non-empty invalid value survives. */
  lemma AuthorizeTokenTypeValidIff(o: Options, answers: map<string, string>)
    requires o.command == Some("authorize")
    requires Conforms(QuestionsFor(o), answers)
    ensures Merge(o, answers).tokenType.Some?
    ensures IsTokenType(Merge(o, answers).tokenType.value) <==> o.tokenType == "" || IsTokenType(o.tokenType)
  {
  }

  /** A non-empty token type other than `app` or `user` triggers the question,
      yet the merge keeps it whatever the answer. */
  lemma InvalidTokenTypeSurvives(o: Options, answers: map<string, string>)
    requires o.command == Some("authorize")
    requires o.tokenType != "" && !IsTokenType(o.tokenType)
    ensures TokenTypeQuestion in QuestionsFor(o)
    ensures Merge(o, answers).tokenType == Some(o.tokenType)
  {
  }

  /** So resolution does not guarantee a valid token type for `authorize`:
      `--token-type foo` with the answer `user` still resolves to `foo`. */
  lemma AuthorizeMayKeepInvalidTokenType()
    ensures exists o: Options, answers: map<string, string> ::
      && o.command == Some("authorize")
      && Conforms(QuestionsFor(o), answers)
      && !IsTokenType(Merge(o, answers).tokenType.value)
  {
    var o := Options(false, Some("authorize"), DefaultHost, "abc123", "foo", DefaultMethod);
    var answers := map["token_type" := "user"];
    assert QuestionsFor(o) == [TokenTypeQuestion];
    assert Answers(TokenTypeQuestion, "user") by {
      assert TokenTypeQuestion.choices[1].value == "user";
    }
    assert Merge(o, answers).tokenType == Some("foo");
  }

  /** For any command but `authorize` nothing is asked, and an empty client ID
      or token type comes out undefined rather than empty. */
  lemma OtherCommandsPassThrough(o: Options, answers: map<string, string>)
    requires o.command != Some("authorize")
    requires Conforms(QuestionsFor(o), answers)
    ensures answers == map[]
    ensures Merge(o, answers).clientId == (if o.clientId == "" then None else Some(o.clientId))
    ensures Merge(o, answers).tokenType == (if o.tokenType == "" then None else Some(o.tokenType))
  {
  }

  // ---------------------------------------------------------------------------
  // The whole invocation
  // ---------------------------------------------------------------------------

  /** promptForMissingOptions: build the questions, ask them, merge the answers. */
  method PromptForMissingOptions(o: Options, prompt: seq<Question> -> map<string, string>)
    returns (r: Resolved)
    ensures r == Merge(o, prompt(QuestionsFor(o)))
    ensures o.command == Some("authorize") && Conforms(QuestionsFor(o), prompt(QuestionsFor(o)))
            ==> r.clientId.Some? && r.clientId.value != ""
  {
    var questions := BuildQuestions(o);
    var answers := prompt(questions);
    r := Merge(o, answers);
    if o.command == Some("authorize") && Conforms(questions, answers) {
      AuthorizeSetsClientId(o, answers);
    }
  }

  /** cli: slice the process arguments, let the tokeniser parse them, default
      the flags and resolve the missing options. */
  method Run(rawArgs: seq<string>, tokenize: seq<string> -> Args,
             prompt: seq<Question> -> map<string, string>)
    returns (r: Resolved)
    ensures var o := ParseArguments(tokenize(Argv(rawArgs)));
            r == Merge(o, prompt(QuestionsFor(o)))
    ensures r.host != "" && r.httpMethod != ""
  {
    var options := ParseArguments(tokenize(Argv(rawArgs)));
    r := PromptForMissingOptions(options, prompt);
  }

  /** `authorize --client-id abc123`, answering the token-type question with
      "User Access Token". */
  lemma AuthorizeExample()
    ensures var o := ParseArguments(Args(None, None, Some("abc123"), None, None, ["authorize"]));
      && o == Options(false, Some("authorize"), "https://api.twitch.tv/", "abc123", "", "GET")
      && QuestionsFor(o) == [TokenTypeQuestion]
      && TokenTypeQuestion.choices[1] == Choice("User Access Token", "user")
      && Conforms(QuestionsFor(o), map["token_type" := "user"])
      && Merge(o, map["token_type" := "user"])
         == Resolved(false, Some("authorize"), "https://api.twitch.tv/", Some("abc123"), Some("user"), "GET")
  {
    assert TokenTypeQuestion.choices[1].value == "user";
  }
}
