/** The request the program sends to the completion provider and the rule that
    classifies the provider's reply (`get_ai_response`). The HTTP exchange itself
    is a parameter: `transport` stands for sending the request, reading the body
    and decoding the reply envelope; `parse` stands for `serde_json::from_str`
    applied to the message content. */
module Ai {
  import opened Wrappers
  import opened Json
  import Schema

  const DefaultKey := "default_key"
  const BearerPrefix := "Bearer "
  const Url := "https://api.openai.com/v1/chat/completions"
  const ModelName := "gpt-4o"
  const Instruction :=
    "You are a tool that receives failed shell commands and their output, and your job is to suggest a corrected command. You will receive a JSON schema that describes the expected output. Your response should be a JSON object that matches the schema."
  const RefusedRequest := "Refused request"
  const UnexpectedFormat := "Unexpected API response format"

  /** The value of an environment variable as the operating system holds it. */
  datatype OsValue = Unicode(text: string) | NotUnicode

  /** The key sent to the provider: the variable's text when it is set and valid
      Unicode, the placeholder "default_key" otherwise. */
  function ApiKey(env: Option<OsValue>): (key: string)
    ensures env.Some? && env.value.Unicode? ==> key == env.value.text
    ensures env.None? || env.value.NotUnicode? ==> key == DefaultKey
  {
    match env
    case Some(Unicode(text)) => text
    case _ => DefaultKey
  }

  /** The value of the Authorization header for a key. */
  function Authorization(key: string): (h: string)
    ensures |h| == |BearerPrefix| + |key|
    ensures h[..|BearerPrefix|] == BearerPrefix && h[|BearerPrefix|..] == key
  {
    BearerPrefix + key
  }

  /** The key carried by an Authorization value, if it is a bearer credential. */
  function BearerToken(h: string): (key: Option<string>)
    ensures key.Some? <==> |h| >= |BearerPrefix| && h[..|BearerPrefix|] == BearerPrefix
  {
    if |h| >= |BearerPrefix| && h[..|BearerPrefix|] == BearerPrefix then Some(h[|BearerPrefix|..])
    else None
  }

  /** The provider reads back exactly the key that was put in the header. */
  lemma BearerRoundTrip(key: string)
    ensures BearerToken(Authorization(key)) == Some(key)
  {
  }

  /** One chat message of the payload. */
  function ChatMessage(role: string, content: string): Value
  {
    Object(map["role" := Str(role), "content" := Str(content)])
  }

  /** The JSON body of the request. */
  function Payload(command: string, error: string): Value
  {
    Object(map[
      "model" := Str(ModelName),
      "messages" := Array([
        ChatMessage("system", Instruction),
        ChatMessage("user", command),
        ChatMessage("user", error)]),
      "response_format" := Object(map[
        "type" := Str("json_schema"),
        "json_schema" := Object(map[
          "name" := Str("command_info"),
          "strict" := Bool(true),
          "schema" := Schema.ResponseSchema()])])])
  }

  /** An HTTP POST request: target, headers in the order they are added, body. */
  datatype Request = Request(url: string, headers: seq<(string, string)>, body: Value)

  /** The request `get_ai_response` sends for a failed command and its error text. */
  function BuildRequest(command: string, error: string, env: Option<OsValue>): Request
  {
    Request(Url,
            [("Content-Type", "application/json"), ("Authorization", Authorization(ApiKey(env)))],
            Payload(command, error))
  }

  /** The first header with the given name. */
  function Header(headers: seq<(string, string)>, name: string): (r: Option<string>)
    ensures r.Some? ==> exists i :: 0 <= i < |headers| && headers[i] == (name, r.value)
    ensures r.None? ==> forall i :: 0 <= i < |headers| ==> headers[i].0 != name
  {
    if headers == [] then None
    else if headers[0].0 == name then Some(headers[0].1)
    else
      var r := Header(headers[1..], name);
      assert r.Some? ==> exists i :: 0 <= i < |headers| && headers[i] == (name, r.value) by {
        if r.Some? {
          var i :| 0 <= i < |headers[1..]| && headers[1..][i] == (name, r.value);
          assert headers[i + 1] == (name, r.value);
        }
      }
      assert r.None? ==> forall i :: 0 <= i < |headers| ==> headers[i].0 != name by {
        if r.None? {
          forall i | 0 <= i < |headers| ensures headers[i].0 != name {
            if i > 0 { assert headers[i] == headers[1..][i - 1]; }
          }
        }
      }
      r
  }

  /** The request authenticates with the key `ApiKey` chose, as a bearer token,
      and posts JSON to the chat-completions endpoint. */
  lemma RequestCredential(command: string, error: string, env: Option<OsValue>)
    ensures BuildRequest(command, error, env).url == Url
    ensures Header(BuildRequest(command, error, env).headers, "Authorization")
              == Some("Bearer " + ApiKey(env))
    ensures Header(BuildRequest(command, error, env).headers, "Content-Type")
              == Some("application/json")
  {
  }

  /** The (role, content) pairs of a list of chat messages, in order; nothing
      when some element is not a message. */
  function Conversation(messages: seq<Value>): (r: Option<seq<(string, string)>>)
    ensures r.Some? ==> |r.value| == |messages|
  {
    if messages == [] then Some([])
    else
      match (Get(messages[0], "role"), Get(messages[0], "content"), Conversation(messages[1..]))
      case (Some(Str(role)), Some(Str(content)), Some(rest)) => Some([(role, content)] + rest)
      case _ => None
  }

  /** A message followed by others reads as its (role, content) pair followed
      by theirs. */
  lemma ConversationCons(role: string, content: string, rest: seq<Value>)
    ensures Conversation([ChatMessage(role, content)] + rest)
              == if Conversation(rest).Some? then Some([(role, content)] + Conversation(rest).value)
                 else None
  {
    var ms := [ChatMessage(role, content)] + rest;
    assert ms[1..] == rest;
    assert Get(ms[0], "role") == Some(Str(role));
    assert Get(ms[0], "content") == Some(Str(content));
  }

  /** The messages of a payload, in order. */
  function Messages(payload: Value): Option<seq<Value>>
  {
    match Get(payload, "messages")
    case Some(Array(items)) => Some(items)
    case _ => None
  }

  /** The conversation sent is the system instruction, then the failed command,
      then its error text, and the reply is constrained by the response schema
      in strict mode. */
  lemma {:induction false} PayloadOrder(command: string, error: string)
    ensures Messages(Payload(command, error)).Some?
    ensures Conversation(Messages(Payload(command, error)).value)
              == Some([("system", Instruction), ("user", command), ("user", error)])
    ensures Get(Payload(command, error), "model") == Some(Str(ModelName))
    ensures Get(Payload(command, error), "response_format").Some?
    ensures var format := Get(Payload(command, error), "response_format").value;
            Get(format, "json_schema").Some?
            && Get(Get(format, "json_schema").value, "strict") == Some(Bool(true))
            && Get(Get(format, "json_schema").value, "schema") == Some(Schema.ResponseSchema())
  {
    var m0, m1, m2 := ChatMessage("system", Instruction), ChatMessage("user", command), ChatMessage("user", error);
    assert Messages(Payload(command, error)) == Some([m0, m1, m2]);
    assert Conversation([]) == Some([]);
    ConversationCons("user", error, []);
    assert [m2] + [] == [m2];
    assert [("user", error)] + [] == [("user", error)];
    assert Conversation([m2]) == Some([("user", error)]);
    ConversationCons("user", command, [m2]);
    assert [m1] + [m2] == [m1, m2];
    assert [("user", command)] + [("user", error)] == [("user", command), ("user", error)];
    assert Conversation([m1, m2]) == Some([("user", command), ("user", error)]);
    ConversationCons("system", Instruction, [m1, m2]);
    assert [m0] + [m1, m2] == [m0, m1, m2];
    assert [("system", Instruction)] + [("user", command), ("user", error)]
        == [("system", Instruction), ("user", command), ("user", error)];
  }

  /** The part of a chat-completion reply the program reads. */
  datatype MessageResponse = MessageResponse(content: Option<string>, refusal: Option<string>)
  datatype Choice = Choice(message: MessageResponse)
  datatype AiResponse = AiResponse(choices: seq<Choice>)

  /** Why no value was obtained: the exchange or the envelope failed (with the
      transport's message), the content was not JSON (the parser's message is
      not modelled), or the reply had neither a refusal nor content (with the
      program's own message). */
  datatype Failure = Transport(detail: string) | InvalidContent | UnexpectedShape(message: string)

  /** The value returned in place of a suggestion when the provider refuses. */
  function RefusalObject(refusal: string): Value
  {
    Object(map["error" := Str(RefusedRequest), "message" := Str(refusal)])
  }

  /** `choices.get(0).and_then(|c| c.message.refusal.clone())` */
  function FirstRefusal(reply: AiResponse): Option<string>
  {
    if |reply.choices| > 0 then reply.choices[0].message.refusal else None
  }

  /** `choices.get(0).and_then(|c| c.message.content.clone())` */
  function FirstContent(reply: AiResponse): Option<string>
  {
    if |reply.choices| > 0 then reply.choices[0].message.content else None
  }

  /** The classification at the end of `get_ai_response`: a refusal in the first
      choice wins; otherwise its content must parse as JSON; otherwise the reply
      has an unexpected shape. A value is produced exactly when the exchange
      succeeded and the first choice refuses, or carries content that parses. */
  function Classify(reply: Result<AiResponse, string>, parse: string -> Option<Value>)
    : (r: Result<Value, Failure>)
    ensures r.Ok? <==>
              && reply.Ok?
              && |reply.value.choices| > 0
              && (|| reply.value.choices[0].message.refusal.Some?
                  || (reply.value.choices[0].message.content.Some?
                      && parse(reply.value.choices[0].message.content.value).Some?))
    ensures reply.Err? ==> r == Err(Transport(reply.error))
  {
    match reply
    case Err(e) => Err(Transport(e))
    case Ok(response) =>
      match FirstRefusal(response)
      case Some(refusal) => Ok(RefusalObject(refusal))
      case None =>
        match FirstContent(response)
        case Some(content) =>
          (match parse(content)
           case Some(structured) => Ok(structured)
           case None => Err(InvalidContent))
        case None => Err(UnexpectedShape(UnexpectedFormat))
  }

  /** `get_ai_response(command, error)` with the environment, the HTTP exchange
      and the content parser as parameters. */
  function GetAiResponse(command: string, error: string, env: Option<OsValue>,
                         transport: Request -> Result<AiResponse, string>,
                         parse: string -> Option<Value>): Result<Value, Failure>
  {
    Classify(transport(BuildRequest(command, error, env)), parse)
  }

  /** A refusal in the first choice gives the refusal object, even when content
      is present too, and the content parser plays no part. */
  lemma RefusalWins(response: AiResponse, parse1: string -> Option<Value>,
                    parse2: string -> Option<Value>)
    requires |response.choices| > 0 && response.choices[0].message.refusal.Some?
    ensures Classify(Ok(response), parse1) == Classify(Ok(response), parse2)
              == Ok(RefusalObject(response.choices[0].message.refusal.value))
  {
  }

  /** Without a refusal, content in the first choice is parsed: a value when it
      parses, `InvalidContent` when it does not. The parsed value is returned as
      it is, whether or not it satisfies the response schema. */
  lemma ContentIsParsed(response: AiResponse, parse: string -> Option<Value>)
    requires |response.choices| > 0
    requires response.choices[0].message.refusal.None?
    requires response.choices[0].message.content.Some?
    ensures var parsed := parse(response.choices[0].message.content.value);
            Classify(Ok(response), parse)
              == if parsed.Some? then Ok(parsed.value) else Err(InvalidContent)
  {
  }

  /** No choice at all, or a first choice with neither refusal nor content,
      gives the unexpected-format error. */
  lemma UnexpectedWhenEmpty(response: AiResponse, parse: string -> Option<Value>)
    requires |response.choices| == 0
             || (response.choices[0].message.refusal.None?
                 && response.choices[0].message.content.None?)
    ensures Classify(Ok(response), parse) == Err(UnexpectedShape("Unexpected API response format"))
  {
  }

  /** In a decoded reply, choices after the first never affect the outcome.
      (A later choice that does not decode makes the whole envelope fail; that
      failure arrives as a transport error.) */
  lemma OnlyFirstChoiceCounts(first: Choice, rest1: seq<Choice>, rest2: seq<Choice>,
                              parse: string -> Option<Value>)
    ensures Classify(Ok(AiResponse([first] + rest1)), parse)
              == Classify(Ok(AiResponse([first] + rest2)), parse)
  {
  }

  /** The classifier does not check the reply against the schema: content that
      parses to an empty object is returned as a value. */
  lemma NoSchemaCheck(content: string, parse: string -> Option<Value>)
    requires parse(content) == Some(Object(map[]))
    ensures Classify(Ok(AiResponse([Choice(MessageResponse(Some(content), None))])), parse)
              == Ok(Object(map[]))
    ensures !Schema.Conforms(Schema.ResponseSchema(), Object(map[]))
  {
    Schema.ConformsExactly(Object(map[]));
  }
}
