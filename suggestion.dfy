/** `get_ai_suggestion`: the command, if any, the provider's answer offers. */
module Suggestion {
  import opened Wrappers
  import opened Json
  import opened Schema
  import Ai

  /** A command exactly when the response is a value whose
      "suggested_exact_command" member is a string, and then that string. */
  function GetAiSuggestion(response: Result<Value, Ai.Failure>): (r: Option<string>)
    ensures r.Some? <==>
              && response.Ok?
              && Get(response.value, SuggestedCommandKey).Some?
              && Get(response.value, SuggestedCommandKey).value.Str?
    ensures r.Some? ==> Get(response.value, SuggestedCommandKey) == Some(Str(r.value))
  {
    match response
    case Ok(suggestion) =>
      (match Get(suggestion, SuggestedCommandKey)
       case Some(v) => AsStr(v)
       case None => None)
    case Err(_) => None
  }

  /** A refusal is not a suggestion. */
  lemma RefusalGivesNothing(refusal: string)
    ensures GetAiSuggestion(Ok(Ai.RefusalObject(refusal))) == None
  {
    assert SuggestedCommandKey !in Ai.RefusalObject(refusal).fields;
  }

  /** Every answer that satisfies the response schema gives its command. */
  lemma ConformingAnswerGivesCommand(v: Value)
    requires Conforms(ResponseSchema(), v)
    ensures v.Object? && SuggestedCommandKey in v.fields && v.fields[SuggestedCommandKey].Str?
    ensures GetAiSuggestion(Ok(v)) == Some(v.fields[SuggestedCommandKey].s)
  {
    ConformsExactly(v);
  }

  /** Any failure of the exchange gives no command. */
  lemma TransportFailureGivesNothing(command: string, error: string, env: Option<Ai.OsValue>,
                                     transport: Ai.Request -> Result<Ai.AiResponse, string>,
                                     parse: string -> Option<Value>)
    requires transport(Ai.BuildRequest(command, error, env)).Err?
    ensures GetAiSuggestion(Ai.GetAiResponse(command, error, env, transport, parse)) == None
  {
  }

  /** The failed command "gerp foo" with a provider whose content parses to the
      corrected command "grep foo" yields "grep foo". */
  lemma GerpScenario(env: Option<Ai.OsValue>, content: string,
                     transport: Ai.Request -> Result<Ai.AiResponse, string>,
                     parse: string -> Option<Value>)
    requires transport(Ai.BuildRequest("gerp foo", "command not found", env))
               == Ok(Ai.AiResponse([Ai.Choice(Ai.MessageResponse(Some(content), None))]))
    requires parse(content)
               == Some(Object(map[SuggestedCommandKey := Str("grep foo"),
                                  ExplanationKey := Str("typo correction")]))
    ensures GetAiSuggestion(Ai.GetAiResponse("gerp foo", "command not found", env, transport, parse))
              == Some("grep foo")
  {
  }
}
