/** `get_ai_roast`: one call to the model, whose answer is decoded or replaced by the fallback. */
module AiClient {
  import opened Wrappers
  import opened Json
  import opened Roast
  import opened PromptTemplate
  import opened Collaborators

  /** `not api_key`: the key is unset or empty. */
  predicate Unconfigured(apiKey: Option<string>) {
    apiKey.None? || apiKey.value == ""
  }

  /** The value `get_ai_roast` returns and the model calls it made. */
  datatype AiReply = AiReply(value: Json, calls: seq<Call>)

  /** The model answered `prompt` with text that `json.loads` decoded to `v`. */
  predicate ParsedFrom(ai: AiBackend, prompt: string, v: Json) {
    ai.generateContent(prompt).Text? && ai.jsonLoads(ai.generateContent(prompt).text) == Parsed(v)
  }

  /**
   * Without a key: None and no model call. With one: exactly one call, with the
   * prompt for the user's name and profile, and the decoded answer or the fallback.
   */
  function GetAiRoast(apiKey: Option<string>, username: Option<string>, profile: string, ai: AiBackend): (r: AiReply)
    ensures Unconfigured(apiKey) <==> r.calls == []
    ensures Unconfigured(apiKey) ==> r.value == JNull
    ensures !Unconfigured(apiKey) ==> r.calls == [GenerateContent(Prompt(Str(username), profile))]
    ensures !Unconfigured(apiKey) ==>
      r.value == FallbackRoast() || ParsedFrom(ai, Prompt(Str(username), profile), r.value)
  {
    if Unconfigured(apiKey) then AiReply(JNull, [])
    else
      var prompt := Prompt(Str(username), profile);
      var value :=
        match ai.generateContent(prompt)
        case Raised(_) => FallbackRoast()
        case Text(t) =>
          match ai.jsonLoads(t)
          case Parsed(v) => v
          case DecodeError(_) => FallbackRoast();
      AiReply(value, [GenerateContent(prompt)])
  }

  /** A decoded answer is returned as it is: no clamping of the score, no check of the keys. */
  lemma AiAnswerPassesThrough(apiKey: Option<string>, username: Option<string>, profile: string, ai: AiBackend, v: Json)
    requires !Unconfigured(apiKey)
    requires ParsedFrom(ai, Prompt(Str(username), profile), v)
    ensures GetAiRoast(apiKey, username, profile, ai).value == v
  {
  }

  /** A raised error or an undecodable answer both give the fallback record. */
  lemma AiFailureGivesFallback(apiKey: Option<string>, username: Option<string>, profile: string, ai: AiBackend)
    requires !Unconfigured(apiKey)
    requires ai.generateContent(Prompt(Str(username), profile)).Raised? ||
             ai.jsonLoads(ai.generateContent(Prompt(Str(username), profile)).text).DecodeError?
    ensures GetAiRoast(apiKey, username, profile, ai).value == FallbackRoast()
  {
  }

  /** Without a key the backend is never consulted, so what it would answer makes no difference. */
  lemma UnconfiguredIgnoresBackend(apiKey: Option<string>, username: Option<string>, profile: string, ai1: AiBackend, ai2: AiBackend)
    requires Unconfigured(apiKey)
    ensures GetAiRoast(apiKey, username, profile, ai1) == GetAiRoast(apiKey, username, profile, ai2)
  {
  }
}
