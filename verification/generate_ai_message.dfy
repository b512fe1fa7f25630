/**
  `generateAIMessage` from src/generateAIMessage.ts. The chat-completion
  response is an input; the function returns the notification text and the
  request it would send, if any.
 */
module AiMessage {
  import opened Wrappers
  import opened JsText
  import opened Utils

  /** Returned when the completion carries no choices. */
  const NoResponseFallback: string :=
    "We're experiencing a delay in your delivery. Thank you for your patience!"

  /** Returned when configuration is missing or anything throws. */
  const ErrorFallback: string :=
    "We're currently facing some traffic delays. We appreciate your understanding!"

  const PromptPrefix: string :=
    "You are a customer service assistant. Generate a professional, friendly message to notify a customer about a traffic delay of "

  const PromptSuffix: string :=
    " minutes. Keep it polite, empathetic and informative, start with \"Dear Valuable customer\" and end with \"Thank you for your understanding!, Best Regards\". No need to add any information after this."

  const CompletionsPath: string := "/v1/chat/completions"
  const ModelName: string := "gpt-4o-mini"
  const Temperature: real := 0.7
  const MaxTokens: nat := 100

  /** `OPENAI_API_KEY` and `OPENAI_API_URL`, either possibly unset. */
  datatype AiConfig = AiConfig(apiKey: Option<string>, apiUrl: Option<string>)

  /** One completion choice; `content` is `None` when `message.content` is not a string, so `trim` throws. */
  datatype Choice = Choice(content: Option<string>)

  /** What the POST produced: a thrown error, or a body whose `choices` may be absent. */
  datatype ChatResponse =
    | ChatFailed
    | ChatBody(choices: Option<seq<Choice>>)

  /** The chat-completion request: endpoint, bearer credential, model, the single user prompt and sampling settings. */
  datatype ChatRequest = ChatRequest(
    url: string,
    authorization: string,
    model: string,
    prompt: string,
    temperature: real,
    maxTokens: nat)

  /** The message returned and the request made on the way, if one was made. */
  datatype Composition = Composition(message: string, request: Option<ChatRequest>)

  /** The instruction sent to the model: the delay rendered by `formatMinutes`, between fixed text. */
  function Prompt(delayMinutes: real): (p: string)
    requires delayMinutes >= 0.0
    ensures |p| == |PromptPrefix| + |FormatMinutesOf(delayMinutes)| + |PromptSuffix|
    ensures p[..|PromptPrefix|] == PromptPrefix
    ensures p[|p| - |PromptSuffix|..] == PromptSuffix
    ensures p[|PromptPrefix|..|p| - |PromptSuffix|] == FormatMinutesOf(delayMinutes)
  {
    var shown := FormatMinutesOf(delayMinutes);
    ConcatParts(PromptPrefix, shown, PromptSuffix);
    PromptPrefix + shown + PromptSuffix
  }

  /** The delay can be read back out of the prompt, to the nearest second. */
  lemma PromptCarriesDelay(delayMinutes: real)
    requires delayMinutes >= 0.0
    ensures var p := Prompt(delayMinutes);
      var shown := ParseClock(p[|PromptPrefix|..|p| - |PromptSuffix|]);
      && shown.Some?
      && shown.value as real - 0.5 <= delayMinutes * 60.0 < shown.value as real + 0.5
  {
    ConcatParts(PromptPrefix, FormatMinutesOf(delayMinutes), PromptSuffix);
  }

  /** The chat-completion request `generateAIMessage` posts, for a key and URL that are present. */
  function RequestFor(delayMinutes: real, apiKey: string, apiUrl: string): (q: ChatRequest)
    requires delayMinutes >= 0.0
    ensures q.url == apiUrl + CompletionsPath
    ensures q.authorization == "Bearer " + apiKey
    ensures q.model == ModelName && q.temperature == Temperature && q.maxTokens == MaxTokens
    ensures q.prompt == Prompt(delayMinutes)
  {
    ChatRequest(apiUrl + CompletionsPath, "Bearer " + apiKey, ModelName, Prompt(delayMinutes), Temperature, MaxTokens)
  }

  /** The text `generateAIMessage` takes from a completion body: the first choice trimmed, or a fallback. */
  function MessageFromChoices(choices: Option<seq<Choice>>): (message: string)
    ensures choices.None? || |choices.value| == 0 ==> message == NoResponseFallback
    ensures choices.Some? && |choices.value| > 0 && choices.value[0].content.None? ==> message == ErrorFallback
    ensures choices.Some? && |choices.value| > 0 && choices.value[0].content.Some? ==>
      message == Trim(choices.value[0].content.value)
  {
    if choices.None? || |choices.value| == 0 then NoResponseFallback
    else
      match choices.value[0].content
      case None => ErrorFallback
      case Some(text) => Trim(text)
  }

  /** `generateAIMessage(delayMinutes)`. */
  function GenerateAIMessage(delayMinutes: real, config: AiConfig, response: ChatResponse): (r: Composition)
    requires delayMinutes >= 0.0
    ensures r.request.Some? <==> Truthy(config.apiKey) && Truthy(config.apiUrl)
    ensures r.request.Some? ==> r.request.value == RequestFor(delayMinutes, config.apiKey.value, config.apiUrl.value)
    ensures r.request.None? ==> r.message == ErrorFallback
    ensures r.request.Some? && response.ChatFailed? ==> r.message == ErrorFallback
    ensures r.request.Some? && response.ChatBody? ==> r.message == MessageFromChoices(response.choices)
  {
    if !Truthy(config.apiKey) || !Truthy(config.apiUrl) then
      Composition(ErrorFallback, None)
    else
      var request := RequestFor(delayMinutes, config.apiKey.value, config.apiUrl.value);
      match response
      case ChatFailed => Composition(ErrorFallback, Some(request))
      case ChatBody(choices) => Composition(MessageFromChoices(choices), Some(request))
  }

  /**
    Every outcome yields a string: one of the two fallbacks, or the first
    choice trimmed, which never has surrounding whitespace.
   */
  lemma MessageOutcomes(delayMinutes: real, config: AiConfig, response: ChatResponse)
    requires delayMinutes >= 0.0
    ensures var m := GenerateAIMessage(delayMinutes, config, response).message;
      || m == ErrorFallback
      || m == NoResponseFallback
      || (&& response.ChatBody? && response.choices.Some? && |response.choices.value| > 0
          && response.choices.value[0].content.Some?
          && m == Trim(response.choices.value[0].content.value)
          && (|m| == 0 || (!IsJsWhitespace(m[0]) && !IsJsWhitespace(m[|m| - 1]))))
  {
  }

  /** The two fallbacks are distinct, so the failure modes can be told apart. */
  lemma FallbacksDistinct()
    ensures ErrorFallback != NoResponseFallback
  {
    assert |ErrorFallback| == 77 && |NoResponseFallback| == 73;
  }
}
