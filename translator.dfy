/** The pure bidirectional mapping between the Anthropic and the OpenAI formats. */
module Translator {
  import opened Values
  import opened Formats

  const DefaultMaxTokens: int := 4096
  const DefaultTemperature: real := 1.0
  const NoResponseText: string := "Error: No response from provider"

  // ---------------------------------------------------------------------------
  // Forward: Anthropic request to OpenAI request
  // ---------------------------------------------------------------------------

  /** The synthetic leading entry: a system turn exactly when `system` is truthy. */
  function SystemPrelude(system: Option<string>): seq<Message> {
    if Truthy(system, "") then [Message("system", system.value)] else []
  }

  /** What the forward translation produces, stated declaratively. */
  function ToOpenAI(body: AnthropicRequest): (r: OpenAIRequest)
    ensures r.model == body.model
    ensures var msgs := body.messages.GetOr([]);
      && (Truthy(body.system, "") <==> |r.messages| == |msgs| + 1)
      && (!Truthy(body.system, "") <==> |r.messages| == |msgs|)
      && (Truthy(body.system, "") ==> r.messages[0] == Message("system", body.system.value))
      && (forall i :: 0 <= i < |msgs| ==> r.messages[|r.messages| - |msgs| + i] == msgs[i])
    ensures Truthy(body.maxTokens, 0) ==> r.maxTokens == body.maxTokens.value
    ensures !Truthy(body.maxTokens, 0) ==> r.maxTokens == 4096
    ensures Truthy(body.temperature, 0.0) ==> r.temperature == body.temperature.value
    ensures !Truthy(body.temperature, 0.0) ==> r.temperature == 1.0
    ensures r.stream <==> body.stream == Some(true)
    ensures r.maxTokens != 0 && r.temperature != 0.0
  {
    OpenAIRequest(
      body.model,
      SystemPrelude(body.system) + body.messages.GetOr([]),
      OrElse(body.maxTokens, 0, DefaultMaxTokens),
      OrElse(body.temperature, 0.0, DefaultTemperature),
      OrElse(body.stream, false, false))
  }

  /** The forward translation as the relay runs it: the OpenAI message list is
      built by appending the system turn, then each caller turn in order. */
  method AnthropicToOpenAI(body: AnthropicRequest) returns (r: OpenAIRequest)
    ensures r == ToOpenAI(body)
  {
    var messages := body.messages.GetOr([]);
    var openAIMessages: seq<Message> := [];
    if Truthy(body.system, "") {
      openAIMessages := openAIMessages + [Message("system", body.system.value)];
    }
    var i := 0;
    while i < |messages|
      invariant 0 <= i <= |messages|
      invariant openAIMessages == SystemPrelude(body.system) + messages[..i]
    {
      var msg := messages[i];
      openAIMessages := openAIMessages + [Message(msg.role, msg.content)];
      i := i + 1;
    }
    assert messages[..i] == messages;
    r := OpenAIRequest(
      body.model,
      openAIMessages,
      OrElse(body.maxTokens, 0, DefaultMaxTokens),
      OrElse(body.temperature, 0.0, DefaultTemperature),
      OrElse(body.stream, false, false));
  }

  /** Removing the synthetic entry gives back the caller's turns, unchanged and in order. */
  lemma ForwardKeepsCallerTurns(body: AnthropicRequest)
    ensures var r := ToOpenAI(body);
      r.messages[|SystemPrelude(body.system)|..] == body.messages.GetOr([])
  {
  }

  // ---------------------------------------------------------------------------
  // Reverse: OpenAI response to Anthropic response
  // ---------------------------------------------------------------------------

  /** `choices?.[0]`: None when `choices` is absent, empty, or starts with null. */
  function FirstChoice(resp: OpenAIResponse): Option<Choice> {
    if resp.choices.Some? && |resp.choices.value| > 0 then resp.choices.value[0] else None
  }

  /** The stop-reason lookup: "stop" becomes "end_turn", anything else passes through. */
  function MapStopReason(finishReason: Option<string>): Option<string> {
    if finishReason == Some("stop") then Some("end_turn") else finishReason
  }

  /** `choice.message?.content || ''`. */
  function ChoiceText(choice: Choice): string {
    if choice.message.Some? then OrElse(choice.message.value.content, "", "") else ""
  }

  /** `usage?.<field> || 0` for one token count. */
  function TokenCount(usage: Option<OpenAIUsage>, prompt: bool): int {
    if usage.None? then 0
    else if prompt then OrElse(usage.value.promptTokens, 0, 0)
    else OrElse(usage.value.completionTokens, 0, 0)
  }

  /** The reverse translation. It is total: a response without a first choice
      yields the degraded "no response" message instead of failing. */
  function ToAnthropic(resp: OpenAIResponse, originalModel: Option<string>): (r: AnthropicResponse)
    ensures r.model == originalModel
    ensures r.kind == "message" && r.role == "assistant"
    ensures |r.content| == 1
    ensures r.usage.Some? <==> FirstChoice(resp).Some?
    ensures FirstChoice(resp).None? ==>
      && r.stopReason == Some("error")
      && r.content[0].text == "Error: No response from provider"
      && (Truthy(resp.id, "") ==> r.id == resp.id)
      && (!Truthy(resp.id, "") ==> r.id == Some("unknown"))
    ensures FirstChoice(resp).Some? ==>
      var choice := FirstChoice(resp).value;
      && r.id == resp.id
      && r.stopReason == MapStopReason(choice.finishReason)
      && (choice.message.Some? && choice.message.value.content.Some? ==>
            r.content[0].text == choice.message.value.content.value)
      && (choice.message.None? || choice.message.value.content.None? ==> r.content[0].text == "")
  {
    match FirstChoice(resp)
    case None =>
      AnthropicResponse(
        Some(OrElse(resp.id, "", "unknown")), "message", "assistant",
        [Text(NoResponseText)], originalModel, Some("error"), None)
    case Some(choice) =>
      AnthropicResponse(
        resp.id, "message", "assistant",
        [Text(ChoiceText(choice))], originalModel,
        MapStopReason(choice.finishReason),
        Some(AnthropicUsage(TokenCount(resp.usage, true), TokenCount(resp.usage, false))))
  }

  /** The lookup renames exactly one upstream value, and "end_turn" is reached
      only from "stop" or from itself. */
  lemma StopReasonRenamesOnlyStop(finishReason: Option<string>)
    ensures MapStopReason(finishReason) != finishReason <==> finishReason == Some("stop")
    ensures MapStopReason(finishReason) == Some("end_turn") <==>
            finishReason == Some("stop") || finishReason == Some("end_turn")
  {
  }

  /** On a response with a first choice, each Anthropic token count is the matching
      OpenAI count when that is present (0 included) and 0 when it is absent,
      independently of the other count. */
  lemma UsageCopiesCounts(resp: OpenAIResponse, originalModel: Option<string>)
    requires FirstChoice(resp).Some?
    ensures var u := ToAnthropic(resp, originalModel).usage.value;
      && (resp.usage.Some? && resp.usage.value.promptTokens.Some? ==>
            u.inputTokens == resp.usage.value.promptTokens.value)
      && (resp.usage.None? || resp.usage.value.promptTokens.None? ==> u.inputTokens == 0)
      && (resp.usage.Some? && resp.usage.value.completionTokens.Some? ==>
            u.outputTokens == resp.usage.value.completionTokens.value)
      && (resp.usage.None? || resp.usage.value.completionTokens.None? ==> u.outputTokens == 0)
  {
  }
}
