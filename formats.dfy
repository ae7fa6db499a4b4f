/** The two chat-completion wire formats: the Anthropic style the caller speaks
    and the OpenAI style the upstream speaks. */
module Formats {
  import opened Values

  /** One chat turn; the relay reads and writes only these two keys. */
  datatype Message = Message(role: string, content: string)

  /** Anthropic request body, as parsed from the caller. */
  datatype AnthropicRequest = AnthropicRequest(
    model: Option<string>,
    system: Option<string>,
    messages: Option<seq<Message>>,
    maxTokens: Option<int>,
    temperature: Option<real>,
    stream: Option<bool>)

  /** OpenAI request body, as sent upstream. `model` stays absent when the caller
      gave none (serialising an undefined field drops it). */
  datatype OpenAIRequest = OpenAIRequest(
    model: Option<string>,
    messages: seq<Message>,
    maxTokens: int,
    temperature: real,
    stream: bool)

  /** `choices[k].message` of an OpenAI response. */
  datatype ChoiceMessage = ChoiceMessage(content: Option<string>)

  /** One element of `choices`. */
  datatype Choice = Choice(message: Option<ChoiceMessage>, finishReason: Option<string>)

  /** `usage` of an OpenAI response. */
  datatype OpenAIUsage = OpenAIUsage(promptTokens: Option<int>, completionTokens: Option<int>)

  /** OpenAI response body; an element of `choices` is None when it is null. */
  datatype OpenAIResponse = OpenAIResponse(
    id: Option<string>,
    choices: Option<seq<Option<Choice>>>,
    usage: Option<OpenAIUsage>)

  /** An Anthropic content block; the relay only produces text blocks. */
  datatype ContentBlock = Text(text: string)

  /** `usage` of an Anthropic response. */
  datatype AnthropicUsage = AnthropicUsage(inputTokens: int, outputTokens: int)

  /** Anthropic response body, as returned to the caller. `kind` is the `type` key. */
  datatype AnthropicResponse = AnthropicResponse(
    id: Option<string>,
    kind: string,
    role: string,
    content: seq<ContentBlock>,
    model: Option<string>,
    stopReason: Option<string>,
    usage: Option<AnthropicUsage>)
}
