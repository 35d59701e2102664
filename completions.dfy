/** The chat-completion answer that both engine mocks give
    (ai/kvcache/mock/server/engine-a/main.go and engine-b/main.go share the
    handler): a canned single assistant message naming the engine, fixed
    token usage, and the requested model or a default. */
module Completions {
  import opened Http

  const DefaultModel := "mock-model"

  /** The one field of a chat request the handlers read, as the JSON decoder
      leaves it. The handlers ignore the decoder's error, so this is the
      decoded value even when decoding stopped early or failed: `model` is
      then whatever was stored before the failure, and "" if nothing was. */
  datatype ChatRequest = ChatRequest(model: string)

  datatype Message = Message(role: string, content: string)
  datatype Choice = Choice(index: int, message: Message)
  datatype Response = Response(
    id: string,
    objectKind: string,
    model: string,
    servedBy: string,
    choices: seq<Choice>,
    usage: map<string, int>)

  /** The model a completion reports: the requested one when it is named,
      otherwise "mock-model". */
  function ModelOf(req: ChatRequest): (model: string)
    ensures model != ""
    ensures req.model != "" ==> model == req.model
    ensures req.model == "" ==> model == DefaultModel
  {
    if req.model == "" then DefaultModel else req.model
  }

  /** The canned completion an engine answers with. */
  function Completion(id: string, model: string, engineId: string): (r: Response)
    ensures r.id == id && r.model == model && r.servedBy == engineId
    ensures r.objectKind == "chat.completion"
    ensures |r.choices| == 1 && r.choices[0].index == 0 && r.choices[0].message.role == "assistant"
    ensures r.choices[0].message.content == "mock response from " + engineId
    ensures r.usage == map["prompt_tokens" := 8, "completion_tokens" := 8, "total_tokens" := 16]
    ensures r.usage["total_tokens"] == r.usage["prompt_tokens"] + r.usage["completion_tokens"]
  {
    Response(
      id,
      "chat.completion",
      model,
      engineId,
      [Choice(0, Message("assistant", "mock response from " + engineId))],
      map["prompt_tokens" := 8, "completion_tokens" := 8, "total_tokens" := 16])
  }
}
