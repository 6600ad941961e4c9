/**
  One model call: choose the model id and the decoding parameters, build the
  request, send it to the inference backend and take the text of the first
  content block of the reply. The request body is kept as a record rather
  than serialised JSON.
 */
module Invocation {
  import opened Wrappers

  const HAIKU_MODEL_ID := "anthropic.claude-3-haiku-20240307-v1:0"
  const SONNET_MODEL_ID := "anthropic.claude-3-sonnet-20240229-v1:0"

  const ANTHROPIC_VERSION := "bedrock-2023-05-31"
  const MAX_TOKENS: nat := 20000
  const TOP_P: real := 0.5
  const TOP_K: nat := 50

  /** `model_size` to model id: "haiku" picks the small model, anything else the large one. */
  function ModelId(modelSize: string): (id: string)
    ensures modelSize == "haiku" ==> id == HAIKU_MODEL_ID
    ensures modelSize != "haiku" ==> id == SONNET_MODEL_ID
  {
    if modelSize == "haiku" then HAIKU_MODEL_ID
    else if modelSize == "sonnet" then SONNET_MODEL_ID
    else SONNET_MODEL_ID
  }

  /** The small model is chosen exactly when `model_size` is "haiku"; the large one otherwise. */
  lemma ModelIdChoice(modelSize: string)
    ensures ModelId(modelSize) == HAIKU_MODEL_ID <==> modelSize == "haiku"
    ensures ModelId(modelSize) == SONNET_MODEL_ID <==> modelSize != "haiku"
  {
    assert |HAIKU_MODEL_ID| != |SONNET_MODEL_ID|;
  }

  /** Sampling parameters of one call; the real-valued ones are only ever compared. */
  datatype Decoding = Decoding(
    anthropicVersion: string,
    maxTokens: nat,
    stopSequences: seq<string>,
    topP: real,
    topK: nat,
    temperature: real)

  /**
    `task_type` to decoding parameters: the explanation task is sampled hot
    and stops at the closing explanation tag; "translation" and every other
    value are sampled cold and stop at the closing translation tag.
   */
  function DecodingFor(taskType: string): (d: Decoding)
    ensures d.anthropicVersion == ANTHROPIC_VERSION && d.maxTokens == MAX_TOKENS
    ensures d.topP == TOP_P && d.topK == TOP_K
    ensures taskType == "explanation" ==> d.stopSequences == ["</explanation>"] && d.temperature == 1.0
    ensures taskType != "explanation" ==> d.stopSequences == ["</translation>"] && d.temperature == 0.1
  {
    if taskType == "translation" then
      Decoding(ANTHROPIC_VERSION, MAX_TOKENS, ["</translation>"], TOP_P, TOP_K, 0.1)
    else if taskType == "explanation" then
      Decoding(ANTHROPIC_VERSION, MAX_TOKENS, ["</explanation>"], TOP_P, TOP_K, 1.0)
    else
      Decoding(ANTHROPIC_VERSION, MAX_TOKENS, ["</translation>"], TOP_P, TOP_K, 0.1)
  }

  datatype Role = User | Assistant

  /** A content block; replies may carry blocks other than text. */
  datatype ContentBlock = Text(text: string) | Other(kind: string)

  datatype Message = Message(role: Role, content: seq<ContentBlock>)

  /** The request: model id, then the body's system prompt, conversation and decoding parameters. */
  datatype Request = Request(modelId: string, system: string, messages: seq<Message>, decoding: Decoding)

  /** `claude3_params`: the model id for the size, and a body with the given turns and the task's decoding. */
  function BuildRequest(system: string, messages: seq<Message>, modelSize: string, taskType: string): (req: Request)
    ensures req.system == system && req.messages == messages
    ensures req.modelId == if modelSize == "haiku" then HAIKU_MODEL_ID else SONNET_MODEL_ID
    ensures req.decoding.anthropicVersion == ANTHROPIC_VERSION && req.decoding.maxTokens == MAX_TOKENS
    ensures req.decoding.topP == TOP_P && req.decoding.topK == TOP_K
    ensures req.decoding.stopSequences == if taskType == "explanation" then ["</explanation>"] else ["</translation>"]
    ensures req.decoding.temperature == if taskType == "explanation" then 1.0 else 0.1
  {
    Request(ModelId(modelSize), system, messages, DecodingFor(taskType))
  }

  /** Failures a call can raise; none is caught. */
  datatype Error = BackendUnavailable | MalformedResponse

  /** What comes back from the backend: nothing, an unreadable body, or the parsed content list. */
  datatype Reply = Unreachable | Unparseable | Parsed(content: seq<ContentBlock>)

  /** `body["content"][0]["text"]`: the first block's text, or the error reading it raises. */
  function ResponseText(reply: Reply): (r: Result<string, Error>)
    ensures r.Success? <==> reply.Parsed? && |reply.content| > 0 && reply.content[0].Text?
    ensures r.Success? ==> r.value == reply.content[0].text
    ensures r.Failure? ==> (r.error == BackendUnavailable <==> reply.Unreachable?)
  {
    match reply
    case Unreachable => Failure(BackendUnavailable)
    case Unparseable => Failure(MalformedResponse)
    case Parsed(content) =>
      if |content| == 0 then Failure(MalformedResponse)
      else match content[0]
        case Text(t) => Success(t)
        case Other(_) => Failure(MalformedResponse)
  }

  /**
    The inference backend shared by every call. What it answers is opaque:
    `respond` may depend on the request and on every request received
    before it. `calls` is the transcript of requests received, in order.
   */
  class Backend {
    const respond: (seq<Request>, Request) -> Reply
    var calls: seq<Request>

    constructor (respond: (seq<Request>, Request) -> Reply)
      ensures this.respond == respond && calls == []
    {
      this.respond := respond;
      calls := [];
    }

    /** `invoke_model`: one blocking round trip. */
    method InvokeModel(req: Request) returns (reply: Reply)
      modifies this
      ensures calls == old(calls) + [req]
      ensures reply == respond(old(calls), req)
    {
      reply := respond(calls, req);
      calls := calls + [req];
    }
  }

  /** `invoke_claude_msg`: build the request for this model size and task, send it, read the text. */
  method InvokeClaudeMsg(backend: Backend, system: string, messages: seq<Message>, modelSize: string, taskType: string)
    returns (r: Result<string, Error>)
    modifies backend
    ensures backend.calls == old(backend.calls) + [BuildRequest(system, messages, modelSize, taskType)]
    ensures r == ResponseText(backend.respond(old(backend.calls), BuildRequest(system, messages, modelSize, taskType)))
  {
    var request := BuildRequest(system, messages, modelSize, taskType);
    var reply := backend.InvokeModel(request);
    r := ResponseText(reply);
  }
}
