/**
 The messages of a tool loop: the system prompt, the request, and rounds of calls and results
 (backend-python/app/services/tool_chat_service.py, backend-python/app/providers/base.py).
 */
module ToolHistory {
  import opened Wrappers
  import opened JsonValues

  datatype ToolCall = ToolCall(id: string, name: string, arguments: Json, signature: Option<string>)

  /** One answer of a provider that was offered tools. */
  datatype Completion = Completion(content: Option<string>, calls: seq<ToolCall>, finish: Option<string>)

  datatype SchemaRole = SystemRole | UserRole | AssistantRole

  datatype RawArguments = ArgText(text: string) | ArgObject(value: Json) | ArgOther

  /** An entry of a `tool_calls` list; `NotAFunction` is any entry the providers skip. */
  datatype RawCall =
    | FunctionCall(id: string, name: string, arguments: RawArguments, signature: Option<string>)
    | NotAFunction

  /**
   A loop message: a validated chat message, or a dictionary with the role of its constructor's name.
   The `tool_calls` of an assistant dictionary may be empty; an unknown dictionary has any other role.
   */
  datatype Message =
    | Schema(role: SchemaRole, text: string)
    | AssistantDict(content: Option<string>, calls: seq<RawCall>)
    | ToolDict(callId: string, result: string)
    | UserDict(content: Option<string>)
    | SystemDict(content: Option<string>)
    | UnknownDict

  function RawCalls(calls: seq<ToolCall>, codec: Codec): (r: seq<RawCall>)
    ensures |r| == |calls|
    ensures forall i :: 0 <= i < |calls| ==>
              var c := calls[i]; r[i] == FunctionCall(c.id, c.name, ArgText(codec.dumps(c.arguments)), c.signature)
  {
    if calls == [] then []
    else
      var c := calls[0];
      [FunctionCall(c.id, c.name, ArgText(codec.dumps(c.arguments)), c.signature)] + RawCalls(calls[1..], codec)
  }

  /** The message that puts an answer with calls into the history. */
  function AssistantMessage(c: Completion, codec: Codec): Message {
    AssistantDict(c.content, RawCalls(c.calls, codec))
  }

  function BuildLoopMessages(prompt: string, request: seq<Message>): seq<Message> {
    [Schema(SystemRole, prompt)] + request
  }

  /** `tail` starts with a round: a message with calls, then one result per call, same ids, same order. */
  ghost predicate StartsWithRound(tail: seq<Message>) {
    && |tail| >= 1 && tail[0].AssistantDict? && tail[0].calls != [] && |tail[0].calls| < |tail|
    && forall i :: 0 <= i < |tail[0].calls| ==>
         && tail[0].calls[i].FunctionCall? && tail[1 + i].ToolDict?
         && tail[1 + i].callId == tail[0].calls[i].id
  }

  /** `tail` is `n` rounds and nothing else. */
  ghost predicate IsRounds(tail: seq<Message>, n: nat) {
    if n == 0 then tail == []
    else StartsWithRound(tail) && IsRounds(tail[1 + |tail[0].calls|..], n - 1)
  }

  lemma StartExtends(tail: seq<Message>, more: seq<Message>)
    requires StartsWithRound(tail)
    ensures StartsWithRound(tail + more)
    ensures (tail + more)[1 + |tail[0].calls|..] == tail[1 + |tail[0].calls|..] + more
  {
    assert (tail + more)[0] == tail[0];
  }
}
