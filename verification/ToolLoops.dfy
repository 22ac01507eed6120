/**
 The two capped tool loops: the blocking one (backend-python/app/services/tool_chat_service.py:273-397)
 and the streaming one (backend-python/app/services/unified_chat_service.py:495-657). Provider,
 executor and client are arbitrary; all three see the history, which no two polls share.
 */
module ToolLoops {
  import opened Wrappers
  import opened JsonValues
  import opened ToolHistory

  const LIMIT_MESSAGE :=
    "I reached the tool-use limit for this request. Please try a simpler question or ask again."
  const DENIED_MESSAGE :=
    "Tool use requires a signed-in account. Please sign in to search the web "
    + "or ask a question I can answer directly."
  const CAP_REASON := Some("tool_iteration_cap")
  const DISCONNECTED_RESULT := "{\"success\": false, \"error\": \"Client disconnected.\"}"

  datatype Caller = Anonymous | Guest | SignedIn

  /** What a tool returned. */
  datatype ToolResult = ToolResult(success: bool, data: Json, error: Option<string>, errorCode: Option<string>)

  datatype ToolFrame =
    | ToolStart(name: string, id: string)
    | ToolEnd(name: string, id: string, success: bool)

  /** A provider's answer without tools. */
  datatype Plain = Plain(content: string, finish: Option<string>)

  /** What the provider can be offered: tools, none of them (it then answers plainly, or raises), or not even that. */
  datatype Offer = Tools | NoTools(plain: Option<Plain>) | Unsupported

  /** Provider and executor answer, or raise (`None`). */
  datatype World = World(
    provide: seq<Message> -> Option<Completion>,
    execute: (seq<Message>, ToolCall) -> Option<ToolResult>,
    gone: seq<Message> -> bool,
    caller: Caller,
    codec: Codec,
    offer: Offer)

  /** The outcome of one call: what goes into the history, and how it went. */
  datatype CallOutcome = CallOutcome(content: string, success: bool, denied: bool)

  function OptionalText(s: Option<string>): Json {
    if s.Some? then Str(s.value) else Null
  }

  /** The JSON of a tool result as the model is shown it. */
  function ResultPayload(r: ToolResult): Json {
    Obj([Field("success", Bool(r.success)), Field("data", r.data),
         Field("error", OptionalText(r.error)), Field("error_code", OptionalText(r.errorCode))])
  }

  /** The same for a caller without an account. */
  function Refusal(): Json {
    Obj([Field("success", Bool(false)), Field("error", Str(DENIED_MESSAGE)), Field("error_code", Str("forbidden"))])
  }

  function ExecuteToolCall(w: World, h: seq<Message>, call: ToolCall): Option<CallOutcome> {
    if !w.caller.SignedIn? then Some(CallOutcome(w.codec.dumps(Refusal()), false, true))
    else
      var result := w.execute(h, call);
      if result.None? then None
      else
        var r := result.value;
        Some(CallOutcome(w.codec.dumps(ResultPayload(r)), r.success, r.errorCode == Some("forbidden")))
  }

  function ExecuteStreamToolCall(w: World, h: seq<Message>, call: ToolCall): Option<CallOutcome> {
    if w.gone(h) then Some(CallOutcome(DISCONNECTED_RESULT, false, false))
    else
      var o := ExecuteToolCall(w, h, call);
      if o.None? then None else Some(o.value.(success := o.value.success && !o.value.denied))
  }

  /** The calls of one answer, run in order. */
  datatype Batch = Batch(history: seq<Message>, frames: seq<ToolFrame>, denied: bool)

  function RunCalls(run: (seq<Message>, ToolCall) -> Option<CallOutcome>, h: seq<Message>, calls: seq<ToolCall>)
    : Option<Batch>
    decreases |calls|
  {
    if calls == [] then Some(Batch(h, [], false))
    else
      var c, o := calls[0], run(h, calls[0]);
      if o.None? then None
      else
        var rest := RunCalls(run, h + [ToolDict(c.id, o.value.content)], calls[1..]);
        if rest.None? then None
        else
          var frames := [ToolStart(c.name, c.id), ToolEnd(c.name, c.id, o.value.success)];
          Some(Batch(rest.value.history, frames + rest.value.frames, o.value.denied || rest.value.denied))
  }

  function BlockingCalls(w: World, h: seq<Message>, calls: seq<ToolCall>): Option<Batch> {
    RunCalls((h, c) => ExecuteToolCall(w, h, c), h, calls)
  }

  function StreamingCalls(w: World, h: seq<Message>, calls: seq<ToolCall>): Option<Batch> {
    RunCalls((h, c) => ExecuteStreamToolCall(w, h, c), h, calls)
  }

  datatype ExitKind = Answered | Denied | Capped | Disconnected | Broken

  /** How a loop ended: the history it built, the text it answers with and why, its frames and rounds. */
  datatype Exit = Exit(
    kind: ExitKind, history: seq<Message>, text: string, finish: Option<string>, frames: seq<ToolFrame>, rounds: nat)

  function TextOr(content: Option<string>, default_: string): string {
    if content.Some? && content.value != "" then content.value else default_
  }

  /** What the blocking loop ends in, with `left` iterations to go and `done` rounds behind it. */
  function Blocking(w: World, h: seq<Message>, left: nat, done: nat, last: Option<string>): Exit
    decreases left
  {
    if left == 0 then Exit(Capped, h, TextOr(last, LIMIT_MESSAGE), CAP_REASON, [], done)
    else
      var answer := w.provide(h);
      if answer.None? then Exit(Broken, h, "", None, [], done)
      else
        var c := answer.value;
        if c.calls == [] then Exit(Answered, h, TextOr(c.content, ""), c.finish, [], done)
        else
          var batch := BlockingCalls(w, h + [AssistantMessage(c, w.codec)], c.calls);
          if batch.None? then Exit(Broken, h, "", None, [], done)
          else if batch.value.denied && !w.caller.SignedIn? then
            Exit(Denied, batch.value.history, DENIED_MESSAGE, Some("stop"), [], done + 1)
          else Blocking(w, batch.value.history, left - 1, done + 1, c.content)
  }

  /** How a blocking run ends, by what the provider answers to the history it ends with. */
  lemma {:induction false} BlockingEnds(w: World, h: seq<Message>, left: nat, done: nat, last: Option<string>)
    ensures var exit := Blocking(w, h, left, done, last);
            var answer := w.provide(exit.history);
            match exit.kind
            case Answered =>
              && answer.Some? && answer.value.calls == []
              && exit.text == answer.value.content.GetOr("") && exit.finish == answer.value.finish
            case Denied =>
              !w.caller.SignedIn? && exit.rounds > done && exit.text == DENIED_MESSAGE && exit.finish == Some("stop")
            case Capped => exit.rounds == done + left && exit.finish == Some("tool_iteration_cap")
            case Broken =>
              answer.None? || BlockingCalls(w, exit.history + [AssistantMessage(answer.value, w.codec)],
                                            answer.value.calls).None?
            case Disconnected => false
    decreases left
  {
    if left > 0 && w.provide(h).Some? && w.provide(h).value.calls != [] {
      var c := w.provide(h).value;
      var batch := BlockingCalls(w, h + [AssistantMessage(c, w.codec)], c.calls);
      if batch.Some? {
        BlockingEnds(w, batch.value.history, left - 1, done + 1, c.content);
      }
    }
  }

  /** What the streaming loop ends in. */
  function Streaming(w: World, h: seq<Message>, left: nat, done: nat, last: Option<string>, frames: seq<ToolFrame>)
    : Exit
    decreases left
  {
    if left == 0 then Exit(Capped, h, TextOr(last, LIMIT_MESSAGE), CAP_REASON, frames, done)
    else if w.gone(h) then Exit(Disconnected, h, "", None, frames, done)
    else
      var answer := w.provide(h);
      if answer.None? then Exit(Broken, h, "", None, frames, done)
      else
        var c := answer.value;
        if c.calls == [] then Exit(Answered, h, "", None, frames, done)
        else
          var batch := StreamingCalls(w, h + [AssistantMessage(c, w.codec)], c.calls);
          if batch.None? then Exit(Broken, h, "", None, frames, done)
          else if batch.value.denied then
            Exit(Denied, batch.value.history, DENIED_MESSAGE, Some("stop"), frames + batch.value.frames, done + 1)
          else Streaming(w, batch.value.history, left - 1, done + 1, c.content, frames + batch.value.frames)
  }

  /** How a streaming run ends, by the client and the provider at the history it ends with. */
  lemma {:induction false} StreamingEnds(w: World, h: seq<Message>, left: nat, done: nat, last: Option<string>,
                                         frames: seq<ToolFrame>)
    ensures var exit := Streaming(w, h, left, done, last, frames);
            var answer := w.provide(exit.history);
            match exit.kind
            case Answered => !w.gone(exit.history) && answer.Some? && answer.value.calls == []
            case Denied => exit.rounds > done && exit.text == DENIED_MESSAGE && exit.finish == Some("stop")
            case Capped => exit.rounds == done + left && exit.finish == Some("tool_iteration_cap")
            case Broken =>
              && !w.gone(exit.history)
              && (answer.None? || StreamingCalls(w, exit.history + [AssistantMessage(answer.value, w.codec)],
                                                 answer.value.calls).None?)
            case Disconnected => w.gone(exit.history)
    decreases left
  {
    if left > 0 && !w.gone(h) && w.provide(h).Some? && w.provide(h).value.calls != [] {
      var c := w.provide(h).value;
      var batch := StreamingCalls(w, h + [AssistantMessage(c, w.codec)], c.calls);
      if batch.Some? {
        StreamingEnds(w, batch.value.history, left - 1, done + 1, c.content, frames + batch.value.frames);
      }
    }
  }

  function AtLeastZero(n: int): nat {
    if n < 0 then 0 else n
  }

  /** What is left of a batch, one call at a time. */
  lemma RunFrom(run: (seq<Message>, ToolCall) -> Option<CallOutcome>, h: seq<Message>, calls: seq<ToolCall>, i: nat)
    requires i < |calls|
    ensures var c, o, here := calls[i], run(h, calls[i]), RunCalls(run, h, calls[i..]);
            if o.None? then here.None?
            else
              var rest := RunCalls(run, h + [ToolDict(c.id, o.value.content)], calls[i + 1..]);
              && (here.None? <==> rest.None?)
              && (here.Some? ==>
                    && here.value.history == rest.value.history
                    && here.value.frames ==
                         [ToolStart(c.name, c.id), ToolEnd(c.name, c.id, o.value.success)] + rest.value.frames
                    && here.value.denied == (o.value.denied || rest.value.denied))
  {
    assert calls[i..][1..] == calls[i + 1..];
  }

  lemma FramesOn(sent: seq<ToolFrame>, first: ToolFrame, second: ToolFrame, rest: seq<ToolFrame>)
    ensures sent + ([first, second] + rest) == sent + [first] + [second] + rest
  {
  }

  lemma NothingLeft(run: (seq<Message>, ToolCall) -> Option<CallOutcome>, h: seq<Message>, calls: seq<ToolCall>)
    ensures RunCalls(run, h, calls[|calls|..]) == Some(Batch(h, [], false))
  {
    assert calls[|calls|..] == [];
  }

  /** The calls of one answer, one after the other. */
  method ExecuteToolCalls(w: World, start: seq<Message>, calls: seq<ToolCall>)
    returns (ok: bool, messages: seq<Message>, denied: bool)
    ensures var batch := BlockingCalls(w, start, calls);
            (ok <==> batch.Some?) && (ok ==> messages == batch.value.history && denied == batch.value.denied)
  {
    messages, denied := start, false;
    var i := 0;
    ghost var batch := BlockingCalls(w, start, calls);
    while i < |calls|
      invariant i <= |calls|
      invariant var rest := BlockingCalls(w, messages, calls[i..]);
                && (batch.None? <==> rest.None?)
                && (batch.Some? ==> batch.value.history == rest.value.history
                                    && (batch.value.denied <==> denied || rest.value.denied))
    {
      RunFrom((h, c) => ExecuteToolCall(w, h, c), messages, calls, i);
      var o := ExecuteToolCall(w, messages, calls[i]);
      if o.None? {
        return false, messages, denied;
      }
      denied := denied || o.value.denied;
      messages := messages + [ToolDict(calls[i].id, o.value.content)];
      i := i + 1;
    }
    NothingLeft((h, c) => ExecuteToolCall(w, h, c), messages, calls);
    ok := true;
  }

  /** The blocking run: without tools one plain answer, and nothing for a provider that cannot call them. */
  function BlockingRun(w: World, prompt: string, request: seq<Message>, maxIterations: int): Exit {
    match w.offer
    case NoTools(None) => Exit(Broken, request, "", None, [], 0)
    case NoTools(Some(plain)) => Exit(Answered, request, plain.content, plain.finish, [], 0)
    case Unsupported => Exit(Broken, request, "", None, [], 0)
    case Tools => Blocking(w, BuildLoopMessages(prompt, request), AtLeastZero(maxIterations), 0, None)
  }

  /** The streaming run: without tools it leaves the request to be answered as it is. */
  function StreamingRun(w: World, prompt: string, request: seq<Message>, maxIterations: int): Exit {
    if w.offer.NoTools? then Exit(Answered, request, "", None, [], 0)
    else Streaming(w, BuildLoopMessages(prompt, request), AtLeastZero(maxIterations), 0, None, [])
  }

  method LoopWithTools(w: World, prompt: string, request: seq<Message>, maxIterations: int) returns (exit: Exit)
    ensures exit == Blocking(w, BuildLoopMessages(prompt, request), AtLeastZero(maxIterations), 0, None)
  {
    var messages := BuildLoopMessages(prompt, request);
    var last: Option<string> := None;
    var iteration := 0;
    ghost var left := AtLeastZero(maxIterations);
    ghost var end := Blocking(w, messages, left, 0, None);
    while iteration < maxIterations
      invariant iteration + left == AtLeastZero(maxIterations)
      invariant Blocking(w, messages, left, iteration, last) == end
    {
      var answer := w.provide(messages);
      if answer.None? {
        return Exit(Broken, messages, "", None, [], iteration);
      }
      var completion := answer.value;
      if completion.calls == [] {
        return Exit(Answered, messages, TextOr(completion.content, ""), completion.finish, [], iteration);
      }
      var ok, after, denied :=
        ExecuteToolCalls(w, messages + [AssistantMessage(completion, w.codec)], completion.calls);
      if !ok {
        return Exit(Broken, messages, "", None, [], iteration);
      }
      messages := after;
      iteration, left := iteration + 1, left - 1;
      if denied && !w.caller.SignedIn? {
        return Exit(Denied, messages, DENIED_MESSAGE, Some("stop"), [], iteration);
      }
      last := completion.content;
    }
    exit := Exit(Capped, messages, TextOr(last, LIMIT_MESSAGE), CAP_REASON, [], iteration);
  }

  method RunToolLoop(w: World, prompt: string, request: seq<Message>, maxIterations: int) returns (exit: Exit)
    ensures exit == BlockingRun(w, prompt, request, maxIterations)
    ensures !w.offer.Tools? ==> exit.history == request && (exit.kind == Answered || exit.kind == Broken)
    ensures exit.kind == Answered && !w.offer.Tools? ==>
              && w.offer.NoTools? && w.offer.plain.Some?
              && exit.text == w.offer.plain.value.content && exit.finish == w.offer.plain.value.finish
    ensures exit.kind == Answered && w.offer.Tools? ==>
              var answer := w.provide(exit.history);
              && answer.Some? && answer.value.calls == []
              && exit.text == answer.value.content.GetOr("") && exit.finish == answer.value.finish
    ensures exit.kind == Denied ==>
              !w.caller.SignedIn? && exit.text == DENIED_MESSAGE && exit.finish == Some("stop")
    ensures exit.kind == Capped ==>
              exit.rounds == AtLeastZero(maxIterations) && exit.finish == Some("tool_iteration_cap")
    ensures exit.kind == Broken && w.offer.Tools? ==>
              var answer := w.provide(exit.history);
              || answer.None?
              || BlockingCalls(w, exit.history + [AssistantMessage(answer.value, w.codec)], answer.value.calls).None?
  {
    BlockingEnds(w, BuildLoopMessages(prompt, request), AtLeastZero(maxIterations), 0, None);
    match w.offer
    case NoTools(None) => exit := Exit(Broken, request, "", None, [], 0);
    case NoTools(Some(plain)) => exit := Exit(Answered, request, plain.content, plain.finish, [], 0);
    case Unsupported => exit := Exit(Broken, request, "", None, [], 0);
    case Tools => exit := LoopWithTools(w, prompt, request, maxIterations);
  }

  /** The calls of one answer, with a frame before and after each. */
  method ExecuteStreamToolCalls(w: World, start: seq<Message>, calls: seq<ToolCall>)
    returns (ok: bool, messages: seq<Message>, frames: seq<ToolFrame>, denied: bool)
    ensures var batch := StreamingCalls(w, start, calls);
            (ok <==> batch.Some?) && (ok ==> batch.value == Batch(messages, frames, denied))
  {
    messages, frames, denied := start, [], false;
    var i := 0;
    ghost var batch := StreamingCalls(w, start, calls);
    while i < |calls|
      invariant i <= |calls|
      invariant var rest := StreamingCalls(w, messages, calls[i..]);
                && (batch.None? <==> rest.None?)
                && (batch.Some? ==> && batch.value.history == rest.value.history
                                    && batch.value.frames == frames + rest.value.frames
                                    && (batch.value.denied <==> denied || rest.value.denied))
    {
      RunFrom((h, c) => ExecuteStreamToolCall(w, h, c), messages, calls, i);
      ghost var sent := frames;
      frames := frames + [ToolStart(calls[i].name, calls[i].id)];
      var o := ExecuteStreamToolCall(w, messages, calls[i]);
      if o.None? {
        return false, messages, frames, denied;
      }
      frames := frames + [ToolEnd(calls[i].name, calls[i].id, o.value.success)];
      denied := denied || o.value.denied;
      messages := messages + [ToolDict(calls[i].id, o.value.content)];
      i := i + 1;
      ghost var rest := StreamingCalls(w, messages, calls[i..]);
      if rest.Some? {
        var c := calls[i - 1];
        FramesOn(sent, ToolStart(c.name, c.id), ToolEnd(c.name, c.id, o.value.success), rest.value.frames);
      }
    }
    NothingLeft((h, c) => ExecuteStreamToolCall(w, h, c), messages, calls);
    ok := true;
  }

  /** One round of the streaming loop: how it ends the run, or the calls it has run. */
  method StreamRound(w: World, messages: seq<Message>, frames: seq<ToolFrame>, rounds: nat, ghost left: nat,
                     last: Option<string>)
    returns (over: Option<Exit>, after: seq<Message>, sent: seq<ToolFrame>, content: Option<string>)
    requires left > 0
    ensures Streaming(w, messages, left, rounds, last, frames) ==
              if over.Some? then over.value else Streaming(w, after, left - 1, rounds + 1, content, frames + sent)
  {
    after, sent, content := messages, [], last;
    if w.gone(messages) {
      over := Some(Exit(Disconnected, messages, "", None, frames, rounds));
      return;
    }
    var answer := w.provide(messages);
    if answer.None? {
      over := Some(Exit(Broken, messages, "", None, frames, rounds));
      return;
    }
    var completion := answer.value;
    if completion.calls == [] {
      over := Some(Exit(Answered, messages, "", None, frames, rounds));
      return;
    }
    var ok, denied;
    ok, after, sent, denied :=
      ExecuteStreamToolCalls(w, messages + [AssistantMessage(completion, w.codec)], completion.calls);
    content := completion.content;
    over :=
      if !ok then Some(Exit(Broken, messages, "", None, frames, rounds))
      else if denied then Some(Exit(Denied, after, DENIED_MESSAGE, Some("stop"), frames + sent, rounds + 1))
      else None;
  }

  method StreamLoopWithTools(w: World, prompt: string, request: seq<Message>, maxIterations: int)
    returns (exit: Exit)
    ensures exit == Streaming(w, BuildLoopMessages(prompt, request), AtLeastZero(maxIterations), 0, None, [])
  {
    var messages := BuildLoopMessages(prompt, request);
    var last: Option<string> := None;
    var frames: seq<ToolFrame> := [];
    var rounds := 0;
    ghost var left := AtLeastZero(maxIterations);
    ghost var end := Streaming(w, messages, left, 0, None, []);
    while rounds < maxIterations
      invariant rounds + left == AtLeastZero(maxIterations)
      invariant Streaming(w, messages, left, rounds, last, frames) == end
    {
      var over, after, sent, content := StreamRound(w, messages, frames, rounds, left, last);
      if over.Some? {
        return over.value;
      }
      messages, frames, last := after, frames + sent, content;
      rounds, left := rounds + 1, left - 1;
    }
    exit := Exit(Capped, messages, TextOr(last, LIMIT_MESSAGE), CAP_REASON, frames, rounds);
  }

  method RunStreamToolLoop(w: World, prompt: string, request: seq<Message>, maxIterations: int) returns (exit: Exit)
    ensures exit == StreamingRun(w, prompt, request, maxIterations)
    ensures w.offer.NoTools? ==> exit.kind == Answered && exit.history == request && exit.frames == []
    ensures exit.kind == Disconnected ==> w.gone(exit.history)
    ensures !w.offer.NoTools? && (exit.kind == Answered || exit.kind == Broken) ==>
              var answer := w.provide(exit.history);
              && !w.gone(exit.history)
              && if exit.kind == Answered then answer.Some? && answer.value.calls == []
                 else answer.None? || StreamingCalls(w, exit.history + [AssistantMessage(answer.value, w.codec)],
                                                     answer.value.calls).None?
    ensures exit.kind == Denied ==> exit.text == DENIED_MESSAGE && exit.finish == Some("stop")
    ensures exit.kind == Capped ==>
              exit.rounds == AtLeastZero(maxIterations) && exit.finish == Some("tool_iteration_cap")
  {
    if w.offer.NoTools? {
      return Exit(Answered, request, "", None, [], 0);
    }
    StreamingEnds(w, BuildLoopMessages(prompt, request), AtLeastZero(maxIterations), 0, None, []);
    exit := StreamLoopWithTools(w, prompt, request, maxIterations);
  }
}
