/** What holds of every run of the tool loops, for every provider, executor and client. */
module ToolLoopGuarantees {
  import opened Wrappers
  import opened JsonValues
  import opened ToolHistory
  import opened ToolLoops

  /** The calls a stretch of history asks for, in order. */
  function CallsOf(tail: seq<Message>): seq<RawCall> {
    if tail == [] then []
    else (if tail[0].AssistantDict? then tail[0].calls else []) + CallsOf(tail[1..])
  }

  lemma {:induction false} CallsOfConcat(a: seq<Message>, b: seq<Message>)
    ensures CallsOf(a + b) == CallsOf(a) + CallsOf(b)
  {
    if a == [] {
      assert a + b == b;
    } else {
      assert (a + b)[1..] == a[1..] + b;
      CallsOfConcat(a[1..], b);
    }
  }

  predicate AllToolDicts(results: seq<Message>) {
    forall i :: 0 <= i < |results| ==> results[i].ToolDict?
  }

  lemma {:induction false} ToolDictsCallNothing(results: seq<Message>)
    requires AllToolDicts(results)
    ensures CallsOf(results) == []
  {
    if results != [] {
      ToolDictsCallNothing(results[1..]);
    }
  }

  /** `frames` announce and close each of `calls`, one after the other. */
  ghost predicate FramesMatch(frames: seq<ToolFrame>, calls: seq<RawCall>) {
    && |frames| == 2 * |calls|
    && forall i :: 0 <= i < |calls| ==> FramesAt(frames, calls, i)
  }

  ghost predicate FramesAt(frames: seq<ToolFrame>, calls: seq<RawCall>, i: nat)
    requires i < |calls| && |frames| == 2 * |calls|
  {
    && calls[i].FunctionCall?
    && frames[2 * i] == ToolStart(calls[i].name, calls[i].id)
    && frames[2 * i + 1].ToolEnd? && frames[2 * i + 1].name == calls[i].name && frames[2 * i + 1].id == calls[i].id
  }

  lemma FramesConcat(f: seq<ToolFrame>, c: seq<RawCall>, f': seq<ToolFrame>, c': seq<RawCall>)
    requires FramesMatch(f, c) && FramesMatch(f', c')
    ensures FramesMatch(f + f', c + c')
  {
    forall i | 0 <= i < |c + c'|
      ensures FramesAt(f + f', c + c', i)
    {
      if i < |c| {
        assert FramesAt(f, c, i);
      } else {
        assert FramesAt(f', c', i - |c|);
        assert (f + f')[2 * i] == f'[2 * (i - |c|)] && (f + f')[2 * i + 1] == f'[2 * (i - |c|) + 1];
      }
    }
  }

  /** One answer's calls add one result each, with the calls' ids in the calls' order, and two frames each. */
  lemma {:induction false} BatchShape(run: (seq<Message>, ToolCall) -> Option<CallOutcome>, h: seq<Message>,
                                      calls: seq<ToolCall>, codec: Codec) returns (results: seq<Message>)
    requires RunCalls(run, h, calls).Some?
    ensures var batch := RunCalls(run, h, calls).value;
            batch.history == h + results && FramesMatch(batch.frames, RawCalls(calls, codec))
    ensures |results| == |calls| && AllToolDicts(results)
    ensures forall i :: 0 <= i < |calls| ==> results[i].ToolDict? && results[i].callId == calls[i].id
    decreases |calls|
  {
    if calls == [] {
      results := [];
    } else {
      var c, o := calls[0], run(h, calls[0]).value;
      var first := [ToolDict(c.id, o.content)];
      var rest := BatchShape(run, h + first, calls[1..], codec);
      results := first + rest;
      assert h + first + rest == h + results;
      var frames := [ToolStart(c.name, c.id), ToolEnd(c.name, c.id, o.success)];
      var raw := [FunctionCall(c.id, c.name, ArgText(codec.dumps(c.arguments)), c.signature)];
      assert FramesAt(frames, raw, 0);
      FramesConcat(frames, raw, RunCalls(run, h + first, calls[1..]).value.frames, RawCalls(calls[1..], codec));
    }
  }

  /** The batch from `h` has answered its call `i` as the call answers to the history up to there. */
  ghost predicate AnswersCall(run: (seq<Message>, ToolCall) -> Option<CallOutcome>, h: seq<Message>, batch: Batch,
                              i: nat, c: ToolCall)
  {
    && |h| + i < |batch.history| && 2 * i + 1 < |batch.frames|
    && var o := run(batch.history[..|h| + i], c);
       && o.Some? && batch.history[|h| + i] == ToolDict(c.id, o.value.content)
       && batch.frames[2 * i] == ToolStart(c.name, c.id)
       && batch.frames[2 * i + 1] == ToolEnd(c.name, c.id, o.value.success)
       && (o.value.denied ==> batch.denied)
  }

  lemma AnswersLater(run: (seq<Message>, ToolCall) -> Option<CallOutcome>, h: seq<Message>, batch: Batch,
                     first: seq<Message>, rest: Batch, i: nat, c: ToolCall)
    requires AnswersCall(run, first, rest, i, c) && |first| == |h| + 1 && (rest.denied ==> batch.denied)
    requires batch.history == rest.history && |batch.frames| == 2 + |rest.frames| && batch.frames[2..] == rest.frames
    ensures AnswersCall(run, h, batch, i + 1, c)
  {
    assert batch.frames[2..][2 * i] == batch.frames[2 * (i + 1)];
    assert batch.frames[2..][2 * i + 1] == batch.frames[2 * (i + 1) + 1];
    assert |h| + (i + 1) == |first| + i;
  }

  /** Every call of a batch is run, on the history up to it. */
  lemma {:induction false} BatchAnswers(run: (seq<Message>, ToolCall) -> Option<CallOutcome>, h: seq<Message>,
                                        calls: seq<ToolCall>, i: nat, codec: Codec)
    requires i < |calls| && RunCalls(run, h, calls).Some?
    ensures AnswersCall(run, h, RunCalls(run, h, calls).value, i, calls[i])
    decreases |calls|
  {
    var batch := RunCalls(run, h, calls).value;
    var first := h + [ToolDict(calls[0].id, run(h, calls[0]).value.content)];
    var rest := RunCalls(run, first, calls[1..]).value;
    if i == 0 {
      var results := BatchShape(run, first, calls[1..], codec);
      assert batch.history == first + results && batch.history[..|h|] == h;
    } else {
      BatchAnswers(run, first, calls[1..], i - 1, codec);
      AnswersLater(run, h, batch, first, rest, i - 1, calls[i]);
    }
  }

  /** The JSON object that a tool result tells the model. */
  ghost predicate Tells(codec: Codec, content: string, success: bool, error: Json, code: Json) {
    && codec.loads(content).Some? && codec.loads(content).value.Obj?
    && var fields := codec.loads(content).value.fields;
       && Lookup(fields, "success") == Some(Bool(success))
       && Lookup(fields, "error") == Some(error) && Lookup(fields, "error_code") == Some(code)
  }

  lemma {:induction false} LookupAt(fields: seq<Field>, k: nat)
    requires k < |fields| && forall j :: 0 <= j < k ==> fields[j].name != fields[k].name
    ensures Lookup(fields, fields[k].name) == Some(fields[k].value)
  {
    if k > 0 {
      LookupAt(fields[1..], k - 1);
    }
  }

  lemma PayloadTells(codec: Codec, r: ToolResult)
    requires codec.Lawful()
    ensures Tells(codec, codec.dumps(ResultPayload(r)), r.success, OptionalText(r.error), OptionalText(r.errorCode))
    ensures Lookup(codec.loads(codec.dumps(ResultPayload(r))).value.fields, "data") == Some(r.data)
  {
    var fields := ResultPayload(r).fields;
    assert codec.loads(codec.dumps(Obj(fields))) == Some(Obj(fields));
    LookupAt(fields, 0);
    LookupAt(fields, 1);
    LookupAt(fields, 2);
    LookupAt(fields, 3);
  }

  lemma RefusalTells(codec: Codec)
    requires codec.Lawful()
    ensures Tells(codec, codec.dumps(Refusal()), false, Str(DENIED_MESSAGE), Str("forbidden"))
  {
    var fields := Refusal().fields;
    assert codec.loads(codec.dumps(Obj(fields))) == Some(Obj(fields));
    LookupAt(fields, 0);
    LookupAt(fields, 1);
    LookupAt(fields, 2);
  }

  /**
   What the model is shown for call `i` of a blocking batch parses back to what the tool answered when the
   history was what precedes it; a caller without an account gets a refusal and no tool runs.
   */
  lemma ModelIsShownResults(w: World, h: seq<Message>, calls: seq<ToolCall>, i: nat)
    requires w.codec.Lawful() && i < |calls| && BlockingCalls(w, h, calls).Some?
    ensures var batch := BlockingCalls(w, h, calls).value;
            && |h| + i < |batch.history| && batch.history[|h| + i].ToolDict?
            && batch.history[|h| + i].callId == calls[i].id
            && var shown := batch.history[|h| + i].result;
               if w.caller.SignedIn? then
                 var answer := w.execute(batch.history[..|h| + i], calls[i]);
                 && answer.Some?
                 && var r := answer.value;
                    && Tells(w.codec, shown, r.success,
                             match r.error { case None => Null case Some(e) => Str(e) },
                             match r.errorCode { case None => Null case Some(c) => Str(c) })
                    && Lookup(w.codec.loads(shown).value.fields, "data") == Some(r.data)
                    && (r.errorCode == Some("forbidden") ==> batch.denied)
               else batch.denied && Tells(w.codec, shown, false, Str(DENIED_MESSAGE), Str("forbidden"))
  {
    BatchAnswers((h, c) => ExecuteToolCall(w, h, c), h, calls, i, w.codec);
    var batch := BlockingCalls(w, h, calls).value;
    if w.caller.SignedIn? {
      PayloadTells(w.codec, w.execute(batch.history[..|h| + i], calls[i]).value);
    } else {
      RefusalTells(w.codec);
    }
  }

  /** The streaming batch shows the same, unless the client has gone, and its closing frames say how it went. */
  lemma StreamShowsResults(w: World, h: seq<Message>, calls: seq<ToolCall>, i: nat)
    requires i < |calls| && StreamingCalls(w, h, calls).Some?
    ensures var batch := StreamingCalls(w, h, calls).value;
            && |h| + i < |batch.history| && 2 * i + 1 < |batch.frames|
            && batch.frames[2 * i] == ToolStart(calls[i].name, calls[i].id)
            && var before := batch.history[..|h| + i];
               if w.gone(before) then
                 && batch.history[|h| + i] == ToolDict(calls[i].id, DISCONNECTED_RESULT)
                 && batch.frames[2 * i + 1] == ToolEnd(calls[i].name, calls[i].id, false)
               else
                 && ExecuteToolCall(w, before, calls[i]).Some?
                 && var o := ExecuteToolCall(w, before, calls[i]).value;
                    && batch.history[|h| + i] == ToolDict(calls[i].id, o.content)
                    && batch.frames[2 * i + 1] == ToolEnd(calls[i].name, calls[i].id, o.success && !o.denied)
  {
    BatchAnswers((h, c) => ExecuteStreamToolCall(w, h, c), h, calls, i, w.codec);
  }

  /** The message with the calls and their results are one round. */
  lemma RoundShape(c: Completion, codec: Codec, results: seq<Message>)
    requires c.calls != [] && |results| == |c.calls| && AllToolDicts(results)
    requires forall i :: 0 <= i < |c.calls| ==> results[i].ToolDict? && results[i].callId == c.calls[i].id
    ensures IsRounds([AssistantMessage(c, codec)] + results, 1)
    ensures CallsOf([AssistantMessage(c, codec)] + results) == RawCalls(c.calls, codec)
  {
    var round := [AssistantMessage(c, codec)] + results;
    assert round[1..] == results;
    ToolDictsCallNothing(results);
    assert StartsWithRound(round);
    assert round[1 + |round[0].calls|..] == [];
    assert IsRounds([], 0);
  }

  lemma Regroup<T>(a: seq<T>, b: seq<T>, c: seq<T>)
    ensures a + b + c == a + (b + c)
  {
  }

  /** Running the calls of one answer adds one round to the history. */
  lemma RoundOf(run: (seq<Message>, ToolCall) -> Option<CallOutcome>, h: seq<Message>, c: Completion, codec: Codec)
    returns (round: seq<Message>)
    requires c.calls != [] && RunCalls(run, h + [AssistantMessage(c, codec)], c.calls).Some?
    ensures var batch := RunCalls(run, h + [AssistantMessage(c, codec)], c.calls).value;
            batch.history == h + round && FramesMatch(batch.frames, CallsOf(round))
    ensures IsRounds(round, 1)
  {
    var start := h + [AssistantMessage(c, codec)];
    var results := BatchShape(run, start, c.calls, codec);
    Regroup(h, [AssistantMessage(c, codec)], results);
    RoundShape(c, codec, results);
    round := [AssistantMessage(c, codec)] + results;
  }

  /** `exit` has added whole rounds, `tail`, to the history `h` that had `done` of them. */
  ghost predicate Grew(exit: Exit, h: seq<Message>, done: nat, left: nat, tail: seq<Message>) {
    done <= exit.rounds <= done + left && exit.history == h + tail && IsRounds(tail, exit.rounds - done)
  }

  lemma GrewNothing(exit: Exit, h: seq<Message>, done: nat, left: nat)
    requires exit.history == h && exit.rounds == done
    ensures Grew(exit, h, done, left, [])
  {
    assert h + [] == h;
  }

  lemma GrewMore(exit: Exit, h: seq<Message>, done: nat, left: nat, round: seq<Message>, more: seq<Message>)
    requires IsRounds(round, 1) && Grew(exit, h + round, done + 1, left, more)
    ensures Grew(exit, h, done, left + 1, round + more)
  {
    Regroup(h, round, more);
    StartExtends(round, more);
    assert round[1 + |round[0].calls|..] == [];
    assert [] + more == more;
  }

  lemma GrewWithFrames(exit: Exit, h: seq<Message>, done: nat, left: nat, round: seq<Message>, more: seq<Message>,
                       frames: seq<ToolFrame>, sent: seq<ToolFrame>, later: seq<ToolFrame>)
    requires IsRounds(round, 1) && Grew(exit, h + round, done + 1, left, more)
    requires FramesMatch(sent, CallsOf(round)) && FramesMatch(later, CallsOf(more))
    requires exit.frames == frames + sent + later
    ensures Grew(exit, h, done, left + 1, round + more)
    ensures exit.frames == frames + (sent + later) && FramesMatch(sent + later, CallsOf(round + more))
  {
    GrewMore(exit, h, done, left, round, more);
    Regroup(frames, sent, later);
    CallsOfConcat(round, more);
    FramesConcat(sent, CallsOf(round), later, CallsOf(more));
  }

  lemma BlockingRound(w: World, h: seq<Message>, c: Completion) returns (round: seq<Message>)
    requires c.calls != [] && BlockingCalls(w, h + [AssistantMessage(c, w.codec)], c.calls).Some?
    ensures BlockingCalls(w, h + [AssistantMessage(c, w.codec)], c.calls).value.history == h + round
    ensures IsRounds(round, 1)
  {
    round := RoundOf((h, c) => ExecuteToolCall(w, h, c), h, c, w.codec);
  }

  lemma StreamingRound(w: World, h: seq<Message>, c: Completion) returns (round: seq<Message>)
    requires c.calls != [] && StreamingCalls(w, h + [AssistantMessage(c, w.codec)], c.calls).Some?
    ensures var batch := StreamingCalls(w, h + [AssistantMessage(c, w.codec)], c.calls).value;
            batch.history == h + round && FramesMatch(batch.frames, CallsOf(round))
    ensures IsRounds(round, 1)
  {
    round := RoundOf((h, c) => ExecuteStreamToolCall(w, h, c), h, c, w.codec);
  }

  /** Every normal exit of the blocking loop has added whole rounds to the history, at most one per iteration. */
  lemma {:induction false} BlockingShape(w: World, h: seq<Message>, left: nat, done: nat, last: Option<string>)
    returns (tail: seq<Message>)
    requires Blocking(w, h, left, done, last).kind != Broken
    ensures Grew(Blocking(w, h, left, done, last), h, done, left, tail)
    decreases left
  {
    var exit := Blocking(w, h, left, done, last);
    if left == 0 || w.provide(h).value.calls == [] {
      tail := [];
      GrewNothing(exit, h, done, left);
      return;
    }
    var c := w.provide(h).value;
    var batch := BlockingCalls(w, h + [AssistantMessage(c, w.codec)], c.calls).value;
    var round := BlockingRound(w, h, c);
    var more := [];
    if batch.denied && !w.caller.SignedIn? {
      assert exit == Exit(Denied, h + round, DENIED_MESSAGE, Some("stop"), [], done + 1);
      GrewNothing(exit, h + round, done + 1, left - 1);
    } else {
      assert exit == Blocking(w, batch.history, left - 1, done + 1, c.content);
      more := BlockingShape(w, batch.history, left - 1, done + 1, c.content);
    }
    GrewMore(exit, h, done, left - 1, round, more);
    tail := round + more;
  }

  /** The same for the streaming loop, whose frames announce exactly the calls of those rounds, in order. */
  lemma {:induction false} StreamingShape(w: World, h: seq<Message>, left: nat, done: nat, last: Option<string>,
                                          frames: seq<ToolFrame>) returns (tail: seq<Message>, sent: seq<ToolFrame>)
    requires Streaming(w, h, left, done, last, frames).kind != Broken
    ensures var exit := Streaming(w, h, left, done, last, frames);
            Grew(exit, h, done, left, tail) && exit.frames == frames + sent && FramesMatch(sent, CallsOf(tail))
    decreases left
  {
    var exit := Streaming(w, h, left, done, last, frames);
    if left == 0 || w.gone(h) || w.provide(h).value.calls == [] {
      tail, sent := [], [];
      GrewNothing(exit, h, done, left);
      assert frames + [] == frames;
      return;
    }
    var c := w.provide(h).value;
    var batch := StreamingCalls(w, h + [AssistantMessage(c, w.codec)], c.calls).value;
    var round := StreamingRound(w, h, c);
    var more, later := [], [];
    if batch.denied {
      GrewNothing(exit, h + round, done + 1, left - 1);
      assert frames + batch.frames + [] == frames + batch.frames;
    } else {
      more, later := StreamingShape(w, batch.history, left - 1, done + 1, c.content, frames + batch.frames);
    }
    GrewWithFrames(exit, h, done, left - 1, round, more, frames, batch.frames, later);
    tail, sent := round + more, batch.frames + later;
  }

  /** The last message with calls came with this content; only results follow it. */
  ghost predicate LastSaid(h: seq<Message>, content: Option<string>) {
    exists i: nat :: SaidAt(h, i, content)
  }

  predicate SaidAt(h: seq<Message>, i: nat, content: Option<string>) {
    && i < |h| && h[i].AssistantDict? && h[i].content == content
    && forall j: nat :: i < j < |h| ==> h[j].ToolDict?
  }

  lemma RoundSaid(w: World, h: seq<Message>, c: Completion)
    requires BlockingCalls(w, h + [AssistantMessage(c, w.codec)], c.calls).Some?
    ensures LastSaid(BlockingCalls(w, h + [AssistantMessage(c, w.codec)], c.calls).value.history, c.content)
  {
    var start := h + [AssistantMessage(c, w.codec)];
    var results := BatchShape((h, c) => ExecuteToolCall(w, h, c), start, c.calls, w.codec);
    assert SaidAt(start + results, |h|, c.content);
  }

  /** At the cap the text is what the provider said with its last calls, or the loop's own message. */
  lemma {:induction false} CapText(w: World, h: seq<Message>, left: nat, done: nat, last: Option<string>)
    requires Blocking(w, h, left, done, last).kind == Capped
    requires if done == 0 then last == None else LastSaid(h, last)
    ensures var exit := Blocking(w, h, left, done, last);
            if exit.rounds == 0 then exit.text == LIMIT_MESSAGE
            else
              exists said :: LastSaid(exit.history, said) &&
                exit.text == if said.GetOr("") != "" then said.value else LIMIT_MESSAGE
    decreases left
  {
    if left > 0 {
      var c := w.provide(h).value;
      RoundSaid(w, h, c);
      var batch := BlockingCalls(w, h + [AssistantMessage(c, w.codec)], c.calls).value;
      CapText(w, batch.history, left - 1, done + 1, c.content);
    }
  }

  /** One system message, the request unchanged, then `rounds` rounds, at most `maxIterations` of them. */
  ghost predicate LoopHistory(exit: Exit, prompt: string, request: seq<Message>, maxIterations: int) {
    && |exit.history| >= 1 + |request|
    && exit.history[0] == Schema(SystemRole, prompt)
    && exit.history[1..1 + |request|] == request
    && IsRounds(exit.history[1 + |request|..], exit.rounds)
    && exit.rounds <= AtLeastZero(maxIterations)
  }

  lemma BlockingHistory(w: World, prompt: string, request: seq<Message>, maxIterations: int)
    requires w.offer.Tools?
    ensures var exit := BlockingRun(w, prompt, request, maxIterations);
            exit.kind != Broken ==> LoopHistory(exit, prompt, request, maxIterations)
  {
    var base := BuildLoopMessages(prompt, request);
    var exit := BlockingRun(w, prompt, request, maxIterations);
    if exit.kind != Broken {
      var tail := BlockingShape(w, base, AtLeastZero(maxIterations), 0, None);
      assert exit.history[1 + |request|..] == tail;
    }
  }

  lemma StreamingHistory(w: World, prompt: string, request: seq<Message>, maxIterations: int)
    requires !w.offer.NoTools?
    ensures var exit := StreamingRun(w, prompt, request, maxIterations);
            exit.kind != Broken ==>
              && LoopHistory(exit, prompt, request, maxIterations)
              && FramesMatch(exit.frames, CallsOf(exit.history[1 + |request|..]))
  {
    var base := BuildLoopMessages(prompt, request);
    var exit := StreamingRun(w, prompt, request, maxIterations);
    if exit.kind != Broken {
      var tail, sent := StreamingShape(w, base, AtLeastZero(maxIterations), 0, None, []);
      assert exit.history[1 + |request|..] == tail;
      assert [] + sent == sent;
    }
  }

  // ---- streaming against blocking -----------------------------------------------

  ghost predicate Connected(w: World) {
    forall h :: !w.gone(h)
  }

  /** With the client there, both loops run one answer's calls to the same history and the same denials. */
  lemma {:induction false} SameBatch(w: World, h: seq<Message>, calls: seq<ToolCall>)
    requires Connected(w)
    ensures var b, s := BlockingCalls(w, h, calls), StreamingCalls(w, h, calls);
            && (b.None? <==> s.None?)
            && (b.Some? ==> b.value.history == s.value.history && b.value.denied == s.value.denied)
    decreases |calls|
  {
    if calls != [] {
      var o := ExecuteToolCall(w, h, calls[0]);
      if o.Some? {
        SameBatch(w, h + [ToolDict(calls[0].id, o.value.content)], calls[1..]);
      }
    }
  }

  /** Running these calls in order, some tool answers `forbidden` before any of them raises. */
  predicate CallsForbid(w: World, h: seq<Message>, calls: seq<ToolCall>)
    decreases |calls|
  {
    && calls != [] && w.execute(h, calls[0]).Some?
    && var r := w.execute(h, calls[0]).value;
       || r.errorCode == Some("forbidden")
       || CallsForbid(w, h + [ToolDict(calls[0].id, w.codec.dumps(ResultPayload(r)))], calls[1..])
  }

  /** In some round within `left`, reached with no call raising before it ends, a tool answers `forbidden`. */
  predicate Forbids(w: World, h: seq<Message>, left: nat)
    decreases left
  {
    && left > 0 && w.provide(h).Some? && w.provide(h).value.calls != []
    && var c := w.provide(h).value;
       var start := h + [AssistantMessage(c, w.codec)];
       && BlockingCalls(w, start, c.calls).Some?
       && (CallsForbid(w, start, c.calls) || Forbids(w, BlockingCalls(w, start, c.calls).value.history, left - 1))
  }

  /** What a signed-in caller's batch reports as denied is what its tools answered. */
  lemma {:induction false} DeniedIffForbidden(w: World, h: seq<Message>, calls: seq<ToolCall>)
    requires w.caller.SignedIn? && BlockingCalls(w, h, calls).Some?
    ensures BlockingCalls(w, h, calls).value.denied <==> CallsForbid(w, h, calls)
    decreases |calls|
  {
    if calls != [] {
      var o := ExecuteToolCall(w, h, calls[0]).value;
      DeniedIffForbidden(w, h + [ToolDict(calls[0].id, o.content)], calls[1..]);
    }
  }

  /** The streaming loop ends a signed-in caller's run in a denial exactly when a tool answers `forbidden`. */
  lemma {:induction false} StreamDeniedIffForbids(w: World, h: seq<Message>, left: nat, done: nat, last: Option<string>,
                                                  frames: seq<ToolFrame>)
    requires Connected(w) && w.caller.SignedIn?
    ensures Streaming(w, h, left, done, last, frames).kind == Denied <==> Forbids(w, h, left)
    decreases left
  {
    if left > 0 && w.provide(h).Some? && w.provide(h).value.calls != [] {
      var c := w.provide(h).value;
      var start := h + [AssistantMessage(c, w.codec)];
      SameBatch(w, start, c.calls);
      var s := StreamingCalls(w, start, c.calls);
      if s.Some? {
        DeniedIffForbidden(w, start, c.calls);
        if !s.value.denied {
          StreamDeniedIffForbids(w, s.value.history, left - 1, done + 1, c.content, frames + s.value.frames);
        }
      }
    }
  }

  /** With a connected client the two loops end alike whenever the streaming one does not deny a signed-in caller. */
  lemma {:induction false} LoopsAgreeUnlessDenied(w: World, h: seq<Message>, left: nat, done: nat,
                                                  last: Option<string>, frames: seq<ToolFrame>)
    requires Connected(w)
    ensures var b, s := Blocking(w, h, left, done, last), Streaming(w, h, left, done, last, frames);
            && (b.kind == s.kind <==> !(w.caller.SignedIn? && s.kind == Denied))
            && (b.kind == s.kind ==> SameEnd(b, s))
    decreases left
  {
    if left > 0 && w.provide(h).Some? && w.provide(h).value.calls != [] {
      var c := w.provide(h).value;
      var start := h + [AssistantMessage(c, w.codec)];
      SameBatch(w, start, c.calls);
      var s := StreamingCalls(w, start, c.calls);
      if s.Some? && !s.value.denied {
        LoopsAgreeUnlessDenied(w, s.value.history, left - 1, done + 1, c.content, frames + s.value.frames);
      }
    }
    if w.caller.SignedIn? {
      SignedInNeverDenied(w, h, left, done, last);
    }
  }

  /** Same ending, history and rounds, and the same text and reason where the loop itself supplies them. */
  predicate SameEnd(b: Exit, s: Exit) {
    && b.kind == s.kind && b.history == s.history && b.rounds == s.rounds
    && (b.kind == Capped || b.kind == Denied ==> b.text == s.text && b.finish == s.finish)
  }

  /**
   With the same answers and a connected client the two loops end alike, with the same history, rounds
   and cap text, for every caller and all answers but these: a tool answers a signed-in caller
   `forbidden` within the cap, in a round that no call breaks. Then the streaming loop stops and the
   blocking one goes on, so they end differently.
   */
  lemma LoopsAgreeUnlessForbidden(w: World, h: seq<Message>, left: nat, done: nat, last: Option<string>,
                                  frames: seq<ToolFrame>)
    requires Connected(w)
    ensures SameEnd(Blocking(w, h, left, done, last), Streaming(w, h, left, done, last, frames))
            <==> !(w.caller.SignedIn? && Forbids(w, h, left))
  {
    LoopsAgreeUnlessDenied(w, h, left, done, last, frames);
    if w.caller.SignedIn? {
      StreamDeniedIffForbids(w, h, left, done, last, frames);
    }
  }

  lemma {:induction false} SignedInNeverDenied(w: World, h: seq<Message>, left: nat, done: nat, last: Option<string>)
    requires w.caller.SignedIn?
    ensures Blocking(w, h, left, done, last).kind != Denied
    decreases left
  {
    if left > 0 && w.provide(h).Some? && w.provide(h).value.calls != [] {
      var c := w.provide(h).value;
      var batch := BlockingCalls(w, h + [AssistantMessage(c, w.codec)], c.calls);
      if batch.Some? {
        SignedInNeverDenied(w, batch.value.history, left - 1, done + 1, c.content);
      }
    }
  }

  /** A provider that always asks for the same call, whose tool answers a signed-in caller `forbidden`. */
  function AlwaysForbidden(codec: Codec): World {
    World(h => Some(Completion(None, [ToolCall("c", "search", Obj([]), None)], None)),
          (h, c) => Some(ToolResult(false, Null, None, Some("forbidden"))),
          h => false, SignedIn, codec, Tools)
  }

  /** With one iteration allowed, the streaming loop ends in a denial there and the blocking one at the cap. */
  lemma LoopsDiffer(codec: Codec, h: seq<Message>)
    ensures var w := AlwaysForbidden(codec);
            && Connected(w) && !SameEnd(Blocking(w, h, 1, 0, None), Streaming(w, h, 1, 0, None, []))
            && Blocking(w, h, 1, 0, None).kind == Capped && Streaming(w, h, 1, 0, None, []).kind == Denied
  {
    var w := AlwaysForbidden(codec);
    var start := h + [AssistantMessage(w.provide(h).value, codec)];
    var calls := w.provide(h).value.calls;
    assert calls[1..] == [];
    SameBatch(w, start, calls);
    DeniedIffForbidden(w, start, calls);
    assert CallsForbid(w, start, calls);
  }
}
