/**
 A turn of the tool service (backend-python/app/services/tool_chat_service.py:113-271): the turn of the
 chat service with the tool loop in the place of its single provider call.
 */
module ToolTurns {
  import opened Wrappers
  import opened ChatRows
  import opened TurnProtocol
  import opened TurnGuarantees
  import opened TurnSchedules
  import opened TurnStore
  import ToolHistory
  import ToolLoopGuarantees
  import ToolLoops

  /** What a run of the tool loop stores: an empty errored row when it broke, otherwise its text, even an empty one. */
  function OutcomeOfRun(exit: ToolLoops.Exit): Outcome {
    if exit.kind == ToolLoops.Broken then Outcome("", Error, None) else Outcome(exit.text, Complete, exit.finish)
  }

  /** What a turn of the tool service stores, by how its loop ended and what the provider then answered. */
  lemma StoredByEnding(w: ToolLoops.World, prompt: string, request: seq<ToolHistory.Message>, maxIterations: int)
    ensures var exit := ToolLoops.BlockingRun(w, prompt, request, maxIterations);
            var o, answer := OutcomeOfRun(exit), w.provide(exit.history);
            && (o.status == Error <==> exit.kind == ToolLoops.Broken)
            && match exit.kind
               case Answered =>
                 if w.offer.Tools? then
                   && answer.Some? && answer.value.calls == []
                   && o == Outcome(answer.value.content.GetOr(""), Complete, answer.value.finish)
                 else
                   && w.offer.NoTools? && w.offer.plain.Some?
                   && o == Outcome(w.offer.plain.value.content, Complete, w.offer.plain.value.finish)
               case Denied => !w.caller.SignedIn? && o == Outcome(ToolLoops.DENIED_MESSAGE, Complete, Some("stop"))
               case Capped =>
                 && o.status == Complete && o.finish == Some("tool_iteration_cap") && o.content != ""
                 && if maxIterations <= 0 then o.content == ToolLoops.LIMIT_MESSAGE
                    else
                      exists said :: ToolLoopGuarantees.LastSaid(exit.history, said) &&
                        o.content == if said.GetOr("") != "" then said.value else ToolLoops.LIMIT_MESSAGE
               case Broken => o == Outcome("", Error, None)
               case Disconnected => false
  {
    var base, left := ToolHistory.BuildLoopMessages(prompt, request), ToolLoops.AtLeastZero(maxIterations);
    ToolLoops.BlockingEnds(w, base, left, 0, None);
    if w.offer.Tools? && ToolLoops.Blocking(w, base, left, 0, None).kind == ToolLoops.Capped {
      ToolLoopGuarantees.CapText(w, base, left, 0, None);
    }
  }

  class ToolChatService {
    const chat: ChatService

    constructor (chat: ChatService)
      ensures this.chat == chat
    {
      this.chat := chat;
    }

    /** A blocking turn with tools: what its loop ends in is what it stores and what it answers. */
    method CompleteChat(t: nat, req: Request, waited: Db, w: ToolLoops.World, prompt: string,
                        request: seq<ToolHistory.Message>, maxIterations: int, text: Option<string>, seen: Sightings,
                        ghost found: State, ghost granted: State, ghost others: nat -> seq<Action>)
      returns (r: Result<string, ChatError>, ghost s': State)
      requires chat.Meets(t, req, waited, found, granted) && req.kind == Blocking
      requires var exit := ToolLoops.BlockingRun(w, prompt, request, maxIterations);
               Sees(seen, Begun(granted, t), Plan(t, OutcomeOfRun(exit), text, others))
      modifies chat.store
      ensures Reachable(s') && t in s'.turns && chat.store.saved == chat.store.View() == s'.db
      ensures s'.turns[t].pc.Replied? <==> req.key.Some? && FindByKey(found.db.rows, req.key.value).Some?
      ensures match s'.turns[t].pc
              case Replied(reply) =>
                && reply.Some? && r == ReplayResult(reply.value) && s'.db == found.db
                && Answers(found.db.rows, req.key, reply.value) && r == Ok(reply.value.content)
              case Failed =>
                && r == Err(DbUnavailable) && s'.db == waited
                && req.key.Some? && FindByKey(waited.rows, req.key.value).Some?
              case Done =>
                var o := OutcomeOfRun(ToolLoops.BlockingRun(w, prompt, request, maxIterations));
                s'.db == TurnCommitted(waited, t, req, o, chat.threshold, text, seen) && r == ResultOf(o)
              case _ => false
      ensures s'.turns[t].pc.Done? ==>
                var rows, n, k := s'.db.rows, |waited.rows|, waited.nextSeq;
                var exit := ToolLoops.BlockingRun(w, prompt, request, maxIterations);
                && |rows| == n + 2 && rows[..n] == waited.rows && s'.db.nextSeq == k + 2
                && rows[n] == Message(k, User, req.prompt, Complete, None, req.key, t)
                && if exit.kind == ToolLoops.Broken then
                     rows[n + 1] == Message(k + 1, Assistant, "", Error, None, None, t) && r == Err(ProviderFailed)
                   else
                     && rows[n + 1] == Message(k + 1, Assistant, exit.text, Complete, exit.finish, None, t)
                     && r == Ok(exit.text)
    {
      var start;
      start, s' := chat.BeginTurn(t, req, waited, found, granted);
      match start
      case Replay(reply) =>
        RepliedWithNext(s', t);
        r := Ok(reply.value.content);
      case Unavailable => r := Err(DbUnavailable);
      case Appended =>
        var exit := ToolLoops.RunToolLoop(w, prompt, request, maxIterations);
        TurnRows(waited, t, req, OutcomeOfRun(exit), chat.threshold, text, seen);
        if exit.kind == ToolLoops.Broken {
          s' := chat.FinishTurn(t, Outcome("", Error, None), text, seen, s', others);
          r := Err(ProviderFailed);
        } else {
          s' := chat.FinishTurn(t, Outcome(exit.text, Complete, exit.finish), text, seen, s', others);
          r := Ok(exit.text);
        }
    }
  }
}
