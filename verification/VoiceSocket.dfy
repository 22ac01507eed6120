/**
 The receive loop of the voice WebSocket (backend-python/app/routers/voice.py:202-325): audio chunks are
 buffered into an utterance, a final chunk hands the utterance to a new turn, a barge-in discards it.
 */
module VoiceSocket {
  import opened Wrappers

  type Chunk = seq<bv8>

  /** A client frame; `Rejected` fails to decode, and an audio payload of None fails to decode later. */
  datatype Inbound =
    | Rejected
    | Audio(payload: Option<Chunk>, final: bool)
    | Interrupt
    | Heartbeat
    | SessionEnd

  /**
   A frame, with what the rest of the program did before it was handled: whether a turn was active for
   barge-in detection, whether the turn in flight had ended by itself, and whether the session had expired.
   */
  datatype Arrival = Arrival(message: Inbound, turnActive: bool, turnEnded: bool, expired: bool)

  predicate BargesIn(a: Arrival) {
    a.message.Interrupt? || (a.message.Audio? && a.turnActive)
  }

  predicate Completes(a: Arrival) {
    a.message.Audio? && a.message.payload.Some? && a.message.final
  }

  /** The decoded chunks of a run of frames, in order. */
  function Heard(h: seq<Arrival>): seq<Chunk> {
    if h == [] then []
    else
      var m := h[|h| - 1].message;
      Heard(h[..|h| - 1]) + if m.Audio? && m.payload.Some? then [m.payload.value] else []
  }

  lemma {:induction false} HeardConcat(g: seq<Arrival>, h: seq<Arrival>)
    ensures Heard(g + h) == Heard(g) + Heard(h)
    decreases |h|
  {
    if h == [] {
      assert g + h == g;
    } else {
      assert (g + h)[..|g + h| - 1] == g + h[..|h| - 1];
      HeardConcat(g, h[..|h| - 1]);
    }
  }

  /** The utterance that starts at `from` in `h` is still open: nothing ended or discarded it. */
  ghost predicate IsOpen(h: seq<Arrival>, from: nat) {
    && from <= |h|
    && (forall k :: from <= k < |h| ==> !Completes(h[k]))
    && (forall k :: from < k < |h| ==> !BargesIn(h[k]))
    && (from == 0 || Completes(h[from - 1]) || (from < |h| && BargesIn(h[from])))
  }

  /** Where the utterance being buffered after `h` starts. */
  function Open(h: seq<Arrival>): (from: nat)
    ensures IsOpen(h, from)
  {
    if h == [] then 0
    else
      var a := h[|h| - 1];
      if Completes(a) then |h| else if BargesIn(a) then |h| - 1 else Open(h[..|h| - 1])
  }

  /** There is only one such place: just after the last final chunk, or at a later barge-in. */
  lemma OpenIsUnique(h: seq<Arrival>, from: nat)
    requires IsOpen(h, from)
    ensures from == Open(h)
  {
  }

  /** Where the utterance that frame `j` adds to starts: a barge-in by the frame itself comes first. */
  function Start(h: seq<Arrival>, j: nat): (from: nat)
    requires j < |h|
    ensures from <= j
  {
    if BargesIn(h[j]) then j else Open(h[..j])
  }

  /** The utterances that `h` hands to turns: one for each final chunk. */
  function Turns(h: seq<Arrival>): seq<seq<Chunk>> {
    if h == [] then []
    else
      var j := |h| - 1;
      Turns(h[..j]) + if Handed(h).Some? then [Handed(h).value] else []
  }

  function Buffered(h: seq<Arrival>): seq<Chunk> {
    Heard(h[Open(h)..])
  }

  datatype Lot = Started(chunks: seq<Chunk>) | Discarded(chunks: seq<Chunk>)

  /** The discard and the turn that one frame may cause, in this order. */
  function Settle(lots: seq<Lot>, dropped: Option<seq<Chunk>>, turn: Option<seq<Chunk>>): seq<Lot> {
    var cut := if dropped.Some? then lots + [Discarded(dropped.value)] else lots;
    if turn.Some? then cut + [Started(turn.value)] else cut
  }

  /** What the last frame discards. */
  function Dropped(h: seq<Arrival>): Option<seq<Chunk>>
    requires h != []
  {
    if BargesIn(h[|h| - 1]) then Some(Buffered(h[..|h| - 1])) else None
  }

  /** What the last frame hands to a turn. */
  function Handed(h: seq<Arrival>): Option<seq<Chunk>>
    requires h != []
  {
    if Completes(h[|h| - 1]) then Some(Heard(h[Start(h, |h| - 1)..])) else None
  }

  /** What became of the chunks that have left the buffer, in order. */
  function Lots(h: seq<Arrival>): seq<Lot> {
    if h == [] then []
    else
      var j := |h| - 1;
      Settle(Lots(h[..j]), Dropped(h), Handed(h))
  }

  function Flatten(lots: seq<Lot>): seq<Chunk> {
    if lots == [] then [] else Flatten(lots[..|lots| - 1]) + lots[|lots| - 1].chunks
  }

  function StartedOf(lots: seq<Lot>): seq<seq<Chunk>> {
    if lots == [] then []
    else
      StartedOf(lots[..|lots| - 1])
      + if lots[|lots| - 1].Started? then [lots[|lots| - 1].chunks] else []
  }

  lemma Snoc(lots: seq<Lot>, lot: Lot)
    ensures Flatten(lots + [lot]) == Flatten(lots) + lot.chunks
    ensures StartedOf(lots + [lot]) == StartedOf(lots) + if lot.Started? then [lot.chunks] else []
  {
    assert (lots + [lot])[..|lots|] == lots;
  }

  /** What one more frame adds to the buffer, before a final chunk empties it. */
  lemma HeardSince(h: seq<Arrival>)
    requires h != []
    ensures var j := |h| - 1;
            Heard(h[Start(h, j)..])
            == (if BargesIn(h[j]) then [] else Buffered(h[..j])) + Heard([h[j]])
  {
    var j := |h| - 1;
    var from := Start(h, j);
    assert h[from..] == h[from..j] + [h[j]];
    HeardConcat(h[from..j], [h[j]]);
    if !BargesIn(h[j]) {
      assert h[..j][from..] == h[from..j];
    } else {
      assert h[from..j] == [];
    }
  }

  /** The buffer after one more frame. */
  lemma BufferedStep(h: seq<Arrival>)
    requires h != []
    ensures Buffered(h) == if Completes(h[|h| - 1]) then [] else Heard(h[Start(h, |h| - 1)..])
  {
    if Completes(h[|h| - 1]) {
      assert h[Open(h)..] == [];
    }
  }

  /** What one more frame takes out of the buffer. */
  lemma SettleAdds(lots: seq<Lot>, dropped: Option<seq<Chunk>>, turn: Option<seq<Chunk>>)
    ensures Flatten(Settle(lots, dropped, turn))
            == Flatten(lots) + dropped.GetOr([]) + turn.GetOr([])
    ensures StartedOf(Settle(lots, dropped, turn)) == StartedOf(lots) + if turn.Some? then [turn.value] else []
  {
    var cut := if dropped.Some? then lots + [Discarded(dropped.value)] else lots;
    Snoc(lots, Discarded(dropped.GetOr([])));
    Snoc(cut, Started(turn.GetOr([])));
  }

  /** One more frame moves chunks between the buffer and the lots, and adds its own. */
  lemma FrameConserves(h: seq<Arrival>)
    requires h != []
    ensures Dropped(h).GetOr([]) + Handed(h).GetOr([]) + Buffered(h) == Buffered(h[..|h| - 1]) + Heard([h[|h| - 1]])
  {
    HeardSince(h);
    BufferedStep(h);
  }

  lemma Regroup(lots: seq<Chunk>, dropped: seq<Chunk>, handed: seq<Chunk>, buffer: seq<Chunk>,
                before: seq<Chunk>, last: seq<Chunk>)
    requires dropped + handed + buffer == before + last
    ensures lots + dropped + handed + buffer == (lots + before) + last
  {
    assert lots + dropped + handed + buffer == lots + (dropped + handed + buffer);
    assert lots + (before + last) == (lots + before) + last;
  }

  lemma HeardSnoc(h: seq<Arrival>)
    requires h != []
    ensures Heard(h) == Heard(h[..|h| - 1]) + Heard([h[|h| - 1]])
  {
    assert [h[|h| - 1]][..0] == [];
  }

  /**
   Nothing is lost, repeated or reordered: the chunks of the started turns and of the discards, in
   order, followed by the buffer, are exactly the chunks that were decoded.
   */
  lemma {:induction false} EveryChunkOnce(h: seq<Arrival>)
    ensures Flatten(Lots(h)) + Buffered(h) == Heard(h)
  {
    if h == [] {
      assert h[Open(h)..] == [];
    } else {
      var before := h[..|h| - 1];
      EveryChunkOnce(before);
      SettleAdds(Lots(before), Dropped(h), Handed(h));
      FrameConserves(h);
      HeardSnoc(h);
      Regroup(Flatten(Lots(before)), Dropped(h).GetOr([]), Handed(h).GetOr([]), Buffered(h),
              Buffered(before), Heard([h[|h| - 1]]));
    }
  }

  /** The lots that are not discards are exactly the started turns. */
  lemma {:induction false} StartedAreTurns(h: seq<Arrival>)
    ensures StartedOf(Lots(h)) == Turns(h)
  {
    if h != [] {
      StartedAreTurns(h[..|h| - 1]);
      SettleAdds(Lots(h[..|h| - 1]), Dropped(h), Handed(h));
    }
  }

  /** Frame `j` adds to the utterance that starts at `from`: at the frame itself if it barges in. */
  ghost predicate StartsAt(h: seq<Arrival>, j: nat, from: nat)
    requires j < |h|
  {
    if BargesIn(h[j]) then from == j else IsOpen(h[..j], from)
  }

  /** The last turn of a run of frames that ends in a final chunk. */
  lemma LastTurn(h: seq<Arrival>, from: nat)
    requires h != [] && Completes(h[|h| - 1]) && StartsAt(h, |h| - 1, from)
    ensures var before := Turns(h[..|h| - 1]); Turns(h) == before + [Heard(h[from..])]
  {
    if !BargesIn(h[|h| - 1]) {
      OpenIsUnique(h[..|h| - 1], from);
    }
  }

  /**
   Turn t is started by the final chunk with t final ones before it, and holds the decoded chunks from
   there back to just after the final chunk before, or back to a barge-in since then.
   */
  lemma {:induction false} TurnHoldsItsUtterance(h: seq<Arrival>, j: nat, from: nat)
    requires j < |h| && Completes(h[j]) && StartsAt(h, j, from)
    ensures |Turns(h[..j])| < |Turns(h)| && from <= j
    ensures Turns(h)[|Turns(h[..j])|] == Heard(h[from..j + 1])
  {
    var before, last := h[..|h| - 1], |h| - 1;
    if j == last {
      LastTurn(h, from);
      assert h[from..j + 1] == h[from..];
    } else {
      assert before[..j] == h[..j] && before[from..j + 1] == h[from..j + 1];
      TurnHoldsItsUtterance(before, j, from);
      TurnsGrow(h);
    }
  }

  lemma TurnsGrow(h: seq<Arrival>)
    requires h != []
    ensures Turns(h[..|h| - 1]) <= Turns(h)
  {
  }

  /** And there are no other turns. */
  lemma {:induction false} TurnHasItsFinalChunk(h: seq<Arrival>, t: nat) returns (j: nat)
    requires t < |Turns(h)|
    ensures j < |h| && Completes(h[j]) && |Turns(h[..j])| == t
  {
    j := |h| - 1;
    if t < |Turns(h[..j])| {
      var before := h[..j];
      j := TurnHasItsFinalChunk(before, t);
      assert before[..j] == h[..j];
    }
  }

  /** The buffer and the turns after one more frame, from those before it. */
  lemma FrameHandled(h: seq<Arrival>, a: Arrival)
    ensures var heard := (if BargesIn(a) then [] else Buffered(h))
                         + if a.message.Audio? && a.message.payload.Some? then [a.message.payload.value] else [];
            && Buffered(h + [a]) == (if Completes(a) then [] else heard)
            && Turns(h + [a]) == Turns(h) + if Completes(a) then [heard] else []
  {
    var g, m := h + [a], a.message;
    assert g[..|h|] == h && g[|h|] == a;
    HeardSince(g);
    BufferedStep(g);
    assert [a][..0] == [];
    assert Heard([a]) == if m.Audio? && m.payload.Some? then [m.payload.value] else [];
  }

  /** The frames the loop reads: it stops once the session has expired, and after a session end. */
  function Served(arrivals: seq<Arrival>): (served: seq<Arrival>)
    ensures served <= arrivals
    ensures forall i :: 0 <= i < |served| ==> !served[i].expired
    ensures forall i :: 0 <= i < |served| - 1 ==> !served[i].message.SessionEnd?
    ensures || |served| == |arrivals| || arrivals[|served|].expired
            || (served != [] && served[|served| - 1].message.SessionEnd?)
  {
    if arrivals == [] || arrivals[0].expired then []
    else if arrivals[0].message.SessionEnd? then [arrivals[0]]
    else [arrivals[0]] + Served(arrivals[1..])
  }

  lemma ServedStep(arrivals: seq<Arrival>, k: nat, done: seq<Arrival>)
    requires k < |arrivals| && !arrivals[k].expired
    ensures done + Served(arrivals[k..]) ==
              done + [arrivals[k]] + if arrivals[k].message.SessionEnd? then [] else Served(arrivals[k + 1..])
  {
    assert arrivals[k..][1..] == arrivals[k + 1..];
  }

  /** At the end of the frames, or once the session has expired, nothing more is read. */
  lemma ServedEnd(arrivals: seq<Arrival>, k: nat)
    requires k == |arrivals| || (k < |arrivals| && arrivals[k].expired)
    ensures Served(arrivals[k..]) == []
  {
  }

  type TaskId = nat

  class VoiceWebSocketHandler {
    var utterance: seq<Chunk>
    var turnTask: Option<TaskId>

    /** The turns the event loop is running. */
    var live: set<TaskId>
    /** The chunks each turn was started with. */
    var turns: seq<seq<Chunk>>
    ghost var history: seq<Arrival>

    /** The event loop runs no turn but the current one, which is the last one started. */
    ghost predicate OneTurn()
      reads this
    {
      && (forall t :: t in live ==> turnTask == Some(t))
      && (turnTask.Some? ==> turnTask.value + 1 == |turns|)
    }

    ghost predicate Valid()
      reads this
    {
      && OneTurn()
      && utterance == Buffered(history)
      && turns == Turns(history)
    }

    constructor ()
      ensures Valid() && history == [] && live == {}
    {
      utterance, turnTask, live, turns, history := [], None, {}, [], [];
    }

    /** At most one turn is in flight, and it is the last one started. */
    lemma AtMostOneTurn()
      requires Valid()
      ensures |live| <= 1
      ensures forall t :: t in live ==> t + 1 == |turns|
    {
      if t :| t in live {
        assert live == {t};
      }
    }

    /** Cancels the turn in flight and waits for it to end. */
    method CancelPendingTurn()
      requires OneTurn()
      modifies this`turnTask, this`live
      ensures OneTurn() && turnTask == None && live == {}
    {
      var task := turnTask;
      turnTask := None;
      if task == None || task.value !in live {
        return;
      }
      live := live - {task.value};
    }

    method HandleAudioIn(payload: Option<Chunk>, final: bool)
      requires OneTurn()
      modifies this`utterance, this`turnTask, this`live, this`turns
      ensures OneTurn()
      ensures var heard := old(utterance) + if payload.Some? then [payload.value] else [];
              if payload.Some? && final
              then
                && utterance == [] && turns == old(turns) + [heard]
                && turnTask == Some(|old(turns)|) && live == {|old(turns)|}
              else utterance == heard && turns == old(turns) && turnTask == old(turnTask) && live == old(live)
    {
      if payload.None? {
        return;
      }
      utterance := utterance + [payload.value];
      if !final {
        return;
      }
      var chunks := utterance;
      utterance := [];
      CancelPendingTurn();
      turnTask := Some(|turns|);
      live := live + {|turns|};
      turns := turns + [chunks];
    }

    /** One pass of the receive loop. */
    method Receive(a: Arrival) returns (stop: bool)
      requires Valid()
      modifies this
      ensures Valid() && history == old(history) + [a]
      ensures stop <==> a.message.SessionEnd?
      ensures Completes(a) ==> live == {|old(turns)|}
      ensures !Completes(a) ==> live <= old(live) && turns == old(turns)
      ensures var m := a.message;
              var kept := if m.Interrupt? || (m.Audio? && a.turnActive) then [] else old(utterance);
              var heard := kept + if m.Audio? && m.payload.Some? then [m.payload.value] else [];
              if m.Audio? && m.payload.Some? && m.final then utterance == [] && turns == old(turns) + [heard]
              else utterance == heard && turns == old(turns)
    {
      FrameHandled(history, a);
      history := history + [a];
      stop := a.message.SessionEnd?;
      if a.turnEnded {
        live := {};
      }
      if BargesIn(a) {
        utterance := [];
      }
      if a.message.Audio? {
        HandleAudioIn(a.message.payload, a.message.final);
      }
    }

    /** The whole connection: every frame up to a session end, an expiry or the disconnect; then a last cancellation. */
    method Run(arrivals: seq<Arrival>)
      requires Valid() && history == []
      modifies this
      ensures Valid() && live == {} && turnTask == None
      ensures history == Served(arrivals)
    {
      var i, stop := 0, false;
      while i < |arrivals| && !stop && !arrivals[i].expired
        invariant i <= |arrivals| && Valid()
        invariant Served(arrivals) == history + if stop then [] else Served(arrivals[i..])
      {
        ServedStep(arrivals, i, history);
        stop := Receive(arrivals[i]);
        i := i + 1;
      }
      if !stop {
        ServedEnd(arrivals, i);
      }
      CancelPendingTurn();
    }
  }
}
