/**
 The frames of one chat stream: what the provider's events ask for, what the client is sent, and how
 a replay of the stored row compares with the original run.
 */
module ChatFrames {
  import opened Wrappers
  import opened ChatRows
  import opened TurnProtocol

  datatype StreamEvent = Chunk(content: string, finish: Option<string>) | Raise

  datatype Frame = Start | Delta(text: string) | End(finish: string) | ErrorFrame

  function Text(events: seq<StreamEvent>): string {
    if events == [] then ""
    else Text(events[..|events| - 1]) + (if events[|events| - 1].Chunk? then events[|events| - 1].content else "")
  }

  /** The last non-empty finish reason, or `stop`. */
  function FinishOf(events: seq<StreamEvent>): string {
    if events == [] then "stop"
    else
      var e := events[|events| - 1];
      if e.Chunk? && e.finish.Some? && e.finish.value != "" then e.finish.value
      else FinishOf(events[..|events| - 1])
  }

  function Joined(frames: seq<Frame>): string {
    if frames == [] then ""
    else Joined(frames[..|frames| - 1]) + (if frames[|frames| - 1].Delta? then frames[|frames| - 1].text else "")
  }

  predicate AllDeltas(frames: seq<Frame>) {
    forall f :: f in frames ==> f.Delta? && f.text != ""
  }

  /** One start, then deltas, then at most one terminal frame and nothing after it. */
  predicate WellFormed(frames: seq<Frame>) {
    && |frames| >= 1 && frames[0].Start?
    && forall i :: 1 <= i < |frames| ==>
         frames[i].Delta? || (i == |frames| - 1 && (frames[i].End? || frames[i].ErrorFrame?))
  }

  /** The frame, if any, that closes a stream which stored `o`. */
  function Closing(o: Outcome): seq<Frame> {
    match o.status
    case Complete => [End(if o.finish.Some? then o.finish.value else "stop")]
    case Error => [ErrorFrame]
    case Interrupted => []
  }

  /** The stream stops before event k: every poll up to k found the client there and no event raised. */
  predicate Undisturbed(events: seq<StreamEvent>, gone: nat -> bool, k: nat)
    requires k <= |events|
  {
    forall j: nat :: j < k ==> !gone(j) && events[j].Chunk?
  }

  /** What a stream must store for these provider events and this client. */
  ghost predicate Stores(events: seq<StreamEvent>, gone: nat -> bool, o: Outcome) {
    exists k: nat :: StoresAt(events, gone, o, k)
  }

  ghost predicate StoresAt(events: seq<StreamEvent>, gone: nat -> bool, o: Outcome, k: nat) {
    && k <= |events| && Undisturbed(events, gone, k) && o.content == Text(events[..k])
    && if gone(k) then o.status == Interrupted && o.finish == Some("interrupted")
       else if k < |events| then events[k].Raise? && o.status == Error && o.finish == None
       else if o.content == "" then o.status == Error && o.finish == None
       else o.status == Complete && o.finish == Some(FinishOf(events))
  }

  /**
   The stream stops before event `k`: up to there the client was there and no event raised, and then the
   client has gone, the provider has ended, or it raises.
   */
  predicate StopsAt(events: seq<StreamEvent>, gone: nat -> bool, k: nat) {
    k <= |events| && Undisturbed(events, gone, k) && (gone(k) || k == |events| || events[k].Raise?)
  }

  predicate CarriesText(e: StreamEvent) {
    e.Chunk? && e.content != ""
  }

  /** `at` lists, in order, the events before `k` that carry text; `deltas` has the text of each of them. */
  ghost predicate SentFrom(deltas: seq<Frame>, events: seq<StreamEvent>, k: nat, at: seq<nat>)
    requires k <= |events|
  {
    && |at| == |deltas|
    && (forall j :: 0 <= j < |at| ==> at[j] < k && SentAs(deltas[j], events[at[j]]))
    && (forall i, j :: 0 <= i < j < |at| ==> at[i] < at[j])
    && (forall i: nat :: i < k && CarriesText(events[i]) ==> i in at)
  }

  predicate SentAs(f: Frame, e: StreamEvent) {
    CarriesText(e) && f == Delta(e.content)
  }

  /** One more event read. */
  lemma SentNext(deltas: seq<Frame>, events: seq<StreamEvent>, k: nat, at: seq<nat>)
    requires k < |events| && events[k].Chunk? && SentFrom(deltas, events, k, at)
    ensures if CarriesText(events[k])
            then SentFrom(deltas + [Delta(events[k].content)], events, k + 1, at + [k])
            else SentFrom(deltas, events, k + 1, at)
  {
    if CarriesText(events[k]) {
      assert (at + [k])[|at|] == k;
      assert forall i :: i in at ==> i in at + [k];
    }
  }

  /** The event read last, with text and without. */
  lemma LastSent(deltas: seq<Frame>, events: seq<StreamEvent>, k: nat, at: seq<nat>)
    requires 0 < k <= |events| && SentFrom(deltas, events, k, at) && CarriesText(events[k - 1])
    ensures |deltas| == |at| > 0 && deltas[|at| - 1] == Delta(events[k - 1].content)
    ensures SentFrom(deltas[..|at| - 1], events, k - 1, at[..|at| - 1])
  {
    assert k - 1 in at;
    var n := |at| - 1;
    assert SentAs(deltas[n], events[at[n]]) && at[n] == k - 1;
    forall i: nat | i < k - 1 && CarriesText(events[i])
      ensures i in at[..n]
    {
      var j :| 0 <= j < |at| && at[j] == i;
      assert at[..n][j] == i;
    }
    forall j | 0 <= j < n
      ensures at[j] < k - 1 && SentAs(deltas[j], events[at[j]])
    {
      assert at[j] < at[n];
    }
  }

  lemma LastNotSent(deltas: seq<Frame>, events: seq<StreamEvent>, k: nat, at: seq<nat>)
    requires 0 < k <= |events| && SentFrom(deltas, events, k, at) && !CarriesText(events[k - 1])
    ensures SentFrom(deltas, events, k - 1, at)
  {
    forall j | 0 <= j < |at|
      ensures at[j] < k - 1 && SentAs(deltas[j], events[at[j]])
    {
      assert SentAs(deltas[j], events[at[j]]);
    }
  }

  lemma SameLast<T>(a: seq<T>, b: seq<T>)
    requires a != [] && b != [] && a[..|a| - 1] == b[..|b| - 1] && a[|a| - 1] == b[|b| - 1]
    ensures a == b
  {
    assert a == a[..|a| - 1] + [a[|a| - 1]] && b == b[..|b| - 1] + [b[|b| - 1]];
  }

  /** So the deltas are determined by what was read. */
  lemma {:induction false} SentIsUnique(a: seq<Frame>, b: seq<Frame>, events: seq<StreamEvent>, k: nat,
                                        i: seq<nat>, j: seq<nat>)
    requires k <= |events| && SentFrom(a, events, k, i) && SentFrom(b, events, k, j)
    ensures a == b
    decreases k
  {
    if k > 0 {
      if CarriesText(events[k - 1]) {
        LastSent(a, events, k, i);
        LastSent(b, events, k, j);
        SentIsUnique(a[..|i| - 1], b[..|j| - 1], events, k - 1, i[..|i| - 1], j[..|j| - 1]);
        SameLast(a, b);
      } else {
        LastNotSent(a, events, k, i);
        LastNotSent(b, events, k, j);
        SentIsUnique(a, b, events, k - 1, i, j);
      }
    }
  }

  predicate GivesReason(e: StreamEvent) {
    e.Chunk? && e.finish.Some? && e.finish.value != ""
  }

  /** Event `i` gives the last reason. */
  predicate LastReasonAt(events: seq<StreamEvent>, i: nat) {
    && i < |events| && GivesReason(events[i])
    && forall j: nat :: i < j < |events| ==> !GivesReason(events[j])
  }

  /** `finish` is the last reason given, or `stop` when none is. */
  ghost predicate IsReason(events: seq<StreamEvent>, finish: string) {
    || (finish == "stop" && forall i: nat :: i < |events| ==> !GivesReason(events[i]))
    || exists i: nat :: LastReasonAt(events, i) && events[i].finish.value == finish
  }

  lemma ReasonStays(events: seq<StreamEvent>, e: StreamEvent, finish: string)
    requires IsReason(events, finish) && !GivesReason(e)
    ensures IsReason(events + [e], finish)
  {
    if i: nat :| LastReasonAt(events, i) && events[i].finish.value == finish {
      assert LastReasonAt(events + [e], i);
    }
  }

  lemma {:induction false} FinishIsLastReason(events: seq<StreamEvent>)
    ensures IsReason(events, FinishOf(events))
  {
    if events != [] {
      var before, e := events[..|events| - 1], events[|events| - 1];
      FinishIsLastReason(before);
      if GivesReason(e) {
        assert LastReasonAt(events, |events| - 1);
      } else {
        ReasonStays(before, e, FinishOf(before));
        assert events == before + [e];
      }
    }
  }

  /** A stored outcome is determined by the provider events and the client. */
  lemma StoresIsUnique(events: seq<StreamEvent>, gone: nat -> bool, a: Outcome, b: Outcome)
    requires Stores(events, gone, a) && Stores(events, gone, b)
    ensures a == b
  {
    var i: nat :| StoresAt(events, gone, a, i);
    var j: nat :| StoresAt(events, gone, b, j);
  }

  /** What the read loop has done before event `i`. */
  ghost predicate Reading(events: seq<StreamEvent>, gone: nat -> bool, i: nat, deltas: seq<Frame>, at: seq<nat>,
                          collected: string, finish: string)
  {
    && i <= |events| && Undisturbed(events, gone, i) && SentFrom(deltas, events, i, at)
    && collected == Text(events[..i]) && finish == FinishOf(events[..i])
    && AllDeltas(deltas) && Joined(deltas) == collected
  }

  lemma TextNext(events: seq<StreamEvent>, i: nat, deltas: seq<Frame>)
    requires i < |events| && events[i].Chunk?
    ensures var e := events[i];
            && Text(events[..i + 1]) == Text(events[..i]) + e.content
            && FinishOf(events[..i + 1]) == (if GivesReason(e) then e.finish.value else FinishOf(events[..i]))
            && Joined(deltas + [Delta(e.content)]) == Joined(deltas) + e.content
  {
    assert events[..i + 1][..i] == events[..i];
    assert (deltas + [Delta(events[i].content)])[..|deltas|] == deltas;
  }

  lemma ReadingNext(events: seq<StreamEvent>, gone: nat -> bool, i: nat, deltas: seq<Frame>, at: seq<nat>,
                    collected: string, finish: string)
    requires Reading(events, gone, i, deltas, at, collected, finish)
    requires i < |events| && !gone(i) && events[i].Chunk?
    ensures var e := events[i];
            var finish' := if GivesReason(e) then e.finish.value else finish;
            if e.content == "" then Reading(events, gone, i + 1, deltas, at, collected, finish')
            else
              Reading(events, gone, i + 1, deltas + [Delta(e.content)], at + [i], collected + e.content, finish')
  {
    SentNext(deltas, events, i, at);
    TextNext(events, i, deltas);
    assert collected + "" == collected;
  }

  lemma StreamEnds(events: seq<StreamEvent>, gone: nat -> bool, k: nat, deltas: seq<Frame>, at: seq<nat>,
                   collected: string, finish: string)
    requires Reading(events, gone, k, deltas, at, collected, finish) && StopsAt(events, gone, k)
    ensures Stores(events, gone,
              if gone(k) then Outcome(collected, Interrupted, Some("interrupted"))
              else if k < |events| || collected == "" then Outcome(collected, Error, None)
              else Outcome(collected, Complete, Some(finish)))
    ensures collected == "" <==> deltas == []
    ensures k == |events| ==> IsReason(events, finish)
  {
    FinishIsLastReason(events);
    assert k == |events| ==> events[..k] == events;
    var o := if gone(k) then Outcome(collected, Interrupted, Some("interrupted"))
             else if k < |events| || collected == "" then Outcome(collected, Error, None)
             else Outcome(collected, Complete, Some(finish));
    assert StoresAt(events, gone, o, k);
  }

  lemma {:induction false} JoinedConcat(a: seq<Frame>, b: seq<Frame>)
    ensures Joined(a + b) == Joined(a) + Joined(b)
  {
    if b == [] {
      assert a + b == a;
    } else {
      assert (a + b)[..|a + b| - 1] == a + b[..|b| - 1];
      JoinedConcat(a, b[..|b| - 1]);
    }
  }

  /** The stream a retry of a streaming request gets for the row it found. */
  function ReplayFrames(reply: Option<Message>): (frames: seq<Frame>)
    ensures WellFormed(frames)
  {
    var text := if reply.Some? then reply.value.content else "";
    var finish := if reply.Some? && reply.value.finish.Some? && reply.value.finish.value != ""
                  then reply.value.finish.value else "stop";
    [Start] + (if text != "" then [Delta(text)] else []) + [End(finish)]
  }

  lemma JoinedOne(f: Frame)
    ensures Joined([f]) == if f.Delta? then f.text else ""
  {
    assert [f][..0] == [];
  }

  /** Start and closing frames carry no text. */
  lemma OriginalText(deltas: seq<Frame>, o: Outcome)
    ensures Joined([Start] + deltas + Closing(o)) == Joined(deltas)
  {
    JoinedConcat([Start] + deltas, Closing(o));
    JoinedConcat([Start], deltas);
    JoinedOne(Start);
    if o.status != Interrupted {
      JoinedOne(Closing(o)[0]);
    }
  }

  lemma ReplayText(content: string, finish: string)
    ensures var middle := if content != "" then [Delta(content)] else [];
            Joined([Start] + middle + [End(finish)]) == content
  {
    var middle := if content != "" then [Delta(content)] else [];
    JoinedConcat([Start] + middle, [End(finish)]);
    JoinedConcat([Start], middle);
    JoinedOne(Start);
    JoinedOne(End(finish));
    JoinedOne(Delta(content));
  }

  /** A completed stream has stored a finish reason that is not empty. */
  lemma CompleteHasFinish(events: seq<StreamEvent>, gone: nat -> bool, o: Outcome)
    requires Stores(events, gone, o) && o.status == Complete
    ensures o.finish.Some? && o.finish.value != ""
  {
    FinishIsLastReason(events);
  }

  lemma ReplayCloses(o: Outcome, n: nat, author: nat)
    requires o.status == Complete ==> o.finish.Some? && o.finish.value != ""
    ensures var replay := ReplayFrames(Some(ReplyRow(n, o.content, o.status, o.finish, author)));
            replay[|replay| - 1..] == Closing(o) <==> o.status == Complete
  {
    var finish := if o.finish.Some? && o.finish.value != "" then o.finish.value else "stop";
    var replay := ReplayFrames(Some(ReplyRow(n, o.content, o.status, o.finish, author)));
    assert replay[|replay| - 1..] == [End(finish)];
  }

  /**
   A replay always sends the stored text, and closes with `end`. So it closes as the original run did
   exactly when that run completed: an errored or interrupted turn is replayed as a finished one.
   */
  lemma ReplayMatchesOriginal(events: seq<StreamEvent>, gone: nat -> bool, o: Outcome,
                              deltas: seq<Frame>, n: nat, author: nat)
    requires Stores(events, gone, o) && Joined(deltas) == o.content
    ensures var original := [Start] + deltas + Closing(o);
            var replay := ReplayFrames(Some(ReplyRow(n, o.content, o.status, o.finish, author)));
            && Joined(replay) == Joined(original)
            && replay[|replay| - 1] == End(if o.finish.Some? && o.finish.value != "" then o.finish.value else "stop")
            && (replay[|replay| - 1..] == Closing(o) <==> o.status == Complete)
  {
    if o.status == Complete {
      CompleteHasFinish(events, gone, o);
    }
    OriginalText(deltas, o);
    ReplayText(o.content, if o.finish.Some? && o.finish.value != "" then o.finish.value else "stop");
    ReplayCloses(o, n, author);
  }

  /** A stream whose provider fails at once stores an empty errored row, and its replay closes with `end`. */
  lemma FailedStreamIsReplayed(n: nat, author: nat)
    ensures var o := Outcome("", Error, None);
            && Stores([Raise], _ => false, o) && Closing(o) == [ErrorFrame]
            && ReplayFrames(Some(ReplyRow(n, o.content, o.status, o.finish, author))) == [Start, End("stop")]
  {
    assert [Raise][..0] == [];
    assert StoresAt([Raise], _ => false, Outcome("", Error, None), 0);
  }
}
