/**
 The chat store over one database session, and the turn methods of the chat service, in the form the
 services have. Each method is proved to follow `TurnProtocol`: the ghost state it returns is reached
 by a schedule of that machine, so what is proved of the machine holds of the method's result.
 */
module TurnStore {
  import opened Wrappers
  import opened ChatRows
  import opened TurnProtocol
  import opened TurnGuarantees
  import opened TurnSchedules
  import opened ChatFrames

  /** `saved` is the committed session; the other fields are the session as this transaction sees it. */
  class SqlChatStore {
    var nextSeq: nat
    var rows: seq<Message>
    var summaries: seq<Summary>
    var saved: Db

    ghost function View(): Db
      reads this
    {
      Db(nextSeq, rows, summaries)
    }

    constructor (db: Db)
      ensures View() == db && saved == db
    {
      nextSeq, rows, summaries, saved := db.nextSeq, db.rows, db.summaries, db;
    }

    method AllocateSeq() returns (n: nat)
      modifies this`nextSeq
      ensures n == old(nextSeq) && nextSeq == n + 1
    {
      n := nextSeq;
      nextSeq := n + 1;
    }

    /** Insert a row unless a unique index forbids it. */
    method AddMessage(m: Message) returns (ok: bool)
      modifies this`rows
      ensures ok <==> !Clashes(old(rows), m)
      ensures ok <==> forall r :: r in old(rows) ==> r.seqNo != m.seqNo && (m.key.Some? ==> r.key != m.key)
      ensures rows == if ok then old(rows) + [m] else old(rows)
    {
      ok := !Clashes(rows, m);
      if ok {
        rows := rows + [m];
      }
    }

    method FindByClientMessageId(key: string) returns (r: Option<Message>)
      ensures r == FindByKey(rows, key)
    {
      r := FindByKey(rows, key);
    }

    method GetMessageBySeq(n: nat) returns (r: Option<Message>)
      ensures r == BySeq(rows, n)
    {
      r := BySeq(rows, n);
    }

    method ListMessagesAfterSeq(n: nat) returns (r: seq<Message>)
      ensures r == After(rows, n)
    {
      r := After(rows, n);
    }

    method GetLatestSummary() returns (r: Option<Summary>)
      ensures r == Latest(summaries)
    {
      r := Latest(summaries);
    }

    method AddSummary(z: Summary) returns (ok: bool)
      modifies this`summaries
      ensures ok <==> !VersionTaken(old(View()), z)
      ensures ok <==> forall y :: y in old(summaries) ==> y.version != z.version
      ensures summaries == if ok then old(summaries) + [z] else old(summaries)
    {
      ok := !VersionTaken(Db(nextSeq, rows, summaries), z);
      if ok {
        summaries := summaries + [z];
      }
    }

    method DeleteSummariesForSession() returns (removed: nat)
      modifies this`summaries
      ensures removed == |old(summaries)| && summaries == []
    {
      removed := |summaries|;
      summaries := [];
    }

    method Commit()
      modifies this`saved
      ensures saved == View()
    {
      saved := Db(nextSeq, rows, summaries);
    }

    method Rollback()
      modifies this`nextSeq, this`rows, this`summaries
      ensures View() == saved
    {
      nextSeq, rows, summaries := saved.nextSeq, saved.rows, saved.summaries;
    }

    /** The row lock is granted: the transaction now sees what others have committed meanwhile. */
    method Refresh(db: Db)
      modifies this
      ensures View() == db && saved == db
    {
      nextSeq, rows, summaries, saved := db.nextSeq, db.rows, db.summaries, db;
    }

    /** A later statement sees what deletions have left of the committed summaries, and the transaction's own. */
    method SeeSummaries(committed: seq<Summary>)
      requires |saved.summaries| <= |summaries|
      modifies this`summaries, this`saved
      ensures summaries == committed + old(summaries[|saved.summaries|..])
      ensures saved == old(saved).(summaries := committed)
    {
      summaries := committed + summaries[|saved.summaries|..];
      saved := saved.(summaries := committed);
    }

    /** A transaction that has deleted summaries, `gone` of which others have not, sees what others have committed. */
    method SeeWithout(db: Db, gone: nat)
      requires gone <= |db.summaries|
      modifies this
      ensures View() == db.(summaries := db.summaries[gone..]) && saved == db
    {
      nextSeq, rows, summaries, saved := db.nextSeq, db.rows, db.summaries[gone..], db;
    }
  }

  /** The committed summaries that each of a turn's remaining statements sees. */
  type Sightings = nat -> seq<Summary>

  datatype ChatError = DbUnavailable | ProviderFailed

  /** What `prepare_stream` and the first half of `complete_chat` end in. */
  datatype Start = Replay(reply: Option<Message>) | Appended | Unavailable

  /** The provider's answer to a blocking request. */
  datatype Answer = Reply(content: string, finish: Option<string>) | Raised

  /** White space as `str.strip` sees it. */
  predicate IsSpace(c: char): (space: bool)
    ensures c < '\U{0080}' ==>
              (space <==> c in {' ', '\t', '\n', '\r', '\U{000B}', '\U{000C}',
                                '\U{001C}', '\U{001D}', '\U{001E}', '\U{001F}'})
  {
    || '\t' <= c <= '\r' || '\U{001C}' <= c <= ' ' || '\U{2000}' <= c <= '\U{200A}'
    || c in {'\U{0085}', '\U{00A0}', '\U{1680}', '\U{2028}', '\U{2029}', '\U{202F}', '\U{205F}', '\U{3000}'}
  }

  predicate IsBlank(s: string) {
    forall c :: c in s ==> IsSpace(c)
  }

  function OutcomeOf(answer: Answer): Outcome {
    if answer.Reply? && !IsBlank(answer.content) then Outcome(answer.content, Complete, answer.finish)
    else Outcome("", Error, None)
  }

  /** What a request is told once its turn has stored `o`, and what a retry is told for a stored row. */
  function ResultOf(o: Outcome): Result<string, ChatError> {
    if o.status == Complete then Ok(o.content) else Err(ProviderFailed)
  }

  function ReplayResult(reply: Message): Result<string, ChatError> {
    Ok(reply.content)
  }

  /**
   The summaries after a complete turn: what is left of the stored ones and, when enough messages are
   pending after the latest one it saw and there is a text, one more.
   */
  function Summaries(rows: seq<Message>, threshold: int, text: Option<string>, seen: Sightings): seq<Summary> {
    var latest := Latest(seen(3));
    var tail := After(rows, Covered(latest));
    if |tail| < threshold then seen(5)
    else if text.None? || tail == [] then seen(6)
    else seen(6) + [NextSummary(latest, tail, text.value)]
  }

  /** The session once turn `t`, whose user row is in `db`, has stored its reply and summarised. */
  function Finished(db: Db, t: nat, o: Outcome, threshold: int, text: Option<string>, seen: Sightings): Db {
    var n := db.nextSeq;
    var rows := db.rows + [ReplyRow(n, o.content, o.status, o.finish, t)];
    Db(n + 1, rows, if o.status == Complete then Summaries(rows, threshold, text, seen) else seen(3))
  }

  /** The session as turn `t` sees it with its user row on top of `db`. */
  function WithUserRow(db: Db, t: nat, req: Request): Db {
    Db(db.nextSeq + 1, db.rows + [UserRow(db.nextSeq, req.prompt, req.key, t)], db.summaries)
  }

  /** The session once turn `t` has committed on top of `db`. */
  function TurnCommitted(db: Db, t: nat, req: Request, o: Outcome, threshold: int, text: Option<string>,
                         seen: Sightings): Db {
    Finished(WithUserRow(db, t, req), t, o, threshold, text, seen)
  }

  /** Field by field: the rows a committed turn has added are its user's message and its outcome. */
  lemma TurnRows(db: Db, t: nat, req: Request, o: Outcome, threshold: int, text: Option<string>, seen: Sightings)
    ensures var db', n := TurnCommitted(db, t, req, o, threshold, text, seen), |db.rows|;
            && |db'.rows| == n + 2 && db'.rows[..n] == db.rows && db'.nextSeq == db.nextSeq + 2
            && db'.rows[n] == Message(db.nextSeq, User, req.prompt, Complete, None, req.key, t)
            && db'.rows[n + 1] == Message(db.nextSeq + 1, Assistant, o.content, o.status, o.finish, None, t)
  {
  }

  /** The statements see the committed summaries of the machine, step by step. */
  ghost predicate Sees(seen: Sightings, s: State, p: Plan) {
    forall n {:trigger seen(n)} :: seen(n) == Walk(s, p, n).db.summaries
  }

  /** The machine once turn `t` has stored its user row. */
  function Begun(granted: State, t: nat): State {
    Try(Try(granted, Call(t)), Call(t))
  }

  /**
   End to end: whatever happened between a streamed turn and a retry with its key, the retry is sent
   the text the first client was sent, and it closes the same way exactly when that turn completed.
   */
  lemma RetriedStream(s: State, t: nat, u: nat, events: seq<StreamEvent>, gone: nat -> bool, o: Outcome,
                      deltas: seq<Frame>)
    requires Reachable(s) && t in s.turns && u in s.turns
    requires s.turns[t].pc.Done? && s.turns[u].pc.Replied?
    requires s.turns[t].req.key.Some? && s.turns[t].req.key == s.turns[u].req.key
    requires Stores(events, gone, o) && Joined(deltas) == o.content
    requires |s.turns[t].rows| == 2 && exists n :: s.turns[t].rows[1] == ReplyRow(n, o.content, o.status, o.finish, t)
    ensures var replay := ReplayFrames(s.turns[u].pc.reply);
            && Joined(replay) == Joined([Start] + deltas + Closing(o))
            && (replay[|replay| - 1..] == Closing(o) <==> o.status == Complete)
  {
    ReplayAnswersWithStoredReply(s, t, u);
    var n :| s.turns[t].rows[1] == ReplyRow(n, o.content, o.status, o.finish, t);
    ReplayMatchesOriginal(events, gone, o, deltas, n, t);
  }

  /**
   The blocking counterpart: a retry is told the stored text, so it is told what the first client was
   told exactly when that turn completed. A turn that failed is replayed as an answer with its stored text.
   */
  lemma RetriedReply(s: State, t: nat, u: nat, o: Outcome)
    requires Reachable(s) && t in s.turns && u in s.turns
    requires s.turns[t].pc.Done? && s.turns[u].pc.Replied?
    requires s.turns[t].req.key.Some? && s.turns[t].req.key == s.turns[u].req.key
    requires |s.turns[t].rows| == 2 && exists n :: s.turns[t].rows[1] == ReplyRow(n, o.content, o.status, o.finish, t)
    ensures s.turns[u].pc.reply.Some?
    ensures ReplayResult(s.turns[u].pc.reply.value) == Ok(o.content)
    ensures ReplayResult(s.turns[u].pc.reply.value) == ResultOf(o) <==> o.status == Complete
  {
    ReplayAnswersWithStoredReply(s, t, u);
  }

  /** `reply` is the row right after the one with this key. */
  ghost predicate Answers(rows: seq<Message>, key: Option<string>, reply: Message) {
    exists i :: 0 <= i < |rows| - 1 && key.Some? && rows[i].key == key && rows[i + 1] == reply
  }

  /** While a turn waited for the row lock, other requests took the machine from `s` to `s'`. */
  ghost predicate Waited(s: State, t: nat, s': State) {
    Leads(s, s') && s'.lock == None && t in s.turns && t in s'.turns && s'.turns[t] == s.turns[t]
    && s'.threshold == s.threshold
  }

  /** The machine after a request has begun and looked its key up. */
  ghost function LookedUp(s: State, t: nat, req: Request): State
    requires t !in s.turns
  {
    var begun := Next(s, Begin(t, req));
    if req.key.None? then begun
    else
      var found := Next(begun, Call(t));
      if found.turns[t].pc.Fetch? then Next(found, Call(t)) else found
  }

  /** The session as turn `t` sees it. */
  ghost function TurnView(s: State, t: nat): Db
    requires t in s.turns
  {
    var x := s.turns[t];
    Db(if x.pc.Holding() then x.next else s.db.nextSeq, s.db.rows + x.rows,
       s.db.summaries + if x.summary.Some? then [x.summary.value] else [])
  }

  lemma FindStep(s: State, t: nat)
    requires Reachable(s) && t in s.turns && s.turns[t].pc.Find?
    ensures var s', prior := Next(s, Call(t)), FindByKey(s.db.rows, s.turns[t].pc.wanted);
            Reachable(s') && s'.turns[t].pc == if prior.Some? then Fetch(prior.value) else AllocUser
  {
    StepReachable(s, Call(t));
    ReachableTurn(s, t);
    assert s.db.rows + s.turns[t].rows == s.db.rows;
  }

  lemma FetchStep(s: State, t: nat)
    requires Reachable(s) && t in s.turns && s.turns[t].pc.Fetch?
    ensures var s', reply := Next(s, Call(t)), BySeq(s.db.rows, s.turns[t].pc.prior.seqNo + 1);
            Reachable(s') && reply.Some? && s'.turns[t].pc == Replied(reply)
  {
    StepReachable(s, Call(t));
    ReachableInv(s);
    FetchKeeps(s, t);
    assert s.db.rows + s.turns[t].rows == s.db.rows;
    PriorHasReply(s, s.turns[t].pc.prior);
  }

  lemma RepliedWithNext(s: State, t: nat)
    requires Reachable(s) && t in s.turns && s.turns[t].pc.Replied?
    ensures s.turns[t].pc.reply.Some? && Answers(s.db.rows, s.turns[t].req.key, s.turns[t].pc.reply.value)
  {
    ReachableTurn(s, t);
  }

  lemma LookUpSteps(s: State, t: nat, req: Request)
    requires Reachable(s) && t !in s.turns
    ensures var s' := LookedUp(s, t, req);
            && Reachable(s') && s'.db == s.db && s'.threshold == s.threshold && s'.lock == s.lock
            && TurnView(s', t) == s.db
    ensures var x := LookedUp(s, t, req).turns[t];
            && x.req == req && (x.pc == AllocUser || x.pc.Replied?)
            && match req.key
               case None => x.pc == AllocUser
               case Some(key) =>
                 match FindByKey(s.db.rows, key)
                 case None => x.pc == AllocUser
                 case Some(prior) =>
                   BySeq(s.db.rows, prior.seqNo + 1).Some? && x.pc == Replied(BySeq(s.db.rows, prior.seqNo + 1))
  {
    var begun := Next(s, Begin(t, req));
    StepReachable(s, Begin(t, req));
    if req.key.Some? {
      FindStep(begun, t);
      var found := Next(begun, Call(t));
      if found.turns[t].pc.Fetch? {
        FetchStep(found, t);
      }
    }
    assert s.db.rows + [] == s.db.rows && s.db.summaries + [] == s.db.summaries;
  }

  lemma AllocStep(s: State, t: nat)
    requires Reachable(s) && s.lock == None && t in s.turns && s.turns[t].pc == AllocUser
    ensures Reachable(Next(s, Call(t))) && Next(s, Call(t)).turns[t].pc == AddUser(s.db.nextSeq)
    ensures s.turns[t].rows == [] && s.turns[t].summary == None && TurnView(s, t) == s.db
  {
    StepReachable(s, Call(t));
    ReachableTurn(s, t);
    assert s.db.rows + [] == s.db.rows && s.db.summaries + [] == s.db.summaries;
  }

  /** Under the lock the user row goes in, unless a row with its key was committed meanwhile. */
  lemma InsertStep(s: State, t: nat)
    requires Reachable(s) && t in s.turns && s.turns[t].pc.AddUser?
    requires s.turns[t].rows == [] && s.turns[t].summary == None && s.turns[t].next == s.db.nextSeq + 1
    ensures Enabled(s, Call(t)) && Reachable(Next(s, Call(t)))
    ensures var req, m, s' := s.turns[t].req, Inserting(s, t), Next(s, Call(t));
            && (Clashes(s.db.rows, m) <==> req.key.Some? && FindByKey(s.db.rows, req.key.value).Some?)
            && if Clashes(s.db.rows, m) then s'.turns[t].pc == Failed && TurnView(s', t) == s.db
               else
                 && s'.turns[t].pc == Generate
                 && TurnView(s', t) == Db(s.db.nextSeq + 1, s.db.rows + [m], s.db.summaries)
  {
    InsertFailsIffDuplicate(s, t);
    StepReachable(s, Call(t));
    var x := s.turns[t];
    if x.req.key.Some? {
      var prior := FindByKey(s.db.rows, x.req.key.value);
    }
    assert s.db.rows + [] == s.db.rows && s.db.summaries + [] == s.db.summaries;
  }

  /** An open turn has no summary of its own before it is ready. */
  lemma NoSummaryYet(s: State, t: nat)
    requires Reachable(s) && t in s.turns && s.turns[t].pc.Holding() && !s.turns[t].pc.Ready?
    ensures TurnView(s, t).summaries == s.db.summaries && s.turns[t].summary == None
  {
    ReachableTurn(s, t);
    assert s.db.summaries + [] == s.db.summaries;
  }

  lemma GeneratedStep(g: State, p: Plan, n: nat)
    requires Reachable(g) && p.t in g.turns && g.turns[p.t].pc == Generate
    ensures var g' := Onward(g, p, n);
            && Stepped(g, g', p.t) && g'.turns[p.t].pc == AllocReply(p.o)
            && TurnView(g', p.t) == TurnView(g, p.t).(summaries := g'.db.summaries)
  {
    LockHeld(g, p.t);
    StepOnward(g, p, n);
    NoSummaryYet(Onward(g, p, n), p.t);
  }

  lemma AllocReplyStep(g: State, p: Plan, n: nat)
    requires Reachable(g) && p.t in g.turns && g.turns[p.t].pc == AllocReply(p.o)
    ensures var g', v := Onward(g, p, n), TurnView(g, p.t);
            && Stepped(g, g', p.t) && g'.turns[p.t].pc == AddReply(p.o, v.nextSeq)
            && TurnView(g', p.t) == Db(v.nextSeq + 1, v.rows, g'.db.summaries)
  {
    LockHeld(g, p.t);
    StepOnward(g, p, n);
    NoSummaryYet(Onward(g, p, n), p.t);
  }

  lemma AddReplyStep(g: State, p: Plan, n: nat, k: nat)
    requires Reachable(g) && p.t in g.turns && g.turns[p.t].pc == AddReply(p.o, k)
    ensures var g', v := Onward(g, p, n), TurnView(g, p.t);
            var m := ReplyRow(k, p.o.content, p.o.status, p.o.finish, p.t);
            && Stepped(g, g', p.t) && !Clashes(v.rows, m)
            && g'.turns[p.t].pc == (if p.o.status == Complete then ReadLatest else Ready(Unasked))
            && TurnView(g', p.t) == Db(v.nextSeq, v.rows + [m], g'.db.summaries)
  {
    var x, m := g.turns[p.t], Inserting(g, p.t);
    InsertFailsIffDuplicate(g, p.t);
    NoSummaryYet(g, p.t);
    StepOnward(g, p, n);
    assert g.db.rows + (x.rows + [m]) == g.db.rows + x.rows + [m];
    assert Onward(g, p, n).db.summaries + [] == Onward(g, p, n).db.summaries;
  }

  /** From the generated reply to its row. */
  lemma ReplySteps(g: State, p: Plan, i: nat)
    requires Reachable(g) && p.t in g.turns && g.turns[p.t].pc == Generate
    ensures var g', v := Onward(Onward(Onward(g, p, i + 1), p, i + 2), p, i + 3), TurnView(g, p.t);
            var m := ReplyRow(v.nextSeq, p.o.content, p.o.status, p.o.finish, p.t);
            && Stepped(g, g', p.t) && !Clashes(v.rows, m)
            && g'.turns[p.t].pc == (if p.o.status == Complete then ReadLatest else Ready(Unasked))
            && TurnView(g', p.t) == Db(v.nextSeq + 1, v.rows + [m], g'.db.summaries)
  {
    GeneratedStep(g, p, i + 1);
    var g1 := Onward(g, p, i + 1);
    AllocReplyStep(g1, p, i + 2);
    var g2 := Onward(g1, p, i + 2);
    AddReplyStep(g2, p, i + 3, TurnView(g, p.t).nextSeq);
  }

  /** While the reply was generated the others have moved. */
  lemma GeneratingView(s: State, p: Plan)
    requires Reachable(s) && p.t in s.turns && s.turns[p.t].pc == Generate
    ensures var g := Walk(s, p, 0);
            && Stepped(s, g, p.t) && g.turns[p.t].pc == Generate
            && TurnView(g, p.t) == TurnView(s, p.t).(summaries := g.db.summaries)
  {
    OthersHold(s, p.t, p.others(0));
    NoSummaryYet(Walk(s, p, 0), p.t);
  }

  lemma WalkedReply(s: State, p: Plan)
    requires Reachable(s) && p.t in s.turns && s.turns[p.t].pc == Generate
    ensures var g', v := Walk(s, p, 3), TurnView(s, p.t);
            var m := ReplyRow(v.nextSeq, p.o.content, p.o.status, p.o.finish, p.t);
            && Stepped(s, g', p.t) && !Clashes(v.rows, m) && v.summaries == s.db.summaries
            && g'.turns[p.t].pc == (if p.o.status == Complete then ReadLatest else Ready(Unasked))
            && TurnView(g', p.t) == Db(v.nextSeq + 1, v.rows + [m], g'.db.summaries)
  {
    NoSummaryYet(s, p.t);
    GeneratingView(s, p);
    ReplySteps(Walk(s, p, 0), p, 0);
    assert Walk(s, p, 1) == Onward(Walk(s, p, 0), p, 1) && Walk(s, p, 3) == Onward(Onward(Walk(s, p, 1), p, 2), p, 3);
  }

  lemma LockHeld(s: State, t: nat)
    requires Reachable(s) && t in s.turns && s.turns[t].pc.Holding()
    ensures s.lock == Some(t)
  {
    ReachableTurn(s, t);
  }

  lemma ReadLatestStep(g: State, p: Plan, n: nat)
    requires Reachable(g) && p.t in g.turns && g.turns[p.t].pc == ReadLatest
    ensures var g' := Onward(g, p, n);
            && Stepped(g, g', p.t) && g'.turns[p.t].pc == ReadTail && g'.turns[p.t].base == Latest(g.db.summaries)
            && TurnView(g', p.t) == TurnView(g, p.t).(summaries := g'.db.summaries)
  {
    StepOnward(g, p, n);
    NoSummaryYet(Onward(g, p, n), p.t);
  }

  lemma ReadTailStep(g: State, p: Plan, n: nat)
    requires Reachable(g) && p.t in g.turns && g.turns[p.t].pc == ReadTail
    ensures var g', tail := Onward(g, p, n), After(TurnView(g, p.t).rows, Covered(g.turns[p.t].base));
            && Stepped(g, g', p.t) && tail != [] && g'.turns[p.t].base == g.turns[p.t].base
            && g'.turns[p.t].pc == (if |tail| < g.threshold then Ready(NotDue) else Summarize(tail))
            && TurnView(g', p.t) == TurnView(g, p.t).(summaries := g'.db.summaries)
  {
    NoSummaryYet(g, p.t);
    ReachableTurn(g, p.t);
    TailRead(g.db, g.threshold, p.t, g.turns[p.t]);
    StepOnward(g, p, n);
    assert Onward(g, p, n).db.summaries + [] == Onward(g, p, n).db.summaries;
  }

  lemma SummarizedStep(g: State, p: Plan, n: nat)
    requires Reachable(g) && p.t in g.turns && g.turns[p.t].pc.Summarize?
    ensures var g', x := Onward(g, p, n), g.turns[p.t];
            && Stepped(g, g', p.t) && x.pc.tail != []
            && g'.turns[p.t].pc == Ready(if p.text.Some? then Written else NoText)
            && TurnView(g', p.t) == TurnView(g, p.t).(
                 summaries := g'.db.summaries +
                   if p.text.None? then [] else [NextSummary(x.base, x.pc.tail, p.text.value)])
  {
    SummaryFits(g, p.t, p.text.GetOr(""));
    ReachableInv(g);
    SummarizedKeeps(g, p.t, p.text);
    StepOnward(g, p, n);
  }

  /** From the stored reply to the decision on a summary. */
  lemma ReadSteps(g: State, p: Plan, i: nat, g': State)
    requires Reachable(g) && p.t in g.turns && g.turns[p.t].pc == ReadLatest
    requires g' == Onward(Onward(g, p, i + 1), p, i + 2)
    ensures var v := TurnView(g, p.t);
            var tail := After(v.rows, Covered(Latest(g.db.summaries)));
            && Stepped(g, g', p.t) && tail != [] && v.summaries == g.db.summaries
            && g'.turns[p.t].base == Latest(g.db.summaries)
            && g'.turns[p.t].pc == (if |tail| < g.threshold then Ready(NotDue) else Summarize(tail))
            && TurnView(g', p.t) == v.(summaries := g'.db.summaries)
  {
    NoSummaryYet(g, p.t);
    ReadLatestStep(g, p, i + 1);
    ReadTailStep(Onward(g, p, i + 1), p, i + 2);
  }

  /** The messages pending after a summary of the first rows are the rest, and its successor is of all rows. */
  lemma PendingIsRest(rows: seq<Message>, latest: Option<Summary>, text: string)
    requires forall i :: 0 <= i < |rows| ==> rows[i].seqNo == i + 1
    requires Covered(latest) < |rows| && Sources(latest) == rows[..Covered(latest)]
    ensures var tail := After(rows, Covered(latest));
            && |tail| == |rows| - Covered(latest)
            && NextSummary(latest, tail, text) ==
                 Summary(if latest.Some? then latest.value.version + 1 else 1, |rows|, text, rows)
  {
    var c := Covered(latest);
    AfterIsSuffix(rows, 0, c);
    var tail := After(rows, c);
    assert tail == rows[c..] && tail[|tail| - 1] == rows[|rows| - 1];
    SplitAt(rows, c);
  }

  /** The latest summary of a session is the last one stored, and stands for the first messages. */
  lemma LatestStands(db: Db, rows: seq<Message>)
    requires Chain(db.summaries, db.rows) && |rows| > |db.rows| && rows[..|db.rows|] == db.rows
    ensures var latest, n := Latest(db.summaries), |db.summaries|;
            && latest == (if n == 0 then None else Some(db.summaries[n - 1]))
            && Covered(latest) < |rows| && Sources(latest) == rows[..Covered(latest)]
  {
    if db.summaries != [] {
      LatestIsLast(db.summaries);
      var z := db.summaries[|db.summaries| - 1];
      assert Represents(z, db.rows);
      assert db.rows[..z.covers] == rows[..z.covers];
    }
  }

  /** A turn that has stored its reply sees the committed rows and then its own two, numbered without a gap. */
  lemma RepliedView(db: Db, threshold: int, t: nat, x: Turn)
    requires GapFree(db) && x.pc.ReadLatest? && TurnOk(db, threshold, t, x)
    ensures var rows := db.rows + x.rows;
            && |rows| > |db.rows| && rows[..|db.rows|] == db.rows
            && forall i :: 0 <= i < |rows| ==> rows[i].seqNo == i + 1
  {
  }

  /** So what is pending for it is all that its latest summary does not cover. */
  lemma PendingOfTurn(g: State, t: nat, text: string)
    requires Reachable(g) && t in g.turns && g.turns[t].pc == ReadLatest
    ensures var rows, latest, n := TurnView(g, t).rows, Latest(g.db.summaries), |g.db.summaries|;
            var tail := After(rows, Covered(latest));
            && tail != [] && |tail| == |rows| - (if n == 0 then 0 else g.db.summaries[n - 1].covers)
            && NextSummary(latest, tail, text) ==
                 Summary(if n == 0 then 1 else g.db.summaries[n - 1].version + 1, |rows|, text, rows)
  {
    ReachableTurn(g, t);
    RepliedView(g.db, g.threshold, t, g.turns[t]);
    LatestStands(g.db, TurnView(g, t).rows);
    PendingIsRest(TurnView(g, t).rows, Latest(g.db.summaries), text);
  }

  /** What a complete turn leaves of the summaries, given what is pending. */
  lemma SummariesAre(rows: seq<Message>, threshold: int, text: Option<string>, seen: Sightings, z: Summary)
    requires After(rows, Covered(Latest(seen(3)))) != []
    requires text.Some? ==> NextSummary(Latest(seen(3)), After(rows, Covered(Latest(seen(3)))), text.value) == z
    ensures Summaries(rows, threshold, text, seen) ==
              if |After(rows, Covered(Latest(seen(3))))| < threshold then seen(5)
              else if text.None? then seen(6)
              else seen(6) + [z]
  {
  }

  /** In terms of the rows and of the summaries seen. */
  lemma SummariesOfTurn(g: State, t: nat, threshold: int, text: Option<string>, seen: Sightings)
    requires Reachable(g) && t in g.turns && g.turns[t].pc == ReadLatest && seen(3) == g.db.summaries
    ensures var rows, n := TurnView(g, t).rows, |seen(3)|;
            var pending := |rows| - (if n == 0 then 0 else seen(3)[n - 1].covers);
            Summaries(rows, threshold, text, seen) ==
              if pending < threshold then seen(5)
              else if text.None? then seen(6)
              else seen(6) + [Summary(if n == 0 then 1 else seen(3)[n - 1].version + 1, |rows|, text.value, rows)]
  {
    var rows, n := TurnView(g, t).rows, |seen(3)|;
    PendingOfTurn(g, t, text.GetOr(""));
    SummariesAre(rows, threshold, text, seen,
                 Summary(if n == 0 then 1 else seen(3)[n - 1].version + 1, |rows|, text.GetOr(""), rows));
  }

  lemma WalkedReads(s: State, p: Plan)
    requires var g := Walk(s, p, 3); Reachable(g) && p.t in g.turns && g.turns[p.t].pc == ReadLatest
    ensures var g, g' := Walk(s, p, 3), Walk(s, p, 5);
            var v := TurnView(g, p.t);
            var tail := After(v.rows, Covered(Latest(g.db.summaries)));
            && Stepped(g, g', p.t) && tail != [] && v.summaries == g.db.summaries
            && g'.turns[p.t].base == Latest(g.db.summaries)
            && g'.turns[p.t].pc == (if |tail| < g.threshold then Ready(NotDue) else Summarize(tail))
            && TurnView(g', p.t) == v.(summaries := g'.db.summaries)
  {
    WalkTwo(s, p, 3);
    ReadSteps(Walk(s, p, 3), p, 3, Walk(s, p, 5));
  }

  lemma WalkedWrite(s: State, p: Plan)
    requires var g := Walk(s, p, 5); Reachable(g) && p.t in g.turns && g.turns[p.t].pc.Summarize?
    ensures var g, g' := Walk(s, p, 5), Walk(s, p, 6);
            var x := g.turns[p.t];
            && Stepped(g, g', p.t) && x.pc.tail != [] && g'.turns[p.t].pc.Ready?
            && (p.text.Some? ==> !VersionTaken(g.db, NextSummary(x.base, x.pc.tail, p.text.value)))
            && TurnView(g', p.t) == TurnView(g, p.t).(
                 summaries := g'.db.summaries +
                   if p.text.None? then [] else [NextSummary(x.base, x.pc.tail, p.text.value)])
  {
    SummaryFits(Walk(s, p, 5), p.t, p.text.GetOr(""));
    SummarizedStep(Walk(s, p, 5), p, 6);
    assert Walk(s, p, 6) == Onward(Walk(s, p, 5), p, 6);
  }

  lemma SummaryFits(s: State, t: nat, text: string)
    requires Reachable(s) && t in s.turns && s.turns[t].pc.Summarize?
    ensures var x := s.turns[t];
            && x.pc.tail != [] && x.summary == None
            && !VersionTaken(s.db, NextSummary(x.base, x.pc.tail, text))
  {
    ReachableTurn(s, t);
    SummaryWritten(s.db, s.threshold, t, s.turns[t], text);
  }

  lemma CommitStep(s: State, t: nat)
    requires Reachable(s) && t in s.turns && s.turns[t].pc.Ready?
    ensures Reachable(Next(s, Call(t))) && Next(s, Call(t)).db == TurnView(s, t) && Next(s, Call(t)).turns[t].pc == Done
  {
    StepReachable(s, Call(t));
  }

  lemma FailedView(s: State, t: nat)
    requires Reachable(s) && t in s.turns && s.turns[t].pc.Failed?
    ensures TurnView(s, t) == s.db
  {
    ReachableTurn(s, t);
    assert s.db.rows + [] == s.db.rows && s.db.summaries + [] == s.db.summaries;
  }

  lemma GrantedTurn(s: State, t: nat, req: Request, granted: State)
    requires Reachable(s) && t !in s.turns && LookedUp(s, t, req).turns[t].pc.AllocUser?
    requires Waited(LookedUp(s, t, req), t, granted)
    ensures Reachable(granted) && t in granted.turns && granted.turns[t].pc == AllocUser && granted.turns[t].req == req
    ensures granted.lock == None && granted.threshold == s.threshold && TurnView(granted, t) == granted.db
  {
    LookUpSteps(s, t, req);
    WaitReachable(LookedUp(s, t, req), t, granted);
    AllocStep(granted, t);
  }

  lemma WaitReachable(s: State, t: nat, s': State)
    requires Reachable(s) && Waited(s, t, s')
    ensures Reachable(s')
  {
    var actions :| Exec(s, actions) == Some(s');
    RunReachable(s, actions);
  }

  class ChatService {
    const store: SqlChatStore
    const threshold: int

    constructor (store: SqlChatStore, threshold: int)
      ensures this.store == store && this.threshold == threshold
    {
      this.store, this.threshold := store, threshold;
    }

    /** The store holds turn `t` of the machine state `s`. */
    ghost predicate Follows(s: State, t: nat)
      reads store
    {
      && Reachable(s) && s.threshold == threshold && t in s.turns
      && store.saved == s.db && store.View() == TurnView(s, t)
    }

    /** Look the idempotency key up; a known key answers with its turn's stored reply. */
    method FindPrior(t: nat, req: Request, ghost s: State) returns (replay: Option<Option<Message>>)
      requires Reachable(s) && t !in s.turns && s.threshold == threshold && store.saved == s.db == store.View()
      ensures Follows(LookedUp(s, t, req), t)
      ensures replay.Some? <==> req.key.Some? && FindByKey(store.rows, req.key.value).Some?
      ensures var pc := LookedUp(s, t, req).turns[t].pc;
              if replay.Some? then pc == Replied(replay.value) && replay.value.Some? else pc == AllocUser
    {
      LookUpSteps(s, t, req);
      replay := None;
      if req.key.Some? {
        var prior := store.FindByClientMessageId(req.key.value);
        if prior.Some? {
          var reply := store.GetMessageBySeq(prior.value.seqNo + 1);
          if reply.Some? || req.kind.Streaming? {
            replay := Some(reply);
          }
        }
      }
    }

    /** Take the row lock and append the user row; a duplicate key rolls the request back. */
    method AppendUser(t: nat, req: Request, ghost s: State) returns (ok: bool, ghost s': State)
      requires Follows(s, t) && s.lock == None && s.turns[t].pc == AllocUser && s.turns[t].req == req
      modifies store
      ensures Enabled(s, Call(t)) && Enabled(Next(s, Call(t)), Call(t))
      ensures s' == Next(Next(s, Call(t)), Call(t)) && Follows(s', t) && store.saved == old(store.saved)
      ensures s'.turns[t].pc == if ok then Generate else Failed
      ensures ok <==> req.key.None? || FindByKey(old(store.rows), req.key.value).None?
      ensures store.rows == if ok then old(store.rows) + [UserRow(old(store.nextSeq), req.prompt, req.key, t)]
                            else old(store.rows)
    {
      AllocStep(s, t);
      ghost var s1 := Next(s, Call(t));
      InsertStep(s1, t);
      s' := Next(s1, Call(t));
      var n := store.AllocateSeq();
      ok := store.AddMessage(UserRow(n, req.prompt, req.key, t));
      if !ok {
        store.Rollback();
      }
    }

    /** Append the assistant row in the turn's own transaction. */
    method AppendReply(t: nat, o: Outcome, seen: Sightings, ghost s: State, ghost p: Plan)
      requires Follows(s, t) && s.turns[t].pc == Generate && p.t == t && p.o == o && Sees(seen, s, p)
      modifies store
      ensures Follows(Walk(s, p, 3), t)
      ensures Walk(s, p, 3).turns[t].pc == if o.status == Complete then ReadLatest else Ready(Unasked)
      ensures var n := old(store.nextSeq);
              store.View() == Db(n + 1, old(store.rows) + [ReplyRow(n, o.content, o.status, o.finish, t)], seen(3))
    {
      WalkedReply(s, p);
      var n := store.AllocateSeq();
      var ok := store.AddMessage(ReplyRow(n, o.content, o.status, o.finish, t));
      assert ok;
      store.SeeSummaries(seen(3));
    }

    /** Roll the transcript into a new summary when enough messages are pending. */
    method MaybeSummarize(t: nat, text: Option<string>, seen: Sightings, ghost s: State, ghost p: Plan)
      returns (ghost s': State)
      requires Sees(seen, s, p) && p.t == t && p.text == text
      requires Follows(Walk(s, p, 3), t) && Walk(s, p, 3).turns[t].pc == ReadLatest
      modifies store
      ensures Follows(s', t) && s'.turns[t].pc.Ready?
      ensures store.View() == old(store.View()).(summaries := Summaries(old(store.rows), threshold, text, seen))
      ensures var rows, n := old(store.rows), |seen(3)|;
              var pending := |rows| - (if n == 0 then 0 else seen(3)[n - 1].covers);
              store.summaries ==
                if pending < threshold then seen(5)
                else if text.None? then seen(6)
                else seen(6) + [Summary(if n == 0 then 1 else seen(3)[n - 1].version + 1, |rows|, text.value, rows)]
    {
      WalkedReads(s, p);
      SummariesOfTurn(Walk(s, p, 3), t, threshold, text, seen);
      var latest := store.GetLatestSummary();
      var pending := store.ListMessagesAfterSeq(Covered(latest));
      store.SeeSummaries(seen(5));
      s' := Walk(s, p, 5);
      if |pending| < threshold {
        return;
      }
      WalkedWrite(s, p);
      if text.Some? {
        var ok := store.AddSummary(NextSummary(latest, pending, text.value));
        assert ok;
      }
      store.SeeSummaries(seen(6));
      s' := Walk(s, p, 6);
    }

    /** The end of a turn: its assistant row, a summary when one is due, and the commit. */
    method FinishTurn(t: nat, o: Outcome, text: Option<string>, seen: Sightings, ghost s: State,
                      ghost others: nat -> seq<Action>)
      returns (ghost s': State)
      requires Follows(s, t) && s.turns[t].pc == Generate && Sees(seen, s, Plan(t, o, text, others))
      modifies store
      ensures Reachable(s') && t in s'.turns && s'.turns[t].pc == Done
      ensures store.saved == store.View() == s'.db
      ensures store.View() == Finished(old(store.View()), t, o, threshold, text, seen)
    {
      ghost var p := Plan(t, o, text, others);
      AppendReply(t, o, seen, s, p);
      s' := Walk(s, p, 3);
      if o.status == Complete {
        s' := MaybeSummarize(t, text, seen, s, p);
      }
      CommitStep(s', t);
      s' := Next(s', Call(t));
      store.Commit();
    }

    /** A cancelled request is rolled back, at whatever point it is: the session is what the others have committed. */
    method CancelTurn(t: nat, ghost s: State) returns (ghost s': State)
      requires Follows(s, t) && s.turns[t].pc.Open()
      modifies store
      ensures Enabled(s, Abort(t)) && s' == Next(s, Abort(t)) && Follows(s', t) && s'.turns[t].pc == Failed
      ensures store.View() == store.saved == s.db
    {
      StepReachable(s, Abort(t));
      s' := Next(s, Abort(t));
      FailedView(s', t);
      store.Rollback();
    }

    /** The machine states a request meets: `found` when it looks its key up, `granted` when it gets the row lock. */
    ghost predicate Meets(t: nat, req: Request, waited: Db, found: State, granted: State)
      reads store
    {
      && Reachable(found) && t !in found.turns && found.threshold == threshold
      && store.saved == found.db && store.View() == found.db
      && (LookedUp(found, t, req).turns[t].pc.AllocUser? ==>
            Waited(LookedUp(found, t, req), t, granted) && granted.db == waited)
    }

    /**
     The first half of `complete_chat`, and the whole of `prepare_stream`: look the key up, wait for
     the row lock while others commit (`waited` is the session then), append the user row.
     */
    method BeginTurn(t: nat, req: Request, waited: Db, ghost found: State, ghost granted: State)
      returns (start: Start, ghost s': State)
      requires Meets(t, req, waited, found, granted)
      modifies store
      ensures Follows(s', t)
      ensures start.Replay? <==> req.key.Some? && FindByKey(found.db.rows, req.key.value).Some?
      ensures match start
              case Replay(reply) =>
                && s'.turns[t].pc == Replied(reply) && reply.Some? && store.View() == found.db == s'.db
                && s'.turns[t].req == req
              case Unavailable =>
                && s'.turns[t].pc == Failed && store.View() == waited == s'.db
                && req.key.Some? && FindByKey(waited.rows, req.key.value).Some?
              case Appended =>
                && s'.turns[t].pc == Generate && s' == Begun(granted, t)
                && store.View() == WithUserRow(waited, t, req)
    {
      var replay := FindPrior(t, req, found);
      s' := LookedUp(found, t, req);
      if replay.Some? {
        LookUpSteps(found, t, req);
        return Replay(replay.value), s';
      }
      GrantedTurn(found, t, req, granted);
      store.Refresh(waited);
      var ok;
      ok, s' := AppendUser(t, req, granted);
      if ok {
        start := Appended;
      } else {
        FailedView(s', t);
        start := Unavailable;
      }
    }

    /** A blocking turn. */
    method CompleteChat(t: nat, req: Request, waited: Db, answer: Answer, text: Option<string>, seen: Sightings,
                        ghost found: State, ghost granted: State, ghost others: nat -> seq<Action>)
      returns (r: Result<string, ChatError>, ghost s': State)
      requires Meets(t, req, waited, found, granted) && req.kind == Blocking
      requires Sees(seen, Begun(granted, t), Plan(t, OutcomeOf(answer), text, others))
      modifies store
      ensures Reachable(s') && t in s'.turns && store.saved == store.View() == s'.db
      ensures s'.turns[t].pc.Replied? <==> req.key.Some? && FindByKey(found.db.rows, req.key.value).Some?
      ensures match s'.turns[t].pc
              case Replied(reply) =>
                && reply.Some? && r == ReplayResult(reply.value) && s'.db == found.db
                && Answers(found.db.rows, req.key, reply.value) && r == Ok(reply.value.content)
              case Failed =>
                && r == Err(DbUnavailable) && s'.db == waited
                && req.key.Some? && FindByKey(waited.rows, req.key.value).Some?
              case Done =>
                && s'.db == TurnCommitted(waited, t, req, OutcomeOf(answer), threshold, text, seen)
                && r == ResultOf(OutcomeOf(answer))
              case _ => false
      ensures s'.turns[t].pc.Done? ==>
                var rows, n, k := s'.db.rows, |waited.rows|, waited.nextSeq;
                && |rows| == n + 2 && rows[..n] == waited.rows && s'.db.nextSeq == k + 2
                && rows[n] == Message(k, User, req.prompt, Complete, None, req.key, t)
                && if answer.Reply? && exists c :: c in answer.content && !IsSpace(c) then
                     && rows[n + 1] == Message(k + 1, Assistant, answer.content, Complete, answer.finish, None, t)
                     && r == Ok(answer.content)
                   else
                     && rows[n + 1] == Message(k + 1, Assistant, "", Error, None, None, t)
                     && r == Err(ProviderFailed)
    {
      var start;
      start, s' := BeginTurn(t, req, waited, found, granted);
      match start
      case Replay(reply) =>
        RepliedWithNext(s', t);
        r := Ok(reply.value.content);
      case Unavailable => r := Err(DbUnavailable);
      case Appended =>
        var o := OutcomeOf(answer);
        TurnRows(waited, t, req, o, threshold, text, seen);
        s' := FinishTurn(t, o, text, seen, s', others);
        r := ResultOf(o);
    }

    /** Read provider events, poll the client before each, and send a delta for each that carries text. */
    method ReadChunks(events: seq<StreamEvent>, gone: nat -> bool)
      returns (deltas: seq<Frame>, collected: string, finish: string, i: nat, ghost at: seq<nat>)
      ensures Reading(events, gone, i, deltas, at, collected, finish) && StopsAt(events, gone, i)
    {
      collected, finish, i := "", "stop", 0;
      deltas, at := [], [];
      while !gone(i) && i < |events| && events[i].Chunk?
        invariant Reading(events, gone, i, deltas, at, collected, finish)
        decreases |events| - i
      {
        var e := events[i];
        ReadingNext(events, gone, i, deltas, at, collected, finish);
        if e.content != "" {
          collected := collected + e.content;
          deltas, at := deltas + [Delta(e.content)], at + [i];
        }
        if e.finish.Some? && e.finish.value != "" {
          finish := e.finish.value;
        }
        i := i + 1;
      }
    }

    /**
     What was sent, and what is to be stored of it: the stream has stopped before event `k`, and delta `j`
     is the content of event `at[j]`.
     */
    method ReadStream(events: seq<StreamEvent>, gone: nat -> bool)
      returns (deltas: seq<Frame>, o: Outcome, ghost k: nat, ghost at: seq<nat>)
      ensures Stores(events, gone, o)
      ensures AllDeltas(deltas) && Joined(deltas) == o.content
      ensures k <= |events| && (forall j: nat :: j < k ==> !gone(j) && events[j].Chunk?)
      ensures gone(k) || k == |events| || events[k].Raise?
      ensures |at| == |deltas| && forall j :: 0 <= j < |at| ==>
                at[j] < k && events[at[j]].content != "" && deltas[j] == Delta(events[at[j]].content)
      ensures forall i, j :: 0 <= i < j < |at| ==> at[i] < at[j]
      ensures forall i: nat :: i < k && events[i].content != "" ==> i in at
      ensures match o.status
              case Interrupted => gone(k) && o.finish == Some("interrupted")
              case Error => !gone(k) && (k < |events| || deltas == []) && o.finish == None
              case Complete => !gone(k) && k == |events| && deltas != [] && o.finish.Some?
      ensures o.status == Complete ==>
                || (o.finish == Some("stop") && forall i: nat :: i < k ==> events[i].finish.GetOr("") == "")
                || exists i: nat :: i < k && events[i].finish == o.finish && o.finish.value != ""
                                    && forall j: nat :: i < j < k ==> events[j].finish.GetOr("") == ""
      ensures StopsAt(events, gone, k) && SentFrom(deltas, events, k, at)
      ensures o.status == Complete ==> IsReason(events, o.finish.value)
    {
      var collected, finish, i;
      deltas, collected, finish, i, at := ReadChunks(events, gone);
      k := i;
      StreamEnds(events, gone, k, deltas, at, collected, finish);
      if gone(i) {
        o := Outcome(collected, Interrupted, Some("interrupted"));
      } else if i < |events| {
        o := Outcome(collected, Error, None);
      } else if collected == "" {
        o := Outcome("", Error, None);
      } else {
        o := Outcome(collected, Complete, Some(finish));
      }
    }

    /**
     A streamed reply after a fresh `prepare_stream`: send deltas, store what was sent, then close. The
     stream has stopped before event `k`, and the deltas are the contents of the events `at`.
     */
    method StreamChat(t: nat, events: seq<StreamEvent>, gone: nat -> bool, text: Option<string>, seen: Sightings,
                      ghost s: State, ghost others: nat -> seq<Action>)
      returns (frames: seq<Frame>, ghost deltas: seq<Frame>, ghost o: Outcome, ghost k: nat, ghost at: seq<nat>,
               ghost s': State)
      requires Follows(s, t) && s.turns[t].pc == Generate
      requires forall o :: Stores(events, gone, o) ==> Sees(seen, s, Plan(t, o, text, others))
      modifies store
      ensures Reachable(s') && t in s'.turns && s'.turns[t].pc == Done
      ensures store.saved == store.View() == s'.db
      ensures store.View() == Finished(old(store.View()), t, o, threshold, text, seen)
      ensures store.rows == old(store.rows) +
                [Message(old(store.nextSeq), Assistant, o.content, o.status, o.finish, None, t)]
      ensures Stores(events, gone, o)
      ensures AllDeltas(deltas) && Joined(deltas) == o.content && frames == [Start] + deltas + Closing(o)
      ensures StopsAt(events, gone, k) && SentFrom(deltas, events, k, at)
      ensures match o.status
              case Interrupted => gone(k) && o.finish == Some("interrupted") && frames == [Start] + deltas
              case Error =>
                && !gone(k) && (k < |events| || deltas == []) && o.finish == None
                && frames == [Start] + deltas + [ErrorFrame]
              case Complete =>
                && !gone(k) && k == |events| && deltas != [] && o.finish.Some? && IsReason(events, o.finish.value)
                && frames == [Start] + deltas + [End(o.finish.value)]
    {
      var sent, outcome;
      sent, outcome, k, at := ReadStream(events, gone);
      deltas, o := sent, outcome;
      frames := [Start] + sent;
      s' := FinishTurn(t, outcome, text, seen, s, others);
      match outcome.status
      case Complete => frames := frames + [End(outcome.finish.value)];
      case Error => frames := frames + [ErrorFrame];
      case Interrupted =>
        assert frames == [Start] + deltas + Closing(o);
    }
  }

  /** From `s` to `s'` anything but deletion `d` has moved. */
  ghost predicate MeanwhileDeletion(s: State, d: nat, s': State) {
    exists actions :: Exec(s, actions) == Some(s') && forall i :: 0 <= i < |actions| ==> !IsOfDeletion(actions[i], d)
  }

  predicate IsOfDeletion(a: Action, d: nat) {
    a == Delete(d) || a == CommitDelete(d) || a == AbortDelete(d)
  }

  /** A pending deletion stays pending, and never has more to remove than it saw. */
  lemma {:induction false} PendingDeletion(s: State, d: nat, actions: seq<Action>)
    requires Reachable(s) && d in s.clearing && Exec(s, actions).Some?
    requires forall i :: 0 <= i < |actions| ==> !IsOfDeletion(actions[i], d)
    ensures var s' := Exec(s, actions).value;
            Reachable(s') && d in s'.clearing && s'.clearing[d] <= s.clearing[d] && Enabled(s', CommitDelete(d))
    decreases |actions|
  {
    if actions == [] {
      ReachableInv(s);
    } else {
      var a := actions[0];
      StepReachable(s, a);
      assert d in Next(s, a).clearing && Next(s, a).clearing[d] <= s.clearing[d];
      PendingDeletion(Next(s, a), d, actions[1..]);
    }
  }

  class ConversationSummaryService {
    const store: SqlChatStore

    constructor (store: SqlChatStore)
      ensures this.store == store
    {
      this.store := store;
    }

    /**
     Delete the session's summaries and commit at the end of the request. In between the others move:
     `met` is the machine at the commit, `later` the session they have committed by then, and `gone` how
     many of its summaries this deletion removes.
     */
    method ClearSummary(d: nat, later: Db, gone: nat, ghost s: State, ghost met: State) returns (removed: nat)
      requires Reachable(s) && d !in s.clearing && store.saved == store.View() == s.db
      requires MeanwhileDeletion(Next(s, Delete(d)), d, met) && met.db == later
      requires d in met.clearing ==> met.clearing[d] == gone
      modifies store
      ensures removed == |s.db.summaries| && gone <= removed
      ensures Enabled(met, CommitDelete(d)) && Reachable(Next(met, CommitDelete(d)))
      ensures store.saved == store.View() == Next(met, CommitDelete(d)).db
      ensures store.saved == later.(summaries := later.summaries[gone..])
    {
      StepReachable(s, Delete(d));
      ghost var actions :| Exec(Next(s, Delete(d)), actions) == Some(met)
                           && forall i :: 0 <= i < |actions| ==> !IsOfDeletion(actions[i], d);
      PendingDeletion(Next(s, Delete(d)), d, actions);
      StepReachable(met, CommitDelete(d));
      removed := store.DeleteSummariesForSession();
      store.SeeWithout(later, gone);
      store.Commit();
    }
  }
}
