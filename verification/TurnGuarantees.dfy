/**
 What holds of every session, whatever the interleaving of turns and summary deletions.
 `Reachable(s)` ranges over every schedule of store calls, answers, cancellations and deletions.
 */
module TurnGuarantees {
  import opened Wrappers
  import opened ChatRows
  import opened TurnProtocol

  ghost predicate Reachable(s: State) {
    Leads(Init(s.threshold), s)
  }

  lemma ReachableInv(s: State)
    requires Reachable(s)
    ensures Inv(s)
  {
    var actions :| Exec(Init(s.threshold), actions) == Some(s);
    InitOk(s.threshold);
    RunKeeps(Init(s.threshold), actions);
  }

  /** What the invariant says of one turn and of the rows. */
  lemma ReachableTurn(s: State, t: nat)
    requires Reachable(s) && t in s.turns
    ensures TurnOk(s.db, s.threshold, t, s.turns[t])
    ensures GapFree(s.db) && DistinctKeys(s.db.rows) && Chain(s.db.summaries, s.db.rows)
    ensures s.turns[t].pc.Holding() ==> s.lock == Some(t)
  {
    ReachableInv(s);
  }

  lemma StepReachable(s: State, a: Action)
    requires Reachable(s) && Enabled(s, a)
    ensures Reachable(Next(s, a))
  {
    LeadsOn(Init(s.threshold), s, a);
  }

  lemma {:induction false} RunReachable(s: State, actions: seq<Action>)
    requires Reachable(s) && Exec(s, actions).Some?
    ensures Reachable(Exec(s, actions).value)
    decreases |actions|
  {
    if actions != [] {
      StepReachable(s, actions[0]);
      RunReachable(Next(s, actions[0]), actions[1..]);
    }
  }

  // ---- transcripts -----------------------------------------------------------

  /** Numbers run from 1 without a gap, and each user row is followed by its own turn's assistant row. */
  lemma TranscriptIsWholeTurns(s: State)
    requires Reachable(s)
    ensures |s.db.rows| % 2 == 0 && s.db.nextSeq == |s.db.rows| + 1
    ensures forall i :: 0 <= i < |s.db.rows| ==> s.db.rows[i].seqNo == i + 1
    ensures forall m :: m in s.db.rows && m.role == User ==>
              exists r :: r in s.db.rows && r.seqNo == m.seqNo + 1 && r.role == Assistant && r.author == m.author
  {
    ReachableInv(s);
    forall m | m in s.db.rows && m.role == User
      ensures exists r :: r in s.db.rows && r.seqNo == m.seqNo + 1 && r.role == Assistant && r.author == m.author
    {
      var i: nat :| i < |s.db.rows| && s.db.rows[i] == m;
      TurnStart(s.db.rows, i);
      assert s.db.rows[i + 1] in s.db.rows;
    }
  }

  /** A finished request owns exactly one turn of the transcript: these two rows and no others. */
  lemma FinishedOwnsOneTurn(s: State, t: nat)
    requires Reachable(s) && t in s.turns && s.turns[t].pc.Done?
    ensures exists i: nat :: TurnAt(s.db.rows, s.turns[t].rows, i)
                          && forall k :: 0 <= k < |s.db.rows| && s.db.rows[k].author == t ==> k == i || k == i + 1
  {
    ReachableInv(s);
    var x, rows := s.turns[t], s.db.rows;
    assert OwnsTurn(rows, x.rows);
    var i: nat :| TurnAt(rows, x.rows, i);
    forall k: nat | k < |rows| && rows[k].author == t
      ensures k == i || k == i + 1
    {
      TurnStart(rows, k);
      var j: nat := k - k % 2;
      assert rows[i].author == rows[j].author;
    }
  }

  /** A request that failed, replayed an earlier reply or is still open has put no row in the transcript. */
  lemma OthersOwnNothing(s: State, t: nat, m: Message)
    requires Reachable(s) && m in s.db.rows && m.author == t
    ensures t in s.turns && s.turns[t].pc.Done?
  {
    ReachableInv(s);
    var i: nat :| i < |s.db.rows| && s.db.rows[i] == m;
    TurnStart(s.db.rows, i);
  }

  // ---- idempotency -------------------------------------------------------------

  /** A key stands in one row only. */
  lemma KeyIsInOneRow(rows: seq<Message>, i: nat, j: nat)
    requires DistinctKeys(rows) && i < |rows| && j < |rows| && rows[i].key.Some? && rows[i].key == rows[j].key
    ensures i == j
  {
  }

  /** However requests with one key interleave, at most one of them commits a turn. */
  lemma AtMostOncePerKey(s: State, t: nat, u: nat)
    requires Reachable(s) && t in s.turns && u in s.turns
    requires s.turns[t].pc.Done? && s.turns[u].pc.Done?
    requires s.turns[t].req.key.Some? && s.turns[t].req.key == s.turns[u].req.key
    ensures t == u
  {
    FinishedOwnsOneTurn(s, t);
    FinishedOwnsOneTurn(s, u);
    ReachableTurn(s, t);
    ReachableTurn(s, u);
    var rows := s.db.rows;
    var i: nat :| TurnAt(rows, s.turns[t].rows, i);
    var j: nat :| TurnAt(rows, s.turns[u].rows, j);
    KeyIsInOneRow(rows, i, j);
  }

  /** A request that finds its key answers with the stored reply; there always is one. */
  lemma ReplayAnswersWithStoredReply(s: State, t: nat, u: nat)
    requires Reachable(s) && t in s.turns && u in s.turns
    requires s.turns[t].pc.Done? && s.turns[u].pc.Replied?
    requires s.turns[t].req.key.Some? && s.turns[t].req.key == s.turns[u].req.key
    ensures |s.turns[t].rows| == 2 && s.turns[u].pc.reply == Some(s.turns[t].rows[1])
  {
    ReachableTurn(s, t);
    ReachableTurn(s, u);
    var rows := s.db.rows;
    assert OwnsTurn(rows, s.turns[t].rows);
    var i: nat :| TurnAt(rows, s.turns[t].rows, i);
    var j: nat :| TurnOfKey(rows, s.turns[u].req.key, j) && s.turns[u].pc.reply.value == rows[j + 1];
    KeyIsInOneRow(rows, i, j);
  }

  /** Looking up a known key leads to the replay, and the replay leaves the store as it was. */
  lemma KnownKeyIsReplayed(s: State, t: nat, m: Message)
    requires Reachable(s) && t in s.turns && s.turns[t].pc.Find?
    requires m in s.db.rows && m.key == s.turns[t].req.key
    ensures var s' := Next(s, Call(t));
            && Enabled(s', Call(t)) && Next(s', Call(t)).turns[t].pc.Replied?
            && Next(s', Call(t)).db == s.db && Next(s', Call(t)).lock == s.lock
  {
    ReachableInv(s);
    assert s.db.rows + s.turns[t].rows == s.db.rows;
    StepKeeps(s, Call(t));
    FetchKeeps(Next(s, Call(t)), t);
  }

  /**
   The insert of the user row is the only insert that can fail, and it fails exactly when another
   request with the same key committed after this one had looked the key up.
   */
  lemma InsertFailsIffDuplicate(s: State, t: nat)
    requires Reachable(s) && t in s.turns && (s.turns[t].pc.AddUser? || s.turns[t].pc.AddReply?)
    ensures Enabled(s, Call(t))
    ensures Next(s, Call(t)).turns[t].pc.Failed? <==>
              s.turns[t].pc.AddUser? && s.turns[t].req.key.Some?
              && exists m :: m in s.db.rows && m.key == s.turns[t].req.key
  {
    ReachableInv(s);
    NeverWaits(s, t);
    if s.turns[t].pc.AddUser? {
      AddUserKeeps(s, t);
    } else {
      AddReplyKeeps(s, t);
    }
  }

  /** Steps only append to the transcript, and a request that has ended stays as it ended. */
  lemma StepGrows(s: State, a: Action)
    requires Enabled(s, a)
    ensures s.db.rows <= Next(s, a).db.rows
    ensures forall t :: t in s.turns && !s.turns[t].pc.Open() ==>
              t in Next(s, a).turns && Next(s, a).turns[t] == s.turns[t]
  {
  }

  lemma {:induction false} RunGrows(s: State, actions: seq<Action>)
    requires Exec(s, actions).Some?
    ensures var s' := Exec(s, actions).value;
            && s.db.rows <= s'.db.rows
            && forall t :: t in s.turns && !s.turns[t].pc.Open() ==> t in s'.turns && s'.turns[t] == s.turns[t]
    decreases |actions|
  {
    if actions != [] {
      StepGrows(s, actions[0]);
      RunGrows(Next(s, actions[0]), actions[1..]);
    }
  }

  /** A reply, once given, is the reply of every later retry, whatever else happens in between. */
  lemma RetryIsStable(s: State, actions: seq<Action>, s': State, t: nat, u: nat)
    requires Reachable(s) && Exec(s, actions) == Some(s') && Reachable(s')
    requires t in s.turns && s.turns[t].pc.Done? && s.turns[t].req.key.Some?
    requires u in s'.turns && s'.turns[u].pc.Replied? && s'.turns[u].req.key == s.turns[t].req.key
    ensures |s.turns[t].rows| == 2 && s'.turns[u].pc.reply == Some(s.turns[t].rows[1])
  {
    RunGrows(s, actions);
    ReplayAnswersWithStoredReply(s', t, u);
  }

  // ---- progress -----------------------------------------------------------------

  /** Some step of `t` other than cancellation is enabled. */
  predicate CanStep(s: State, t: nat) {
    t in s.turns && (Enabled(s, Call(t)) || s.turns[t].pc.Generate? || s.turns[t].pc.Summarize?)
  }

  /** No deadlock: an open turn can step, unless it waits for the row lock and then its holder can. */
  lemma NoDeadlock(s: State, t: nat)
    requires Reachable(s) && t in s.turns && s.turns[t].pc.Open()
    ensures CanStep(s, t) ||
            (s.turns[t].pc.AllocUser? && s.lock.Some? && s.lock.value != t && CanStep(s, s.lock.value))
  {
    ReachableInv(s);
    if s.turns[t].pc.AddUser? || s.turns[t].pc.AddReply? {
      NeverWaits(s, t);
    }
    if s.turns[t].pc.AllocUser? && s.lock.Some? {
      var h := s.lock.value;
      if s.turns[h].pc.AddUser? || s.turns[h].pc.AddReply? {
        NeverWaits(s, h);
      }
    }
  }

  // ---- rolling summaries -----------------------------------------------------------

  /**
   Versions are consecutive and covered prefixes strictly grow; every summary stands for exactly its
   prefix of the transcript, so with the tail read after it nothing is lost or repeated.
   */
  lemma SummariesCoverTranscript(s: State)
    requires Reachable(s)
    ensures forall j, k :: 0 <= j < k < |s.db.summaries| ==>
              && s.db.summaries[j].version < s.db.summaries[k].version
              && s.db.summaries[j].covers < s.db.summaries[k].covers
    ensures forall z :: z in s.db.summaries ==> z.covers <= |s.db.rows| && z.sources == s.db.rows[..z.covers]
    ensures Sources(Latest(s.db.summaries)) + After(s.db.rows, Covered(Latest(s.db.summaries))) == s.db.rows
  {
    ReachableInv(s);
    ContextIsTranscript(s.db);
    forall j, k | 0 <= j < k < |s.db.summaries|
      ensures s.db.summaries[j].version < s.db.summaries[k].version
    {
      assert s.db.summaries[j].version == s.db.summaries[0].version + j;
      assert s.db.summaries[k].version == s.db.summaries[0].version + k;
    }
  }

  function TailLength(db: Db): nat {
    |After(db.rows, Covered(Latest(db.summaries)))|
  }

  lemma TailOf(db: Db)
    requires GapFree(db) && Chain(db.summaries, db.rows)
    ensures TailLength(db) == |db.rows| - Covered(Latest(db.summaries))
    ensures db.summaries != [] ==> Latest(db.summaries) == Some(db.summaries[|db.summaries| - 1])
  {
    if db.summaries != [] {
      LatestIsLast(db.summaries);
    }
    AfterIsSuffix(db.rows, 0, Covered(Latest(db.summaries)));
  }

  /** The stored summaries of a session end with the latest one. */
  ghost predicate EndsWithLatest(db: Db) {
    db.summaries != [] ==> Latest(db.summaries) == Some(db.summaries[|db.summaries| - 1])
  }

  /**
   Committing a turn that summarised, or found nothing due, leaves a tail shorter than the threshold,
   except when no tail can be, the threshold being below one, and when nothing was due because of a
   summary that has been deleted since.
   */
  lemma TailAfterCommit(s: State, t: nat)
    requires Reachable(s) && t in s.turns
    requires s.turns[t].pc == Ready(NotDue) || s.turns[t].pc == Ready(Written)
    ensures TailLength(Next(s, Call(t)).db) < s.threshold <==>
              && s.threshold >= 1
              && (s.turns[t].pc.attempt == Written || Latest(s.db.summaries) == s.turns[t].base
                  || |s.db.rows| + 2 < s.threshold)
  {
    ReachableTurn(s, t);
    StoredTail(s);
    StepReachable(s, Call(t));
    CommittedTail(s, t);
    TailArithmetic(s.db, s.threshold, t, s.turns[t], Next(s, Call(t)).db);
  }

  lemma StoredTail(s: State)
    requires Reachable(s)
    ensures TailLength(s.db) == |s.db.rows| - Covered(Latest(s.db.summaries)) && EndsWithLatest(s.db)
  {
    ReachableInv(s);
    TailOf(s.db);
  }

  /** What a commit stores. */
  lemma CommittedRows(s: State, t: nat)
    requires t in s.turns && s.turns[t].pc.Ready? && TurnOk(s.db, s.threshold, t, s.turns[t])
    ensures var db, x := Next(s, Call(t)).db, s.turns[t];
            && |db.rows| == |s.db.rows| + 2
            && db.summaries == s.db.summaries + (if x.summary.Some? then [x.summary.value] else [])
  {
  }

  lemma CommittedTail(s: State, t: nat)
    requires t in s.turns && s.turns[t].pc.Ready? && TurnOk(s.db, s.threshold, t, s.turns[t])
    requires Reachable(Next(s, Call(t)))
    ensures var db, x := Next(s, Call(t)).db, s.turns[t];
            && |db.rows| == |s.db.rows| + 2
            && db.summaries == s.db.summaries + (if x.summary.Some? then [x.summary.value] else [])
            && TailLength(db) == |db.rows| - Covered(Latest(db.summaries)) && EndsWithLatest(db)
  {
    CommittedRows(s, t);
    StoredTail(Next(s, Call(t)));
  }

  lemma TailArithmetic(db: Db, threshold: int, t: nat, x: Turn, db': Db)
    requires (x.pc == Ready(NotDue) || x.pc == Ready(Written)) && TurnOk(db, threshold, t, x)
    requires |db'.rows| == |db.rows| + 2
    requires db'.summaries == db.summaries + if x.summary.Some? then [x.summary.value] else []
    requires TailLength(db') == |db'.rows| - Covered(Latest(db'.summaries))
    requires EndsWithLatest(db) && EndsWithLatest(db')
    ensures TailLength(db') < threshold <==>
              && threshold >= 1
              && (x.pc.attempt == Written || Latest(db.summaries) == x.base || |db.rows| + 2 < threshold)
  {
  }

  // ---- when versions are 1 .. n -----------------------------------------------------

  predicate OneToN(summaries: seq<Summary>) {
    forall j :: 0 <= j < |summaries| ==> summaries[j].version == j + 1
  }

  /** An open turn that has read a summary and has enough messages pending to store its successor. */
  predicate Extends(db: Db, threshold: int, x: Turn) {
    && x.base.Some?
    && (x.pc.Summarize? || x.pc == Ready(Written)
        || (x.pc.ReadTail? && |db.rows| + 2 - Covered(x.base) >= threshold))
  }

  /** A deletion that removes nothing, or that removes every summary while no open turn is about to extend one. */
  predicate CleanDelete(s: State, d: nat)
    requires d in s.clearing
  {
    || s.clearing[d] == 0
    || (s.clearing[d] == |s.db.summaries| && forall t :: t in s.turns ==> !Extends(s.db, s.threshold, s.turns[t]))
  }

  /** Whatever the open and later turns do, as long as no deletion commits the stored versions are 1 .. n. */
  ghost predicate Safe(s: State) {
    forall actions :: Exec(s, actions).Some? && NoneDeleted(actions) ==> OneToN(Exec(s, actions).value.db.summaries)
  }

  predicate NoneDeleted(actions: seq<Action>) {
    forall i :: 0 <= i < |actions| ==> !actions[i].CommitDelete?
  }

  /** Stored versions start at 1, and with none stored no open turn is about to extend a deleted one. */
  predicate FromOne(s: State) {
    && (s.db.summaries != [] ==> s.db.summaries[0].version == 1)
    && (s.db.summaries == [] ==> forall t :: t in s.turns ==> !Extends(s.db, s.threshold, s.turns[t]))
  }

  lemma CommitExtendsNone(s: State, t: nat)
    requires Inv(s) && t in s.turns && s.turns[t].pc.Ready?
    ensures var s' := Committed(s, t);
            forall u :: u in s'.turns ==> !Extends(s'.db, s'.threshold, s'.turns[u])
  {
    var s' := Committed(s, t);
    assert s.lock == Some(t);
    forall u | u in s'.turns
      ensures !Extends(s'.db, s'.threshold, s'.turns[u])
    {
      assert u != t ==> s'.turns[u] == s.turns[u] && !s.turns[u].pc.Holding();
    }
  }

  lemma CommitNumbersOn(s: State, t: nat)
    requires Inv(s) && t in s.turns && s.turns[t].pc.Ready? && FromOne(s)
    ensures FromOne(Committed(s, t))
  {
    CommitExtendsNone(s, t);
    assert TurnOk(s.db, s.threshold, t, s.turns[t]);
  }

  /** A turn whose tail turns out to be long enough was one that extends a summary. */
  lemma ReadNumbersOn(s: State, t: nat)
    requires Inv(s) && t in s.turns && s.turns[t].pc.ReadTail?
    ensures var x := WithTail(s.db, s.threshold, s.turns[t]);
            Extends(s.db, s.threshold, x) <==> Extends(s.db, s.threshold, s.turns[t])
  {
    var x := s.turns[t];
    TailRead(s.db, s.threshold, t, x);
    assert |(s.db.rows + x.rows)[Covered(x.base)..]| == |s.db.rows| + 2 - Covered(x.base);
  }

  /** Calling `t` changes no other turn, and before the commit it changes no row. */
  lemma CallIsLocal(s: State, t: nat)
    requires Enabled(s, Call(t))
    ensures var s' := Called(s, t);
            && s'.threshold == s.threshold && s'.turns.Keys == s.turns.Keys
            && (forall u :: u in s.turns && u != t ==> s'.turns[u] == s.turns[u])
            && (!s.turns[t].pc.Ready? ==> s'.db == s.db)
  {
  }

  /** A turn that extends a stored summary after its own step did so before, or there is a summary. */
  lemma CallExtends(s: State, t: nat)
    requires Inv(s) && Enabled(s, Call(t)) && !s.turns[t].pc.Ready? && s.db.summaries == []
    ensures Extends(s.db, s.threshold, Called(s, t).turns[t]) ==> Extends(s.db, s.threshold, s.turns[t])
  {
    if s.turns[t].pc.ReadTail? {
      ReadNumbersOn(s, t);
    }
  }

  lemma CallNumbersOn(s: State, t: nat)
    requires Inv(s) && Enabled(s, Call(t)) && FromOne(s)
    ensures FromOne(Called(s, t))
  {
    if s.turns[t].pc.Ready? {
      CommitNumbersOn(s, t);
    } else {
      CallIsLocal(s, t);
      if s.db.summaries == [] {
        CallExtends(s, t);
      }
    }
  }

  lemma SummarizedNumbersOn(s: State, t: nat, text: Option<string>)
    requires Inv(s) && Enabled(s, Summarized(t, text)) && FromOne(s)
    ensures FromOne(Summarised(s, t, text))
  {
    var s' := Summarised(s, t, text);
    assert s'.db == s.db && forall u :: u in s'.turns && u != t ==> s'.turns[u] == s.turns[u];
  }

  /** Every step but the commit of a deletion keeps the numbering going from 1. */
  lemma OnlyDeletesDisturb(s: State, a: Action)
    requires Inv(s) && Enabled(s, a) && FromOne(s) && !a.CommitDelete?
    ensures FromOne(Next(s, a))
  {
    match a
    case Call(t) => CallNumbersOn(s, t);
    case Summarized(t, text) => SummarizedNumbersOn(s, t, text);
    case _ =>
  }

  lemma {:induction false} FromOneStays(s: State, actions: seq<Action>)
    requires Inv(s) && FromOne(s) && Exec(s, actions).Some? && NoneDeleted(actions)
    ensures OneToN(Exec(s, actions).value.db.summaries)
    decreases |actions|
  {
    if actions == [] {
      assert Chain(s.db.summaries, s.db.rows);
    } else {
      StepKeeps(s, actions[0]);
      OnlyDeletesDisturb(s, actions[0]);
      FromOneStays(Next(s, actions[0]), actions[1..]);
    }
  }

  /** How many of its own steps a turn is away from its commit. */
  function StepsLeft(pc: Pc): nat {
    match pc
    case ReadTail => 3
    case Summarize(_) => 2
    case Ready(_) => 1
    case _ => 0
  }

  /** The next step of a turn that stores a summary. */
  function Towards(t: nat, pc: Pc): Action {
    if pc.Summarize? then Summarized(t, Some("so far")) else Call(t)
  }

  lemma ExtendsByReading(s: State, t: nat)
    requires Reachable(s) && t in s.turns && s.turns[t].pc.ReadTail? && Extends(s.db, s.threshold, s.turns[t])
    ensures Next(s, Call(t)) == Put(s, t, WithTail(s.db, s.threshold, s.turns[t]))
    ensures Extends(s.db, s.threshold, WithTail(s.db, s.threshold, s.turns[t]))
  {
    ReachableInv(s);
    ReadNumbersOn(s, t);
  }

  lemma ExtendsByWriting(s: State, t: nat)
    requires Reachable(s) && t in s.turns && s.turns[t].pc.Summarize? && s.turns[t].base.Some?
    ensures var s' := Next(s, Summarized(t, Some("so far")));
            t in s'.turns && s'.db == s.db && s'.threshold == s.threshold
            && s'.turns[t].pc == Ready(Written) && s'.turns[t].base == s.turns[t].base
  {
    ReachableTurn(s, t);
    SummaryWritten(s.db, s.threshold, t, s.turns[t], "so far");
    SummaryStored(s, t, "so far");
  }

  lemma ExtendsOn(s: State, t: nat)
    requires Reachable(s) && t in s.turns && Extends(s.db, s.threshold, s.turns[t]) && !s.turns[t].pc.Ready?
    ensures var a := Towards(t, s.turns[t].pc);
            && Enabled(s, a) && t in Next(s, a).turns && Next(s, a).db == s.db && Next(s, a).threshold == s.threshold
            && Extends(s.db, s.threshold, Next(s, a).turns[t])
            && StepsLeft(Next(s, a).turns[t].pc) < StepsLeft(s.turns[t].pc)
  {
    if s.turns[t].pc.ReadTail? {
      ExtendsByReading(s, t);
    } else {
      ExtendsByWriting(s, t);
    }
  }

  /** With no summary stored, a turn that extends a deleted one can be run on to a lone summary of version 2 or more. */
  lemma {:induction false} RunToSuccessor(s: State, t: nat) returns (actions: seq<Action>)
    requires Reachable(s) && t in s.turns && s.db.summaries == [] && Extends(s.db, s.threshold, s.turns[t])
    ensures Exec(s, actions).Some? && NoneDeleted(actions)
    ensures var zs := Exec(s, actions).value.db.summaries; |zs| == 1 && zs[0].version >= 2
    decreases StepsLeft(s.turns[t].pc)
  {
    var a := Towards(t, s.turns[t].pc);
    if s.turns[t].pc.Ready? {
      ReachableTurn(s, t);
      actions := [a];
      assert Exec(Next(s, a), actions[1..]) == Some(Next(s, a));
    } else {
      ExtendsOn(s, t);
      StepReachable(s, a);
      var rest := RunToSuccessor(Next(s, a), t);
      actions := [a] + rest;
      assert actions[1..] == rest;
    }
  }

  /** Stored versions stay 1 .. n without further deletions exactly in the states that number from 1. */
  lemma SafeIff(s: State)
    requires Reachable(s)
    ensures Safe(s) <==> FromOne(s)
  {
    ReachableInv(s);
    if FromOne(s) {
      forall actions | Exec(s, actions).Some? && NoneDeleted(actions)
        ensures OneToN(Exec(s, actions).value.db.summaries)
      {
        FromOneStays(s, actions);
      }
    } else if s.db.summaries != [] {
      assert Exec(s, []) == Some(s);
      assert !OneToN(s.db.summaries);
    } else {
      var t :| t in s.turns && Extends(s.db, s.threshold, s.turns[t]);
      var actions := RunToSuccessor(s, t);
      assert !OneToN(Exec(s, actions).value.db.summaries);
    }
  }

  /**
   A deletion that commits where versions are safely 1 .. n: if it is clean, no later schedule without a
   deletion stores other versions; if it is not, some such schedule does.
   */
  lemma DeleteKeepsNumberingIffClean(s: State, d: nat)
    requires Reachable(s) && Enabled(s, CommitDelete(d)) && Safe(s)
    ensures Safe(Next(s, CommitDelete(d))) <==> CleanDelete(s, d)
  {
    SafeIff(s);
    StepReachable(s, CommitDelete(d));
    SafeIff(Next(s, CommitDelete(d)));
    ReachableInv(s);
    var k := s.clearing[d];
    if 0 < k < |s.db.summaries| {
      assert s.db.summaries[k].version == 1 + k;
    }
  }

  ghost predicate AllDeletesClean(s: State, actions: seq<Action>)
    requires Exec(s, actions).Some?
    decreases |actions|
  {
    actions == [] ||
    ((actions[0].CommitDelete? ==> CleanDelete(s, actions[0].d)) && AllDeletesClean(Next(s, actions[0]), actions[1..]))
  }

  /** At no point of the run can a schedule without a deletion store versions other than 1 .. n. */
  ghost predicate AlwaysSafe(s: State, actions: seq<Action>)
    requires Exec(s, actions).Some?
    decreases |actions|
  {
    Safe(s) && (actions == [] || AlwaysSafe(Next(s, actions[0]), actions[1..]))
  }

  lemma {:induction false} AlwaysSafeIff(s: State, actions: seq<Action>)
    requires Reachable(s) && Safe(s) && Exec(s, actions).Some?
    ensures AlwaysSafe(s, actions) <==> AllDeletesClean(s, actions)
    ensures AlwaysSafe(s, actions) ==> OneToN(Exec(s, actions).value.db.summaries)
    decreases |actions|
  {
    if actions == [] {
      assert NoneDeleted([]) && Exec(s, []) == Some(s);
    } else {
      var a := actions[0];
      StepReachable(s, a);
      if a.CommitDelete? {
        DeleteKeepsNumberingIffClean(s, a.d);
      } else {
        ReachableInv(s);
        SafeIff(s);
        OnlyDeletesDisturb(s, a);
        SafeIff(Next(s, a));
      }
      if Safe(Next(s, a)) {
        AlwaysSafeIff(Next(s, a), actions[1..]);
      }
    }
  }

  /** Stored versions are, and are bound to stay, 1 .. n throughout a run if and only if its deletions are all clean. */
  lemma VersionsAreOneToN(threshold: int, actions: seq<Action>)
    requires Exec(Init(threshold), actions).Some?
    ensures AlwaysSafe(Init(threshold), actions) <==> AllDeletesClean(Init(threshold), actions)
    ensures AllDeletesClean(Init(threshold), actions) ==> OneToN(Exec(Init(threshold), actions).value.db.summaries)
  {
    LeadsToItself(Init(threshold));
    SafeIff(Init(threshold));
    AlwaysSafeIff(Init(threshold), actions);
  }

  // ---- runs in which an expectation fails -------------------------------------------------

  ghost predicate Same(s: State, s': State, t: nat) {
    && s'.db == s.db && s'.clearing == s.clearing && s'.threshold == s.threshold
    && s'.turns.Keys == s.turns.Keys + {t}
  }

  lemma RunToGenerate(s: State, t: nat) returns (s': State)
    requires Reachable(s) && s.lock == None && t !in s.turns
    ensures Reachable(s') && Same(s, s', t) && s'.lock == Some(t) && s'.turns[t].pc == Generate
  {
    var req := Request(Blocking, "hi", None);
    StepReachable(s, Begin(t, req));
    s' := Next(s, Begin(t, req));
    StepReachable(s', Call(t));
    s' := Next(s', Call(t));
    InsertFailsIffDuplicate(s', t);
    StepReachable(s', Call(t));
    s' := Next(s', Call(t));
  }

  /** A turn without a key runs undisturbed until it has read the latest summary. */
  lemma RunToReadTail(s: State, t: nat) returns (s': State)
    requires Reachable(s) && s.lock == None && t !in s.turns
    ensures Reachable(s') && Same(s, s', t)
    ensures s'.turns[t].pc == ReadTail && s'.turns[t].base == Latest(s.db.summaries)
  {
    s' := RunToGenerate(s, t);
    var o := Outcome("hello", Complete, None);
    StepReachable(s', Generated(t, o));
    s' := Next(s', Generated(t, o));
    StepReachable(s', Call(t));
    s' := Next(s', Call(t));
    InsertFailsIffDuplicate(s', t);
    StepReachable(s', Call(t));
    s' := Next(s', Call(t));
    StepReachable(s', Call(t));
    s' := Next(s', Call(t));
  }

  /** The messages a turn that is about to read its tail will find there. */
  function Pending(db: Db, x: Turn): int {
    |db.rows| + 2 - Covered(x.base)
  }

  lemma SummaryIsDue(s: State, t: nat)
    requires Reachable(s) && t in s.turns && s.turns[t].pc == ReadTail
    ensures var pc := Next(s, Call(t)).turns[t].pc;
            if Pending(s.db, s.turns[t]) < s.threshold then pc == Ready(NotDue) else pc.Summarize?
  {
    var x := s.turns[t];
    ReachableTurn(s, t);
    TailRead(s.db, s.threshold, t, x);
    assert |(s.db.rows + x.rows)[Covered(x.base)..]| == Pending(s.db, x);
  }

  lemma SummaryIsStored(s: State, t: nat, text: string)
    requires Reachable(s) && t in s.turns && s.turns[t].pc.Summarize?
    ensures var x, x' := s.turns[t], Next(s, Summarized(t, Some(text))).turns[t];
            && x'.pc == Ready(Written) && x'.summary.Some?
            && x'.summary.value.version == (if x.base.Some? then x.base.value.version + 1 else 1)
            && x'.summary.value.covers == |s.db.rows| + 2
  {
    ReachableTurn(s, t);
    SummaryWritten(s.db, s.threshold, t, s.turns[t], text);
    SummaryStored(s, t, text);
  }

  lemma CommittedAs(s: State, t: nat)
    requires Reachable(s) && t in s.turns && s.turns[t].pc.Ready?
    ensures var s' := Next(s, Call(t));
            && s'.lock == None && s'.threshold == s.threshold && s'.clearing == s.clearing
            && s'.turns.Keys == s.turns.Keys && |s'.db.rows| == |s.db.rows| + 2
            && s'.db.summaries ==
                 s.db.summaries + (if s.turns[t].summary.Some? then [s.turns[t].summary.value] else [])
  {
    ReachableTurn(s, t);
    CommittedRows(s, t);
  }

  /** From there, with a summary due, the turn stores the successor of the summary it read. */
  lemma RunToSummary(s: State, t: nat) returns (s': State)
    requires Reachable(s) && t in s.turns && s.turns[t].pc == ReadTail
    requires Pending(s.db, s.turns[t]) >= s.threshold
    ensures Reachable(s') && s'.lock == None && s'.threshold == s.threshold && s'.clearing == s.clearing
    ensures s'.turns.Keys == s.turns.Keys && |s'.db.rows| == |s.db.rows| + 2
    ensures |s'.db.summaries| == |s.db.summaries| + 1
    ensures var base, z := s.turns[t].base, s'.db.summaries[|s.db.summaries|];
            z.version == (if base.Some? then base.value.version + 1 else 1) && z.covers == |s'.db.rows|
  {
    SummaryIsDue(s, t);
    StepReachable(s, Call(t));
    s' := Next(s, Call(t));
    SummaryIsStored(s', t, "so far");
    StepReachable(s', Summarized(t, Some("so far")));
    s' := Next(s', Summarized(t, Some("so far")));
    CommittedAs(s', t);
    StepReachable(s', Call(t));
    s' := Next(s', Call(t));
  }

  /** With too few messages pending it is ready to commit without a summary. */
  lemma RunToNotDue(s: State, t: nat) returns (s': State)
    requires Reachable(s) && t in s.turns && s.turns[t].pc == ReadTail
    requires Pending(s.db, s.turns[t]) < s.threshold
    ensures Reachable(s') && Same(s, s', t) && s'.turns[t].base == s.turns[t].base
    ensures s'.turns[t].pc == Ready(NotDue) && s'.turns[t].summary == None
  {
    SummaryIsDue(s, t);
    StepReachable(s, Call(t));
    s' := Next(s, Call(t));
    ReachableTurn(s', t);
  }

  /**
   A deletion that commits while a turn holds the summary it has read leaves that turn to store
   version 2 into an empty table: versions are then not 1 .. n.
   */
  lemma DeletionRace()
    ensures exists s :: Reachable(s) && |s.db.summaries| == 1 && s.db.summaries[0].version == 2
  {
    LeadsToItself(Init(1));
    var s := RunToReadTail(Init(1), 0);
    s := RunToSummary(s, 0);
    var one := s.db.summaries[0];
    s := RunToReadTail(s, 1);
    StepReachable(s, Delete(0));
    s := Next(s, Delete(0));
    StepReachable(s, CommitDelete(0));
    s := Next(s, CommitDelete(0));
    s := RunToSummary(s, 1);
    assert s.db.summaries[0].version == one.version + 1;
  }

  /** Two turns, of which the second summarises both. */
  lemma TwoTurnsSummarised() returns (s: State)
    ensures Reachable(s) && s.lock == None && s.threshold == 3 && s.clearing == map[] && s.turns.Keys == {0, 1}
    ensures |s.db.rows| == 4 && |s.db.summaries| == 1 && Latest(s.db.summaries) == Some(s.db.summaries[0])
    ensures s.db.summaries[0].covers == 4
  {
    LeadsToItself(Init(3));
    s := RunToReadTail(Init(3), 0);
    s := RunToNotDue(s, 0);
    CommittedAs(s, 0);
    StepReachable(s, Call(0));
    s := Next(s, Call(0));
    s := RunToReadTail(s, 1);
    s := RunToSummary(s, 1);
    StoredTail(s);
  }

  /** A deletion that runs and commits at once leaves no summary. */
  lemma RunDeletion(s: State) returns (s': State)
    requires Reachable(s) && s.clearing == map[]
    ensures Reachable(s') && s'.db == s.db.(summaries := []) && s'.turns == s.turns && s'.threshold == s.threshold
  {
    StepReachable(s, Delete(0));
    s' := Next(s, Delete(0));
    StepReachable(s', CommitDelete(0));
    s' := Next(s', CommitDelete(0));
  }

  /**
   With a threshold of 3, turn 1 summarises the first four messages, turn 2 finds two pending, and the
   summary is deleted before turn 2 commits: it leaves six messages behind that no summary covers.
   */
  lemma LongTail()
    ensures exists s, t :: Reachable(s) && t in s.turns && s.turns[t].pc == Ready(NotDue)
                        && TailLength(Next(s, Call(t)).db) >= s.threshold >= 1
  {
    var s := TwoTurnsSummarised();
    s := RunToReadTail(s, 2);
    s := RunToNotDue(s, 2);
    ReachableTurn(s, 2);
    var base := s.turns[2].base;
    s := RunDeletion(s);
    TailAfterCommit(s, 2);
    assert base.Some? && Latest(s.db.summaries) == None;
  }

  /** A first turn with a key, whose provider fails. */
  lemma KeyedTurnFails(req: Request) returns (s: State)
    requires req.key.Some?
    ensures Reachable(s) && s.turns.Keys == {0} && s.turns[0].pc.Done? && s.turns[0].req == req
    ensures var rows := s.turns[0].rows; |rows| == 2 && rows[1].status == Error && rows[1].content == ""
  {
    LeadsToItself(Init(1));
    StepReachable(Init(1), Begin(0, req));
    s := Next(Init(1), Begin(0, req));
    StepReachable(s, Call(0));
    s := Next(s, Call(0));
    StepReachable(s, Call(0));
    s := Next(s, Call(0));
    InsertFailsIffDuplicate(s, 0);
    StepReachable(s, Call(0));
    s := Next(s, Call(0));
    s := RunToFailure(s, 0, Outcome("", Error, None));
  }

  /** A later request with the key of a finished turn runs to its replay. */
  lemma RunToReplay(s: State, t: nat, u: nat) returns (s': State)
    requires Reachable(s) && t in s.turns && s.turns[t].pc.Done? && s.turns[t].req.key.Some? && u !in s.turns
    ensures Reachable(s') && s'.turns.Keys == s.turns.Keys + {u} && s'.turns[t] == s.turns[t]
    ensures s'.turns[u].pc.Replied? && s'.turns[u].req.key == s.turns[t].req.key
  {
    ReachableTurn(s, t);
    var i: nat :| TurnAt(s.db.rows, s.turns[t].rows, i);
    StepReachable(s, Begin(u, s.turns[t].req));
    s' := Next(s, Begin(u, s.turns[t].req));
    KnownKeyIsReplayed(s', u, s.db.rows[i]);
    StepReachable(s', Call(u));
    s' := Next(s', Call(u));
    StepReachable(s', Call(u));
    s' := Next(s', Call(u));
  }

  /** A turn whose provider fails is stored with an empty text, and a retry with its key is given that text. */
  lemma FailedTurnIsReplayed()
    ensures exists s, t, u :: && Reachable(s) && t in s.turns && u in s.turns && s.turns[t].pc.Done?
                              && |s.turns[t].rows| == 2 && s.turns[t].rows[1].status == Error
                              && s.turns[u].pc == Replied(Some(s.turns[t].rows[1])) && s.turns[t].rows[1].content == ""
  {
    var failed := KeyedTurnFails(Request(Blocking, "hi", Some("k")));
    var s := RunToReplay(failed, 0, 1);
    ReplayAnswersWithStoredReply(s, 0, 1);
  }

  lemma RunToFailure(s: State, t: nat, o: Outcome) returns (s': State)
    requires Reachable(s) && t in s.turns && s.turns[t].pc == Generate && o.status == Error
    ensures Reachable(s') && s'.turns.Keys == s.turns.Keys && s'.lock == None
    ensures var x := s'.turns[t];
            && x.pc.Done? && x.req == s.turns[t].req
            && |x.rows| == 2 && x.rows[1].status == Error && x.rows[1].content == o.content
  {
    ReachableTurn(s, t);
    StepReachable(s, Generated(t, o));
    s' := Next(s, Generated(t, o));
    StepReachable(s', Call(t));
    s' := Next(s', Call(t));
    InsertFailsIffDuplicate(s', t);
    StepReachable(s', Call(t));
    s' := Next(s', Call(t));
    CommittedAs(s', t);
    StepReachable(s', Call(t));
    s' := Next(s', Call(t));
  }
}
