/**
 Concurrent chat turns on one session, as a state machine over store calls.

 Each request is one open transaction (backend-python/app/routers/chat.py:137-151). Between any two
 of its store calls every other request, and every summary deletion, may run. A turn sees the
 committed rows and its own; `allocate_seq` takes the session's row lock and keeps it until commit or
 rollback; an insert waits for an open transaction that holds a clashing row and fails on a
 committed one. The reply generator and the summariser answer arbitrarily, and a turn may be
 cancelled at any point.
 */
module TurnProtocol {
  import opened Wrappers
  import opened ChatRows

  datatype Kind = Blocking | Streaming

  datatype Request = Request(kind: Kind, prompt: string, key: Option<string>)

  /** The assistant row a turn is about to store. */
  datatype Outcome = Outcome(content: string, status: Status, finish: Option<string>)

  /** How a turn left its summarisation step. */
  datatype Attempt = Unasked | NotDue | NoText | Written

  datatype Pc =
    | Find(wanted: string)
    | Fetch(prior: Message)
    | AllocUser
    | AddUser(mine: nat)
    | Generate
    | AllocReply(outcome: Outcome)
    | AddReply(outcome: Outcome, mine: nat)
    | ReadLatest
    | ReadTail
    | Summarize(tail: seq<Message>)
    | Ready(attempt: Attempt)
    | Done
    | Replied(reply: Option<Message>)
    | Failed
  {
    predicate Open() { !Done? && !Replied? && !Failed? }

    /** The turn holds the session's row lock. */
    predicate Holding() { Open() && !Find? && !Fetch? && !AllocUser? }
  }

  /** `next` is the turn's own value of next_seq; `base` is the summary it read as the latest one. */
  datatype Turn = Turn(
    req: Request, pc: Pc, next: nat, rows: seq<Message>, base: Option<Summary>, summary: Option<Summary>)

  /**
   `clearing` holds the executed, uncommitted deletions: how many of the first stored summaries each of
   them saw. Deletions may overlap, and commit in any order.
   */
  datatype State = State(
    db: Db, lock: Option<nat>, turns: map<nat, Turn>, clearing: map<nat, nat>, threshold: int)

  datatype Action =
    | Begin(t: nat, req: Request)
    | Call(t: nat)
    | Generated(t: nat, outcome: Outcome)
    | Summarized(t: nat, text: Option<string>)
    | Abort(t: nat)
    | Delete(d: nat)
    | CommitDelete(d: nat)
    | AbortDelete(d: nat)

  function Init(threshold: int): State {
    State(EMPTY_SESSION, None, map[], map[], threshold)
  }

  // ---- one step --------------------------------------------------------------

  predicate LockFree(s: State, t: nat) {
    s.lock == None || s.lock == Some(t)
  }

  /** An insert waits while another open transaction holds a clashing row. */
  predicate InsertWaits(s: State, t: nat, m: Message) {
    exists u :: u in s.turns && u != t && s.turns[u].pc.Open() && Clashes(s.turns[u].rows, m)
  }

  function Inserting(s: State, t: nat): Message
    requires t in s.turns && (s.turns[t].pc.AddUser? || s.turns[t].pc.AddReply?)
  {
    var x := s.turns[t];
    match x.pc
    case AddUser(n) => UserRow(n, x.req.prompt, x.req.key, t)
    case AddReply(o, n) => ReplyRow(n, o.content, o.status, o.finish, t)
  }

  predicate Enabled(s: State, a: Action) {
    match a
    case Begin(t, _) => t !in s.turns
    case Call(t) =>
      && t in s.turns
      && var pc := s.turns[t].pc;
         || pc.Find? || pc.Fetch? || pc.ReadLatest? || pc.ReadTail? || pc.Ready?
         || ((pc.AllocUser? || pc.AllocReply?) && LockFree(s, t))
         || ((pc.AddUser? || pc.AddReply?) && !InsertWaits(s, t, Inserting(s, t)))
    case Generated(t, _) => t in s.turns && s.turns[t].pc.Generate?
    case Summarized(t, _) => t in s.turns && s.turns[t].pc.Summarize?
    case Abort(t) => t in s.turns && s.turns[t].pc.Open()
    case Delete(d) => d !in s.clearing
    case CommitDelete(d) => d in s.clearing && s.clearing[d] <= |s.db.summaries|
    case AbortDelete(d) => d in s.clearing
  }

  function Put(s: State, t: nat, x: Turn): State {
    s.(turns := s.turns[t := x])
  }

  /** Roll the turn back: its rows vanish and the row lock, if it held it, is free again. */
  function RolledBack(s: State, t: nat): State
    requires t in s.turns
  {
    var x := s.turns[t];
    Put(s, t, x.(pc := Failed, rows := [], summary := None))
      .(lock := if s.lock == Some(t) then None else s.lock)
  }

  /** The next value of next_seq the turn reads under the lock. */
  function NextSeqFor(s: State, t: nat): nat
    requires t in s.turns
  {
    if s.lock == Some(t) then s.turns[t].next else s.db.nextSeq
  }

  function Committed(s: State, t: nat): State
    requires t in s.turns
  {
    var x := s.turns[t];
    var db := Db(x.next, s.db.rows + x.rows,
                 s.db.summaries + if x.summary.Some? then [x.summary.value] else []);
    Put(s, t, x.(pc := Done)).(db := db, lock := None)
  }

  /** The turn after it has stored its assistant row. */
  function WithReply(x: Turn, m: Message): Turn
    requires x.pc.AddReply?
  {
    x.(pc := if x.pc.outcome.status == Complete then ReadLatest else Ready(Unasked), rows := x.rows + [m])
  }

  /** The turn after it has read the messages past its summary. */
  function WithTail(db: Db, threshold: int, x: Turn): Turn {
    var tail := After(db.rows + x.rows, Covered(x.base));
    x.(pc := if |tail| < threshold then Ready(NotDue) else Summarize(tail))
  }

  function Called(s: State, t: nat): State
    requires Enabled(s, Call(t))
  {
    var x := s.turns[t];
    match x.pc
    case Find(key) =>
      var prior := FindByKey(s.db.rows + x.rows, key);
      Put(s, t, x.(pc := if prior.Some? then Fetch(prior.value) else AllocUser))
    case Fetch(prior) =>
      var reply := BySeq(s.db.rows + x.rows, prior.seqNo + 1);
      Put(s, t, x.(pc := if reply.Some? || x.req.kind.Streaming? then Replied(reply) else AllocUser))
    case AllocUser =>
      var n := NextSeqFor(s, t);
      Put(s, t, x.(pc := AddUser(n), next := n + 1)).(lock := Some(t))
    case AddUser(n) =>
      var m := Inserting(s, t);
      if Clashes(s.db.rows + x.rows, m) then RolledBack(s, t)
      else Put(s, t, x.(pc := Generate, rows := x.rows + [m]))
    case AllocReply(o) =>
      var n := NextSeqFor(s, t);
      Put(s, t, x.(pc := AddReply(o, n), next := n + 1)).(lock := Some(t))
    case AddReply(o, n) =>
      var m := Inserting(s, t);
      if Clashes(s.db.rows + x.rows, m) then RolledBack(s, t)
      else Put(s, t, WithReply(x, m))
    case ReadLatest =>
      Put(s, t, x.(pc := ReadTail, base := Latest(s.db.summaries)))
    case ReadTail =>
      Put(s, t, WithTail(s.db, s.threshold, x))
    case Ready(_) => Committed(s, t)
    case _ => s
  }

  /** The turn after it has stored a summary. */
  function WithSummary(x: Turn, z: Summary): Turn {
    x.(pc := Ready(Written), summary := Some(z))
  }

  /** The unique index on (session, version). */
  predicate VersionTaken(db: Db, z: Summary) {
    exists y :: y in db.summaries && y.version == z.version
  }

  /** Store the summariser's text; with no text, or nothing to summarise, the turn goes on without. */
  function Summarised(s: State, t: nat, text: Option<string>): State
    requires Enabled(s, Summarized(t, text))
  {
    var x := s.turns[t];
    var tail := x.pc.tail;
    if text.None? || tail == [] then Put(s, t, x.(pc := Ready(NoText)))
    else
      var z := NextSummary(x.base, tail, text.value);
      if VersionTaken(s.db, z) then RolledBack(s, t)
      else Put(s, t, WithSummary(x, z))
  }

  function Next(s: State, a: Action): State
    requires Enabled(s, a)
  {
    match a
    case Begin(t, req) =>
      var pc := if req.key.Some? then Find(req.key.value) else AllocUser;
      Put(s, t, Turn(req, pc, 0, [], None, None))
    case Call(t) => Called(s, t)
    case Generated(t, o) => Put(s, t, s.turns[t].(pc := AllocReply(o)))
    case Summarized(t, text) => Summarised(s, t, text)
    case Abort(t) => RolledBack(s, t)
    case Delete(d) => s.(clearing := s.clearing[d := |s.db.summaries|])
    case CommitDelete(d) =>
      var k := s.clearing[d];
      s.(db := s.db.(summaries := s.db.summaries[k..]),
         clearing := map e | e in s.clearing && e != d :: if s.clearing[e] > k then s.clearing[e] - k else 0)
    case AbortDelete(d) => s.(clearing := s.clearing - {d})
  }

  /** The state a schedule leads to, if every action in it is enabled when its turn comes. */
  function Exec(s: State, actions: seq<Action>): Option<State>
    decreases |actions|
  {
    if actions == [] then Some(s)
    else if Enabled(s, actions[0]) then Exec(Next(s, actions[0]), actions[1..])
    else None
  }

  /** Some schedule leads from `s` to `s'`. */
  ghost predicate Leads(s: State, s': State) {
    exists actions :: Exec(s, actions) == Some(s')
  }

  lemma {:induction false} ExecAppend(s: State, actions: seq<Action>, a: Action)
    requires Exec(s, actions).Some? && Enabled(Exec(s, actions).value, a)
    ensures Exec(s, actions + [a]) == Some(Next(Exec(s, actions).value, a))
    decreases |actions|
  {
    if actions == [] {
      assert [a][1..] == [];
    } else {
      assert (actions + [a])[1..] == actions[1..] + [a];
      ExecAppend(Next(s, actions[0]), actions[1..], a);
    }
  }

  lemma LeadsOn(s: State, s': State, a: Action)
    requires Leads(s, s') && Enabled(s', a)
    ensures Leads(s, Next(s', a))
  {
    var actions :| Exec(s, actions) == Some(s');
    ExecAppend(s, actions, a);
  }

  lemma LeadsToItself(s: State)
    ensures Leads(s, s)
  {
    assert Exec(s, []) == Some(s);
  }

  // ---- what every step keeps ---------------------------------------------------

  ghost predicate KeyUnused(db: Db, x: Turn) {
    x.req.key.Some? ==> forall m :: m in db.rows ==> m.key != x.req.key
  }

  ghost predicate HasUserRow(db: Db, t: nat, x: Turn) {
    x.rows == [UserRow(|db.rows| + 1, x.req.prompt, x.req.key, t)] && KeyUnused(db, x)
  }

  ghost predicate HasTurnRows(db: Db, t: nat, x: Turn) {
    && |x.rows| == 2 && x.next == |db.rows| + 3
    && x.rows[0] == UserRow(|db.rows| + 1, x.req.prompt, x.req.key, t)
    && x.rows[1].seqNo == |db.rows| + 2 && x.rows[1].role == Assistant
    && x.rows[1].author == t && x.rows[1].key == None
    && KeyUnused(db, x)
  }

  /** The summary read by an open turn is still the last one, or a deletion has removed them all. */
  ghost predicate BaseStands(db: Db, x: Turn) {
    && (x.base.None? ==> db.summaries == [])
    && (x.base.Some? ==>
          && Represents(x.base.value, db.rows) && x.base.value.version >= 1
          && (db.summaries == [] || db.summaries[|db.summaries| - 1] == x.base.value))
  }

  ghost predicate Untouched(x: Turn) {
    x.rows == [] && x.summary == None
  }

  /** Rows i and i+1 are the committed turn of `key`. */
  ghost predicate TurnOfKey(rows: seq<Message>, key: Option<string>, i: nat) {
    i % 2 == 0 && i + 1 < |rows| && key.Some? && rows[i].key == key
  }

  ghost predicate TurnOk(db: Db, threshold: int, t: nat, x: Turn) {
    && (!x.pc.Ready? && !x.pc.Done? ==> x.summary == None)
    && match x.pc
       case Find(key) => Untouched(x) && x.req.key == Some(key)
       case Fetch(prior) => Untouched(x) && x.req.key.Some? && prior in db.rows && prior.key == x.req.key
       case AllocUser => Untouched(x)
       case AddUser(n) => x.rows == [] && n == |db.rows| + 1 && x.next == n + 1
       case Generate => HasUserRow(db, t, x) && x.next == |db.rows| + 2
       case AllocReply(_) => HasUserRow(db, t, x) && x.next == |db.rows| + 2
       case AddReply(_, n) => HasUserRow(db, t, x) && n == |db.rows| + 2 && x.next == n + 1
       case ReadLatest => HasTurnRows(db, t, x)
       case ReadTail => HasTurnRows(db, t, x) && BaseStands(db, x)
       case Summarize(tail) =>
         && HasTurnRows(db, t, x) && BaseStands(db, x)
         && tail == (db.rows + x.rows)[Covered(x.base)..]
       case Ready(attempt) =>
         && HasTurnRows(db, t, x)
         && (x.summary.Some? <==> attempt == Written)
         && (attempt == NotDue ==> BaseStands(db, x) && |db.rows| + 2 - Covered(x.base) < threshold)
         && (attempt == Written ==>
               && BaseStands(db, x)
               && var z := x.summary.value;
                  && z.version == (if x.base.Some? then x.base.value.version + 1 else 1)
                  && z.covers == |db.rows| + 2 && z.sources == db.rows + x.rows)
       case Done =>
         && OwnsTurn(db.rows, x.rows)
         && x.rows[0] == UserRow(x.rows[0].seqNo, x.req.prompt, x.req.key, t)
       case Replied(reply) =>
         && Untouched(x) && reply.Some?
         && exists i: nat :: TurnOfKey(db.rows, x.req.key, i) && reply.value == db.rows[i + 1]
       case Failed => Untouched(x)
  }

  /** `mine` stands in `rows` as one whole turn. */
  ghost predicate OwnsTurn(rows: seq<Message>, mine: seq<Message>) {
    |mine| == 2 && exists i: nat :: TurnAt(rows, mine, i)
  }

  ghost predicate TurnAt(rows: seq<Message>, mine: seq<Message>, i: nat) {
    i % 2 == 0 && i + 1 < |rows| && |mine| == 2 && rows[i] == mine[0] && rows[i + 1] == mine[1]
  }

  /** Every committed turn belongs to one finished request, and no request owns two. */
  ghost predicate Owned(s: State) {
    && (forall i: nat :: i % 2 == 0 && i + 1 < |s.db.rows| ==>
          var a := s.db.rows[i].author;
          a in s.turns && s.turns[a].pc.Done? && TurnAt(s.db.rows, s.turns[a].rows, i))
    && (forall i: nat, j: nat :: i % 2 == 0 && j % 2 == 0 && i < j && j + 1 < |s.db.rows| ==>
          s.db.rows[i].author != s.db.rows[j].author)
  }

  ghost predicate LockOk(s: State) {
    && (s.lock.Some? ==> s.lock.value in s.turns && s.turns[s.lock.value].pc.Holding())
    && (forall t :: t in s.turns && s.turns[t].pc.Holding() ==> s.lock == Some(t))
  }

  ghost predicate Inv(s: State) {
    && GapFree(s.db) && Paired(s.db.rows) && DistinctKeys(s.db.rows)
    && Chain(s.db.summaries, s.db.rows)
    && Owned(s) && LockOk(s)
    && (forall d :: d in s.clearing ==> s.clearing[d] <= |s.db.summaries|)
    && (forall t :: t in s.turns ==> TurnOk(s.db, s.threshold, t, s.turns[t]))
  }

  lemma InitOk(threshold: int)
    ensures Inv(Init(threshold))
  {
  }

  /** An open turn that is not `t` writes nothing while `t` holds the lock, so `t` never waits to insert. */
  lemma NeverWaits(s: State, t: nat)
    requires Inv(s) && t in s.turns && (s.turns[t].pc.AddUser? || s.turns[t].pc.AddReply?)
    ensures !InsertWaits(s, t, Inserting(s, t))
  {
    forall u | u in s.turns && u != t && s.turns[u].pc.Open()
      ensures !Clashes(s.turns[u].rows, Inserting(s, t))
    {
      assert !s.turns[u].pc.Holding();
    }
  }

  /** The owner of a committed key has its reply one row later. */
  lemma PriorHasReply(s: State, prior: Message)
    requires Inv(s) && prior in s.db.rows && prior.key.Some?
    ensures exists i: nat :: TurnOfKey(s.db.rows, prior.key, i)
                          && BySeq(s.db.rows, prior.seqNo + 1) == Some(s.db.rows[i + 1])
  {
    var i :| 0 <= i < |s.db.rows| && s.db.rows[i] == prior;
    TurnStart(s.db.rows, i);
    BySeqIsIndex(s.db, prior.seqNo + 1);
    assert TurnOfKey(s.db.rows, prior.key, i);
  }

  /** A step that leaves the store and the other turns alone keeps the invariant. */
  lemma LocalStep(s: State, t: nat, x: Turn, lock: Option<nat>)
    requires Inv(s)
    requires TurnOk(s.db, s.threshold, t, x)
    requires t in s.turns ==> !s.turns[t].pc.Done?
    requires !x.pc.Done?
    requires LockOk(Put(s, t, x).(lock := lock))
    ensures Inv(Put(s, t, x).(lock := lock))
  {
    var s' := Put(s, t, x).(lock := lock);
    assert Owned(s') by {
      forall i: nat | i % 2 == 0 && i + 1 < |s.db.rows|
        ensures var a := s.db.rows[i].author;
                a in s'.turns && s'.turns[a].pc.Done? && TurnAt(s.db.rows, s'.turns[a].rows, i)
      {
        assert s.db.rows[i].author != t || t !in s.turns;
      }
    }
  }

  /** So does one that also leaves the row lock alone. */
  lemma QuietStep(s: State, t: nat, x: Turn)
    requires Inv(s) && t in s.turns && !s.turns[t].pc.Done? && !x.pc.Done?
    requires x.pc.Holding() <==> s.turns[t].pc.Holding()
    requires TurnOk(s.db, s.threshold, t, x)
    ensures Inv(Put(s, t, x))
  {
    LocalStep(s, t, x, s.lock);
  }

  lemma RollbackKeeps(s: State, t: nat)
    requires Inv(s) && t in s.turns && s.turns[t].pc.Open()
    ensures Inv(RolledBack(s, t))
  {
    var x := s.turns[t].(pc := Failed, rows := [], summary := None);
    LocalStep(s, t, x, if s.lock == Some(t) then None else s.lock);
  }

  lemma FetchKeeps(s: State, t: nat)
    requires Inv(s) && Enabled(s, Call(t)) && s.turns[t].pc.Fetch?
    ensures Inv(Called(s, t))
    ensures Called(s, t).turns[t].pc.Replied?
  {
    var x := s.turns[t];
    assert s.db.rows + x.rows == s.db.rows;
    PriorHasReply(s, x.pc.prior);
    QuietStep(s, t, x.(pc := Replied(BySeq(s.db.rows, x.pc.prior.seqNo + 1))));
  }

  lemma FreshTurnOk(db: Db, threshold: int, t: nat, x: Turn)
    requires x.pc.AddUser? && TurnOk(db, threshold, t, x) && KeyUnused(db, x)
    ensures var m := UserRow(x.pc.mine, x.req.prompt, x.req.key, t);
            TurnOk(db, threshold, t, x.(pc := Generate, rows := x.rows + [m]))
  {
    var m := UserRow(x.pc.mine, x.req.prompt, x.req.key, t);
    assert x.rows + [m] == [m];
  }

  lemma FreshUserKeeps(s: State, t: nat)
    requires Inv(s) && Enabled(s, Call(t)) && s.turns[t].pc.AddUser? && KeyUnused(s.db, s.turns[t])
    requires !Clashes(s.db.rows, Inserting(s, t))
    ensures Inv(Called(s, t)) && Called(s, t).turns[t].pc == Generate
  {
    var x := s.turns[t];
    FreshTurnOk(s.db, s.threshold, t, x);
    assert s.db.rows + x.rows == s.db.rows;
    QuietStep(s, t, x.(pc := Generate, rows := x.rows + [Inserting(s, t)]));
  }

  lemma AddUserKeeps(s: State, t: nat)
    requires Inv(s) && Enabled(s, Call(t)) && s.turns[t].pc.AddUser?
    ensures Inv(Called(s, t))
    ensures Called(s, t).turns[t].pc.Failed? <==> !KeyUnused(s.db, s.turns[t])
  {
    var m := Inserting(s, t);
    UserRowClashes(s.db, s.turns[t], m);
    if Clashes(s.db.rows, m) {
      assert s.db.rows + s.turns[t].rows == s.db.rows;
      RollbackKeeps(s, t);
    } else {
      FreshUserKeeps(s, t);
    }
  }

  /** A new user row clashes with a committed row only through its key. */
  lemma UserRowClashes(db: Db, x: Turn, m: Message)
    requires GapFree(db) && m.seqNo == |db.rows| + 1 && m.key == x.req.key
    ensures Clashes(db.rows, m) <==> !KeyUnused(db, x)
  {
    if !KeyUnused(db, x) {
      var r :| r in db.rows && r.key == x.req.key;
      assert Clash(r, m);
    } else {
      assert forall r :: r in db.rows ==> !Clash(r, m);
    }
  }

  /** The assistant row clashes with nothing, and completes the turn's rows. */
  lemma ReplyTurnOk(db: Db, threshold: int, t: nat, x: Turn, m: Message)
    requires GapFree(db) && x.pc.AddReply? && TurnOk(db, threshold, t, x)
    requires m == ReplyRow(x.pc.mine, x.pc.outcome.content, x.pc.outcome.status, x.pc.outcome.finish, t)
    ensures !Clashes(db.rows + x.rows, m)
    ensures TurnOk(db, threshold, t, WithReply(x, m))
  {
    assert forall r :: r in db.rows + x.rows ==> r.seqNo < m.seqNo;
  }

  lemma AddReplyKeeps(s: State, t: nat)
    requires Inv(s) && Enabled(s, Call(t)) && s.turns[t].pc.AddReply?
    ensures Inv(Called(s, t))
    ensures !Called(s, t).turns[t].pc.Failed?
  {
    ReplyTurnOk(s.db, s.threshold, t, s.turns[t], Inserting(s, t));
    QuietStep(s, t, WithReply(s.turns[t], Inserting(s, t)));
  }

  lemma ReadLatestKeeps(s: State, t: nat)
    requires Inv(s) && Enabled(s, Call(t)) && s.turns[t].pc.ReadLatest?
    ensures Inv(Called(s, t))
  {
    if s.db.summaries != [] {
      LatestIsLast(s.db.summaries);
    }
    QuietStep(s, t, s.turns[t].(pc := ReadTail, base := Latest(s.db.summaries)));
  }

  /** What a turn reads as the tail: everything past the summary it read, its own rows included. */
  lemma TailRead(db: Db, threshold: int, t: nat, x: Turn)
    requires GapFree(db) && x.pc.ReadTail? && TurnOk(db, threshold, t, x)
    ensures var tail := After(db.rows + x.rows, Covered(x.base));
            tail == (db.rows + x.rows)[Covered(x.base)..]
    ensures TurnOk(db, threshold, t, WithTail(db, threshold, x))
  {
    AfterIsSuffix(db.rows + x.rows, 0, Covered(x.base));
  }

  lemma QuietTail(s: State, t: nat, x: Turn)
    requires Inv(s) && t in s.turns && s.turns[t].pc.ReadTail? && x == WithTail(s.db, s.threshold, s.turns[t])
    requires TurnOk(s.db, s.threshold, t, x)
    ensures Inv(Put(s, t, x))
  {
    QuietStep(s, t, x);
  }

  lemma ReadTailKeeps(s: State, t: nat)
    requires Inv(s) && Enabled(s, Call(t)) && s.turns[t].pc.ReadTail?
    ensures Inv(Called(s, t))
  {
    TailRead(s.db, s.threshold, t, s.turns[t]);
    QuietTail(s, t, WithTail(s.db, s.threshold, s.turns[t]));
  }

  /** The next version is not taken: deletions only remove, and nobody else stores one under the lock. */
  lemma NextVersionIsFree(db: Db, base: Option<Summary>, z: Summary)
    requires Chain(db.summaries, db.rows) && z.version == (if base.Some? then base.value.version + 1 else 1)
    requires base.None? ==> db.summaries == []
    requires base.Some? ==> db.summaries == [] || db.summaries[|db.summaries| - 1] == base.value
    ensures !VersionTaken(db, z)
    ensures forall y :: y in db.summaries ==> y.version < z.version
  {
    var zs := db.summaries;
    if zs != [] {
      assert zs[|zs| - 1].version == zs[0].version + (|zs| - 1);
    }
  }

  /** The summary written after a turn stands for the whole transcript, that turn included. */
  lemma SummaryWritten(db: Db, threshold: int, t: nat, x: Turn, text: string)
    requires GapFree(db) && Chain(db.summaries, db.rows)
    requires x.pc.Summarize? && TurnOk(db, threshold, t, x)
    ensures x.pc.tail != []
    ensures var z := NextSummary(x.base, x.pc.tail, text);
            (forall y :: y in db.summaries ==> y.version < z.version) && !VersionTaken(db, z)
    ensures NextSummary(x.base, x.pc.tail, text) ==
              Summary(if x.base.Some? then x.base.value.version + 1 else 1, |db.rows| + 2, text, db.rows + x.rows)
    ensures TurnOk(db, threshold, t, WithSummary(x, NextSummary(x.base, x.pc.tail, text)))
  {
    var all := db.rows + x.rows;
    var c := Covered(x.base);
    assert x.pc.tail == all[c..] && |all| == |db.rows| + 2;
    assert db.rows[..c] == all[..c];
    SplitAt(all, c);
    NextVersionIsFree(db, x.base, NextSummary(x.base, x.pc.tail, text));
  }

  lemma SummaryStored(s: State, t: nat, text: string)
    requires Enabled(s, Summarized(t, Some(text))) && s.turns[t].pc.tail != []
    requires !VersionTaken(s.db, NextSummary(s.turns[t].base, s.turns[t].pc.tail, text))
    ensures var x := s.turns[t];
            Summarised(s, t, Some(text)) == Put(s, t, WithSummary(x, NextSummary(x.base, x.pc.tail, text)))
  {
  }

  lemma WrittenKeeps(s: State, t: nat, z: Summary)
    requires Inv(s) && t in s.turns && s.turns[t].pc.Summarize?
    requires TurnOk(s.db, s.threshold, t, WithSummary(s.turns[t], z))
    ensures Inv(Put(s, t, WithSummary(s.turns[t], z)))
  {
    QuietStep(s, t, WithSummary(s.turns[t], z));
  }

  lemma SummarizedKeeps(s: State, t: nat, text: Option<string>)
    requires Inv(s) && Enabled(s, Summarized(t, text))
    ensures Inv(Summarised(s, t, text))
    ensures Summarised(s, t, text).turns[t].pc == Ready(if text.Some? then Written else NoText)
  {
    if text.None? {
      QuietStep(s, t, s.turns[t].(pc := Ready(NoText)));
    } else {
      SummaryWritten(s.db, s.threshold, t, s.turns[t], text.value);
      SummaryStored(s, t, text.value);
      WrittenKeeps(s, t, NextSummary(s.turns[t].base, s.turns[t].pc.tail, text.value));
    }
  }

  lemma PairedAppend(rows: seq<Message>, more: seq<Message>)
    requires Paired(rows) && Paired(more) && |more| == 2
    ensures Paired(rows + more)
  {
    var all, n := rows + more, |rows|;
    forall i | 0 <= i < |all| && i % 2 == 0
      ensures all[i].role == User && all[i + 1].role == Assistant
      ensures all[i + 1].author == all[i].author && all[i + 1].key == None
    {
      if i >= n {
        assert i == n;
        assert all[n] == more[0] && all[n + 1] == more[1];
      }
    }
  }

  lemma KeysAppend(rows: seq<Message>, more: seq<Message>)
    requires DistinctKeys(rows) && |more| == 2 && more[1].key == None
    requires more[0].key.Some? ==> forall m :: m in rows ==> m.key != more[0].key
    ensures DistinctKeys(rows + more)
  {
    var all := rows + more;
    forall i, j | 0 <= i < j < |all| && all[i].key.Some?
      ensures all[i].key != all[j].key
    {
      if i < |rows| <= j {
        assert rows[i] in rows;
      }
    }
  }

  lemma CommitRows(db: Db, threshold: int, t: nat, x: Turn, summaries: seq<Summary>)
    requires GapFree(db) && Paired(db.rows) && DistinctKeys(db.rows)
    requires x.pc.Ready? && TurnOk(db, threshold, t, x)
    ensures var rows := db.rows + x.rows;
            GapFree(Db(x.next, rows, summaries)) && Paired(rows) && DistinctKeys(rows)
  {
    PairedAppend(db.rows, x.rows);
    KeysAppend(db.rows, x.rows);
  }

  lemma ChainGrows(summaries: seq<Summary>, rows: seq<Message>, more: seq<Message>)
    requires Chain(summaries, rows)
    ensures Chain(summaries, rows + more)
  {
    forall z | z in summaries
      ensures Represents(z, rows + more)
    {
      assert (rows + more)[..z.covers] == rows[..z.covers];
    }
  }

  lemma ChainAppend(summaries: seq<Summary>, rows: seq<Message>, z: Summary)
    requires Chain(summaries, rows) && Represents(z, rows) && z.version >= 1
    requires summaries != [] ==>
               var last := summaries[|summaries| - 1]; z.version == last.version + 1 && last.covers < z.covers
    ensures Chain(summaries + [z], rows)
  {
    var n := |summaries|;
    assert n > 0 ==> summaries[n - 1].version == summaries[0].version + (n - 1);
    assert forall j :: 0 <= j < n ==> summaries[j].covers <= summaries[n - 1].covers;
  }

  lemma CommitChain(db: Db, threshold: int, t: nat, x: Turn)
    requires Chain(db.summaries, db.rows)
    requires x.pc.Ready? && TurnOk(db, threshold, t, x)
    ensures Chain(db.summaries + if x.summary.Some? then [x.summary.value] else [], db.rows + x.rows)
  {
    var rows := db.rows + x.rows;
    ChainGrows(db.summaries, db.rows, x.rows);
    if x.summary.Some? {
      assert rows[..|rows|] == rows;
      assert db.summaries != [] ==> db.summaries[|db.summaries| - 1] in db.summaries;
      ChainAppend(db.summaries, rows, x.summary.value);
    } else {
      assert db.summaries + [] == db.summaries;
    }
  }

  /** A turn that starts at an even position of the rows belongs to a request that has ended. */
  lemma OwnerIsDone(s: State, i: nat)
    requires Owned(s) && i % 2 == 0 && i + 1 < |s.db.rows|
    ensures var a := s.db.rows[i].author; a in s.turns && s.turns[a].pc.Done? && TurnAt(s.db.rows, s.turns[a].rows, i)
  {
  }

  lemma CommitOwned(s: State, t: nat)
    requires Inv(s) && t in s.turns && s.turns[t].pc.Ready?
    ensures Owned(Committed(s, t))
  {
    assert TurnOk(s.db, s.threshold, t, s.turns[t]);
    OwnedExtends(s, Committed(s, t), t);
  }

  lemma OwnedExtends(s: State, s': State, t: nat)
    requires Owned(s) && |s.db.rows| % 2 == 0 && t in s.turns && !s.turns[t].pc.Done?
    requires s'.turns == s.turns[t := s.turns[t].(pc := Done)]
    requires |s.turns[t].rows| == 2 && s'.db.rows == s.db.rows + s.turns[t].rows && s.turns[t].rows[0].author == t
    ensures Owned(s')
  {
    var n := |s.db.rows|;
    forall i: nat | i % 2 == 0 && i + 1 < |s'.db.rows|
      ensures var a := s'.db.rows[i].author;
              a in s'.turns && s'.turns[a].pc.Done? && TurnAt(s'.db.rows, s'.turns[a].rows, i)
    {
      if i < n {
        OwnerIsDone(s, i);
      } else {
        assert i == n;
      }
    }
    forall i: nat, j: nat | i % 2 == 0 && j % 2 == 0 && i < j && j + 1 < |s'.db.rows|
      ensures s'.db.rows[i].author != s'.db.rows[j].author
    {
      OwnerIsDone(s, i);
      if j >= n {
        assert j == n;
      }
    }
  }

  /** What the commit of another turn leaves true of a turn without the row lock. */
  lemma OtherTurnOk(db: Db, db': Db, threshold: int, u: nat, x: Turn)
    requires TurnOk(db, threshold, u, x) && !x.pc.Holding()
    requires db.rows <= db'.rows
    ensures TurnOk(db', threshold, u, x)
  {
    if x.pc.Done? {
      var i: nat :| TurnAt(db.rows, x.rows, i);
      assert TurnAt(db'.rows, x.rows, i);
    } else if x.pc.Replied? {
      var i: nat :| TurnOfKey(db.rows, x.req.key, i) && x.pc.reply.value == db.rows[i + 1];
      assert TurnOfKey(db'.rows, x.req.key, i) && x.pc.reply.value == db'.rows[i + 1];
    }
  }

  lemma CommitTurns(s: State, t: nat)
    requires Inv(s) && t in s.turns && s.turns[t].pc.Ready?
    ensures var s' := Committed(s, t);
            forall u :: u in s'.turns ==> TurnOk(s'.db, s'.threshold, u, s'.turns[u])
  {
    var s' := Committed(s, t);
    forall u | u in s'.turns
      ensures TurnOk(s'.db, s'.threshold, u, s'.turns[u])
    {
      if u == t {
        assert TurnAt(s'.db.rows, s'.turns[u].rows, |s.db.rows|);
      } else {
        OtherTurnOk(s.db, s'.db, s.threshold, u, s.turns[u]);
      }
    }
  }

  lemma CommitStore(s: State, t: nat)
    requires Inv(s) && t in s.turns && s.turns[t].pc.Ready?
    ensures var db := Committed(s, t).db;
            GapFree(db) && Paired(db.rows) && DistinctKeys(db.rows) && Chain(db.summaries, db.rows)
  {
    CommitRows(s.db, s.threshold, t, s.turns[t], Committed(s, t).db.summaries);
    CommitChain(s.db, s.threshold, t, s.turns[t]);
  }

  lemma CommitLock(s: State, t: nat)
    requires LockOk(s) && t in s.turns && s.turns[t].pc.Ready?
    ensures LockOk(Committed(s, t))
  {
    assert s.turns[t].pc.Holding();
  }

  lemma CommitKeeps(s: State, t: nat)
    requires Inv(s) && t in s.turns && s.turns[t].pc.Ready?
    ensures Inv(Committed(s, t))
  {
    CommitStore(s, t);
    CommitLock(s, t);
    CommitOwned(s, t);
    CommitTurns(s, t);
  }

  lemma FindKeeps(s: State, t: nat)
    requires Inv(s) && Enabled(s, Call(t)) && s.turns[t].pc.Find?
    ensures Inv(Called(s, t))
  {
    var x := s.turns[t];
    assert s.db.rows + x.rows == s.db.rows;
    var prior := FindByKey(s.db.rows, x.pc.wanted);
    QuietStep(s, t, x.(pc := if prior.Some? then Fetch(prior.value) else AllocUser));
  }

  lemma AllocUserKeeps(s: State, t: nat)
    requires Inv(s) && Enabled(s, Call(t)) && s.turns[t].pc.AllocUser?
    ensures Inv(Called(s, t))
  {
    assert s.lock == None;
    LocalStep(s, t, s.turns[t].(pc := AddUser(s.db.nextSeq), next := s.db.nextSeq + 1), Some(t));
  }

  lemma AllocReplyKeeps(s: State, t: nat)
    requires Inv(s) && Enabled(s, Call(t)) && s.turns[t].pc.AllocReply?
    ensures Inv(Called(s, t))
  {
    var x := s.turns[t];
    QuietStep(s, t, x.(pc := AddReply(x.pc.outcome, x.next), next := x.next + 1));
  }

  lemma CallKeeps(s: State, t: nat)
    requires Inv(s) && Enabled(s, Call(t))
    ensures Inv(Called(s, t))
  {
    match s.turns[t].pc
    case Find(_) => FindKeeps(s, t);
    case Fetch(_) => FetchKeeps(s, t);
    case AllocUser => AllocUserKeeps(s, t);
    case AddUser(_) => AddUserKeeps(s, t);
    case AllocReply(_) => AllocReplyKeeps(s, t);
    case AddReply(_, _) => AddReplyKeeps(s, t);
    case ReadLatest => ReadLatestKeeps(s, t);
    case ReadTail => ReadTailKeeps(s, t);
    case Ready(_) => CommitKeeps(s, t);
    case _ =>
  }

  lemma ChainSuffix(summaries: seq<Summary>, rows: seq<Message>, k: nat)
    requires Chain(summaries, rows) && k <= |summaries|
    ensures Chain(summaries[k..], rows)
  {
    var rest := summaries[k..];
    assert forall z :: z in rest ==> z in summaries;
    assert rest != [] ==> rest[0] == summaries[k];
  }

  lemma DeletedTurnOk(db: Db, k: nat, threshold: int, u: nat, x: Turn)
    requires TurnOk(db, threshold, u, x) && k <= |db.summaries|
    ensures TurnOk(db.(summaries := db.summaries[k..]), threshold, u, x)
  {
    var rest := db.summaries[k..];
    assert rest != [] ==> rest[|rest| - 1] == db.summaries[|db.summaries| - 1];
  }

  lemma DeleteKeeps(s: State, d: nat)
    requires Inv(s) && Enabled(s, CommitDelete(d))
    ensures Inv(Next(s, CommitDelete(d)))
  {
    ChainSuffix(s.db.summaries, s.db.rows, s.clearing[d]);
    var s' := Next(s, CommitDelete(d));
    forall u | u in s'.turns
      ensures TurnOk(s'.db, s'.threshold, u, s'.turns[u])
    {
      DeletedTurnOk(s.db, s.clearing[d], s.threshold, u, s.turns[u]);
    }
  }

  /** Every store call, of every turn, in every state: the invariant is inductive. */
  lemma StepKeeps(s: State, a: Action)
    requires Inv(s) && Enabled(s, a)
    ensures Inv(Next(s, a))
  {
    match a
    case Begin(t, req) =>
      var pc := if req.key.Some? then Find(req.key.value) else AllocUser;
      LocalStep(s, t, Turn(req, pc, 0, [], None, None), s.lock);
    case Call(t) => CallKeeps(s, t);
    case Generated(t, o) => QuietStep(s, t, s.turns[t].(pc := AllocReply(o)));
    case Summarized(t, text) => SummarizedKeeps(s, t, text);
    case Abort(t) => RollbackKeeps(s, t);
    case CommitDelete(d) => DeleteKeeps(s, d);
    case _ =>
  }

  lemma {:induction false} RunKeeps(s: State, actions: seq<Action>)
    requires Inv(s) && Exec(s, actions).Some?
    ensures Inv(Exec(s, actions).value)
    decreases |actions|
  {
    if actions != [] {
      StepKeeps(s, actions[0]);
      RunKeeps(Next(s, actions[0]), actions[1..]);
    }
  }
}
