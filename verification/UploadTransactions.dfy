/**
 Uploads of one user that overlap. Each request is one transaction
 (backend-python/app/db/session.py:18-26): its reservation takes the counter row of its day and keeps it
 until the end, so that a second upload of the day waits; an upload that spans midnight does not hold up
 one of the next day.
 */
module UploadTransactions {
  import opened Wrappers
  import opened UploadQuota

  type Upload = nat

  /** An open upload that has reserved a slot of `day`, and may also have released one, of that day or the next. */
  datatype Phase = Reserved(day: Day) | Released(day: Day)

  /** `rows` holds the committed counters, `done` the day of every upload that has committed. */
  datatype State = State(quota: int, today: Day, rows: Rows, open: map<Upload, Phase>, done: seq<Day>)

  datatype Action =
    | Reserve(u: Upload)
    | Release(u: Upload)
    | Commit(u: Upload)
    | Rollback(u: Upload)
    | NextDay

  function Init(quota: int): State {
    State(quota, 0, map[], map[], [])
  }

  /** No open upload holds the counter row of `day` since its reservation. */
  predicate RowFree(s: State, day: Day) {
    forall v :: v in s.open ==> s.open[v].day != day
  }

  /**
   An upload that has released its slot has failed, and its request only rolls back; that the release may
   have to wait for a row, too, is not needed below.
   */
  predicate Enabled(s: State, a: Action) {
    match a
    case Reserve(u) => u !in s.open && RowFree(s, s.today)
    case Release(u) => u in s.open && s.open[u].Reserved?
    case Commit(u) => u in s.open && s.open[u].Reserved?
    case Rollback(u) => u in s.open
    case NextDay => true
  }

  function Next(s: State, a: Action): State
    requires Enabled(s, a)
  {
    match a
    case Reserve(u) => if Grants(s.rows, s.today, s.quota) then s.(open := s.open[u := Reserved(s.today)]) else s
    case Release(u) => s.(open := s.open[u := Released(s.open[u].day)])
    case Commit(u) =>
      var day := s.open[u].day;
      s.(rows := s.rows[day := Count(s.rows, day) + 1], open := s.open - {u}, done := s.done + [day])
    case Rollback(u) => s.(open := s.open - {u})
    case NextDay => s.(today := s.today + 1)
  }

  function Exec(s: State, actions: seq<Action>): Option<State>
    decreases |actions|
  {
    if actions == [] then Some(s)
    else if Enabled(s, actions[0]) then Exec(Next(s, actions[0]), actions[1..])
    else None
  }

  /** How many uploads of `day` have committed. */
  function Uploads(done: seq<Day>, day: Day): nat {
    if done == [] then 0 else Uploads(done[..|done| - 1], day) + if done[|done| - 1] == day then 1 else 0
  }

  lemma UploadsOn(done: seq<Day>, last: Day, day: Day)
    ensures Uploads(done + [last], day) == Uploads(done, day) + if last == day then 1 else 0
  {
    assert (done + [last])[..|done|] == done;
  }

  /** No two open uploads hold one row, and an open upload's slot is still free. */
  ghost predicate Exclusive(s: State) {
    && (forall u, v :: u in s.open && v in s.open && u != v ==> s.open[u].day != s.open[v].day)
    && (forall u :: u in s.open ==> Grants(s.rows, s.open[u].day, s.quota))
  }

  ghost predicate Counted(s: State) {
    forall day: Day :: Count(s.rows, day) == Uploads(s.done, day)
  }

  ghost predicate Limited(s: State) {
    forall day :: day in s.rows ==> s.rows[day] <= if s.quota < 1 then 1 else s.quota
  }

  ghost predicate Inv(s: State) {
    Exclusive(s) && Counted(s) && Limited(s)
  }

  lemma CommitCounts(s: State, u: Upload)
    requires Counted(s) && Enabled(s, Commit(u))
    ensures Counted(Next(s, Commit(u)))
  {
    var s' := Next(s, Commit(u));
    forall day: Day
      ensures Count(s'.rows, day) == Uploads(s'.done, day)
    {
      UploadsOn(s.done, s.open[u].day, day);
      assert Count(s.rows, day) == Uploads(s.done, day);
    }
  }

  lemma StepKeeps(s: State, a: Action)
    requires Inv(s) && Enabled(s, a)
    ensures Inv(Next(s, a))
  {
    if a.Commit? {
      CommitCounts(s, a.u);
    }
  }

  lemma {:induction false} RunKeeps(s: State, actions: seq<Action>)
    requires Inv(s) && Exec(s, actions).Some?
    ensures Inv(Exec(s, actions).value) && Exec(s, actions).value.quota == s.quota
    decreases |actions|
  {
    if actions != [] {
      StepKeeps(s, actions[0]);
      RunKeeps(Next(s, actions[0]), actions[1..]);
    }
  }

  /**
   However uploads overlap, midnight included: the committed count of a day is the number of uploads of
   that day that have committed, and with a quota of at least one it never exceeds the quota.
   */
  lemma CountIsCommittedUploads(quota: int, actions: seq<Action>, day: Day)
    requires Exec(Init(quota), actions).Some?
    ensures var s := Exec(Init(quota), actions).value;
            && Count(s.rows, day) == Uploads(s.done, day)
            && (quota >= 1 ==> Count(s.rows, day) <= quota)
  {
    RunKeeps(Init(quota), actions);
  }

  /** Reservations, releases and rollbacks, on whatever days, leave every committed count alone. */
  lemma {:induction false} OnlyCommitsCost(s: State, actions: seq<Action>)
    requires Exec(s, actions).Some? && forall i :: 0 <= i < |actions| ==> !actions[i].Commit?
    ensures Exec(s, actions).value.rows == s.rows && Exec(s, actions).value.done == s.done
    decreases |actions|
  {
    if actions != [] {
      OnlyCommitsCost(Next(s, actions[0]), actions[1..]);
    }
  }

  ghost predicate DaysDiffer(s: State) {
    forall u, v :: u in s.open && v in s.open && u != v ==> s.open[u].day != s.open[v].day
  }

  /** Two uploads can be open at once, and then they are of different days. */
  lemma OverlapOnlyAcrossMidnight(quota: int)
    requires quota >= 1
    ensures exists actions :: Exec(Init(quota), actions).Some? && |Exec(Init(quota), actions).value.open| == 2
    ensures forall actions :: Exec(Init(quota), actions).Some? ==> DaysDiffer(Exec(Init(quota), actions).value)
  {
    var a, b, c := Action.Reserve(0), NextDay, Action.Reserve(1);
    var s1 := Next(Init(quota), a);
    var s2 := Next(s1, b);
    var s3 := Next(s2, c);
    var run := [a, b, c];
    assert run[1..] == [b, c] && [b, c][1..] == [c] && [c][1..] == [];
    assert Exec(s3, []) == Some(s3) && Exec(s2, [c]) == Exec(s3, []);
    assert Exec(s1, [b, c]) == Exec(s2, [c]) && Exec(Init(quota), run) == Exec(s1, [b, c]);
    assert s3.open == map[0 := Reserved(0), 1 := Reserved(1)];
    forall actions | Exec(Init(quota), actions).Some?
      ensures DaysDiffer(Exec(Init(quota), actions).value)
    {
      RunKeeps(Init(quota), actions);
    }
  }
}
