/**
 The daily message quota of one guest (backend-python/app/services/quota_service.py:84-98,
 backend-python/app/db/identity.py:124-162). A request checks the committed count first and adds one to
 the count much later, in a transaction of its own, so other requests run in between.
 */
module GuestQuota {
  import opened Wrappers

  type Request = nat

  type Day = nat

  /** A request that passed the check, or that has also added to the counter of `day` without committing. */
  datatype Phase = Checked | Recorded(day: Day)

  /** At most `k` requests of the guest are in flight; `counts` holds the committed counter rows. */
  datatype State = State(quota: int, k: nat, today: Day, counts: map<Day, nat>, requests: map<Request, Phase>)

  datatype Action =
    | Check(r: Request)
    | Record(r: Request)
    | Commit(r: Request)
    | Abort(r: Request)
    | NextDay

  function Init(quota: int, k: nat): State {
    State(quota, k, 0, map[], map[])
  }

  function Count(s: State, day: Day): nat {
    if day in s.counts then s.counts[day] else 0
  }

  /** Adding to a counter row waits while another transaction has added to it. */
  predicate Enabled(s: State, a: Action) {
    match a
    case Check(r) => r !in s.requests && |s.requests| < s.k
    case Record(r) =>
      && r in s.requests && s.requests[r] == Checked
      && forall other :: other in s.requests ==> s.requests[other] != Recorded(s.today)
    case Commit(r) => r in s.requests
    case Abort(r) => r in s.requests
    case NextDay => true
  }

  function Next(s: State, a: Action): State
    requires Enabled(s, a)
  {
    match a
    case Check(r) => if Count(s, s.today) >= s.quota then s else s.(requests := s.requests[r := Checked])
    case Record(r) => s.(requests := s.requests[r := Recorded(s.today)])
    case Commit(r) =>
      var done := s.(requests := s.requests - {r});
      (match s.requests[r]
       case Checked => done
       case Recorded(day) => done.(counts := s.counts[day := Count(s, day) + 1]))
    case Abort(r) => s.(requests := s.requests - {r})
    case NextDay => s.(today := s.today + 1)
  }

  function Exec(s: State, actions: seq<Action>): Option<State>
    decreases |actions|
  {
    if actions == [] then Some(s)
    else if Enabled(s, actions[0]) then Exec(Next(s, actions[0]), actions[1..])
    else None
  }

  /** The requests that may still add to the counter of `day`. */
  function Pending(s: State, day: Day): set<Request> {
    set r | r in s.requests && (s.requests[r] == Recorded(day) || (s.requests[r] == Checked && s.today <= day))
  }

  /** The most a counter can reach. */
  function Bound(quota: int, k: nat): nat {
    if quota <= 0 || k == 0 then 0 else quota - 1 + k
  }

  ghost predicate Inv(s: State) {
    && |s.requests| <= s.k
    && (s.quota <= 0 ==> s.requests == map[])
    && (forall day: Day :: Count(s, day) + |Pending(s, day)| <= Bound(s.quota, s.k))
    && (forall day :: day in s.counts ==> day <= s.today)
    && (forall r :: r in s.requests && s.requests[r].Recorded? ==> s.requests[r].day <= s.today)
  }

  lemma Fewer(a: set<Request>, b: set<Request>)
    requires a <= b
    ensures |a| <= |b|
  {
    assert b == a + (b - a);
  }

  /** A request let in today counts against today and later days, where there is room for all in flight. */
  lemma CheckLeavesRoom(s: State, r: Request, day: Day)
    requires Inv(s) && Enabled(s, Check(r)) && Count(s, s.today) < s.quota
    ensures var s' := Next(s, Check(r)); Count(s', day) + |Pending(s', day)| <= Bound(s.quota, s.k)
  {
    var s' := Next(s, Check(r));
    assert Count(s, day) + |Pending(s, day)| <= Bound(s.quota, s.k);
    if day < s.today {
      assert Pending(s', day) == Pending(s, day);
    } else {
      assert s'.requests.Keys == s.requests.Keys + {r};
      Fewer(Pending(s', day), s'.requests.Keys);
    }
  }

  lemma CheckKeeps(s: State, r: Request)
    requires Inv(s) && Enabled(s, Check(r))
    ensures Inv(Next(s, Check(r)))
  {
    if Count(s, s.today) < s.quota {
      forall day: Day
        ensures Count(Next(s, Check(r)), day) + |Pending(Next(s, Check(r)), day)| <= Bound(s.quota, s.k)
      {
        CheckLeavesRoom(s, r, day);
      }
    }
  }

  /** A request that commits moves from the pending ones to the count; the other steps only drop some. */
  lemma StepKeeps(s: State, a: Action)
    requires Inv(s) && Enabled(s, a)
    ensures Inv(Next(s, a))
  {
    if a.Check? {
      CheckKeeps(s, a.r);
    } else {
      var s' := Next(s, a);
      Fewer(s'.requests.Keys, s.requests.Keys);
      assert |s'.requests| == |s'.requests.Keys| && |s.requests| == |s.requests.Keys|;
      forall day: Day
        ensures Count(s', day) + |Pending(s', day)| <= Bound(s.quota, s.k)
      {
        assert Count(s, day) + |Pending(s, day)| <= Bound(s.quota, s.k);
        assert Pending(s', day) <= Pending(s, day);
        if a.Commit? && s.requests[a.r] == Recorded(day) {
          assert Pending(s', day) == Pending(s, day) - {a.r};
        } else {
          Fewer(Pending(s', day), Pending(s, day));
        }
      }
    }
  }

  lemma {:induction false} RunKeeps(s: State, actions: seq<Action>)
    requires Inv(s) && Exec(s, actions).Some?
    ensures Inv(Exec(s, actions).value)
    ensures Exec(s, actions).value.quota == s.quota && Exec(s, actions).value.k == s.k
    decreases |actions|
  {
    if actions != [] {
      StepKeeps(s, actions[0]);
      RunKeeps(Next(s, actions[0]), actions[1..]);
    }
  }

  /**
   With at most `k` requests in flight no daily count exceeds quota - 1 + k, on any day of any run,
   requests that span midnight included. One at a time, no count exceeds the quota.
   */
  lemma CountIsBounded(quota: int, k: nat, actions: seq<Action>, day: Day)
    requires Exec(Init(quota, k), actions).Some?
    ensures var count := Count(Exec(Init(quota, k), actions).value, day);
            && count <= Bound(quota, k)
            && (k <= 1 && quota >= 0 ==> count <= quota)
  {
    RunKeeps(Init(quota, k), actions);
  }

  /** How many requests commit in a run that have added to the counter of `day`. */
  function Counted(s: State, actions: seq<Action>, day: Day): nat
    requires Exec(s, actions).Some?
    decreases |actions|
  {
    if actions == [] then 0
    else
      var a := actions[0];
      (if a.Commit? && s.requests[a.r] == Recorded(day) then 1 else 0) + Counted(Next(s, a), actions[1..], day)
  }

  /** A count is the number of requests of its day that have committed; aborted ones cost nothing. */
  lemma {:induction false} CountIsCommitted(s: State, actions: seq<Action>, day: Day)
    requires Exec(s, actions).Some?
    ensures Count(Exec(s, actions).value, day) == Count(s, day) + Counted(s, actions, day)
    decreases |actions|
  {
    if actions != [] {
      CountIsCommitted(Next(s, actions[0]), actions[1..], day);
    }
  }

  lemma {:induction false} ExecAppend(s: State, a: seq<Action>, b: seq<Action>)
    requires Exec(s, a).Some?
    ensures Exec(s, a + b) == Exec(Exec(s, a).value, b)
    decreases |a|
  {
    if a == [] {
      assert a + b == b;
    } else {
      assert (a + b)[1..] == a[1..] + b;
      ExecAppend(Next(s, a[0]), a[1..], b);
    }
  }

  /** One request after another, each counted: the count grows up to the quota. */
  lemma {:induction false} Serial(quota: int, k: nat, n: nat) returns (actions: seq<Action>)
    requires k > 0 && n < quota
    ensures Exec(Init(quota, k), actions).Some?
    ensures var s := Exec(Init(quota, k), actions).value;
            s.quota == quota && s.k == k && s.today == 0 && s.requests == map[] && Count(s, 0) == n
  {
    actions := [];
    if n > 0 {
      actions := Serial(quota, k, n - 1);
      var s := Exec(Init(quota, k), actions).value;
      var turn := [Check(0), Record(0), Commit(0)];
      ExecAppend(Init(quota, k), actions, turn);
      actions := actions + turn;
      var s1 := Next(s, Check(0));
      var s2 := Next(s1, Record(0));
      var s3 := Next(s2, Commit(0));
      assert turn[1..] == [Record(0), Commit(0)] && turn[1..][1..] == [Commit(0)];
      assert Exec(s3, []) == Some(s3) && Exec(s2, [Commit(0)]) == Exec(s3, []);
      assert Exec(s1, turn[1..]) == Exec(s2, [Commit(0)]) && Exec(s, turn) == Exec(s1, turn[1..]);
      assert s3.requests == map[];
    }
  }

  /** `m` requests that have passed the check. */
  function Passed(m: nat): (held: map<Request, Phase>)
    ensures |held| == m && forall r: Request :: r in held <==> r < m
    ensures forall r :: r in held ==> held[r] == Checked
  {
    if m == 0 then map[]
    else
      var held := Passed(m - 1);
      assert held[m - 1 := Checked].Keys == held.Keys + {m - 1};
      held[m - 1 := Checked]
  }

  /** Requests checked together all pass, whatever the count will be when they record. */
  lemma {:induction false} Together(s: State, m: nat) returns (actions: seq<Action>)
    requires m <= s.k && s.requests == map[] && Count(s, s.today) < s.quota
    ensures Exec(s, actions) == Some(s.(requests := Passed(m)))
  {
    actions := [];
    if m > 0 {
      actions := Together(s, m - 1);
      var before, check := s.(requests := Passed(m - 1)), [Check(m - 1)];
      ExecAppend(s, actions, check);
      assert check[1..] == [];
      assert Exec(before, check) == Exec(Next(before, check[0]), check[1..]);
      actions := actions + check;
    }
  }

  /** And each of them is then counted. */
  lemma {:induction false} AllRecord(s: State, m: nat) returns (actions: seq<Action>)
    requires s.requests == Passed(m)
    ensures Exec(s, actions).Some?
    ensures Count(Exec(s, actions).value, s.today) == Count(s, s.today) + m
    decreases m
  {
    actions := [];
    if m > 0 {
      var s1 := Next(s, Record(m - 1));
      var s2 := Next(s1, Commit(m - 1));
      assert s2.requests == Passed(m - 1);
      var rest := AllRecord(s2, m - 1);
      actions := [Record(m - 1), Commit(m - 1)] + rest;
      assert actions[1..] == [Commit(m - 1)] + rest && actions[1..][1..] == rest;
      assert Exec(s1, actions[1..]) == Exec(s2, rest);
    }
  }

  /** The bound cannot be lowered: for every quota and `k` some run reaches it. */
  lemma BoundIsReached(quota: int, k: nat) returns (actions: seq<Action>)
    ensures Exec(Init(quota, k), actions).Some?
    ensures Count(Exec(Init(quota, k), actions).value, 0) == Bound(quota, k)
  {
    actions := [];
    if quota > 0 && k > 0 {
      actions := Serial(quota, k, quota - 1);
      var s := Exec(Init(quota, k), actions).value;
      var checks := Together(s, k);
      ExecAppend(Init(quota, k), actions, checks);
      actions := actions + checks;
      var open := Exec(s, checks).value;
      var records := AllRecord(open, k);
      ExecAppend(Init(quota, k), actions, records);
      actions := actions + records;
    }
  }
}
