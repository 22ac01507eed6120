/**
 The time-to-live cache of rate-limit roles (backend-python/app/middleware/rate_limit.py:96-127), as a
 state machine: a caller checks the cache without the lock, waits for the lock, checks again, and loads
 the role while it holds the lock. Other callers run between any two of these steps.
 */
module RoleCache {
  import opened Wrappers

  type User = nat

  type Caller = nat

  datatype Entry = Entry(stamp: real, role: string)

  /** A successful load: when its holder found no fresh entry, and when its result was stamped. */
  datatype Load = Load(user: User, started: real, stamp: real, role: string)

  datatype Phase =
    | Waiting(user: User)
    | Loading(user: User, since: real)
    | FromCache(user: User, entry: Entry, at: real)
    | FromStore(user: User, role: string, at: real)
    | Raised

  datatype State = State(
    ttl: int, now: real, cache: map<User, Entry>, lock: Option<Caller>, callers: map<Caller, Phase>, loads: seq<Load>)

  datatype Action =
    | Arrive(c: Caller, at: real, user: User)
    | Acquire(c: Caller, at: real)
    | Loaded(c: Caller, at: real, role: string)
    | LoadFailed(c: Caller, at: real)

  function Init(ttl: int): State {
    State(ttl, 0.0, map[], None, map[], [])
  }

  predicate Fresh(s: State, user: User, at: real) {
    s.ttl > 0 && user in s.cache && at - s.cache[user].stamp < s.ttl as real
  }

  predicate Enabled(s: State, a: Action) {
    && s.now <= a.at
    && match a
       case Arrive(c, _, _) => c !in s.callers
       case Acquire(c, _) => c in s.callers && s.callers[c].Waiting? && s.lock == None
       case Loaded(c, _, _) => c in s.callers && s.callers[c].Loading?
       case LoadFailed(c, _) => c in s.callers && s.callers[c].Loading?
  }

  function Put(s: State, a: Action, p: Phase): State {
    s.(now := a.at, callers := s.callers[a.c := p])
  }

  function Next(s: State, a: Action): State
    requires Enabled(s, a)
  {
    match a
    case Arrive(c, at, user) =>
      if Fresh(s, user, at) then Put(s, a, FromCache(user, s.cache[user], at)) else Put(s, a, Waiting(user))
    case Acquire(c, at) =>
      var user := s.callers[c].user;
      if Fresh(s, user, at) then Put(s, a, FromCache(user, s.cache[user], at))
      else Put(s, a, Loading(user, at)).(lock := Some(c))
    case Loaded(c, at, role) =>
      var p := s.callers[c];
      Put(s, a, FromStore(p.user, role, at))
        .(lock := None, loads := s.loads + [Load(p.user, p.since, at, role)],
          cache := if s.ttl > 0 then s.cache[p.user := Entry(at, role)] else s.cache)
    case LoadFailed(c, at) => Put(s, a, Raised).(lock := None)
  }

  function Exec(s: State, actions: seq<Action>): Option<State>
    decreases |actions|
  {
    if actions == [] then Some(s)
    else if Enabled(s, actions[0]) then Exec(Next(s, actions[0]), actions[1..])
    else None
  }

  /** `entry` was stamped by a load of `user`. */
  ghost predicate Stamped(loads: seq<Load>, user: User, entry: Entry) {
    exists l :: l in loads && l.user == user && l.stamp == entry.stamp && l.role == entry.role
  }

  ghost predicate PhaseOk(s: State, c: Caller, p: Phase) {
    match p
    case Waiting(_) => true
    case Loading(user, since) =>
      && s.lock == Some(c) && since <= s.now
      && (s.ttl > 0 && user in s.cache ==> since - s.cache[user].stamp >= s.ttl as real)
    case FromCache(user, entry, at) => s.ttl > 0 && Stamped(s.loads, user, entry) && at - entry.stamp < s.ttl as real
    case FromStore(user, role, at) => Stamped(s.loads, user, Entry(at, role))
    case Raised => true
  }

  ghost predicate Spaced(ttl: int, loads: seq<Load>) {
    forall i, j :: 0 <= i < j < |loads| && loads[i].user == loads[j].user ==>
      loads[j].started - loads[i].stamp >= ttl as real
  }

  /** Every cached entry comes from a load, and no load of its user is newer. */
  ghost predicate CacheOk(ttl: int, cache: map<User, Entry>, loads: seq<Load>) {
    && (ttl <= 0 ==> cache == map[])
    && (forall user :: user in cache ==> Stamped(loads, user, cache[user]))
    && (ttl > 0 ==> forall l :: l in loads ==> l.user in cache && l.stamp <= cache[l.user].stamp)
  }

  ghost predicate Past(loads: seq<Load>, now: real) {
    forall l :: l in loads ==> l.started <= l.stamp <= now
  }

  ghost predicate LockOk(s: State) {
    s.lock.Some? ==> s.lock.value in s.callers && s.callers[s.lock.value].Loading?
  }

  ghost predicate CallersOk(s: State) {
    forall c :: c in s.callers ==> PhaseOk(s, c, s.callers[c])
  }

  ghost predicate Inv(s: State) {
    && CacheOk(s.ttl, s.cache, s.loads)
    && (s.ttl > 0 ==> Spaced(s.ttl, s.loads))
    && Past(s.loads, s.now) && LockOk(s) && CallersOk(s)
  }

  lemma StampedGrows(loads: seq<Load>, l: Load)
    ensures forall user, entry :: Stamped(loads, user, entry) ==> Stamped(loads + [l], user, entry)
    ensures Stamped(loads + [l], l.user, Entry(l.stamp, l.role))
  {
    assert (loads + [l])[|loads|] == l;
    forall user, entry | Stamped(loads, user, entry)
      ensures Stamped(loads + [l], user, entry)
    {
      var m :| m in loads && m.user == user && m.stamp == entry.stamp && m.role == entry.role;
      assert m in loads + [l];
    }
  }

  /** A load keeps what earlier loads have stamped. */
  lemma LoadedCallers(s: State, a: Action)
    requires CallersOk(s) && Enabled(s, a) && a.Loaded?
    ensures CallersOk(Next(s, a))
  {
    var s', p := Next(s, a), s.callers[a.c];
    assert PhaseOk(s, a.c, p);
    StampedGrows(s.loads, Load(p.user, p.since, a.at, a.role));
    forall c | c in s'.callers
      ensures PhaseOk(s', c, s'.callers[c])
    {
      assert c != a.c ==> PhaseOk(s, c, s.callers[c]);
    }
  }

  lemma LoadedCache(ttl: int, cache: map<User, Entry>, loads: seq<Load>, l: Load, now: real)
    requires CacheOk(ttl, cache, loads) && Past(loads, now) && now <= l.stamp
    ensures CacheOk(ttl, if ttl > 0 then cache[l.user := Entry(l.stamp, l.role)] else cache, loads + [l])
  {
    StampedGrows(loads, l);
    forall m | m in loads + [l] && m != l
      ensures m in loads
    {
    }
  }

  /** The load of a lock holder starts a full time to live after every earlier load of its user. */
  lemma LoadedSpacing(ttl: int, cache: map<User, Entry>, loads: seq<Load>, l: Load)
    requires ttl > 0 && CacheOk(ttl, cache, loads) && Spaced(ttl, loads)
    requires l.user in cache ==> l.started - cache[l.user].stamp >= ttl as real
    ensures Spaced(ttl, loads + [l])
  {
    var all := loads + [l];
    forall i, j | 0 <= i < j < |all| && all[i].user == all[j].user
      ensures all[j].started - all[i].stamp >= ttl as real
    {
      assert all[i] in loads;
    }
  }

  lemma LoadedKeeps(s: State, a: Action)
    requires Inv(s) && Enabled(s, a) && a.Loaded?
    ensures Inv(Next(s, a))
  {
    var p := s.callers[a.c];
    var l := Load(p.user, p.since, a.at, a.role);
    assert PhaseOk(s, a.c, p);
    LoadedCallers(s, a);
    LoadedCache(s.ttl, s.cache, s.loads, l, s.now);
    if s.ttl > 0 {
      LoadedSpacing(s.ttl, s.cache, s.loads, l);
    }
  }

  /** A step without a load moves one caller and at most takes or frees the lock. */
  lemma OtherCallers(s: State, a: Action)
    requires Inv(s) && Enabled(s, a) && !a.Loaded?
    ensures CallersOk(Next(s, a)) && LockOk(Next(s, a))
  {
    var s' := Next(s, a);
    forall c | c in s'.callers
      ensures PhaseOk(s', c, s'.callers[c])
    {
      assert c != a.c ==> PhaseOk(s, c, s.callers[c]);
    }
  }

  lemma StepKeeps(s: State, a: Action)
    requires Inv(s) && Enabled(s, a)
    ensures Inv(Next(s, a))
  {
    if a.Loaded? {
      LoadedKeeps(s, a);
    } else {
      OtherCallers(s, a);
    }
  }

  lemma {:induction false} RunKeeps(s: State, actions: seq<Action>)
    requires Inv(s) && Exec(s, actions).Some?
    ensures Inv(Exec(s, actions).value) && Exec(s, actions).value.ttl == s.ttl
    decreases |actions|
  {
    if actions != [] {
      StepKeeps(s, actions[0]);
      RunKeeps(Next(s, actions[0]), actions[1..]);
    }
  }

  /** In any interleaving, two successful loads for one user are at least the time to live apart. */
  lemma LoadsAreSpaced(ttl: int, actions: seq<Action>, i: nat, j: nat)
    requires Exec(Init(ttl), actions).Some? && ttl > 0
    requires i < j < |Exec(Init(ttl), actions).value.loads|
    ensures var loads := Exec(Init(ttl), actions).value.loads;
            loads[i].user == loads[j].user ==> loads[j].stamp - loads[i].stamp >= ttl as real
  {
    RunKeeps(Init(ttl), actions);
    var s := Exec(Init(ttl), actions).value;
    assert s.loads[j] in s.loads;
  }

  /** Every role handed out was just loaded, or loaded by an entry stamped less than the time to live ago. */
  lemma RolesAreRecent(ttl: int, actions: seq<Action>, c: Caller)
    requires Exec(Init(ttl), actions).Some? && c in Exec(Init(ttl), actions).value.callers
    ensures var s := Exec(Init(ttl), actions).value;
            match s.callers[c]
            case FromCache(user, entry, at) =>
              ttl > 0 && Stamped(s.loads, user, entry) && at - entry.stamp < ttl as real
            case FromStore(user, role, at) => Stamped(s.loads, user, Entry(at, role))
            case _ => true
    ensures ttl <= 0 ==>
              var s := Exec(Init(ttl), actions).value; s.cache == map[] && !s.callers[c].FromCache?
  {
    RunKeeps(Init(ttl), actions);
    var s := Exec(Init(ttl), actions).value;
    assert PhaseOk(s, c, s.callers[c]);
  }

  /** Only one caller loads at a time, and it holds the lock. */
  lemma OneLoadAtATime(ttl: int, actions: seq<Action>, c: Caller, d: Caller)
    requires Exec(Init(ttl), actions).Some?
    requires var s := Exec(Init(ttl), actions).value;
             c in s.callers && d in s.callers && s.callers[c].Loading? && s.callers[d].Loading?
    ensures c == d
  {
    RunKeeps(Init(ttl), actions);
    var s := Exec(Init(ttl), actions).value;
    assert PhaseOk(s, c, s.callers[c]) && PhaseOk(s, d, s.callers[d]);
  }
}
