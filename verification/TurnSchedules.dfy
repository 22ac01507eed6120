/**
 One turn among the others: between any two steps of a turn that holds the row lock, other requests and
 deletions take whatever steps they can.
 */
module TurnSchedules {
  import opened Wrappers
  import opened TurnProtocol
  import opened TurnGuarantees

  predicate IsOf(a: Action, t: nat) {
    match a
    case Begin(u, _) => u == t
    case Call(u) => u == t
    case Generated(u, _) => u == t
    case Summarized(u, _) => u == t
    case Abort(u) => u == t
    case _ => false
  }

  function Try(s: State, a: Action): State {
    if Enabled(s, a) then Next(s, a) else s
  }

  /** The others attempt these actions one after the other; what is not enabled, or is not theirs, does nothing. */
  function Others(s: State, t: nat, actions: seq<Action>): State
    decreases |actions|
  {
    if actions == [] then s
    else Others(if IsOf(actions[0], t) then s else Try(s, actions[0]), t, actions[1..])
  }

  /** The rest of a turn: what its provider and its summariser answer, and what the others attempt before each step. */
  datatype Plan = Plan(t: nat, o: Outcome, text: Option<string>, others: nat -> seq<Action>)

  /** The turn's next step. */
  function Own(s: State, p: Plan): Action {
    if p.t in s.turns && s.turns[p.t].pc.Generate? then Generated(p.t, p.o)
    else if p.t in s.turns && s.turns[p.t].pc.Summarize? then Summarized(p.t, p.text)
    else Call(p.t)
  }

  /** The turn's next step, and then what the others attempt before its step `n`. */
  function Onward(s: State, p: Plan, n: nat): State {
    Others(Try(s, Own(s, p)), p.t, p.others(n))
  }

  /** The machine when the turn has taken `n` more steps and is about to take the next. */
  function Walk(s: State, p: Plan, n: nat): State {
    if n == 0 then Others(s, p.t, p.others(0)) else Onward(Walk(s, p, n - 1), p, n)
  }

  lemma WalkTwo(s: State, p: Plan, n: nat)
    ensures Walk(s, p, n + 2) == Onward(Onward(Walk(s, p, n), p, n + 1), p, n + 2)
  {
    assert Walk(s, p, n + 1) == Onward(Walk(s, p, n), p, n + 1);
  }

  /** From `s` to `s'` only the others have moved, and turn `t` still holds the lock. */
  ghost predicate Held(s: State, s': State, t: nat) {
    && Reachable(s') && t in s.turns && t in s'.turns && s'.turns[t] == s.turns[t]
    && s'.threshold == s.threshold && s'.lock == s.lock
    && s'.db.rows == s.db.rows && s'.db.nextSeq == s.db.nextSeq
  }

  /** No other turn commits rows or takes the lock while `t` holds it. */
  lemma OtherStep(s: State, t: nat, a: Action)
    requires Reachable(s) && t in s.turns && s.turns[t].pc.Holding() && Enabled(s, a) && !IsOf(a, t)
    ensures Held(s, Next(s, a), t)
  {
    StepReachable(s, a);
    ReachableTurn(s, t);
    if a.Call? {
      ReachableTurn(s, a.t);
      CallIsLocal(s, a.t);
    }
    if a.Abort? {
      assert s.lock != Some(a.t);
    }
  }

  lemma {:induction false} OthersHold(s: State, t: nat, actions: seq<Action>)
    requires Reachable(s) && t in s.turns && s.turns[t].pc.Holding()
    ensures Held(s, Others(s, t, actions), t)
    decreases |actions|
  {
    if actions != [] {
      var a := actions[0];
      if !IsOf(a, t) && Enabled(s, a) {
        OtherStep(s, t, a);
        OthersHold(Next(s, a), t, actions[1..]);
      } else {
        OthersHold(s, t, actions[1..]);
      }
    }
  }

  /** From `s` to `s'` the turn has taken a step that commits nothing, and the others have moved. */
  ghost predicate Stepped(s: State, s': State, t: nat) {
    && Reachable(s') && t in s'.turns && s'.turns[t].pc.Holding()
    && s'.threshold == s.threshold && s'.db.rows == s.db.rows && s'.db.nextSeq == s.db.nextSeq
  }

  lemma StepOnward(s: State, p: Plan, n: nat)
    requires Reachable(s) && p.t in s.turns && s.turns[p.t].pc.Holding() && !s.turns[p.t].pc.Ready?
    requires Enabled(s, Own(s, p)) && Next(s, Own(s, p)).turns[p.t].pc.Holding()
    ensures Held(Next(s, Own(s, p)), Onward(s, p, n), p.t) && Stepped(s, Onward(s, p, n), p.t)
  {
    StepReachable(s, Own(s, p));
    OthersHold(Next(s, Own(s, p)), p.t, p.others(n));
    OwnIsLocal(s, p);
  }

  /** Until it commits, a turn's own steps leave the committed session alone. */
  lemma OwnIsLocal(s: State, p: Plan)
    requires p.t in s.turns && !s.turns[p.t].pc.Ready? && Enabled(s, Own(s, p))
    ensures Next(s, Own(s, p)).db == s.db && Next(s, Own(s, p)).threshold == s.threshold
  {
    if Own(s, p).Call? {
      CallIsLocal(s, p.t);
    }
  }
}
