/**
 * One session object's connection read backwards: which tokens are cancelled, whether it counts as started and what
 * each call is doing, as what the steps so far say.
 */
module SessionHistory {
  import opened Prelude
  import opened Cancellation
  import opened SessionConnection

  function Before(steps: seq<Step>): seq<Step>
    requires steps != []
  {
    steps[..|steps| - 1]
  }

  function Latest(steps: seq<Step>): Step
    requires steps != []
  {
    steps[|steps| - 1]
  }

  /** How often the ends have been taken; each take makes one stop token, the first of them number 2. */
  function Takes(steps: seq<Step>): nat {
    if steps == [] then 0
    else Takes(Before(steps)) + if Latest(steps).StartTake? || Latest(steps).StartRelay? then 1 else 0
  }

  /** The stop token of the latest take, if the ends have not come back since. */
  function OutUnder(steps: seq<Step>): Option<Token> {
    if steps == [] then None
    else if Latest(steps).StartTake? || Latest(steps).StartRelay? then Some(2 + Takes(Before(steps)))
    else if Latest(steps).Restore? then None
    else OutUnder(Before(steps))
  }

  function Told(ends: Ends, steps: seq<Step>): Connection {
    if OutUnder(steps).Some? then Started(OutUnder(steps).value) else Stopped(ends)
  }

  /** The session was closed, or its manager shut down. */
  ghost predicate Closed(steps: seq<Step>) {
    exists i :: 0 <= i < |steps| && steps[i] in {CancelOwn, CancelManager}
  }

  /** Some `stop` or `restore` found the ends out under stop token `k`. */
  ghost predicate Halted(steps: seq<Step>, k: Token) {
    exists i :: 0 <= i < |steps| && HaltsAt(steps, i, k)
  }

  predicate HaltsAt(steps: seq<Step>, i: nat, k: Token)
    requires i < |steps|
  {
    (steps[i].StopCancel? || steps[i].Restore?) && OutUnder(steps[..i]) == Some(k)
  }

  /** What call or relay number `t` is doing, if it is under way. */
  function Doing(ends: Ends, steps: seq<Step>, t: TaskId): Option<Task> {
    if steps == [] then None
    else
      var before := Doing(ends, Before(steps), t);
      var stop := 2 + Takes(Before(steps));
      match Latest(steps)
      case StartCheck(u) => if u == t then Some(Checked) else before
      case StartTake(u) => if u == t then Some(Connecting(ends, stop)) else before
      case StartRelay(u) => if u == t then Some(Relaying(ends, stop)) else before
      case Connected(u) =>
        if u == t && before.Some? && HoldsEnds(before.value)
        then Some(Relaying(before.value.ends, before.value.stop)) else before
      case LeaveLoop(u) =>
        if u == t && before.Some? && HoldsEnds(before.value)
        then Some(Returning(before.value.ends, before.value.stop)) else before
      case StopCheck(u) => if u == t then Some(StopChecked) else before
      case CancelOwn => before
      case CancelManager => before
      // Every other step ends its call.
      case _ => if Latest(steps).t == t then None else before
  }

  // ---------------------------------------------------------------------------------------------------------
  // Connection and calls.

  ghost predicate IsTold(ends: Ends, steps: seq<Step>, s: Session) {
    && s.connection == Told(ends, steps) && |s.tree.parents| == 2 + Takes(steps)
    && forall t :: Doing(ends, steps, t) == if t in s.tasks then Some(s.tasks[t]) else None
  }

  lemma ToldStep(ends: Ends, steps: seq<Step>, s: Session)
    requires steps != [] && Inv(s, ends) && Enabled(s, Latest(steps)) && IsTold(ends, Before(steps), s)
    ensures IsTold(ends, steps, Perform(s, Latest(steps)))
  {
  }

  /** Where the ends are and what each call is doing is what the steps say. */
  lemma {:induction false} EverythingIsTold(ends: Ends, steps: seq<Step>)
    requires Exec(ends, steps).Some?
    ensures IsTold(ends, steps, Exec(ends, steps).value)
  {
    if steps != [] {
      EverythingIsTold(ends, Before(steps));
      InvAlways(ends, Before(steps));
      ToldStep(ends, steps, Exec(ends, Before(steps)).value);
    }
  }

  // ---------------------------------------------------------------------------------------------------------
  // Tokens.

  lemma OwnStep(s: Session, e: Step)
    requires Enabled(s, e) && Wellformed(Perform(s, e))
    ensures IsCancelled(Perform(s, e).tree, OWN) <==> IsCancelled(s.tree, OWN) || e in {CancelOwn, CancelManager}
  {
  }

  lemma {:induction false} ClosedOneMore(steps: seq<Step>)
    requires steps != []
    ensures Closed(steps) <==> Closed(Before(steps)) || Latest(steps) in {CancelOwn, CancelManager}
  {
    if Closed(Before(steps)) {
      var i :| 0 <= i < |Before(steps)| && Before(steps)[i] in {CancelOwn, CancelManager};
      assert steps[i] in {CancelOwn, CancelManager};
    }
    if Latest(steps) in {CancelOwn, CancelManager} {
      assert steps[|steps| - 1] in {CancelOwn, CancelManager};
    }
    if i :| 0 <= i < |steps| - 1 && steps[i] in {CancelOwn, CancelManager} {
      assert Before(steps)[i] in {CancelOwn, CancelManager};
    }
  }

  /** The session's own token is cancelled exactly after the session was closed or its manager shut down. */
  lemma {:induction false} OwnExactly(ends: Ends, steps: seq<Step>)
    requires Exec(ends, steps).Some?
    ensures var s := Exec(ends, steps).value;
            Wellformed(s) && (IsCancelled(s.tree, OWN) <==> Closed(steps))
  {
    InvAlways(ends, steps);
    if steps != [] {
      OwnExactly(ends, Before(steps));
      OwnStep(Exec(ends, Before(steps)).value, Latest(steps));
      ClosedOneMore(steps);
    }
  }

  /** The manager's token goes with a shutdown only, whatever is done to its sessions. */
  lemma {:induction false} ManagerExactly(ends: Ends, steps: seq<Step>)
    requires Exec(ends, steps).Some?
    ensures var s := Exec(ends, steps).value;
            Wellformed(s) && (IsCancelled(s.tree, MANAGER) <==> CancelManager in steps)
  {
    InvAlways(ends, steps);
    if steps != [] {
      ManagerExactly(ends, Before(steps));
      ManagerStep(Exec(ends, Before(steps)).value, Latest(steps));
      assert steps == Before(steps) + [Latest(steps)];
    }
  }

  lemma ManagerStep(s: Session, e: Step)
    requires Enabled(s, e) && Wellformed(Perform(s, e))
    ensures IsCancelled(Perform(s, e).tree, MANAGER) <==> IsCancelled(s.tree, MANAGER) || e == CancelManager
  {
  }

  lemma StopStep(s: Session, e: Step, k: Token)
    requires Enabled(s, e) && Wellformed(Perform(s, e)) && OWN < k < |s.tree.parents|
    ensures k < |Perform(s, e).tree.parents|
    ensures IsCancelled(Perform(s, e).tree, k) <==>
              || IsCancelled(s.tree, k) || e in {CancelOwn, CancelManager}
              || ((e.StopCancel? || e.Restore?) && s.connection == Started(k))
  {
    StopTokens(s, k);
    StopTokens(Perform(s, e), k);
  }

  lemma NewStop(s: Session, e: Step)
    requires Enabled(s, e) && (e.StartTake? || e.StartRelay?) && Wellformed(Perform(s, e))
    ensures |Perform(s, e).tree.parents| == |s.tree.parents| + 1
    ensures IsCancelled(Perform(s, e).tree, |s.tree.parents|) <==> IsCancelled(s.tree, OWN)
  {
    ChildInherits(s.tree, OWN);
  }

  lemma {:induction false} OutUnderKnown(steps: seq<Step>, k: Token)
    ensures OutUnder(steps) == Some(k) ==> OWN < k < 2 + Takes(steps)
  {
    if steps != [] {
      OutUnderKnown(Before(steps), k);
    }
  }

  lemma {:induction false} TakesGrow(steps: seq<Step>, i: nat)
    requires i <= |steps|
    ensures Takes(steps[..i]) <= Takes(steps)
    decreases |steps|
  {
    if i < |steps| {
      assert Before(steps)[..i] == steps[..i];
      TakesGrow(Before(steps), i);
    } else {
      assert steps[..i] == steps;
    }
  }

  lemma HaltedIsKnown(steps: seq<Step>, k: Token)
    requires Halted(steps, k)
    ensures OWN < k < 2 + Takes(steps)
  {
    var i :| 0 <= i < |steps| && HaltsAt(steps, i, k);
    OutUnderKnown(steps[..i], k);
    TakesGrow(steps, i);
  }

  lemma HaltedOneMore(steps: seq<Step>, k: Token)
    requires steps != []
    ensures Halted(steps, k) <==>
              || Halted(Before(steps), k)
              || ((Latest(steps).StopCancel? || Latest(steps).Restore?) && OutUnder(Before(steps)) == Some(k))
  {
    var n := |steps| - 1;
    forall i | 0 <= i < n ensures HaltsAt(steps, i, k) <==> HaltsAt(Before(steps), i, k) {
      assert Before(steps)[..i] == steps[..i];
    }
    assert HaltsAt(steps, n, k) <==>
           ((Latest(steps).StopCancel? || Latest(steps).Restore?) && OutUnder(Before(steps)) == Some(k));
  }

  /** A stop token is cancelled exactly after a `stop` or `restore` under it, or with the session's own token. */
  lemma {:induction false} StopExactly(ends: Ends, steps: seq<Step>, k: Token)
    requires Exec(ends, steps).Some? && OWN < k < |Exec(ends, steps).value.tree.parents|
    ensures var s := Exec(ends, steps).value;
            Wellformed(s) && (IsCancelled(s.tree, k) <==> Closed(steps) || Halted(steps, k))
  {
    InvAlways(ends, steps);
    if steps != [] {
      var s, e := Exec(ends, Before(steps)).value, Latest(steps);
      EverythingIsTold(ends, Before(steps));
      ClosedOneMore(steps);
      HaltedOneMore(steps, k);
      if k < |s.tree.parents| {
        StopExactly(ends, Before(steps), k);
        StopStep(s, e, k);
      } else {
        NewIsNotHalted(ends, steps, s, k);
      }
    }
  }

  lemma OnlyTakesMake(s: Session, e: Step)
    requires Enabled(s, e) && !e.StartTake? && !e.StartRelay?
    ensures |Perform(s, e).tree.parents| == |s.tree.parents|
  {
  }

  lemma NewIsNotHalted(ends: Ends, steps: seq<Step>, s: Session, k: Token)
    requires steps != [] && Exec(ends, Before(steps)) == Some(s) && Enabled(s, Latest(steps))
    requires Wellformed(Perform(s, Latest(steps)))
    requires |s.tree.parents| <= k < |Perform(s, Latest(steps)).tree.parents|
    ensures Latest(steps).StartTake? || Latest(steps).StartRelay?
    ensures IsCancelled(Perform(s, Latest(steps)).tree, k) <==> Closed(Before(steps))
    ensures !Halted(Before(steps), k)
  {
    if Latest(steps).StartTake? || Latest(steps).StartRelay? {
      NewStop(s, Latest(steps));
    } else {
      OnlyTakesMake(s, Latest(steps));
    }
    EverythingIsTold(ends, Before(steps));
    OwnExactly(ends, Before(steps));
    if Halted(Before(steps), k) {
      HaltedIsKnown(Before(steps), k);
    }
  }

  /** `is_started` answers yes exactly while the ends are out and nothing has closed the session. */
  lemma StartedExactly(ends: Ends, steps: seq<Step>)
    requires Exec(ends, steps).Some?
    ensures var s := Exec(ends, steps).value;
            Wellformed(s) && (IsStarted(s) <==> OutUnder(steps).Some? && !Closed(steps))
  {
    EverythingIsTold(ends, steps);
    OwnExactly(ends, steps);
  }

  /** A `stop` that gets through finds the ends out; their stop token is cancelled in every later state. */
  lemma StopHaltsForEver(ends: Ends, steps: seq<Step>, i: nat)
    requires Exec(ends, steps).Some? && i < |steps| && steps[i].StopCancel?
    requires Exec(ends, steps[..i]).Some? && Enabled(Exec(ends, steps[..i]).value, steps[i])
    ensures var s, k := Exec(ends, steps).value, OutUnder(steps[..i]);
            && k.Some? && Exec(ends, steps[..i]).value.connection == Started(k.value)
            && Wellformed(s) && OWN < k.value < |s.tree.parents| && IsCancelled(s.tree, k.value)
  {
    EverythingIsTold(ends, steps[..i]);
    EverythingIsTold(ends, steps);
    var k := OutUnder(steps[..i]).value;
    OutUnderKnown(steps[..i], k);
    TakesGrow(steps, i);
    assert HaltsAt(steps, i, k);
    StopExactly(ends, steps, k);
  }

  // ---------------------------------------------------------------------------------------------------------
  // Nothing gets stuck.

  /** What `task` number `t` can do next, its connect failing and its caller going away included. */
  predicate GoesOn(s: Session, t: TaskId, task: Task, out: bool, closed: bool) {
    match task
    case Checked =>
      && (Enabled(s, StartTake(t)) <==> !out) && (Enabled(s, StartRelay(t)) <==> !out)
      && (Enabled(s, Refuse(t)) <==> out || closed) && Enabled(s, Abort(t))
    case Connecting(_, _) => Enabled(s, Connected(t)) && Enabled(s, ConnectFailed(t)) && Enabled(s, Abort(t))
    case Relaying(_, _) => Enabled(s, LeaveLoop(t)) && !Enabled(s, Abort(t))
    case Returning(_, _) => Enabled(s, Restore(t)) && !Enabled(s, Abort(t))
    case StopChecked =>
      (Enabled(s, StopCancel(t)) <==> out) && (Enabled(s, Refuse(t)) <==> !out) && Enabled(s, Abort(t))
  }

  lemma TaskGoesOn(s: Session, t: TaskId)
    requires Wellformed(s) && t in s.tasks
    ensures GoesOn(s, t, s.tasks[t], s.connection.Started?, IsCancelled(s.tree, OWN))
  {
  }

  /**
   * A `start` or `stop` can begin exactly while the session is not closed. Each one can go on, a `start` to the take if
   * the ends are there and a `stop` to the cancel if they are out; the session can be closed at any time.
   */
  lemma CallsGoOnExactly(ends: Ends, steps: seq<Step>, t: TaskId)
    requires Exec(ends, steps).Some?
    ensures var s := Exec(ends, steps).value;
            && (Enabled(s, StartCheck(t)) <==> Doing(ends, steps, t).None? && !Closed(steps))
            && (Enabled(s, StopCheck(t)) <==> Doing(ends, steps, t).None? && !Closed(steps))
            && Enabled(s, CancelOwn) && Enabled(s, CancelManager)
    ensures Doing(ends, steps, t).Some? ==>
              GoesOn(Exec(ends, steps).value, t, Doing(ends, steps, t).value, OutUnder(steps).Some?, Closed(steps))
  {
    var s := Exec(ends, steps).value;
    EverythingIsTold(ends, steps);
    OwnExactly(ends, steps);
    assert Doing(ends, steps, t) == if t in s.tasks then Some(s.tasks[t]) else None;
    if t in s.tasks {
      TaskGoesOn(s, t);
    }
  }
}
