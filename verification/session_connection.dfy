/**
 * The connection of one session object: how the channel ends travel between the object and its relay, and which
 * cancellation tokens are alive, over every interleaving of `start`, `stop`, `close` and relay tasks. The standalone
 * and the raft-backed session share this machine.
 */
module SessionConnection {
  import opened Prelude
  import opened Cancellation

  /** The manager's token and, below it, the session's own; the stop tokens come after them. */
  const MANAGER: Token := 0
  const OWN: Token := 1

  type TaskId = nat

  /** The receiver of client messages and the sender of server messages. */
  datatype Ends = Ends(receiver: nat, sender: nat)

  datatype Connection = Stopped(ends: Ends) | Started(stop: Token)

  // ---------------------------------------------------------------------------------------------------------
  // The three atomic sections under the connection lock.

  datatype Taken = Taken(connection: Connection, tree: Tree, ends: Ends, stop: Token)

  function TakeEnds(connection: Connection, tree: Tree, ct: Token): Option<Taken> {
    match connection
    case Started(_) => None
    case Stopped(ends) => Some(Taken(Started(|tree.parents|), Child(tree, ct), ends, |tree.parents|))
  }

  function RestoreEnds(connection: Connection, tree: Tree, ends: Ends): (Connection, Tree)
    requires Valid(tree) && (connection.Started? ==> connection.stop < |tree.parents|)
  {
    match connection
    case Stopped(_) => (connection, tree)
    case Started(stop) => (Stopped(ends), if IsCancelled(tree, stop) then tree else Cancel(tree, stop))
  }

  class TokenTree {
    var tree: Tree

    constructor (tree: Tree)
      ensures this.tree == tree
    {
      this.tree := tree;
    }

    method ChildToken(parent: Token) returns (t: Token)
      modifies this
      ensures t == |old(tree).parents| && tree == Child(old(tree), parent)
    {
      t := |tree.parents|;
      tree := tree.(parents := tree.parents + [Some(parent)]);
    }

    method CancelToken(t: Token)
      modifies this
      ensures tree == Cancel(old(tree), t)
    {
      tree := tree.(requested := tree.requested + {t});
    }
  }

  /** The value under the connection mutex. */
  class ConnectionCell {
    var connection: Connection

    constructor (ends: Ends)
      ensures connection == Stopped(ends)
    {
      connection := Stopped(ends);
    }

    method Take(tokens: TokenTree, ct: Token) returns (taken: Option<(Ends, Token)>)
      requires Valid(tokens.tree) && ct < |tokens.tree.parents|
      modifies this, tokens
      ensures match TakeEnds(old(connection), old(tokens.tree), ct) {
                case None => taken == None && connection == old(connection) && tokens.tree == old(tokens.tree)
                case Some(t) => taken == Some((t.ends, t.stop)) && connection == t.connection && tokens.tree == t.tree
              }
    {
      if connection.Started? {
        return None;
      }
      var stop := tokens.ChildToken(ct);
      var was := connection;
      connection := Started(stop);
      match was {
        case Stopped(ends) => taken := Some((ends, stop));
        case Started(_) => assert false; // `unreachable!`
      }
    }

    method Restore(tokens: TokenTree, ends: Ends)
      requires Valid(tokens.tree) && (connection.Started? ==> connection.stop < |tokens.tree.parents|)
      modifies this, tokens
      ensures (connection, tokens.tree) == RestoreEnds(old(connection), old(tokens.tree), ends)
    {
      if connection.Stopped? {
        return;
      }
      var was := connection;
      connection := Stopped(ends);
      match was {
        case Stopped(_) => assert false; // `unreachable!`
        case Started(stop) =>
          if !IsCancelled(tokens.tree, stop) {
            tokens.CancelToken(stop);
          }
      }
    }
  }

  // ---------------------------------------------------------------------------------------------------------
  // All interleavings on one session object.

  datatype Task =
    | Checked
    | Connecting(ends: Ends, stop: Token)
    | Relaying(ends: Ends, stop: Token)
    | Returning(ends: Ends, stop: Token)
    | StopChecked

  /** `holder` is history: the task that has the channel ends, if one has; `lost` says that a cut connect lost them. */
  datatype Session = Session(
    tree: Tree,
    connection: Connection,
    tasks: map<TaskId, Task>,
    holder: Option<TaskId>,
    lost: bool)

  datatype Step =
    | StartCheck(t: TaskId)
    | StartTake(t: TaskId)
    | StartRelay(t: TaskId)
    | Refuse(t: TaskId)
    | Connected(t: TaskId)
    | ConnectFailed(t: TaskId)
    | Abort(t: TaskId)
    | LeaveLoop(t: TaskId)
    | Restore(t: TaskId)
    | StopCheck(t: TaskId)
    | StopCancel(t: TaskId)
    | CancelOwn
    | CancelManager

  function Init(ends: Ends): Session {
    Session(Tree([None, Some(MANAGER)], {}), Stopped(ends), map[], None, false)
  }

  predicate Wellformed(s: Session) {
    && |s.tree.parents| >= 2 && s.tree.parents[MANAGER] == None
    && (forall t :: 1 <= t < |s.tree.parents| ==> s.tree.parents[t] == Some(if t == OWN then MANAGER else OWN))
    && (forall t :: t in s.tree.requested ==> t < |s.tree.parents|)
    && (s.connection.Started? ==> OWN < s.connection.stop < |s.tree.parents|)
  }

  predicate Is(s: Session, t: TaskId, task: Task) {
    t in s.tasks && s.tasks[t] == task
  }

  predicate Enabled(s: Session, e: Step) {
    && Wellformed(s)
    && match e
       case StartCheck(t) => t !in s.tasks && !IsCancelled(s.tree, OWN)
       case StartTake(t) => Is(s, t, Checked) && s.connection.Stopped?
       case StartRelay(t) => Is(s, t, Checked) && s.connection.Stopped?
       case Refuse(t) =>
         || (Is(s, t, Checked) && (s.connection.Started? || IsCancelled(s.tree, OWN)))
         || (Is(s, t, StopChecked) && s.connection.Stopped?)
       case Connected(t) => t in s.tasks && s.tasks[t].Connecting?
       case ConnectFailed(t) => t in s.tasks && s.tasks[t].Connecting?
       // A call whose caller goes away is dropped at an await; a relay task is nobody's to drop.
       case Abort(t) => t in s.tasks && (s.tasks[t].Checked? || s.tasks[t].Connecting? || s.tasks[t].StopChecked?)
       case LeaveLoop(t) => t in s.tasks && s.tasks[t].Relaying?
       case Restore(t) => t in s.tasks && s.tasks[t].Returning?
       case StopCheck(t) => t !in s.tasks && !IsCancelled(s.tree, OWN)
       case StopCancel(t) => Is(s, t, StopChecked) && s.connection.Started?
       case CancelOwn => true
       case CancelManager => true
  }

  function SetTask(s: Session, t: TaskId, task: Task): Session {
    s.(tasks := s.tasks[t := task])
  }

  function Forget(s: Session, t: TaskId): Session {
    s.(tasks := s.tasks - {t})
  }

  /** Task `t` is gone and its channel ends with it. */
  function Lose(s: Session, t: TaskId): Session {
    Forget(s, t).(holder := None, lost := true)
  }

  /** The state after a take by task `t`, which goes on to connect or relays at once. */
  function AfterTake(s: Session, t: TaskId, connects: bool): Session
    requires s.connection.Stopped?
  {
    var taken := TakeEnds(s.connection, s.tree, OWN).value;
    var task := if connects then Connecting(taken.ends, taken.stop) else Relaying(taken.ends, taken.stop);
    Session(taken.tree, taken.connection, s.tasks[t := task], Some(t), s.lost)
  }

  function AfterRestore(s: Session, t: TaskId): Session
    requires Wellformed(s) && t in s.tasks && s.tasks[t].Returning?
  {
    var (connection, tree) := RestoreEnds(s.connection, s.tree, s.tasks[t].ends);
    // Were the connection stopped already, the ends that the task brings back would be dropped.
    Session(tree, connection, s.tasks - {t}, None, s.lost || s.connection.Stopped?)
  }

  function Perform(s: Session, e: Step): Session
    requires Enabled(s, e)
  {
    match e
    case StartCheck(t) => SetTask(s, t, Checked)
    case StartTake(t) => AfterTake(s, t, true)
    case StartRelay(t) => AfterTake(s, t, false)
    case Refuse(t) => Forget(s, t)
    case Connected(t) => SetTask(s, t, Relaying(s.tasks[t].ends, s.tasks[t].stop))
    case ConnectFailed(t) => Lose(s, t)
    case Abort(t) => if s.tasks[t].Connecting? then Lose(s, t) else Forget(s, t)
    case LeaveLoop(t) => SetTask(s, t, Returning(s.tasks[t].ends, s.tasks[t].stop))
    case Restore(t) => AfterRestore(s, t)
    case StopCheck(t) => SetTask(s, t, StopChecked)
    case StopCancel(t) => Forget(s, t).(tree := Cancel(s.tree, s.connection.stop))
    case CancelOwn => s.(tree := Cancel(s.tree, OWN))
    case CancelManager => s.(tree := Cancel(s.tree, MANAGER))
  }

  function Exec(ends: Ends, steps: seq<Step>): Option<Session> {
    if steps == [] then Some(Init(ends))
    else
      match Exec(ends, steps[..|steps| - 1])
      case None => None
      case Some(s) => if Enabled(s, steps[|steps| - 1]) then Some(Perform(s, steps[|steps| - 1])) else None
  }

  predicate HoldsEnds(task: Task) {
    task.Connecting? || task.Relaying? || task.Returning?
  }

  /** Every stop token but `k` is cancelled. */
  ghost predicate OnlyLive(tree: Tree, k: Token)
    requires Valid(tree)
  {
    forall j :: OWN < j < |tree.parents| && j != k ==> IsCancelled(tree, j)
  }

  ghost predicate Inv(s: Session, ends: Ends) {
    && Wellformed(s)
    && (forall t :: t in s.tasks && HoldsEnds(s.tasks[t]) ==> s.holder == Some(t) && s.tasks[t].ends == ends)
    && match s.connection {
         case Stopped(kept) => kept == ends && s.holder == None && !s.lost && OnlyLive(s.tree, OWN)
         case Started(stop) =>
           && OnlyLive(s.tree, stop)
           && s.lost == s.holder.None?
           && (s.holder.Some? ==>
                 && s.holder.value in s.tasks && HoldsEnds(s.tasks[s.holder.value])
                 && s.tasks[s.holder.value].stop == stop)
       }
  }

  /** In this three-level tree a stop token is cancelled with itself, the session or the manager. */
  lemma StopTokens(s: Session, j: Token)
    requires Wellformed(s) && OWN < j < |s.tree.parents|
    ensures Valid(s.tree)
    ensures IsCancelled(s.tree, OWN) <==> OWN in s.tree.requested || MANAGER in s.tree.requested
    ensures IsCancelled(s.tree, j) <==> j in s.tree.requested || IsCancelled(s.tree, OWN)
  {
  }

  lemma CancelKeepsLive(tree: Tree, c: Token, k: Token)
    requires Valid(tree) && c < |tree.parents| && OnlyLive(tree, k)
    ensures Valid(Cancel(tree, c)) && OnlyLive(Cancel(tree, c), k)
  {
    forall j | OWN < j < |tree.parents| && j != k ensures IsCancelled(Cancel(tree, c), j) {
      CancelReachesBelow(tree, c, j);
    }
  }

  lemma TakeKeeps(s: Session, ends: Ends, t: TaskId, connects: bool)
    requires Inv(s, ends) && s.connection.Stopped?
    ensures Inv(AfterTake(s, t, connects), ends)
  {
    forall j | OWN < j < |s.tree.parents| ensures IsCancelled(Child(s.tree, OWN), j) {
      OlderTokensStay(s.tree, OWN, j);
    }
  }

  lemma RestoreKeeps(s: Session, ends: Ends, t: TaskId)
    requires Inv(s, ends) && Enabled(s, Restore(t))
    ensures Inv(AfterRestore(s, t), ends)
  {
    var stop := s.connection.stop;
    CancelKeepsLive(s.tree, stop, stop);
    CancelReachesBelow(s.tree, stop, stop);
  }

  lemma InvStep(s: Session, e: Step, ends: Ends)
    requires Inv(s, ends) && Enabled(s, e)
    ensures Inv(Perform(s, e), ends)
  {
    match e
    case StartCheck(t) =>
    case StartTake(t) => TakeKeeps(s, ends, t, true);
    case StartRelay(t) => TakeKeeps(s, ends, t, false);
    case Refuse(t) =>
    case Connected(t) =>
    case ConnectFailed(t) =>
    case Abort(t) =>
    case LeaveLoop(t) =>
    case Restore(t) => RestoreKeeps(s, ends, t);
    case StopCheck(t) =>
    case StopCancel(t) => CancelKeepsLive(s.tree, s.connection.stop, s.connection.stop);
    case CancelOwn => CancelKeepsLive(s.tree, OWN, if s.connection.Started? then s.connection.stop else OWN);
    case CancelManager => CancelKeepsLive(s.tree, MANAGER, if s.connection.Started? then s.connection.stop else OWN);
  }

  lemma {:induction false} InvAlways(ends: Ends, steps: seq<Step>)
    requires Exec(ends, steps).Some?
    ensures Inv(Exec(ends, steps).value, ends)
  {
    if steps != [] {
      InvAlways(ends, steps[..|steps| - 1]);
      InvStep(Exec(ends, steps[..|steps| - 1]).value, steps[|steps| - 1], ends);
    }
  }

  // ---------------------------------------------------------------------------------------------------------
  // Where the channel ends are.

  datatype Place = InObject | With(task: TaskId) | Nowhere

  /** The pair `ends` is at place `p`. */
  predicate At(s: Session, ends: Ends, p: Place) {
    match p
    case InObject => s.connection == Stopped(ends)
    case With(t) => t in s.tasks && HoldsEnds(s.tasks[t]) && s.tasks[t].ends == ends
    case Nowhere => s.lost
  }

  /** In every reachable state the one pair of channel ends is in exactly one place, and no other pair exists. */
  lemma EndsAreInOnePlace(ends: Ends, steps: seq<Step>) returns (p: Place)
    requires Exec(ends, steps).Some?
    ensures var s := Exec(ends, steps).value;
            && At(s, ends, p)
            && (forall q, other :: At(s, other, q) ==> q == p)
            && (forall q, other :: At(s, other, q) && q != Nowhere ==> other == ends)
  {
    InvAlways(ends, steps);
    var s := Exec(ends, steps).value;
    p := if s.connection.Stopped? then InObject else if s.lost then Nowhere else With(s.holder.value);
  }

  /** So at most one relay or starter exists, and the started connection names its stop token. */
  lemma OneRelay(ends: Ends, steps: seq<Step>, t: TaskId, u: TaskId)
    requires Exec(ends, steps).Some?
    requires var s := Exec(ends, steps).value;
             t in s.tasks && u in s.tasks && HoldsEnds(s.tasks[t]) && HoldsEnds(s.tasks[u])
    ensures t == u && Exec(ends, steps).value.connection == Started(Exec(ends, steps).value.tasks[t].stop)
  {
    InvAlways(ends, steps);
  }

  /** `restore` always finds a started connection, puts the pair back and leaves its stop token cancelled. */
  lemma RestoreFindsStarted(ends: Ends, steps: seq<Step>, t: TaskId)
    requires Exec(ends, steps).Some? && Enabled(Exec(ends, steps).value, Restore(t))
    ensures var s := Exec(ends, steps).value;
            var d := Perform(s, Restore(t));
            && s.connection == Started(s.tasks[t].stop)
            && d.connection == Stopped(ends) && !d.lost
            && Valid(d.tree) && IsCancelled(d.tree, s.connection.stop)
  {
    InvAlways(ends, steps);
    RestoreCancels(Exec(ends, steps).value, ends, t);
  }

  lemma RestoreCancels(s: Session, ends: Ends, t: TaskId)
    requires Inv(s, ends) && Enabled(s, Restore(t))
    ensures var d := AfterRestore(s, t);
            && s.connection == Started(s.tasks[t].stop)
            && d.connection == Stopped(ends) && !d.lost
            && Valid(d.tree) && IsCancelled(d.tree, s.connection.stop)
  {
  }

  /** Step `e` ends a call that has the pair in its hands: its connect fails, or it is dropped while it connects. */
  predicate CutsConnect(s: Session, e: Step) {
    e.ConnectFailed? || (e.Abort? && e.t in s.tasks && s.tasks[e.t].Connecting?)
  }

  lemma LossStep(s: Session, e: Step, ends: Ends)
    requires Inv(s, ends) && Enabled(s, e)
    ensures Perform(s, e).lost <==> s.lost || CutsConnect(s, e)
    ensures s.lost ==> Perform(s, e).connection == s.connection && s.connection.Started? && s.holder == None
  {
  }

  /** Step number `m` cuts a connect. */
  predicate CutsConnectAt(ends: Ends, steps: seq<Step>, m: nat) {
    m < |steps| && Exec(ends, steps[..m]).Some? && CutsConnect(Exec(ends, steps[..m]).value, steps[m])
  }

  lemma CutInPrefix(ends: Ends, steps: seq<Step>, n: nat, m: nat)
    requires m < n <= |steps|
    ensures CutsConnectAt(ends, steps[..n], m) <==> CutsConnectAt(ends, steps, m)
  {
    assert steps[..n][..m] == steps[..m];
  }

  /** The pair is lost exactly if some step of the run cut a connect. */
  lemma {:induction false} LostExactlyWhileConnecting(ends: Ends, steps: seq<Step>)
    requires Exec(ends, steps).Some?
    ensures Exec(ends, steps).value.lost <==> exists m: nat :: CutsConnectAt(ends, steps, m)
  {
    if steps != [] {
      var n := |steps| - 1;
      var shorter := steps[..n];
      LostExactlyWhileConnecting(ends, shorter);
      InvAlways(ends, shorter);
      LossStep(Exec(ends, shorter).value, steps[n], ends);
      if m: nat :| CutsConnectAt(ends, shorter, m) {
        CutInPrefix(ends, steps, n, m);
      }
      if CutsConnect(Exec(ends, shorter).value, steps[n]) {
        assert CutsConnectAt(ends, steps, n);
      }
      if m: nat :| CutsConnectAt(ends, steps, m) {
        if m < n {
          CutInPrefix(ends, steps, n, m);
        }
      }
    }
  }

  /** And from then on the object stays started, under the same stop token and without a relay, for ever. */
  lemma {:induction false} LostForEver(ends: Ends, steps: seq<Step>, i: nat)
    requires Exec(ends, steps).Some? && i <= |steps|
    requires Exec(ends, steps[..i]).Some? && Exec(ends, steps[..i]).value.lost
    ensures var s := Exec(ends, steps).value;
            && s.lost && s.holder == None
            && s.connection.Started? && s.connection == Exec(ends, steps[..i]).value.connection
    decreases |steps|
  {
    InvAlways(ends, steps);
    if i == |steps| {
      assert steps[..i] == steps;
    } else {
      var shorter := steps[..|steps| - 1];
      assert shorter[..i] == steps[..i];
      LostForEver(ends, shorter, i);
      InvAlways(ends, shorter);
      LossStep(Exec(ends, shorter).value, steps[|steps| - 1], ends);
    }
  }

  // ---------------------------------------------------------------------------------------------------------
  // Which stop tokens are alive.

  /** At most one stop token is uncancelled, and it is the one of the started connection. */
  lemma OneLiveStopToken(ends: Ends, steps: seq<Step>, j: Token)
    requires Exec(ends, steps).Some?
    ensures var s := Exec(ends, steps).value;
            Valid(s.tree) && (OWN < j < |s.tree.parents| && !IsCancelled(s.tree, j) ==> s.connection == Started(j))
  {
    InvAlways(ends, steps);
    LiveIsStarted(Exec(ends, steps).value, ends, j);
  }

  lemma LiveIsStarted(s: Session, ends: Ends, j: Token)
    requires Inv(s, ends)
    ensures Valid(s.tree) && (OWN < j < |s.tree.parents| && !IsCancelled(s.tree, j) ==> s.connection == Started(j))
  {
  }

  /** `is_started`: the guard on the session's own token comes first. */
  predicate IsStarted(s: Session)
    requires Wellformed(s)
  {
    !IsCancelled(s.tree, OWN) && s.connection.Started?
  }

  lemma CancelledStep(s: Session, e: Step)
    requires Enabled(s, e) && IsCancelled(s.tree, OWN)
    ensures Valid(Perform(s, e).tree) && |Perform(s, e).tree.parents| > OWN && IsCancelled(Perform(s, e).tree, OWN)
  {
  }

  lemma {:induction false} CancelledStays(ends: Ends, steps: seq<Step>, i: nat)
    requires Exec(ends, steps).Some? && i <= |steps|
    requires Exec(ends, steps[..i]).Some? && Wellformed(Exec(ends, steps[..i]).value)
    requires IsCancelled(Exec(ends, steps[..i]).value.tree, OWN)
    ensures Wellformed(Exec(ends, steps).value) && IsCancelled(Exec(ends, steps).value.tree, OWN)
    decreases |steps|
  {
    InvAlways(ends, steps);
    if i == |steps| {
      assert steps[..i] == steps;
    } else {
      var shorter := steps[..|steps| - 1];
      assert shorter[..i] == steps[..i];
      CancelledStays(ends, shorter, i);
      CancelledStep(Exec(ends, shorter).value, steps[|steps| - 1]);
    }
  }

  /**
   * Once the session's or the manager's token is cancelled, no later state has a live stop token or counts as started,
   * not even when a `start` that had passed its check before the cancel takes the ends afterwards.
   */
  lemma NothingLivesAfterCancel(ends: Ends, steps: seq<Step>, i: nat)
    requires Exec(ends, steps).Some? && i <= |steps|
    requires Exec(ends, steps[..i]).Some? && Wellformed(Exec(ends, steps[..i]).value)
    requires IsCancelled(Exec(ends, steps[..i]).value.tree, OWN)
    ensures var s := Exec(ends, steps).value;
            && Wellformed(s) && !IsStarted(s)
            && forall j :: OWN < j < |s.tree.parents| ==> IsCancelled(s.tree, j)
  {
    CancelledStays(ends, steps, i);
    var s := Exec(ends, steps).value;
    forall j | OWN < j < |s.tree.parents| ensures IsCancelled(s.tree, j) {
      StopTokens(s, j);
    }
  }

  /** A `start` that raced past its check: the ends travel, but the relay's token is dead from the beginning. */
  lemma RacingStart(ends: Ends) returns (steps: seq<Step>)
    ensures Exec(ends, steps).Some?
    ensures var s := Exec(ends, steps).value;
            && Is(s, 0, Relaying(ends, 2)) && s.connection == Started(2)
            && Wellformed(s) && IsCancelled(s.tree, 2) && !IsStarted(s)
  {
    steps := [StartCheck(0), CancelOwn, StartRelay(0)];
    assert steps[..2] == [StartCheck(0), CancelOwn] && steps[..2][..1] == [StartCheck(0)] && steps[..2][..1][..0] == [];
    var s0 := Init(ends);
    var s1 := Perform(s0, StartCheck(0));
    assert Exec(ends, [StartCheck(0)]) == Some(s1);
    var s2 := Perform(s1, CancelOwn);
    assert Exec(ends, [StartCheck(0), CancelOwn]) == Some(s2);
    assert Exec(ends, steps) == Some(Perform(s2, StartRelay(0)));
  }
}
