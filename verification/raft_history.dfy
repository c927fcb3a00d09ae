/**
 * The control plane read backwards: what each part of a state says about the steps that led there. Who is cancelled,
 * which calls are under way and where they are, who has a lock and which delete events are still to be heard are all
 * settled by the steps taken so far.
 */
module RaftHistory {
  import opened Prelude
  import opened RaftCluster
  import opened RaftRegister
  import opened RaftFind
  import E = RaftEntries

  // ---------------------------------------------------------------------------------------------------------
  // Tokens.

  /** Step `e`, taken in `c`, cancels object `r`, which is on node `n` now or will be. */
  predicate Kills(c: Cluster, e: Step, r: SubId, n: NodeId) {
    match e
    case GuardDropped(me) => me == r
    case CancelNode(node) => node == n
    case HandleDelete(node, s) => (node, s) in c.maps && c.maps[(node, s)] == r
    case _ => false
  }

  ghost predicate KilledBefore(run: Run, j: nat, r: SubId, n: NodeId)
    requires IsRun(run) && j < |run.states|
  {
    exists i: nat :: i < j && Kills(run.states[i], run.steps[i], r, n)
  }

  ghost predicate ShutBefore(run: Run, j: nat, n: NodeId)
    requires IsRun(run) && j < |run.states|
  {
    exists i: nat :: i < j && run.steps[i] == CancelNode(n)
  }

  lemma DownStays(c: Cluster, e: Step)
    requires Enabled(c, e) && !IsEvent(e)
    ensures Perform(c, e).down == c.down
  {
  }

  lemma DownStep(c: Cluster, e: Step, n: NodeId)
    requires Enabled(c, e)
    ensures n in Perform(c, e).down <==> n in c.down || e == CancelNode(n)
  {
    if !IsEvent(e) {
      DownStays(c, e);
    }
  }

  lemma {:induction false} DownExactly(run: Run, j: nat, n: NodeId)
    requires IsRun(run) && j < |run.states|
    ensures n in run.states[j].down <==> ShutBefore(run, j, n)
  {
    if j > 0 {
      DownExactly(run, j - 1, n);
      assert Follows(run, j - 1);
      DownStep(run.states[j - 1], run.steps[j - 1], n);
    }
  }

  lemma KnownTokenStep(c: Cluster, e: Step, r: SubId)
    requires Enabled(c, e) && r in c.replicas
    ensures r in Perform(c, e).replicas
    ensures Perform(c, e).replicas[r].cancelled <==> c.replicas[r].cancelled || Kills(c, e, r, c.replicas[r].node)
  {
    if IsLookup(e) {
      LookupExtends(c, e);
    } else if IsSectionStep(e) {
      SectionFrame(c, e);
    } else if IsOther(e) {
      OtherFrame(c, e);
    }
  }

  lemma NothingMade(c: Cluster, e: Step, r: SubId)
    requires Enabled(c, e) && !e.CreateBegin? && !e.FindInsert? && r !in c.replicas
    ensures r !in Perform(c, e).replicas
  {
    if IsSectionStep(e) {
      SectionFrame(c, e);
    }
  }

  /** A new object comes from a `create` or a `find`, and is born cancelled on a node that is shut down. */
  lemma NewTokenStep(c: Cluster, e: Step, r: SubId)
    requires Enabled(c, e) && r !in c.replicas && r in Perform(c, e).replicas
    ensures e.CreateBegin? || e.FindInsert?
    ensures Perform(c, e).replicas[r].cancelled <==> Perform(c, e).replicas[r].node in c.down
  {
    if !e.CreateBegin? && !e.FindInsert? {
      NothingMade(c, e, r);
    }
  }

  /** An object that does not exist yet has not been cancelled by itself. */
  lemma {:induction false} NotKilledYet(run: Run, i: nat, j: nat, r: SubId, n: NodeId)
    requires IsRun(run) && i < j < |run.states| && r !in run.states[j].replicas
    ensures Kills(run.states[i], run.steps[i], r, n) ==> run.steps[i] == CancelNode(n)
  {
    InvAlways(run, i);
    assert Follows(run, i);
    if r in run.states[i].replicas {
      ReplicaStays(run, i, j, r);
    }
  }

  /**
   * In every state of a run an object is cancelled exactly if its closing guard was dropped, its node was shut down -
   * before or after it was made - or a delete event was handled while the node's map led to it.
   */
  lemma {:induction false} CancelledExactly(run: Run, j: nat, r: SubId)
    requires IsRun(run) && j < |run.states| && r in run.states[j].replicas
    ensures run.states[j].replicas[r].cancelled <==> KilledBefore(run, j, r, run.states[j].replicas[r].node)
  {
    if j > 0 {
      var c, e, n := run.states[j - 1], run.steps[j - 1], run.states[j].replicas[r].node;
      assert Follows(run, j - 1);
      if r in c.replicas {
        CancelledExactly(run, j - 1, r);
        KnownTokenStep(c, e, r);
        ReplicaStep(c, e, r);
      } else {
        NewTokenStep(c, e, r);
        DownExactly(run, j - 1, n);
        forall i: nat | i < j - 1 ensures Kills(run.states[i], run.steps[i], r, n) <==> run.steps[i] == CancelNode(n) {
          NotKilledYet(run, i, j - 1, r, n);
        }
      }
    }
  }

  /** A call of `start` or `stop` by a known object can begin exactly while nothing has cancelled it; `close` always. */
  lemma CallsBeginExactly(run: Run, j: nat, r: SubId, t: TaskId)
    requires IsRun(run) && j < |run.states| && r in run.states[j].replicas && t !in run.states[j].tasks
    ensures var c := run.states[j];
            && (Enabled(c, StartBegin(t, r)) <==> !KilledBefore(run, j, r, c.replicas[r].node))
            && (Enabled(c, StopBegin(t, r)) <==> !KilledBefore(run, j, r, c.replicas[r].node))
            && Enabled(c, CloseBegin(t, r))
  {
    CancelledExactly(run, j, r);
  }

  /**
   * After a closing guard is dropped, a node is shut down or a delete event is handled, the objects it concerns - on a
   * node that is shut down also those made there later - are never alive again, so no `start` or `stop` of theirs
   * begins; every other object's token is as it was.
   */
  lemma CancelIsForEver(run: Run, i: nat, j: nat, r: SubId)
    requires IsRun(run) && i < j < |run.states| && r in run.states[j].replicas
    ensures Kills(run.states[i], run.steps[i], r, run.states[j].replicas[r].node) ==>
              && !Alive(run.states[j], r)
              && forall t :: !Enabled(run.states[j], StartBegin(t, r)) && !Enabled(run.states[j], StopBegin(t, r))
    ensures r in run.states[i].replicas && !Kills(run.states[i], run.steps[i], r, run.states[j].replicas[r].node) ==>
              && r in run.states[i + 1].replicas
              && run.states[i + 1].replicas[r].cancelled == run.states[i].replicas[r].cancelled
  {
    CancelledExactly(run, j, r);
    assert Follows(run, i);
    if r in run.states[i].replicas {
      KnownTokenStep(run.states[i], run.steps[i], r);
      ReplicaStays(run, i, j, r);
    }
  }

  // ---------------------------------------------------------------------------------------------------------
  // Objects.

  /** Step `e`, taken in `c`, makes object `r` of session `s` on node `n`. */
  predicate Makes(c: Cluster, e: Step, r: SubId, s: SessionId, n: NodeId) {
    match e
    case CreateBegin(_, node, session, me, _) => me == r && session == s && node == n
    case FindInsert(t, spare) => Finding(c, t) && spare == r && c.tasks[t].session == s && c.tasks[t].node == n
    case _ => false
  }

  lemma MadeStep(c: Cluster, e: Step, r: SubId)
    requires Inv(c) && Enabled(c, e) && r !in c.replicas
    ensures var d := Perform(c, e);
            && (r in d.replicas ==> Makes(c, e, r, d.replicas[r].session, d.replicas[r].node))
            && forall s, n :: Makes(c, e, r, s, n) ==> r in d.replicas
  {
    if e.FindInsert? {
      assert TaskOk(c, e.task, c.tasks[e.task]);
    } else if !e.CreateBegin? {
      NothingMade(c, e, r);
    }
  }

  /** An object exists exactly after a `create` or the last step of a `find` has made it, for their session and node. */
  lemma {:induction false} ObjectsAreMade(run: Run, j: nat, r: SubId)
    requires IsRun(run) && j < |run.states|
    ensures r in run.states[j].replicas ==> (exists i: nat ::
              i < j && Makes(run.states[i], run.steps[i], r, run.states[j].replicas[r].session,
                             run.states[j].replicas[r].node))
    ensures forall i: nat, s, n :: i < j && Makes(run.states[i], run.steps[i], r, s, n) ==> r in run.states[j].replicas
  {
    if j > 0 {
      var c, e := run.states[j - 1], run.steps[j - 1];
      ObjectsAreMade(run, j - 1, r);
      assert Follows(run, j - 1);
      InvAlways(run, j - 1);
      if r in c.replicas {
        ReplicaStep(c, e, r);
      } else {
        MadeStep(c, e, r);
      }
    }
  }

  // ---------------------------------------------------------------------------------------------------------
  // Calls.

  /** What a call was made with. */
  datatype Call =
    | OfStart(me: SubId)
    | OfStop(me: SubId)
    | OfClose(me: SubId)
    | OfFind(node: NodeId, session: SessionId)
    | OfCreate(node: NodeId, session: SessionId, me: SubId, url: Url)

  function CallOf(task: Task): Call {
    match task
    case Start(me, _) => OfStart(me)
    case Stop(me, _) => OfStop(me)
    case Close(me, _) => OfClose(me)
    case Find(node, session, _) => OfFind(node, session)
    case Create(node, session, me, url, _) => OfCreate(node, session, me, url)
  }

  function Begun(e: Step): Option<Call> {
    match e
    case StartBegin(_, me) => Some(OfStart(me))
    case StopBegin(_, me) => Some(OfStop(me))
    case CloseBegin(_, me) => Some(OfClose(me))
    case FindBegin(_, node, session) => Some(OfFind(node, session))
    case CreateBegin(_, node, session, me, url) => Some(OfCreate(node, session, me, url))
    case _ => None
  }

  predicate IsOwn(e: Step, t: TaskId) {
    !IsEvent(e) && e.task == t
  }

  /** The call is over: it has returned, or was cut off. A `start` or `stop` goes on after its section. */
  predicate Ends(e: Step) {
    || e.FindGetNone? || e.FindHit? || e.FindAdopt? || e.FindInsert? || e.CreateInsert? || e.GetNone?
    || e.CloseNotify? || e.Abort?
  }

  /** Where a call is after its own step `e`. */
  predicate IsAfter(task: Task, e: Step) {
    match task
    case Start(_, at) => IsSectionAfter(at, e) || (at.Waiting? && e.StartBegin?)
    case Stop(_, at) => IsSectionAfter(at, e) || (at.Waiting? && e.StopBegin?)
    case Close(_, deleted) => if deleted then e.CloseDelete? else e.CloseBegin?
    case Find(_, _, lookup) =>
      if lookup.Fetching? then e.FindBegin? else if lookup.Fetched? then e.FindGet? else e.FindMiss?
    case Create(_, _, _, _, stored) => if stored then e.CreatePut? else e.CreateBegin?
  }

  predicate IsSectionAfter(at: Section, e: Step) {
    match at
    case Waiting => false
    case Locked => e.Acquire?
    case Read(_) => e.Get?
    case Wrote(_) => e.Put?
    case Released(_) => e.Release?
  }

  /** Step `e` is number `t`'s own: it ends the call, or leaves it where such a step leads. */
  predicate Led(c: Cluster, e: Step, d: Cluster, t: TaskId) {
    && (t in d.tasks <==> !Ends(e))
    && (t in d.tasks ==> IsAfter(d.tasks[t], e))
    && (t in d.tasks && Begun(e).Some? ==> CallOf(d.tasks[t]) == Begun(e).value)
    && (t in d.tasks && Begun(e).None? ==> t in c.tasks && CallOf(d.tasks[t]) == CallOf(c.tasks[t]))
  }

  lemma LookupLeads(c: Cluster, e: Step)
    requires Enabled(c, e) && IsLookup(e)
    ensures Led(c, e, Perform(c, e), e.task)
  {
  }

  lemma SectionBeginLeads(c: Cluster, e: Step)
    requires Enabled(c, e) && (e.StartBegin? || e.StopBegin? || e.Acquire?)
    ensures Led(c, e, Perform(c, e), e.task)
  {
  }

  lemma SectionLeads(c: Cluster, e: Step)
    requires Enabled(c, e) && IsSectionStep(e)
    ensures Led(c, e, Perform(c, e), e.task)
  {
    if e.StartBegin? || e.StopBegin? || e.Acquire? {
      SectionBeginLeads(c, e);
    }
  }

  lemma OtherLeads(c: Cluster, e: Step)
    requires Enabled(c, e) && IsOther(e)
    ensures Led(c, e, Perform(c, e), e.task)
  {
  }

  lemma StepLeads(c: Cluster, e: Step)
    requires Enabled(c, e) && !IsEvent(e)
    ensures Led(c, e, Perform(c, e), e.task)
  {
    if IsLookup(e) {
      LookupLeads(c, e);
    } else if IsSectionStep(e) {
      SectionLeads(c, e);
    } else {
      OtherLeads(c, e);
    }
  }

  /** Step `i` is the latest one of call number `t` before state `j`. */
  ghost predicate IsLatest(run: Run, i: nat, j: nat, t: TaskId)
    requires IsRun(run) && j < |run.states|
  {
    i < j && IsOwn(run.steps[i], t) && forall k :: i < k < j ==> !IsOwn(run.steps[k], t)
  }

  lemma CallAfter(run: Run, k: nat, t: TaskId)
    requires IsRun(run) && k < |run.steps|
    ensures if IsOwn(run.steps[k], t) then Led(run.states[k], run.steps[k], run.states[k + 1], t)
            else SameTask(run.states[k], run.states[k + 1], t)
  {
    assert Follows(run, k);
    if IsOwn(run.steps[k], t) {
      StepLeads(run.states[k], run.steps[k]);
    } else {
      OtherTaskStays(run.states[k], run.steps[k], t);
    }
  }

  /** A call is under way exactly if it has begun and not ended, and it is where its latest step has led it. */
  lemma {:induction false} CallsAreWhereTheyWent(run: Run, j: nat, t: TaskId)
    requires IsRun(run) && j < |run.states|
    ensures t in run.states[j].tasks <==> exists i: nat :: IsLatest(run, i, j, t) && !Ends(run.steps[i])
    ensures forall i: nat :: IsLatest(run, i, j, t) && t in run.states[j].tasks ==>
              IsAfter(run.states[j].tasks[t], run.steps[i])
  {
    if j > 0 {
      var k := j - 1;
      CallsAreWhereTheyWent(run, k, t);
      CallAfter(run, k, t);
      if IsOwn(run.steps[k], t) {
        assert IsLatest(run, k, j, t);
      } else {
        forall i: nat ensures IsLatest(run, i, j, t) <==> IsLatest(run, i, k, t) {
        }
      }
    }
  }

  /** The step after which a call may take its own step `e`: the order of the calls' texts. */
  predicate MayFollow(last: Step, e: Step) {
    match e
    case CreatePut(_) => last.CreateBegin?
    case CreateInsert(_) => last.CreatePut?
    case FindGet(_) => last.FindBegin?
    case FindGetNone(_) => last.FindBegin?
    case FindHit(_) => last.FindGet?
    case FindMiss(_) => last.FindGet?
    case FindAdopt(_) => last.FindMiss?
    case FindInsert(_, _) => last.FindMiss?
    case Acquire(_) => last.StartBegin? || last.StopBegin?
    case Get(_) => last.Acquire?
    case GetNone(_) => last.Acquire?
    case Put(_) => last.Get?
    case Release(_) => last.Put? || last.Get?
    case CloseDelete(_) => last.CloseBegin?
    case CloseNotify(_) => last.CloseDelete?
    case Abort(_) => !Ends(last)
    case _ => Ends(last)
  }

  lemma Ordered(c: Cluster, last: Step, e: Step)
    requires Enabled(c, e) && !IsEvent(e)
    requires e.task in c.tasks <==> !Ends(last)
    requires e.task in c.tasks ==> IsAfter(c.tasks[e.task], last)
    ensures MayFollow(last, e)
  {
  }

  /** No call skips a step, takes one twice or begins under the number of another. */
  lemma StepsComeInOrder(run: Run, i: nat, j: nat)
    requires IsRun(run) && j < |run.steps| && !IsEvent(run.steps[j]) && IsLatest(run, i, j, run.steps[j].task)
    ensures MayFollow(run.steps[i], run.steps[j])
  {
    var t := run.steps[j].task;
    CallsAreWhereTheyWent(run, j, t);
    assert Follows(run, j);
    forall k: nat | IsLatest(run, k, j, t) ensures k == i {
    }
    Ordered(run.states[j], run.steps[i], run.steps[j]);
  }

  /** The first step of a call is its beginning. */
  lemma CallsBegin(run: Run, j: nat)
    requires IsRun(run) && j < |run.steps| && !IsEvent(run.steps[j])
    requires forall k :: 0 <= k < j ==> !IsOwn(run.steps[k], run.steps[j].task)
    ensures Begun(run.steps[j]).Some?
  {
    CallsAreWhereTheyWent(run, j, run.steps[j].task);
    assert Follows(run, j);
  }

  /** It keeps what it was made with from its beginning on. */
  lemma {:induction false} CallsKeepTheirArguments(run: Run, j: nat, t: TaskId) returns (b: nat)
    requires IsRun(run) && j < |run.states| && t in run.states[j].tasks
    ensures b < j && IsOwn(run.steps[b], t) && Begun(run.steps[b]) == Some(CallOf(run.states[j].tasks[t]))
    ensures forall k :: b < k < j && IsOwn(run.steps[k], t) ==> Begun(run.steps[k]).None?
  {
    b := j - 1;
    CallAfter(run, b, t);
    if !IsOwn(run.steps[b], t) || Begun(run.steps[b]).None? {
      b := CallsKeepTheirArguments(run, b, t);
    }
  }

  // ---------------------------------------------------------------------------------------------------------
  // Locks.

  /** Call number `t` is in its section on session `s`. */
  predicate IsInside(c: Cluster, t: TaskId, s: SessionId) {
    KnownSection(c, t) && HoldsLock(c.tasks[t]) && SessionOf(c, t) == s
  }

  ghost predicate LocksOk(c: Cluster) {
    forall s :: s in c.locks ==> IsInside(c, c.locks[s], s)
  }

  lemma LocksStep(c: Cluster, e: Step)
    requires Inv(c) && LocksOk(c) && Enabled(c, e)
    ensures LocksOk(Perform(c, e))
  {
    if IsLookup(e) {
      LookupLocks(c, e);
    } else if IsSectionStep(e) {
      SectionLocks(c, e);
    } else if IsOther(e) {
      OtherLocks(c, e);
    } else {
      EventLocks(c, e);
    }
  }

  lemma LookupLocks(c: Cluster, e: Step)
    requires LocksOk(c) && Enabled(c, e) && IsLookup(e)
    ensures LocksOk(Perform(c, e))
  {
    LookupFrame(c, e);
    LookupExtends(c, e);
  }

  lemma SectionLocks(c: Cluster, e: Step)
    requires Inv(c) && LocksOk(c) && Enabled(c, e) && IsSectionStep(e)
    ensures LocksOk(Perform(c, e))
  {
    if e.Acquire? || e.Get? || e.Put? {
      GoingOnLocks(c, e);
    } else if e.Release? {
      ReleaseLocks(c, e.task);
    } else if e.GetNone? {
      GetNoneLocks(c, e.task);
    }
  }

  lemma GoingOnLocks(c: Cluster, e: Step)
    requires LocksOk(c) && Enabled(c, e) && (e.Acquire? || e.Get? || e.Put?)
    ensures LocksOk(Perform(c, e))
  {
  }

  lemma ReleaseLocks(c: Cluster, t: TaskId)
    requires LocksOk(c) && Enabled(c, Release(t))
    ensures LocksOk(Perform(c, Release(t)))
  {
  }

  lemma GetNoneLocks(c: Cluster, t: TaskId)
    requires LocksOk(c) && Enabled(c, GetNone(t))
    ensures LocksOk(Perform(c, GetNone(t)))
  {
  }

  lemma OtherLocks(c: Cluster, e: Step)
    requires LocksOk(c) && Enabled(c, e) && IsOther(e)
    ensures LocksOk(Perform(c, e))
  {
    OtherFrame(c, e);
  }

  lemma EventLocks(c: Cluster, e: Step)
    requires LocksOk(c) && Enabled(c, e) && IsEvent(e)
    ensures LocksOk(Perform(c, e))
  {
    EventFrame(c, e);
  }

  lemma LocksAfter(run: Run, j: nat)
    requires IsRun(run) && j < |run.steps| && LocksOk(run.states[j])
    ensures LocksOk(run.states[j + 1])
  {
    InvAlways(run, j);
    assert Follows(run, j);
    LocksStep(run.states[j], run.steps[j]);
  }

  lemma {:induction false} LocksAlways(run: Run, j: nat)
    requires IsRun(run) && j < |run.states|
    ensures LocksOk(run.states[j])
  {
    if j == 0 {
      assert run.states[0].locks == map[];
    } else {
      LocksAlways(run, j - 1);
      LocksAfter(run, j - 1);
    }
  }

  /** A session is locked exactly while one call is in its section on it, whatever became of other calls. */
  lemma LockedExactlyInside(run: Run, j: nat, s: SessionId)
    requires IsRun(run) && j < |run.states|
    ensures forall t :: IsInside(run.states[j], t, s) <==> s in run.states[j].locks && run.states[j].locks[s] == t
  {
    LocksAlways(run, j);
    InvAlways(run, j);
    forall t | IsInside(run.states[j], t, s) ensures s in run.states[j].locks && run.states[j].locks[s] == t {
      assert TaskOk(run.states[j], t, run.states[j].tasks[t]);
    }
  }

  // ---------------------------------------------------------------------------------------------------------
  // Delete events.

  /** Step `e` is the notify of a `close` of session `s`. */
  predicate Announces(c: Cluster, e: Step, s: SessionId) {
    && e.CloseNotify? && e.task in c.tasks && c.tasks[e.task].Close? && c.tasks[e.task].me in c.replicas
    && c.replicas[c.tasks[e.task].me].session == s
  }

  predicate Hears(e: Step, n: NodeId, s: SessionId) {
    e == HandleDelete(n, s) || e == HandleUnknown(n, s)
  }

  ghost function Announcements(run: Run, j: nat, s: SessionId): nat
    requires IsRun(run) && j < |run.states|
  {
    if j == 0 then 0
    else Announcements(run, j - 1, s) + if Announces(run.states[j - 1], run.steps[j - 1], s) then 1 else 0
  }

  ghost function Hearings(run: Run, j: nat, n: NodeId, s: SessionId): nat
    requires IsRun(run) && j < |run.states|
  {
    if j == 0 then 0 else Hearings(run, j - 1, n, s) + if Hears(run.steps[j - 1], n, s) then 1 else 0
  }

  /** Node `n` has one event about `s` more before it if `e` announces one, and one less if `e` is its hearing of it. */
  predicate Accounts(c: Cluster, e: Step, d: Cluster, n: NodeId, s: SessionId) {
    && d.nodes == c.nodes
    && d.pending[(n, s)] + (if Hears(e, n, s) then 1 else 0) ==
       c.pending[(n, s)] + if n in c.nodes && Announces(c, e, s) then 1 else 0
  }

  lemma HearingAccounts(c: Cluster, e: Step, n: NodeId, s: SessionId)
    requires Enabled(c, e) && IsEvent(e)
    ensures Accounts(c, e, Perform(c, e), n, s)
  {
  }

  lemma NotifyAccounts(c: Cluster, t: TaskId, n: NodeId, s: SessionId)
    requires Enabled(c, CloseNotify(t))
    ensures Accounts(c, CloseNotify(t), Perform(c, CloseNotify(t)), n, s)
  {
  }

  lemma OtherAccounts(c: Cluster, e: Step, n: NodeId, s: SessionId)
    requires Enabled(c, e) && !IsEvent(e) && !e.CloseNotify?
    ensures Accounts(c, e, Perform(c, e), n, s)
  {
    E.PendingStays(c, e);
    E.NodesStay(c, e);
  }

  lemma PendingStep(c: Cluster, e: Step, n: NodeId, s: SessionId)
    requires Enabled(c, e)
    ensures Accounts(c, e, Perform(c, e), n, s)
  {
    if IsEvent(e) {
      HearingAccounts(c, e, n, s);
    } else if e.CloseNotify? {
      NotifyAccounts(c, e.task, n, s);
    } else {
      OtherAccounts(c, e, n, s);
    }
  }

  /** Every notify reaches every node once: what a node has still to hear is what was sent less what it has heard. */
  lemma {:induction false} EventsAreConserved(run: Run, j: nat, n: NodeId, s: SessionId)
    requires IsRun(run) && j < |run.states|
    ensures run.states[j].nodes == run.states[0].nodes
    ensures n in run.states[0].nodes ==>
              run.states[j].pending[(n, s)] + Hearings(run, j, n, s) == Announcements(run, j, s)
    ensures n !in run.states[0].nodes ==> (n, s) !in run.states[j].pending
  {
    if j > 0 {
      EventsAreConserved(run, j - 1, n, s);
      assert Follows(run, j - 1);
      PendingStep(run.states[j - 1], run.steps[j - 1], n, s);
    }
  }

  // ---------------------------------------------------------------------------------------------------------
  // Entries and records.

  /** The object that step `e`, taken in `c`, puts into the map at `k`, if it puts one. */
  function Published(c: Cluster, e: Step, k: Key): Option<SubId> {
    match e
    case CreateInsert(t) => if Publishes(c, e, k) then Some(c.tasks[t].me) else None
    case FindInsert(t, spare) =>
      if Finding(c, t) && (c.tasks[t].node, c.tasks[t].session) == k then Some(spare) else None
    case _ => None
  }

  predicate TouchesEntry(c: Cluster, e: Step, k: Key) {
    Published(c, e, k).Some? || e == HandleDelete(k.0, k.1)
  }

  lemma EntriesStay(c: Cluster, e: Step)
    requires Enabled(c, e) && !e.FindInsert? && !e.CreateInsert? && !e.HandleDelete?
    ensures Perform(c, e).maps == c.maps
  {
    if IsSectionStep(e) {
      SectionFrame(c, e);
    }
  }

  lemma PublishedOrDropped(c: Cluster, e: Step, k: Key)
    requires Enabled(c, e) && (e.CreateInsert? || e.HandleDelete?)
    ensures Entry(Perform(c, e), k) == if TouchesEntry(c, e, k) then Published(c, e, k) else Entry(c, k)
  {
  }

  lemma EntryChange(c: Cluster, e: Step, k: Key)
    requires Inv(c) && Enabled(c, e)
    ensures Entry(Perform(c, e), k) == if TouchesEntry(c, e, k) then Published(c, e, k) else Entry(c, k)
  {
    if e.FindInsert? {
      FindIsGetOrCreate(c, e);
    } else if e.CreateInsert? || e.HandleDelete? {
      PublishedOrDropped(c, e, k);
    } else {
      EntriesStay(c, e);
    }
  }

  lemma EntryAfter(run: Run, m: nat, k: Key)
    requires IsRun(run) && m < |run.steps|
    ensures Entry(run.states[m + 1], k) ==
            if TouchesEntry(run.states[m], run.steps[m], k) then Published(run.states[m], run.steps[m], k)
            else Entry(run.states[m], k)
  {
    assert Follows(run, m);
    InvAlways(run, m);
    EntryChange(run.states[m], run.steps[m], k);
  }

  /** Step `i` is the latest one before state `j` that put an entry at `k` or dropped the one there. */
  ghost predicate IsLatestTouch(run: Run, i: nat, j: nat, k: Key)
    requires IsRun(run) && j < |run.states|
  {
    && i < j && TouchesEntry(run.states[i], run.steps[i], k)
    && forall m :: i < m < j ==> !TouchesEntry(run.states[m], run.steps[m], k)
  }

  /** A node's entry is what was put there last, if nothing has dropped it since; and nothing else is there. */
  lemma {:induction false} EntriesAreLastPublished(run: Run, j: nat, k: Key)
    requires IsRun(run) && j < |run.states|
    ensures forall i: nat :: IsLatestTouch(run, i, j, k) ==>
              Entry(run.states[j], k) == Published(run.states[i], run.steps[i], k)
    ensures k in run.states[j].maps ==> exists i: nat :: IsLatestTouch(run, i, j, k)
  {
    if j > 0 {
      var m := j - 1;
      EntriesAreLastPublished(run, m, k);
      EntryAfter(run, m, k);
      if TouchesEntry(run.states[m], run.steps[m], k) {
        assert IsLatestTouch(run, m, j, k);
      } else {
        forall i: nat ensures IsLatestTouch(run, i, j, k) <==> IsLatestTouch(run, i, m, k) {
        }
      }
    }
  }

  function OwnerIn(c: Cluster, s: SessionId): Option<Option<SubId>> {
    if s in c.kv then Some(c.kv[s].main) else None
  }

  predicate TouchesRecord(c: Cluster, e: Step, s: SessionId) {
    Stores(c, e, s).Some? || Deletes(c, e, s)
  }

  lemma RecordChange(c: Cluster, e: Step, s: SessionId)
    requires Enabled(c, e)
    ensures OwnerIn(Perform(c, e), s) == if TouchesRecord(c, e, s) then Stores(c, e, s) else OwnerIn(c, s)
  {
    if e.Put? || e.CreatePut? {
      PutChange(c, e, s);
    } else {
      OtherStepsWriteNothing(c, e);
    }
  }

  lemma PutChange(c: Cluster, e: Step, s: SessionId)
    requires Enabled(c, e) && (e.Put? || e.CreatePut?)
    ensures OwnerIn(Perform(c, e), s) == if TouchesRecord(c, e, s) then Stores(c, e, s) else OwnerIn(c, s)
  {
  }

  ghost predicate IsLatestWrite(run: Run, i: nat, j: nat, s: SessionId)
    requires IsRun(run) && j < |run.states|
  {
    && i < j && TouchesRecord(run.states[i], run.steps[i], s)
    && forall m :: i < m < j ==> !TouchesRecord(run.states[m], run.steps[m], s)
  }

  /** A record is there exactly from a put to the next delete, with the owner of its last put. */
  lemma {:induction false} RecordsAreLastPut(run: Run, j: nat, s: SessionId)
    requires IsRun(run) && j < |run.states|
    ensures forall i: nat :: IsLatestWrite(run, i, j, s) ==>
              OwnerIn(run.states[j], s) == Stores(run.states[i], run.steps[i], s)
    ensures s in run.states[j].kv ==> exists i: nat :: IsLatestWrite(run, i, j, s)
  {
    if j > 0 {
      var m := j - 1;
      RecordsAreLastPut(run, m, s);
      assert Follows(run, m);
      RecordChange(run.states[m], run.steps[m], s);
      if TouchesRecord(run.states[m], run.steps[m], s) {
        assert IsLatestWrite(run, m, j, s);
      } else {
        forall i: nat ensures IsLatestWrite(run, i, j, s) <==> IsLatestWrite(run, i, m, s) {
        }
      }
    }
  }

  // ---------------------------------------------------------------------------------------------------------
  // Nothing gets stuck.

  /** Call number `t` has a step of its own to take, other than being cut off. */
  ghost predicate CanGoOn(c: Cluster, t: TaskId) {
    exists e :: IsOwn(e, t) && !e.Abort? && Enabled(c, e)
  }

  /** It is through its section, or another call is in the section that it waits for. */
  ghost predicate Rests(c: Cluster, t: TaskId)
    requires t in c.tasks
  {
    && IsSection(c.tasks[t])
    && (c.tasks[t].at.Released? ||
        (c.tasks[t].at.Waiting? && KnownSection(c, t) && exists u :: IsInside(c, u, SessionOf(c, t))))
  }

  /** A sub-session id that no object has. */
  lemma Spare(c: Cluster) returns (r: SubId)
    ensures r !in c.replicas
  {
    r := SpareOf(c.replicas.Keys, {});
  }

  lemma {:induction false} SpareOf(taken: set<SubId>, seen: set<SubId>) returns (r: SubId)
    requires seen <= taken && forall k: nat :: k < |seen| <==> SubId(k) in seen
    ensures r !in taken
    decreases |taken| - |seen|
  {
    var k := |seen|;
    if SubId(k) !in taken {
      r := SubId(k);
    } else {
      Smaller(seen, taken, SubId(k));
      r := SpareOf(taken, seen + {SubId(k)});
    }
  }

  lemma Smaller(seen: set<SubId>, taken: set<SubId>, r: SubId)
    requires seen <= taken && r in taken && r !in seen
    ensures |seen| < |taken|
  {
    assert taken == seen + (taken - seen) && r in taken - seen;
  }

  lemma WaitingGoesOn(run: Run, j: nat, t: TaskId)
    requires IsRun(run) && j < |run.states| && KnownSection(run.states[j], t) && run.states[j].tasks[t].at.Waiting?
    ensures CanGoOn(run.states[j], t) <==> !Rests(run.states[j], t)
  {
    var c := run.states[j];
    var s := SessionOf(c, t);
    LockedExactlyInside(run, j, s);
    LocksAlways(run, j);
    if s in c.locks {
      assert IsInside(c, c.locks[s], s);
      forall e | IsOwn(e, t) && !e.Abort? ensures !Enabled(c, e) {
      }
    } else {
      assert IsOwn(Acquire(t), t) && Enabled(c, Acquire(t));
      forall u ensures !IsInside(c, u, s) {
      }
    }
  }

  lemma InsideGoesOn(c: Cluster, t: TaskId)
    requires KnownSection(c, t) && HoldsLock(c.tasks[t])
    ensures CanGoOn(c, t)
  {
    var at := c.tasks[t].at;
    var e := if at.Read? then (if MayPut(c.tasks[t]) then Put(t) else Release(t))
             else if at.Wrote? then Release(t)
             else if SessionOf(c, t) in c.kv then Get(t) else GetNone(t);
    assert IsOwn(e, t) && Enabled(c, e);
  }

  lemma ThroughRests(c: Cluster, t: TaskId)
    requires t in c.tasks && IsSection(c.tasks[t]) && c.tasks[t].at.Released?
    ensures Rests(c, t) && !CanGoOn(c, t)
  {
  }

  lemma SectionGoesOn(run: Run, j: nat, t: TaskId)
    requires IsRun(run) && j < |run.states| && t in run.states[j].tasks && IsSection(run.states[j].tasks[t])
    ensures CanGoOn(run.states[j], t) <==> !Rests(run.states[j], t)
  {
    var c := run.states[j];
    InvAlways(run, j);
    assert TaskOk(c, t, c.tasks[t]);
    match c.tasks[t].at
    case Waiting => WaitingGoesOn(run, j, t);
    case Released(_) => ThroughRests(c, t);
    case _ => InsideGoesOn(c, t);
  }

  lemma LookupGoesOn(c: Cluster, t: TaskId)
    requires t in c.tasks && c.tasks[t].Find?
    ensures CanGoOn(c, t)
  {
    var task := c.tasks[t];
    match task.lookup
    case Fetching =>
      if task.session in c.kv { assert IsOwn(FindGet(t), t); } else { assert IsOwn(FindGetNone(t), t); }
    case Fetched(_) =>
      if (task.node, task.session) in c.maps { assert IsOwn(FindHit(t), t); } else { assert IsOwn(FindMiss(t), t); }
    case Missed(_) =>
      if Slot(task) in c.maps {
        assert IsOwn(FindAdopt(t), t);
      } else {
        var r := Spare(c);
        assert IsOwn(FindInsert(t, r), t);
      }
  }

  lemma OtherGoesOn(c: Cluster, t: TaskId)
    requires t in c.tasks && (c.tasks[t].Create? || (c.tasks[t].Close? && c.tasks[t].me in c.replicas))
    ensures CanGoOn(c, t)
  {
    var e := if c.tasks[t].Create? then (if c.tasks[t].stored then CreateInsert(t) else CreatePut(t))
             else if c.tasks[t].deleted then CloseNotify(t) else CloseDelete(t);
    assert IsOwn(e, t) && Enabled(c, e);
  }

  /**
   * In every state of a run a call can go on exactly unless it is through its section or another call is in the one it
   * waits for.
   */
  lemma CallsGoOnExactly(run: Run, j: nat, t: TaskId)
    requires IsRun(run) && j < |run.states| && t in run.states[j].tasks
    ensures CanGoOn(run.states[j], t) <==> !Rests(run.states[j], t)
  {
    var c := run.states[j];
    if IsSection(c.tasks[t]) {
      SectionGoesOn(run, j, t);
    } else if c.tasks[t].Find? {
      LookupGoesOn(c, t);
    } else {
      InvAlways(run, j);
      assert TaskOk(c, t, c.tasks[t]);
      OtherGoesOn(c, t);
    }
  }

  /** A `find` can begin on any node and for any id, a `create` on any node with an id that was never drawn before. */
  lemma LookupsBeginExactly(run: Run, j: nat, t: TaskId, n: NodeId, s: SessionId, me: SubId, url: Url)
    requires IsRun(run) && j < |run.states| && t !in run.states[j].tasks && n in run.states[0].nodes
    ensures Enabled(run.states[j], FindBegin(t, n, s))
    ensures Enabled(run.states[j], CreateBegin(t, n, s, me, url)) <==>
              && me !in run.states[j].replicas
              && forall i :: 0 <= i < j && run.steps[i].CreateBegin? ==> run.steps[i].session != s
  {
    EventsAreConserved(run, j, n, s);
    if i :| 0 <= i < j && run.steps[i].CreateBegin? && run.steps[i].session == s {
      assert Follows(run, i);
      CreatedStep(run.states[i], run.steps[i]);
      CreatedStays(run, i + 1, j, s);
    } else {
      UncreatedStays(run, j, s);
    }
  }

  /** Whatever the state: calls can be cut off, pending events heard, nodes shut down and closing guards dropped. */
  lemma AnythingCanHappen(c: Cluster)
    ensures forall t :: t in c.tasks ==> Enabled(c, Abort(t))
    ensures forall n, s :: (n, s) in c.pending && n !in c.down ==>
              Enabled(c, HandleDelete(n, s)) || Enabled(c, HandleUnknown(n, s))
    ensures forall n :: n in c.nodes ==> Enabled(c, CancelNode(n))
    ensures forall r :: r in c.replicas ==> Enabled(c, GuardDropped(r))
  {
  }
}
