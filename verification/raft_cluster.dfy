/**
 * The control plane of the raft-backed session store: the shared key-value record of a session, the lock that
 * guards it, the per-node session maps, and every task that touches them, one atomic step at a time.
 * A label resolves all nondeterminism of a step, so `Perform` is a function.
 */
module RaftCluster {
  import opened Prelude

  datatype SessionId = SessionId(uuid: nat)
  datatype SubId = SubId(uuid: nat)
  datatype Url = Url(text: nat)
  type NodeId = nat
  type TaskId = nat

  /** The value stored under a session id in the shared store. */
  datatype Record = Record(session: SessionId, url: Url, main: Option<SubId>)

  /** One in-memory session object; `cancelled` is the state of its cancellation token. */
  datatype Replica = Replica(session: SessionId, url: Url, node: NodeId, cancelled: bool)

  /** Where a `start` or `stop` call is in its locked section; `Released` keeps what the call decided on. */
  datatype Section =
    | Waiting
    | Locked
    | Read(copy: Record)
    | Wrote(owner: Option<SubId>)
    | Released(owner: Option<SubId>)

  datatype Lookup = Fetching | Fetched(copy: Record) | Missed(copy: Record)

  datatype Task =
    | Start(me: SubId, at: Section)
    | Stop(me: SubId, at: Section)
    | Close(me: SubId, deleted: bool)
    | Find(node: NodeId, session: SessionId, lookup: Lookup)
    | Create(node: NodeId, session: SessionId, me: SubId, url: Url, stored: bool)

  /**
   * `down` holds the nodes whose manager token is cancelled: a session object made there is born cancelled.
   * `created` and `written` are history: the url each session was created with and the task that created it, and
   * the owner that the last put of its record carried (which outlives a delete of the record).
   */
  datatype Origin = Origin(url: Url, creator: TaskId)

  datatype Cluster = Cluster(
    nodes: set<NodeId>,
    down: set<NodeId>,
    kv: map<SessionId, Record>,
    locks: map<SessionId, TaskId>,
    replicas: map<SubId, Replica>,
    maps: map<(NodeId, SessionId), SubId>,
    tasks: map<TaskId, Task>,
    pending: multiset<(NodeId, SessionId)>,
    created: map<SessionId, Origin>,
    written: map<SessionId, Option<SubId>>)

  datatype Step =
    | CreateBegin(task: TaskId, node: NodeId, session: SessionId, me: SubId, url: Url)
    | CreatePut(task: TaskId)
    | CreateInsert(task: TaskId)
    | FindBegin(task: TaskId, node: NodeId, session: SessionId)
    | FindGet(task: TaskId)
    | FindGetNone(task: TaskId)
    | FindHit(task: TaskId)
    | FindMiss(task: TaskId)
    | FindAdopt(task: TaskId)
    | FindInsert(task: TaskId, spare: SubId)
    | StartBegin(task: TaskId, me: SubId)
    | StopBegin(task: TaskId, me: SubId)
    | Acquire(task: TaskId)
    | Get(task: TaskId)
    | GetNone(task: TaskId)
    | Put(task: TaskId)
    | Release(task: TaskId)
    | CloseBegin(task: TaskId, me: SubId)
    | CloseDelete(task: TaskId)
    | CloseNotify(task: TaskId)
    | HandleDelete(node: NodeId, session: SessionId)
    | HandleUnknown(node: NodeId, session: SessionId)
    | CancelNode(node: NodeId)
    | GuardDropped(me: SubId)
    | Abort(task: TaskId)

  function Init(nodes: set<NodeId>): Cluster {
    Cluster(nodes, {}, map[], map[], map[], map[], map[], multiset{}, map[], map[])
  }

  /** What `start` puts back: it claims an unowned record and leaves an owned one alone. */
  function ClaimIfFree(copy: Record, me: SubId): Record {
    if copy.main.None? then copy.(main := Some(me)) else copy
  }

  /** What `stop` puts back when it puts at all. */
  function Relinquish(copy: Record): Record {
    copy.(main := None)
  }

  predicate IsSection(task: Task) {
    task.Start? || task.Stop?
  }

  /** The call holds the session's lock. */
  predicate HoldsLock(task: Task) {
    IsSection(task) && (task.at.Locked? || task.at.Read? || task.at.Wrote?)
  }

  predicate KnownSection(c: Cluster, t: TaskId) {
    t in c.tasks && IsSection(c.tasks[t]) && c.tasks[t].me in c.replicas
  }

  function SessionOf(c: Cluster, t: TaskId): SessionId
    requires KnownSection(c, t)
  {
    c.replicas[c.tasks[t].me].session
  }

  predicate FreshTask(c: Cluster, t: TaskId) {
    t !in c.tasks
  }

  predicate Alive(c: Cluster, me: SubId) {
    me in c.replicas && !c.replicas[me].cancelled
  }

  predicate MayPut(task: Task) {
    IsSection(task) && task.at.Read? && (task.Stop? ==> task.at.copy.main == Some(task.me))
  }

  predicate MayRelease(task: Task) {
    IsSection(task) && (task.at.Wrote? || (task.Stop? && task.at.Read? && task.at.copy.main != Some(task.me)))
  }

  predicate Finding(c: Cluster, t: TaskId) {
    t in c.tasks && c.tasks[t].Find?
  }

  /** The map entry a `find` fills: its key is the id inside the record, not the one it was asked for. */
  function Slot(task: Task): (NodeId, SessionId)
    requires task.Find? && task.lookup.Missed?
  {
    (task.node, task.lookup.copy.session)
  }

  predicate Enabled(c: Cluster, e: Step) {
    match e
    case CreateBegin(t, n, s, me, url) =>
      FreshTask(c, t) && n in c.nodes && s !in c.created && me !in c.replicas
    case CreatePut(t) => t in c.tasks && c.tasks[t].Create? && !c.tasks[t].stored
    case CreateInsert(t) => t in c.tasks && c.tasks[t].Create? && c.tasks[t].stored
    case FindBegin(t, n, s) => FreshTask(c, t) && n in c.nodes
    case FindGet(t) => Finding(c, t) && c.tasks[t].lookup.Fetching? && c.tasks[t].session in c.kv
    case FindGetNone(t) => Finding(c, t) && c.tasks[t].lookup.Fetching? && c.tasks[t].session !in c.kv
    case FindHit(t) => Finding(c, t) && c.tasks[t].lookup.Fetched? && (c.tasks[t].node, c.tasks[t].session) in c.maps
    case FindMiss(t) => Finding(c, t) && c.tasks[t].lookup.Fetched? && (c.tasks[t].node, c.tasks[t].session) !in c.maps
    case FindAdopt(t) => Finding(c, t) && c.tasks[t].lookup.Missed? && Slot(c.tasks[t]) in c.maps
    case FindInsert(t, spare) =>
      Finding(c, t) && c.tasks[t].lookup.Missed? && Slot(c.tasks[t]) !in c.maps && spare !in c.replicas
    case StartBegin(t, me) => FreshTask(c, t) && Alive(c, me)
    case StopBegin(t, me) => FreshTask(c, t) && Alive(c, me)
    case Acquire(t) => KnownSection(c, t) && c.tasks[t].at.Waiting? && SessionOf(c, t) !in c.locks
    case Get(t) => KnownSection(c, t) && c.tasks[t].at.Locked? && SessionOf(c, t) in c.kv
    case GetNone(t) => KnownSection(c, t) && c.tasks[t].at.Locked? && SessionOf(c, t) !in c.kv
    case Put(t) => KnownSection(c, t) && MayPut(c.tasks[t])
    case Release(t) => KnownSection(c, t) && MayRelease(c.tasks[t])
    case CloseBegin(t, me) => FreshTask(c, t) && me in c.replicas
    case CloseDelete(t) => t in c.tasks && c.tasks[t].Close? && !c.tasks[t].deleted && c.tasks[t].me in c.replicas
    case CloseNotify(t) => t in c.tasks && c.tasks[t].Close? && c.tasks[t].deleted && c.tasks[t].me in c.replicas
    case HandleDelete(n, s) => (n, s) in c.pending && (n, s) in c.maps
    case HandleUnknown(n, s) => (n, s) in c.pending && (n, s) !in c.maps
    case CancelNode(n) => n in c.nodes
    case GuardDropped(me) => me in c.replicas
    case Abort(t) => t in c.tasks
  }

  function SetTask(c: Cluster, t: TaskId, task: Task): Cluster {
    c.(tasks := c.tasks[t := task])
  }

  function Advance(c: Cluster, t: TaskId, at: Section): Cluster
    requires t in c.tasks && IsSection(c.tasks[t])
  {
    SetTask(c, t, c.tasks[t].(at := at))
  }

  function Forget(c: Cluster, t: TaskId): Cluster {
    c.(tasks := c.tasks - {t})
  }

  /** A new session object for the record `copy`, put into the map of node `n`. */
  function Adopt(c: Cluster, n: NodeId, copy: Record, me: SubId): Cluster {
    SetEntry(AddReplica(c, me, Replica(copy.session, copy.url, n, n in c.down)), n, copy.session, me)
  }

  function DropEntry(c: Cluster, n: NodeId, s: SessionId): Cluster {
    c.(maps := c.maps - {(n, s)})
  }

  /** The event "session deleted" reaches every node, the sender's own included. */
  function Announce(c: Cluster, s: SessionId): Cluster {
    c.(pending := c.pending + multiset(set n | n in c.nodes :: (n, s)))
  }

  function Hear(c: Cluster, n: NodeId, s: SessionId): Cluster {
    c.(pending := c.pending - multiset{(n, s)})
  }

  function Delete(c: Cluster, s: SessionId): Cluster {
    c.(kv := c.kv - {s})
  }

  function Born(c: Cluster, s: SessionId, url: Url, t: TaskId): Cluster {
    c.(created := c.created[s := Origin(url, t)])
  }

  function ShutDown(c: Cluster, n: NodeId): Cluster {
    c.(down := c.down + {n})
  }

  function Lock(c: Cluster, s: SessionId, t: TaskId): Cluster {
    c.(locks := c.locks[s := t])
  }

  function AddReplica(c: Cluster, me: SubId, replica: Replica): Cluster {
    c.(replicas := c.replicas[me := replica])
  }

  function SetEntry(c: Cluster, n: NodeId, s: SessionId, me: SubId): Cluster {
    c.(maps := c.maps[(n, s) := me])
  }

  /** Gives up every lock that task `t` holds. */
  function Unlock(c: Cluster, t: TaskId): Cluster {
    c.(locks := map s | s in c.locks && c.locks[s] != t :: c.locks[s])
  }

  function Store(c: Cluster, s: SessionId, record: Record): Cluster {
    c.(kv := c.kv[s := record], written := c.written[s := record.main])
  }

  /** Cancels the replicas in `which`. */
  function Cancel(c: Cluster, which: set<SubId>): Cluster {
    c.(replicas := map r | r in c.replicas ::
      if r in which then c.replicas[r].(cancelled := true) else c.replicas[r])
  }

  function PutBack(task: Task): Record
    requires MayPut(task)
  {
    if task.Start? then ClaimIfFree(task.at.copy, task.me) else Relinquish(task.at.copy)
  }

  predicate IsLookup(e: Step) {
    e.FindBegin? || e.FindGet? || e.FindGetNone? || e.FindHit? || e.FindMiss? || e.FindAdopt? || e.FindInsert?
  }

  predicate IsSectionStep(e: Step) {
    e.StartBegin? || e.StopBegin? || e.Acquire? || e.Get? || e.GetNone? || e.Put? || e.Release?
  }

  /** The steps that belong to no call. */
  predicate IsEvent(e: Step) {
    e.HandleDelete? || e.HandleUnknown? || e.CancelNode? || e.GuardDropped?
  }

  predicate IsOther(e: Step) {
    !IsLookup(e) && !IsSectionStep(e) && !IsEvent(e)
  }

  function Perform(c: Cluster, e: Step): Cluster
    requires Enabled(c, e)
  {
    if IsLookup(e) then PerformLookup(c, e)
    else if IsSectionStep(e) then PerformSectionStep(c, e)
    else if IsEvent(e) then PerformEvent(c, e)
    else PerformOther(c, e)
  }

  /** The steps of `find`. */
  function PerformLookup(c: Cluster, e: Step): Cluster
    requires Enabled(c, e) && IsLookup(e)
  {
    match e
    case FindBegin(t, n, s) => SetTask(c, t, Find(n, s, Fetching))
    case FindGet(t) =>
      SetTask(c, t, Find(c.tasks[t].node, c.tasks[t].session, Fetched(c.kv[c.tasks[t].session])))
    case FindGetNone(t) => Forget(c, t)
    case FindHit(t) => Forget(c, t)
    case FindMiss(t) => SetTask(c, t, Find(c.tasks[t].node, c.tasks[t].session, Missed(c.tasks[t].lookup.copy)))
    case FindAdopt(t) => Forget(c, t)
    case FindInsert(t, spare) => Forget(Adopt(c, c.tasks[t].node, c.tasks[t].lookup.copy, spare), t)
  }

  /** The steps of `start` and `stop`. */
  function PerformSectionStep(c: Cluster, e: Step): Cluster
    requires Enabled(c, e) && IsSectionStep(e)
  {
    match e
    case StartBegin(t, me) => SetTask(c, t, Start(me, Waiting))
    case StopBegin(t, me) => SetTask(c, t, Stop(me, Waiting))
    case Acquire(t) => Advance(Lock(c, SessionOf(c, t), t), t, Locked)
    case Get(t) => Advance(c, t, Read(c.kv[SessionOf(c, t)]))
    case GetNone(t) => Unlock(Forget(c, t), t)
    case Put(t) =>
      var record := PutBack(c.tasks[t]);
      Advance(Store(c, SessionOf(c, t), record), t, Wrote(record.main))
    case Release(t) =>
      var at := c.tasks[t].at;
      Unlock(Advance(c, t, Released(if at.Wrote? then at.owner else at.copy.main)), t)
  }

  /** What the event listeners do, and what cancels tokens; a closing guard leaves the map entry where it is. */
  function PerformEvent(c: Cluster, e: Step): Cluster
    requires Enabled(c, e) && IsEvent(e)
  {
    match e
    case HandleDelete(n, s) => Cancel(DropEntry(Hear(c, n, s), n, s), {c.maps[(n, s)]})
    case HandleUnknown(n, s) => Hear(c, n, s)
    case CancelNode(n) =>
      Cancel(ShutDown(c, n), set r | r in c.replicas && c.replicas[r].node == n)
    case GuardDropped(me) => Cancel(c, {me})
  }

  /** The steps of `create` and `close`, and failures. */
  function PerformOther(c: Cluster, e: Step): Cluster
    requires Enabled(c, e) && IsOther(e)
  {
    match e
    case CreateBegin(t, n, s, me, url) =>
      SetTask(AddReplica(Born(c, s, url, t), me, Replica(s, url, n, n in c.down)),
              t, Create(n, s, me, url, false))
    case CreatePut(t) =>
      var task := c.tasks[t];
      SetTask(Store(c, task.session, Record(task.session, task.url, None)), t,
              Create(task.node, task.session, task.me, task.url, true))
    case CreateInsert(t) =>
      Forget(SetEntry(c, c.tasks[t].node, c.tasks[t].session, c.tasks[t].me), t)
    case CloseBegin(t, me) => SetTask(c, t, Close(me, false))
    case CloseDelete(t) =>
      SetTask(Delete(c, c.replicas[c.tasks[t].me].session), t, Close(c.tasks[t].me, true))
    case CloseNotify(t) =>
      Forget(Announce(c, c.replicas[c.tasks[t].me].session), t)
    case Abort(t) => Unlock(Forget(c, t), t)
  }

  // ---------------------------------------------------------------------------------------------------------
  // The invariant of every reachable state.

  /** A copy of the record of `s` that carries the url given to `create`. */
  predicate GenuineCopy(c: Cluster, s: SessionId, copy: Record) {
    copy.session == s && s in c.created && copy.url == c.created[s].url
  }

  /** A genuine copy whose owner is the last one that was written. */
  predicate CurrentCopy(c: Cluster, s: SessionId, copy: Record) {
    GenuineCopy(c, s, copy) && s in c.written && copy.main == c.written[s]
  }

  ghost predicate RecordsAgree(c: Cluster) {
    && c.written.Keys <= c.created.Keys
    && forall s :: s in c.kv ==> CurrentCopy(c, s, c.kv[s])
  }

  predicate ReplicaOk(c: Cluster, replica: Replica) {
    replica.session in c.created && replica.url == c.created[replica.session].url
  }

  ghost predicate ReplicasAgree(c: Cluster) {
    forall r :: r in c.replicas ==> ReplicaOk(c, c.replicas[r])
  }

  ghost predicate MapsAgree(c: Cluster) {
    forall k :: k in c.maps ==>
      c.maps[k] in c.replicas && c.replicas[c.maps[k]].session == k.1 && c.replicas[c.maps[k]].node == k.0
  }

  predicate SectionOk(c: Cluster, t: TaskId, task: Task)
    requires IsSection(task)
  {
    && task.me in c.replicas
    && var s := c.replicas[task.me].session;
       && (HoldsLock(task) ==> s in c.locks && c.locks[s] == t)
       && (task.at.Read? ==> CurrentCopy(c, s, task.at.copy))
  }

  predicate TaskOk(c: Cluster, t: TaskId, task: Task) {
    match task
    case Start(_, _) => SectionOk(c, t, task)
    case Stop(_, _) => SectionOk(c, t, task)
    case Close(me, _) => me in c.replicas
    case Find(_, s, lookup) => lookup.Fetching? || GenuineCopy(c, s, lookup.copy)
    case Create(n, s, me, url, stored) =>
      && s in c.created && c.created[s] == Origin(url, t)
      && me in c.replicas && c.replicas[me].session == s && c.replicas[me].node == n
      // Nobody has put the record before `create` does, so its unlocked put overwrites nothing.
      && (!stored ==> s !in c.written)
  }

  ghost predicate TasksAgree(c: Cluster) {
    forall t :: t in c.tasks ==> TaskOk(c, t, c.tasks[t])
  }

  ghost predicate Inv(c: Cluster) {
    RecordsAgree(c) && ReplicasAgree(c) && MapsAgree(c) && TasksAgree(c)
  }

  // What each primitive change keeps.

  lemma SetTaskKeeps(c: Cluster, t: TaskId, task: Task)
    requires Inv(c) && TaskOk(c, t, task)
    ensures Inv(SetTask(c, t, task))
  {
  }

  lemma ForgetKeeps(c: Cluster, t: TaskId)
    requires Inv(c)
    ensures Inv(Forget(c, t))
  {
  }

  lemma UnlockKeeps(c: Cluster, t: TaskId)
    requires Inv(c) && (t in c.tasks ==> !HoldsLock(c.tasks[t]))
    ensures Inv(Unlock(c, t))
  {
  }

  lemma AddReplicaKeeps(c: Cluster, me: SubId, replica: Replica)
    requires Inv(c) && me !in c.replicas && ReplicaOk(c, replica)
    ensures Inv(AddReplica(c, me, replica))
  {
  }

  lemma SetEntryKeeps(c: Cluster, n: NodeId, s: SessionId, me: SubId)
    requires Inv(c) && me in c.replicas && c.replicas[me].session == s && c.replicas[me].node == n
    ensures Inv(SetEntry(c, n, s, me))
  {
  }

  lemma CancelKeeps(c: Cluster, which: set<SubId>)
    requires Inv(c)
    ensures Inv(Cancel(c, which))
  {
  }

  /** Nobody but `t` is between reading and writing the record of `s`, nor about to write it for the first time. */
  ghost predicate WritesAlone(c: Cluster, t: TaskId, s: SessionId) {
    forall u :: u in c.tasks && u != t ==> MayNotWrite(c, u, s)
  }

  predicate MayNotWrite(c: Cluster, u: TaskId, s: SessionId)
    requires u in c.tasks
  {
    && (KnownSection(c, u) && c.tasks[u].at.Read? ==> SessionOf(c, u) != s)
    && (c.tasks[u].Create? && c.tasks[u].session == s ==> c.tasks[u].stored)
  }

  lemma StoreKeepsTask(c: Cluster, s: SessionId, record: Record, u: TaskId)
    requires Inv(c) && u in c.tasks && MayNotWrite(c, u, s)
    ensures TaskOk(Store(c, s, record), u, c.tasks[u])
  {
    assert TaskOk(c, u, c.tasks[u]);
  }

  lemma StoreKeeps(c: Cluster, t: TaskId, s: SessionId, record: Record, task: Task)
    requires Inv(c) && t in c.tasks && GenuineCopy(c, s, record) && WritesAlone(c, t, s)
    requires TaskOk(Store(c, s, record), t, task)
    ensures Inv(SetTask(Store(c, s, record), t, task))
  {
    var stored := Store(c, s, record);
    var d := SetTask(stored, t, task);
    forall u | u in d.tasks ensures TaskOk(d, u, d.tasks[u]) {
      if u != t {
        StoreKeepsTask(c, s, record, u);
        assert TaskOk(stored, u, c.tasks[u]);
      }
    }
  }

  // What each step keeps.

  lemma BornKeeps(c: Cluster, s: SessionId, url: Url, t: TaskId)
    requires Inv(c) && s !in c.created
    ensures Inv(Born(c, s, url, t))
  {
    var known := Born(c, s, url, t);
    forall u | u in known.tasks ensures TaskOk(known, u, known.tasks[u]) {
      assert TaskOk(c, u, c.tasks[u]);
    }
  }

  lemma CreateBeginKeeps(c: Cluster, t: TaskId, n: NodeId, s: SessionId, me: SubId, url: Url)
    requires Inv(c) && Enabled(c, CreateBegin(t, n, s, me, url))
    ensures Inv(Perform(c, CreateBegin(t, n, s, me, url)))
  {
    var known := Born(c, s, url, t);
    BornKeeps(c, s, url, t);
    var replica := Replica(s, url, n, n in c.down);
    AddReplicaKeeps(known, me, replica);
    SetTaskKeeps(AddReplica(known, me, replica), t, Create(n, s, me, url, false));
  }

  lemma CreatePutKeeps(c: Cluster, t: TaskId)
    requires Inv(c) && Enabled(c, CreatePut(t))
    ensures Inv(Perform(c, CreatePut(t)))
  {
    var task := c.tasks[t];
    assert TaskOk(c, t, task);
    forall u | u in c.tasks && u != t ensures MayNotWrite(c, u, task.session) {
      assert TaskOk(c, u, c.tasks[u]);
    }
    StoreKeeps(c, t, task.session, Record(task.session, task.url, None),
               Create(task.node, task.session, task.me, task.url, true));
  }

  lemma CreateInsertKeeps(c: Cluster, t: TaskId)
    requires Inv(c) && Enabled(c, CreateInsert(t))
    ensures Inv(Perform(c, CreateInsert(t)))
  {
    var task := c.tasks[t];
    assert TaskOk(c, t, task);
    SetEntryKeeps(c, task.node, task.session, task.me);
    ForgetKeeps(SetEntry(c, task.node, task.session, task.me), t);
  }

  lemma FindInsertKeeps(c: Cluster, t: TaskId, spare: SubId)
    requires Inv(c) && Enabled(c, FindInsert(t, spare))
    ensures Inv(Perform(c, FindInsert(t, spare)))
  {
    var node, copy := c.tasks[t].node, c.tasks[t].lookup.copy;
    assert TaskOk(c, t, c.tasks[t]);
    var replica := Replica(copy.session, copy.url, node, node in c.down);
    AddReplicaKeeps(c, spare, replica);
    SetEntryKeeps(AddReplica(c, spare, replica), node, copy.session, spare);
    ForgetKeeps(Adopt(c, node, copy, spare), t);
  }

  lemma GetKeeps(c: Cluster, t: TaskId)
    requires Inv(c) && Enabled(c, Get(t))
    ensures Inv(Perform(c, Get(t)))
  {
  }

  lemma AcquireKeeps(c: Cluster, t: TaskId)
    requires Inv(c) && Enabled(c, Acquire(t))
    ensures Inv(Perform(c, Acquire(t)))
  {
    var locked := Lock(c, SessionOf(c, t), t);
    assert TaskOk(c, t, c.tasks[t]);
    forall u | u in locked.tasks ensures TaskOk(locked, u, locked.tasks[u]) {
      assert TaskOk(c, u, c.tasks[u]);
    }
    SetTaskKeeps(locked, t, c.tasks[t].(at := Locked));
  }

  lemma PutKeeps(c: Cluster, t: TaskId)
    requires Inv(c) && Enabled(c, Put(t))
    ensures Inv(Perform(c, Put(t)))
  {
    var task, s, record := c.tasks[t], SessionOf(c, t), PutBack(c.tasks[t]);
    assert TaskOk(c, t, task);
    forall u | u in c.tasks && u != t ensures MayNotWrite(c, u, s) {
      assert TaskOk(c, u, c.tasks[u]);
    }
    StoreKeeps(c, t, s, record, task.(at := Wrote(record.main)));
  }

  lemma ReleaseKeeps(c: Cluster, t: TaskId)
    requires Inv(c) && Enabled(c, Release(t))
    ensures Inv(Perform(c, Release(t)))
  {
  }

  lemma CloseDeleteKeeps(c: Cluster, t: TaskId)
    requires Inv(c) && Enabled(c, CloseDelete(t))
    ensures Inv(Perform(c, CloseDelete(t)))
  {
    var gone := Delete(c, c.replicas[c.tasks[t].me].session);
    assert TaskOk(c, t, c.tasks[t]);
    forall u | u in gone.tasks ensures TaskOk(gone, u, gone.tasks[u]) {
      assert TaskOk(c, u, c.tasks[u]);
    }
    SetTaskKeeps(gone, t, Close(c.tasks[t].me, true));
  }

  lemma CloseNotifyKeeps(c: Cluster, t: TaskId)
    requires Inv(c) && Enabled(c, CloseNotify(t))
    ensures Inv(Perform(c, CloseNotify(t)))
  {
  }

  lemma HandleDeleteKeeps(c: Cluster, n: NodeId, s: SessionId)
    requires Inv(c) && Enabled(c, HandleDelete(n, s))
    ensures Inv(Perform(c, HandleDelete(n, s)))
  {
    var heard := DropEntry(Hear(c, n, s), n, s);
    forall u | u in heard.tasks ensures TaskOk(heard, u, heard.tasks[u]) {
      assert TaskOk(c, u, c.tasks[u]);
    }
    CancelKeeps(heard, {c.maps[(n, s)]});
  }

  lemma HandleUnknownKeeps(c: Cluster, n: NodeId, s: SessionId)
    requires Inv(c) && Enabled(c, HandleUnknown(n, s))
    ensures Inv(Perform(c, HandleUnknown(n, s)))
  {
  }

  lemma FindMissKeeps(c: Cluster, t: TaskId)
    requires Inv(c) && Enabled(c, FindMiss(t))
    ensures Inv(Perform(c, FindMiss(t)))
  {
    assert TaskOk(c, t, c.tasks[t]);
    SetTaskKeeps(c, t, Find(c.tasks[t].node, c.tasks[t].session, Missed(c.tasks[t].lookup.copy)));
  }

  lemma CancelNodeKeeps(c: Cluster, n: NodeId)
    requires Inv(c) && Enabled(c, CancelNode(n))
    ensures Inv(Perform(c, CancelNode(n)))
  {
    var down := ShutDown(c, n);
    forall u | u in down.tasks ensures TaskOk(down, u, down.tasks[u]) {
      assert TaskOk(c, u, c.tasks[u]);
    }
    CancelKeeps(down, set r | r in c.replicas && c.replicas[r].node == n);
  }

  lemma AbortKeeps(c: Cluster, t: TaskId)
    requires Inv(c) && Enabled(c, Abort(t))
    ensures Inv(Perform(c, Abort(t)))
  {
    ForgetKeeps(c, t);
    UnlockKeeps(Forget(c, t), t);
  }

  lemma LookupKeeps(c: Cluster, e: Step)
    requires Inv(c) && Enabled(c, e) && IsLookup(e)
    ensures Inv(Perform(c, e))
  {
    var t := e.task;
    if e.FindBegin? {
      SetTaskKeeps(c, t, Find(e.node, e.session, Fetching));
    } else if e.FindGet? {
      SetTaskKeeps(c, t, Find(c.tasks[t].node, c.tasks[t].session, Fetched(c.kv[c.tasks[t].session])));
    } else if e.FindMiss? {
      FindMissKeeps(c, t);
    } else if e.FindInsert? {
      FindInsertKeeps(c, t, e.spare);
    } else {
      ForgetKeeps(c, t);
    }
  }

  lemma SectionStepKeeps(c: Cluster, e: Step)
    requires Inv(c) && Enabled(c, e) && IsSectionStep(e)
    ensures Inv(Perform(c, e))
  {
    var t := e.task;
    if e.StartBegin? {
      SetTaskKeeps(c, t, Start(e.me, Waiting));
    } else if e.StopBegin? {
      SetTaskKeeps(c, t, Stop(e.me, Waiting));
    } else if e.Acquire? {
      AcquireKeeps(c, t);
    } else if e.Get? {
      GetKeeps(c, t);
    } else if e.Put? {
      PutKeeps(c, t);
    } else if e.Release? {
      ReleaseKeeps(c, t);
    } else {
      AbortKeeps(c, t);
    }
  }

  lemma EventKeeps(c: Cluster, e: Step)
    requires Inv(c) && Enabled(c, e) && IsEvent(e)
    ensures Inv(Perform(c, e))
  {
    match e
    case HandleDelete(n, s) => HandleDeleteKeeps(c, n, s);
    case HandleUnknown(n, s) => HandleUnknownKeeps(c, n, s);
    case CancelNode(n) => CancelNodeKeeps(c, n);
    case GuardDropped(me) => CancelKeeps(c, {me});
  }

  /** Every step keeps the invariant. */
  lemma InvStep(c: Cluster, e: Step)
    requires Inv(c) && Enabled(c, e)
    ensures Inv(Perform(c, e))
  {
    if IsLookup(e) {
      LookupKeeps(c, e);
    } else if IsSectionStep(e) {
      SectionStepKeeps(c, e);
    } else if IsEvent(e) {
      EventKeeps(c, e);
    } else {
      match e
      case CreateBegin(t, n, s, me, url) => CreateBeginKeeps(c, t, n, s, me, url);
      case CreatePut(t) => CreatePutKeeps(c, t);
      case CreateInsert(t) => CreateInsertKeeps(c, t);
      case CloseBegin(t, me) => SetTaskKeeps(c, t, Close(me, false));
      case CloseDelete(t) => CloseDeleteKeeps(c, t);
      case CloseNotify(t) => CloseNotifyKeeps(c, t);
      case Abort(t) => AbortKeeps(c, t);
    }
  }

  // ---------------------------------------------------------------------------------------------------------
  // What a step leaves alone.

  /** A `find` touches nothing but its own task and, at its end, the node's map and objects. */
  lemma LookupFrame(c: Cluster, e: Step)
    requires Enabled(c, e) && IsLookup(e)
    ensures var d := Perform(c, e);
            && d.kv == c.kv && d.written == c.written && d.created == c.created && d.nodes == c.nodes
            && (d.tasks == c.tasks - {e.task} || (e.task in d.tasks && d.tasks == c.tasks[e.task := d.tasks[e.task]]))
            && (e.task in d.tasks ==> d.tasks[e.task].Find?)
  {
  }

  lemma LookupExtends(c: Cluster, e: Step)
    requires Enabled(c, e) && IsLookup(e)
    ensures var d := Perform(c, e);
            && (forall r :: r in c.replicas ==> r in d.replicas && d.replicas[r] == c.replicas[r])
            && (forall k :: k in c.maps ==> k in d.maps && d.maps[k] == c.maps[k])
  {
  }

  /** A `start` or `stop` touches its own task and the lock, and with a put the record. */
  lemma SectionFrame(c: Cluster, e: Step)
    requires Enabled(c, e) && IsSectionStep(e)
    ensures var d := Perform(c, e);
            && d.replicas == c.replicas && d.maps == c.maps && d.created == c.created && d.nodes == c.nodes
            && (!e.Put? ==> d.kv == c.kv && d.written == c.written)
            && (d.tasks == c.tasks - {e.task} || (e.task in d.tasks && d.tasks == c.tasks[e.task := d.tasks[e.task]]))
            && (e.task in d.tasks ==> IsSection(d.tasks[e.task]) && (d.tasks[e.task].at.Read? ==> e.Get?))
  {
  }

  /** The events and shutdowns of nodes touch no record and no task. */
  lemma EventFrame(c: Cluster, e: Step)
    requires Enabled(c, e) && IsEvent(e)
    ensures var d := Perform(c, e);
            && d.kv == c.kv && d.written == c.written && d.created == c.created && d.nodes == c.nodes
            && d.tasks == c.tasks
  {
  }

  /** The remaining steps are those of `create` and `close`, and failures. */
  lemma OtherFrame(c: Cluster, e: Step)
    requires Enabled(c, e) && IsOther(e)
    ensures var d := Perform(c, e);
            && d.nodes == c.nodes && (!e.CreatePut? ==> d.written == c.written)
            && (!e.CreatePut? && !e.CloseDelete? ==> d.kv == c.kv)
            && d.created == (if e.CreateBegin? then c.created[e.session := Origin(e.url, e.task)] else c.created)
            && (d.tasks == c.tasks - {e.task} || (e.task in d.tasks && d.tasks == c.tasks[e.task := d.tasks[e.task]]))
            && (e.task in d.tasks ==> !IsSection(d.tasks[e.task]))
            && (forall r :: r in c.replicas ==> r in d.replicas && d.replicas[r] == c.replicas[r])
  {
  }

  predicate Outlives(before: Replica, after: Replica) {
    after == before.(cancelled := after.cancelled) && (before.cancelled ==> after.cancelled)
  }

  /** A step changes nothing about a session object but its cancellation, and that in one direction. */
  lemma ReplicaStep(c: Cluster, e: Step, r: SubId)
    requires Enabled(c, e) && r in c.replicas
    ensures r in Perform(c, e).replicas
    ensures Outlives(c.replicas[r], Perform(c, e).replicas[r])
  {
    if IsLookup(e) {
      LookupExtends(c, e);
    } else if IsSectionStep(e) {
      SectionFrame(c, e);
    } else if IsOther(e) {
      OtherFrame(c, e);
    }
  }

  predicate SameTask(c: Cluster, d: Cluster, t: TaskId) {
    (t in c.tasks <==> t in d.tasks) && (t in c.tasks ==> d.tasks[t] == c.tasks[t])
  }

  lemma LookupTask(c: Cluster, e: Step, t: TaskId)
    requires Enabled(c, e) && IsLookup(e) && e.task != t
    ensures SameTask(c, Perform(c, e), t)
  {
    LookupFrame(c, e);
  }

  lemma SectionTask(c: Cluster, e: Step, t: TaskId)
    requires Enabled(c, e) && IsSectionStep(e) && e.task != t
    ensures SameTask(c, Perform(c, e), t)
  {
    SectionFrame(c, e);
  }

  lemma OtherTask(c: Cluster, e: Step, t: TaskId)
    requires Enabled(c, e) && IsOther(e) && e.task != t
    ensures SameTask(c, Perform(c, e), t)
  {
    OtherFrame(c, e);
  }

  /** A step touches no task but its own. */
  lemma OtherTaskStays(c: Cluster, e: Step, t: TaskId)
    requires Enabled(c, e) && (IsEvent(e) || e.task != t)
    ensures SameTask(c, Perform(c, e), t)
  {
    if IsLookup(e) {
      LookupTask(c, e, t);
    } else if IsSectionStep(e) {
      SectionTask(c, e, t);
    } else if IsEvent(e) {
      EventFrame(c, e);
    } else {
      OtherTask(c, e, t);
    }
  }

  /** Only a get puts a call between reading and writing the record. */
  lemma OnlyGetReads(c: Cluster, e: Step, t: TaskId)
    requires Enabled(c, e) && !e.Get? && (t in c.tasks && IsSection(c.tasks[t]) ==> !c.tasks[t].at.Read?)
    requires t in Perform(c, e).tasks && IsSection(Perform(c, e).tasks[t])
    ensures !Perform(c, e).tasks[t].at.Read?
  {
    if IsEvent(e) || e.task != t {
      OtherTaskStays(c, e, t);
    } else if IsLookup(e) {
      LookupFrame(c, e);
    } else if IsSectionStep(e) {
      SectionFrame(c, e);
    } else {
      OtherFrame(c, e);
    }
  }

  /** Only a put writes a record. */
  lemma OtherStepsWriteNothing(c: Cluster, e: Step)
    requires Enabled(c, e) && !e.Put? && !e.CreatePut?
    ensures Perform(c, e).written == c.written && (!e.CloseDelete? ==> Perform(c, e).kv == c.kv)
  {
    if IsLookup(e) {
      LookupFrame(c, e);
    } else if IsSectionStep(e) {
      SectionFrame(c, e);
    } else if IsEvent(e) {
      EventFrame(c, e);
    } else {
      OtherFrame(c, e);
    }
  }

  // ---------------------------------------------------------------------------------------------------------
  // Runs.

  /** `states[i + 1]` is `states[i]` after `steps[i]`. */
  datatype Run = Run(states: seq<Cluster>, steps: seq<Step>)

  ghost predicate Follows(run: Run, i: nat)
    requires i < |run.steps| && |run.states| == |run.steps| + 1
  {
    Enabled(run.states[i], run.steps[i]) && run.states[i + 1] == Perform(run.states[i], run.steps[i])
  }

  ghost predicate IsRun(run: Run) {
    && |run.states| == |run.steps| + 1
    && run.states[0] == Init(run.states[0].nodes)
    && forall i :: 0 <= i < |run.steps| ==> Follows(run, i)
  }

  lemma InvInitially(nodes: set<NodeId>)
    ensures Inv(Init(nodes))
  {
  }

  lemma InvAfter(run: Run, i: nat)
    requires IsRun(run) && i < |run.steps| && Inv(run.states[i])
    ensures Inv(run.states[i + 1])
  {
    assert Follows(run, i);
    InvStep(run.states[i], run.steps[i]);
  }

  lemma {:induction false} InvAlways(run: Run, i: nat)
    requires IsRun(run) && i < |run.states|
    ensures Inv(run.states[i])
  {
    if i == 0 {
      InvInitially(run.states[0].nodes);
    } else {
      InvAlways(run, i - 1);
      InvAfter(run, i - 1);
    }
  }

  /** A session object keeps its session, its node and its url for ever, and never becomes uncancelled. */
  lemma {:induction false} ReplicaStays(run: Run, i: nat, j: nat, r: SubId)
    requires IsRun(run) && i <= j < |run.states| && r in run.states[i].replicas
    ensures r in run.states[j].replicas && Outlives(run.states[i].replicas[r], run.states[j].replicas[r])
  {
    if i < j {
      ReplicaStays(run, i, j - 1, r);
      assert Follows(run, j - 1);
      ReplicaStep(run.states[j - 1], run.steps[j - 1], r);
    }
  }

  /** History only grows, and only by the session that a `create` draws. */
  lemma CreatedStep(c: Cluster, e: Step)
    requires Enabled(c, e)
    ensures Perform(c, e).created ==
            if e.CreateBegin? then c.created[e.session := Origin(e.url, e.task)] else c.created
  {
    if IsLookup(e) {
      LookupFrame(c, e);
    } else if IsSectionStep(e) {
      SectionFrame(c, e);
    } else if IsEvent(e) {
      EventFrame(c, e);
    } else {
      OtherFrame(c, e);
    }
  }

  /** History never forgets the url a session was created with. */
  lemma {:induction false} CreatedStays(run: Run, i: nat, j: nat, s: SessionId)
    requires IsRun(run) && i <= j < |run.states| && s in run.states[i].created
    ensures s in run.states[j].created && run.states[j].created[s] == run.states[i].created[s]
  {
    if i < j {
      CreatedStays(run, i, j - 1, s);
      assert Follows(run, j - 1);
      CreatedStep(run.states[j - 1], run.steps[j - 1]);
    }
  }

  /**
   * Whatever is interleaved with it, each record and each session object of a session carries the url that
   * `create` was given, even after the record was deleted and put back.
   */
  lemma CacheAgreement(run: Run, i: nat, j: nat, s: SessionId, url: Url)
    requires IsRun(run) && i < j < |run.states|
    requires run.steps[i].CreateBegin? && run.steps[i].session == s && run.steps[i].url == url
    ensures s in run.states[j].kv ==> run.states[j].kv[s].session == s && run.states[j].kv[s].url == url
    ensures forall r :: r in run.states[j].replicas && run.states[j].replicas[r].session == s ==>
              run.states[j].replicas[r].url == url
  {
    assert Follows(run, i);
    CreatedStep(run.states[i], run.steps[i]);
    CreatedStays(run, i + 1, j, s);
    InvAlways(run, j);
  }

  /** A session that nobody created has neither a record nor an object anywhere. */
  lemma NothingUncreated(run: Run, j: nat, s: SessionId)
    requires IsRun(run) && j < |run.states|
    requires forall i :: 0 <= i < j && run.steps[i].CreateBegin? ==> run.steps[i].session != s
    ensures s !in run.states[j].kv
    ensures forall r :: r in run.states[j].replicas ==> run.states[j].replicas[r].session != s
    ensures forall n :: (n, s) !in run.states[j].maps
  {
    UncreatedStays(run, j, s);
    InvAlways(run, j);
  }

  lemma {:induction false} UncreatedStays(run: Run, j: nat, s: SessionId)
    requires IsRun(run) && j < |run.states|
    requires forall i :: 0 <= i < j && run.steps[i].CreateBegin? ==> run.steps[i].session != s
    ensures s !in run.states[j].created
  {
    if j > 0 {
      UncreatedStays(run, j - 1, s);
      assert Follows(run, j - 1);
      CreatedStep(run.states[j - 1], run.steps[j - 1]);
    }
  }
}
