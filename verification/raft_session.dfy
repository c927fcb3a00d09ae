/**
 * The calls on one raft-backed session object and its node's manager, in the form in which they run when nothing is
 * interleaved with them. What interleaving adds is the subject of `RaftCluster`, whose steps they are made of.
 */
module RaftSession {
  import opened Prelude
  import opened RaftCluster
  import opened RaftRegister

  /** The part of the shared store that sessions use: an atomic map and a lock per key. */
  class Store {
    var records: map<SessionId, Record>
    var locked: set<SessionId>
    /** The delete events sent to all nodes. */
    var announced: seq<SessionId>

    constructor ()
      ensures records == map[] && locked == {} && announced == []
    {
      records, locked, announced := map[], {}, [];
    }
  }

  datatype Error = AlreadyClosed | LockFailed | StoreFailed

  datatype Result<T> = Ok(value: T) | Err(error: Error)

  /** Which calls to the store fail; a failed put may have been applied. */
  datatype Faults = Faults(atLock: bool, atGet: bool, atPut: bool, applied: bool)

  /** The same for `close`: a failed delete or notification may have gone through. */
  datatype CloseFaults = CloseFaults(atDelete: bool, deleted: bool, atNotify: bool, sent: bool)

  datatype Chosen = AsSub | AsMain

  // ---------------------------------------------------------------------------------------------------------
  // What a whole section does to the records.

  function AfterStart(records: map<SessionId, Record>, s: SessionId, me: SubId): map<SessionId, Record> {
    if s in records then records[s := ClaimIfFree(records[s], me)] else records
  }

  function AfterStop(records: map<SessionId, Record>, s: SessionId, me: SubId): map<SessionId, Record> {
    if s in records && records[s].main == Some(me) then records[s := Relinquish(records[s])] else records
  }

  function RegisterOf(records: map<SessionId, Record>, s: SessionId): Register {
    if s in records then Holding(records[s].main) else Absent
  }

  class Session {
    const store: Store
    const session: SessionId
    const url: Url
    const me: SubId
    var cancelled: bool

    constructor (store: Store, session: SessionId, url: Url, me: SubId, cancelled: bool)
      ensures this.store == store && this.session == session && this.url == url && this.me == me
      ensures this.cancelled == cancelled
    {
      this.store, this.session, this.url, this.me, this.cancelled := store, session, url, me, cancelled;
    }

    /** A call of the object gets the lock. */
    predicate GetsLock(faults: Faults)
      reads this, store
    {
      !cancelled && !faults.atLock && session !in store.locked
    }

    predicate IsOwner()
      reads store
    {
      session in store.records && store.records[session].main == Some(me)
    }

    /** The owner that `start` decides on. */
    method StartSection(faults: Faults) returns (r: Result<SubId>)
      modifies store`records, store`locked
      ensures store.locked == old(store.locked)
      ensures r.Ok? <==> old(GetsLock(faults)) && session in old(store.records) && !faults.atGet && !faults.atPut
      ensures r.Ok? ==> session in store.records && store.records[session].main == Some(r.value)
      ensures r == Err(AlreadyClosed) <==>
              cancelled || (old(GetsLock(faults)) && !faults.atGet && session !in old(store.records))
      ensures r == Err(LockFailed) <==> !cancelled && !old(GetsLock(faults))
      ensures r == Err(StoreFailed) <==>
              old(GetsLock(faults)) && (faults.atGet || (session in old(store.records) && faults.atPut))
      ensures store.records == if r.Ok? || (r == Err(StoreFailed) && !faults.atGet && faults.applied)
                               then AfterStart(old(store.records), session, me) else old(store.records)
    {
      if cancelled {
        return Err(AlreadyClosed);
      }
      if faults.atLock || session in store.locked {
        return Err(LockFailed);
      }
      store.locked := store.locked + {session};
      if faults.atGet {
        store.locked := store.locked - {session};
        return Err(StoreFailed);
      }
      if session !in store.records {
        store.locked := store.locked - {session};
        return Err(AlreadyClosed);
      }
      var data := store.records[session];
      if data.main.None? {
        data := data.(main := Some(me));
      }
      if !faults.atPut || faults.applied {
        store.records := store.records[session := data];
      }
      store.locked := store.locked - {session};
      if faults.atPut {
        return Err(StoreFailed);
      }
      return Ok(data.main.value);
    }

    /** The role a call of `start` goes on to: the owner of the record becomes a sub. */
    method Start(faults: Faults) returns (r: Result<Chosen>)
      modifies store`records, store`locked
      ensures store.locked == old(store.locked)
      ensures r.Ok? <==> old(GetsLock(faults)) && session in old(store.records) && !faults.atGet && !faults.atPut
      ensures r.Ok? ==> session in store.records && (r.value == AsSub <==> store.records[session].main == Some(me))
      ensures r == Err(AlreadyClosed) <==>
              cancelled || (old(GetsLock(faults)) && !faults.atGet && session !in old(store.records))
      ensures r == Err(LockFailed) <==> !cancelled && !old(GetsLock(faults))
      ensures store.records == if r.Ok? || (r == Err(StoreFailed) && !faults.atGet && faults.applied)
                               then AfterStart(old(store.records), session, me) else old(store.records)
    {
      var section := StartSection(faults);
      if section.Err? {
        return Err(section.error);
      }
      if section.value == me {
        return Ok(AsSub);
      }
      return Ok(AsMain);
    }

    /** `stop` up to the end of its section. */
    method StopSection(faults: Faults) returns (r: Result<()>)
      modifies store`records, store`locked
      ensures store.locked == old(store.locked)
      ensures r.Ok? <==> old(GetsLock(faults)) && session in old(store.records) && !faults.atGet
                         && (old(IsOwner()) ==> !faults.atPut)
      ensures r.Ok? ==> session in store.records && store.records[session].main != Some(me)
      ensures r == Err(AlreadyClosed) <==>
              cancelled || (old(GetsLock(faults)) && !faults.atGet && session !in old(store.records))
      ensures r == Err(LockFailed) <==> !cancelled && !old(GetsLock(faults))
      ensures r == Err(StoreFailed) <==> old(GetsLock(faults)) && (faults.atGet || (old(IsOwner()) && faults.atPut))
      ensures store.records == if r.Ok? || (r == Err(StoreFailed) && !faults.atGet && faults.applied)
                               then AfterStop(old(store.records), session, me) else old(store.records)
    {
      if cancelled {
        return Err(AlreadyClosed);
      }
      if faults.atLock || session in store.locked {
        return Err(LockFailed);
      }
      store.locked := store.locked + {session};
      if faults.atGet {
        store.locked := store.locked - {session};
        return Err(StoreFailed);
      }
      if session !in store.records {
        store.locked := store.locked - {session};
        return Err(AlreadyClosed);
      }
      var data := store.records[session];
      if data.main == Some(me) {
        data := data.(main := None);
        if !faults.atPut || faults.applied {
          store.records := store.records[session := data];
        }
        if faults.atPut {
          store.locked := store.locked - {session};
          return Err(StoreFailed);
        }
      }
      store.locked := store.locked - {session};
      return Ok(());
    }

    /**
     * `close` takes no lock and checks no token. A delete is announced only after it, and one that is not announced is
     * an error to the caller.
     */
    method Close(faults: CloseFaults) returns (r: Result<()>)
      modifies store`records, store`announced
      ensures r == if !faults.atDelete && !faults.atNotify then Ok(()) else Err(StoreFailed)
      ensures store.records ==
              if !faults.atDelete || faults.deleted then old(store.records) - {session} else old(store.records)
      ensures store.announced == old(store.announced) +
              if !faults.atDelete && (!faults.atNotify || faults.sent) then [session] else []
      ensures store.announced != old(store.announced) ==> session !in store.records
      ensures store.records != old(store.records) && store.announced == old(store.announced) ==> r == Err(StoreFailed)
    {
      if !faults.atDelete || faults.deleted {
        store.records := store.records - {session};
      }
      if faults.atDelete {
        return Err(StoreFailed);
      }
      if !faults.atNotify || faults.sent {
        store.announced := store.announced + [session];
      }
      if faults.atNotify {
        return Err(StoreFailed);
      }
      return Ok(());
    }
  }

  // ---------------------------------------------------------------------------------------------------------
  // One node's manager.

  class Manager {
    const store: Store
    var sessions: map<SessionId, Session>
    var cancelled: bool

    ghost predicate Valid()
      reads this
    {
      forall s :: s in sessions ==> sessions[s].store == store && sessions[s].session == s
    }

    constructor (store: Store)
      ensures Valid() && this.store == store && sessions == map[] && !cancelled
    {
      this.store, sessions, cancelled := store, map[], false;
    }

    /** `create` with the two ids it draws: after a failed put nothing is published, though the record may be there. */
    method Create(url: Url, session: SessionId, me: SubId, faults: Faults) returns (r: Result<Session>)
      requires Valid()
      modifies this`sessions, store`records
      ensures Valid()
      ensures if faults.atPut then r == Err(StoreFailed) else r.Ok? && fresh(r.value)
      ensures r.Ok? ==> r.value.session == session && r.value.url == url && r.value.me == me
      ensures r.Ok? ==> r.value.cancelled == cancelled && sessions == old(sessions)[session := r.value]
      ensures r.Ok? ==> store.records == old(store.records)[session := Record(session, url, None)]
      ensures r.Err? ==> sessions == old(sessions)
      ensures r.Err? ==>
                store.records == if faults.applied then old(store.records)[session := Record(session, url, None)]
                                 else old(store.records)
    {
      var data := Record(session, url, None);
      var made := new Session(store, data.session, data.url, me, cancelled);
      if !faults.atPut || faults.applied {
        store.records := store.records[data.session := data];
      }
      if faults.atPut {
        return Err(StoreFailed);
      }
      sessions := sessions[made.session := made];
      return Ok(made);
    }

    /** `find`; `spare` is the sub-session id that a new object would get. */
    method Find(session: SessionId, spare: SubId, faults: Faults) returns (r: Result<Option<Session>>)
      requires Valid() && (session in store.records ==> store.records[session].session == session)
      modifies this`sessions
      ensures Valid()
      ensures if faults.atGet then r == Err(StoreFailed) else r.Ok? && (r.value.Some? <==> session in store.records)
      ensures r.Ok? && r.value.Some? ==> IsFound(r.value.value, session, spare, old(sessions))
      ensures r.Ok? && r.value.Some? && session !in old(sessions) ==> fresh(r.value.value)
      ensures r.Ok? && r.value.Some? ==> sessions == old(sessions)[session := r.value.value]
      ensures r.Err? || r.value.None? ==> sessions == old(sessions)
    {
      if faults.atGet {
        return Err(StoreFailed);
      }
      if session !in store.records {
        return Ok(None);
      }
      var data := store.records[session];
      if session in sessions {
        return Ok(Some(sessions[session]));
      }
      if data.session !in sessions {
        var made := new Session(store, data.session, data.url, spare, cancelled);
        sessions := sessions[data.session := made];
      }
      return Ok(Some(sessions[data.session]));
    }

    /** `found` is the known object, or a new one with the record's url. */
    ghost predicate IsFound(found: Session, session: SessionId, spare: SubId, known: map<SessionId, Session>)
      requires session in store.records
      reads this, store, found
    {
      if session in known then found == known[session]
      else found.me == spare && found.url == store.records[session].url && found.cancelled == cancelled
    }

    /** The listener's branch for a delete event. */
    method HandleDelete(session: SessionId)
      requires Valid()
      modifies this`sessions, sessions.Values`cancelled
      ensures Valid() && sessions == old(sessions) - {session}
      ensures forall s :: s in old(sessions) ==>
        old(sessions)[s].cancelled == (s == session || old(sessions[s].cancelled))
    {
      if session in sessions {
        var dropped := sessions[session];
        sessions := sessions - {session};
        dropped.cancelled := true;
      }
    }
  }

  // ---------------------------------------------------------------------------------------------------------
  // The sections as operations of the register, and as runs of the small steps.

  /** A section on the records is one operation of the atomic register, with the reply that its caller acts on. */
  lemma SectionsAreAtomic(records: map<SessionId, Record>, s: SessionId, me: SubId)
    ensures var after := AfterStart(records, s, me);
            var reply := if s in after then Owner(after[s].main.value) else Closed;
            Atomic(RegisterOf(records, s), AtomicStart(me, reply), RegisterOf(after, s))
    ensures Atomic(RegisterOf(records, s), AtomicStop(me, if s in records then Stopped else Closed),
                   RegisterOf(AfterStop(records, s, me), s))
    ensures forall k :: k in records ==>
              && k in AfterStart(records, s, me) && k in AfterStop(records, s, me)
              && AfterStart(records, s, me)[k].url == AfterStop(records, s, me)[k].url == records[k].url
              && (k != s ==> AfterStart(records, s, me)[k] == AfterStop(records, s, me)[k] == records[k])
  {
  }

  /** Starting and stopping with nobody in between leaves the records as they were, unless another object owned them. */
  lemma StopUndoesStart(records: map<SessionId, Record>, s: SessionId, me: SubId)
    ensures AfterStop(AfterStart(records, s, me), s, me) == records <==>
            (s in records ==> records[s].main != Some(me))
  {
  }

  /** `d` is reached from `c` by `e` and then `f`. */
  ghost predicate Reaches(c: Cluster, e: Step, f: Step, d: Cluster) {
    Enabled(c, e) && Enabled(Perform(c, e), f) && d == Perform(Perform(c, e), f)
  }

  lemma ReadInOneGo(c: Cluster, t: TaskId) returns (d: Cluster)
    requires Enabled(c, Acquire(t)) && SessionOf(c, t) in c.kv
    ensures Reaches(c, Acquire(t), Get(t), d)
    ensures d.kv == c.kv && d.replicas == c.replicas && SessionOf(c, t) in d.locks
    ensures d.tasks == c.tasks[t := c.tasks[t].(at := Read(c.kv[SessionOf(c, t)]))]
  {
    var e := Perform(c, Acquire(t));
    assert e.tasks == c.tasks[t := c.tasks[t].(at := Locked)] && e.replicas == c.replicas && e.kv == c.kv;
    d := Perform(e, Get(t));
  }

  lemma WriteInOneGo(c: Cluster, t: TaskId) returns (d: Cluster)
    requires Enabled(c, Put(t))
    ensures Reaches(c, Put(t), Release(t), d)
    ensures d.kv == c.kv[SessionOf(c, t) := PutBack(c.tasks[t])]
    ensures t in d.tasks && d.tasks[t] == c.tasks[t].(at := Released(PutBack(c.tasks[t]).main))
  {
    var e := Perform(c, Put(t));
    assert e.tasks == c.tasks[t := c.tasks[t].(at := Wrote(PutBack(c.tasks[t]).main))] && e.replicas == c.replicas;
    d := Perform(e, Release(t));
  }

  /** The four steps of `start`, taken without interruption, do to the records what its section does. */
  lemma StartIsItsSteps(c: Cluster, t: TaskId) returns (c': Cluster, d: Cluster)
    requires Enabled(c, Acquire(t)) && c.tasks[t].Start? && SessionOf(c, t) in c.kv
    ensures Reaches(c, Acquire(t), Get(t), c') && Reaches(c', Put(t), Release(t), d)
    ensures d.kv == AfterStart(c.kv, SessionOf(c, t), c.tasks[t].me)
    ensures t in d.tasks && d.tasks[t] == Start(c.tasks[t].me, Released(d.kv[SessionOf(c, t)].main))
  {
    c' := ReadInOneGo(c, t);
    d := WriteInOneGo(c', t);
  }

  /** So do the steps of `stop`: it writes when the record names the object, and goes straight to the release if not. */
  lemma StopIsItsSteps(c: Cluster, t: TaskId) returns (c': Cluster, d: Cluster)
    requires Enabled(c, Acquire(t)) && c.tasks[t].Stop? && SessionOf(c, t) in c.kv
    ensures Reaches(c, Acquire(t), Get(t), c')
    ensures if c.kv[SessionOf(c, t)].main == Some(c.tasks[t].me) then Reaches(c', Put(t), Release(t), d)
            else Enabled(c', Release(t)) && d == Perform(c', Release(t))
    ensures d.kv == AfterStop(c.kv, SessionOf(c, t), c.tasks[t].me)
  {
    c' := ReadInOneGo(c, t);
    if c.kv[SessionOf(c, t)].main == Some(c.tasks[t].me) {
      d := WriteInOneGo(c', t);
    } else {
      d := Perform(c', Release(t));
    }
  }

  lemma DeleteInOneGo(c: Cluster, t: TaskId, me: SubId) returns (d: Cluster)
    requires Enabled(c, CloseBegin(t, me))
    ensures Reaches(c, CloseBegin(t, me), CloseDelete(t), d)
    ensures d == c.(kv := c.kv - {c.replicas[me].session}, tasks := c.tasks[t := Close(me, true)])
    ensures t !in c.tasks && Enabled(d, CloseNotify(t))
  {
    var e := c.(tasks := c.tasks[t := Close(me, false)]);
    CloseBegun(c, t, me, e);
    d := Perform(e, CloseDelete(t));
    assert d.tasks == c.tasks[t := Close(me, true)];
  }

  lemma CloseBegun(c: Cluster, t: TaskId, me: SubId, e: Cluster)
    requires Enabled(c, CloseBegin(t, me)) && e == c.(tasks := c.tasks[t := Close(me, false)])
    ensures e == Perform(c, CloseBegin(t, me)) && t !in c.tasks && me in c.replicas
  {
  }

  lemma NotifyEveryone(c: Cluster, t: TaskId) returns (d: Cluster)
    requires Enabled(c, CloseNotify(t))
    ensures d == Perform(c, CloseNotify(t))
    ensures var s := c.replicas[c.tasks[t].me].session;
            && d.kv == c.kv && d.locks == c.locks && d.tasks == c.tasks - {t}
            && forall n, other :: (n, other) in d.pending <==>
                 (n, other) in c.pending || (n in c.nodes && other == s)
  {
    var s := c.replicas[c.tasks[t].me].session;
    d := Perform(c, CloseNotify(t));
    assert d.pending == c.pending + multiset(set n | n in c.nodes :: (n, s));
  }

  /** The steps of `close`, uninterrupted, delete this record, tell every node, and leave no task behind. */
  lemma CloseIsItsSteps(c: Cluster, t: TaskId, me: SubId) returns (c': Cluster, d: Cluster)
    requires Enabled(c, CloseBegin(t, me))
    ensures Reaches(c, CloseBegin(t, me), CloseDelete(t), c')
    ensures Enabled(c', CloseNotify(t)) && d == Perform(c', CloseNotify(t))
    ensures d.kv == c.kv - {c.replicas[me].session} && d.tasks == c.tasks && d.locks == c.locks
    ensures forall n, s :: (n, s) in d.pending <==>
              (n, s) in c.pending || (n in c.nodes && s == c.replicas[me].session)
  {
    c' := DeleteInOneGo(c, t, me);
    d := NotifyEveryone(c', t);
  }
}
