/** Runs of the control plane that show where a naive property fails; each is one concrete schedule. */
module RaftExhibits {
  import opened Prelude
  import opened RaftCluster
  import opened RaftRegister
  import opened RaftFind

  const HOME: NodeId := 0
  const AWAY: NodeId := 1
  const S := SessionId(0)
  const URL := Url(0)
  const A := SubId(0)
  const B := SubId(1)

  function Last(run: Run): Cluster
    requires |run.states| > 0
  {
    run.states[|run.states| - 1]
  }

  /** Carries the run one enabled step further. */
  lemma Then(run: Run, e: Step) returns (longer: Run, c: Cluster)
    requires IsRun(run) && Enabled(Last(run), e)
    ensures IsRun(longer) && c == Last(longer) == Perform(Last(run), e)
    ensures longer.steps == run.steps + [e] && longer.states == run.states + [c]
  {
    c := Perform(Last(run), e);
    longer := Run(run.states + [c], run.steps + [e]);
    forall i | 0 <= i < |longer.steps| ensures Follows(longer, i) {
      if i < |run.steps| { assert Follows(run, i); }
    }
  }

  /** `create` has stored the record of its session. */
  lemma Stored(nodes: set<NodeId>) returns (run: Run, c: Cluster)
    requires HOME in nodes
    ensures IsRun(run) && c == Last(run) && run.steps == [CreateBegin(0, HOME, S, A, URL), CreatePut(0)]
    ensures c == Cluster(nodes, {}, map[S := Record(S, URL, None)], map[], map[A := Replica(S, URL, HOME, false)],
                         map[], map[0 := Create(HOME, S, A, URL, true)], multiset{},
                         map[S := Origin(URL, 0)], map[S := None])
  {
    run := Run([Init(nodes)], []);
    run, c := Then(run, CreateBegin(0, HOME, S, A, URL));
    run, c := Then(run, CreatePut(0));
  }

  /** The session exists, its record is stored, and `create` has published its object `A` on `HOME`. */
  lemma Created(nodes: set<NodeId>) returns (run: Run, c: Cluster)
    requires HOME in nodes
    ensures IsRun(run) && c == Last(run)
    ensures c == Cluster(nodes, {}, map[S := Record(S, URL, None)], map[], map[A := Replica(S, URL, HOME, false)],
                         map[(HOME, S) := A], map[], multiset{}, map[S := Origin(URL, 0)], map[S := None])
  {
    run, c := Stored(nodes);
    run, c := Then(run, CreateInsert(0));
  }

  /** A `close` by number `t`, up to its delete. */
  lemma DeleteAlone(before: Run, t: TaskId, me: SubId) returns (run: Run, c: Cluster)
    requires IsRun(before) && FreshTask(Last(before), t) && me in Last(before).replicas
    ensures IsRun(run) && c == Last(run)
    ensures var b := Last(before);
            c == b.(kv := b.kv - {b.replicas[me].session}, tasks := b.tasks[t := Close(me, true)])
  {
    run, c := Then(before, CloseBegin(t, me));
    run, c := Then(run, CloseDelete(t));
    assert c.tasks == Last(before).tasks[t := Close(me, true)];
  }

  /** A `start` of `A` is between its get and its put. */
  lemma Reading() returns (run: Run, c: Cluster)
    ensures IsRun(run) && c == Last(run)
    ensures c == Cluster({HOME}, {}, map[S := Record(S, URL, None)], map[S := 0],
                         map[A := Replica(S, URL, HOME, false)], map[(HOME, S) := A],
                         map[0 := Start(A, Read(Record(S, URL, None)))], multiset{},
                         map[S := Origin(URL, 0)], map[S := None])
  {
    run, c := Created({HOME});
    run, c := Then(run, StartBegin(0, A));
    run, c := Then(run, Acquire(0));
    run, c := Then(run, Get(0));
  }

  /** A `close` between a `start`'s get and put: the put brings the deleted record back. */
  lemma RecordComesBack() returns (run: Run, i: nat)
    ensures IsRun(run) && i < |run.steps| && Resurrects(run.states[i], run.steps[i], S) && !Refines(run, S, i)
    ensures S !in run.states[i].kv && S in Last(run).kv && Last(run).kv[S].main == Some(A)
  {
    var c;
    run, c := Reading();
    run, c := DeleteAlone(run, 1, A);
    i := |run.steps|;
    run, c := Then(run, Put(0));
    RefinesAt(run, S, i);
  }

  /** A `find` has read the record. */
  lemma FindReading() returns (run: Run, c: Cluster)
    ensures IsRun(run) && c == Last(run)
    ensures c == Cluster({HOME}, {}, map[S := Record(S, URL, None)], map[], map[A := Replica(S, URL, HOME, false)],
                         map[(HOME, S) := A], map[1 := Find(HOME, S, Fetched(Record(S, URL, None)))], multiset{},
                         map[S := Origin(URL, 0)], map[S := None])
  {
    run, c := Created({HOME});
    run, c := Then(run, FindBegin(1, HOME, S));
    run, c := Then(run, FindGet(1));
  }

  /** After that `close` has deleted the record. */
  lemma DeletedDuringFind() returns (run: Run, c: Cluster)
    ensures IsRun(run) && c == Last(run)
    ensures c == Cluster({HOME}, {}, map[], map[], map[A := Replica(S, URL, HOME, false)], map[(HOME, S) := A],
                         map[1 := Find(HOME, S, Fetched(Record(S, URL, None))), 2 := Close(A, true)], multiset{},
                         map[S := Origin(URL, 0)], map[S := None])
  {
    run, c := FindReading();
    run, c := DeleteAlone(run, 2, A);
  }

  /** The delete event is on its way. */
  lemma NotifiedDuringFind() returns (run: Run, c: Cluster)
    ensures IsRun(run) && c == Last(run)
    ensures c == Cluster({HOME}, {}, map[], map[], map[A := Replica(S, URL, HOME, false)], map[(HOME, S) := A],
                         map[1 := Find(HOME, S, Fetched(Record(S, URL, None)))], multiset{(HOME, S)},
                         map[S := Origin(URL, 0)], map[S := None])
  {
    run, c := DeletedDuringFind();
    assert (set n | n in c.nodes :: (n, S)) == {(HOME, S)};
    run, c := Then(run, CloseNotify(2));
  }

  /** The same `find` after the delete event has been handled. */
  lemma ClosedDuringFind() returns (run: Run, c: Cluster)
    ensures IsRun(run) && c == Last(run)
    ensures c == Cluster({HOME}, {}, map[], map[], map[A := Replica(S, URL, HOME, true)], map[],
                         map[1 := Find(HOME, S, Fetched(Record(S, URL, None)))], multiset{},
                         map[S := Origin(URL, 0)], map[S := None])
  {
    run, c := NotifiedDuringFind();
    run, c := Then(run, HandleDelete(HOME, S));
  }

  /**
   * A delete event handled between a `find`'s read of the record and its map insert: the node ends up with an entry
   * for a session that has no record and that no further event will remove.
   */
  lemma StaleEntry() returns (run: Run)
    ensures IsRun(run)
    ensures (HOME, S) in Last(run).maps && Last(run).maps[(HOME, S)] == B && B in Last(run).replicas
    ensures S !in Last(run).kv
    ensures Last(run).pending == multiset{} && Last(run).tasks == map[]
    ensures !Last(run).replicas[B].cancelled
  {
    var c;
    run, c := ClosedDuringFind();
    run, c := Then(run, FindMiss(1));
    run, c := Then(run, FindInsert(1, B));
  }

  /** A `close` that is cut off after its delete: the entry stays, and nobody will ever be told. */
  lemma CloseCutOff() returns (run: Run)
    ensures IsRun(run)
    ensures (HOME, S) in Last(run).maps && Last(run).maps[(HOME, S)] == A
    ensures A in Last(run).replicas && !Last(run).replicas[A].cancelled
    ensures S !in Last(run).kv
    ensures Last(run).pending == multiset{} && Last(run).tasks == map[]
  {
    var c;
    run, c := Created({HOME});
    run, c := DeleteAlone(run, 1, A);
    run, c := Then(run, Abort(1));
  }

  /** `create` has stored its record but not published its object yet, and a `find` has published another one. */
  lemma FoundBeforePublished() returns (run: Run, c: Cluster, i: nat)
    ensures IsRun(run) && c == Last(run)
    ensures run.steps == [CreateBegin(0, HOME, S, A, URL), CreatePut(0), FindBegin(1, HOME, S), FindGet(1),
                          FindMiss(1), FindInsert(1, B)]
    ensures i == |run.steps| - 1 && Returns(run.states[i], run.steps[i]) == Some(((HOME, S), B))
    ensures c == Cluster({HOME}, {}, map[S := Record(S, URL, None)], map[],
                         map[A := Replica(S, URL, HOME, false), B := Replica(S, URL, HOME, false)],
                         map[(HOME, S) := B], map[0 := Create(HOME, S, A, URL, true)], multiset{},
                         map[S := Origin(URL, 0)], map[S := None])
  {
    run, c := Stored({HOME});
    run, c := Then(run, FindBegin(1, HOME, S));
    run, c := Then(run, FindGet(1));
    run, c := Then(run, FindMiss(1));
    i := |run.steps|;
    run, c := Then(run, FindInsert(1, B));
  }

  /** The object that the `find` published has closed the session, and the delete event is on its way. */
  lemma ClosedDuringCreate() returns (run: Run, c: Cluster)
    ensures IsRun(run) && c == Last(run)
    ensures c == Cluster({HOME}, {}, map[], map[],
                         map[A := Replica(S, URL, HOME, false), B := Replica(S, URL, HOME, false)],
                         map[(HOME, S) := B], map[0 := Create(HOME, S, A, URL, true)], multiset{(HOME, S)},
                         map[S := Origin(URL, 0)], map[S := None])
  {
    var i;
    run, c, i := FoundBeforePublished();
    run, c := DeleteAlone(run, 2, B);
    assert (set n | n in c.nodes :: (n, S)) == {(HOME, S)};
    run, c := Then(run, CloseNotify(2));
  }

  /** A delete event handled between the put and the insert of `create`: its object is published without a record. */
  lemma StaleCreate() returns (run: Run)
    ensures IsRun(run)
    ensures (HOME, S) in Last(run).maps && Last(run).maps[(HOME, S)] == A
    ensures A in Last(run).replicas && !Last(run).replicas[A].cancelled
    ensures S !in Last(run).kv
    ensures Last(run).pending == multiset{} && Last(run).tasks == map[]
  {
    var c;
    run, c := ClosedDuringCreate();
    run, c := Then(run, HandleDelete(HOME, S));
    run, c := Then(run, CreateInsert(0));
  }

  /**
   * A `find` that guesses the id before `create` has returned: two finds with no delete in between return different
   * objects, because the insert of `create` replaces the entry.
   */
  lemma FindsDisagree() returns (run: Run, i: nat, j: nat)
    ensures IsRun(run) && i < j < |run.steps|
    ensures forall m :: 0 <= m < |run.steps| ==> !run.steps[m].HandleDelete?
    ensures Returns(run.states[i], run.steps[i]) == Some(((HOME, S), B))
    ensures Returns(run.states[j], run.steps[j]) == Some(((HOME, S), A))
  {
    var c;
    run, c, i := FoundBeforePublished();
    run, c := Then(run, CreateInsert(0));
    run, c := Then(run, FindBegin(1, HOME, S));
    run, c := Then(run, FindGet(1));
    j := |run.steps|;
    run, c := Then(run, FindHit(1));
  }

  /** Two session objects of the session, on two nodes. */
  lemma TwoObjects() returns (run: Run, c: Cluster)
    ensures IsRun(run) && c == Last(run)
    ensures c == Cluster({HOME, AWAY}, {}, map[S := Record(S, URL, None)], map[],
                         map[A := Replica(S, URL, HOME, false), B := Replica(S, URL, AWAY, false)],
                         map[(HOME, S) := A, (AWAY, S) := B], map[], multiset{},
                         map[S := Origin(URL, 0)], map[S := None])
  {
    run, c := Created({HOME, AWAY});
    run, c := Then(run, FindBegin(1, AWAY, S));
    run, c := Then(run, FindGet(1));
    run, c := Then(run, FindMiss(1));
    run, c := Then(run, FindInsert(1, B));
  }

  /** A waiting call gets the free lock and reads the record. */
  lemma EnterAlone(before: Run, t: TaskId) returns (run: Run, c: Cluster)
    requires IsRun(before)
    requires var b := Last(before);
             KnownSection(b, t) && b.tasks[t].at.Waiting? && SessionOf(b, t) == S && S in b.kv && b.locks == map[]
    ensures IsRun(run) && c == Last(run)
    ensures var b := Last(before);
            c == b.(tasks := b.tasks[t := b.tasks[t].(at := Read(b.kv[S]))], locks := map[S := t])
  {
    run, c := Then(before, Acquire(t));
    run, c := Then(run, Get(t));
    var b := Last(before);
    assert c.tasks == b.tasks[t := b.tasks[t].(at := Read(b.kv[S]))];
  }

  /** A call that may put does so and gives the lock back. */
  lemma LeaveAlone(before: Run, t: TaskId) returns (run: Run, c: Cluster)
    requires IsRun(before)
    requires var b := Last(before);
             KnownSection(b, t) && MayPut(b.tasks[t]) && SessionOf(b, t) == S && b.locks == map[S := t]
    ensures IsRun(run) && c == Last(run)
    ensures var b := Last(before);
            var record := PutBack(b.tasks[t]);
            c == b.(tasks := b.tasks[t := b.tasks[t].(at := Released(record.main))], locks := map[],
                    kv := b.kv[S := record], written := b.written[S := record.main])
  {
    run, c := Then(before, Put(t));
    run, c := Then(run, Release(t));
    assert c.locks == map[];
    var b := Last(before);
    assert c.tasks == b.tasks[t := b.tasks[t].(at := Released(PutBack(b.tasks[t]).main))];
  }

  /** The two objects of `TwoObjects` in later states. */
  function Pair(owner: Option<SubId>, tasks: map<TaskId, Task>): Cluster {
    Cluster({HOME, AWAY}, {}, map[S := Record(S, URL, owner)], map[],
            map[A := Replica(S, URL, HOME, false), B := Replica(S, URL, AWAY, false)],
            map[(HOME, S) := A, (AWAY, S) := B], tasks, multiset{}, map[S := Origin(URL, 0)], map[S := owner])
  }

  lemma OneOwner() returns (run: Run, c: Cluster)
    ensures IsRun(run) && c == Last(run) == Pair(Some(A), map[1 := Start(A, Released(Some(A)))])
  {
    run, c := TwoObjects();
    run, c := Then(run, StartBegin(1, A));
    run, c := EnterAlone(run, 1);
    run, c := LeaveAlone(run, 1);
  }

  /** A `stop` of the owner has read the record. */
  lemma OwnerReading() returns (run: Run, c: Cluster)
    ensures IsRun(run)
    ensures c == Last(run) == Pair(Some(A), map[1 := Start(A, Released(Some(A))),
                                                2 := Stop(A, Read(Record(S, URL, Some(A))))]).(locks := map[S := 2])
  {
    run, c := OneOwner();
    run, c := Then(run, StopBegin(2, A));
    run, c := EnterAlone(run, 2);
  }

  lemma OwnerStopping() returns (run: Run, c: Cluster)
    ensures IsRun(run)
    ensures c == Last(run) == Pair(None, map[1 := Start(A, Released(Some(A))), 2 := Stop(A, Released(None))])
  {
    run, c := OwnerReading();
    run, c := LeaveAlone(run, 2);
  }

  /**
   * `stop` gives the claim up before it cancels its own relay, so a second object can become the owner while the
   * first one, which decided that it was the owner too, is still running.
   */
  lemma OwnersOverlap() returns (run: Run)
    ensures IsRun(run)
    ensures Last(run).tasks == map[1 := Start(A, Released(Some(A))), 2 := Stop(A, Released(None)),
                                   3 := Start(B, Released(Some(B)))]
    ensures Alive(Last(run), A) && Alive(Last(run), B)
  {
    var c;
    run, c := OwnerStopping();
    run, c := Then(run, StartBegin(3, B));
    run, c := EnterAlone(run, 3);
    run, c := LeaveAlone(run, 3);
  }
}
