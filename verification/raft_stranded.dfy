/** Map entries that outlive their record unannounced: exactly which steps leave one behind. */
module RaftStranded {
  import opened Prelude
  import opened RaftCluster
  import opened RaftEntries

  ghost predicate AnnouncedAt(c: Cluster, n: NodeId, s: SessionId) {
    (n, s) in c.maps && s !in c.kv ==> Announced(c, n, s)
  }

  /** Every entry without a record is on its way out. */
  ghost predicate EntriesAnnounced(c: Cluster) {
    forall n, s :: AnnouncedAt(c, n, s)
  }

  /** Step `e` is the insert of a `find` or `create` for session `s` on node `n`. */
  predicate InsertsAt(c: Cluster, e: Step, n: NodeId, s: SessionId) {
    match e
    case FindInsert(t, _) => Finding(c, t) && c.tasks[t].lookup.Missed? && Slot(c.tasks[t]) == (n, s)
    case CreateInsert(t) => t in c.tasks && c.tasks[t].Create? && (c.tasks[t].node, c.tasks[t].session) == (n, s)
    case _ => false
  }

  /** The insert comes too late: the record is gone, and the node has heard of it or never will. */
  ghost predicate InsertsTooLate(c: Cluster, e: Step, n: NodeId, s: SessionId) {
    InsertsAt(c, e, n, s) && s !in c.kv && !Announced(c, n, s)
  }

  /** The only `close` that would announce the delete is cut off, and some node has an entry and no event pending. */
  ghost predicate CutsEntry(c: Cluster, t: TaskId, n: NodeId, s: SessionId) {
    CutsClose(c, t, n, s) && (n, s) in c.maps
  }

  ghost predicate Strands(c: Cluster, e: Step) {
    || (exists n, s :: InsertsTooLate(c, e, n, s))
    || (e.Abort? && exists n, s :: CutsEntry(c, e.task, n, s))
  }

  /** An insert ends its own call and starts no `close`. */
  lemma InsertKeepsNotifier(c: Cluster, e: Step, t: TaskId, n: NodeId, s: SessionId)
    requires Inv(c) && Enabled(c, e) && InsertsAt(c, e, n, s)
    ensures StillToNotify(Perform(c, e), t, s) ==> StillToNotify(c, t, s)
  {
    if e.task != t {
      OtherTaskStays(c, e, t);
      if t in c.tasks && c.tasks[t].Close? {
        assert TaskOk(c, t, c.tasks[t]);
        ReplicaStep(c, e, c.tasks[t].me);
      }
    }
  }

  lemma NotifierStays(c: Cluster, e: Step, t: TaskId, n: NodeId, s: SessionId)
    requires Inv(c) && Enabled(c, e) && StillToNotify(c, t, s) && n in c.nodes && e != Abort(t)
    ensures Announced(Perform(c, e), n, s)
  {
    NotifyStep(c, e, t, s);
    if e == CloseNotify(t) {
      NotifiedReaches(c, t, n, s);
    }
  }

  /** A pending event stays until it is heard, and then the entry is gone. */
  lemma PendingEntryStays(c: Cluster, e: Step, n: NodeId, s: SessionId)
    requires Enabled(c, e) && (n, s) in c.pending && (n, s) in c.maps && (n, s) in Perform(c, e).maps
    ensures (n, s) in Perform(c, e).pending
  {
    if !e.CloseNotify? && !e.HandleDelete? && !e.HandleUnknown? {
      PendingStays(c, e);
    }
  }

  lemma AnotherAnnounces(c: Cluster, t: TaskId, n: NodeId, s: SessionId)
    requires Inv(c) && Enabled(c, Abort(t)) && s !in c.kv && (n, s) in c.maps
    requires StillToNotify(c, t, s) && !CutsEntry(c, t, n, s)
    ensures Announced(Perform(c, Abort(t)), n, s)
  {
    if (n, s) in c.pending {
      PendingStays(c, Abort(t));
    } else {
      var u :| StillToNotify(c, u, s) && u != t;
      NotifyStep(c, Abort(t), u, s);
    }
  }

  /** An entry without a record stays announced, unless the last `close` that would do it is cut off. */
  lemma EntryStaysAnnounced(c: Cluster, e: Step, n: NodeId, s: SessionId)
    requires Inv(c) && NodesKnown(c) && Enabled(c, e) && s !in c.kv && Announced(c, n, s)
    requires (n, s) in c.maps && (n, s) in Perform(c, e).maps && !Strands(c, e)
    ensures Announced(Perform(c, e), n, s)
  {
    if t :| StillToNotify(c, t, s) {
      if e == Abort(t) {
        assert !CutsEntry(c, t, n, s);
        AnotherAnnounces(c, t, n, s);
      } else {
        NotifierStays(c, e, t, n, s);
      }
    } else {
      PendingEntryStays(c, e, n, s);
    }
  }

  lemma EventsInsertNothing(c: Cluster, e: Step, n: NodeId, s: SessionId)
    requires Enabled(c, e) && (n, s) !in c.maps && (IsEvent(e) || IsSectionStep(e))
    ensures (n, s) !in Perform(c, e).maps
  {
    if IsSectionStep(e) {
      SectionFrame(c, e);
    }
  }

  lemma NewEntryIsInserted(c: Cluster, e: Step, n: NodeId, s: SessionId)
    requires Enabled(c, e) && (n, s) !in c.maps
    ensures (n, s) in Perform(c, e).maps ==> InsertsAt(c, e, n, s)
  {
    if IsEvent(e) || IsSectionStep(e) {
      EventsInsertNothing(c, e, n, s);
    }
  }

  /** An insert in time: its announcement outlives it. */
  lemma InsertedInTime(c: Cluster, e: Step, n: NodeId, s: SessionId)
    requires Inv(c) && Enabled(c, e) && InsertsAt(c, e, n, s) && Announced(c, n, s)
    ensures Announced(Perform(c, e), n, s)
  {
    PendingStays(c, e);
    if t :| StillToNotify(c, t, s) {
      NotifyStep(c, e, t, s);
    }
  }

  lemma AnnouncedAtStep(c: Cluster, e: Step, n: NodeId, s: SessionId)
    requires Inv(c) && NodesKnown(c) && AnnouncedAt(c, n, s) && Enabled(c, e) && !Strands(c, e)
    ensures AnnouncedAt(Perform(c, e), n, s)
  {
    var d := Perform(c, e);
    if (n, s) in d.maps && s !in d.kv {
      if s in c.kv {
        RecordStep(c, e, s);
      } else if (n, s) in c.maps {
        EntryStaysAnnounced(c, e, n, s);
      } else {
        NewEntryIsInserted(c, e, n, s);
        assert !InsertsTooLate(c, e, n, s);
        InsertedInTime(c, e, n, s);
      }
    }
  }

  lemma LateInsertStrands(c: Cluster, e: Step, n: NodeId, s: SessionId)
    requires Inv(c) && Enabled(c, e) && InsertsTooLate(c, e, n, s)
    ensures !AnnouncedAt(Perform(c, e), n, s)
  {
    var d := Perform(c, e);
    PendingStays(c, e);
    OtherStepsWriteNothing(c, e);
    forall t ensures !StillToNotify(d, t, s) {
      assert !StillToNotify(c, t, s);
      InsertKeepsNotifier(c, e, t, n, s);
    }
  }

  /** A step strands an entry exactly when it inserts one too late or cuts off the last `close` that would tell. */
  lemma AnnouncedStep(c: Cluster, e: Step)
    requires Inv(c) && NodesKnown(c) && EntriesAnnounced(c) && Enabled(c, e)
    ensures EntriesAnnounced(Perform(c, e)) <==> !Strands(c, e)
  {
    if !Strands(c, e) {
      forall n, s ensures AnnouncedAt(Perform(c, e), n, s) {
        assert AnnouncedAt(c, n, s);
        AnnouncedAtStep(c, e, n, s);
      }
    } else if n, s :| InsertsTooLate(c, e, n, s) {
      LateInsertStrands(c, e, n, s);
    } else {
      var n, s :| CutsEntry(c, e.task, n, s);
      CuttingUncovers(c, e.task, n, s);
      assert !AnnouncedAt(Perform(c, e), n, s);
    }
  }

  lemma AnnouncedAfter(run: Run, i: nat)
    requires IsRun(run) && i < |run.steps| && EntriesAnnounced(run.states[i])
    ensures EntriesAnnounced(run.states[i + 1]) <==> !Strands(run.states[i], run.steps[i])
  {
    InvAlways(run, i);
    NodesKnownAlways(run, i);
    assert Follows(run, i);
    AnnouncedStep(run.states[i], run.steps[i]);
  }

  lemma AnnouncedInitially(nodes: set<NodeId>)
    ensures EntriesAnnounced(Init(nodes))
  {
  }

  lemma {:induction false} AnnouncedUntil(run: Run, i: nat)
    requires IsRun(run) && i < |run.states|
    requires forall m :: 0 <= m < i ==> !Strands(run.states[m], run.steps[m])
    ensures EntriesAnnounced(run.states[i])
  {
    if i == 0 {
      AnnouncedInitially(run.states[0].nodes);
    } else {
      AnnouncedUntil(run, i - 1);
      AnnouncedAfter(run, i - 1);
    }
  }

  /** In every state of a run each entry without a record is announced, exactly when no step strands one. */
  lemma EntriesAreAnnouncedExactly(run: Run)
    requires IsRun(run)
    ensures (forall i :: 0 <= i < |run.states| ==> EntriesAnnounced(run.states[i])) <==>
            (forall i :: 0 <= i < |run.steps| ==> !Strands(run.states[i], run.steps[i]))
  {
    if forall i :: 0 <= i < |run.states| ==> EntriesAnnounced(run.states[i]) {
      forall i | 0 <= i < |run.steps| ensures !Strands(run.states[i], run.steps[i]) {
        AnnouncedAfter(run, i);
      }
    } else if forall i :: 0 <= i < |run.steps| ==> !Strands(run.states[i], run.steps[i]) {
      forall i | 0 <= i < |run.states| ensures EntriesAnnounced(run.states[i]) {
        AnnouncedUntil(run, i);
      }
    }
  }
}
