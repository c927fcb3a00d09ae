/**
 * Map entries against records. An entry whose session has lost its record is on its way out: the delete event is
 * pending on its node, or some `close` has still to send it. The steps that break this are spelled out here for entries
 * together with the calls that are about to insert one.
 */
module RaftEntries {
  import opened Prelude
  import opened RaftCluster

  /** Task `t` will insert an entry for session `s` on node `n`, unless it finds one. */
  predicate StillToInsert(c: Cluster, t: TaskId, n: NodeId, s: SessionId) {
    t in c.tasks &&
    match c.tasks[t]
    case Find(node, _, lookup) => node == n && !lookup.Fetching? && lookup.copy.session == s
    case Create(node, session, _, _, stored) => node == n && session == s && stored
    case _ => false
  }

  /** Task `t` is a `close` of session `s` between its delete and its notify. */
  predicate StillToNotify(c: Cluster, t: TaskId, s: SessionId) {
    && t in c.tasks && c.tasks[t].Close? && c.tasks[t].deleted
    && c.tasks[t].me in c.replicas && c.replicas[c.tasks[t].me].session == s
  }

  /** Node `n` has an entry for `s` or is about to get one. */
  ghost predicate Held(c: Cluster, n: NodeId, s: SessionId) {
    (n, s) in c.maps || exists t :: StillToInsert(c, t, n, s)
  }

  ghost predicate Announced(c: Cluster, n: NodeId, s: SessionId) {
    (n, s) in c.pending || exists t :: StillToNotify(c, t, s)
  }

  ghost predicate CoveredAt(c: Cluster, n: NodeId, s: SessionId) {
    Held(c, n, s) && s !in c.kv ==> Announced(c, n, s)
  }

  ghost predicate Covered(c: Cluster) {
    forall n, s :: CoveredAt(c, n, s)
  }

  /** Node `n` hears its last event about `s` while a call there has still to insert, and nobody will send another. */
  ghost predicate HearsTooEarly(c: Cluster, n: NodeId, s: SessionId) {
    && s !in c.kv && c.pending[(n, s)] == 1
    && (forall t :: !StillToNotify(c, t, s)) && exists t :: StillToInsert(c, t, n, s)
  }

  /** The only `close` that would announce the delete is cut off, and some node has neither heard nor let go. */
  ghost predicate CutsClose(c: Cluster, t: TaskId, n: NodeId, s: SessionId) {
    && StillToNotify(c, t, s) && s !in c.kv
    && (forall u :: StillToNotify(c, u, s) ==> u == t) && (n, s) !in c.pending && Held(c, n, s)
  }

  ghost predicate Uncovers(c: Cluster, e: Step) {
    match e
    case HandleDelete(n, s) => HearsTooEarly(c, n, s)
    case HandleUnknown(n, s) => HearsTooEarly(c, n, s)
    case Abort(t) => exists n, s :: CutsClose(c, t, n, s)
    case _ => false
  }

  // ---------------------------------------------------------------------------------------------------------
  // Events go to the nodes of the cluster, and nobody else has entries.

  predicate OnNode(c: Cluster, task: Task) {
    task.Find? || task.Create? ==> task.node in c.nodes
  }

  ghost predicate NodesKnown(c: Cluster) {
    (forall k :: k in c.maps ==> k.0 in c.nodes) && forall t :: t in c.tasks ==> OnNode(c, c.tasks[t])
  }

  lemma NodesStay(c: Cluster, e: Step)
    requires Enabled(c, e)
    ensures Perform(c, e).nodes == c.nodes
  {
    if IsLookup(e) {
      LookupFrame(c, e);
    } else if IsSectionStep(e) {
      SectionFrame(c, e);
    } else if IsEvent(e) {
      EventFrame(c, e);
    } else {
      OtherFrame(c, e);
    }
  }

  lemma OwnTaskOnNode(c: Cluster, e: Step)
    requires NodesKnown(c) && Enabled(c, e) && !IsEvent(e) && e.task in Perform(c, e).tasks
    ensures OnNode(c, Perform(c, e).tasks[e.task])
  {
    if IsSectionStep(e) {
      SectionFrame(c, e);
    } else if IsLookup(e) {
      assert e.task in c.tasks ==> OnNode(c, c.tasks[e.task]);
    }
  }

  lemma NodesKnownStep(c: Cluster, e: Step)
    requires NodesKnown(c) && Enabled(c, e)
    ensures NodesKnown(Perform(c, e))
  {
    var d := Perform(c, e);
    NodesStay(c, e);
    forall t | t in d.tasks ensures OnNode(d, d.tasks[t]) {
      if IsEvent(e) || e.task != t {
        OtherTaskStays(c, e, t);
      } else {
        OwnTaskOnNode(c, e);
      }
    }
    EntriesOnNodes(c, e);
  }

  lemma EntriesOnNodes(c: Cluster, e: Step)
    requires NodesKnown(c) && Enabled(c, e)
    ensures forall k :: k in Perform(c, e).maps ==> k.0 in c.nodes
  {
    if IsSectionStep(e) {
      SectionFrame(c, e);
    } else if e.FindInsert? || e.CreateInsert? {
      assert OnNode(c, c.tasks[e.task]);
    }
  }

  // ---------------------------------------------------------------------------------------------------------
  // One step.

  lemma PendingStays(c: Cluster, e: Step)
    requires Enabled(c, e) && !e.CloseNotify? && !e.HandleDelete? && !e.HandleUnknown?
    ensures Perform(c, e).pending == c.pending
  {
  }

  /** A call that has still to insert had so before, unless the record is there. */
  lemma InsertStep(c: Cluster, e: Step, t: TaskId, n: NodeId, s: SessionId)
    requires Inv(c) && Enabled(c, e) && StillToInsert(Perform(c, e), t, n, s) && s !in Perform(c, e).kv
    ensures StillToInsert(c, t, n, s)
  {
    if IsEvent(e) || e.task != t {
      OtherTaskStays(c, e, t);
    } else if IsLookup(e) {
      assert t in c.tasks ==> TaskOk(c, t, c.tasks[t]);
    } else if IsSectionStep(e) {
      SectionFrame(c, e);
    }
  }

  /** An entry that is new was still to be inserted. */
  lemma EntryStep(c: Cluster, e: Step, n: NodeId, s: SessionId)
    requires Inv(c) && Enabled(c, e) && (n, s) !in c.maps
    ensures (n, s) in Perform(c, e).maps ==> !IsEvent(e) && StillToInsert(c, e.task, n, s)
  {
    if IsSectionStep(e) {
      SectionFrame(c, e);
    }
  }

  lemma HeldStep(c: Cluster, e: Step, n: NodeId, s: SessionId)
    requires Inv(c) && Enabled(c, e) && Held(Perform(c, e), n, s) && s !in Perform(c, e).kv
    ensures Held(c, n, s)
  {
    var d := Perform(c, e);
    if (n, s) in d.maps {
      if (n, s) !in c.maps {
        EntryStep(c, e, n, s);
      }
    } else {
      var t :| StillToInsert(d, t, n, s);
      InsertStep(c, e, t, n, s);
    }
  }

  /** A record goes only by the delete of a `close`, which then has to notify. */
  lemma RecordStep(c: Cluster, e: Step, s: SessionId)
    requires Enabled(c, e) && s in c.kv && s !in Perform(c, e).kv
    ensures e.CloseDelete? && StillToNotify(Perform(c, e), e.task, s)
  {
    if !e.Put? && !e.CreatePut? && !e.CloseDelete? {
      OtherStepsWriteNothing(c, e);
    }
  }

  lemma NotifyStep(c: Cluster, e: Step, t: TaskId, s: SessionId)
    requires Inv(c) && Enabled(c, e) && StillToNotify(c, t, s)
    ensures StillToNotify(Perform(c, e), t, s) || e == CloseNotify(t) || e == Abort(t)
  {
    ReplicaStep(c, e, c.tasks[t].me);
    if IsEvent(e) || e.task != t {
      OtherTaskStays(c, e, t);
    }
  }

  lemma NotifiedReaches(c: Cluster, t: TaskId, n: NodeId, s: SessionId)
    requires Enabled(c, CloseNotify(t)) && StillToNotify(c, t, s) && n in c.nodes
    ensures (n, s) in Perform(c, CloseNotify(t)).pending
  {
    assert (n, s) in (set m | m in c.nodes :: (m, s));
  }

  lemma HeldOnNode(c: Cluster, n: NodeId, s: SessionId)
    requires NodesKnown(c) && Held(c, n, s)
    ensures n in c.nodes
  {
    if (n, s) !in c.maps {
      var t :| StillToInsert(c, t, n, s);
      assert OnNode(c, c.tasks[t]);
    }
  }

  /** While a `close` has still to notify, only its own end matters. */
  lemma NotifierKeeps(c: Cluster, e: Step, t: TaskId, n: NodeId, s: SessionId)
    requires Inv(c) && NodesKnown(c) && Enabled(c, e) && StillToNotify(c, t, s) && s !in c.kv && Held(c, n, s)
    requires !Uncovers(c, e)
    ensures Announced(Perform(c, e), n, s)
  {
    NotifyStep(c, e, t, s);
    HeldOnNode(c, n, s);
    if e == CloseNotify(t) {
      NotifiedReaches(c, t, n, s);
    } else if e == Abort(t) {
      assert !CutsClose(c, t, n, s);
      if (n, s) in c.pending {
        PendingStays(c, e);
      } else {
        var u :| StillToNotify(c, u, s) && u != t;
        NotifyStep(c, e, u, s);
      }
    }
  }

  /** An event that is heard in time leaves another one behind, if the node still has something to let go. */
  lemma HearingKeeps(c: Cluster, e: Step, n: NodeId, s: SessionId)
    requires Enabled(c, e) && (e == HandleDelete(n, s) || e == HandleUnknown(n, s)) && Held(Perform(c, e), n, s)
    requires s !in c.kv && (forall t :: !StillToNotify(c, t, s)) && !HearsTooEarly(c, n, s)
    ensures (n, s) in Perform(c, e).pending
  {
    var d := Perform(c, e);
    EventFrame(c, e);
    assert (n, s) !in d.maps;
    var t :| StillToInsert(d, t, n, s);
    assert StillToInsert(c, t, n, s);
  }

  lemma PendingKeeps(c: Cluster, e: Step, n: NodeId, s: SessionId)
    requires Inv(c) && Enabled(c, e) && (n, s) in c.pending && s !in c.kv && !Uncovers(c, e)
    requires forall t :: !StillToNotify(c, t, s)
    requires Held(Perform(c, e), n, s)
    ensures Announced(Perform(c, e), n, s)
  {
    if e == HandleDelete(n, s) || e == HandleUnknown(n, s) {
      HearingKeeps(c, e, n, s);
    } else if !e.CloseNotify? && !e.HandleDelete? && !e.HandleUnknown? {
      PendingStays(c, e);
    }
  }

  lemma CoveredAtStep(c: Cluster, e: Step, n: NodeId, s: SessionId)
    requires Inv(c) && NodesKnown(c) && CoveredAt(c, n, s) && Enabled(c, e) && !Uncovers(c, e)
    ensures CoveredAt(Perform(c, e), n, s)
  {
    var d := Perform(c, e);
    if Held(d, n, s) && s !in d.kv {
      HeldStep(c, e, n, s);
      if s in c.kv {
        RecordStep(c, e, s);
      } else if t :| StillToNotify(c, t, s) {
        NotifierKeeps(c, e, t, n, s);
      } else {
        PendingKeeps(c, e, n, s);
      }
    }
  }

  lemma HearingUncovers(c: Cluster, e: Step, n: NodeId, s: SessionId)
    requires Enabled(c, e) && (e == HandleDelete(n, s) || e == HandleUnknown(n, s)) && HearsTooEarly(c, n, s)
    ensures !CoveredAt(Perform(c, e), n, s)
  {
    var d := Perform(c, e);
    EventFrame(c, e);
    var t :| StillToInsert(c, t, n, s);
    assert StillToInsert(d, t, n, s) && (n, s) !in d.pending;
    forall u ensures !StillToNotify(d, u, s) {
      assert !StillToNotify(c, u, s);
      if u in c.tasks && c.tasks[u].Close? && c.tasks[u].me in c.replicas {
        ReplicaStep(c, e, c.tasks[u].me);
      }
    }
  }

  lemma CuttingUncovers(c: Cluster, t: TaskId, n: NodeId, s: SessionId)
    requires Enabled(c, Abort(t)) && CutsClose(c, t, n, s)
    ensures !CoveredAt(Perform(c, Abort(t)), n, s)
  {
    var d := Perform(c, Abort(t));
    if (n, s) !in c.maps {
      var u :| StillToInsert(c, u, n, s);
      assert StillToInsert(d, u, n, s);
    }
    forall u ensures !StillToNotify(d, u, s) {
      assert StillToNotify(d, u, s) ==> StillToNotify(c, u, s);
    }
  }

  /** A step uncovers an entry, or a call about to insert one, exactly when its guard says so. */
  lemma CoveredStep(c: Cluster, e: Step)
    requires Inv(c) && NodesKnown(c) && Covered(c) && Enabled(c, e)
    ensures Covered(Perform(c, e)) <==> !Uncovers(c, e)
  {
    if !Uncovers(c, e) {
      forall n, s ensures CoveredAt(Perform(c, e), n, s) {
        CoveredAtStep(c, e, n, s);
      }
    } else if e.Abort? {
      var n, s :| CutsClose(c, e.task, n, s);
      CuttingUncovers(c, e.task, n, s);
    } else {
      HearingUncovers(c, e, e.node, e.session);
    }
  }

  // ---------------------------------------------------------------------------------------------------------
  // Runs.

  lemma {:induction false} NodesKnownAlways(run: Run, i: nat)
    requires IsRun(run) && i < |run.states|
    ensures NodesKnown(run.states[i])
  {
    if i > 0 {
      NodesKnownAlways(run, i - 1);
      assert Follows(run, i - 1);
      NodesKnownStep(run.states[i - 1], run.steps[i - 1]);
    }
  }

  lemma CoveredAfter(run: Run, i: nat)
    requires IsRun(run) && i < |run.steps| && Covered(run.states[i])
    ensures Covered(run.states[i + 1]) <==> !Uncovers(run.states[i], run.steps[i])
  {
    InvAlways(run, i);
    NodesKnownAlways(run, i);
    assert Follows(run, i);
    CoveredStep(run.states[i], run.steps[i]);
  }

  lemma CoveredInitially(nodes: set<NodeId>)
    ensures Covered(Init(nodes))
  {
  }

  lemma {:induction false} CoveredUntil(run: Run, i: nat)
    requires IsRun(run) && i < |run.states|
    requires forall m :: 0 <= m < i ==> !Uncovers(run.states[m], run.steps[m])
    ensures Covered(run.states[i])
  {
    if i == 0 {
      CoveredInitially(run.states[0].nodes);
    } else {
      CoveredUntil(run, i - 1);
      CoveredAfter(run, i - 1);
    }
  }

  /**
   * In every state of a run, each entry without a record and each call about to insert one is announced, exactly when
   * no step uncovers one.
   */
  lemma EntriesAreCoveredExactly(run: Run)
    requires IsRun(run)
    ensures (forall i :: 0 <= i < |run.states| ==> Covered(run.states[i])) <==>
            (forall i :: 0 <= i < |run.steps| ==> !Uncovers(run.states[i], run.steps[i]))
  {
    if forall i :: 0 <= i < |run.states| ==> Covered(run.states[i]) {
      forall i | 0 <= i < |run.steps| ensures !Uncovers(run.states[i], run.steps[i]) {
        CoveredAfter(run, i);
      }
    } else if forall i :: 0 <= i < |run.steps| ==> !Uncovers(run.states[i], run.steps[i]) {
      forall i | 0 <= i < |run.states| ensures Covered(run.states[i]) {
        CoveredUntil(run, i);
      }
    }
  }

  /** A delete event is handled on a node where a call has still to insert. */
  ghost predicate IsEarlyDelete(c: Cluster, e: Step) {
    (e.HandleDelete? || e.HandleUnknown?) && exists t :: StillToInsert(c, t, e.node, e.session)
  }

  /** A `close` is cut off between its delete and its notify. */
  predicate IsCutClose(c: Cluster, e: Step) {
    e.Abort? && e.task in c.tasks && c.tasks[e.task].Close? && c.tasks[e.task].deleted
  }

  /**
   * As long as no delete event is handled on a node where a call has still to insert, and no `close` is cut off before
   * its notify: an entry without a record has its delete event pending, or a `close` that will send it.
   */
  lemma EntriesGoWithRecords(run: Run, i: nat, n: NodeId, s: SessionId)
    requires IsRun(run) && i < |run.states|
    requires forall m :: 0 <= m < i ==> !IsEarlyDelete(run.states[m], run.steps[m])
    requires forall m :: 0 <= m < i ==> !IsCutClose(run.states[m], run.steps[m])
    requires (n, s) in run.states[i].maps && s !in run.states[i].kv
    ensures (n, s) in run.states[i].pending || exists t :: StillToNotify(run.states[i], t, s)
  {
    CoveredUntil(run, i);
    assert CoveredAt(run.states[i], n, s);
  }
}
