/** `find` as an atomic get-or-create on one node's session map, despite the gap between its two locks. */
module RaftFind {
  import opened Prelude
  import opened RaftCluster

  type Key = (NodeId, SessionId)

  /** The key and the session object with which step `e` makes a `find` return successfully. */
  function Returns(c: Cluster, e: Step): Option<(Key, SubId)> {
    match e
    case FindHit(t) =>
      if Finding(c, t) && (c.tasks[t].node, c.tasks[t].session) in c.maps
      then Some(((c.tasks[t].node, c.tasks[t].session), c.maps[(c.tasks[t].node, c.tasks[t].session)])) else None
    case FindAdopt(t) =>
      if Finding(c, t) && c.tasks[t].lookup.Missed? && Slot(c.tasks[t]) in c.maps
      then Some((Slot(c.tasks[t]), c.maps[Slot(c.tasks[t])])) else None
    case FindInsert(t, spare) =>
      if Finding(c, t) && c.tasks[t].lookup.Missed? then Some((Slot(c.tasks[t]), spare)) else None
    case _ => None
  }

  function Entry(c: Cluster, k: Key): Option<SubId> {
    if k in c.maps then Some(c.maps[k]) else None
  }

  /** The last step of a `find` is an atomic get-or-create for the id it was asked for, with the record's url. */
  lemma FindIsGetOrCreate(c: Cluster, e: Step)
    requires Inv(c) && Enabled(c, e) && Returns(c, e).Some?
    ensures var (k, found) := Returns(c, e).value;
            var d := Perform(c, e);
            && k == (c.tasks[e.task].node, c.tasks[e.task].session)
            && Entry(d, k) == Some(found)
            && (forall other :: other != k ==> Entry(d, other) == Entry(c, other))
            && match Entry(c, k) {
                 case Some(known) => found == known && d.replicas == c.replicas
                 case None => found !in c.replicas && d.replicas.Keys == c.replicas.Keys + {found}
               }
            && d.replicas[found].session == k.1 && d.replicas[found].node == k.0
            && k.1 in d.created && d.replicas[found].url == d.created[k.1].url
  {
    assert TaskOk(c, e.task, c.tasks[e.task]);
  }

  /** The only steps that replace or drop the entry at `k`. */
  predicate Disturbs(c: Cluster, e: Step, k: Key) {
    || e == HandleDelete(k.0, k.1)
    || Publishes(c, e, k)
  }

  /** Step `e` is the insert with which `create` publishes its own object at `k`. */
  predicate Publishes(c: Cluster, e: Step, k: Key) {
    && e.CreateInsert? && e.task in c.tasks && c.tasks[e.task].Create?
    && (c.tasks[e.task].node, c.tasks[e.task].session) == k
  }

  lemma EntryStep(c: Cluster, e: Step, k: Key)
    requires Enabled(c, e) && k in c.maps && !Disturbs(c, e, k)
    ensures k in Perform(c, e).maps && Perform(c, e).maps[k] == c.maps[k]
  {
    if IsLookup(e) {
      LookupExtends(c, e);
    } else if IsSectionStep(e) {
      SectionFrame(c, e);
    }
  }

  ghost predicate Undisturbed(run: Run, i: nat, j: nat, k: Key)
    requires IsRun(run) && j < |run.states|
  {
    forall m :: i <= m < j ==> !Disturbs(run.states[m], run.steps[m], k)
  }

  lemma EntryAt(run: Run, i: nat, k: Key)
    requires IsRun(run) && i < |run.steps| && k in run.states[i].maps
    requires !Disturbs(run.states[i], run.steps[i], k)
    ensures k in run.states[i + 1].maps && run.states[i + 1].maps[k] == run.states[i].maps[k]
  {
    assert Follows(run, i);
    EntryStep(run.states[i], run.steps[i], k);
  }

  lemma {:induction false} EntryStays(run: Run, i: nat, j: nat, k: Key)
    requires IsRun(run) && i <= j < |run.states| && k in run.states[i].maps && Undisturbed(run, i, j, k)
    ensures k in run.states[j].maps && run.states[j].maps[k] == run.states[i].maps[k]
  {
    if i < j {
      EntryStays(run, i, j - 1, k);
      EntryAt(run, j - 1, k);
    }
  }

  lemma ReturnAt(run: Run, i: nat)
    requires IsRun(run) && i < |run.steps| && Returns(run.states[i], run.steps[i]).Some?
    ensures var (k, found) := Returns(run.states[i], run.steps[i]).value;
            Entry(run.states[i + 1], k) == Some(found) && Entry(run.states[i], k) in {None, Some(found)}
  {
    assert Follows(run, i);
    InvAlways(run, i);
    FindIsGetOrCreate(run.states[i], run.steps[i]);
  }

  // ---------------------------------------------------------------------------------------------------------
  // An object enters a map once.

  /** What creating task `t` is after a step, unless the step began it. */
  lemma CreatorStep(c: Cluster, e: Step, t: TaskId)
    requires Enabled(c, e) && t in Perform(c, e).tasks && Perform(c, e).tasks[t].Create?
    ensures var task := Perform(c, e).tasks[t];
            || (e.CreateBegin? && e.task == t && task.me == e.me)
            || (t in c.tasks && c.tasks[t].Create? && c.tasks[t].session == task.session && c.tasks[t].me == task.me)
  {
    if IsEvent(e) || e.task != t {
      OtherTaskStays(c, e, t);
    } else if IsLookup(e) {
      LookupFrame(c, e);
    } else if IsSectionStep(e) {
      SectionFrame(c, e);
    }
  }

  /** An entry is new only by the insert of a `find`, with its fresh object, or of a `create`, with its own. */
  lemma NewEntry(c: Cluster, e: Step, k: Key)
    requires Enabled(c, e) && k in Perform(c, e).maps && Entry(Perform(c, e), k) != Entry(c, k)
    ensures || (e.FindInsert? && Perform(c, e).maps[k] == e.spare)
            || (e.CreateInsert? && Perform(c, e).maps[k] == c.tasks[e.task].me)
  {
    if IsSectionStep(e) {
      SectionFrame(c, e);
    }
  }

  predicate IsCreator(c: Cluster, t: TaskId, r: SubId) {
    t in c.tasks && c.tasks[t].Create? && c.tasks[t].me == r
  }

  /** The object of a pending `create` is in no map and belongs to that call alone. */
  ghost predicate Apart(c: Cluster) {
    forall t, r :: IsCreator(c, t, r) ==>
      (forall k :: k in c.maps ==> c.maps[k] != r) && forall u :: IsCreator(c, u, r) ==> u == t
  }

  lemma OneCreator(c: Cluster, e: Step, t: TaskId, u: TaskId, r: SubId)
    requires Inv(c) && Apart(c) && Enabled(c, e)
    requires IsCreator(Perform(c, e), t, r) && IsCreator(Perform(c, e), u, r)
    ensures t == u
  {
    CreatorStep(c, e, t);
    CreatorStep(c, e, u);
    if IsCreator(c, t, r) {
      assert TaskOk(c, t, c.tasks[t]);
    }
    if IsCreator(c, u, r) {
      assert TaskOk(c, u, c.tasks[u]);
    }
  }

  lemma CreatorIsUnmapped(c: Cluster, e: Step, t: TaskId, r: SubId, k: Key)
    requires Inv(c) && Apart(c) && Enabled(c, e) && IsCreator(Perform(c, e), t, r) && k in Perform(c, e).maps
    ensures Perform(c, e).maps[k] != r
  {
    CreatorStep(c, e, t);
    if IsCreator(c, t, r) {
      assert TaskOk(c, t, c.tasks[t]);
    }
    if Entry(Perform(c, e), k) != Entry(c, k) {
      NewEntry(c, e, k);
    }
  }

  lemma ApartStep(c: Cluster, e: Step)
    requires Inv(c) && Apart(c) && Enabled(c, e)
    ensures Apart(Perform(c, e))
  {
    var d := Perform(c, e);
    forall t, r | IsCreator(d, t, r)
      ensures (forall k :: k in d.maps ==> d.maps[k] != r) && forall u :: IsCreator(d, u, r) ==> u == t
    {
      forall k | k in d.maps ensures d.maps[k] != r {
        CreatorIsUnmapped(c, e, t, r, k);
      }
      forall u | IsCreator(d, u, r) ensures u == t {
        OneCreator(c, e, t, u, r);
      }
    }
  }

  lemma ApartAfter(run: Run, i: nat)
    requires IsRun(run) && i < |run.steps| && Apart(run.states[i])
    ensures Apart(run.states[i + 1])
  {
    InvAlways(run, i);
    assert Follows(run, i);
    ApartStep(run.states[i], run.steps[i]);
  }

  lemma {:induction false} ApartAlways(run: Run, i: nat)
    requires IsRun(run) && i < |run.states|
    ensures Apart(run.states[i])
  {
    if i > 0 {
      ApartAlways(run, i - 1);
      ApartAfter(run, i - 1);
    }
  }

  /** `r` exists, no `create` is about to publish it, and it is not the entry at `k`. */
  ghost predicate AwayFrom(c: Cluster, k: Key, r: SubId) {
    r in c.replicas && (forall t :: !IsCreator(c, t, r)) && Entry(c, k) != Some(r)
  }

  lemma AwayStep(c: Cluster, e: Step, k: Key, r: SubId)
    requires Enabled(c, e) && AwayFrom(c, k, r)
    ensures AwayFrom(Perform(c, e), k, r)
  {
    var d := Perform(c, e);
    ReplicaStep(c, e, r);
    forall t ensures !IsCreator(d, t, r) {
      assert !IsCreator(c, t, r);
      if IsCreator(d, t, r) {
        CreatorStep(c, e, t);
      }
    }
    assert e.CreateInsert? ==> !IsCreator(c, e.task, r);
    if Entry(d, k) == Some(r) {
      NewEntry(c, e, k);
    }
  }

  lemma {:induction false} StaysAway(run: Run, i: nat, j: nat, k: Key, r: SubId)
    requires IsRun(run) && i <= j < |run.states| && AwayFrom(run.states[i], k, r)
    ensures AwayFrom(run.states[j], k, r)
  {
    if i < j {
      StaysAway(run, i, j - 1, k, r);
      assert Follows(run, j - 1);
      AwayStep(run.states[j - 1], run.steps[j - 1], k, r);
    }
  }

  /** A step that replaces or drops the entry sends its object away. */
  lemma DisturbedGoesAway(c: Cluster, e: Step, k: Key)
    requires Inv(c) && Apart(c) && Enabled(c, e) && Disturbs(c, e, k) && k in c.maps
    ensures AwayFrom(Perform(c, e), k, c.maps[k])
  {
    var r := c.maps[k];
    ReplicaStep(c, e, r);
    forall t ensures !IsCreator(Perform(c, e), t, r) {
      NotItsCreator(c, e, k, t);
    }
    if e.CreateInsert? {
      assert IsCreator(c, e.task, c.tasks[e.task].me);
    }
  }

  lemma NotItsCreator(c: Cluster, e: Step, k: Key, t: TaskId)
    requires Inv(c) && Apart(c) && Enabled(c, e) && k in c.maps
    ensures !IsCreator(Perform(c, e), t, c.maps[k])
  {
    if IsCreator(Perform(c, e), t, c.maps[k]) {
      CreatorStep(c, e, t);
      assert IsCreator(c, t, c.maps[k]);
    }
  }

  lemma DisturbedAt(run: Run, i: nat, m: nat, k: Key)
    requires IsRun(run) && i <= m < |run.steps| && k in run.states[i].maps
    requires Undisturbed(run, i, m, k) && Disturbs(run.states[m], run.steps[m], k)
    ensures AwayFrom(run.states[m + 1], k, run.states[i].maps[k])
  {
    EntryStays(run, i, m, k);
    InvAlways(run, m);
    ApartAlways(run, m);
    assert Follows(run, m);
    DisturbedGoesAway(run.states[m], run.steps[m], k);
  }

  lemma {:induction false} FirstDisturbance(run: Run, i: nat, j: nat, k: Key) returns (m: nat)
    requires IsRun(run) && i <= j < |run.states| && !Undisturbed(run, i, j, k)
    ensures i <= m < j && Undisturbed(run, i, m, k) && Disturbs(run.states[m], run.steps[m], k)
    decreases j - i
  {
    if Undisturbed(run, i, j - 1, k) {
      m := j - 1;
    } else {
      m := FirstDisturbance(run, i, j - 1, k);
    }
  }

  /** What a `find` returns is never an object that is away from the entry. */
  lemma ReturnsNoneAway(run: Run, j: nat, k: Key, x: SubId, y: SubId)
    requires IsRun(run) && j < |run.steps| && AwayFrom(run.states[j], k, x)
    requires Returns(run.states[j], run.steps[j]) == Some((k, y))
    ensures x != y
  {
    assert Follows(run, j);
    InvAlways(run, j);
    FindIsGetOrCreate(run.states[j], run.steps[j]);
  }

  /** Two successful finds of one id on one node return one object exactly when nothing replaced the entry between. */
  lemma FindsAgreeExactly(run: Run, i: nat, j: nat, k: Key, x: SubId, y: SubId)
    requires IsRun(run) && i < j < |run.steps|
    requires Returns(run.states[i], run.steps[i]) == Some((k, x))
    requires Returns(run.states[j], run.steps[j]) == Some((k, y))
    ensures x == y <==> Undisturbed(run, i + 1, j, k)
  {
    ReturnAt(run, i);
    if Undisturbed(run, i + 1, j, k) {
      EntryStays(run, i + 1, j, k);
      ReturnAt(run, j);
    } else {
      var m := FirstDisturbance(run, i + 1, j, k);
      DisturbedAt(run, i + 1, m, k);
      StaysAway(run, m + 1, j, k, x);
      ReturnsNoneAway(run, j, k, x, y);
    }
  }

  /** In particular they agree between two events that replace the entry, however their map accesses interleave. */
  lemma FindsAgree(run: Run, i: nat, j: nat, k: Key, x: SubId, y: SubId)
    requires IsRun(run) && i < j < |run.steps| && Undisturbed(run, i + 1, j, k)
    requires Returns(run.states[i], run.steps[i]) == Some((k, x))
    requires Returns(run.states[j], run.steps[j]) == Some((k, y))
    ensures x == y
  {
    FindsAgreeExactly(run, i, j, k, x, y);
  }

  // ---------------------------------------------------------------------------------------------------------
  // Only deletes separate finds once `create` has returned.

  ghost predicate NoCreator(c: Cluster, s: SessionId) {
    s in c.created && forall t :: t in c.tasks && c.tasks[t].Create? ==> c.tasks[t].session != s
  }

  lemma NoCreatorStep(c: Cluster, e: Step, s: SessionId)
    requires Enabled(c, e) && NoCreator(c, s)
    ensures NoCreator(Perform(c, e), s)
  {
    CreatedStep(c, e);
    var d := Perform(c, e);
    forall t | t in d.tasks && d.tasks[t].Create? ensures d.tasks[t].session != s {
      CreatorStep(c, e, t);
    }
  }

  /** `create` publishes a session once: after its insert nobody is creating that session any more. */
  lemma PublishedOnce(c: Cluster, e: Step, k: Key)
    requires Inv(c) && Enabled(c, e) && Publishes(c, e, k)
    ensures NoCreator(Perform(c, e), k.1)
  {
  }

  lemma NoCreatorAt(run: Run, i: nat, s: SessionId)
    requires IsRun(run) && i < |run.steps| && NoCreator(run.states[i], s)
    ensures NoCreator(run.states[i + 1], s)
  {
    assert Follows(run, i);
    NoCreatorStep(run.states[i], run.steps[i], s);
  }

  lemma {:induction false} NoCreatorStays(run: Run, i: nat, j: nat, s: SessionId)
    requires IsRun(run) && i <= j < |run.states| && NoCreator(run.states[i], s)
    ensures NoCreator(run.states[j], s)
  {
    if i < j {
      NoCreatorStays(run, i, j - 1, s);
      NoCreatorAt(run, j - 1, s);
    }
  }

  lemma PublishedAt(run: Run, i: nat, k: Key)
    requires IsRun(run) && i < |run.steps| && Publishes(run.states[i], run.steps[i], k)
    ensures NoCreator(run.states[i + 1], k.1)
  {
    assert Follows(run, i);
    InvAlways(run, i);
    PublishedOnce(run.states[i], run.steps[i], k);
  }

  /**
   * Once `create` of the session has returned (nobody is told the id earlier), only a handled delete separates finds:
   * between two delete events on a node all successful finds there return one object.
   */
  lemma FindsAgreeBetweenDeletes(run: Run, p: nat, home: NodeId, i: nat, j: nat, k: Key, x: SubId, y: SubId)
    requires IsRun(run) && p < i < j < |run.steps| && Publishes(run.states[p], run.steps[p], (home, k.1))
    requires Returns(run.states[i], run.steps[i]) == Some((k, x))
    requires Returns(run.states[j], run.steps[j]) == Some((k, y))
    requires forall m :: i < m < j ==> run.steps[m] != HandleDelete(k.0, k.1)
    ensures x == y
  {
    PublishedAt(run, p, (home, k.1));
    forall m | i + 1 <= m < j ensures !Disturbs(run.states[m], run.steps[m], k) {
      NoCreatorStays(run, p + 1, m, k.1);
    }
    FindsAgree(run, i, j, k, x, y);
  }
}
