/**
 * What a `stop` of the owner does to relaying: the ownership moves on while relays of the former roles are still at
 * work, and a client message can be forwarded twice with either role choice, as soon as a session has two objects.
 */
module RaftHandover {
  import opened Prelude
  import R = RaftCluster
  import opened Routing
  import opened RoutingRoles
  import opened RaftRoles
  import opened RaftScripts

  /** No interleaved run forwards a client message of `s` twice, whoever stops. */
  ghost predicate ForwardsOnceAnyway(members: map<ReplicaId, Member>, choose: (ReplicaId, ReplicaId) -> Role,
                                     s: SessionId) {
    forall joint :: IsJointRun(members, choose, joint) ==> ClientAtMostOnce(joint.states[|joint.steps|].data, s)
  }

  /** With a single object nothing is forwarded twice, however it chooses its role. */
  lemma AloneForwardsOnce(members: map<ReplicaId, Member>, choose: (ReplicaId, ReplicaId) -> Role, s: SessionId)
    requires forall a, b :: !AreTwo(members, s, a, b)
    ensures ForwardsOnceAnyway(members, choose, s)
  {
    forall joint | IsJointRun(members, choose, joint) ensures ClientAtMostOnce(joint.states[|joint.steps|].data, s) {
      var net := joint.states[|joint.steps|].data;
      var run, at, steps := Project(members, choose, joint, |joint.steps|);
      MembersStay(members, steps);
      if a, b :| a != b && InSession(net, a, s) && InSession(net, b, s) {
        assert AreTwo(members, s, a, b);
      }
      ClientMessagesOnce(members, steps, s);
    }
  }

  // ---------------------------------------------------------------------------------------------------------
  // Two objects are enough.

  /** While `o` owns the record, `u` is a sub and `m` a main; once `q` does, `u` is a main too. */
  predicate Swaps(choose: (ReplicaId, ReplicaId) -> Role, o: ReplicaId, q: ReplicaId, m: ReplicaId, u: ReplicaId) {
    {m, u} == {o, q} && m != u && choose(m, o).Main? && choose(u, o).Sub? && choose(u, q).Main?
  }

  /** Object `r` of session `s` relays in `role`, or is about to, and has nothing to read or forward. */
  function Joined(members: map<ReplicaId, Member>, r: ReplicaId, s: SessionId, role: Role): Replica
    requires r in members
  {
    Replica(s, members[r].node, if role.Main? then Connecting else Running(Sub), 0, 0, 0, 0, {role})
  }

  lemma Took(was: Net, choose: (ReplicaId, ReplicaId) -> Role, members: map<ReplicaId, Member>, r: ReplicaId,
             owner: ReplicaId, s: SessionId)
    requires Enabled(was, TakeStep(choose, r, owner)) && r in members && was.log[was.replicas[r].node] == []
    requires was.replicas[r] == Replica(s, members[r].node, Idle, 0, 0, 0, 0, {})
    ensures Perform(was, TakeStep(choose, r, owner)) == Set(was, r, Joined(members, r, s, choose(r, owner)))
  {
    if choose(r, owner).Main? {
      var net := TookMain(was, r);
    } else {
      var net := TookSub(was, r);
    }
  }

  /** Both objects of the session are there, on nodes that exist, and the record carries `owner`. */
  predicate Stand(members: map<ReplicaId, Member>, c: R.Cluster, s: SessionId, o: ReplicaId, q: ReplicaId,
                  owner: Option<R.SubId>)
    requires AreTwo(members, s, o, q)
  {
    && c.locks == map[] && c.kv == map[Key(s) := R.Record(Key(s), URL, owner)]
    && c.replicas == map[R.SubId(o) := Object(s, members[o].node), R.SubId(q) := Object(s, members[q].node)]
  }

  /** `o` starts as the owner, and `q` after it. */
  lemma TwoJoin(members: map<ReplicaId, Member>, choose: (ReplicaId, ReplicaId) -> Role, s: SessionId,
                o: ReplicaId, q: ReplicaId)
    returns (joint: JointRun, j: Joint)
    requires AreTwo(members, s, o, q)
    ensures IsScript(Scene(members, choose, true), joint) && j == Last(joint)
    ensures Stand(members, j.control, s, o, q, Some(R.SubId(o))) && j.control.tasks == map[]
    ensures j.data == Set(Set(Init(members), o, Joined(members, o, s, choose(o, o))),
                          q, Joined(members, q, s, choose(q, o)))
  {
    var x := Scene(members, choose, true);
    joint, j := TwoObjects(x, {members[o].node, members[q].node}, s, o, q);
    Took(j.data, choose, members, o, o, s);
    joint, j := JoinAlone(x, joint, 1, o, s);
    Took(j.data, choose, members, q, o, s);
    joint, j := JoinAlone(x, joint, 1, q, s);
  }

  /** The sub has sent a client message, which nobody has heard yet, and its loop has ended; the main is relaying. */
  predicate IsSent(j: Joint, s: SessionId, m: ReplicaId, u: ReplicaId) {
    && j.data.bus == [ToMain(s, Message(u, 0))] && j.data.offers == [] && IsWaiting(j.data, m, s)
    && u in j.data.replicas && j.data.replicas[u].session == s && j.data.replicas[u].phase == Idle
    && IsFresh(j.data, j.data.replicas[u].node) && j.data.log[j.data.replicas[u].node] == []
  }

  /** The main is connected, and the sub has a client message. */
  lemma SubAccepts(members: map<ReplicaId, Member>, choose: (ReplicaId, ReplicaId) -> Role, s: SessionId,
                   o: ReplicaId, q: ReplicaId, m: ReplicaId, u: ReplicaId)
    returns (joint: JointRun, j: Joint)
    requires AreTwo(members, s, o, q) && Swaps(choose, o, q, m, u)
    ensures IsScript(Scene(members, choose, true), joint) && j == Last(joint)
    ensures Stand(members, j.control, s, o, q, Some(R.SubId(o))) && j.control.tasks == map[]
    ensures j.data == Set(Set(Init(members), m, Replica(s, members[m].node, Running(Main), 0, 0, 0, 0, {Main})),
                          u, Replica(s, members[u].node, Running(Sub), 1, 0, 0, 0, {Sub}))
  {
    var x := Scene(members, choose, true);
    joint, j := TwoJoin(members, choose, s, o, q);
    joint, j := GoData(x, joint, Connect(m));
    joint, j := GoData(x, joint, Accept(u));
  }

  lemma SubSends(members: map<ReplicaId, Member>, choose: (ReplicaId, ReplicaId) -> Role, s: SessionId,
                 o: ReplicaId, q: ReplicaId, m: ReplicaId, u: ReplicaId)
    returns (joint: JointRun, j: Joint)
    requires AreTwo(members, s, o, q) && Swaps(choose, o, q, m, u)
    ensures IsScript(Scene(members, choose, true), joint) && j == Last(joint) && IsSent(j, s, m, u)
    ensures Stand(members, j.control, s, o, q, Some(R.SubId(o))) && j.control.tasks == map[]
    ensures j.data.replicas[u].node == members[u].node
  {
    var x := Scene(members, choose, true);
    joint, j := SubAccepts(members, choose, s, o, q, m, u);
    joint, j := GoData(x, joint, ForwardBus(u));
    joint, j := GoData(x, joint, End(u));
  }

  /** `o` gives its claim up and `q` becomes the owner; the relays do not notice. */
  lemma OwnerChanges(members: map<ReplicaId, Member>, choose: (ReplicaId, ReplicaId) -> Role, before: JointRun,
                     s: SessionId, o: ReplicaId, q: ReplicaId)
    returns (joint: JointRun, j: Joint)
    requires AreTwo(members, s, o, q) && IsScript(Scene(members, choose, true), before)
    requires var c := Last(before).control;
             Stand(members, c, s, o, q, Some(R.SubId(o))) && c.tasks == map[]
    ensures IsScript(Scene(members, choose, true), joint) && j == Last(joint) && j.data == Last(before).data
    ensures Stand(members, j.control, s, o, q, Some(R.SubId(q))) && 3 !in j.control.tasks
  {
    var x := Scene(members, choose, true);
    joint, j := StopAlone(x, before, 1, o, s);
    joint, j := StartAlone(x, joint, 2, q, s);
  }

  /** The former sub starts again, and becomes a main beside the other one. */
  lemma SubReturns(members: map<ReplicaId, Member>, choose: (ReplicaId, ReplicaId) -> Role, before: JointRun,
                   s: SessionId, o: ReplicaId, q: ReplicaId, m: ReplicaId, u: ReplicaId)
    returns (joint: JointRun, j: Joint)
    requires AreTwo(members, s, o, q) && Swaps(choose, o, q, m, u) && IsScript(Scene(members, choose, true), before)
    requires IsSent(Last(before), s, m, u) && Last(before).data.replicas[u].node == members[u].node
    requires Stand(members, Last(before).control, s, o, q, Some(R.SubId(q))) && 3 !in Last(before).control.tasks
    ensures IsScript(Scene(members, choose, true), joint) && j == Last(joint)
    ensures j.data.bus == Last(before).data.bus && j.data.offers == []
    ensures IsWaiting(j.data, m, s) && IsWaiting(j.data, u, s)
  {
    var x := Scene(members, choose, true);
    joint, j := JoinAlone(x, before, 3, u, s);
    joint, j := GoData(x, joint, Connect(u));
  }

  /** A run in which the owner's claim moves on and two mains forward one message. */
  lemma HandoverForwardsTwice(members: map<ReplicaId, Member>, choose: (ReplicaId, ReplicaId) -> Role, s: SessionId,
                              o: ReplicaId, q: ReplicaId, m: ReplicaId, u: ReplicaId)
    returns (joint: JointRun)
    requires AreTwo(members, s, o, q) && Swaps(choose, o, q, m, u)
    ensures IsJointRun(members, choose, joint) && !ClientAtMostOnce(joint.states[|joint.steps|].data, s)
  {
    var j;
    joint, j := SubSends(members, choose, s, o, q, m, u);
    joint, j := OwnerChanges(members, choose, joint, s, o, q);
    joint, j := SubReturns(members, choose, joint, s, o, q, m, u);
    joint := BothHear(Scene(members, choose, true), joint, m, u, s, Message(u, 0));
  }

  /**
   * When owners may stop, either role choice forwards the client messages of a session at most once in every
   * interleaved run, exactly if the session has no two objects.
   */
  lemma EitherForwardsOnceExactly(members: map<ReplicaId, Member>, s: SessionId)
    ensures ForwardsOnceAnyway(members, IntendedRole, s) <==> !exists o, q :: AreTwo(members, s, o, q)
    ensures ForwardsOnceAnyway(members, WrittenRole, s) <==> !exists o, q :: AreTwo(members, s, o, q)
  {
    if o, q :| AreTwo(members, s, o, q) {
      var intended := HandoverForwardsTwice(members, IntendedRole, s, o, q, o, q);
      var written := HandoverForwardsTwice(members, WrittenRole, s, o, q, q, o);
    } else {
      AloneForwardsOnce(members, IntendedRole, s);
      AloneForwardsOnce(members, WrittenRole, s);
    }
  }
}
