/**
 * What the role choice as written does over both planes: a client message is forwarded twice as soon as three objects
 * of a session have started, and not before.
 */
module RaftWrittenRoles {
  import opened Prelude
  import R = RaftCluster
  import opened Routing
  import opened RoutingRoles
  import opened RaftRoles
  import opened RaftScripts

  /** Three objects of session `s` take part. */
  predicate AreThree(members: map<ReplicaId, Member>, s: SessionId, a: ReplicaId, b: ReplicaId, c: ReplicaId) {
    && a in members && b in members && c in members && a != b && a != c && b != c
    && members[a].session == members[b].session == members[c].session == s
  }

  /** No interleaved run in which the owner stays forwards a client message of `s` twice. */
  ghost predicate WrittenForwardsOnce(members: map<ReplicaId, Member>, s: SessionId) {
    forall joint :: IsJointRun(members, WrittenRole, joint) && KeepsOwner(joint, s) ==>
      ClientAtMostOnce(joint.states[|joint.steps|].data, s)
  }

  // ---------------------------------------------------------------------------------------------------------
  // Two objects are not enough.

  lemma MainIsNotOwner(run: R.Run, s: SessionId, a: ReplicaId, c: ReplicaId)
    requires R.IsRun(run) && NeverGivenUp(run, s)
    requires Chosen(run, WrittenRole, s, a, Main) && Chosen(run, WrittenRole, s, c, Sub)
    ensures a != c
  {
    if a == c {
      OneRole(run, WrittenRole, s, a, Main, Sub);
    }
  }

  /** As written, a message that is forwarded twice takes three objects of its session. */
  lemma TwiceTakesThree(members: map<ReplicaId, Member>, joint: JointRun, s: SessionId)
    returns (a: ReplicaId, b: ReplicaId, c: ReplicaId)
    requires IsJointRun(members, WrittenRole, joint) && KeepsOwner(joint, s)
    requires !ClientAtMostOnce(joint.states[|joint.steps|].data, s)
    ensures AreThree(members, s, a, b, c)
    ensures var net := joint.states[|joint.steps|].data;
            && a in net.replicas && Main in net.replicas[a].roles
            && b in net.replicas && Main in net.replicas[b].roles
            && c in net.replicas && Sub in net.replicas[c].roles
  {
    var net := joint.states[|joint.steps|].data;
    var run, at, steps := Project(members, WrittenRole, joint, |joint.steps|);
    OwnerIsKept(joint, |joint.steps|, run, at, s);
    MembersStay(members, steps);
    a, b, c := ContendedThree(run, members, steps, s);
  }

  lemma ContendedThree(run: R.Run, members: map<ReplicaId, Member>, steps: seq<Step>, s: SessionId)
    returns (a: ReplicaId, b: ReplicaId, c: ReplicaId)
    requires R.IsRun(run) && NeverGivenUp(run, s) && Exec(members, steps).Some?
    requires Grounded(run, WrittenRole, Exec(members, steps).value)
    requires !ClientAtMostOnce(Exec(members, steps).value, s)
    ensures var net := Exec(members, steps).value;
            && a != b && a != c && b != c
            && InSession(net, a, s) && InSession(net, b, s) && InSession(net, c, s)
            && Main in net.replicas[a].roles && Main in net.replicas[b].roles && Sub in net.replicas[c].roles
  {
    var net := Exec(members, steps).value;
    if !Contended(net, s) {
      ClientMessagesOnce(members, steps, s);
    }
    a, b, c :| a != b && InSession(net, a, s) && InSession(net, b, s) && InSession(net, c, s)
      && Main in net.replicas[a].roles && Main in net.replicas[b].roles && Sub in net.replicas[c].roles;
    MainIsNotOwner(run, s, a, c);
    MainIsNotOwner(run, s, b, c);
  }

  // ---------------------------------------------------------------------------------------------------------
  // Three objects are, wherever they are.

  function Written(members: map<ReplicaId, Member>): Scene {
    Scene(members, WrittenRole, false)
  }

  /** Everybody is where `TwoObjects` puts them, and `a` has become the owner. */
  predicate OwnedByFirst(members: map<ReplicaId, Member>, c: R.Cluster, s: SessionId, a: ReplicaId, b: ReplicaId)
    requires AreTwo(members, s, a, b)
  {
    && AreReady(members, c.(kv := map[Key(s) := R.Record(Key(s), URL, None)]), s, a, b)
    && c.kv == map[Key(s) := R.Record(Key(s), URL, Some(R.SubId(a)))]
  }

  /** They start one after the other: `a` becomes the owner and relays as a sub, `b` becomes a main. */
  lemma TwoJoin(members: map<ReplicaId, Member>, nodes: set<NodeId>, s: SessionId, a: ReplicaId, b: ReplicaId)
    returns (joint: JointRun, j: Joint)
    requires AreTwo(members, s, a, b) && members[a].node in nodes && members[b].node in nodes
    ensures IsScript(Written(members), joint) && j == Last(joint)
    ensures j.control.nodes == nodes && OwnedByFirst(members, j.control, s, a, b)
    ensures j.data == Set(Set(Init(members), a, Replica(s, members[a].node, Running(Sub), 0, 0, 0, 0, {Sub})),
                          b, Replica(s, members[b].node, Connecting, 0, 0, 0, 0, {Main}))
  {
    var x := Written(members);
    joint, j := TwoObjects(x, nodes, s, a, b);
    var net := j.data;
    joint, j := JoinAlone(x, joint, 1, a, s);
    net := TookSub(net, a);
    joint, j := JoinAlone(x, joint, 1, b, s);
    net := TookMain(net, b);
  }

  /** The sub `a` has forwarded a client message, which the main `b` has not heard yet. */
  function Forwarded(members: map<ReplicaId, Member>, s: SessionId, a: ReplicaId, b: ReplicaId): Net
    requires AreTwo(members, s, a, b)
  {
    Send(Set(Set(Init(members), a, Replica(s, members[a].node, Running(Sub), 1, 1, 0, 0, {Sub})),
             b, Replica(s, members[b].node, Running(Main), 0, 0, 0, 0, {Main})),
         ToMain(s, Message(a, 0)))
  }

  lemma SubAccepts(members: map<ReplicaId, Member>, nodes: set<NodeId>, s: SessionId, a: ReplicaId, b: ReplicaId)
    returns (joint: JointRun, j: Joint)
    requires AreTwo(members, s, a, b) && members[a].node in nodes && members[b].node in nodes
    ensures IsScript(Written(members), joint) && j == Last(joint)
    ensures j.control.nodes == nodes && OwnedByFirst(members, j.control, s, a, b)
    ensures j.data == Set(Set(Init(members), a, Replica(s, members[a].node, Running(Sub), 1, 0, 0, 0, {Sub})),
                          b, Replica(s, members[b].node, Running(Main), 0, 0, 0, 0, {Main}))
  {
    var x := Written(members);
    joint, j := TwoJoin(members, nodes, s, a, b);
    joint, j := GoData(x, joint, Connect(b));
    joint, j := GoData(x, joint, Accept(a));
  }

  lemma SubForwards(members: map<ReplicaId, Member>, nodes: set<NodeId>, s: SessionId, a: ReplicaId, b: ReplicaId)
    returns (joint: JointRun, j: Joint)
    requires AreTwo(members, s, a, b) && members[a].node in nodes && members[b].node in nodes
    ensures IsScript(Written(members), joint) && j == Last(joint) && j.data == Forwarded(members, s, a, b)
    ensures j.control.nodes == nodes && OwnedByFirst(members, j.control, s, a, b)
  {
    joint, j := SubAccepts(members, nodes, s, a, b);
    joint, j := GoData(Written(members), joint, ForwardBus(a));
  }

  /** While a `find` on node `n` and a second `start` of `b` are under way, `b` closes the session. */
  lemma CloseBetween(members: map<ReplicaId, Member>, before: JointRun, s: SessionId, a: ReplicaId, b: ReplicaId,
                     n: NodeId)
    returns (joint: JointRun, j: Joint)
    requires AreTwo(members, s, a, b) && IsScript(Written(members), before)
    requires OwnedByFirst(members, Last(before).control, s, a, b) && n in Last(before).control.nodes
    ensures IsScript(Written(members), joint) && j == Last(joint) && j.data == Last(before).data
    ensures var copy := R.Record(Key(s), URL, Some(R.SubId(a)));
            var c := Last(before).control;
            && j.control == c.(tasks := map[1 := R.Find(n, Key(s), R.Fetched(copy)),
                                            2 := R.Start(R.SubId(b), R.Read(copy))],
                               locks := map[Key(s) := 2], kv := map[], pending := j.control.pending)
            && (n, Key(s)) in j.control.pending
  {
    var x := Written(members);
    joint, j := FetchAlone(x, before, 1, n, s);
    joint, j := ReadAlone(x, joint, 2, b, s);
    joint, j := CloseAlone(x, joint, 3, b, s);
    assert n in j.control.nodes;
  }

  /** The node of `a` drops its entry, which is `a`. */
  lemma DropBetween(members: map<ReplicaId, Member>, before: JointRun, s: SessionId, a: ReplicaId, b: ReplicaId)
    returns (joint: JointRun, j: Joint)
    requires AreTwo(members, s, a, b) && IsScript(Written(members), before)
    requires OwnedByFirst(members, Last(before).control, s, a, b)
    ensures IsScript(Written(members), joint) && j == Last(joint) && j.data == Last(before).data
    ensures var copy := R.Record(Key(s), URL, Some(R.SubId(a)));
            var n := members[a].node;
            var c := j.control;
            && c.down == {} && c.locks == map[Key(s) := 2] && c.kv == map[] && (n, Key(s)) !in c.maps
            && c.replicas.Keys == {R.SubId(a), R.SubId(b)} && c.replicas[R.SubId(b)] == Object(s, members[b].node)
            && c.tasks == map[1 := R.Find(n, Key(s), R.Fetched(copy)), 2 := R.Start(R.SubId(b), R.Read(copy))]
  {
    joint, j := CloseBetween(members, before, s, a, b, members[a].node);
    assert j.control.maps[(members[a].node, Key(s))] == R.SubId(a);
    joint, j := GoControl(Written(members), joint, R.HandleDelete(members[a].node, Key(s)));
  }

  /** Then the `start` brings the record back, and the `find` makes a new object `r` on that node. */
  lemma FindBetween(members: map<ReplicaId, Member>, before: JointRun, s: SessionId, a: ReplicaId, b: ReplicaId,
                    r: ReplicaId)
    returns (joint: JointRun, j: Joint)
    requires AreTwo(members, s, a, b) && r !in {a, b} && IsScript(Written(members), before)
    requires OwnedByFirst(members, Last(before).control, s, a, b)
    ensures IsScript(Written(members), joint) && j == Last(joint) && j.data == Last(before).data
    ensures var c := j.control;
            && c.locks == map[] && c.kv == map[Key(s) := R.Record(Key(s), URL, Some(R.SubId(a)))] && 3 !in c.tasks
            && R.Alive(c, R.SubId(b))
            && R.SubId(r) in c.replicas && c.replicas[R.SubId(r)] == Object(s, members[a].node)
  {
    var x := Written(members);
    joint, j := DropBetween(members, before, s, a, b);
    joint, j := LeaveAlone(x, joint, 2, s);
    joint, j := InsertAlone(x, joint, 1, members[a].node, s, Some(R.SubId(a)), r);
  }

  /** Of three objects of which some share a node, the first two do. */
  predicate AreOrdered(members: map<ReplicaId, Member>, s: SessionId, a: ReplicaId, b: ReplicaId, c: ReplicaId) {
    && AreThree(members, s, a, b, c)
    && (members[c].node in {members[a].node, members[b].node} ==> members[a].node == members[b].node)
  }

  /** The third object comes from a `find`, which a close has to race if the node has the other two already. */
  lemma ThirdObject(members: map<ReplicaId, Member>, before: JointRun, s: SessionId, a: ReplicaId, b: ReplicaId,
                    c: ReplicaId)
    returns (joint: JointRun, j: Joint)
    requires AreOrdered(members, s, a, b, c) && IsScript(Written(members), before)
    requires OwnedByFirst(members, Last(before).control, s, a, b) && members[c].node in Last(before).control.nodes
    ensures IsScript(Written(members), joint) && j == Last(joint) && j.data == Last(before).data
    ensures var d := j.control;
            && d.locks == map[] && d.kv == map[Key(s) := R.Record(Key(s), URL, Some(R.SubId(a)))] && 3 !in d.tasks
            && R.Alive(d, R.SubId(b))
            && R.SubId(c) in d.replicas && d.replicas[R.SubId(c)] == Object(s, members[c].node)
  {
    var n := members[c].node;
    if n == members[a].node {
      joint, j := FindBetween(members, before, s, a, b, c);
    } else {
      joint, j := FindAlone(Written(members), before, 1, n, s, c);
    }
  }

  /** The third object becomes a main too, before it or the other main has heard of the message. */
  lemma ThreeWaiting(members: map<ReplicaId, Member>, s: SessionId, a: ReplicaId, b: ReplicaId, c: ReplicaId)
    returns (joint: JointRun, j: Joint)
    requires AreOrdered(members, s, a, b, c)
    ensures IsScript(Written(members), joint) && j == Last(joint)
    ensures j.data.bus == [ToMain(s, Message(a, 0))] && j.data.offers == []
    ensures IsWaiting(j.data, b, s) && IsWaiting(j.data, c, s)
  {
    var x := Written(members);
    joint, j := SubForwards(members, {members[a].node, members[b].node, members[c].node}, s, a, b);
    joint, j := ThirdObject(members, joint, s, a, b, c);
    joint, j := JoinAlone(x, joint, 3, c, s);
    joint, j := GoData(x, joint, Connect(c));
  }

  lemma OrderedForwardTwice(members: map<ReplicaId, Member>, s: SessionId, a: ReplicaId, b: ReplicaId, c: ReplicaId)
    returns (joint: JointRun)
    requires AreOrdered(members, s, a, b, c)
    ensures IsJointRun(members, WrittenRole, joint) && KeepsOwner(joint, s)
    ensures !ClientAtMostOnce(joint.states[|joint.steps|].data, s)
  {
    var j;
    joint, j := ThreeWaiting(members, s, a, b, c);
    joint := BothHear(Written(members), joint, b, c, s, Message(a, 0));
  }

  /** In a run of elections and relays with the written role choice, two mains forward one message of the sub. */
  lemma ThreeForwardTwice(members: map<ReplicaId, Member>, s: SessionId, a: ReplicaId, b: ReplicaId, c: ReplicaId)
    returns (joint: JointRun)
    requires AreThree(members, s, a, b, c)
    ensures IsJointRun(members, WrittenRole, joint) && KeepsOwner(joint, s)
    ensures !ClientAtMostOnce(joint.states[|joint.steps|].data, s)
  {
    if AreOrdered(members, s, a, b, c) {
      joint := OrderedForwardTwice(members, s, a, b, c);
    } else if AreOrdered(members, s, a, c, b) {
      joint := OrderedForwardTwice(members, s, a, c, b);
    } else {
      joint := OrderedForwardTwice(members, s, b, c, a);
    }
  }

  /**
   * With the role choice as written: every interleaved run in which the owner stays forwards the client messages of a
   * session at most once, exactly if the session has no three objects.
   */
  lemma WrittenForwardsOnceExactly(members: map<ReplicaId, Member>, s: SessionId)
    ensures WrittenForwardsOnce(members, s) <==> !exists a, b, c :: AreThree(members, s, a, b, c)
  {
    if a, b, c :| AreThree(members, s, a, b, c) {
      var joint := ThreeForwardTwice(members, s, a, b, c);
    } else {
      forall joint | IsJointRun(members, WrittenRole, joint) && KeepsOwner(joint, s)
        ensures ClientAtMostOnce(joint.states[|joint.steps|].data, s)
      {
        if !ClientAtMostOnce(joint.states[|joint.steps|].data, s) {
          var a, b, c := TwiceTakesThree(members, joint, s);
        }
      }
    }
  }
}
