/**
 * Schedules of both planes, one call after the other: each lemma carries a joint run through a part of a call and says
 * what state that ends in.
 */
module RaftScripts {
  import opened Prelude
  import R = RaftCluster
  import opened Routing
  import opened RaftRoles

  /** Who takes part, how roles are chosen, and whether a `stop` may give a claim up. */
  datatype Scene = Scene(members: map<ReplicaId, Member>, choose: (ReplicaId, ReplicaId) -> Role, stops: bool)

  function Last(joint: JointRun): Joint
    requires |joint.states| == |joint.steps| + 1
  {
    joint.states[|joint.steps|]
  }

  ghost predicate IsScript(x: Scene, joint: JointRun) {
    && IsJointRun(x.members, x.choose, joint)
    && (x.stops || forall b: nat, owner :: b < |joint.steps| ==> !GivesUpAt(joint, b, owner))
  }

  predicate Suits(x: Scene, j: Joint, step: JointStep) {
    match step
    case Control(Put(t)) => x.stops || (t in j.control.tasks && j.control.tasks[t].Start?)
    case _ => true
  }

  /** Carries the run one step further. */
  lemma Go(x: Scene, joint: JointRun, step: JointStep) returns (longer: JointRun, j: Joint)
    requires IsScript(x, joint) && CanStep(x.choose, Last(joint), step) && Suits(x, Last(joint), step)
    ensures IsScript(x, longer) && j == Last(longer) == AfterStep(x.choose, Last(joint), step)
  {
    j := AfterStep(x.choose, Last(joint), step);
    longer := JointRun(joint.states + [j], joint.steps + [step]);
    forall i | 0 <= i < |longer.steps| ensures Goes(x.choose, longer, i) {
      if i < |joint.steps| {
        assert Goes(x.choose, joint, i);
      }
    }
    if !x.stops {
      forall b: nat, owner | b < |longer.steps| ensures !GivesUpAt(longer, b, owner) {
        if b < |joint.steps| {
          assert !GivesUpAt(joint, b, owner);
        }
      }
    }
  }

  lemma GoControl(x: Scene, joint: JointRun, e: R.Step) returns (longer: JointRun, j: Joint)
    requires IsScript(x, joint) && R.Enabled(Last(joint).control, e) && Suits(x, Last(joint), Control(e))
    ensures IsScript(x, longer) && j == Last(longer)
    ensures j == Joint(R.Perform(Last(joint).control, e), Last(joint).data)
  {
    longer, j := Go(x, joint, Control(e));
  }

  lemma GoData(x: Scene, joint: JointRun, d: Step) returns (longer: JointRun, j: Joint)
    requires IsScript(x, joint) && Enabled(Last(joint).data, d) && !d.TakeMain? && !d.TakeSub?
    ensures IsScript(x, longer) && j == Last(longer)
    ensures j == Joint(Last(joint).control, Perform(Last(joint).data, d))
  {
    longer, j := Go(x, joint, Data(d));
  }

  // ---------------------------------------------------------------------------------------------------------
  // Calls of the control plane.

  const URL := R.Url(0)

  function Key(s: SessionId): R.SessionId {
    R.SessionId(s)
  }

  function Object(s: SessionId, n: NodeId): R.Replica {
    R.Replica(Key(s), URL, n, false)
  }

  /** `create` of session `s` with object `a` on node `n` begins. */
  lemma BeginAlone(x: Scene, nodes: set<NodeId>, n: NodeId, s: SessionId, a: ReplicaId)
    returns (joint: JointRun, j: Joint)
    requires n in nodes
    ensures IsScript(x, joint) && j == Last(joint) && j.data == Init(x.members)
    ensures j.control == R.Cluster(nodes, {}, map[], map[], map[R.SubId(a) := Object(s, n)], map[],
                                   map[0 := R.Create(n, Key(s), R.SubId(a), URL, false)], multiset{},
                                   map[Key(s) := R.Origin(URL, 0)], map[])
  {
    joint := JointRun([Joint(R.Init(nodes), Init(x.members))], []);
    joint, j := GoControl(x, joint, R.CreateBegin(0, n, Key(s), R.SubId(a), URL));
  }

  /** It has put the record. */
  lemma PutAlone(x: Scene, nodes: set<NodeId>, n: NodeId, s: SessionId, a: ReplicaId)
    returns (joint: JointRun, j: Joint)
    requires n in nodes
    ensures IsScript(x, joint) && j == Last(joint) && j.data == Init(x.members)
    ensures j.control == R.Cluster(nodes, {}, map[Key(s) := R.Record(Key(s), URL, None)], map[],
                                   map[R.SubId(a) := Object(s, n)], map[],
                                   map[0 := R.Create(n, Key(s), R.SubId(a), URL, true)], multiset{},
                                   map[Key(s) := R.Origin(URL, 0)], map[Key(s) := None])
  {
    joint, j := BeginAlone(x, nodes, n, s, a);
    joint, j := GoControl(x, joint, R.CreatePut(0));
  }

  /** It publishes its object. */
  lemma PublishAlone(x: Scene, before: JointRun, n: NodeId, s: SessionId, a: ReplicaId)
    returns (joint: JointRun, j: Joint)
    requires IsScript(x, before)
    requires Last(before).control.tasks == map[0 := R.Create(n, Key(s), R.SubId(a), URL, true)]
    ensures IsScript(x, joint) && j == Last(joint) && j.data == Last(before).data
    ensures var c := Last(before).control;
            j.control == c.(maps := c.maps[(n, Key(s)) := R.SubId(a)], tasks := map[])
  {
    joint, j := GoControl(x, before, R.CreateInsert(0));
    assert j.control.tasks == map[];
  }

  /** A `find` of session `s` on node `n`, up to its get. */
  lemma FetchAlone(x: Scene, before: JointRun, t: R.TaskId, n: NodeId, s: SessionId)
    returns (joint: JointRun, j: Joint)
    requires IsScript(x, before)
    requires var c := Last(before).control;
             t !in c.tasks && n in c.nodes && Key(s) in c.kv
    ensures IsScript(x, joint) && j == Last(joint) && j.data == Last(before).data
    ensures var c := Last(before).control;
            j.control == c.(tasks := c.tasks[t := R.Find(n, Key(s), R.Fetched(c.kv[Key(s)]))])
  {
    var c := Last(before).control;
    joint, j := GoControl(x, before, R.FindBegin(t, n, Key(s)));
    joint, j := GoControl(x, joint, R.FindGet(t));
    assert j.control.tasks == c.tasks[t := R.Find(n, Key(s), R.Fetched(c.kv[Key(s)]))];
  }

  /** The rest of it, on a node without an entry: the new object `r`. */
  lemma InsertAlone(x: Scene, before: JointRun, t: R.TaskId, n: NodeId, s: SessionId, main: Option<R.SubId>,
                    r: ReplicaId)
    returns (joint: JointRun, j: Joint)
    requires IsScript(x, before)
    requires var c := Last(before).control;
             && t in c.tasks && c.tasks[t] == R.Find(n, Key(s), R.Fetched(R.Record(Key(s), URL, main)))
             && n !in c.down && (n, Key(s)) !in c.maps && R.SubId(r) !in c.replicas
    ensures IsScript(x, joint) && j == Last(joint) && j.data == Last(before).data
    ensures var c := Last(before).control;
            j.control == c.(replicas := c.replicas[R.SubId(r) := Object(s, n)],
                            maps := c.maps[(n, Key(s)) := R.SubId(r)], tasks := c.tasks - {t})
  {
    joint, j := GoControl(x, before, R.FindMiss(t));
    joint, j := GoControl(x, joint, R.FindInsert(t, R.SubId(r)));
    assert j.control.tasks == Last(before).control.tasks - {t};
  }

  /** The whole `find`. */
  lemma FindAlone(x: Scene, before: JointRun, t: R.TaskId, n: NodeId, s: SessionId, r: ReplicaId)
    returns (joint: JointRun, j: Joint)
    requires IsScript(x, before)
    requires var c := Last(before).control;
             && t !in c.tasks && n in c.nodes && n !in c.down
             && Key(s) in c.kv && c.kv[Key(s)].session == Key(s) && c.kv[Key(s)].url == URL
             && (n, Key(s)) !in c.maps && R.SubId(r) !in c.replicas
    ensures IsScript(x, joint) && j == Last(joint) && j.data == Last(before).data
    ensures var c := Last(before).control;
            j.control == c.(replicas := c.replicas[R.SubId(r) := Object(s, n)],
                            maps := c.maps[(n, Key(s)) := R.SubId(r)])
  {
    var c := Last(before).control;
    joint, j := FetchAlone(x, before, t, n, s);
    joint, j := InsertAlone(x, joint, t, n, s, c.kv[Key(s)].main, r);
    assert j.control.tasks == c.tasks;
  }

  /** A waiting call gets the lock and reads the record. */
  lemma EnterAlone(x: Scene, before: JointRun, t: R.TaskId, s: SessionId) returns (joint: JointRun, j: Joint)
    requires IsScript(x, before)
    requires var c := Last(before).control;
             && R.KnownSection(c, t) && c.tasks[t].at.Waiting? && R.SessionOf(c, t) == Key(s)
             && Key(s) in c.kv && c.locks == map[]
    ensures IsScript(x, joint) && j == Last(joint) && j.data == Last(before).data
    ensures var c := Last(before).control;
            j.control == c.(tasks := c.tasks[t := c.tasks[t].(at := R.Read(c.kv[Key(s)]))], locks := map[Key(s) := t])
  {
    var c := Last(before).control;
    joint, j := GoControl(x, before, R.Acquire(t));
    joint, j := GoControl(x, joint, R.Get(t));
    assert j.control.tasks == c.tasks[t := c.tasks[t].(at := R.Read(c.kv[Key(s)]))];
  }

  /** A call that may put does so. */
  lemma WriteAlone(x: Scene, before: JointRun, t: R.TaskId, s: SessionId) returns (joint: JointRun, j: Joint)
    requires IsScript(x, before)
    requires var c := Last(before).control;
             && R.KnownSection(c, t) && R.MayPut(c.tasks[t]) && R.SessionOf(c, t) == Key(s)
             && (x.stops || c.tasks[t].Start?)
    ensures IsScript(x, joint) && j == Last(joint) && j.data == Last(before).data
    ensures var c := Last(before).control;
            var record := R.PutBack(c.tasks[t]);
            j.control == c.(tasks := c.tasks[t := c.tasks[t].(at := R.Wrote(record.main))],
                            kv := c.kv[Key(s) := record], written := c.written[Key(s) := record.main])
  {
    joint, j := GoControl(x, before, R.Put(t));
  }

  /** After its put it gives the lock back. */
  lemma ReleaseAlone(x: Scene, before: JointRun, t: R.TaskId, s: SessionId) returns (joint: JointRun, j: Joint)
    requires IsScript(x, before)
    requires var c := Last(before).control;
             R.KnownSection(c, t) && c.tasks[t].at.Wrote? && c.locks == map[Key(s) := t]
    ensures IsScript(x, joint) && j == Last(joint) && j.data == Last(before).data
    ensures var c := Last(before).control;
            j.control == c.(tasks := c.tasks[t := c.tasks[t].(at := R.Released(c.tasks[t].at.owner))], locks := map[])
  {
    joint, j := GoControl(x, before, R.Release(t));
    assert j.control.locks == map[];
  }

  /** It puts and gives the lock back. */
  lemma LeaveAlone(x: Scene, before: JointRun, t: R.TaskId, s: SessionId) returns (joint: JointRun, j: Joint)
    requires IsScript(x, before)
    requires var c := Last(before).control;
             && R.KnownSection(c, t) && R.MayPut(c.tasks[t]) && R.SessionOf(c, t) == Key(s)
             && c.locks == map[Key(s) := t] && (x.stops || c.tasks[t].Start?)
    ensures IsScript(x, joint) && j == Last(joint) && j.data == Last(before).data
    ensures var c := Last(before).control;
            var record := R.PutBack(c.tasks[t]);
            j.control == c.(tasks := c.tasks[t := c.tasks[t].(at := R.Released(record.main))], locks := map[],
                            kv := c.kv[Key(s) := record], written := c.written[Key(s) := record.main])
  {
    var c := Last(before).control;
    joint, j := WriteAlone(x, before, t, s);
    joint, j := ReleaseAlone(x, joint, t, s);
    assert j.control.tasks == c.tasks[t := c.tasks[t].(at := R.Released(R.PutBack(c.tasks[t]).main))];
  }

  /** A `start` of `r`, up to its get. */
  lemma ReadAlone(x: Scene, before: JointRun, t: R.TaskId, r: ReplicaId, s: SessionId)
    returns (joint: JointRun, j: Joint)
    requires IsScript(x, before)
    requires var c := Last(before).control;
             && t !in c.tasks && R.Alive(c, R.SubId(r)) && c.replicas[R.SubId(r)].session == Key(s)
             && Key(s) in c.kv && c.locks == map[]
    ensures IsScript(x, joint) && j == Last(joint) && j.data == Last(before).data
    ensures var c := Last(before).control;
            j.control == c.(tasks := c.tasks[t := R.Start(R.SubId(r), R.Read(c.kv[Key(s)]))], locks := map[Key(s) := t])
  {
    var c := Last(before).control;
    joint, j := GoControl(x, before, R.StartBegin(t, R.SubId(r)));
    joint, j := EnterAlone(x, joint, t, s);
    assert j.control.tasks == c.tasks[t := R.Start(R.SubId(r), R.Read(c.kv[Key(s)]))];
  }

  /** The whole section: `r` decides on the owner of the record, or on itself. */
  lemma StartAlone(x: Scene, before: JointRun, t: R.TaskId, r: ReplicaId, s: SessionId)
    returns (joint: JointRun, j: Joint)
    requires IsScript(x, before)
    requires var c := Last(before).control;
             && t !in c.tasks && R.Alive(c, R.SubId(r)) && c.replicas[R.SubId(r)].session == Key(s)
             && Key(s) in c.kv && c.locks == map[]
    ensures IsScript(x, joint) && j == Last(joint) && j.data == Last(before).data
    ensures var c := Last(before).control;
            var record := R.ClaimIfFree(c.kv[Key(s)], R.SubId(r));
            j.control == c.(tasks := c.tasks[t := R.Start(R.SubId(r), R.Released(record.main))],
                            kv := c.kv[Key(s) := record], written := c.written[Key(s) := record.main])
  {
    var c := Last(before).control;
    joint, j := ReadAlone(x, before, t, r, s);
    joint, j := LeaveAlone(x, joint, t, s);
    assert j.control.tasks ==
           c.tasks[t := R.Start(R.SubId(r), R.Released(R.ClaimIfFree(c.kv[Key(s)], R.SubId(r)).main))];
  }

  /** A `stop` of the owner `r` that has given its claim up. */
  lemma StopAlone(x: Scene, before: JointRun, t: R.TaskId, r: ReplicaId, s: SessionId)
    returns (joint: JointRun, j: Joint)
    requires IsScript(x, before) && x.stops
    requires var c := Last(before).control;
             && t !in c.tasks && R.Alive(c, R.SubId(r)) && c.replicas[R.SubId(r)].session == Key(s)
             && Key(s) in c.kv && c.kv[Key(s)].main == Some(R.SubId(r)) && c.locks == map[]
    ensures IsScript(x, joint) && j == Last(joint) && j.data == Last(before).data
    ensures var c := Last(before).control;
            j.control == c.(tasks := c.tasks[t := R.Stop(R.SubId(r), R.Released(None))],
                            kv := c.kv[Key(s) := R.Relinquish(c.kv[Key(s)])], written := c.written[Key(s) := None])
  {
    var c := Last(before).control;
    joint, j := GoControl(x, before, R.StopBegin(t, R.SubId(r)));
    joint, j := EnterAlone(x, joint, t, s);
    joint, j := LeaveAlone(x, joint, t, s);
    assert j.control.tasks == c.tasks[t := R.Stop(R.SubId(r), R.Released(None))];
  }

  /** A `close` by object `r`, up to its delete. */
  lemma DeleteAlone(x: Scene, before: JointRun, t: R.TaskId, r: ReplicaId, s: SessionId)
    returns (joint: JointRun, j: Joint)
    requires IsScript(x, before)
    requires var c := Last(before).control;
             t !in c.tasks && R.SubId(r) in c.replicas && c.replicas[R.SubId(r)].session == Key(s)
    ensures IsScript(x, joint) && j == Last(joint) && j.data == Last(before).data
    ensures var c := Last(before).control;
            j.control == R.Delete(c, Key(s)).(tasks := c.tasks[t := R.Close(R.SubId(r), true)])
  {
    var c := Last(before).control;
    joint, j := GoControl(x, before, R.CloseBegin(t, R.SubId(r)));
    joint, j := GoControl(x, joint, R.CloseDelete(t));
    assert j.control.tasks == c.tasks[t := R.Close(R.SubId(r), true)];
  }

  /** The whole `close`. */
  lemma CloseAlone(x: Scene, before: JointRun, t: R.TaskId, r: ReplicaId, s: SessionId)
    returns (joint: JointRun, j: Joint)
    requires IsScript(x, before)
    requires var c := Last(before).control;
             t !in c.tasks && R.SubId(r) in c.replicas && c.replicas[R.SubId(r)].session == Key(s)
    ensures IsScript(x, joint) && j == Last(joint) && j.data == Last(before).data
    ensures j.control == R.Announce(R.Delete(Last(before).control, Key(s)), Key(s))
  {
    joint, j := DeleteAlone(x, before, t, r, s);
    joint, j := GoControl(x, joint, R.CloseNotify(t));
    assert j.control.tasks == Last(before).control.tasks;
  }

  /** A `start` that is through takes the ends for its role. */
  lemma TakeAlone(x: Scene, before: JointRun, t: R.TaskId, r: ReplicaId) returns (joint: JointRun, j: Joint)
    requires IsScript(x, before) && IsObject(Last(before), r)
    requires IsThrough(Last(before).control, t) && Last(before).control.tasks[t].me == R.SubId(r)
    requires Last(before).control.locks == map[]
    requires var net := Last(before).data;
             net.replicas[r].phase == Idle && net.replicas[r].node in net.log
    ensures IsScript(x, joint) && j == Last(joint)
    ensures var c := Last(before).control;
            var owner := c.tasks[t].at.owner.value.uuid;
            && j.control == c.(tasks := c.tasks - {t}) && Enabled(Last(before).data, TakeStep(x.choose, r, owner))
            && j.data == Perform(Last(before).data, TakeStep(x.choose, r, owner))
  {
    joint, j := Go(x, before, Take(t));
    assert j.control.locks == map[];
  }

  /** A `start` from its beginning to the take. */
  lemma JoinAlone(x: Scene, before: JointRun, t: R.TaskId, r: ReplicaId, s: SessionId)
    returns (joint: JointRun, j: Joint)
    requires IsScript(x, before) && IsObject(Last(before), r)
    requires var c := Last(before).control;
             && t !in c.tasks && R.Alive(c, R.SubId(r)) && c.replicas[R.SubId(r)].session == Key(s)
             && Key(s) in c.kv && c.locks == map[]
    requires var net := Last(before).data;
             net.replicas[r].phase == Idle && net.replicas[r].node in net.log
    ensures IsScript(x, joint) && j == Last(joint)
    ensures var c := Last(before).control;
            var record := R.ClaimIfFree(c.kv[Key(s)], R.SubId(r));
            && j.control == c.(kv := c.kv[Key(s) := record], written := c.written[Key(s) := record.main])
            && record.main.Some?
            && Enabled(Last(before).data, TakeStep(x.choose, r, record.main.value.uuid))
            && j.data == Perform(Last(before).data, TakeStep(x.choose, r, record.main.value.uuid))
  {
    joint, j := StartAlone(x, before, t, r, s);
    joint, j := TakeAlone(x, joint, t, r);
    assert j.control.tasks == Last(before).control.tasks;
  }

  // ---------------------------------------------------------------------------------------------------------
  // Objects, wherever they are.

  /** Two objects of session `s` take part. */
  predicate AreTwo(members: map<ReplicaId, Member>, s: SessionId, a: ReplicaId, b: ReplicaId) {
    a in members && b in members && a != b && members[a].session == members[b].session == s
  }

  /** Objects `a` and `b` of session `s` stand in a cluster in which no call is under way and nobody owns the record. */
  predicate AreReady(members: map<ReplicaId, Member>, c: R.Cluster, s: SessionId, a: ReplicaId, b: ReplicaId)
    requires AreTwo(members, s, a, b)
  {
    && members[a].node in c.nodes && members[b].node in c.nodes && c.down == {} && c.locks == map[] && c.tasks == map[]
    && c.kv == map[Key(s) := R.Record(Key(s), URL, None)]
    && c.replicas == map[R.SubId(a) := Object(s, members[a].node), R.SubId(b) := Object(s, members[b].node)]
    && c.maps == map[(members[b].node, Key(s)) := R.SubId(b)][(members[a].node, Key(s)) := R.SubId(a)]
  }

  /** `create` makes `a` and a `find` makes `b`: on one node the `find` comes before `create` has published. */
  lemma TwoObjects(x: Scene, nodes: set<NodeId>, s: SessionId, a: ReplicaId, b: ReplicaId)
    returns (joint: JointRun, j: Joint)
    requires AreTwo(x.members, s, a, b) && x.members[a].node in nodes && x.members[b].node in nodes
    ensures IsScript(x, joint) && j == Last(joint) && j.data == Init(x.members)
    ensures j.control.nodes == nodes && AreReady(x.members, j.control, s, a, b)
  {
    var na, nb := x.members[a].node, x.members[b].node;
    joint, j := PutAlone(x, nodes, na, s, a);
    if na == nb {
      joint, j := FindAlone(x, joint, 1, nb, s, b);
      joint, j := PublishAlone(x, joint, na, s, a);
    } else {
      joint, j := PublishAlone(x, joint, na, s, a);
      joint, j := FindAlone(x, joint, 1, nb, s, b);
    }
  }

  // ---------------------------------------------------------------------------------------------------------
  // What the data plane does alone.

  lemma TookSub(was: Net, r: ReplicaId) returns (net: Net)
    requires Enabled(was, TakeSub(r)) && was.replicas[r].roles == {} && was.log[was.replicas[r].node] == []
    ensures net == Perform(was, TakeSub(r))
    ensures net == Set(was, r, was.replicas[r].(phase := Running(Sub), read := 0, roles := {Sub}))
  {
    net := Perform(was, TakeSub(r));
    assert net.replicas[r].roles == {Sub};
  }

  lemma TookMain(was: Net, r: ReplicaId) returns (net: Net)
    requires Enabled(was, TakeMain(r)) && was.replicas[r].roles == {} && was.log[was.replicas[r].node] == []
    ensures net == Perform(was, TakeMain(r))
    ensures net == Set(was, r, was.replicas[r].(phase := Connecting, read := 0, roles := {Main}))
  {
    net := Perform(was, TakeMain(r));
    assert net.replicas[r].roles == {Main};
  }

  /** The node has handled nothing yet, or has passed the first event on and nothing else. */
  predicate IsFresh(net: Net, n: NodeId) {
    n in net.log && n in net.handled && (net.log[n] == [0] || (net.log[n] == [] && net.handled[n] == {}))
  }

  /** Object `r` of session `s` is relaying as a main that has heard nothing yet. */
  predicate IsWaiting(net: Net, r: ReplicaId, s: SessionId) {
    && r in net.replicas && net.replicas[r].session == s && net.replicas[r].phase == Running(Main)
    && net.replicas[r].read == 0 && IsFresh(net, net.replicas[r].node)
  }

  /** The node of `r` has passed the only event on. */
  lemma PassAlone(x: Scene, before: JointRun, r: ReplicaId, s: SessionId) returns (joint: JointRun, j: Joint)
    requires IsScript(x, before) && |Last(before).data.bus| == 1 && IsWaiting(Last(before).data, r, s)
    ensures IsScript(x, joint) && j == Last(joint) && IsWaiting(j.data, r, s)
    ensures var was := Last(before).data;
            && j.data == was.(log := was.log[was.replicas[r].node := [0]], handled := j.data.handled)
            && forall n :: IsFresh(was, n) ==> IsFresh(j.data, n)
  {
    joint, j := before, Last(before);
    var n := j.data.replicas[r].node;
    if j.data.log[n] == [] {
      assert j.data.log[n] + [0] == [0];
      joint, j := GoData(x, joint, Handle(n, 0));
    }
    assert j.data.log == Last(before).data.log[n := [0]];
  }

  /** The node of `r` passes the only event on, and `r` offers its message. */
  lemma HearAlone(x: Scene, before: JointRun, r: ReplicaId, s: SessionId, m: Message)
    returns (joint: JointRun, j: Joint)
    requires IsScript(x, before) && Last(before).data.bus == [ToMain(s, m)] && IsWaiting(Last(before).data, r, s)
    ensures IsScript(x, joint) && j == Last(joint)
    ensures var was := Last(before).data;
            && j.data.bus == was.bus && j.data.offers == was.offers + [Offer(m, r, Some(0))]
            && j.data.replicas == was.replicas[r := was.replicas[r].(read := 1)]
            && forall q :: q != r && IsWaiting(was, q, s) ==> IsWaiting(j.data, q, s)
  {
    joint, j := PassAlone(x, before, r, s);
    joint, j := GoData(x, joint, ReadToMain(r));
  }

  /** Two mains that wait for the only event on the bus both offer its message. */
  lemma BothHear(x: Scene, before: JointRun, a: ReplicaId, b: ReplicaId, s: SessionId, m: Message)
    returns (joint: JointRun)
    requires IsScript(x, before) && Last(before).data.bus == [ToMain(s, m)] && Last(before).data.offers == []
    requires a != b && IsWaiting(Last(before).data, a, s) && IsWaiting(Last(before).data, b, s)
    ensures IsScript(x, joint) && !ClientAtMostOnce(Last(joint).data, s)
  {
    var j;
    joint, j := HearAlone(x, before, a, s, m);
    joint, j := HearAlone(x, joint, b, s, m);
    assert j.data.offers == [Offer(m, a, Some(0)), Offer(m, b, Some(0))];
    assert j.data.offers[0].message == j.data.offers[1].message && InSession(j.data, a, s);
  }
}
