/**
 * The two planes together: session objects elect an owner through the shared record, take the relay roles that the
 * election gives them, and relay. Session object `r` of the data plane is the one with sub-session id `r` in the
 * control plane.
 */
module RaftRoles {
  import opened Prelude
  import R = RaftCluster
  import opened RaftRegister
  import opened Routing
  import opened RoutingRoles

  // ---------------------------------------------------------------------------------------------------------
  // What a run of the election says about roles.

  /** Some `start` of object `r` came out of its section on session `s` with the owner `owner`. */
  ghost predicate Elected(run: R.Run, i: nat, s: SessionId, r: ReplicaId, owner: ReplicaId)
    requires R.IsRun(run)
  {
    && i < |run.steps|
    && Decides(run.states[i], run.steps[i], R.SessionId(s)) == Some(R.SubId(owner))
    && run.states[i].tasks[run.steps[i].task].me == R.SubId(r)
  }

  /** No owner that was decided on for session `s` gives its claim up afterwards. */
  ghost predicate NeverGivenUp(run: R.Run, s: SessionId)
    requires R.IsRun(run)
  {
    forall i: nat, r, owner, k: nat ::
      Elected(run, i, s, r, owner) && i < k < |run.steps| ==> !Clears(run.states[k], run.steps[k], R.SubId(owner))
  }

  /** Object `r` of session `s` takes `role` by `choose` after one of its starts. */
  ghost predicate Chosen(run: R.Run, choose: (ReplicaId, ReplicaId) -> Role, s: SessionId, r: ReplicaId, role: Role)
    requires R.IsRun(run)
  {
    exists i: nat, owner :: Elected(run, i, s, r, owner) && role == choose(r, owner)
  }

  /** Every role that was relayed in was chosen so. */
  ghost predicate Grounded(run: R.Run, choose: (ReplicaId, ReplicaId) -> Role, net: Net)
    requires R.IsRun(run)
  {
    forall r, role :: r in net.replicas && role in net.replicas[r].roles ==>
      Chosen(run, choose, net.replicas[r].session, r, role)
  }

  /** As long as no elected owner of a session stops, all its elections name one owner. */
  lemma OneOwner(run: R.Run, i: nat, j: nat, s: SessionId, r: ReplicaId, r': ReplicaId,
                 owner: ReplicaId, owner': ReplicaId)
    requires R.IsRun(run) && NeverGivenUp(run, s)
    requires Elected(run, i, s, r, owner) && Elected(run, j, s, r', owner')
    ensures owner == owner'
  {
    if i <= j {
      DecisionsAgree(run, i, j, R.SessionId(s), R.SubId(owner));
    } else {
      DecisionsAgree(run, j, i, R.SessionId(s), R.SubId(owner'));
    }
  }

  lemma OneRole(run: R.Run, choose: (ReplicaId, ReplicaId) -> Role, s: SessionId, r: ReplicaId, role: Role, role': Role)
    requires R.IsRun(run) && NeverGivenUp(run, s)
    requires Chosen(run, choose, s, r, role) && Chosen(run, choose, s, r, role')
    ensures role == role'
  {
    var i: nat, owner :| Elected(run, i, s, r, owner) && role == choose(r, owner);
    var j: nat, owner' :| Elected(run, j, s, r, owner') && role' == choose(r, owner');
    OneOwner(run, i, j, s, r, r, owner, owner');
  }

  lemma OneMain(run: R.Run, s: SessionId, a: ReplicaId, b: ReplicaId)
    requires R.IsRun(run) && NeverGivenUp(run, s)
    requires Chosen(run, IntendedRole, s, a, Main) && Chosen(run, IntendedRole, s, b, Main)
    ensures a == b
  {
    var i: nat, owner :| Elected(run, i, s, a, owner) && Main == IntendedRole(a, owner);
    var j: nat, owner' :| Elected(run, j, s, b, owner') && Main == IntendedRole(b, owner');
    OneOwner(run, i, j, s, a, b, owner, owner');
  }

  lemma ElectedClientsOnce(run: R.Run, members: map<ReplicaId, Member>, steps: seq<Step>, s: SessionId)
    requires R.IsRun(run) && NeverGivenUp(run, s)
    requires Exec(members, steps).Some? && Grounded(run, IntendedRole, Exec(members, steps).value)
    ensures ClientAtMostOnce(Exec(members, steps).value, s)
  {
    var net := Exec(members, steps).value;
    if Contended(net, s) {
      var a, b, c :| a != b && InSession(net, a, s) && InSession(net, b, s) && InSession(net, c, s)
        && Main in net.replicas[a].roles && Main in net.replicas[b].roles && Sub in net.replicas[c].roles;
      OneMain(run, s, a, b);
    } else {
      ClientMessagesOnce(members, steps, s);
    }
  }

  /** Server messages do not depend on which way round the roles are chosen. */
  lemma ElectedServersOnce(run: R.Run, choose: (ReplicaId, ReplicaId) -> Role,
                           members: map<ReplicaId, Member>, steps: seq<Step>, r: ReplicaId)
    requires R.IsRun(run) && Exec(members, steps).Some? && Grounded(run, choose, Exec(members, steps).value)
    requires var net := Exec(members, steps).value;
             r in net.replicas && NeverGivenUp(run, net.replicas[r].session)
    ensures ServerAtMostOnce(Exec(members, steps).value, r)
  {
    var net := Exec(members, steps).value;
    if {Main, Sub} <= net.replicas[r].roles {
      OneRole(run, choose, net.replicas[r].session, r, Main, Sub);
    }
    ServerMessagesOnce(members, steps, r);
  }

  // ---------------------------------------------------------------------------------------------------------
  // Both planes in one state.

  datatype Joint = Joint(control: R.Cluster, data: Net)

  /** A step of one plane alone, or a `start` that is through its section and takes the channel ends for its role. */
  datatype JointStep = Control(e: R.Step) | Data(d: Step) | Take(t: R.TaskId)

  /** The session object `r` is the same in both planes. */
  predicate IsObject(j: Joint, r: ReplicaId) {
    && R.SubId(r) in j.control.replicas && r in j.data.replicas
    && j.control.replicas[R.SubId(r)].session == R.SessionId(j.data.replicas[r].session)
    && j.control.replicas[R.SubId(r)].node == j.data.replicas[r].node
  }

  function TakeStep(choose: (ReplicaId, ReplicaId) -> Role, r: ReplicaId, owner: ReplicaId): Step {
    if choose(r, owner).Main? then TakeMain(r) else TakeSub(r)
  }

  predicate IsThrough(c: R.Cluster, t: R.TaskId) {
    t in c.tasks && c.tasks[t].Start? && c.tasks[t].at.Released? && c.tasks[t].at.owner.Some?
  }

  predicate CanStep(choose: (ReplicaId, ReplicaId) -> Role, j: Joint, step: JointStep) {
    match step
    case Control(e) => R.Enabled(j.control, e)
    case Data(d) => !d.TakeMain? && !d.TakeSub? && Enabled(j.data, d)
    case Take(t) =>
      && IsThrough(j.control, t) && IsObject(j, j.control.tasks[t].me.uuid)
      && Enabled(j.data, TakeStep(choose, j.control.tasks[t].me.uuid, j.control.tasks[t].at.owner.value.uuid))
  }

  function AfterStep(choose: (ReplicaId, ReplicaId) -> Role, j: Joint, step: JointStep): Joint
    requires CanStep(choose, j, step)
  {
    match step
    case Control(e) => j.(control := R.Perform(j.control, e))
    case Data(d) => j.(data := Perform(j.data, d))
    // The call ends with the take; what goes on is its relay.
    case Take(t) =>
      var task := j.control.tasks[t];
      Joint(R.Perform(j.control, R.Abort(t)),
            Perform(j.data, TakeStep(choose, task.me.uuid, task.at.owner.value.uuid)))
  }

  datatype JointRun = JointRun(states: seq<Joint>, steps: seq<JointStep>)

  ghost predicate Goes(choose: (ReplicaId, ReplicaId) -> Role, run: JointRun, i: nat)
    requires i < |run.steps| && |run.states| == |run.steps| + 1
  {
    CanStep(choose, run.states[i], run.steps[i]) && run.states[i + 1] == AfterStep(choose, run.states[i], run.steps[i])
  }

  ghost predicate IsJointRun(members: map<ReplicaId, Member>, choose: (ReplicaId, ReplicaId) -> Role, run: JointRun) {
    && |run.states| == |run.steps| + 1
    && run.states[0] == Joint(R.Init(run.states[0].control.nodes), Init(members))
    && forall i :: 0 <= i < |run.steps| ==> Goes(choose, run, i)
  }

  function ControlOf(step: JointStep): Option<R.Step> {
    match step
    case Control(e) => Some(e)
    case Take(t) => Some(R.Abort(t))
    case Data(_) => None
  }

  /** At step `a` a `start` of session `s` decides on `owner`. */
  ghost predicate DecidesAt(run: JointRun, a: nat, s: SessionId, owner: ReplicaId)
    requires a < |run.steps| < |run.states|
  {
    && ControlOf(run.steps[a]).Some?
    && Decides(run.states[a].control, ControlOf(run.steps[a]).value, R.SessionId(s)) == Some(R.SubId(owner))
  }

  /** At step `b` a `stop` of `owner` gives its claim up. */
  ghost predicate GivesUpAt(run: JointRun, b: nat, owner: ReplicaId)
    requires b < |run.steps| < |run.states|
  {
    && ControlOf(run.steps[b]).Some?
    && Clears(run.states[b].control, ControlOf(run.steps[b]).value, R.SubId(owner))
  }

  ghost predicate KeepsOwner(run: JointRun, s: SessionId)
    requires |run.states| == |run.steps| + 1
  {
    forall a: nat, b: nat, owner ::
      a < b < |run.steps| && DecidesAt(run, a, s, owner) ==> !GivesUpAt(run, b, owner)
  }

  // ---------------------------------------------------------------------------------------------------------
  // A joint run seen from each plane.

  /** `run` is what the control plane does in the first `n` steps of `joint`; `at` says where each step comes from. */
  ghost predicate IsControlOf(joint: JointRun, n: nat, run: R.Run, at: seq<nat>)
    requires n <= |joint.steps| < |joint.states|
  {
    && R.IsRun(run) && |at| == |run.steps| && run.states[|run.steps|] == joint.states[n].control
    && (forall k :: 0 <= k < |at| ==> IsControlStepOf(joint, n, run, at, k))
    && forall k, l :: 0 <= k < l < |at| ==> at[k] < at[l]
  }

  ghost predicate IsControlStepOf(joint: JointRun, n: nat, run: R.Run, at: seq<nat>, k: nat)
    requires n <= |joint.steps| < |joint.states| && k < |at| == |run.steps| < |run.states|
  {
    && at[k] < n && ControlOf(joint.steps[at[k]]) == Some(run.steps[k])
    && run.states[k] == joint.states[at[k]].control
  }

  lemma ControlOneMore(joint: JointRun, n: nat, run: R.Run, at: seq<nat>, e: R.Step) returns (longer: R.Run)
    requires n < |joint.steps| < |joint.states| && IsControlOf(joint, n, run, at)
    requires ControlOf(joint.steps[n]) == Some(e) && R.Enabled(joint.states[n].control, e)
    requires joint.states[n + 1].control == R.Perform(joint.states[n].control, e)
    ensures IsControlOf(joint, n + 1, longer, at + [n])
    ensures longer.steps == run.steps + [e] && longer.states == run.states + [joint.states[n + 1].control]
  {
    longer := R.Run(run.states + [joint.states[n + 1].control], run.steps + [e]);
    forall i | 0 <= i < |longer.steps| ensures R.Follows(longer, i) {
      if i < |run.steps| {
        assert R.Follows(run, i);
      }
    }
    assert R.IsRun(longer);
    var m, at' := n + 1, at + [n];
    forall k | 0 <= k < |at'| ensures IsControlStepOf(joint, m, longer, at', k) {
      if k < |at| {
        assert IsControlStepOf(joint, n, run, at, k);
      }
    }
    forall k, l | 0 <= k < l < |at'| ensures at'[k] < at'[l] {
      assert IsControlStepOf(joint, n, run, at, k);
    }
  }

  lemma ControlStands(joint: JointRun, n: nat, run: R.Run, at: seq<nat>)
    requires n < |joint.steps| < |joint.states| && IsControlOf(joint, n, run, at)
    requires joint.states[n + 1].control == joint.states[n].control
    ensures IsControlOf(joint, n + 1, run, at)
  {
    var m := n + 1;
    forall k | 0 <= k < |at| ensures IsControlStepOf(joint, m, run, at, k) {
      assert IsControlStepOf(joint, n, run, at, k);
    }
  }

  /** What was elected in a run was elected in every longer one. */
  lemma StillGrounded(run: R.Run, longer: R.Run, choose: (ReplicaId, ReplicaId) -> Role, net: Net)
    requires R.IsRun(run) && R.IsRun(longer) && run.steps <= longer.steps && run.states <= longer.states
    requires Grounded(run, choose, net)
    ensures Grounded(longer, choose, net)
  {
    forall r, role | r in net.replicas && role in net.replicas[r].roles
      ensures Chosen(longer, choose, net.replicas[r].session, r, role)
    {
      assert Chosen(run, choose, net.replicas[r].session, r, role);
      var i: nat, owner :| Elected(run, i, net.replicas[r].session, r, owner) && role == choose(r, owner);
      assert Elected(longer, i, net.replicas[r].session, r, owner);
    }
  }

  /** A step of the data plane that is not a take gives no object a new role. */
  lemma RolesStep(net: Net, d: Step)
    requires Enabled(net, d) && !d.TakeMain? && !d.TakeSub?
    ensures Perform(net, d).replicas.Keys == net.replicas.Keys
    ensures forall r :: r in net.replicas ==> SameRoles(net.replicas[r], Perform(net, d).replicas[r])
  {
    OneMoves(net, d);
    if !d.Handle? && !d.Lose? {
      OwnRolesStep(net, d);
    }
  }

  predicate SameRoles(before: Replica, after: Replica) {
    after.session == before.session && after.roles == before.roles
  }

  lemma OwnRolesStep(net: Net, d: Step)
    requires Enabled(net, d) && !d.Handle? && !d.Lose? && !d.TakeMain? && !d.TakeSub?
    ensures d.r in net.replicas && d.r in Perform(net, d).replicas
    ensures SameRoles(net.replicas[d.r], Perform(net, d).replicas[d.r])
  {
  }

  lemma TakeGivesRole(net: Net, choose: (ReplicaId, ReplicaId) -> Role, r: ReplicaId, owner: ReplicaId)
    requires Enabled(net, TakeStep(choose, r, owner))
    ensures var after := Perform(net, TakeStep(choose, r, owner));
            && r in net.replicas && after.replicas.Keys == net.replicas.Keys
            && (forall q :: q in net.replicas ==> after.replicas[q].session == net.replicas[q].session)
            && (forall q :: q in net.replicas && q != r ==> after.replicas[q].roles == net.replicas[q].roles)
            && after.replicas[r].roles == net.replicas[r].roles + {choose(r, owner)}
  {
  }

  /** The role that a `start` takes was elected in the run that brought it through its section. */
  lemma TakenIsChosen(run: R.Run, choose: (ReplicaId, ReplicaId) -> Role, j: Joint, t: R.TaskId)
    requires R.IsRun(run) && run.states[|run.steps|] == j.control
    requires IsThrough(j.control, t) && IsObject(j, j.control.tasks[t].me.uuid)
    ensures var task := j.control.tasks[t];
            var r := task.me.uuid;
            Chosen(run, choose, j.data.replicas[r].session, r, choose(r, task.at.owner.value.uuid))
  {
    var task := j.control.tasks[t];
    var r, owner := task.me.uuid, task.at.owner.value;
    assert task.me == R.SubId(r);
    var i := ReplyIsCarried(run, |run.steps|, t, task.me, task.at.owner);
    assert Elected(run, i, j.data.replicas[r].session, r, owner.uuid);
  }

  lemma GroundedAfterTake(run: R.Run, choose: (ReplicaId, ReplicaId) -> Role, j: Joint, t: R.TaskId)
    requires R.IsRun(run) && run.states[|run.steps|] == j.control && Grounded(run, choose, j.data)
    requires CanStep(choose, j, Take(t))
    ensures Grounded(run, choose, AfterStep(choose, j, Take(t)).data)
  {
    var task := j.control.tasks[t];
    TakeGivesRole(j.data, choose, task.me.uuid, task.at.owner.value.uuid);
    TakenIsChosen(run, choose, j, t);
  }

  lemma ProjectStart(members: map<ReplicaId, Member>, choose: (ReplicaId, ReplicaId) -> Role, joint: JointRun,
                     run: R.Run)
    requires IsJointRun(members, choose, joint) && run == R.Run([joint.states[0].control], [])
    ensures IsControlOf(joint, 0, run, []) && Grounded(run, choose, joint.states[0].data)
  {
    assert R.IsRun(run);
    assert forall r :: r in joint.states[0].data.replicas ==> joint.states[0].data.replicas[r].roles == {};
  }

  /** Each plane of a joint run is a run of its own, and the roles of the one come from the elections of the other. */
  lemma {:induction false} Project(members: map<ReplicaId, Member>, choose: (ReplicaId, ReplicaId) -> Role,
                                   joint: JointRun, n: nat)
    returns (run: R.Run, at: seq<nat>, steps: seq<Step>)
    requires IsJointRun(members, choose, joint) && n <= |joint.steps|
    ensures IsControlOf(joint, n, run, at) && Exec(members, steps) == Some(joint.states[n].data)
    ensures Grounded(run, choose, joint.states[n].data)
  {
    if n == 0 {
      run, at, steps := R.Run([joint.states[0].control], []), [], [];
      ProjectStart(members, choose, joint, run);
    } else {
      var before, at0, steps0 := Project(members, choose, joint, n - 1);
      run, at, steps := ProjectStep(members, choose, joint, n - 1, before, at0, steps0);
    }
  }

  lemma ProjectStep(members: map<ReplicaId, Member>, choose: (ReplicaId, ReplicaId) -> Role, joint: JointRun, n: nat,
                    before: R.Run, at0: seq<nat>, steps0: seq<Step>)
    returns (run: R.Run, at: seq<nat>, steps: seq<Step>)
    requires IsJointRun(members, choose, joint) && n < |joint.steps|
    requires IsControlOf(joint, n, before, at0) && Exec(members, steps0) == Some(joint.states[n].data)
    requires Grounded(before, choose, joint.states[n].data)
    ensures IsControlOf(joint, n + 1, run, at) && Exec(members, steps) == Some(joint.states[n + 1].data)
    ensures Grounded(run, choose, joint.states[n + 1].data)
  {
    var j := joint.states[n];
    assert Goes(choose, joint, n);
    match joint.steps[n]
    case Control(e) =>
      run := ControlOneMore(joint, n, before, at0, e);
      at, steps := at0 + [n], steps0;
      StillGrounded(before, run, choose, j.data);
    case Data(d) =>
      ControlStands(joint, n, before, at0);
      run, at, steps := before, at0, steps0 + [d];
      assert steps[..|steps0|] == steps0;
      RolesStep(j.data, d);
    case Take(t) =>
      var task := j.control.tasks[t];
      run := ControlOneMore(joint, n, before, at0, R.Abort(t));
      at := at0 + [n];
      steps := steps0 + [TakeStep(choose, task.me.uuid, task.at.owner.value.uuid)];
      assert steps[..|steps0|] == steps0;
      GroundedAfterTake(before, choose, j, t);
      StillGrounded(before, run, choose, joint.states[n + 1].data);
  }

  lemma OwnerIsKept(joint: JointRun, n: nat, run: R.Run, at: seq<nat>, s: SessionId)
    requires |joint.states| == |joint.steps| + 1 && n <= |joint.steps| && KeepsOwner(joint, s)
    requires IsControlOf(joint, n, run, at)
    ensures NeverGivenUp(run, s)
  {
    forall i: nat, r, owner, k: nat | Elected(run, i, s, r, owner) && i < k < |run.steps|
      ensures !Clears(run.states[k], run.steps[k], R.SubId(owner))
    {
      assert IsControlStepOf(joint, n, run, at, i) && IsControlStepOf(joint, n, run, at, k);
      assert DecidesAt(joint, at[i], s, owner) && !GivesUpAt(joint, at[k], owner);
    }
  }

  /**
   * With the role choice that the events' comments ask for: in every run of both planes together, as long as no owner
   * that was decided on for a session stops, each client message of that session reaches a transport at most once, and
   * each server message reaches the client channel of each of its objects at most once.
   */
  lemma ElectedRelaysForwardOnce(members: map<ReplicaId, Member>, joint: JointRun, s: SessionId)
    requires IsJointRun(members, IntendedRole, joint) && KeepsOwner(joint, s)
    ensures var net := joint.states[|joint.steps|].data;
            && ClientAtMostOnce(net, s)
            && forall r :: InSession(net, r, s) ==> ServerAtMostOnce(net, r)
  {
    var net := joint.states[|joint.steps|].data;
    var run, at, steps := Project(members, IntendedRole, joint, |joint.steps|);
    OwnerIsKept(joint, |joint.steps|, run, at, s);
    ElectedClientsOnce(run, members, steps, s);
    forall r | InSession(net, r, s) ensures ServerAtMostOnce(net, r) {
      ElectedServersOnce(run, IntendedRole, members, steps, r);
    }
  }

  /** The half about server messages holds for every role choice, the written one included. */
  lemma ServersOnce(members: map<ReplicaId, Member>, choose: (ReplicaId, ReplicaId) -> Role, joint: JointRun,
                    r: ReplicaId)
    requires IsJointRun(members, choose, joint) && r in joint.states[|joint.steps|].data.replicas
    requires KeepsOwner(joint, joint.states[|joint.steps|].data.replicas[r].session)
    ensures ServerAtMostOnce(joint.states[|joint.steps|].data, r)
  {
    var run, at, steps := Project(members, choose, joint, |joint.steps|);
    OwnerIsKept(joint, |joint.steps|, run, at, joint.states[|joint.steps|].data.replicas[r].session);
    ElectedServersOnce(run, choose, members, steps, r);
  }
}
