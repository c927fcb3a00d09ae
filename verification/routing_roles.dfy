/**
 * Which fixed assignments of relay roles forward every client message at most once: exactly those in which no session
 * has a sub beside two mains. The role choice written in `start` is not one of them; the documented one is.
 */
module RoutingRoles {
  import opened Prelude
  import opened Routing

  type Assignment = map<ReplicaId, Role>

  /** So far every object has relayed only in the role it is assigned. */
  ghost predicate Obeys(net: Net, roles: Assignment) {
    forall r :: r in net.replicas ==> forall role :: role in net.replicas[r].roles ==> r in roles && roles[r] == role
  }

  predicate IsMember(members: map<ReplicaId, Member>, roles: Assignment, r: ReplicaId, s: SessionId, role: Role) {
    r in members && members[r].session == s && r in roles && roles[r] == role
  }

  /** Some session has a sub and two mains. */
  ghost predicate Overfull(members: map<ReplicaId, Member>, roles: Assignment) {
    exists a, b, c, s ::
      && a != b && IsMember(members, roles, a, s, Main) && IsMember(members, roles, b, s, Main)
      && IsMember(members, roles, c, s, Sub)
  }

  /** No run whose objects obey `roles` forwards a client message twice. */
  ghost predicate ForwardsOnce(members: map<ReplicaId, Member>, roles: Assignment) {
    forall steps, s ::
      Exec(members, steps).Some? && Obeys(Exec(members, steps).value, roles) ==>
        ClientAtMostOnce(Exec(members, steps).value, s)
  }

  // The objects of a run are its members, whatever happens.

  lemma SessionStays(net: Net, e: Step)
    requires Enabled(net, e) && !e.Handle? && !e.Lose?
    ensures e.r in net.replicas && e.r in Perform(net, e).replicas
    ensures Perform(net, e).replicas[e.r].session == net.replicas[e.r].session
  {
  }

  lemma MemberStep(net: Net, e: Step)
    requires Enabled(net, e)
    ensures Perform(net, e).replicas.Keys == net.replicas.Keys
    ensures forall r :: r in net.replicas ==> Perform(net, e).replicas[r].session == net.replicas[r].session
  {
    OneMoves(net, e);
    if !e.Handle? && !e.Lose? {
      SessionStays(net, e);
    }
  }

  lemma {:induction false} MembersStay(members: map<ReplicaId, Member>, steps: seq<Step>)
    requires Exec(members, steps).Some?
    ensures var net := Exec(members, steps).value;
            && net.replicas.Keys == members.Keys
            && forall r :: r in members ==> net.replicas[r].session == members[r].session
  {
    if steps != [] {
      MembersStay(members, steps[..|steps| - 1]);
      MemberStep(Exec(members, steps[..|steps| - 1]).value, steps[|steps| - 1]);
    }
  }

  lemma NotOverfullForwardsOnce(members: map<ReplicaId, Member>, roles: Assignment)
    requires !Overfull(members, roles)
    ensures ForwardsOnce(members, roles)
  {
    forall steps, s | Exec(members, steps).Some? && Obeys(Exec(members, steps).value, roles)
      ensures ClientAtMostOnce(Exec(members, steps).value, s)
    {
      var net := Exec(members, steps).value;
      MembersStay(members, steps);
      if Contended(net, s) {
        var a, b, c :| && a != b && InSession(net, a, s) && InSession(net, b, s) && InSession(net, c, s)
          && Main in net.replicas[a].roles && Main in net.replicas[b].roles && Sub in net.replicas[c].roles;
        assert IsMember(members, roles, a, s, Main) && IsMember(members, roles, b, s, Main);
        assert IsMember(members, roles, c, s, Sub);
      }
      ClientMessagesOnce(members, steps, s);
    }
  }

  // A run in which the message of a sub reaches two mains.

  lemma Then(members: map<ReplicaId, Member>, steps: seq<Step>, net: Net, e: Step) returns (longer: seq<Step>, d: Net)
    requires Exec(members, steps) == Some(net) && Enabled(net, e)
    ensures longer == steps + [e] && d == Perform(net, e) && Exec(members, longer) == Some(d)
  {
    longer, d := steps + [e], Perform(net, e);
    assert longer[..|longer| - 1] == steps;
  }

  /** `c` is relaying as a sub with one message to forward. */
  lemma SubReady(members: map<ReplicaId, Member>, c: ReplicaId) returns (steps: seq<Step>, net: Net)
    requires c in members
    ensures Exec(members, steps) == Some(net)
    ensures var m := members[c];
            net == Set(Init(members), c, Replica(m.session, m.node, Running(Sub), 1, 0, 0, 0, {Sub}))
  {
    steps, net := [], Init(members);
    steps, net := Then(members, steps, net, Accept(c));
    steps, net := Then(members, steps, net, TakeSub(c));
    assert net.replicas[c].roles == {Sub};
    assert net.replicas == Init(members).replicas[c := net.replicas[c]];
  }

  /** `r` becomes a main. */
  lemma MainReady(members: map<ReplicaId, Member>, before: seq<Step>, was: Net, r: ReplicaId)
    returns (steps: seq<Step>, net: Net)
    requires Exec(members, before) == Some(was) && r in was.replicas && r in members
    requires was.replicas[r] == Replica(members[r].session, members[r].node, Idle, 0, 0, 0, 0, {})
    requires members[r].node in was.log && was.log[members[r].node] == []
    ensures Exec(members, steps) == Some(net)
    ensures net == Set(was, r, Replica(members[r].session, members[r].node, Running(Main), 0, 0, 0, 0, {Main}))
  {
    steps, net := Then(members, before, was, TakeMain(r));
    steps, net := Then(members, steps, net, Connect(r));
    assert net.replicas[r].roles == {Main};
    assert net.replicas == was.replicas[r := net.replicas[r]];
  }

  /** Node `n` passes the only event on, unless it has done so. */
  lemma NodeHandles(members: map<ReplicaId, Member>, before: seq<Step>, was: Net, n: NodeId)
    returns (steps: seq<Step>, net: Net)
    requires Exec(members, before) == Some(was) && |was.bus| == 1
    requires n in was.log && n in was.handled && (was.log[n] == [0] || (was.log[n] == [] && was.handled[n] == {}))
    ensures Exec(members, steps) == Some(net)
    ensures net == was.(log := was.log[n := [0]], handled := net.handled) && net.handled.Keys == was.handled.Keys
    ensures forall k :: k in was.handled && k != n ==> net.handled[k] == was.handled[k]
  {
    steps, net := before, was;
    if was.log[n] == [] {
      steps, net := Then(members, steps, net, Handle(n, 0));
      assert was.log[n] + [0] == [0];
    }
    assert net.log == was.log[n := [0]];
  }

  /** `r` reads the first event of its node and offers the message. */
  lemma MainReads(members: map<ReplicaId, Member>, before: seq<Step>, was: Net, r: ReplicaId, message: Message)
    returns (steps: seq<Step>, net: Net)
    requires Exec(members, before) == Some(was) && r in was.replicas
    requires was.replicas[r].phase == Running(Main) && was.replicas[r].read == 0
    requires was.bus == [ToMain(was.replicas[r].session, message)]
    requires var n := was.replicas[r].node;
             n in was.log && n in was.handled && (was.log[n] == [0] || (was.log[n] == [] && was.handled[n] == {}))
    ensures Exec(members, steps) == Some(net)
    ensures net.offers == was.offers + [Offer(message, r, Some(0))] && net.bus == was.bus
    ensures net.replicas == was.replicas[r := was.replicas[r].(read := 1)]
    ensures net.log == was.log[was.replicas[r].node := [0]] && net.handled.Keys == was.handled.Keys
    ensures forall k :: k in was.handled && k != was.replicas[r].node ==> net.handled[k] == was.handled[k]
  {
    steps, net := NodeHandles(members, before, was, was.replicas[r].node);
    steps, net := Then(members, steps, net, ReadToMain(r));
  }

  /** Two mains are waiting for the message that a sub has sent. */
  lemma MessageSent(members: map<ReplicaId, Member>, roles: Assignment, s: SessionId,
                    a: ReplicaId, b: ReplicaId, c: ReplicaId) returns (steps: seq<Step>, net: Net)
    requires a != b && IsMember(members, roles, a, s, Main) && IsMember(members, roles, b, s, Main)
    requires IsMember(members, roles, c, s, Sub)
    ensures Exec(members, steps) == Some(net) && Obeys(net, roles)
    ensures net == Init(members).(replicas := net.replicas, bus := [ToMain(s, Message(c, 0))])
    ensures a in net.replicas && net.replicas[a] == Replica(s, members[a].node, Running(Main), 0, 0, 0, 0, {Main})
    ensures b in net.replicas && net.replicas[b] == Replica(s, members[b].node, Running(Main), 0, 0, 0, 0, {Main})
  {
    steps, net := SubReady(members, c);
    steps, net := MainReady(members, steps, net, a);
    steps, net := MainReady(members, steps, net, b);
    steps, net := SubForwards(members, steps, net, c, s);
  }

  lemma OverfullForwardsTwice(members: map<ReplicaId, Member>, roles: Assignment, s: SessionId,
                              a: ReplicaId, b: ReplicaId, c: ReplicaId) returns (steps: seq<Step>)
    requires a != b && IsMember(members, roles, a, s, Main) && IsMember(members, roles, b, s, Main)
    requires IsMember(members, roles, c, s, Sub)
    ensures Exec(members, steps).Some? && Obeys(Exec(members, steps).value, roles)
    ensures !ClientAtMostOnce(Exec(members, steps).value, s)
  {
    var net;
    steps, net := MessageSent(members, roles, s, a, b, c);
    steps, net := MainReads(members, steps, net, a, Message(c, 0));
    steps, net := MainReads(members, steps, net, b, Message(c, 0));
    assert net.offers[0].message == net.offers[1].message && InSession(net, net.offers[0].relay, s);
  }

  lemma SubForwards(members: map<ReplicaId, Member>, before: seq<Step>, was: Net, c: ReplicaId, s: SessionId)
    returns (steps: seq<Step>, net: Net)
    requires Exec(members, before) == Some(was) && c in was.replicas && was.bus == []
    requires was.replicas[c].phase == Running(Sub) && was.replicas[c].accepted == 1 && was.replicas[c].taken == 0
    requires was.replicas[c].session == s
    ensures Exec(members, steps) == Some(net)
    ensures net == Send(Set(was, c, was.replicas[c].(taken := 1)), ToMain(s, Message(c, 0)))
    ensures net.bus == [ToMain(s, Message(c, 0))]
  {
    steps, net := Then(members, before, was, ForwardBus(c));
  }

  /** A fixed assignment of roles forwards every client message at most once iff no session has a sub and two mains. */
  lemma ForwardsOnceExactly(members: map<ReplicaId, Member>, roles: Assignment)
    ensures ForwardsOnce(members, roles) <==> !Overfull(members, roles)
  {
    if Overfull(members, roles) {
      var a, b, c, s :| a != b && IsMember(members, roles, a, s, Main) && IsMember(members, roles, b, s, Main)
        && IsMember(members, roles, c, s, Sub);
      var steps := OverfullForwardsTwice(members, roles, s, a, b, c);
      assert !ForwardsOnce(members, roles);
    } else {
      NotOverfullForwardsOnce(members, roles);
    }
  }

  // ---------------------------------------------------------------------------------------------------------
  // The two role choices.

  /** The role that the comments on the events ask for: the owner of the record talks to the upstream server. */
  function IntendedRole(me: ReplicaId, owner: ReplicaId): Role {
    if me == owner then Main else Sub
  }

  /** The role that `start` goes on to take. */
  function WrittenRole(me: ReplicaId, owner: ReplicaId): Role {
    if me == owner then Sub else Main
  }

  /** Everybody decides on its session's one owner. */
  function Assign(members: map<ReplicaId, Member>, owners: map<SessionId, ReplicaId>,
                  choose: (ReplicaId, ReplicaId) -> Role): Assignment {
    map r | r in members && members[r].session in owners :: choose(r, owners[members[r].session])
  }

  lemma IntendedRolesForwardOnce(members: map<ReplicaId, Member>, owners: map<SessionId, ReplicaId>)
    ensures ForwardsOnce(members, Assign(members, owners, IntendedRole))
  {
    NotOverfullForwardsOnce(members, Assign(members, owners, IntendedRole));
  }

  /** As written, a message is forwarded twice as soon as two further objects start beside the owner. */
  lemma WrittenRolesForwardOnceExactly(members: map<ReplicaId, Member>, owners: map<SessionId, ReplicaId>)
    ensures ForwardsOnce(members, Assign(members, owners, WrittenRole)) <==>
            !exists s, a, b :: Outnumbered(members, owners, s, a, b)
  {
    var roles := Assign(members, owners, WrittenRole);
    ForwardsOnceExactly(members, roles);
    forall s, a, b | Outnumbered(members, owners, s, a, b) ensures Overfull(members, roles) {
      assert IsMember(members, roles, a, s, Main) && IsMember(members, roles, b, s, Main);
      assert IsMember(members, roles, owners[s], s, Sub);
    }
    if Overfull(members, roles) {
      var a, b, c, s :| a != b && IsMember(members, roles, a, s, Main) && IsMember(members, roles, b, s, Main)
        && IsMember(members, roles, c, s, Sub);
      assert Outnumbered(members, owners, s, a, b);
    }
  }

  /** Objects `a` and `b` of session `s` stand beside its owner. */
  predicate Outnumbered(members: map<ReplicaId, Member>, owners: map<SessionId, ReplicaId>, s: SessionId,
                        a: ReplicaId, b: ReplicaId) {
    && s in owners && owners[s] in members && members[owners[s]].session == s
    && a in members && members[a].session == s && b in members && members[b].session == s
    && a != b && a != owners[s] && b != owners[s]
  }

  // ---------------------------------------------------------------------------------------------------------
  // Server messages: an object that relays in both roles can hear its own broadcast again.

  ghost predicate DeliversOnce(members: map<ReplicaId, Member>, r: ReplicaId, allowed: set<Role>) {
    forall steps :: PlaysOnly(members, steps, r, allowed) ==> ServerAtMostOnce(Exec(members, steps).value, r)
  }

  /** After `steps`, `r` has relayed in no role but the `allowed` ones. */
  ghost predicate PlaysOnly(members: map<ReplicaId, Member>, steps: seq<Step>, r: ReplicaId, allowed: set<Role>) {
    && Exec(members, steps).Some? && r in Exec(members, steps).value.replicas
    && Exec(members, steps).value.replicas[r].roles <= allowed
  }

  /** `r` has received one server message as a main, sent it to the subs, and come back as a sub. */
  lemma MainTurnedSub(members: map<ReplicaId, Member>, r: ReplicaId) returns (steps: seq<Step>, net: Net)
    requires r in members
    ensures Exec(members, steps) == Some(net) && r in net.replicas
    ensures var m := members[r];
            && net.replicas[r] == Replica(m.session, m.node, Running(Sub), 0, 0, 1, 0, {Main, Sub})
            && net.bus == [ToSub(m.session, Message(r, 0))] && net.deliveries == [Delivery(Message(r, 0), r, None)]
            && m.node in net.log && net.log[m.node] == [] && m.node in net.handled && net.handled[m.node] == {}
  {
    steps, net := [], Init(members);
    steps, net := MainReady(members, steps, net, r);
    steps, net := Then(members, steps, net, Emit(r));
    steps, net := Then(members, steps, net, End(r));
    steps, net := Then(members, steps, net, TakeSub(r));
    assert net.replicas[r].roles == {Main, Sub};
  }

  lemma RoleChangeDeliversTwice(members: map<ReplicaId, Member>, r: ReplicaId) returns (steps: seq<Step>)
    requires r in members
    ensures Exec(members, steps).Some? && r in Exec(members, steps).value.replicas
    ensures Exec(members, steps).value.replicas[r].roles == {Main, Sub}
    ensures !ServerAtMostOnce(Exec(members, steps).value, r)
  {
    var net;
    steps, net := MainTurnedSub(members, r);
    steps, net := NodeHandles(members, steps, net, members[r].node);
    steps, net := Then(members, steps, net, ReadToSub(r));
    assert net.deliveries[0].message == net.deliveries[1].message;
  }

  /** The client channel of `r` gets every server message at most once iff `r` keeps to one role. */
  lemma DeliversOnceExactly(members: map<ReplicaId, Member>, r: ReplicaId, allowed: set<Role>)
    requires r in members
    ensures DeliversOnce(members, r, allowed) <==> !({Main, Sub} <= allowed)
  {
    if {Main, Sub} <= allowed {
      var steps := RoleChangeDeliversTwice(members, r);
      assert PlaysOnly(members, steps, r, allowed);
      assert !DeliversOnce(members, r, allowed);
    } else {
      forall steps | PlaysOnly(members, steps, r, allowed)
        ensures ServerAtMostOnce(Exec(members, steps).value, r)
      {
        ServerMessagesOnce(members, steps, r);
      }
    }
  }
}
