/**
 * The data plane read backwards: every count, position and message of a state as a recursion over the steps that led
 * there, and what follows about when a relay hears what.
 */
module RoutingHistory {
  import opened Prelude
  import opened Routing
  import opened RoutingRoles
  import Broadcast

  function Before(steps: seq<Step>): seq<Step>
    requires steps != []
  {
    steps[..|steps| - 1]
  }

  function Latest(steps: seq<Step>): Step
    requires steps != []
  {
    steps[|steps| - 1]
  }

  // ---------------------------------------------------------------------------------------------------------
  // What the steps say about one object.

  /** How many client messages object `r` has accepted. */
  function Accepts(steps: seq<Step>, r: ReplicaId): nat {
    if steps == [] then 0 else Accepts(Before(steps), r) + if Latest(steps) == Accept(r) then 1 else 0
  }

  /** How many server messages its transports have brought. */
  function Emits(steps: seq<Step>, r: ReplicaId): nat {
    if steps == [] then 0
    else Emits(Before(steps), r) + if Latest(steps) in {Emit(r), EmitLocal(r)} then 1 else 0
  }

  /** Its position in its clients' messages: each one taken moves it on, and a lag to the oldest one kept. */
  function Taken(steps: seq<Step>, r: ReplicaId): nat {
    if steps == [] then 0
    else
      var before, e := Before(steps), Latest(steps);
      if e in {ForwardDirect(r), ForwardBus(r), ForwardFail(r)} then Taken(before, r) + 1
      else if e == ClientLag(r) && Accepts(before, r) >= Broadcast.CAPACITY then Accepts(before, r) - Broadcast.CAPACITY
      else Taken(before, r)
  }

  /** The events that node `n` has passed on. */
  function Passed(steps: seq<Step>, n: NodeId): seq<nat> {
    if steps == [] then []
    else Passed(Before(steps), n) + if Latest(steps).Handle? && Latest(steps).n == n then [Latest(steps).i] else []
  }

  /** Those that it has passed on or lost. */
  function Heard(steps: seq<Step>, n: NodeId): set<nat> {
    if steps == [] then {}
    else
      var e := Latest(steps);
      Heard(Before(steps), n) + if (e.Handle? || e.Lose?) && e.n == n then {e.i} else {}
  }

  /** The position of `r` in the events that its node `n` passes on: a new relay begins at the end of them. */
  function ReadTo(steps: seq<Step>, r: ReplicaId, n: NodeId): nat {
    if steps == [] then 0
    else
      var before, e := Before(steps), Latest(steps);
      if e in {TakeMain(r), TakeSub(r)} then |Passed(before, n)|
      else if e in {ReadToMain(r), ReadToSub(r), ReadOther(r)} then ReadTo(before, r, n) + 1
      else if e == BusLag(r) && |Passed(before, n)| >= Broadcast.CAPACITY then |Passed(before, n)| - Broadcast.CAPACITY
      else ReadTo(before, r, n)
  }

  function PhaseOf(steps: seq<Step>, r: ReplicaId): Phase {
    if steps == [] then Idle
    else
      var e := Latest(steps);
      if e == TakeMain(r) then Connecting
      else if e == Connect(r) then Running(Main)
      else if e == ConnectFail(r) then Lost
      else if e == TakeSub(r) then Running(Sub)
      else if e == End(r) then Idle
      else PhaseOf(Before(steps), r)
  }

  function RolesOf(steps: seq<Step>, r: ReplicaId): set<Role> {
    if steps == [] then {}
    else
      var e := Latest(steps);
      RolesOf(Before(steps), r) + if e == TakeMain(r) then {Main} else if e == TakeSub(r) then {Sub} else {}
  }

  function Told(steps: seq<Step>, r: ReplicaId, m: Member): Replica {
    Replica(m.session, m.node, PhaseOf(steps, r), Accepts(steps, r), Taken(steps, r), Emits(steps, r),
            ReadTo(steps, r, m.node), RolesOf(steps, r))
  }

  // ---------------------------------------------------------------------------------------------------------
  // What they say about messages.

  /** The events on the bus, in order. */
  function Sent(members: map<ReplicaId, Member>, steps: seq<Step>): seq<Event> {
    if steps == [] then []
    else
      var before, e := Before(steps), Latest(steps);
      Sent(members, before) +
      if e.ForwardBus? && e.r in members then [ToMain(members[e.r].session, Message(e.r, Taken(before, e.r)))]
      else if e.Emit? && e.r in members then [ToSub(members[e.r].session, Message(e.r, Emits(before, e.r)))]
      else []
  }

  /** The message of the event that `r` reads next, if there is one. */
  function ReadNext(members: map<ReplicaId, Member>, steps: seq<Step>, r: ReplicaId): Option<Message> {
    if r !in members then None
    else
      var n := members[r].node;
      var p := ReadTo(steps, r, n);
      if p < |Passed(steps, n)| && Passed(steps, n)[p] < |Sent(members, steps)|
      then Some(Sent(members, steps)[Passed(steps, n)[p]].message) else None
  }

  /** What has been put on transports, in order. */
  function Offered(members: map<ReplicaId, Member>, steps: seq<Step>): seq<Offer> {
    if steps == [] then []
    else
      var before, e := Before(steps), Latest(steps);
      Offered(members, before) +
      if e.ForwardDirect? then [Offer(Message(e.r, Taken(before, e.r)), e.r, None)]
      else if e.ReadToMain? && ReadNext(members, before, e.r).Some? then
        [Offer(ReadNext(members, before, e.r).value, e.r, Some(ReadTo(before, e.r, members[e.r].node)))]
      else []
  }

  /** What has been put on client channels, in order. */
  function Delivered(members: map<ReplicaId, Member>, steps: seq<Step>): seq<Delivery> {
    if steps == [] then []
    else
      var before, e := Before(steps), Latest(steps);
      Delivered(members, before) +
      if e.Emit? || e.EmitLocal? then [Delivery(Message(e.r, Emits(before, e.r)), e.r, None)]
      else if e.ReadToSub? && ReadNext(members, before, e.r).Some? then
        [Delivery(ReadNext(members, before, e.r).value, e.r, Some(ReadTo(before, e.r, members[e.r].node)))]
      else []
  }

  // ---------------------------------------------------------------------------------------------------------
  // A state is what its steps say.

  ghost predicate IsTold(members: map<ReplicaId, Member>, steps: seq<Step>, net: Net) {
    && net.replicas.Keys == members.Keys
    && (forall r :: r in members ==> net.replicas[r] == Told(steps, r, members[r]))
    && (forall n :: n in net.log ==> net.log[n] == Passed(steps, n))
    && (forall n :: n in net.handled ==> net.handled[n] == Heard(steps, n))
    && net.bus == Sent(members, steps)
  }

  /** Step `e` is one of object `r`. */
  predicate IsOf(e: Step, r: ReplicaId) {
    !e.Handle? && !e.Lose? && e.r == r
  }

  lemma OthersTold(steps: seq<Step>, r: ReplicaId, m: Member)
    requires steps != [] && !IsOf(Latest(steps), r)
    ensures Told(steps, r, m) == Told(Before(steps), r, m)
  {
  }

  lemma ClientTold(net: Net, steps: seq<Step>, r: ReplicaId, m: Member)
    requires steps != [] && Enabled(net, Latest(steps)) && IsOf(Latest(steps), r)
    requires net.replicas[r] == Told(Before(steps), r, m)
    requires var e := Latest(steps);
             e.Accept? || e.ForwardDirect? || e.ForwardBus? || e.ForwardFail? || e.ClientLag? || e.Emit? || e.EmitLocal?
    ensures Perform(net, Latest(steps)).replicas[r] == Told(steps, r, m)
  {
  }

  lemma ReaderTold(net: Net, steps: seq<Step>, r: ReplicaId, m: Member)
    requires steps != [] && Enabled(net, Latest(steps)) && IsOf(Latest(steps), r)
    requires net.replicas[r] == Told(Before(steps), r, m)
    requires m.node in net.log && net.log[m.node] == Passed(Before(steps), m.node)
    requires var e := Latest(steps); e.ReadToMain? || e.ReadToSub? || e.ReadOther? || e.BusLag?
    ensures Perform(net, Latest(steps)).replicas[r] == Told(steps, r, m)
  {
  }

  lemma PhaseTold(net: Net, steps: seq<Step>, r: ReplicaId, m: Member)
    requires steps != [] && Enabled(net, Latest(steps)) && IsOf(Latest(steps), r)
    requires net.replicas[r] == Told(Before(steps), r, m)
    requires m.node in net.log ==> net.log[m.node] == Passed(Before(steps), m.node)
    requires var e := Latest(steps); e.TakeMain? || e.Connect? || e.ConnectFail? || e.TakeSub? || e.End?
    ensures Perform(net, Latest(steps)).replicas[r] == Told(steps, r, m)
  {
  }

  lemma ObjectTold(members: map<ReplicaId, Member>, steps: seq<Step>, net: Net, r: ReplicaId)
    requires Inv(net) && steps != [] && IsTold(members, Before(steps), net) && Enabled(net, Latest(steps))
    requires r in members
    ensures r in Perform(net, Latest(steps)).replicas
    ensures Perform(net, Latest(steps)).replicas[r] == Told(steps, r, members[r])
  {
    var e, m := Latest(steps), members[r];
    OneMoves(net, e);
    assert ReplicaOk(net, net.replicas[r]);
    if !IsOf(e, r) {
      OthersTold(steps, r, m);
    } else if e.ReadToMain? || e.ReadToSub? || e.ReadOther? || e.BusLag? {
      ReaderTold(net, steps, r, m);
    } else if e.TakeMain? || e.Connect? || e.ConnectFail? || e.TakeSub? || e.End? {
      PhaseTold(net, steps, r, m);
    } else {
      ClientTold(net, steps, r, m);
    }
  }

  lemma HandlingTold(members: map<ReplicaId, Member>, steps: seq<Step>, net: Net)
    requires steps != [] && IsTold(members, Before(steps), net) && Enabled(net, Latest(steps))
    requires Latest(steps).Handle? || Latest(steps).Lose?
    ensures NodesAreTold(steps, net, Perform(net, Latest(steps)))
  {
  }

  ghost predicate NodesAreTold(steps: seq<Step>, net: Net, d: Net) {
    && d.log.Keys == net.log.Keys && d.handled.Keys == net.handled.Keys
    && (forall n :: n in d.log ==> d.log[n] == Passed(steps, n))
    && forall n :: n in d.handled ==> d.handled[n] == Heard(steps, n)
  }

  lemma NodesStand(net: Net, e: Step)
    requires Enabled(net, e) && !e.Handle? && !e.Lose?
    ensures Perform(net, e).log == net.log && Perform(net, e).handled == net.handled
  {
  }

  lemma NodesTold(members: map<ReplicaId, Member>, steps: seq<Step>, net: Net)
    requires steps != [] && IsTold(members, Before(steps), net) && Enabled(net, Latest(steps))
    ensures NodesAreTold(steps, net, Perform(net, Latest(steps)))
  {
    if Latest(steps).Handle? || Latest(steps).Lose? {
      HandlingTold(members, steps, net);
    } else {
      NodesStand(net, Latest(steps));
    }
  }

  lemma NothingSent(net: Net, e: Step)
    requires Enabled(net, e) && !e.ForwardBus? && !e.Emit?
    ensures Perform(net, e).bus == net.bus
  {
  }

  lemma BusTold(members: map<ReplicaId, Member>, steps: seq<Step>, net: Net)
    requires steps != [] && IsTold(members, Before(steps), net) && Enabled(net, Latest(steps))
    ensures Perform(net, Latest(steps)).bus == Sent(members, steps)
  {
    if !Latest(steps).ForwardBus? && !Latest(steps).Emit? {
      NothingSent(net, Latest(steps));
    }
  }

  lemma ReadTold(members: map<ReplicaId, Member>, steps: seq<Step>, net: Net, r: ReplicaId)
    requires Inv(net) && IsTold(members, steps, net) && HasEvent(net, r)
    ensures ReadNext(members, steps, r) == Some(NextEvent(net, r).message)
    ensures ReadTo(steps, r, members[r].node) == net.replicas[r].read
  {
  }

  lemma NothingOffered(net: Net, e: Step)
    requires Enabled(net, e) && !e.ForwardDirect? && !e.ReadToMain?
    ensures Perform(net, e).offers == net.offers
  {
  }

  lemma OffersTold(members: map<ReplicaId, Member>, steps: seq<Step>, net: Net)
    requires Inv(net) && steps != [] && IsTold(members, Before(steps), net) && Enabled(net, Latest(steps))
    requires net.offers == Offered(members, Before(steps))
    ensures Perform(net, Latest(steps)).offers == Offered(members, steps)
  {
    var e := Latest(steps);
    if e.ReadToMain? {
      ReadTold(members, Before(steps), net, e.r);
    } else if !e.ForwardDirect? {
      NothingOffered(net, e);
    }
  }

  lemma NothingDelivered(net: Net, e: Step)
    requires Enabled(net, e) && !e.Emit? && !e.EmitLocal? && !e.ReadToSub?
    ensures Perform(net, e).deliveries == net.deliveries
  {
  }

  lemma DeliveriesTold(members: map<ReplicaId, Member>, steps: seq<Step>, net: Net)
    requires Inv(net) && steps != [] && IsTold(members, Before(steps), net) && Enabled(net, Latest(steps))
    requires net.deliveries == Delivered(members, Before(steps))
    ensures Perform(net, Latest(steps)).deliveries == Delivered(members, steps)
  {
    var e := Latest(steps);
    if e.ReadToSub? {
      ReadTold(members, Before(steps), net, e.r);
    } else if !e.Emit? && !e.EmitLocal? {
      NothingDelivered(net, e);
    }
  }

  /**
   * In every state of every run, positions, phases and counts of each object, the events of the bus and of each node,
   * and all offers and deliveries are what the recursions above read off the steps.
   */
  lemma {:induction false} EverythingIsTold(members: map<ReplicaId, Member>, steps: seq<Step>)
    requires Exec(members, steps).Some?
    ensures var net := Exec(members, steps).value;
            && IsTold(members, steps, net)
            && net.offers == Offered(members, steps) && net.deliveries == Delivered(members, steps)
            && net.log.Keys == net.handled.Keys == (set r | r in members :: members[r].node)
  {
    if steps != [] {
      EverythingIsTold(members, Before(steps));
      InvAlways(members, Before(steps));
      var net := Exec(members, Before(steps)).value;
      MemberStep(net, Latest(steps));
      forall r | r in members ensures Perform(net, Latest(steps)).replicas[r] == Told(steps, r, members[r]) {
        ObjectTold(members, steps, net, r);
      }
      NodesTold(members, steps, net);
      BusTold(members, steps, net);
      OffersTold(members, steps, net);
      DeliveriesTold(members, steps, net);
    }
  }

  /** What an object in phase `phase` can do that is not up to messages. */
  predicate GoesOn(net: Net, r: ReplicaId, phase: Phase) {
    && (Enabled(net, TakeMain(r)) <==> phase == Idle) && (Enabled(net, TakeSub(r)) <==> phase == Idle)
    && (Enabled(net, Connect(r)) <==> phase == Connecting) && (Enabled(net, ConnectFail(r)) <==> phase == Connecting)
    && (Enabled(net, End(r)) <==> phase.Running?) && (Enabled(net, Accept(r)) <==> phase != Lost)
    && (Enabled(net, Emit(r)) <==> phase == Running(Main)) && (Enabled(net, EmitLocal(r)) <==> phase == Running(Main))
  }

  lemma PhaseGoesOn(net: Net, r: ReplicaId)
    requires r in net.replicas && net.replicas[r].node in net.log
    ensures GoesOn(net, r, net.replicas[r].phase)
  {
  }

  /** When an object can take the ends, connect, fail to, break its loop or get a message is up to its phase. */
  lemma ObjectsGoOnExactly(members: map<ReplicaId, Member>, steps: seq<Step>, r: ReplicaId)
    requires Exec(members, steps).Some? && r in members
    ensures GoesOn(Exec(members, steps).value, r, PhaseOf(steps, r))
  {
    var net := Exec(members, steps).value;
    EverythingIsTold(members, steps);
    assert net.replicas[r] == Told(steps, r, members[r]);
    PhaseGoesOn(net, r);
  }

  /** Event number `i` is on the bus, and node `n`, which has objects, has neither passed it on nor lost it. */
  ghost predicate IsOpen(members: map<ReplicaId, Member>, steps: seq<Step>, n: NodeId, i: nat) {
    (exists r :: r in members && members[r].node == n) && i < |Sent(members, steps)| && i !in Heard(steps, n)
  }

  lemma OpenIsUnhandled(members: map<ReplicaId, Member>, steps: seq<Step>, net: Net, n: NodeId, i: nat)
    requires IsTold(members, steps, net)
    requires net.log.Keys == net.handled.Keys == set r | r in members :: members[r].node
    ensures Unhandled(net, n, i) <==> IsOpen(members, steps, n, i)
  {
  }

  /** A node can handle or lose an open event, and no other. */
  lemma NodesGoOnExactly(members: map<ReplicaId, Member>, steps: seq<Step>, n: NodeId, i: nat)
    requires Exec(members, steps).Some?
    ensures Enabled(Exec(members, steps).value, Handle(n, i)) <==> IsOpen(members, steps, n, i)
    ensures Enabled(Exec(members, steps).value, Lose(n, i)) <==> IsOpen(members, steps, n, i)
  {
    EverythingIsTold(members, steps);
    OpenIsUnhandled(members, steps, Exec(members, steps).value, n, i);
  }

  // ---------------------------------------------------------------------------------------------------------
  // A relay hears only what comes after its subscription, in the order of its node's log.

  /** From the offer numbered `o` on, what `r` offers from the bus it has read at position `start` or later. */
  ghost predicate OffersFrom(net: Net, r: ReplicaId, o: nat, start: nat) {
    forall k :: o <= k < |net.offers| && net.offers[k].relay == r && net.offers[k].at.Some? ==>
      start <= net.offers[k].at.value
  }

  ghost predicate DeliversFrom(net: Net, r: ReplicaId, d: nat, start: nat) {
    forall k :: d <= k < |net.deliveries| && net.deliveries[k].to == r && net.deliveries[k].at.Some? ==>
      start <= net.deliveries[k].at.value
  }

  ghost predicate NothingOld(net: Net, r: ReplicaId, start: nat, o: nat, d: nat) {
    && r in net.replicas && start <= net.replicas[r].read
    && OffersFrom(net, r, o, start) && DeliversFrom(net, r, d, start)
  }

  lemma PositionStep(net: Net, e: Step, r: ReplicaId)
    requires Inv(net) && Enabled(net, e) && r in net.replicas
    ensures r in Perform(net, e).replicas && net.replicas[r].read <= Perform(net, e).replicas[r].read
    ensures Perform(net, e).replicas[r].node == net.replicas[r].node
    ensures forall n :: n in net.log ==> n in Perform(net, e).log && net.log[n] <= Perform(net, e).log[n]
  {
    assert ReplicaOk(net, net.replicas[r]);
  }

  /** What a step puts out, it puts out last, and at the position where the relay is. */
  lemma OutputStep(net: Net, e: Step)
    requires Enabled(net, e)
    ensures net.offers <= Perform(net, e).offers && net.deliveries <= Perform(net, e).deliveries
    ensures var d := Perform(net, e);
            && (forall k :: |net.offers| <= k < |d.offers| ==> IsOfferedNow(net, d.offers[k]))
            && forall k :: |net.deliveries| <= k < |d.deliveries| ==> IsDeliveredNow(net, d.deliveries[k])
  {
  }

  predicate IsOfferedNow(net: Net, o: Offer) {
    o.at.Some? ==> o.relay in net.replicas && o.at.value == net.replicas[o.relay].read
  }

  predicate IsDeliveredNow(net: Net, d: Delivery) {
    d.at.Some? ==> d.to in net.replicas && d.at.value == net.replicas[d.to].read
  }

  lemma NothingOldStep(net: Net, e: Step, r: ReplicaId, start: nat, o: nat, d: nat)
    requires Inv(net) && Enabled(net, e) && NothingOld(net, r, start, o, d)
    ensures NothingOld(Perform(net, e), r, start, o, d)
  {
    PositionStep(net, e, r);
    OutputStep(net, e);
  }

  lemma {:induction false} NothingOldStays(members: map<ReplicaId, Member>, steps: seq<Step>, i: nat, r: ReplicaId,
                                           start: nat, o: nat, d: nat)
    requires i <= |steps| && Exec(members, steps).Some? && Exec(members, steps[..i]).Some?
    requires NothingOld(Exec(members, steps[..i]).value, r, start, o, d)
    ensures NothingOld(Exec(members, steps).value, r, start, o, d)
    decreases |steps|
  {
    if i == |steps| {
      assert steps[..i] == steps;
    } else {
      assert Before(steps)[..i] == steps[..i];
      NothingOldStays(members, Before(steps), i, r, start, o, d);
      InvAlways(members, Before(steps));
      NothingOldStep(Exec(members, Before(steps)).value, Latest(steps), r, start, o, d);
    }
  }

  lemma {:induction false} PrefixRuns(members: map<ReplicaId, Member>, steps: seq<Step>, i: nat)
    requires i <= |steps| && Exec(members, steps).Some?
    ensures Exec(members, steps[..i]).Some?
    decreases |steps|
  {
    if i == |steps| {
      assert steps[..i] == steps;
    } else {
      assert Before(steps)[..i] == steps[..i];
      PrefixRuns(members, Before(steps), i);
    }
  }

  /** A relay that takes the ends at step `i` puts nothing out that its node had passed on before that step. */
  lemma HearsOnlyLater(members: map<ReplicaId, Member>, steps: seq<Step>, i: nat, r: ReplicaId)
    requires Exec(members, steps).Some? && i < |steps| && steps[i] in {TakeMain(r), TakeSub(r)}
    ensures Exec(members, steps[..i]).Some?
    ensures var was, net := Exec(members, steps[..i]).value, Exec(members, steps).value;
            && r in was.replicas && was.replicas[r].node in was.log
            && var start := |was.log[was.replicas[r].node]|;
               OffersFrom(net, r, |was.offers|, start) && DeliversFrom(net, r, |was.deliveries|, start)
  {
    PrefixRuns(members, steps, i);
    PrefixRuns(members, steps, i + 1);
    assert steps[..i + 1][..i] == steps[..i];
    var was := Exec(members, steps[..i]).value;
    NothingOldStays(members, steps, i + 1, r, |was.log[was.replicas[r].node]|, |was.offers|, |was.deliveries|);
  }
}
