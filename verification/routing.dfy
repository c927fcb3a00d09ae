/**
 * The data plane of the raft-backed sessions: relay loops that move client messages to the upstream transport and
 * server messages to client channels, directly or over the cluster's event bus. A message is identified by the
 * session object that accepted or received it and its number there; its payload plays no part in routing.
 */
module Routing {
  import opened Prelude
  import Broadcast

  type ReplicaId = nat
  type NodeId = nat
  type SessionId = nat

  datatype Role = Main | Sub

  datatype Message = Message(origin: ReplicaId, number: nat)

  datatype Event =
    | ToMain(session: SessionId, message: Message)
    | ToSub(session: SessionId, message: Message)

  /** `Lost` is a cut connect: the channel ends are gone and the object stays started without a relay. */
  datatype Phase = Idle | Connecting | Running(role: Role) | Lost

  /**
   * `accepted` client messages are in the object's own channel and its relay has taken `taken` of them; `emitted`
   * counts what its transport connections have received; `read` is its position in the log of its node's events.
   * `roles` is history: every role it ever relayed in.
   */
  datatype Replica = Replica(
    session: SessionId,
    node: NodeId,
    phase: Phase,
    accepted: nat,
    taken: nat,
    emitted: nat,
    read: nat,
    roles: set<Role>)

  /** A client message put on a transport by the session object `relay`; `at` is where in the node log it was read. */
  datatype Offer = Offer(message: Message, relay: ReplicaId, at: Option<nat>)

  /** A server message put on the client channel of `to`. */
  datatype Delivery = Delivery(message: Message, to: ReplicaId, at: Option<nat>)

  /**
   * `bus` holds every event sent; a node handles each event at most once, in any order, and passes it on to the
   * relays listening there (`log`, as positions of `bus`) or loses it.
   */
  datatype Net = Net(
    replicas: map<ReplicaId, Replica>,
    bus: seq<Event>,
    handled: map<NodeId, set<nat>>,
    log: map<NodeId, seq<nat>>,
    offers: seq<Offer>,
    deliveries: seq<Delivery>)

  datatype Member = Member(session: SessionId, node: NodeId)

  function Init(members: map<ReplicaId, Member>): Net {
    var nodes := set r | r in members :: members[r].node;
    Net(map r | r in members :: Replica(members[r].session, members[r].node, Idle, 0, 0, 0, 0, {}),
        [], map n | n in nodes :: {}, map n | n in nodes :: [], [], [])
  }

  datatype Step =
    | Accept(r: ReplicaId)
    | TakeMain(r: ReplicaId)
    | Connect(r: ReplicaId)
    | ConnectFail(r: ReplicaId)
    | TakeSub(r: ReplicaId)
    | ForwardDirect(r: ReplicaId)
    | ForwardBus(r: ReplicaId)
    | ForwardFail(r: ReplicaId)
    | ClientLag(r: ReplicaId)
    | Emit(r: ReplicaId)
    | EmitLocal(r: ReplicaId)
    | ReadToMain(r: ReplicaId)
    | ReadToSub(r: ReplicaId)
    | ReadOther(r: ReplicaId)
    | BusLag(r: ReplicaId)
    | End(r: ReplicaId)
    | Handle(n: NodeId, i: nat)
    | Lose(n: NodeId, i: nat)

  predicate InPhase(net: Net, r: ReplicaId, phase: Phase) {
    r in net.replicas && net.replicas[r].phase == phase
  }

  predicate IsRunning(net: Net, r: ReplicaId) {
    r in net.replicas && net.replicas[r].phase.Running?
  }

  predicate HasClientMessage(net: Net, r: ReplicaId) {
    r in net.replicas && net.replicas[r].taken < net.replicas[r].accepted
  }

  predicate HasEvent(net: Net, r: ReplicaId) {
    && r in net.replicas && net.replicas[r].node in net.log
    && net.replicas[r].read < |net.log[net.replicas[r].node]|
    && net.log[net.replicas[r].node][net.replicas[r].read] < |net.bus|
  }

  function NextEvent(net: Net, r: ReplicaId): Event
    requires HasEvent(net, r)
  {
    net.bus[net.log[net.replicas[r].node][net.replicas[r].read]]
  }

  /** The match arm `NotifyToMainSession(event) if event.session_id == my_session_id`. */
  predicate ForMain(net: Net, r: ReplicaId)
    requires HasEvent(net, r)
  {
    NextEvent(net, r).ToMain? && NextEvent(net, r).session == net.replicas[r].session
  }

  predicate ForSub(net: Net, r: ReplicaId)
    requires HasEvent(net, r)
  {
    NextEvent(net, r).ToSub? && NextEvent(net, r).session == net.replicas[r].session
  }

  predicate Unhandled(net: Net, n: NodeId, i: nat) {
    n in net.handled && n in net.log && i < |net.bus| && i !in net.handled[n]
  }

  predicate Enabled(net: Net, e: Step) {
    match e
    case Accept(r) => r in net.replicas && net.replicas[r].phase != Lost
    case TakeMain(r) => InPhase(net, r, Idle) && net.replicas[r].node in net.log
    case Connect(r) => InPhase(net, r, Connecting)
    case ConnectFail(r) => InPhase(net, r, Connecting)
    case TakeSub(r) => InPhase(net, r, Idle) && net.replicas[r].node in net.log
    case ForwardDirect(r) => InPhase(net, r, Running(Main)) && HasClientMessage(net, r)
    case ForwardBus(r) => InPhase(net, r, Running(Sub)) && HasClientMessage(net, r)
    case ForwardFail(r) => InPhase(net, r, Running(Sub)) && HasClientMessage(net, r)
    case ClientLag(r) => IsRunning(net, r) && net.replicas[r].taken + Broadcast.CAPACITY < net.replicas[r].accepted
    case Emit(r) => InPhase(net, r, Running(Main))
    case EmitLocal(r) => InPhase(net, r, Running(Main))
    case ReadToMain(r) => InPhase(net, r, Running(Main)) && HasEvent(net, r) && ForMain(net, r)
    case ReadToSub(r) => InPhase(net, r, Running(Sub)) && HasEvent(net, r) && ForSub(net, r)
    case ReadOther(r) =>
      && IsRunning(net, r) && HasEvent(net, r)
      && !(if net.replicas[r].phase.role.Main? then ForMain(net, r) else ForSub(net, r))
    case BusLag(r) =>
      && IsRunning(net, r) && net.replicas[r].node in net.log
      && net.replicas[r].read + Broadcast.CAPACITY < |net.log[net.replicas[r].node]|
    case End(r) => IsRunning(net, r)
    case Handle(n, i) => Unhandled(net, n, i)
    case Lose(n, i) => Unhandled(net, n, i)
  }

  function Set(net: Net, r: ReplicaId, replica: Replica): Net {
    net.(replicas := net.replicas[r := replica])
  }

  function Send(net: Net, event: Event): Net {
    net.(bus := net.bus + [event])
  }

  function AddOffer(net: Net, offer: Offer): Net {
    net.(offers := net.offers + [offer])
  }

  function Deliver(net: Net, delivery: Delivery): Net {
    net.(deliveries := net.deliveries + [delivery])
  }

  function MarkHandled(net: Net, n: NodeId, i: nat): Net
    requires n in net.handled
  {
    net.(handled := net.handled[n := net.handled[n] + {i}])
  }

  function Pass(net: Net, n: NodeId, i: nat): Net
    requires n in net.log
  {
    net.(log := net.log[n := net.log[n] + [i]])
  }

  function Own(net: Net, r: ReplicaId): Replica
    requires r in net.replicas
  {
    net.replicas[r]
  }

  /** The replica after it has subscribed to its node's events: it hears only what comes from now on. */
  function Subscribed(net: Net, r: ReplicaId, phase: Phase, role: Role): Replica
    requires r in net.replicas && net.replicas[r].node in net.log
  {
    Own(net, r).(phase := phase, read := |net.log[net.replicas[r].node]|, roles := Own(net, r).roles + {role})
  }

  function Perform(net: Net, e: Step): Net
    requires Enabled(net, e)
  {
    match e
    case Accept(r) => Set(net, r, Own(net, r).(accepted := Own(net, r).accepted + 1))
    case TakeMain(r) => Set(net, r, Subscribed(net, r, Connecting, Main))
    case Connect(r) => Set(net, r, Own(net, r).(phase := Running(Main)))
    case ConnectFail(r) => Set(net, r, Own(net, r).(phase := Lost))
    case TakeSub(r) => Set(net, r, Subscribed(net, r, Running(Sub), Sub))
    case ForwardDirect(r) =>
      AddOffer(Set(net, r, Own(net, r).(taken := Own(net, r).taken + 1)),
               Offer(Message(r, Own(net, r).taken), r, None))
    case ForwardBus(r) =>
      Send(Set(net, r, Own(net, r).(taken := Own(net, r).taken + 1)),
           ToMain(Own(net, r).session, Message(r, Own(net, r).taken)))
    case ForwardFail(r) => Set(net, r, Own(net, r).(taken := Own(net, r).taken + 1))
    case ClientLag(r) => Set(net, r, Own(net, r).(taken := Own(net, r).accepted - Broadcast.CAPACITY))
    case Emit(r) =>
      Deliver(Send(Set(net, r, Own(net, r).(emitted := Own(net, r).emitted + 1)),
                   ToSub(Own(net, r).session, Message(r, Own(net, r).emitted))),
              Delivery(Message(r, Own(net, r).emitted), r, None))
    case EmitLocal(r) =>
      Deliver(Set(net, r, Own(net, r).(emitted := Own(net, r).emitted + 1)),
              Delivery(Message(r, Own(net, r).emitted), r, None))
    case ReadToMain(r) =>
      AddOffer(Set(net, r, Own(net, r).(read := Own(net, r).read + 1)),
               Offer(NextEvent(net, r).message, r, Some(Own(net, r).read)))
    case ReadToSub(r) =>
      Deliver(Set(net, r, Own(net, r).(read := Own(net, r).read + 1)),
              Delivery(NextEvent(net, r).message, r, Some(Own(net, r).read)))
    case ReadOther(r) => Set(net, r, Own(net, r).(read := Own(net, r).read + 1))
    case BusLag(r) => Set(net, r, Own(net, r).(read := |net.log[Own(net, r).node]| - Broadcast.CAPACITY))
    case End(r) => Set(net, r, Own(net, r).(phase := Idle))
    case Handle(n, i) => Pass(MarkHandled(net, n, i), n, i)
    case Lose(n, i) => MarkHandled(net, n, i)
  }

  /** The state after `steps`, if each of them is enabled in turn. */
  function Exec(members: map<ReplicaId, Member>, steps: seq<Step>): Option<Net> {
    if steps == [] then Some(Init(members))
    else
      match Exec(members, steps[..|steps| - 1])
      case None => None
      case Some(net) =>
        if Enabled(net, steps[|steps| - 1]) then Some(Perform(net, steps[|steps| - 1])) else None
  }

  /** A node's step touches no object, and an object's step only its own one. */
  lemma OneMoves(net: Net, e: Step)
    requires Enabled(net, e)
    ensures if e.Handle? || e.Lose? then Perform(net, e).replicas == net.replicas
            else && e.r in net.replicas && e.r in Perform(net, e).replicas
                 && Perform(net, e).replicas == net.replicas[e.r := Perform(net, e).replicas[e.r]]
  {
  }

  // ---------------------------------------------------------------------------------------------------------
  // The invariant of every reachable state.

  predicate ReplicaOk(net: Net, replica: Replica) {
    && replica.node in net.log && replica.node in net.handled
    && replica.read <= |net.log[replica.node]|
    && replica.taken <= replica.accepted
    && (replica.phase.Running? ==> replica.phase.role in replica.roles)
    && (replica.phase.Connecting? ==> Main in replica.roles)
  }

  ghost predicate ReplicasOk(net: Net) {
    forall r :: r in net.replicas ==> ReplicaOk(net, net.replicas[r])
  }

  /** Each node passes an event on at most once. */
  ghost predicate LogsOk(net: Net) {
    && net.log.Keys == net.handled.Keys
    && (forall n, p :: n in net.log && 0 <= p < |net.log[n]| ==>
          net.log[n][p] < |net.bus| && net.log[n][p] in net.handled[n])
    && (forall n :: n in net.log ==> NoDuplicates(net.log[n]))
  }

  predicate EventOk(net: Net, event: Event) {
    && event.message.origin in net.replicas
    && var origin := net.replicas[event.message.origin];
       && origin.session == event.session
       && match event {
            case ToMain(_, m) => m.number < origin.taken && Sub in origin.roles
            case ToSub(_, m) => m.number < origin.emitted && Main in origin.roles
          }
  }

  /** Every event carries its own message of its own session, and no event is sent twice. */
  ghost predicate BusOk(net: Net) {
    && (forall i :: 0 <= i < |net.bus| ==> EventOk(net, net.bus[i]))
    && NoDuplicates(net.bus)
  }

  /** Position `p` of the log of the node of `r`, already read by `r`, carries `event`. */
  predicate HasRead(net: Net, r: ReplicaId, p: nat, event: Event)
    requires r in net.replicas
  {
    && net.replicas[r].node in net.log
    && p < net.replicas[r].read && p < |net.log[net.replicas[r].node]|
    && net.log[net.replicas[r].node][p] < |net.bus| && net.bus[net.log[net.replicas[r].node][p]] == event
  }

  predicate OfferOk(net: Net, o: Offer) {
    && o.relay in net.replicas && Main in net.replicas[o.relay].roles
    && o.message.origin in net.replicas
    && net.replicas[o.message.origin].session == net.replicas[o.relay].session
    && o.message.number < net.replicas[o.message.origin].taken
    && match o.at {
         case None => o.relay == o.message.origin
         case Some(p) => HasRead(net, o.relay, p, ToMain(net.replicas[o.relay].session, o.message))
       }
  }

  ghost predicate OffersOk(net: Net) {
    && (forall i :: 0 <= i < |net.offers| ==> OfferOk(net, net.offers[i]))
    && NoDuplicates(net.offers)
    && (forall i, k :: KeptOff(net, i, k))
  }

  /** A message that a main took from its own channel never went over the bus. */
  ghost predicate KeptOff(net: Net, i: int, k: int) {
    0 <= i < |net.offers| && 0 <= k < |net.bus| && net.offers[i].at.None? ==>
      net.bus[k] != ToMain(net.bus[k].session, net.offers[i].message)
  }

  predicate DeliveryOk(net: Net, d: Delivery) {
    && d.to in net.replicas && d.message.origin in net.replicas
    && net.replicas[d.message.origin].session == net.replicas[d.to].session
    && d.message.number < net.replicas[d.message.origin].emitted
    && match d.at {
         case None => d.to == d.message.origin && Main in net.replicas[d.to].roles
         case Some(p) =>
           Sub in net.replicas[d.to].roles && HasRead(net, d.to, p, ToSub(net.replicas[d.to].session, d.message))
       }
  }

  ghost predicate DeliveriesOk(net: Net) {
    && (forall i :: 0 <= i < |net.deliveries| ==> DeliveryOk(net, net.deliveries[i]))
    && NoDuplicates(net.deliveries)
  }

  ghost predicate Inv(net: Net) {
    ReplicasOk(net) && LogsOk(net) && BusOk(net) && OffersOk(net) && DeliveriesOk(net)
  }

  /** `after` differs from `before` only by what a relay has moved on to. */
  predicate Advances(before: Replica, after: Replica) {
    && after.session == before.session && after.node == before.node
    && before.taken <= after.taken && before.emitted <= after.emitted && before.read <= after.read
    && before.roles <= after.roles
  }

  /** Replica `r` of `net` may move on to `replica`. */
  predicate MayBecome(net: Net, r: ReplicaId, replica: Replica) {
    r in net.replicas && Advances(net.replicas[r], replica) && ReplicaOk(net, replica)
  }

  lemma SetKeepsBus(net: Net, r: ReplicaId, replica: Replica)
    requires Inv(net) && MayBecome(net, r, replica)
    ensures BusOk(Set(net, r, replica))
  {
    assert forall i :: 0 <= i < |net.bus| ==> EventOk(net, net.bus[i]);
  }

  lemma SetKeepsOffers(net: Net, r: ReplicaId, replica: Replica)
    requires Inv(net) && MayBecome(net, r, replica)
    ensures OffersOk(Set(net, r, replica))
  {
    var d := Set(net, r, replica);
    assert forall i :: 0 <= i < |d.offers| ==> OfferOk(net, d.offers[i]);
    assert forall i, k :: KeptOff(d, i, k) <== KeptOff(net, i, k);
  }

  lemma SetKeepsDeliveries(net: Net, r: ReplicaId, replica: Replica)
    requires Inv(net) && MayBecome(net, r, replica)
    ensures DeliveriesOk(Set(net, r, replica))
  {
    var d := Set(net, r, replica);
    assert forall i :: 0 <= i < |d.deliveries| ==> DeliveryOk(net, d.deliveries[i]);
  }

  lemma SetKeeps(net: Net, r: ReplicaId, replica: Replica)
    requires Inv(net) && r in net.replicas && Advances(net.replicas[r], replica) && ReplicaOk(net, replica)
    ensures Inv(Set(net, r, replica))
  {
    SetKeepsBus(net, r, replica);
    SetKeepsOffers(net, r, replica);
    SetKeepsDeliveries(net, r, replica);
  }

  /** No main has taken `message` from its own channel. */
  ghost predicate NotKept(net: Net, message: Message) {
    forall i :: 0 <= i < |net.offers| && net.offers[i].at.None? ==> net.offers[i].message != message
  }

  /** The client message `message` was not sent over the bus. */
  ghost predicate NotSent(net: Net, message: Message) {
    forall k :: 0 <= k < |net.bus| ==> net.bus[k] != ToMain(net.bus[k].session, message)
  }

  lemma SendKeeps(net: Net, event: Event)
    requires Inv(net) && EventOk(net, event) && event !in net.bus
    requires event.ToMain? ==> NotKept(net, event.message)
    ensures Inv(Send(net, event))
  {
    var d := Send(net, event);
    NoDuplicatesAppend(net.bus, event);
    forall i | 0 <= i < |d.bus| ensures EventOk(d, d.bus[i]) {
      if i < |net.bus| { assert EventOk(net, net.bus[i]); }
    }
    assert forall i :: 0 <= i < |d.offers| ==> OfferOk(net, d.offers[i]);
    assert forall i :: 0 <= i < |d.deliveries| ==> DeliveryOk(net, d.deliveries[i]);
    assert forall i, k :: KeptOff(d, i, k) <== KeptOff(net, i, k);
  }

  lemma OfferKeeps(net: Net, offer: Offer)
    requires Inv(net) && OfferOk(net, offer) && offer !in net.offers
    requires offer.at.None? ==> NotSent(net, offer.message)
    ensures Inv(AddOffer(net, offer))
  {
    var d := AddOffer(net, offer);
    NoDuplicatesAppend(net.offers, offer);
    forall i | 0 <= i < |d.offers| ensures OfferOk(d, d.offers[i]) {
      if i < |net.offers| { assert OfferOk(net, net.offers[i]); }
    }
    assert forall i :: 0 <= i < |d.bus| ==> EventOk(net, d.bus[i]);
    assert forall i :: 0 <= i < |d.deliveries| ==> DeliveryOk(net, d.deliveries[i]);
    assert forall i, k :: KeptOff(d, i, k) <== KeptOff(net, i, k);
  }

  lemma DeliverKeeps(net: Net, delivery: Delivery)
    requires Inv(net) && DeliveryOk(net, delivery) && delivery !in net.deliveries
    ensures Inv(Deliver(net, delivery))
  {
    var d := Deliver(net, delivery);
    NoDuplicatesAppend(net.deliveries, delivery);
    forall i | 0 <= i < |d.deliveries| ensures DeliveryOk(d, d.deliveries[i]) {
      if i < |net.deliveries| { assert DeliveryOk(net, net.deliveries[i]); }
    }
    assert forall i :: 0 <= i < |d.bus| ==> EventOk(net, d.bus[i]);
    assert forall i :: 0 <= i < |d.offers| ==> OfferOk(net, d.offers[i]);
    assert forall i, k :: KeptOff(d, i, k) <== KeptOff(net, i, k);
  }

  lemma MarkKeeps(net: Net, n: NodeId, i: nat)
    requires Inv(net) && Unhandled(net, n, i)
    ensures Inv(MarkHandled(net, n, i))
  {
    var d := MarkHandled(net, n, i);
    assert forall k :: 0 <= k < |d.bus| ==> EventOk(net, d.bus[k]);
    assert forall k :: 0 <= k < |d.offers| ==> OfferOk(net, d.offers[k]);
    assert forall k :: 0 <= k < |d.deliveries| ==> DeliveryOk(net, d.deliveries[k]);
    assert forall r :: r in d.replicas ==> ReplicaOk(net, d.replicas[r]);
    assert forall i, k :: KeptOff(d, i, k) <== KeptOff(net, i, k);
  }

  lemma PassKeeps(net: Net, n: NodeId, i: nat)
    requires Inv(net) && n in net.log && i < |net.bus| && i in net.handled[n] && i !in net.log[n]
    ensures Inv(Pass(net, n, i))
  {
    var d := Pass(net, n, i);
    NoDuplicatesAppend(net.log[n], i);
    assert forall k :: 0 <= k < |d.bus| ==> EventOk(net, d.bus[k]);
    assert forall k :: 0 <= k < |d.offers| ==> OfferOk(net, d.offers[k]);
    assert forall k :: 0 <= k < |d.deliveries| ==> DeliveryOk(net, d.deliveries[k]);
    assert forall r :: r in d.replicas ==> ReplicaOk(net, d.replicas[r]);
    assert forall i, k :: KeptOff(d, i, k) <== KeptOff(net, i, k);
  }

  predicate Moves(e: Step) {
    || e.Accept? || e.TakeMain? || e.Connect? || e.ConnectFail? || e.TakeSub? || e.ForwardFail? || e.ClientLag?
    || e.ReadOther? || e.BusLag? || e.End?
  }

  /** The steps that change nothing but the replica itself. */
  lemma MoveKeeps(net: Net, e: Step)
    requires Inv(net) && Enabled(net, e) && Moves(e)
    ensures Inv(Perform(net, e))
  {
    var d := Perform(net, e);
    assert ReplicaOk(net, net.replicas[e.r]);
    assert d == Set(net, e.r, d.replicas[e.r]);
    SetKeeps(net, e.r, d.replicas[e.r]);
  }

  /** The message a relay is about to take has been neither offered nor sent. */
  lemma FreshClientMessage(net: Net, r: ReplicaId)
    requires Inv(net) && r in net.replicas
    ensures var message := Message(r, net.replicas[r].taken);
            && (forall i :: 0 <= i < |net.offers| ==> net.offers[i].message != message)
            && (forall k :: 0 <= k < |net.bus| ==> net.bus[k] != ToMain(net.bus[k].session, message))
  {
  }

  /** The message a transport is about to bring has been neither delivered nor sent. */
  lemma FreshServerMessage(net: Net, r: ReplicaId)
    requires Inv(net) && r in net.replicas
    ensures var message := Message(r, net.replicas[r].emitted);
            && (forall i :: 0 <= i < |net.deliveries| ==> net.deliveries[i].message != message)
            && (forall k :: 0 <= k < |net.bus| ==> net.bus[k] != ToSub(net.bus[k].session, message))
  {
  }

  /** What a relay reads next it has not read before. */
  lemma FreshPosition(net: Net, r: ReplicaId)
    requires Inv(net) && r in net.replicas
    ensures forall i :: 0 <= i < |net.offers| && net.offers[i].relay == r ==>
              net.offers[i].at != Some(net.replicas[r].read)
    ensures forall i :: 0 <= i < |net.deliveries| && net.deliveries[i].to == r ==>
              net.deliveries[i].at != Some(net.replicas[r].read)
  {
  }

  lemma SetThenOfferKeeps(net: Net, r: ReplicaId, replica: Replica, offer: Offer)
    requires Inv(net) && r in net.replicas && Advances(net.replicas[r], replica) && ReplicaOk(net, replica)
    requires OfferOk(Set(net, r, replica), offer) && offer !in net.offers
    requires offer.at.None? ==> NotSent(net, offer.message)
    ensures Inv(AddOffer(Set(net, r, replica), offer))
  {
    SetKeeps(net, r, replica);
    OfferKeeps(Set(net, r, replica), offer);
  }

  lemma SetThenSendKeeps(net: Net, r: ReplicaId, replica: Replica, event: Event)
    requires Inv(net) && r in net.replicas && Advances(net.replicas[r], replica) && ReplicaOk(net, replica)
    requires EventOk(Set(net, r, replica), event) && event !in net.bus
    requires event.ToMain? ==> NotKept(net, event.message)
    ensures Inv(Send(Set(net, r, replica), event))
  {
    SetKeeps(net, r, replica);
    SendKeeps(Set(net, r, replica), event);
  }

  lemma SetThenDeliverKeeps(net: Net, r: ReplicaId, replica: Replica, delivery: Delivery)
    requires Inv(net) && r in net.replicas && Advances(net.replicas[r], replica) && ReplicaOk(net, replica)
    requires DeliveryOk(Set(net, r, replica), delivery) && delivery !in net.deliveries
    ensures Inv(Deliver(Set(net, r, replica), delivery))
  {
    SetKeeps(net, r, replica);
    DeliverKeeps(Set(net, r, replica), delivery);
  }

  lemma ForwardDirectKeeps(net: Net, r: ReplicaId)
    requires Inv(net) && Enabled(net, ForwardDirect(r))
    ensures Inv(Perform(net, ForwardDirect(r)))
  {
    var own := net.replicas[r];
    assert ReplicaOk(net, own);
    FreshClientMessage(net, r);
    var moved, offer := own.(taken := own.taken + 1), Offer(Message(r, own.taken), r, None);
    assert Perform(net, ForwardDirect(r)) == AddOffer(Set(net, r, moved), offer);
    SetThenOfferKeeps(net, r, moved, offer);
  }

  lemma ForwardBusKeeps(net: Net, r: ReplicaId)
    requires Inv(net) && Enabled(net, ForwardBus(r))
    ensures Inv(Perform(net, ForwardBus(r)))
  {
    var own := net.replicas[r];
    assert ReplicaOk(net, own);
    FreshClientMessage(net, r);
    var moved, event := own.(taken := own.taken + 1), ToMain(own.session, Message(r, own.taken));
    assert Perform(net, ForwardBus(r)) == Send(Set(net, r, moved), event);
    assert EventOk(Set(net, r, moved), event);
    SetThenSendKeeps(net, r, moved, event);
  }

  lemma EmitKeeps(net: Net, r: ReplicaId)
    requires Inv(net) && Enabled(net, Emit(r))
    ensures Inv(Perform(net, Emit(r)))
  {
    var own := net.replicas[r];
    assert ReplicaOk(net, own);
    FreshServerMessage(net, r);
    var moved, event := own.(emitted := own.emitted + 1), ToSub(own.session, Message(r, own.emitted));
    var delivery := Delivery(Message(r, own.emitted), r, None);
    assert Perform(net, Emit(r)) == Deliver(Send(Set(net, r, moved), event), delivery);
    assert DeliveryOk(Send(Set(net, r, moved), event), delivery);
    SetThenSendKeeps(net, r, moved, event);
    DeliverKeeps(Send(Set(net, r, moved), event), delivery);
  }

  lemma EmitLocalKeeps(net: Net, r: ReplicaId)
    requires Inv(net) && Enabled(net, EmitLocal(r))
    ensures Inv(Perform(net, EmitLocal(r)))
  {
    var own := net.replicas[r];
    assert ReplicaOk(net, own);
    FreshServerMessage(net, r);
    var moved, delivery := own.(emitted := own.emitted + 1), Delivery(Message(r, own.emitted), r, None);
    assert Main in own.roles;
    assert Perform(net, EmitLocal(r)) == Deliver(Set(net, r, moved), delivery);
    assert DeliveryOk(Set(net, r, moved), delivery);
    SetThenDeliverKeeps(net, r, moved, delivery);
  }

  lemma ReadToMainKeeps(net: Net, r: ReplicaId)
    requires Inv(net) && Enabled(net, ReadToMain(r))
    ensures Inv(Perform(net, ReadToMain(r)))
  {
    var own := net.replicas[r];
    assert ReplicaOk(net, own);
    FreshPosition(net, r);
    assert EventOk(net, NextEvent(net, r));
    var moved, offer := own.(read := own.read + 1), Offer(NextEvent(net, r).message, r, Some(own.read));
    assert Perform(net, ReadToMain(r)) == AddOffer(Set(net, r, moved), offer);
    assert OfferOk(Set(net, r, moved), offer);
    SetThenOfferKeeps(net, r, moved, offer);
  }

  lemma ReadToSubKeeps(net: Net, r: ReplicaId)
    requires Inv(net) && Enabled(net, ReadToSub(r))
    ensures Inv(Perform(net, ReadToSub(r)))
  {
    var own := net.replicas[r];
    assert ReplicaOk(net, own);
    FreshPosition(net, r);
    assert EventOk(net, NextEvent(net, r));
    var moved, delivery := own.(read := own.read + 1), Delivery(NextEvent(net, r).message, r, Some(own.read));
    assert Perform(net, ReadToSub(r)) == Deliver(Set(net, r, moved), delivery);
    assert DeliveryOk(Set(net, r, moved), delivery);
    SetThenDeliverKeeps(net, r, moved, delivery);
  }

  /** Every step keeps the invariant. */
  lemma InvStep(net: Net, e: Step)
    requires Inv(net) && Enabled(net, e)
    ensures Inv(Perform(net, e))
  {
    if Moves(e) {
      MoveKeeps(net, e);
    } else {
      match e
      case ForwardDirect(r) => ForwardDirectKeeps(net, r);
      case ForwardBus(r) => ForwardBusKeeps(net, r);
      case Emit(r) => EmitKeeps(net, r);
      case EmitLocal(r) => EmitLocalKeeps(net, r);
      case ReadToMain(r) => ReadToMainKeeps(net, r);
      case ReadToSub(r) => ReadToSubKeeps(net, r);
      case Handle(n, i) =>
        MarkKeeps(net, n, i);
        PassKeeps(MarkHandled(net, n, i), n, i);
      case Lose(n, i) => MarkKeeps(net, n, i);
    }
  }

  /** The invariant of every reachable state. */
  lemma {:induction false} InvAlways(members: map<ReplicaId, Member>, steps: seq<Step>)
    requires Exec(members, steps).Some?
    ensures Inv(Exec(members, steps).value)
  {
    if steps != [] {
      InvAlways(members, steps[..|steps| - 1]);
      InvStep(Exec(members, steps[..|steps| - 1]).value, steps[|steps| - 1]);
    }
  }

  // ---------------------------------------------------------------------------------------------------------
  // What the invariant says about messages.

  /** In every run, every message put on a transport or on a client channel comes from that session. */
  lemma NothingCrossesSessions(members: map<ReplicaId, Member>, steps: seq<Step>)
    requires Exec(members, steps).Some?
    ensures var net := Exec(members, steps).value;
            && (forall o :: o in net.offers ==>
                  o.relay in net.replicas && o.message.origin in net.replicas
                  && net.replicas[o.message.origin].session == net.replicas[o.relay].session)
            && (forall d :: d in net.deliveries ==>
                  d.to in net.replicas && d.message.origin in net.replicas
                  && net.replicas[d.message.origin].session == net.replicas[d.to].session)
  {
    InvAlways(members, steps);
  }

  predicate InSession(net: Net, r: ReplicaId, s: SessionId) {
    r in net.replicas && net.replicas[r].session == s
  }

  /** No client message of session `s` was put on a transport twice. */
  ghost predicate ClientAtMostOnce(net: Net, s: SessionId) {
    forall i, j ::
      0 <= i < j < |net.offers| && InSession(net, net.offers[i].relay, s) ==>
        net.offers[i].message != net.offers[j].message
  }

  /** No server message was put on the client channel of `r` twice. */
  ghost predicate ServerAtMostOnce(net: Net, r: ReplicaId) {
    forall i, j :: 0 <= i < j < |net.deliveries| && net.deliveries[i].to == net.deliveries[j].to == r ==>
      net.deliveries[i].message != net.deliveries[j].message
  }

  /** Some object of session `s` has relayed as a sub, and two objects of it have relayed as its main. */
  ghost predicate Contended(net: Net, s: SessionId) {
    exists a, b, c ::
      && a != b && InSession(net, a, s) && InSession(net, b, s) && InSession(net, c, s)
      && Main in net.replicas[a].roles && Main in net.replicas[b].roles && Sub in net.replicas[c].roles
  }

  /** Two log positions of one node that carry the same event are the same position. */
  lemma SamePosition(net: Net, r: ReplicaId, p: nat, q: nat, event: Event)
    requires Inv(net) && r in net.replicas && HasRead(net, r, p, event) && HasRead(net, r, q, event)
    ensures p == q
  {
    var log := net.log[net.replicas[r].node];
    NoDuplicatesAt(net.bus, log[p], log[q]);
    NoDuplicatesAt(log, p, q);
  }

  /** A client message that a sub of session `s` sent over the bus and that two mains of `s` read from it. */
  ghost predicate IsDoubleOffer(net: Net, a: Offer, b: Offer, s: SessionId) {
    && a.relay != b.relay && InSession(net, a.relay, s) && InSession(net, b.relay, s)
    && InSession(net, a.message.origin, s) && ToMain(s, a.message) in net.bus && a.at.Some? && b.at.Some?
    && Main in net.replicas[a.relay].roles && Main in net.replicas[b.relay].roles
    && Sub in net.replicas[a.message.origin].roles
  }

  /** One message that was offered twice was offered by two mains of its session, each from the bus, sent by a sub. */
  lemma DuplicateNeedsTwoMains(net: Net, i: nat, j: nat)
    requires Inv(net) && i < j < |net.offers| && net.offers[i].message == net.offers[j].message
    ensures net.offers[i].relay in net.replicas
    ensures IsDoubleOffer(net, net.offers[i], net.offers[j], net.replicas[net.offers[i].relay].session)
    ensures Contended(net, net.replicas[net.offers[i].relay].session)
  {
    var a, b := net.offers[i], net.offers[j];
    assert OfferOk(net, a) && OfferOk(net, b);
    assert Differ(net.offers, i, j);
    var s := net.replicas[a.relay].session;
    var event := ToMain(s, a.message);
    SomeWentOverBus(net, i, j);
    assert EventOk(net, event);
    if a.relay == b.relay {
      SamePosition(net, a.relay, a.at.value, b.at.value, event);
    }
    var c := a.message.origin;
    assert InSession(net, a.relay, s) && InSession(net, b.relay, s) && InSession(net, c, s);
  }

  lemma SomeWentOverBus(net: Net, i: nat, j: nat)
    requires Inv(net) && i < j < |net.offers| && net.offers[i].message == net.offers[j].message
    ensures net.offers[i].at.Some? && net.offers[j].at.Some?
    ensures ToMain(net.replicas[net.offers[i].relay].session, net.offers[i].message) in net.bus
  {
    var a, b := net.offers[i], net.offers[j];
    assert OfferOk(net, a) && OfferOk(net, b);
    assert Differ(net.offers, i, j);
    if a.at.None? && b.at.Some? {
      OwnWayDiffers(net, i, j);
    } else if a.at.Some? && b.at.None? {
      OwnWayDiffers(net, j, i);
    }
  }

  lemma OwnWayDiffers(net: Net, i: nat, j: nat)
    requires Inv(net) && i < |net.offers| && j < |net.offers|
    requires net.offers[i].at.None? && net.offers[j].at.Some?
    ensures net.offers[i].message != net.offers[j].message
  {
    var b := net.offers[j];
    assert OfferOk(net, b);
    var k := net.log[net.replicas[b.relay].node][b.at.value];
    assert KeptOff(net, i, k);
  }

  /** However objects start, stop and change roles: without a sub beside two mains nothing is forwarded twice. */
  lemma ClientMessagesOnce(members: map<ReplicaId, Member>, steps: seq<Step>, s: SessionId)
    requires Exec(members, steps).Some? && !Contended(Exec(members, steps).value, s)
    ensures ClientAtMostOnce(Exec(members, steps).value, s)
  {
    InvAlways(members, steps);
    var net := Exec(members, steps).value;
    forall i, j | 0 <= i < j < |net.offers| && InSession(net, net.offers[i].relay, s)
      ensures net.offers[i].message != net.offers[j].message
    {
      if net.offers[i].message == net.offers[j].message {
        DuplicateNeedsTwoMains(net, i, j);
      }
    }
  }

  /** An object that never changed its role puts every server message on its client channel at most once. */
  lemma ServerMessagesOnce(members: map<ReplicaId, Member>, steps: seq<Step>, r: ReplicaId)
    requires Exec(members, steps).Some? && r in Exec(members, steps).value.replicas
    requires !({Main, Sub} <= Exec(members, steps).value.replicas[r].roles)
    ensures ServerAtMostOnce(Exec(members, steps).value, r)
  {
    InvAlways(members, steps);
    var net := Exec(members, steps).value;
    forall i, j | 0 <= i < j < |net.deliveries| && net.deliveries[i].to == net.deliveries[j].to == r
      ensures net.deliveries[i].message != net.deliveries[j].message
    {
      SameDelivery(net, i, j);
    }
  }

  lemma SameDelivery(net: Net, i: nat, j: nat)
    requires Inv(net) && i < j < |net.deliveries| && net.deliveries[i].to == net.deliveries[j].to
    requires !({Main, Sub} <= net.replicas[net.deliveries[i].to].roles)
    ensures net.deliveries[i].message != net.deliveries[j].message
  {
    var a, b := net.deliveries[i], net.deliveries[j];
    assert DeliveryOk(net, a) && DeliveryOk(net, b) && Differ(net.deliveries, i, j);
    if a.message == b.message && a.at.Some? && b.at.Some? {
      SamePosition(net, a.to, a.at.value, b.at.value, ToSub(net.replicas[a.to].session, a.message));
    }
  }
}
